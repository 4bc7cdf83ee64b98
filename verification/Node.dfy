/**
 A node: its channels and its payment ledger.  What a channel commits to is summarized per payment hash,
 checked by the ledger before the commitment is accepted, and recorded by it afterwards.
 */
module Nodes {
  import opened Wrappers
  import opened Channels
  import opened Ledgers
  import ChannelSafety
  import LedgerSafety

  // ---------- what is in flight on a channel ----------

  /** The commitments of both sides. */
  datatype Commitments = Commitments(holder: Option<CommitmentInfo>, counterparty: Option<CommitmentInfo>)

  function Current(e: EnforcementState): Commitments {
    Commitments(e.holderInfo, e.currentInfo)
  }

  function Offered(i: Option<CommitmentInfo>): seq<Htlc> {
    if i.Some? then i.value.offered else []
  }

  function Received(i: Option<CommitmentInfo>): seq<Htlc> {
    if i.Some? then i.value.received else []
  }

  /** The HTLCs of one payment, summed. */
  function SumFor(htlcs: seq<Htlc>, h: PaymentHash): nat {
    if htlcs == [] then 0
    else
      var n := |htlcs| - 1;
      SumFor(htlcs[..n], h) + if htlcs[n].paymentHash == h then htlcs[n].valueSat else 0
  }

  function HashesOf(htlcs: seq<Htlc>): set<PaymentHash> {
    set i | 0 <= i < |htlcs| :: htlcs[i].paymentHash
  }

  ghost predicate Fits(htlcs: seq<Htlc>) {
    forall h :: SumFor(htlcs, h) <= U64_MAX
  }

  lemma {:induction false} SumForNone(htlcs: seq<Htlc>, h: PaymentHash)
    requires h !in HashesOf(htlcs)
    ensures SumFor(htlcs, h) == 0
  {
    if htlcs != [] {
      var n := |htlcs| - 1;
      assert htlcs[n].paymentHash in HashesOf(htlcs);
      assert HashesOf(htlcs[..n]) <= HashesOf(htlcs);
      SumForNone(htlcs[..n], h);
    }
  }

  lemma {:induction false} SumForMono(htlcs: seq<Htlc>, n: nat, h: PaymentHash)
    requires n <= |htlcs|
    ensures SumFor(htlcs[..n], h) <= SumFor(htlcs, h)
    decreases |htlcs|
  {
    if n < |htlcs| {
      var m := |htlcs| - 1;
      assert htlcs[..m][..n] == htlcs[..n];
      SumForMono(htlcs[..m], n, h);
    } else {
      assert htlcs[..n] == htlcs;
    }
  }

  /** Outgoing payments count as soon as either side commits to them, for the greater amount. */
  function Outgoing(c: Commitments, h: PaymentHash): nat {
    Max(SumFor(Offered(c.holder), h), SumFor(Received(c.counterparty), h))
  }

  /** Incoming payments count once both sides commit to them, for the smaller amount. */
  function Incoming(c: Commitments, h: PaymentHash): nat {
    Min(SumFor(Received(c.holder), h), SumFor(Offered(c.counterparty), h))
  }

  function Max(a: nat, b: nat): nat { if a < b then b else a }
  function Min(a: nat, b: nat): nat { if a < b then a else b }

  /** The summaries name what is in flight after a change and what was before it. */
  function OutgoingHashes(cur: Commitments, next: Commitments): set<PaymentHash> {
    HashesOf(Offered(next.holder)) + HashesOf(Received(next.counterparty))
    + HashesOf(Offered(cur.holder)) + HashesOf(Received(cur.counterparty))
  }

  function IncomingHashes(cur: Commitments, next: Commitments): set<PaymentHash> {
    HashesOf(Received(next.holder)) * HashesOf(Offered(next.counterparty))
    + HashesOf(Received(cur.holder)) + HashesOf(Offered(cur.counterparty))
  }

  ghost predicate OutgoingFits(c: Commitments) {
    Fits(Offered(c.holder)) && Fits(Received(c.counterparty))
  }

  ghost predicate IncomingFits(c: Commitments) {
    Fits(Received(c.holder)) && Fits(Offered(c.counterparty))
  }

  ghost function OutgoingSummary(cur: Commitments, next: Commitments): map<PaymentHash, Amount>
    requires OutgoingFits(next)
  {
    map h | h in OutgoingHashes(cur, next) :: Outgoing(next, h)
  }

  ghost function IncomingSummary(cur: Commitments, next: Commitments): map<PaymentHash, Amount>
    requires IncomingFits(next)
  {
    map h | h in IncomingHashes(cur, next) :: Incoming(next, h)
  }

  function At(summary: map<PaymentHash, Amount>, h: PaymentHash): Amount {
    if h in summary then summary[h] else 0
  }

  /** `summarize_payments`; panics where a sum overflows. */
  method SummarizePayments(htlcs: seq<Htlc>) returns (r: Outcome<map<PaymentHash, Amount>>)
    ensures r.Done? <==> Fits(htlcs)
    ensures r.Done? ==> r.value.Keys == HashesOf(htlcs) && forall h :: At(r.value, h) == SumFor(htlcs, h)
  {
    var summary: map<PaymentHash, Amount> := map[];
    for i := 0 to |htlcs|
      invariant Fits(htlcs[..i])
      invariant summary.Keys == HashesOf(htlcs[..i])
      invariant forall h | h in summary :: summary[h] == SumFor(htlcs[..i], h)
    {
      var h := htlcs[i].paymentHash;
      var before := htlcs[..i];
      assert htlcs[..i + 1][..i] == before;
      assert HashesOf(htlcs[..i + 1]) == HashesOf(before) + {h};
      if h !in summary {
        SumForNone(before, h);
      }
      var sum := htlcs[i].valueSat + if h in summary then summary[h] else 0;
      assert sum == SumFor(htlcs[..i + 1], h);
      if sum > U64_MAX {
        SumForMono(htlcs, i + 1, h);
        return Panic;
      }
      forall g
        ensures SumFor(htlcs[..i + 1], g) <= U64_MAX
        ensures g != h ==> SumFor(htlcs[..i + 1], g) == SumFor(before, g)
      {
        assert SumFor(before, g) <= U64_MAX;
      }
      summary := summary[h := sum];
    }
    assert htlcs[..|htlcs|] == htlcs;
    forall h
      ensures At(summary, h) == SumFor(htlcs, h)
    {
      if h !in summary {
        SumForNone(htlcs, h);
      }
    }
    r := Done(summary);
  }

  /** Adds the hashes of HTLCs that a summary does not name, with nothing in flight. */
  method WithZeros(summary: map<PaymentHash, Amount>, htlcs: seq<Htlc>) returns (r: map<PaymentHash, Amount>)
    ensures r.Keys == summary.Keys + HashesOf(htlcs)
    ensures forall h :: At(r, h) == At(summary, h)
  {
    r := summary;
    for i := 0 to |htlcs|
      invariant r.Keys == summary.Keys + HashesOf(htlcs[..i])
      invariant forall h :: At(r, h) == At(summary, h)
    {
      assert HashesOf(htlcs[..i + 1]) == HashesOf(htlcs[..i]) + {htlcs[i].paymentHash};
      if htlcs[i].paymentHash !in r {
        r := r[htlcs[i].paymentHash := 0];
      }
    }
    assert htlcs[..|htlcs|] == htlcs;
  }

  function Merged(a: map<PaymentHash, Amount>, b: map<PaymentHash, Amount>): (r: map<PaymentHash, Amount>)
    ensures r.Keys == a.Keys + b.Keys && forall h :: At(r, h) == Max(At(a, h), At(b, h))
  {
    map h | h in a.Keys + b.Keys :: if h !in b then a[h] else if h !in a || a[h] < b[h] then b[h] else a[h]
  }

  function Common(a: map<PaymentHash, Amount>, b: map<PaymentHash, Amount>): (r: map<PaymentHash, Amount>)
    ensures r.Keys == a.Keys * b.Keys && forall h :: At(r, h) == Min(At(a, h), At(b, h))
  {
    map h | h in a.Keys && h in b.Keys :: if b[h] < a[h] then b[h] else a[h]
  }

  /** `payments_summary`: the greater of the two sides for each payment of either. */
  method PaymentsSummary(cur: Commitments, next: Commitments) returns (r: Outcome<map<PaymentHash, Amount>>)
    ensures r.Done? <==> OutgoingFits(next)
    ensures r.Done? ==> r.value == OutgoingSummary(cur, next)
  {
    var holder := SummarizePayments(Offered(next.holder));
    if holder.Panic? {
      return Panic;
    }
    var counterparty := SummarizePayments(Received(next.counterparty));
    if counterparty.Panic? {
      return Panic;
    }
    var a, b := holder.value, counterparty.value;
    var union := Merged(a, b);
    var summary := WithZeros(union, Offered(cur.holder));
    summary := WithZeros(summary, Received(cur.counterparty));
    assert forall h | h in summary :: At(summary, h) == Outgoing(next, h);
    r := Done(summary);
  }

  /** `incoming_payments_summary`: the smaller of the two sides for each payment of both. */
  method IncomingPaymentsSummary(cur: Commitments, next: Commitments) returns (r: Outcome<map<PaymentHash, Amount>>)
    ensures r.Done? <==> IncomingFits(next)
    ensures r.Done? ==> r.value == IncomingSummary(cur, next)
  {
    var holder := SummarizePayments(Received(next.holder));
    if holder.Panic? {
      return Panic;
    }
    var counterparty := SummarizePayments(Offered(next.counterparty));
    if counterparty.Panic? {
      return Panic;
    }
    var a, b := holder.value, counterparty.value;
    var both := Common(a, b);
    var summary := WithZeros(both, Received(cur.holder));
    summary := WithZeros(summary, Offered(cur.counterparty));
    assert forall h | h in summary :: At(summary, h) == Incoming(next, h);
    r := Done(summary);
  }

  // ---------- the node ----------

  datatype Node = Node(channels: map<ChannelId, EnforcementState>, ledger: Ledger)

  datatype Env = Env(crypto: Crypto, ledger: LedgerSafety.Env)

  /** Requests to channels come with the balances the code outside this model computes for them. */
  datatype Op =
    | Open(channel: ChannelId)
    | Ask(channel: ChannelId, r: Request, balanceBefore: Amount, balanceAfter: Amount)
    | Keep(op: LedgerSafety.Op)

  /** Requests that give a channel a new commitment. */
  predicate Commits(r: Request) {
    r.ValidateHolder? || ChannelSafety.SignsCounterparty(r)
  }

  function Proposed(e: EnforcementState, r: Request): Commitments
    requires Commits(r)
  {
    if r.ValidateHolder? then Commitments(Some(r.info), e.currentInfo) else Commitments(e.holderInfo, Some(r.info))
  }

  ghost function UpdateFor(c: ChannelId, e: EnforcementState, next: Commitments, before: Amount, after: Amount): Update
    requires IncomingFits(next) && OutgoingFits(next)
  {
    Update(c, IncomingSummary(Current(e), next), OutgoingSummary(Current(e), next), before, after)
  }

  /** The ledger's verdict on a proposed commitment. */
  ghost function PaymentsVerdict(policy: Policy, s: Ledger, c: ChannelId, e: EnforcementState, next: Commitments,
                                 before: Amount, after: Amount): Verdict {
    if !IncomingFits(next) || !OutgoingFits(next) then Panic
    else Validate(policy, s, UpdateFor(c, e, next, before, after))
  }

  function WithVerdicts(x: External, incoming: Verdict, payments: Verdict): External {
    x.(policy := Then(incoming, x.policy), payments := payments)
  }

  /** A request with the ledger's verdict in it; the incoming summary is computed before the policy checks. */
  function Judged(r: Request, incoming: Verdict, payments: Verdict): Request
    requires Commits(r)
  {
    match r
    case ValidateHolder(n, info, sigs, x) => ValidateHolder(n, info, sigs, WithVerdicts(x, incoming, payments))
    case SignCounterpartyPhase1(decodes, recomposes, n, point, info, x) =>
      SignCounterpartyPhase1(decodes, recomposes, n, point, info, WithVerdicts(x, incoming, payments))
    case SignCounterpartyPhase2(n, point, info, x) =>
      SignCounterpartyPhase2(n, point, info, WithVerdicts(x, incoming, payments))
  }

  /** The request passes all its checks, so that the channel takes the commitment over. */
  predicate Accepted(e: EnforcementState, r: Request)
    requires Commits(r)
  {
    match r
    case ValidateHolder(n, info, _, x) => ValidateChecks(e, n, info, x) == PASS
    case SignCounterpartyPhase1(decodes, recomposes, n, point, info, x) =>
      decodes && CounterpartyChecks(e, n, point, info, Phase1(recomposes, x)) == PASS
    case SignCounterpartyPhase2(n, point, info, x) => CounterpartyChecks(e, n, point, info, x) == PASS
  }

  ghost function VerdictOn(env: Env, s: Node, op: Op): Verdict
    requires op.Ask? && op.channel in s.channels && Commits(op.r)
  {
    var e := s.channels[op.channel];
    PaymentsVerdict(env.ledger.policy, s.ledger, op.channel, e, Proposed(e, op.r), op.balanceBefore, op.balanceAfter)
  }

  /** The request as the channel meets it. */
  ghost function Delivered(env: Env, s: Node, op: Op): Request
    requires op.Ask? && op.channel in s.channels
  {
    if Commits(op.r) then
      Judged(op.r, if IncomingFits(Proposed(s.channels[op.channel], op.r)) then PASS else Panic, VerdictOn(env, s, op))
    else op.r
  }

  ghost predicate TakesOver(env: Env, s: Node, op: Op)
    requires op.Ask? && op.channel in s.channels
  {
    Commits(op.r) && VerdictOn(env, s, op) == PASS && Accepted(s.channels[op.channel], Delivered(env, s, op))
  }

  /** What a commitment that is taken over means for the ledger. */
  ghost function UpdateOf(env: Env, s: Node, op: Op): Update
    requires op.Ask? && op.channel in s.channels && TakesOver(env, s, op)
  {
    var e := s.channels[op.channel];
    UpdateFor(op.channel, e, Proposed(e, op.r), op.balanceBefore, op.balanceAfter)
  }

  ghost function AskChannel(env: Env, s: Node, op: Op): Outcome<Node>
    requires op.Ask? && op.channel in s.channels
  {
    var turn := Serve(env.crypto, s.channels[op.channel], Delivered(env, s, op));
    if turn.reply.Crashed? then Panic
    else
      var channels := s.channels[op.channel := turn.state];
      if TakesOver(env, s, op) then
        var applied := Apply(env.ledger.policy, s.ledger, UpdateOf(env, s, op));
        if applied.Panic? then Panic else Done(Node(channels, applied.value))
      else Done(Node(channels, s.ledger))
  }

  /** Channels are opened empty; ledger operations other than commitments come in between. */
  ghost function Step(env: Env, s: Node, op: Op): Outcome<Node> {
    match op
    case Open(c) => Done(if c in s.channels then s else s.(channels := s.channels[c := NewState()]))
    case Ask(c, _, _, _) => if c !in s.channels then Done(s) else AskChannel(env, s, op)
    case Keep(l) =>
      if l.Commit? then Done(s)
      else
        var after := LedgerSafety.Step(env.ledger, s.ledger, l);
        if after.Panic? then Panic else Done(s.(ledger := after.value))
  }

  ghost function Run(env: Env, s: Node, ops: seq<Op>): Outcome<Node> {
    if ops == [] then Done(s)
    else
      var before := Run(env, s, ops[..|ops| - 1]);
      if before.Panic? then Panic else Step(env, before.value, ops[|ops| - 1])
  }
}
