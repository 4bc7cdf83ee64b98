/** What holds in every run of a node, over all its channels at once. */
module NodeSafety {
  import opened Wrappers
  import opened Channels
  import opened Ledgers
  import opened Nodes
  import ChannelSafety
  import LedgerSafety

  // ---------- the ledger records what the channels commit to ----------

  function AmountOf(amounts: map<ChannelId, Amount>, c: ChannelId): Amount {
    if c in amounts then amounts[c] else 0
  }

  function RecordIn(s: Ledger, h: PaymentHash, c: ChannelId): Amount {
    AmountOf(PaymentAt(s, h).incoming, c)
  }

  function RecordOut(s: Ledger, h: PaymentHash, c: ChannelId): Amount {
    AmountOf(PaymentAt(s, h).outgoing, c)
  }

  function CommitmentsOf(s: Node, c: ChannelId): Commitments {
    if c in s.channels then Current(s.channels[c]) else Commitments(None, None)
  }

  ghost predicate MatchesAt(s: Node, c: ChannelId, h: PaymentHash) {
    && RecordIn(s.ledger, h, c) == Incoming(CommitmentsOf(s, c), h)
    && RecordOut(s.ledger, h, c) == Outgoing(CommitmentsOf(s, c), h)
  }

  /** For every payment and channel, the amounts on record are those of the channel's current commitments. */
  ghost predicate Matches(s: Node) {
    forall c, h :: MatchesAt(s, c, h)
  }

  // ---------- what is in flight ----------

  lemma {:induction false} SumForAppend(a: seq<Htlc>, b: seq<Htlc>, h: PaymentHash)
    ensures SumFor(a + b, h) == SumFor(a, h) + SumFor(b, h)
    decreases |b|
  {
    if b == [] {
      assert a + b == a;
    } else {
      var n := |b| - 1;
      assert (a + b)[..|a| + n] == a + b[..n];
      SumForAppend(a, b[..n], h);
    }
  }

  lemma SumForOne(htlc: Htlc, h: PaymentHash)
    ensures SumFor([htlc], h) == if htlc.paymentHash == h then htlc.valueSat else 0
  {
    assert [htlc][..0] == [];
  }

  /** Every HTLC counts for its payment, wherever it stands. */
  lemma SumForPlaced(before: seq<Htlc>, htlc: Htlc, after: seq<Htlc>, h: PaymentHash)
    ensures SumFor(before + [htlc] + after, h) ==
            SumFor(before, h) + SumFor(after, h) + if htlc.paymentHash == h then htlc.valueSat else 0
  {
    SumForAppend(before + [htlc], after, h);
    SumForAppend(before, [htlc], h);
    SumForOne(htlc, h);
  }

  /** What the holder offers and what the counterparty receives go out: the greater of the two. */
  lemma OutgoingIsGreater(holder: CommitmentInfo, counterparty: CommitmentInfo, h: PaymentHash)
    ensures var a, b := SumFor(holder.offered, h), SumFor(counterparty.received, h);
            && Outgoing(Commitments(None, None), h) == 0
            && Outgoing(Commitments(Some(holder), None), h) == a
            && Outgoing(Commitments(None, Some(counterparty)), h) == b
            && var both := Outgoing(Commitments(Some(holder), Some(counterparty)), h);
               both >= a && both >= b && (both == a || both == b)
  {
  }

  /** What the holder receives and what the counterparty offers comes in once both are there: the smaller. */
  lemma IncomingIsSmaller(holder: CommitmentInfo, counterparty: CommitmentInfo, h: PaymentHash)
    ensures var a, b := SumFor(holder.received, h), SumFor(counterparty.offered, h);
            && Incoming(Commitments(None, None), h) == 0
            && Incoming(Commitments(Some(holder), None), h) == 0
            && Incoming(Commitments(None, Some(counterparty)), h) == 0
            && var both := Incoming(Commitments(Some(holder), Some(counterparty)), h);
               both <= a && both <= b && (both == a || both == b)
  {
  }

  predicate Mentions(htlcs: seq<Htlc>, h: PaymentHash) {
    exists i | 0 <= i < |htlcs| :: htlcs[i].paymentHash == h
  }

  lemma MentionsIff(htlcs: seq<Htlc>, h: PaymentHash)
    ensures h in HashesOf(htlcs) <==> Mentions(htlcs, h)
  {
  }

  /** The payments a summary names: outgoing those of either side, incoming those of both, and all there were. */
  lemma SummariesName(cur: Commitments, next: Commitments, h: PaymentHash)
    ensures h in OutgoingHashes(cur, next) <==>
            || Mentions(Offered(next.holder), h) || Mentions(Received(next.counterparty), h)
            || Mentions(Offered(cur.holder), h) || Mentions(Received(cur.counterparty), h)
    ensures h in IncomingHashes(cur, next) <==>
            || (Mentions(Received(next.holder), h) && Mentions(Offered(next.counterparty), h))
            || Mentions(Received(cur.holder), h) || Mentions(Offered(cur.counterparty), h)
  {
    MentionsIff(Offered(next.holder), h);
    MentionsIff(Received(next.counterparty), h);
    MentionsIff(Offered(cur.holder), h);
    MentionsIff(Received(cur.counterparty), h);
    MentionsIff(Received(next.holder), h);
    MentionsIff(Offered(next.counterparty), h);
    MentionsIff(Received(cur.holder), h);
    MentionsIff(Offered(cur.counterparty), h);
  }

  // ---------- requests to a channel ----------

  lemma OthersKeepCommitments(k: Crypto, e: EnforcementState, r: Request)
    requires !Commits(r)
    ensures Current(Serve(k, e, r).state) == Current(e)
  {
  }

  lemma RefusedKeeps(k: Crypto, e: EnforcementState, r: Request)
    requires Commits(r) && !Accepted(e, r)
    ensures Serve(k, e, r).state == e
  {
  }

  /** An accepted commitment, new or a retry, is the current one afterwards. */
  lemma AcceptedTakes(k: Crypto, e: EnforcementState, r: Request)
    requires Commits(r) && Accepted(e, r)
    ensures Current(Serve(k, e, r).state) == Proposed(e, r)
  {
    match r
    case ValidateHolder(n, info, _, x) => ValidatePasses(e, n, info, x);
    case SignCounterpartyPhase1(_, recomposes, n, point, info, x) =>
      CounterpartyPasses(e, n, point, info, Phase1(recomposes, x));
    case SignCounterpartyPhase2(n, point, info, x) => CounterpartyPasses(e, n, point, info, x);
  }

  lemma NothingElse(c: Commitments, h: PaymentHash)
    requires h !in HashesOf(Offered(c.holder)) && h !in HashesOf(Received(c.counterparty))
    ensures Outgoing(c, h) == 0
  {
    SumForNone(Offered(c.holder), h);
    SumForNone(Received(c.counterparty), h);
  }

  lemma NothingIn(c: Commitments, h: PaymentHash)
    requires h !in HashesOf(Received(c.holder)) || h !in HashesOf(Offered(c.counterparty))
    ensures Incoming(c, h) == 0
  {
    if h !in HashesOf(Received(c.holder)) {
      SumForNone(Received(c.holder), h);
    } else {
      SumForNone(Offered(c.counterparty), h);
    }
  }

  /** An update says what is in flight next, and leaves out only what is not and was not. */
  lemma UpdateSays(c: ChannelId, e: EnforcementState, next: Commitments, before: Amount, after: Amount, h: PaymentHash)
    requires IncomingFits(next) && OutgoingFits(next)
    ensures var u := UpdateFor(c, e, next, before, after);
            && u.In(h) == Incoming(next, h) && u.Out(h) == Outgoing(next, h)
            && (h !in u.Hashes() ==> Incoming(Current(e), h) == 0 && Outgoing(Current(e), h) == 0)
  {
    var cur := Current(e);
    if h !in OutgoingHashes(cur, next) {
      NothingElse(next, h);
      NothingElse(cur, h);
    }
    if h !in IncomingHashes(cur, next) {
      NothingIn(next, h);
      NothingIn(cur, h);
    }
  }

  lemma AppliedRecord(policy: Policy, s: Ledger, u: Update, h: PaymentHash, c: ChannelId)
    requires Apply(policy, s, u).Done?
    ensures var s' := Apply(policy, s, u).value;
            && RecordIn(s', h, c) == (if h in u.Hashes() && c == u.channel then u.In(h) else RecordIn(s, h, c))
            && RecordOut(s', h, c) == (if h in u.Hashes() && c == u.channel then u.Out(h) else RecordOut(s, h, c))
  {
  }

  lemma CommitMatchesAt(policy: Policy, s: Node, s': Node, c: ChannelId, u: Update, next: Commitments,
                        before: Amount, after: Amount, d: ChannelId, h: PaymentHash)
    requires c in s.channels && IncomingFits(next) && OutgoingFits(next) && MatchesAt(s, d, h)
    requires u == UpdateFor(c, s.channels[c], next, before, after)
    requires Apply(policy, s.ledger, u) == Done(s'.ledger)
    requires CommitmentsOf(s', c) == next && (d != c ==> CommitmentsOf(s', d) == CommitmentsOf(s, d))
    ensures MatchesAt(s', d, h)
  {
    AppliedRecord(policy, s.ledger, u, h, d);
    UpdateSays(c, s.channels[c], next, before, after, h);
  }

  lemma SameMatches(s: Node, s': Node)
    requires Matches(s) && s'.ledger == s.ledger && forall c :: CommitmentsOf(s', c) == CommitmentsOf(s, c)
    ensures Matches(s')
  {
    forall c, h
      ensures MatchesAt(s', c, h)
    {
      assert MatchesAt(s, c, h);
    }
  }

  function PaymentsOf(r: Request): Verdict
    requires Commits(r)
  {
    r.x.payments
  }

  lemma AcceptedPays(e: EnforcementState, r: Request)
    requires Commits(r) && Accepted(e, r)
    ensures PaymentsOf(r) == PASS
  {
    match r
    case ValidateHolder(n, info, _, x) => ValidatePasses(e, n, info, x);
    case SignCounterpartyPhase1(_, recomposes, n, point, info, x) =>
      CounterpartyPasses(e, n, point, info, Phase1(recomposes, x));
    case SignCounterpartyPhase2(n, point, info, x) => CounterpartyPasses(e, n, point, info, x);
  }

  lemma AskMatches(env: Env, s: Node, op: Op)
    requires Matches(s) && op.Ask? && op.channel in s.channels && AskChannel(env, s, op).Done?
    ensures Matches(AskChannel(env, s, op).value)
  {
    var e, r := s.channels[op.channel], Delivered(env, s, op);
    var s' := AskChannel(env, s, op).value;
    if TakesOver(env, s, op) {
      AcceptedTakes(env.crypto, e, r);
      forall d, h
        ensures MatchesAt(s', d, h)
      {
        assert MatchesAt(s, d, h);
        CommitMatchesAt(env.ledger.policy, s, s', op.channel, UpdateOf(env, s, op), Proposed(e, op.r),
                        op.balanceBefore, op.balanceAfter, d, h);
      }
    } else {
      OthersKeep(env, s, op);
      SameMatches(s, s');
    }
  }

  lemma OthersKeep(env: Env, s: Node, op: Op)
    requires op.Ask? && op.channel in s.channels && !TakesOver(env, s, op)
    ensures var e := s.channels[op.channel]; Current(Serve(env.crypto, e, Delivered(env, s, op)).state) == Current(e)
  {
    var e, r := s.channels[op.channel], Delivered(env, s, op);
    if Commits(op.r) {
      if Accepted(e, r) {
        AcceptedPays(e, r);
      } else {
        RefusedKeeps(env.crypto, e, r);
      }
    } else {
      OthersKeepCommitments(env.crypto, e, r);
    }
  }

  /** What a channel accepts the ledger can record, so a request stops the node exactly if it stops the channel. */
  lemma AskStopsExactly(env: Env, s: Node, op: Op)
    requires op.Ask? && op.channel in s.channels
    ensures Step(env, s, op).Panic? <==>
            Serve(env.crypto, s.channels[op.channel], Delivered(env, s, op)).reply.Crashed?
  {
    if TakesOver(env, s, op) {
      LedgerSafety.ValidatedApplies(env.ledger.policy, s.ledger, UpdateOf(env, s, op));
    }
  }

  /** The request gets as far as its incoming summary. */
  predicate Summarized(e: EnforcementState, r: Request)
    requires Commits(r)
  {
    match r
    case ValidateHolder(n, _, _, _) => n <= e.nextHolder + 1 && n <= INITIAL_COMMITMENT_NUMBER
    case SignCounterpartyPhase1(decodes, _, _, _, _, _) => decodes
    case SignCounterpartyPhase2(_, _, _, _) => true
  }

  /** A commitment whose incoming HTLCs overflow stops the node, before policy is asked. */
  lemma IncomingOverflowStops(env: Env, s: Node, op: Op)
    requires op.Ask? && op.channel in s.channels && Commits(op.r) && Summarized(s.channels[op.channel], op.r)
    requires !IncomingFits(Proposed(s.channels[op.channel], op.r))
    ensures Step(env, s, op).Panic?
  {
    AskStopsExactly(env, s, op);
  }

  /** One whose outgoing HTLCs overflow, or whose payments the ledger cannot compute, stops it if all else passes. */
  lemma PaymentsOverflowStops(env: Env, s: Node, op: Op, passing: Request)
    requires op.Ask? && op.channel in s.channels && Commits(op.r) && Commits(passing)
    requires var e := s.channels[op.channel];
             && passing == Judged(op.r, PASS, PASS) && Accepted(e, passing)
             && IncomingFits(Proposed(e, op.r))
             && (!OutgoingFits(Proposed(e, op.r)) || VerdictOn(env, s, op).Panic?)
    ensures Step(env, s, op).Panic?
  {
    var e := s.channels[op.channel];
    match passing
    case ValidateHolder(n, info, _, x) => ValidatePasses(e, n, info, x);
    case SignCounterpartyPhase1(_, recomposes, n, point, info, x) =>
      CounterpartyPasses(e, n, point, info, Phase1(recomposes, x));
    case SignCounterpartyPhase2(n, point, info, x) => CounterpartyPasses(e, n, point, info, x);
    AskStopsExactly(env, s, op);
  }

  // ---------- pruning ----------

  lemma SumZero(m: map<ChannelId, Amount>, c: ChannelId)
    requires Sum(m) == 0
    ensures AmountOf(m, c) == 0
  {
    if c in m {
      SumSplit(m, c);
    }
  }

  /** The record of h is dropped with its expired invoice. */
  ghost predicate Expires(s: Ledger, now: Duration, h: PaymentHash) {
    h in s.invoices && h in s.payments && InvoicePrunable(s, now, h)
  }

  lemma BeatRecord(s: Ledger, now: Duration, h: PaymentHash, c: ChannelId)
    requires LedgerSafety.Recorded(s) && Heartbeat(s, now).Done?
    ensures var s' := Heartbeat(s, now).value.ledger;
            && RecordIn(s', h, c) == (if Expires(s, now, h) then 0 else RecordIn(s, h, c))
            && RecordOut(s', h, c) == (if Expires(s, now, h) then 0 else RecordOut(s, h, c))
  {
    LedgerSafety.HeartbeatKeeps(s, now, h);
    if h in s.payments && NoIncoming(s.payments[h]) && NoOutgoing(s.payments[h]) {
      SumZero(s.payments[h].incoming, c);
      SumZero(s.payments[h].outgoing, c);
    }
  }

  /** The records that a heartbeat drops with their invoices have nothing in flight any more. */
  ghost predicate ExpiresEmpty(s: Node, now: Duration) {
    forall h, c | Expires(s.ledger, now, h) :: NothingInFlight(s, c, h)
  }

  ghost predicate NothingInFlight(s: Node, c: ChannelId, h: PaymentHash) {
    Incoming(CommitmentsOf(s, c), h) == 0 && Outgoing(CommitmentsOf(s, c), h) == 0
  }

  /** A heartbeat keeps the records in step with the commitments exactly if what it drops is settled. */
  lemma BeatMatchesIff(env: Env, s: Node, now: Duration)
    requires Matches(s) && LedgerSafety.Recorded(s.ledger) && Step(env, s, Keep(LedgerSafety.Beat(now))).Done?
    ensures Matches(Step(env, s, Keep(LedgerSafety.Beat(now))).value) <==> ExpiresEmpty(s, now)
  {
    var s' := Step(env, s, Keep(LedgerSafety.Beat(now))).value;
    forall c, h
      ensures MatchesAt(s', c, h) <==> (Expires(s.ledger, now, h) ==> NothingInFlight(s, c, h))
    {
      assert MatchesAt(s, c, h);
      BeatRecord(s.ledger, now, h, c);
    }
    if Matches(s') {
      forall h, c | Expires(s.ledger, now, h)
        ensures NothingInFlight(s, c, h)
      {
        assert MatchesAt(s', c, h);
      }
    }
    if ExpiresEmpty(s, now) {
      forall c, h
        ensures MatchesAt(s', c, h)
      {
        assert Expires(s.ledger, now, h) ==> NothingInFlight(s, c, h);
      }
    }
  }

  // ---------- every run ----------

  lemma KeptMatches(s: Node, s': Node)
    requires Matches(s) && s'.channels == s.channels && LedgerSafety.AmountsKept(s.ledger, s'.ledger)
    requires s.ledger.payments.Keys <= s'.ledger.payments.Keys
    ensures Matches(s')
  {
    forall c, h
      ensures MatchesAt(s', c, h)
    {
      assert MatchesAt(s, c, h);
      if h in s'.ledger.payments {
        assert LedgerSafety.AmountsKeptAt(s.ledger, s'.ledger, h);
      }
    }
  }

  /** A heartbeat has to forget nothing that is still in flight; other operations are free. */
  ghost predicate Gentle(s: Node, op: Op) {
    op.Keep? && op.op.Beat? ==> ExpiresEmpty(s, op.op.now)
  }

  lemma StepRecorded(env: Env, s: Node, op: Op)
    requires LedgerSafety.Recorded(s.ledger) && Step(env, s, op).Done?
    ensures LedgerSafety.Recorded(Step(env, s, op).value.ledger)
  {
    match op
    case Ask(c, _, _, _) =>
      if c in s.channels && TakesOver(env, s, op) {
        LedgerSafety.CommitRecorded(env.ledger.policy, s.ledger, UpdateOf(env, s, op));
      }
    case Keep(l) =>
      if !l.Commit? {
        LedgerSafety.StepRecorded(env.ledger, s.ledger, l);
      }
    case Open(_) =>
  }

  /** One operation keeps the records in step with the commitments, exactly if it is gentle. */
  lemma StepMatches(env: Env, s: Node, op: Op)
    requires Matches(s) && LedgerSafety.Recorded(s.ledger) && Step(env, s, op).Done?
    ensures Matches(Step(env, s, op).value) <==> Gentle(s, op)
  {
    var s' := Step(env, s, op).value;
    match op
    case Open(_) => SameMatches(s, s');
    case Ask(c, _, _, _) =>
      if c in s.channels {
        AskMatches(env, s, op);
      }
    case Keep(l) =>
      if l.Beat? {
        BeatMatchesIff(env, s, l.now);
      } else if l.Commit? {
        SameMatches(s, s');
      } else {
        LedgerSafety.OthersKeepAmounts(env.ledger, s.ledger, l);
        KeptMatches(s, s');
      }
  }

  ghost predicate AlwaysGentle(env: Env, s: Node, ops: seq<Op>) {
    ops == [] ||
    var n := |ops| - 1;
    && AlwaysGentle(env, s, ops[..n])
    && (Run(env, s, ops[..n]).Done? ==> Gentle(Run(env, s, ops[..n]).value, ops[n]))
  }

  lemma {:induction false} RunRecorded(env: Env, s: Node, ops: seq<Op>)
    requires LedgerSafety.Recorded(s.ledger) && Run(env, s, ops).Done?
    ensures LedgerSafety.Recorded(Run(env, s, ops).value.ledger)
  {
    if ops != [] {
      var n := |ops| - 1;
      RunRecorded(env, s, ops[..n]);
      StepRecorded(env, Run(env, s, ops[..n]).value, ops[n]);
    }
  }

  /**
   After any interleaving of requests to any channels and of ledger operations, the amounts on record for
   each payment and channel are the summary of that channel's current commitments, as long as no heartbeat
   dropped a record with something in flight.
   */
  lemma {:induction false} RunMatches(env: Env, s: Node, ops: seq<Op>)
    requires Matches(s) && LedgerSafety.Recorded(s.ledger)
    requires Run(env, s, ops).Done? && AlwaysGentle(env, s, ops)
    ensures Matches(Run(env, s, ops).value)
  {
    if ops != [] {
      var n := |ops| - 1;
      RunMatches(env, s, ops[..n]);
      RunRecorded(env, s, ops[..n]);
      StepMatches(env, Run(env, s, ops[..n]).value, ops[n]);
    }
  }

  // ---------- totals over channels ----------

  /** What is in flight for a payment on each channel. */
  function IncomingOn(s: Node, h: PaymentHash): map<ChannelId, nat> {
    map c | c in s.channels :: Incoming(Current(s.channels[c]), h)
  }

  function OutgoingOn(s: Node, h: PaymentHash): map<ChannelId, nat> {
    map c | c in s.channels :: Outgoing(Current(s.channels[c]), h)
  }

  function ShareOf(m: map<ChannelId, nat>, c: ChannelId): nat {
    if c in m then m[c] else 0
  }

  lemma SumWithout(m: map<ChannelId, nat>, k: ChannelId)
    ensures Sum(m) == ShareOf(m, k) + Sum(m - {k})
    ensures forall c :: ShareOf(m - {k}, c) == if c == k then 0 else ShareOf(m, c)
  {
    if k in m {
      SumSplit(m, k);
    } else {
      assert m - {k} == m;
    }
  }

  lemma {:induction false} SumOfNothing(m: map<ChannelId, nat>)
    requires forall c :: ShareOf(m, c) == 0
    ensures Sum(m) == 0
    decreases |m|
  {
    if m != map[] {
      var k :| k in m;
      SumWithout(m, k);
      SumOfNothing(m - {k});
    }
  }

  /** A sum depends only on the shares, not on which shares of nothing are written down. */
  lemma {:induction false} SumsAgree(a: map<ChannelId, nat>, b: map<ChannelId, nat>)
    requires forall c :: ShareOf(a, c) == ShareOf(b, c)
    ensures Sum(a) == Sum(b)
    decreases |a|
  {
    if a == map[] {
      assert forall c :: ShareOf(a, c) == 0;
      SumOfNothing(b);
    } else {
      var k :| k in a;
      SumWithout(a, k);
      SumWithout(b, k);
      SumsAgree(a - {k}, b - {k});
    }
  }

  /** The totals on record for a payment are the sums over what the channels commit to. */
  lemma TotalsMatch(s: Node, h: PaymentHash)
    requires Matches(s)
    ensures TotalsOf(PaymentAt(s.ledger, h)) == Totals(Sum(IncomingOn(s, h)), Sum(OutgoingOn(s, h)))
  {
    var p := PaymentAt(s.ledger, h);
    forall c
      ensures ShareOf(p.incoming, c) == ShareOf(IncomingOn(s, h), c)
      ensures ShareOf(p.outgoing, c) == ShareOf(OutgoingOn(s, h), c)
    {
      assert MatchesAt(s, c, h);
      NothingElse(Commitments(None, None), h);
      NothingIn(Commitments(None, None), h);
    }
    SumsAgree(p.incoming, IncomingOn(s, h));
    SumsAgree(p.outgoing, OutgoingOn(s, h));
  }

  // ---------- a run of a node is a run of each of its parts ----------

  function EmptyNode(ledger: Ledger): Node {
    Node(map[], ledger)
  }

  ghost function LedgerOp(env: Env, s: Node, op: Op): seq<LedgerSafety.Op> {
    match op
    case Open(_) => []
    case Ask(c, _, _, _) =>
      if c in s.channels && TakesOver(env, s, op) then [LedgerSafety.Commit(UpdateOf(env, s, op), true)] else []
    case Keep(l) => if l.Commit? then [] else [l]
  }

  /** What the ledger is asked to do in a run. */
  ghost function LedgerOps(env: Env, s: Node, ops: seq<Op>): seq<LedgerSafety.Op> {
    if ops == [] then []
    else
      var n := |ops| - 1;
      var before := Run(env, s, ops[..n]);
      LedgerOps(env, s, ops[..n]) + if before.Panic? then [] else LedgerOp(env, before.value, ops[n])
  }

  lemma LedgerStep(env: Env, s: Node, op: Op)
    requires Step(env, s, op).Done?
    ensures LedgerSafety.Run(env.ledger, s.ledger, LedgerOp(env, s, op)) == Done(Step(env, s, op).value.ledger)
  {
    var l := LedgerOp(env, s, op);
    if l != [] {
      assert l[..0] == [];
      assert LedgerSafety.Run(env.ledger, s.ledger, l[..0]) == Done(s.ledger);
    }
  }

  lemma LedgerRunExtend(env: LedgerSafety.Env, s: Ledger, ops: seq<LedgerSafety.Op>, more: seq<LedgerSafety.Op>)
    requires |more| <= 1 && LedgerSafety.Run(env, s, ops).Done?
    ensures LedgerSafety.Run(env, s, ops + more) == LedgerSafety.Run(env, LedgerSafety.Run(env, s, ops).value, more)
  {
    if more == [] {
      assert ops + more == ops;
    } else {
      assert (ops + more)[..|ops|] == ops && more[..0] == [];
      assert LedgerSafety.Run(env, LedgerSafety.Run(env, s, ops).value, more[..0]) == LedgerSafety.Run(env, s, ops);
    }
  }

  /** The ledger of a node goes through a run of the ledger, so that what holds in all of those holds here. */
  lemma {:induction false} LedgerFollows(env: Env, s: Node, ops: seq<Op>)
    requires Run(env, s, ops).Done?
    ensures LedgerSafety.Run(env.ledger, s.ledger, LedgerOps(env, s, ops)) == Done(Run(env, s, ops).value.ledger)
  {
    if ops != [] {
      var n := |ops| - 1;
      var before := Run(env, s, ops[..n]).value;
      LedgerFollows(env, s, ops[..n]);
      LedgerStep(env, before, ops[n]);
      LedgerRunExtend(env.ledger, s.ledger, LedgerOps(env, s, ops[..n]), LedgerOp(env, before, ops[n]));
    }
  }

  ghost function RequestIn(env: Env, s: Node, op: Op, c: ChannelId): seq<Request> {
    if op.Ask? && op.channel == c && c in s.channels then [Delivered(env, s, op)] else []
  }

  /** What a channel is asked in a run. */
  ghost function RequestsTo(env: Env, s: Node, ops: seq<Op>, c: ChannelId): seq<Request> {
    if ops == [] then []
    else
      var n := |ops| - 1;
      var before := Run(env, s, ops[..n]);
      RequestsTo(env, s, ops[..n], c) + if before.Panic? then [] else RequestIn(env, before.value, ops[n], c)
  }

  ghost predicate InStep(env: Env, s: Node, c: ChannelId, requests: seq<Request>) {
    if c in s.channels then s.channels[c] == ChannelSafety.Run(env.crypto, requests).state else requests == []
  }

  lemma ChannelStep(env: Env, s: Node, op: Op, c: ChannelId, requests: seq<Request>)
    requires InStep(env, s, c, requests) && Step(env, s, op).Done?
    ensures InStep(env, Step(env, s, op).value, c, requests + RequestIn(env, s, op, c))
  {
    var more := RequestIn(env, s, op, c);
    if more == [] {
      assert requests + more == requests;
    } else {
      assert (requests + more)[..|requests|] == requests;
    }
  }

  /** Each channel of a node goes through a run of its own, whatever the others do. */
  lemma {:induction false} ChannelsFollow(env: Env, ledger: Ledger, ops: seq<Op>, c: ChannelId)
    requires Run(env, EmptyNode(ledger), ops).Done?
    ensures InStep(env, Run(env, EmptyNode(ledger), ops).value, c, RequestsTo(env, EmptyNode(ledger), ops, c))
  {
    if ops != [] {
      var n := |ops| - 1;
      var s := EmptyNode(ledger);
      ChannelsFollow(env, ledger, ops[..n], c);
      ChannelStep(env, Run(env, s, ops[..n]).value, ops[n], c, RequestsTo(env, s, ops[..n], c));
    }
  }

  // ---------- what a node commits to is paid for ----------

  ghost predicate CommitmentsCoveredAt(policy: Policy, s: Node, h: PaymentHash)
    requires h in s.ledger.invoices
  {
    1000 * Sum(OutgoingOn(s, h)) <=
    1000 * Sum(IncomingOn(s, h)) + s.ledger.invoices[h].amountMsat + policy.maxRoutingFeeMsat
  }

  ghost predicate CommitmentsCovered(policy: Policy, s: Node) {
    forall h | h in s.ledger.invoices :: CommitmentsCoveredAt(policy, s, h)
  }

  /**
   In every run in which no invoice comes too late and no heartbeat forgets a payment in flight, what all
   channels together commit to send for an invoice is within what they receive, the invoice and the fee.
   */
  lemma CommitmentsBalanced(env: Env, s: Node, ops: seq<Op>)
    requires Matches(s) && LedgerSafety.Covered(env.ledger.policy, s.ledger)
    requires Run(env, s, ops).Done? && AlwaysGentle(env, s, ops)
    requires LedgerSafety.EntriesCovered(env.ledger, s.ledger, LedgerOps(env, s, ops))
    ensures CommitmentsCovered(env.ledger.policy, Run(env, s, ops).value)
  {
    var s' := Run(env, s, ops).value;
    LedgerFollows(env, s, ops);
    LedgerSafety.InvoicedPaymentsBalanced(env.ledger, s.ledger, LedgerOps(env, s, ops));
    RunMatches(env, s, ops);
    forall h | h in s'.ledger.invoices
      ensures CommitmentsCoveredAt(env.ledger.policy, s', h)
    {
      TotalsMatch(s', h);
      assert LedgerSafety.CoveredAt(env.ledger.policy, s'.ledger, h);
    }
  }

  // ---------- a restart ----------

  ghost predicate ChannelFits(e: EnforcementState) {
    IncomingFits(Current(e)) && OutgoingFits(Current(e))
  }

  ghost predicate AllFit(s: Node) {
    forall c | c in s.channels :: ChannelFits(s.channels[c])
  }

  lemma NewFits()
    ensures ChannelFits(NewState())
  {
    var none: seq<Htlc> := [];
    assert Fits(none);
  }

  lemma StepFits(env: Env, s: Node, op: Op)
    requires AllFit(s) && Step(env, s, op).Done?
    ensures AllFit(Step(env, s, op).value)
  {
    match op
    case Open(_) => NewFits();
    case Ask(c, _, _, _) =>
      if c in s.channels {
        if TakesOver(env, s, op) {
          AcceptedTakes(env.crypto, s.channels[c], Delivered(env, s, op));
        } else {
          OthersKeep(env, s, op);
        }
      }
    case Keep(_) =>
  }

  /** In every run the summaries of the channels' commitments can be computed without overflow. */
  lemma {:induction false} RunFits(env: Env, s: Node, ops: seq<Op>)
    requires AllFit(s) && Run(env, s, ops).Done?
    ensures AllFit(Run(env, s, ops).value)
  {
    if ops != [] {
      var n := |ops| - 1;
      RunFits(env, s, ops[..n]);
      StepFits(env, Run(env, s, ops[..n]).value, ops[n]);
    }
  }

  /** What `restore_payments` of a channel sets: its current commitments, summarized. */
  ghost function RestoreOf(s: Node, c: ChannelId): Update
    requires AllFit(s) && c in s.channels
  {
    UpdateFor(c, s.channels[c], Current(s.channels[c]), 0, 0)
  }

  ghost function Restored(s: Node, order: seq<ChannelId>): (r: seq<Update>)
    requires AllFit(s) && forall i | 0 <= i < |order| :: order[i] in s.channels
    ensures |r| == |order|
  {
    if order == [] then []
    else
      var n := |order| - 1;
      Restored(s, order[..n]) + [RestoreOf(s, order[n])]
  }

  lemma RestoredLast(s: Node, ledger: Ledger, order: seq<ChannelId>)
    requires AllFit(s) && order != [] && forall i | 0 <= i < |order| :: order[i] in s.channels
    ensures var n := |order| - 1;
            RestoreChannels(ledger, Restored(s, order)) ==
            RestorePayments(RestoreChannels(ledger, Restored(s, order[..n])), RestoreOf(s, order[n]))
  {
    var n := |order| - 1;
    assert Restored(s, order)[..n] == Restored(s, order[..n]);
  }

  ghost predicate Blank(s: Ledger) {
    forall h, c :: RecordIn(s, h, c) == 0 && RecordOut(s, h, c) == 0
  }

  ghost predicate RestoredAt(s: Node, ledger: Ledger, order: seq<ChannelId>, c: ChannelId, h: PaymentHash) {
    if c in order then MatchesAt(s.(ledger := ledger), c, h)
    else RecordIn(ledger, h, c) == 0 && RecordOut(ledger, h, c) == 0
  }

  lemma RestoredRecord(s: Ledger, u: Update, h: PaymentHash, c: ChannelId)
    ensures var s' := RestorePayments(s, u);
            && RecordIn(s', h, c) == (if h in u.Hashes() && c == u.channel then u.In(h) else RecordIn(s, h, c))
            && RecordOut(s', h, c) == (if h in u.Hashes() && c == u.channel then u.Out(h) else RecordOut(s, h, c))
  {
  }

  /** One more channel restores its payments. */
  lemma RestoreOne(s: Node, ledger: Ledger, order: seq<ChannelId>, d: ChannelId, c: ChannelId, h: PaymentHash)
    requires AllFit(s) && d in s.channels && RestoredAt(s, ledger, order, c, h)
    ensures RestoredAt(s, RestorePayments(ledger, RestoreOf(s, d)), order + [d], c, h)
  {
    UpdateSays(d, s.channels[d], Current(s.channels[d]), 0, 0, h);
    RestoredRecord(ledger, RestoreOf(s, d), h, c);
  }

  lemma {:induction false} RestoringMatchesAt(s: Node, ledger: Ledger, order: seq<ChannelId>, c: ChannelId,
                                              h: PaymentHash)
    requires AllFit(s) && Blank(ledger) && forall i | 0 <= i < |order| :: order[i] in s.channels
    ensures RestoredAt(s, RestoreChannels(ledger, Restored(s, order)), order, c, h)
    decreases |order|
  {
    if order == [] {
      assert RecordIn(ledger, h, c) == 0 && RecordOut(ledger, h, c) == 0;
    } else {
      var n := |order| - 1;
      assert order == order[..n] + [order[n]];
      RestoringMatchesAt(s, ledger, order[..n], c, h);
      RestoredLast(s, ledger, order);
      RestoreOne(s, RestoreChannels(ledger, Restored(s, order[..n])), order[..n], order[n], c, h);
    }
  }

  lemma {:induction false} PreimagesBlank(sha: Preimage -> PaymentHash, preimages: seq<Preimage>, h: PaymentHash)
    ensures var records := PreimageRecords(sha, preimages);
            h in records ==> records[h].incoming == map[] && records[h].outgoing == map[]
  {
    if preimages != [] {
      PreimagesBlank(sha, preimages[..|preimages| - 1], h);
    }
  }

  /**
   After a restart, in whatever order the channels restore their payments and whatever was forgotten before,
   the records are those of the channels' commitments again.
   */
  lemma RestartMatches(s: Node, sha: Preimage -> PaymentHash, preimages: seq<Preimage>, order: seq<ChannelId>)
    requires AllFit(s) && forall c :: c in s.channels <==> c in order
    ensures var ledger := Restore(sha, s.ledger.invoices, s.ledger.issued, preimages, s.ledger.excess);
            Matches(s.(ledger := RestoreChannels(ledger, Restored(s, order))))
  {
    var ledger := Restore(sha, s.ledger.invoices, s.ledger.issued, preimages, s.ledger.excess);
    forall h, c
      ensures RecordIn(ledger, h, c) == 0 && RecordOut(ledger, h, c) == 0
    {
      PreimagesBlank(sha, preimages, h);
    }
    var s' := s.(ledger := RestoreChannels(ledger, Restored(s, order)));
    forall c, h
      ensures MatchesAt(s', c, h)
    {
      RestoringMatchesAt(s, ledger, order, c, h);
      NothingElse(Commitments(None, None), h);
      NothingIn(Commitments(None, None), h);
    }
  }

  /** A node without channels, its ledger empty or just restored, is where a run can start. */
  lemma EmptyMatches(ledger: Ledger)
    requires Blank(ledger)
    ensures Matches(EmptyNode(ledger)) && AllFit(EmptyNode(ledger))
  {
    forall c, h
      ensures MatchesAt(EmptyNode(ledger), c, h)
    {
      assert RecordIn(ledger, h, c) == 0 && RecordOut(ledger, h, c) == 0;
      NothingElse(Commitments(None, None), h);
      NothingIn(Commitments(None, None), h);
    }
  }

  /** Every run of a new node: what the records say, what is covered, and that it can be restarted. */
  lemma FromNothing(env: Env, excess: Amount, ops: seq<Op>)
    requires var s := EmptyNode(Ledger(map[], map[], map[], excess));
             && Run(env, s, ops).Done? && AlwaysGentle(env, s, ops)
             && LedgerSafety.EntriesCovered(env.ledger, s.ledger, LedgerOps(env, s, ops))
    ensures var s' := Run(env, EmptyNode(Ledger(map[], map[], map[], excess)), ops).value;
            Matches(s') && AllFit(s') && CommitmentsCovered(env.ledger.policy, s')
  {
    var s := EmptyNode(Ledger(map[], map[], map[], excess));
    assert Blank(s.ledger);
    EmptyMatches(s.ledger);
    assert LedgerSafety.Covered(env.ledger.policy, s.ledger);
    RunMatches(env, s, ops);
    RunFits(env, s, ops);
    CommitmentsBalanced(env, s, ops);
  }

  // ---------- a heartbeat that forgets ----------

  function OneOut(h: PaymentHash): CommitmentInfo {
    CommitmentInfo(0, 0, 0, [Htlc(1, h, 0)], [], 0)
  }

  lemma OneOutInFlight(h: PaymentHash, g: PaymentHash)
    ensures var c := Commitments(Some(OneOut(h)), None);
            Outgoing(c, g) == (if g == h then 1 else 0) && Incoming(c, g) == 0
  {
    assert [Htlc(1, h, 0)][..0] == [];
    NothingIn(Commitments(Some(OneOut(h)), None), g);
    assert SumFor([Htlc(1, h, 0)], g) == SumFor([Htlc(1, h, 0)][..0], g) + if g == h then 1 else 0;
  }

  function Invoiced(h: PaymentHash, p: RoutedPayment): Ledger {
    Ledger(map[h := LedgerSafety.KeysendOf(h, 1000)], map[], map[h := p], 0)
  }

  function Committed(h: PaymentHash): EnforcementState {
    NewState().(nextHolder := 1, holderInfo := Some(OneOut(h)), holderSigs := Some([]))
  }

  /** A keysend of one satoshi, fulfilled, and still committed to by the one channel. */
  function FulfilledNode(c: ChannelId, preimage: Preimage, h: PaymentHash): Node {
    Node(map[c := Committed(h)], Invoiced(h, RoutedPayment(map[c := 0], map[c := 1], Some(preimage))))
  }

  lemma FulfilledMatches(c: ChannelId, preimage: Preimage, h: PaymentHash)
    ensures Matches(FulfilledNode(c, preimage, h))
  {
    var s := FulfilledNode(c, preimage, h);
    forall d, g
      ensures MatchesAt(s, d, g)
    {
      OneOutInFlight(h, g);
      NothingElse(Commitments(None, None), g);
      NothingIn(Commitments(None, None), g);
    }
  }

  /** The heartbeat after its minute drops the record although the channel still commits to the payment. */
  lemma ForgottenExample(env: Env, c: ChannelId, preimage: Preimage, h: PaymentHash)
    ensures var s := FulfilledNode(c, preimage, h);
            && Matches(s) && LedgerSafety.Recorded(s.ledger)
            && var beat := Step(env, s, Keep(LedgerSafety.Beat(MINUTE + 1)));
               beat.Done? && !Matches(beat.value)
  {
    var s := FulfilledNode(c, preimage, h);
    FulfilledMatches(c, preimage, h);
    assert LedgerSafety.Recorded(s.ledger);
    assert Expires(s.ledger, MINUTE + 1, h);
    OneOutInFlight(h, h);
    assert !NothingInFlight(s, c, h);
    LedgerSafety.BeatStopsExactly(s.ledger, MINUTE + 1);
    BeatMatchesIff(env, s, MINUTE + 1);
  }

  lemma CommitmentAllowed(policy: Policy, c: ChannelId, h: PaymentHash, u: Update)
    requires policy == Policy(false, 0, 1)
    requires u.channel == c && u.Hashes() == {h} && u.In(h) == 0 && u.Out(h) == 1
    ensures var s := Invoiced(h, NewPayment());
            && Validate(policy, s, u) == PASS
            && Apply(policy, s, u) == Done(Invoiced(h, RoutedPayment(map[c := 0], map[c := 1], None)))
  {
    var s := Invoiced(h, NewPayment());
    LedgerSafety.NewTotals(u, h);
    assert HashInRange(policy, s, u, h) && HashAllowed(policy, s, u, h);
    var p := WithAmounts(NewPayment(), c, 0, 1);
    assert p.incoming == map[c := 0] && p.outgoing == map[c := 1];
    assert AppliedPayments(policy, s, u) == map[h := p];
  }

  lemma CommitmentPasses(env: Env, c: ChannelId, h: PaymentHash, op: Op)
    requires env.ledger.policy == Policy(false, 0, 1)
    requires op == Ask(c, ValidateHolder(0, OneOut(h), [], External(PASS, PASS, PASS, true)), 0, 0)
    ensures var s := Node(map[c := NewState()], Invoiced(h, NewPayment()));
            && Delivered(env, s, op) == op.r
            && TakesOver(env, s, op)
            && Apply(env.ledger.policy, s.ledger, UpdateOf(env, s, op)) ==
               Done(Invoiced(h, RoutedPayment(map[c := 0], map[c := 1], None)))
  {
    OneOutFits(h);
    var u := UpdateFor(c, NewState(), Proposed(NewState(), op.r), 0, 0);
    OneOutInFlight(h, h);
    assert HashesOf([Htlc(1, h, 0)]) == {h};
    CommitmentAllowed(env.ledger.policy, c, h, u);
  }

  lemma CommitmentTaken(env: Env, c: ChannelId, h: PaymentHash, op: Op)
    requires env.ledger.policy == Policy(false, 0, 1)
    requires op == Ask(c, ValidateHolder(0, OneOut(h), [], External(PASS, PASS, PASS, true)), 0, 0)
    ensures Step(env, Node(map[c := NewState()], Invoiced(h, NewPayment())), op) ==
            Done(Node(map[c := Committed(h)], Invoiced(h, RoutedPayment(map[c := 0], map[c := 1], None))))
  {
    assert map[c := NewState()][c := Committed(h)] == map[c := Committed(h)];
    CommitmentPasses(env, c, h, op);
    assert Serve(env.crypto, NewState(), op.r).state == Committed(h);
  }

  lemma OneOutFits(h: PaymentHash)
    ensures var c := Commitments(Some(OneOut(h)), None); IncomingFits(c) && OutgoingFits(c)
  {
    var none: seq<Htlc> := [];
    assert Fits(none);
    forall g
      ensures SumFor([Htlc(1, h, 0)], g) <= U64_MAX
    {
      OneOutInFlight(h, g);
    }
  }

  lemma KeysendTaken(env: Env, h: PaymentHash)
    requires env.ledger.policy == Policy(false, 0, 1)
    ensures LedgerSafety.Step(env.ledger, Ledger(map[], map[], map[], 0),
                              LedgerSafety.AddInvoice(h, LedgerSafety.KeysendOf(h, 1000), 0, true, true)) ==
            Done(Invoiced(h, NewPayment()))
  {
  }

  lemma PreimageTaken(env: Env, c: ChannelId, preimage: Preimage)
    requires env.ledger.policy == Policy(false, 0, 1)
    ensures var h := env.ledger.sha(preimage);
            LedgerSafety.Step(env.ledger, Invoiced(h, RoutedPayment(map[c := 0], map[c := 1], None)),
                              LedgerSafety.LearnPreimage(preimage)) ==
            Done(Invoiced(h, RoutedPayment(map[c := 0], map[c := 1], Some(preimage))))
  {
    var h, p := env.ledger.sha(preimage), RoutedPayment(map[c := 0], map[c := 1], None);
    LedgerSafety.SumSingle(c, 0);
    LedgerSafety.SumSingle(c, 1);
    assert TotalsOf(p) == Totals(0, 1);
    assert Invoiced(h, p).payments[h := p.(preimage := Some(preimage))] == map[h := p.(preimage := Some(preimage))];
  }

  lemma RunFour(env: Env, s0: Node, s1: Node, s2: Node, s3: Node, s4: Node, a: Op, b: Op, c: Op, d: Op)
    requires Step(env, s0, a) == Done(s1) && Step(env, s1, b) == Done(s2)
    requires Step(env, s2, c) == Done(s3) && Step(env, s3, d) == Done(s4)
    ensures Run(env, s0, [a, b, c, d]) == Done(s4)
  {
    assert [] + [a] == [a] && [a] + [b] == [a, b] && [a, b] + [c] == [a, b, c] && [a, b, c] + [d] == [a, b, c, d];
    RunThen(env, s0, [], a);
    RunThen(env, s0, [a], b);
    RunThen(env, s0, [a, b], c);
    RunThen(env, s0, [a, b, c], d);
  }

  /** Such a node comes about: a channel, a keysend, a commitment to it, its preimage. */
  lemma ForgottenReached(env: Env, c: ChannelId, preimage: Preimage)
    requires env.ledger.policy == Policy(false, 0, 1)
    ensures var h := env.ledger.sha(preimage);
            Run(env, EmptyNode(Ledger(map[], map[], map[], 0)),
                [Open(c),
                 Keep(LedgerSafety.AddInvoice(h, LedgerSafety.KeysendOf(h, 1000), 0, true, true)),
                 Ask(c, ValidateHolder(0, OneOut(h), [], External(PASS, PASS, PASS, true)), 0, 0),
                 Keep(LedgerSafety.LearnPreimage(preimage))]) == Done(FulfilledNode(c, preimage, h))
  {
    var h := env.ledger.sha(preimage);
    var ledger := Ledger(map[], map[], map[], 0);
    var invoice := LedgerSafety.AddInvoice(h, LedgerSafety.KeysendOf(h, 1000), 0, true, true);
    var ask := Ask(c, ValidateHolder(0, OneOut(h), [], External(PASS, PASS, PASS, true)), 0, 0);
    KeysendTaken(env, h);
    CommitmentTaken(env, c, h, ask);
    PreimageTaken(env, c, preimage);
    RunFour(env,
            EmptyNode(ledger),
            Node(map[c := NewState()], ledger),
            Node(map[c := NewState()], Invoiced(h, NewPayment())),
            Node(map[c := Committed(h)], Invoiced(h, RoutedPayment(map[c := 0], map[c := 1], None))),
            FulfilledNode(c, preimage, h),
            Open(c), Keep(invoice), ask, Keep(LedgerSafety.LearnPreimage(preimage)));
  }

  lemma RunThen(env: Env, s: Node, ops: seq<Op>, op: Op)
    requires Run(env, s, ops).Done?
    ensures Run(env, s, ops + [op]) == Step(env, Run(env, s, ops).value, op)
  {
    assert (ops + [op])[..|ops|] == ops;
  }
}
