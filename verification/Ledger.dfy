/**
 The node's payment ledger: per payment hash, the HTLC amounts of every channel, the invoices they are
 checked against, and the register of excess balance.

 `Ledger` is the value of a `NodeState`; the functions say what each operation does to it.  The policy
 error on unbalanced payments is enforced.  Amounts and times are those of a build with overflow checks:
 arithmetic that leaves the range of a u64, or of a `Duration`, panics.
 */
module Ledgers {
  import opened Wrappers

  type PaymentHash = seq<bv8>
  type Preimage = seq<bv8>
  type ChannelId = seq<bv8>

  type Amount = n: nat | n <= U64_MAX

  /** Time in nanoseconds; the seconds of a `Duration` are a u64. */
  const DURATION_MAX: nat := U64_MAX * 1_000_000_000 + 999_999_999
  type Duration = n: nat | n <= DURATION_MAX

  datatype PaymentType = Invoice | Keysend

  datatype PaymentState = PaymentState(
    invoiceHash: seq<bv8>, amountMsat: Amount, issuedAt: Duration, expiry: Duration, paymentType: PaymentType)

  datatype RoutedPayment = RoutedPayment(
    incoming: map<ChannelId, Amount>, outgoing: map<ChannelId, Amount>, preimage: Option<Preimage>)

  datatype Ledger = Ledger(
    invoices: map<PaymentHash, PaymentState>,
    issued: map<PaymentHash, PaymentState>,
    payments: map<PaymentHash, RoutedPayment>,
    excess: Amount)

  datatype Policy = Policy(enforceBalance: bool, maxRoutingFeeMsat: Amount, maxInvoices: nat)

  /** The HTLC amounts of one commitment per payment hash, and the claimable balance before and after. */
  datatype Update = Update(
    channel: ChannelId, incoming: map<PaymentHash, Amount>, outgoing: map<PaymentHash, Amount>,
    balanceBefore: Amount, balanceAfter: Amount)
  {
    function Hashes(): set<PaymentHash> { incoming.Keys + outgoing.Keys }
    function In(h: PaymentHash): Amount { if h in incoming then incoming[h] else 0 }
    function Out(h: PaymentHash): Amount { if h in outgoing then outgoing[h] else 0 }
  }

  const SECOND: Duration := 1_000_000_000
  const MINUTE: Duration := 60 * SECOND
  const DAY: Duration := 24 * 60 * MINUTE

  function DummyPreimage(): Preimage {
    seq(32, _ => 0)
  }

  // ---------- sums over channels ----------

  ghost function Sum(m: map<ChannelId, nat>): nat
    decreases |m|
  {
    if m == map[] then 0
    else
      var k :| k in m;
      m[k] + Sum(m - {k})
  }

  lemma {:induction false} SumSplit(m: map<ChannelId, nat>, k: ChannelId)
    requires k in m
    ensures Sum(m) == m[k] + Sum(m - {k})
    decreases |m|
  {
    var j :| j in m && Sum(m) == m[j] + Sum(m - {j});
    if j != k {
      SumSplit(m - {j}, k);
      SumSplit(m - {k}, j);
      assert m - {j} - {k} == m - {k} - {j};
    }
  }

  /** Setting one channel's amount replaces its share of the sum. */
  lemma SumUpdate(m: map<ChannelId, nat>, k: ChannelId, v: nat)
    ensures Sum(m[k := v]) == v + Sum(m - {k})
  {
    SumSplit(m[k := v], k);
    assert m[k := v] - {k} == m - {k};
  }

  method SumOf(m: map<ChannelId, nat>) returns (s: nat)
    ensures s == Sum(m)
  {
    s := 0;
    var todo := m;
    while todo != map[]
      invariant s + Sum(todo) == Sum(m)
      decreases |todo|
    {
      var k :| k in todo;
      SumSplit(todo, k);
      s := s + todo[k];
      todo := todo - {k};
    }
  }

  // ---------- one payment ----------

  function NewPayment(): RoutedPayment {
    RoutedPayment(map[], map[], None)
  }

  datatype Totals = Totals(incoming: nat, outgoing: nat)

  ghost function TotalsOf(p: RoutedPayment): Totals {
    Totals(Sum(p.incoming), Sum(p.outgoing))
  }

  function WithAmounts(p: RoutedPayment, channel: ChannelId, incoming: Amount, outgoing: Amount): RoutedPayment {
    p.(incoming := p.incoming[channel := incoming], outgoing := p.outgoing[channel := outgoing])
  }

  function PaymentAt(s: Ledger, h: PaymentHash): RoutedPayment {
    if h in s.payments then s.payments[h] else NewPayment()
  }

  /** What `validate_payments` compares: the recorded amounts with this channel's replaced. */
  ghost function UpdatedTotals(s: Ledger, u: Update, h: PaymentHash): Totals {
    if h in s.payments then TotalsOf(WithAmounts(s.payments[h], u.channel, u.In(h), u.Out(h)))
    else Totals(u.In(h), u.Out(h))
  }

  function AllowanceMsat(policy: Policy, invoicedMsat: Option<Amount>): nat {
    if invoicedMsat.Some? then invoicedMsat.value + policy.maxRoutingFeeMsat else 0
  }

  /** `validate_payment_balance`: what goes out is covered by what comes in and what was invoiced. */
  predicate Balanced(policy: Policy, t: Totals, invoicedMsat: Option<Amount>) {
    t.outgoing * 1000 <= t.incoming * 1000 + AllowanceMsat(policy, invoicedMsat)
  }

  /** The sums over channels, in millisatoshi and with the allowance added, stay in range. */
  predicate InRange(policy: Policy, t: Totals, invoicedMsat: Option<Amount>) {
    t.incoming * 1000 + AllowanceMsat(policy, invoicedMsat) <= U64_MAX && t.outgoing * 1000 <= U64_MAX
  }

  function InvoicedMsat(s: Ledger, h: PaymentHash): Option<Amount> {
    if h in s.invoices then Some(s.invoices[h].amountMsat) else None
  }

  /** An existing payment without an invoice may go out of balance. */
  ghost predicate HashAllowed(policy: Policy, s: Ledger, u: Update, h: PaymentHash) {
    || Balanced(policy, UpdatedTotals(s, u, h), InvoicedMsat(s, h))
    || (h in s.payments && h !in s.invoices)
  }

  ghost predicate HashInRange(policy: Policy, s: Ledger, u: Update, h: PaymentHash) {
    InRange(policy, UpdatedTotals(s, u, h), InvoicedMsat(s, h))
  }

  /** Panic where the amounts of a hash, or the addition to the register, overflow. */
  ghost function Validate(policy: Policy, s: Ledger, u: Update): Outcome<bool> {
    if exists h | h in u.Hashes() :: !HashInRange(policy, s, u, h) then Panic
    else if exists h | h in u.Hashes() :: !HashAllowed(policy, s, u, h) then Done(false)
    else if !policy.enforceBalance then Done(true)
    else if s.excess + u.balanceAfter > U64_MAX then Panic
    else Done(s.excess + u.balanceAfter >= u.balanceBefore)
  }

  /** The update pays an issued invoice that was not paid yet. */
  ghost predicate PaysIssued(s: Ledger, u: Update, h: PaymentHash) {
    h in s.issued && PaysIn(s.issued[h], PaymentAt(s, h), u, h)
  }

  /** Comparing the amounts of a hash with its issued invoice does not overflow. */
  ghost predicate IssuedInRange(issued: map<PaymentHash, PaymentState>, p: RoutedPayment, u: Update, h: PaymentHash) {
    h in issued && p.preimage.None? ==>
      var t := TotalsOf(WithAmounts(p, u.channel, u.In(h), u.Out(h)));
      t.incoming <= U64_MAX && t.outgoing + issued[h].amountMsat / 1000 <= U64_MAX
  }

  ghost predicate AppliesInRange(s: Ledger, u: Update, h: PaymentHash) {
    IssuedInRange(s.issued, PaymentAt(s, h), u, h)
  }

  ghost predicate PaysIn(issued: PaymentState, p: RoutedPayment, u: Update, h: PaymentHash) {
    && p.preimage.None?
    && var t := TotalsOf(WithAmounts(p, u.channel, u.In(h), u.Out(h)));
       t.incoming >= t.outgoing + issued.amountMsat / 1000
  }

  ghost function AppliedPayment(policy: Policy, s: Ledger, u: Update, h: PaymentHash): RoutedPayment {
    var p := WithAmounts(PaymentAt(s, h), u.channel, u.In(h), u.Out(h));
    if policy.enforceBalance && PaysIssued(s, u, h) then p.(preimage := Some(DummyPreimage())) else p
  }

  ghost function AppliedPayments(policy: Policy, s: Ledger, u: Update): map<PaymentHash, RoutedPayment> {
    map h | h in s.payments.Keys + u.Hashes() ::
      if h in u.Hashes() then AppliedPayment(policy, s, u, h) else s.payments[h]
  }

  lemma AppliedByRecord(policy: Policy, s: Ledger, u: Update, records: map<PaymentHash, RoutedPayment>)
    requires records.Keys == s.payments.Keys + u.Hashes()
    requires forall h | h in u.Hashes() :: records[h] == AppliedPayment(policy, s, u, h)
    requires forall h | h in s.payments && h !in u.Hashes() :: records[h] == s.payments[h]
    ensures records == AppliedPayments(policy, s, u)
  {
  }

  /** Panic where amounts overflow or the register would leave 0 .. 2^64 - 1. */
  ghost function Apply(policy: Policy, s: Ledger, u: Update): Outcome<Ledger> {
    var payments := AppliedPayments(policy, s, u);
    if exists h | h in u.Hashes() :: !AppliesInRange(s, u, h) then Panic
    else if !policy.enforceBalance then Done(s.(payments := payments))
    else if s.excess + u.balanceAfter > U64_MAX || s.excess + u.balanceAfter < u.balanceBefore then Panic
    else Done(s.(payments := payments, excess := s.excess + u.balanceAfter - u.balanceBefore))
  }

  /** Learning the preimage of an uninvoiced payment credits what came in less what went out, once. */
  ghost predicate Credits(policy: Policy, s: Ledger, h: PaymentHash) {
    policy.enforceBalance && h in s.payments && s.payments[h].preimage.None? && h !in s.invoices
  }

  ghost function Fulfill(policy: Policy, s: Ledger, h: PaymentHash, preimage: Preimage): Outcome<Ledger> {
    if h !in s.payments || s.payments[h].preimage.Some? then Done(s)
    else
      var t := TotalsOf(s.payments[h]);
      var s' := s.(payments := s.payments[h := s.payments[h].(preimage := Some(preimage))]);
      if t.incoming > U64_MAX || t.outgoing > U64_MAX then Panic
      else if !Credits(policy, s, h) then Done(s')
      else if s.excess + t.incoming > U64_MAX || s.excess + t.incoming < t.outgoing then Panic
      else Done(s'.(excess := s.excess + t.incoming - t.outgoing))
  }

  // ---------- invoices ----------

  /** `validate_invoice`: not from the future and not about to expire, a minute of clock skew allowed. */
  function Timely(p: PaymentState, now: Duration): Outcome<bool> {
    if now + MINUTE > DURATION_MAX then Panic
    else if now + MINUTE < p.issuedAt then Done(false)
    else if p.issuedAt + p.expiry + MINUTE > DURATION_MAX then Panic
    else Done(now + MINUTE <= p.issuedAt + p.expiry + MINUTE)
  }

  /** Only invoices are checked, not keysends. */
  function EntryTimely(p: PaymentState, now: Duration): Outcome<bool> {
    if p.paymentType.Invoice? then Timely(p, now) else Done(true)
  }

  function WithInvoice(s: Ledger, h: PaymentHash, p: PaymentState): Ledger {
    s.(invoices := s.invoices[h := p],
       payments := if h in s.payments then s.payments else s.payments[h := NewPayment()])
  }

  /** There is room, and the velocity control admits it. */
  predicate Admitted(policy: Policy, s: Ledger, h: PaymentHash, admitted: bool) {
    |s.invoices| < policy.maxInvoices && h !in s.invoices && admitted
  }

  /**
   `add_invoice` and `add_keysend`; None when refused.  `admitted` is the verdict of the velocity control,
   `persisted` that of the persister, which a new entry has to survive.
   */
  function Register(policy: Policy, s: Ledger, h: PaymentHash, p: PaymentState, now: Duration,
                    admitted: bool, persisted: bool): Outcome<Option<Ledger>> {
    var timely := EntryTimely(p, now);
    if timely.Panic? then Panic
    else if !timely.value || |s.invoices| >= policy.maxInvoices then Done(None)
    else if h in s.invoices then Done(if s.invoices[h].invoiceHash == p.invoiceHash then Some(s) else None)
    else if !admitted then Done(None)
    else if !persisted then Panic
    else Done(Some(WithInvoice(s, h, p)))
  }

  /** `sign_invoice`. */
  function Issue(policy: Policy, s: Ledger, h: PaymentHash, p: PaymentState): Option<Ledger> {
    if |s.issued| >= policy.maxInvoices then None
    else if h in s.issued then if s.issued[h].invoiceHash == p.invoiceHash then Some(s) else None
    else Some(s.(issued := s.issued[h := p]))
  }

  // ---------- pruning ----------

  function PruneTime(p: PaymentState): nat {
    p.issuedAt + p.expiry + match p.paymentType case Invoice => DAY case Keysend => 0
  }

  predicate TimeInRange(p: PaymentState) { PruneTime(p) <= DURATION_MAX }

  ghost predicate NoIncoming(p: RoutedPayment) { Sum(p.incoming) == 0 }
  ghost predicate NoOutgoing(p: RoutedPayment) { Sum(p.outgoing) == 0 }

  ghost predicate InvoicePrunable(s: Ledger, now: Duration, h: PaymentHash)
    requires h in s.invoices && h in s.payments
  {
    && now > PruneTime(s.invoices[h])
    && (s.payments[h].preimage.Some? || NoOutgoing(s.payments[h]))
  }

  /** The sums and times that `is_invoice_prunable` computes stay in range. */
  ghost predicate InvoiceInRange(s: Ledger, h: PaymentHash)
    requires h in s.invoices && h in s.payments
  {
    && (s.payments[h].preimage.None? ==> Sum(s.payments[h].outgoing) <= U64_MAX)
    && TimeInRange(s.invoices[h])
  }

  datatype Pruned = Pruned(ledger: Ledger, modified: bool)

  ghost function PrunableInvoices(s: Ledger, now: Duration): set<PaymentHash>
    requires s.invoices.Keys <= s.payments.Keys
  {
    set h | h in s.invoices && InvoicePrunable(s, now, h)
  }

  /** Panic where an invoice has no payment record, or its sums or times leave their range. */
  ghost function WithoutExpired(s: Ledger, now: Duration): Outcome<Pruned> {
    if exists h | h in s.invoices :: h !in s.payments || !InvoiceInRange(s, h) then Panic
    else Done(Pruned(s.(invoices := s.invoices - PrunableInvoices(s, now),
                        payments := s.payments - PrunableInvoices(s, now)),
                     PrunableInvoices(s, now) != {}))
  }

  function PrunableIssued(s: Ledger, now: Duration): set<PaymentHash> {
    set h | h in s.issued && PruneTime(s.issued[h]) <= now
  }

  function PruneIssued(s: Ledger, now: Duration): Outcome<Pruned> {
    if exists h | h in s.issued :: !TimeInRange(s.issued[h]) then Panic
    else Done(Pruned(s.(issued := s.issued - PrunableIssued(s, now)), PrunableIssued(s, now) != {}))
  }

  ghost predicate ForwardPrunable(s: Ledger, h: PaymentHash)
    requires h in s.payments
  {
    h !in s.invoices && h !in s.issued && NoIncoming(s.payments[h]) && NoOutgoing(s.payments[h])
  }

  /** The second sum is not computed when the first is not zero. */
  ghost predicate ForwardInRange(p: RoutedPayment) {
    Sum(p.incoming) <= U64_MAX && (NoIncoming(p) ==> Sum(p.outgoing) <= U64_MAX)
  }

  ghost function PrunableForwards(s: Ledger): set<PaymentHash> {
    set h | h in s.payments && ForwardPrunable(s, h)
  }

  ghost function PruneForwards(s: Ledger): Outcome<Pruned> {
    if exists h | h in s.payments :: h !in s.invoices && h !in s.issued && !ForwardInRange(s.payments[h]) then Panic
    else Done(Pruned(s.(payments := s.payments - PrunableForwards(s)), PrunableForwards(s) != {}))
  }

  /** The pruning of a heartbeat, in its order. */
  ghost function Heartbeat(s: Ledger, now: Duration): Outcome<Pruned> {
    var a := WithoutExpired(s, now);
    if a.Panic? then Panic
    else
      var b := PruneIssued(a.value.ledger, now);
      if b.Panic? then Panic
      else
        var c := PruneForwards(b.value.ledger);
        if c.Panic? then Panic
        else Done(Pruned(c.value.ledger, a.value.modified || b.value.modified || c.value.modified))
  }

  // ---------- restoring ----------

  /** `NodeState::restore` and `restore_node`: a record per known preimage, then a fresh one per invoice. */
  function Restore(sha: Preimage -> PaymentHash, invoices: map<PaymentHash, PaymentState>,
                   issued: map<PaymentHash, PaymentState>, preimages: seq<Preimage>, excess: Amount): Ledger {
    Ledger(invoices, issued,
           PreimageRecords(sha, preimages) + map h | h in invoices :: NewPayment(), excess)
  }

  function PreimageRecords(sha: Preimage -> PaymentHash, preimages: seq<Preimage>): map<PaymentHash, RoutedPayment> {
    if preimages == [] then map[]
    else
      var n := |preimages| - 1;
      PreimageRecords(sha, preimages[..n])
      [sha(preimages[n]) := NewPayment().(preimage := Some(preimages[n]))]
  }

  function RestoredPayments(s: Ledger, u: Update): map<PaymentHash, RoutedPayment> {
    map h | h in s.payments.Keys + u.Hashes() ::
      if h in u.Hashes() then WithAmounts(PaymentAt(s, h), u.channel, u.In(h), u.Out(h)) else s.payments[h]
  }

  /** `restore_payments`: the amounts of a channel's current commitments, unchecked. */
  function RestorePayments(s: Ledger, u: Update): Ledger {
    s.(payments := RestoredPayments(s, u))
  }

  /** `restore_payments` of each channel in turn. */
  function RestoreChannels(s: Ledger, updates: seq<Update>): Ledger {
    if updates == [] then s
    else RestorePayments(RestoreChannels(s, updates[..|updates| - 1]), updates[|updates| - 1])
  }

  // ---------- the object ----------

  class NodeState {
    var invoices: map<PaymentHash, PaymentState>
    var issued: map<PaymentHash, PaymentState>
    var payments: map<PaymentHash, RoutedPayment>
    var excess: Amount

    ghost function View(): Ledger
      reads this
    {
      Ledger(invoices, issued, payments, excess)
    }

    constructor ()
      ensures View() == Ledger(map[], map[], map[], 0)
    {
      invoices, issued, payments, excess := map[], map[], map[], 0;
    }

    /** The recorded amounts of a payment with one channel's replaced; panics where a sum overflows. */
    static method UpdatedIncomingOutgoing(p: RoutedPayment, channel: ChannelId, incoming: Amount, outgoing: Amount)
      returns (t: Outcome<Totals>)
      ensures var totals := TotalsOf(WithAmounts(p, channel, incoming, outgoing));
              t == if totals.incoming > U64_MAX || totals.outgoing > U64_MAX then Panic else Done(totals)
    {
      var i := SumOf(p.incoming[channel := incoming]);
      var o := SumOf(p.outgoing[channel := outgoing]);
      t := if i > U64_MAX || o > U64_MAX then Panic else Done(Totals(i, o));
    }

    /** One hash of `validate_payments`: whether it is in balance, or may be out of it. */
    method CheckHash(policy: Policy, u: Update, h: PaymentHash) returns (r: Outcome<bool>)
      ensures r == if HashInRange(policy, View(), u, h) then Done(HashAllowed(policy, View(), u, h)) else Panic
    {
      var t := Done(Totals(u.In(h), u.Out(h)));
      if h in payments {
        t := UpdatedIncomingOutgoing(payments[h], u.channel, u.In(h), u.Out(h));
      }
      if t.Panic? {
        return Panic;
      }
      var invoiced := if h in invoices then Some(invoices[h].amountMsat) else None;
      if !InRange(policy, t.value, invoiced) {
        return Panic;
      }
      r := Done(Balanced(policy, t.value, invoiced) || (h in payments && invoiced.None?));
    }

    /** The preflight check: Panic where a hash overflows, else whether all are allowed. */
    method CheckHashes(policy: Policy, u: Update) returns (r: Outcome<bool>)
      ensures r.Panic? <==> exists h | h in u.Hashes() :: !HashInRange(policy, View(), u, h)
      ensures r == Done(true) ==> forall h | h in u.Hashes() :: HashAllowed(policy, View(), u, h)
      ensures r == Done(false) ==> exists h | h in u.Hashes() :: !HashAllowed(policy, View(), u, h)
    {
      var todo := u.Hashes();
      var unbalanced := [];
      while todo != {}
        invariant todo <= u.Hashes()
        invariant forall h | h in u.Hashes() && h !in todo :: HashInRange(policy, View(), u, h)
        invariant unbalanced != [] ==> exists h | h in u.Hashes() :: !HashAllowed(policy, View(), u, h)
        invariant unbalanced == [] ==> forall h | h in u.Hashes() && h !in todo :: HashAllowed(policy, View(), u, h)
        decreases |todo|
      {
        var h :| h in todo;
        var allowed := CheckHash(policy, u, h);
        if allowed.Panic? {
          return Panic;
        }
        if !allowed.value {
          unbalanced := unbalanced + [h];
        }
        todo := todo - {h};
      }
      r := Done(unbalanced == []);
    }

    method ValidatePayments(policy: Policy, u: Update) returns (r: Outcome<bool>)
      ensures r == Validate(policy, View(), u)
    {
      r := CheckHashes(policy, u);
      if r.Panic? {
        return;
      }
      if !r.value || !policy.enforceBalance {
        assert r == Done(r.value);
        return;
      }
      if excess + u.balanceAfter > U64_MAX {
        return Panic;
      }
      r := Done(excess + u.balanceAfter >= u.balanceBefore);
    }

    method Pays(p: RoutedPayment, u: Update, h: PaymentHash) returns (b: Outcome<bool>)
      ensures b == if !IssuedInRange(issued, p, u, h) then Panic else Done(h in issued && PaysIn(issued[h], p, u, h))
    {
      if h !in issued || p.preimage.Some? {
        return Done(false);
      }
      var t := UpdatedIncomingOutgoing(p, u.channel, u.In(h), u.Out(h));
      if t.Panic? || t.value.outgoing + issued[h].amountMsat / 1000 > U64_MAX {
        return Panic;
      }
      b := Done(t.value.incoming >= t.value.outgoing + issued[h].amountMsat / 1000);
    }

    /** The first pass: records are created and newly paid issued invoices are found. */
    method Preflight(hashes: set<PaymentHash>, u: Update)
      returns (ok: bool, records: map<PaymentHash, RoutedPayment>, paid: set<PaymentHash>)
      ensures ok <==> forall h | h in hashes :: AppliesInRange(View(), u, h)
      ensures ok ==> records.Keys == payments.Keys + hashes
      ensures ok ==> forall h | h in records :: records[h] == PaymentAt(View(), h)
      ensures ok ==> forall h :: h in paid <==> h in hashes && PaysIssued(View(), u, h)
    {
      ok, records, paid := true, payments, {};
      var todo := hashes;
      while todo != {}
        invariant todo <= hashes
        invariant forall h | h in hashes && h !in todo :: AppliesInRange(View(), u, h)
        invariant records.Keys == payments.Keys + (hashes - todo)
        invariant forall h | h in records :: records[h] == PaymentAt(View(), h)
        invariant forall h :: h in paid <==> h in hashes && h !in todo && PaysIssued(View(), u, h)
        decreases |todo|
      {
        var h :| h in todo;
        var p := if h in records then records[h] else NewPayment();
        var pays := Pays(p, u, h);
        assert p == PaymentAt(View(), h);
        assert AppliesInRange(View(), u, h) <==> pays.Done?;
        if pays.Panic? {
          ok := false;
          return;
        }
        assert PaysIssued(View(), u, h) <==> pays.value;
        records := records[h := p];
        if pays.value {
          paid := paid + {h};
        }
        todo := todo - {h};
      }
    }

    static method MarkPaid(records: map<PaymentHash, RoutedPayment>, paid: set<PaymentHash>)
      returns (marked: map<PaymentHash, RoutedPayment>)
      requires paid <= records.Keys
      ensures marked.Keys == records.Keys
      ensures forall h | h in paid :: marked[h] == records[h].(preimage := Some(DummyPreimage()))
      ensures forall h | h in records && h !in paid :: marked[h] == records[h]
    {
      marked := records;
      var todo := paid;
      while todo != {}
        invariant todo <= paid && marked.Keys == records.Keys
        invariant forall h | h in paid && h !in todo :: marked[h] == records[h].(preimage := Some(DummyPreimage()))
        invariant forall h | h in records && (h !in paid || h in todo) :: marked[h] == records[h]
        decreases |todo|
      {
        var h :| h in todo;
        marked := marked[h := marked[h].(preimage := Some(DummyPreimage()))];
        todo := todo - {h};
      }
    }

    static method SetAmounts(records: map<PaymentHash, RoutedPayment>, hashes: set<PaymentHash>, u: Update)
      returns (updated: map<PaymentHash, RoutedPayment>)
      requires hashes <= records.Keys
      ensures updated.Keys == records.Keys
      ensures forall h | h in hashes :: updated[h] == WithAmounts(records[h], u.channel, u.In(h), u.Out(h))
      ensures forall h | h in records && h !in hashes :: updated[h] == records[h]
    {
      updated := records;
      var todo := hashes;
      while todo != {}
        invariant todo <= hashes && updated.Keys == records.Keys
        invariant forall h | h in hashes && h !in todo ::
                    updated[h] == WithAmounts(records[h], u.channel, u.In(h), u.Out(h))
        invariant forall h | h in records && (h !in hashes || h in todo) :: updated[h] == records[h]
        decreases |todo|
      {
        var h :| h in todo;
        var p := WithAmounts(updated[h], u.channel, u.In(h), u.Out(h));
        updated := updated[h := p];
        todo := todo - {h};
      }
    }

    method ApplyPayments(policy: Policy, u: Update) returns (r: Outcome<()>)
      modifies this
      ensures r.Done? <==> Apply(policy, old(View()), u).Done?
      ensures r.Done? ==> View() == Apply(policy, old(View()), u).value
    {
      var ok, records, paid := Preflight(u.Hashes(), u);
      if !ok {
        return Panic;
      }
      if policy.enforceBalance
         && (excess + u.balanceAfter > U64_MAX || excess + u.balanceAfter < u.balanceBefore) {
        return Panic;
      }
      payments := UpdateRecords(policy, u, records, paid);
      if policy.enforceBalance {
        excess := excess + u.balanceAfter - u.balanceBefore;
      }
      r := Done(());
    }

    /** The second pass: paid issued invoices are marked and the amounts of the channel set. */
    method UpdateRecords(policy: Policy, u: Update, records: map<PaymentHash, RoutedPayment>, paid: set<PaymentHash>)
      returns (updated: map<PaymentHash, RoutedPayment>)
      requires records.Keys == payments.Keys + u.Hashes()
      requires forall h | h in records :: records[h] == PaymentAt(View(), h)
      requires forall h :: h in paid <==> h in u.Hashes() && PaysIssued(View(), u, h)
      ensures updated == AppliedPayments(policy, View(), u)
    {
      var marked := records;
      if policy.enforceBalance {
        marked := MarkPaid(records, paid);
      }
      updated := SetAmounts(marked, u.Hashes(), u);
      AppliedByRecord(policy, View(), u, updated);
    }

    /** `sha` is SHA-256. */
    method HtlcFulfilled(policy: Policy, sha: Preimage -> PaymentHash, preimage: Preimage)
      returns (r: Outcome<bool>)
      modifies this
      ensures var s := Fulfill(policy, old(View()), sha(preimage), preimage);
              && (r.Done? <==> s.Done?)
              && (r.Done? ==> View() == s.value && (r.value <==> View() != old(View())))
    {
      var h := sha(preimage);
      if h !in payments || payments[h].preimage.Some? {
        return Done(false);
      }
      var p := payments[h];
      var incoming := SumOf(p.incoming);
      var outgoing := SumOf(p.outgoing);
      if incoming > U64_MAX || outgoing > U64_MAX {
        return Panic;
      }
      if h !in invoices && policy.enforceBalance {
        if excess + incoming > U64_MAX {
          return Panic;
        }
        if excess + incoming < outgoing {
          return Panic;
        }
        excess := excess + incoming - outgoing;
      }
      payments := payments[h := p.(preimage := Some(preimage))];
      assert payments[h] != old(payments)[h];
      r := Done(true);
    }

    method AddInvoice(policy: Policy, h: PaymentHash, p: PaymentState, now: Duration, admitted: bool, persisted: bool)
      returns (r: Outcome<Result<()>>)
      modifies this
      ensures var s := Register(policy, old(View()), h, p, now, admitted, persisted);
              && (r.Done? <==> s.Done?)
              && (r.Done? ==> (r.value.Ok? <==> s.value.Some?)
                              && View() == if r.value.Ok? then s.value.value else old(View()))
    {
      var timely := EntryTimely(p, now);
      if timely.Panic? {
        return Panic;
      }
      if !timely.value || |invoices| >= policy.maxInvoices {
        return Done(Refused);
      }
      if h in invoices {
        return Done(if invoices[h].invoiceHash == p.invoiceHash then Ok(()) else Refused);
      }
      if !admitted {
        return Done(Refused);
      }
      invoices := invoices[h := p];
      if h !in payments {
        payments := payments[h := NewPayment()];
      }
      r := if persisted then Done(Ok(())) else Panic;
    }

    method SignInvoice(policy: Policy, h: PaymentHash, p: PaymentState) returns (r: Result<()>)
      modifies this`issued
      ensures r.Ok? <==> Issue(policy, old(View()), h, p).Some?
      ensures View() == if r.Ok? then Issue(policy, old(View()), h, p).value else old(View())
    {
      if |issued| >= policy.maxInvoices {
        return Refused;
      }
      if h in issued {
        return if issued[h].invoiceHash == p.invoiceHash then Ok(()) else Refused;
      }
      issued := issued[h := p];
      r := Ok(());
    }

    method PruneInvoices(now: Duration) returns (r: Outcome<bool>)
      modifies this
      ensures var s := WithoutExpired(old(View()), now);
              && (r.Done? <==> s.Done?)
              && (r.Done? ==> Pruned(View(), r.value) == s.value)
    {
      var prune, todo := {}, invoices.Keys;
      while todo != {}
        invariant todo <= invoices.Keys && View() == old(View())
        invariant forall h | h in invoices && h !in todo :: h in payments && InvoiceInRange(View(), h)
        invariant forall h :: h in prune <==>
                              h in invoices && h !in todo && h in payments && InvoicePrunable(View(), now, h)
        decreases |todo|
      {
        var h :| h in todo;
        var prunable := IsInvoicePrunable(now, h);
        if prunable.Panic? {
          return Panic;
        }
        if prunable.value {
          prune := prune + {h};
        }
        todo := todo - {h};
      }
      assert prune == PrunableInvoices(View(), now);
      invoices := invoices - prune;
      payments := payments - prune;
      r := Done(prune != {});
    }

    method IsInvoicePrunable(now: Duration, h: PaymentHash) returns (r: Outcome<bool>)
      requires h in invoices
      ensures r == if h !in payments || !InvoiceInRange(View(), h) then Panic
                   else Done(InvoicePrunable(View(), now, h))
    {
      if h !in payments {
        return Panic;
      }
      var complete := payments[h].preimage.Some?;
      if !complete {
        var outgoing := SumOf(payments[h].outgoing);
        if outgoing > U64_MAX {
          return Panic;
        }
        complete := outgoing == 0;
      }
      if !TimeInRange(invoices[h]) {
        return Panic;
      }
      r := Done(now > PruneTime(invoices[h]) && complete);
    }

    method PruneIssuedInvoices(now: Duration) returns (r: Outcome<bool>)
      modifies this`issued
      ensures var s := PruneIssued(old(View()), now);
              && (r.Done? <==> s.Done?)
              && (r.Done? ==> Pruned(View(), r.value) == s.value)
    {
      var drop, todo := {}, issued.Keys;
      while todo != {}
        invariant todo <= issued.Keys && View() == old(View())
        invariant forall h | h in issued && h !in todo :: TimeInRange(issued[h])
        invariant forall h :: h in drop <==> h in issued && h !in todo && PruneTime(issued[h]) <= now
        decreases |todo|
      {
        var h :| h in todo;
        if !TimeInRange(issued[h]) {
          return Panic;
        }
        if PruneTime(issued[h]) <= now {
          drop := drop + {h};
        }
        todo := todo - {h};
      }
      assert drop == PrunableIssued(View(), now);
      issued := issued - drop;
      r := Done(drop != {});
    }

    method PruneForwardedPayments() returns (r: Outcome<bool>)
      modifies this`payments
      ensures var s := PruneForwards(old(View()));
              && (r.Done? <==> s.Done?)
              && (r.Done? ==> Pruned(View(), r.value) == s.value)
    {
      var drop, todo := {}, payments.Keys;
      while todo != {}
        invariant todo <= payments.Keys && View() == old(View())
        invariant forall h | h in payments && h !in todo ::
                    h in invoices || h in issued || ForwardInRange(payments[h])
        invariant forall h :: h in drop <==> h in payments && h !in todo && ForwardPrunable(View(), h)
        decreases |todo|
      {
        var h :| h in todo;
        var prunable := IsForwardPrunable(h);
        if prunable.Panic? {
          return Panic;
        }
        if prunable.value {
          drop := drop + {h};
        }
        todo := todo - {h};
      }
      assert drop == PrunableForwards(View());
      payments := payments - drop;
      r := Done(drop != {});
    }

    method IsForwardPrunable(h: PaymentHash) returns (r: Outcome<bool>)
      requires h in payments
      ensures r == if h !in invoices && h !in issued && !ForwardInRange(payments[h]) then Panic
                   else Done(ForwardPrunable(View(), h))
    {
      if h in invoices || h in issued {
        return Done(false);
      }
      var incoming := SumOf(payments[h].incoming);
      if incoming != 0 {
        return if incoming > U64_MAX then Panic else Done(false);
      }
      var outgoing := SumOf(payments[h].outgoing);
      r := if outgoing > U64_MAX then Panic else Done(outgoing == 0);
    }

    method GetHeartbeat(now: Duration) returns (r: Outcome<bool>)
      modifies this
      ensures var s := Heartbeat(old(View()), now);
              && (r.Done? <==> s.Done?)
              && (r.Done? ==> Pruned(View(), r.value) == s.value)
    {
      var pruned1 := PruneInvoices(now);
      if pruned1.Panic? {
        return Panic;
      }
      var pruned2 := PruneIssuedInvoices(now);
      if pruned2.Panic? {
        return Panic;
      }
      var pruned3 := PruneForwardedPayments();
      if pruned3.Panic? {
        return Panic;
      }
      r := Done(pruned1.value || pruned2.value || pruned3.value);
    }
  }
}
