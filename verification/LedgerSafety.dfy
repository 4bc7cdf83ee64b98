/** What holds in every run of the payment ledger. */
module LedgerSafety {
  import opened Wrappers
  import opened Ledgers

  /**
   A commitment is validated, then applied if the channel accepts it; preimages, invoices and
   heartbeats come in between in any order.
   */
  datatype Op =
    | Commit(u: Update, accepted: bool)
    | LearnPreimage(preimage: Preimage)
    | AddInvoice(h: PaymentHash, p: PaymentState, now: Duration, admitted: bool, persisted: bool)
    | SignInvoice(h: PaymentHash, p: PaymentState)
    | Beat(now: Duration)

  datatype Env = Env(policy: Policy, sha: Preimage -> PaymentHash)

  ghost function Step(env: Env, s: Ledger, op: Op): Outcome<Ledger> {
    match op
    case Commit(u, accepted) =>
      var ok := Validate(env.policy, s, u);
      if ok.Panic? then Panic
      else if ok.value && accepted then Apply(env.policy, s, u) else Done(s)
    case LearnPreimage(preimage) => Fulfill(env.policy, s, env.sha(preimage), preimage)
    case AddInvoice(h, p, now, admitted, persisted) =>
      var r := Register(env.policy, s, h, p, now, admitted, persisted);
      if r.Panic? then Panic else Done(if r.value.Some? then r.value.value else s)
    case SignInvoice(h, p) =>
      var r := Issue(env.policy, s, h, p);
      Done(if r.Some? then r.value else s)
    case Beat(now) =>
      var r := Heartbeat(s, now);
      if r.Panic? then Panic else Done(r.value.ledger)
  }

  ghost function Run(env: Env, s: Ledger, ops: seq<Op>): Outcome<Ledger> {
    if ops == [] then Done(s)
    else
      var n := |ops| - 1;
      var s' := Run(env, s, ops[..n]);
      if s'.Panic? then Panic else Step(env, s'.value, ops[n])
  }

  // ---------- every invoice has its payment record ----------

  ghost predicate Recorded(s: Ledger) {
    s.invoices.Keys <= s.payments.Keys
  }

  /** A restored node, after any number of channels have restored their payments, has a record per invoice. */
  lemma {:induction false} RestoreRecorded(sha: Preimage -> PaymentHash, invoices: map<PaymentHash, PaymentState>,
                                           issued: map<PaymentHash, PaymentState>, preimages: seq<Preimage>,
                                           excess: Amount, updates: seq<Update>)
    ensures Recorded(RestoreChannels(Restore(sha, invoices, issued, preimages, excess), updates))
  {
    if updates != [] {
      RestoreRecorded(sha, invoices, issued, preimages, excess, updates[..|updates| - 1]);
    }
  }

  lemma CommitRecorded(policy: Policy, s: Ledger, u: Update)
    requires Recorded(s) && Apply(policy, s, u).Done?
    ensures Recorded(Apply(policy, s, u).value)
  {
    assert s.payments.Keys <= AppliedPayments(policy, s, u).Keys;
  }

  lemma BeatRecorded(s: Ledger, now: Duration)
    requires Recorded(s) && Heartbeat(s, now).Done?
    ensures Recorded(Heartbeat(s, now).value.ledger)
  {
    var a := WithoutExpired(s, now).value.ledger;
    assert Recorded(a) && Recorded(PruneIssued(a, now).value.ledger);
  }

  lemma StepRecorded(env: Env, s: Ledger, op: Op)
    requires Recorded(s) && Step(env, s, op).Done?
    ensures Recorded(Step(env, s, op).value)
  {
    match op
    case Commit(u, _) =>
      if Apply(env.policy, s, u).Done? {
        CommitRecorded(env.policy, s, u);
      }
    case Beat(now) => BeatRecorded(s, now);
    case LearnPreimage(preimage) =>
      assert Fulfill(env.policy, s, env.sha(preimage), preimage).value.payments.Keys == s.payments.Keys;
    case _ =>
  }

  // ---------- when the ledger stops ----------

  /** The amounts a commitment names, or the balance it leaves, are out of range. */
  ghost predicate CommitStops(policy: Policy, s: Ledger, u: Update) {
    || (exists h | h in u.Hashes() :: !HashInRange(policy, s, u, h))
    || (&& (forall h | h in u.Hashes() :: HashAllowed(policy, s, u, h))
        && policy.enforceBalance
        && s.excess + u.balanceAfter > U64_MAX)
  }

  /** The totals of a record learned to be paid, or the credit for it, are out of range. */
  ghost predicate LearningStops(policy: Policy, s: Ledger, h: PaymentHash) {
    && h in s.payments && s.payments[h].preimage.None?
    && var t := TotalsOf(s.payments[h]);
       || t.incoming > U64_MAX || t.outgoing > U64_MAX
       || (Credits(policy, s, h) && (s.excess + t.incoming > U64_MAX || s.excess + t.incoming < t.outgoing))
  }

  /** An invoice with times out of range, or an entry that cannot be persisted. */
  ghost predicate EntryStops(policy: Policy, s: Ledger, op: Op)
    requires op.AddInvoice?
  {
    || EntryTimely(op.p, op.now).Panic?
    || (EntryTimely(op.p, op.now) == Done(true) && Admitted(policy, s, op.h, op.admitted) && !op.persisted)
  }

  /** Times of an invoice, or sums of a record that pruning looks at, are out of range. */
  ghost predicate BeatStops(s: Ledger, now: Duration)
    requires Recorded(s)
  {
    || (exists h | h in s.invoices :: !InvoiceInRange(s, h))
    || (exists h | h in s.issued :: !TimeInRange(s.issued[h]))
    || ForwardsStop(s, now)
  }

  ghost predicate Stops(env: Env, s: Ledger, op: Op)
    requires Recorded(s)
  {
    match op
    case Commit(u, _) => CommitStops(env.policy, s, u)
    case LearnPreimage(preimage) => LearningStops(env.policy, s, env.sha(preimage))
    case AddInvoice(_, _, _, _, _) => EntryStops(env.policy, s, op)
    case SignInvoice(_, _) => false
    case Beat(now) => BeatStops(s, now)
  }

  lemma ValidatedHash(policy: Policy, s: Ledger, u: Update, h: PaymentHash)
    requires h in u.Hashes() && HashInRange(policy, s, u, h)
    ensures AppliesInRange(s, u, h)
  {
    NewTotals(u, h);
    if h in s.issued {
      var a := s.issued[h].amountMsat;
      assert a / 1000 <= U64_MAX / 1000;
    }
  }

  /** Validation is enough for applying to go through. */
  lemma ValidatedApplies(policy: Policy, s: Ledger, u: Update)
    requires Validate(policy, s, u) == Done(true)
    ensures Apply(policy, s, u).Done?
  {
    forall h | h in u.Hashes()
      ensures AppliesInRange(s, u, h)
    {
      ValidatedHash(policy, s, u, h);
    }
  }

  lemma CommitStopsExactly(env: Env, s: Ledger, u: Update, accepted: bool)
    ensures Step(env, s, Commit(u, accepted)).Panic? <==> CommitStops(env.policy, s, u)
  {
    if Validate(env.policy, s, u) == Done(true) {
      ValidatedApplies(env.policy, s, u);
    }
  }

  /** The ledger that the last pruning finds. */
  ghost function BeforeForwards(s: Ledger, now: Duration): Ledger
    requires WithoutExpired(s, now).Done?
  {
    var a := WithoutExpired(s, now).value.ledger;
    a.(issued := a.issued - PrunableIssued(a, now))
  }

  lemma ForwardCandidate(s: Ledger, now: Duration, h: PaymentHash)
    requires Recorded(s) && WithoutExpired(s, now).Done?
    ensures var b := BeforeForwards(s, now);
            && (&& h in b.payments && h !in b.invoices && h !in b.issued
                <==>
                && h in s.payments && h !in s.invoices && (h in s.issued ==> PruneTime(s.issued[h]) <= now))
            && (h in b.payments ==> b.payments[h] == s.payments[h])
  {
  }

  ghost predicate ForwardsStop(s: Ledger, now: Duration) {
    exists h | h in s.payments ::
      && h !in s.invoices && (h in s.issued ==> PruneTime(s.issued[h]) <= now)
      && !ForwardInRange(s.payments[h])
  }

  lemma ForwardsStopExactly(s: Ledger, now: Duration)
    requires Recorded(s) && WithoutExpired(s, now).Done?
    ensures PruneForwards(BeforeForwards(s, now)).Panic? <==> ForwardsStop(s, now)
  {
    var b := BeforeForwards(s, now);
    if ForwardsStop(s, now) {
      var h :| h in s.payments && h !in s.invoices && (h in s.issued ==> PruneTime(s.issued[h]) <= now)
               && !ForwardInRange(s.payments[h]);
      ForwardCandidate(s, now, h);
    }
    if PruneForwards(b).Panic? {
      var h :| h in b.payments && h !in b.invoices && h !in b.issued && !ForwardInRange(b.payments[h]);
      ForwardCandidate(s, now, h);
    }
  }

  lemma BeatStopsExactly(s: Ledger, now: Duration)
    requires Recorded(s)
    ensures Heartbeat(s, now).Panic? <==> BeatStops(s, now)
  {
    if WithoutExpired(s, now).Done? {
      ForwardsStopExactly(s, now);
    }
  }

  lemma StepStops(env: Env, s: Ledger, op: Op)
    requires Recorded(s)
    ensures Step(env, s, op).Panic? <==> Stops(env, s, op)
  {
    match op
    case Commit(u, accepted) => CommitStopsExactly(env, s, u, accepted);
    case Beat(now) => BeatStopsExactly(s, now);
    case _ =>
  }

  /** In every run from a recorded ledger, a new or a restored one, invoices keep their records. */
  lemma {:induction false} RunRecorded(env: Env, s: Ledger, ops: seq<Op>)
    requires Recorded(s) && Run(env, s, ops).Done?
    ensures Recorded(Run(env, s, ops).value)
  {
    if ops != [] {
      RunRecorded(env, s, ops[..|ops| - 1]);
      StepRecorded(env, Run(env, s, ops[..|ops| - 1]).value, ops[|ops| - 1]);
    }
  }

  /** In every run these are exactly the operations that stop it. */
  lemma RunStopsExactly(env: Env, s: Ledger, ops: seq<Op>, op: Op)
    requires Recorded(s) && Run(env, s, ops).Done?
    ensures Recorded(Run(env, s, ops).value)
    ensures Run(env, s, ops + [op]).Panic? <==> Stops(env, Run(env, s, ops).value, op)
  {
    RunRecorded(env, s, ops);
    assert (ops + [op])[..|ops|] == ops;
    StepStops(env, Run(env, s, ops).value, op);
  }

  /** The totals of every record are within the range of a u64. */
  ghost predicate Bounded(s: Ledger) {
    forall h | h in s.payments :: BoundedAt(s.payments[h])
  }

  ghost predicate BoundedAt(p: RoutedPayment) {
    Sum(p.incoming) <= U64_MAX && Sum(p.outgoing) <= U64_MAX
  }

  lemma CommitBounded(env: Env, s: Ledger, u: Update)
    requires Bounded(s) && Validate(env.policy, s, u) == Done(true) && Apply(env.policy, s, u).Done?
    ensures Bounded(Apply(env.policy, s, u).value)
  {
    var s' := Apply(env.policy, s, u).value;
    forall h | h in s'.payments
      ensures BoundedAt(s'.payments[h])
    {
      if h in u.Hashes() {
        StoredAsValidated(env, s, u, h);
        assert HashInRange(env.policy, s, u, h);
      } else {
        assert BoundedAt(s.payments[h]);
      }
    }
  }

  /** The amounts of every record are as they were, or it is a new one without any. */
  ghost predicate AmountsKept(s: Ledger, s': Ledger) {
    forall h | h in s'.payments :: AmountsKeptAt(s, s', h)
  }

  ghost predicate AmountsKeptAt(s: Ledger, s': Ledger, h: PaymentHash)
    requires h in s'.payments
  {
    var p := PaymentAt(s, h);
    s'.payments[h].incoming == p.incoming && s'.payments[h].outgoing == p.outgoing
  }

  lemma BeatKeepsAmounts(s: Ledger, now: Duration)
    requires Heartbeat(s, now).Done?
    ensures AmountsKept(s, Heartbeat(s, now).value.ledger)
  {
  }

  lemma FulfillKeepsAmounts(policy: Policy, s: Ledger, h: PaymentHash, preimage: Preimage)
    requires Fulfill(policy, s, h, preimage).Done?
    ensures AmountsKept(s, Fulfill(policy, s, h, preimage).value)
  {
  }

  lemma OthersKeepAmounts(env: Env, s: Ledger, op: Op)
    requires !op.Commit? && Step(env, s, op).Done?
    ensures AmountsKept(s, Step(env, s, op).value)
  {
    match op
    case Beat(now) => BeatKeepsAmounts(s, now);
    case LearnPreimage(preimage) => FulfillKeepsAmounts(env.policy, s, env.sha(preimage), preimage);
    case _ =>
  }

  lemma KeptBounded(s: Ledger, s': Ledger)
    requires Bounded(s) && AmountsKept(s, s')
    ensures Bounded(s')
  {
    forall h | h in s'.payments
      ensures BoundedAt(s'.payments[h])
    {
      assert AmountsKeptAt(s, s', h);
      if h in s.payments {
        assert BoundedAt(s.payments[h]);
      }
    }
  }

  lemma StepBounded(env: Env, s: Ledger, op: Op)
    requires Bounded(s) && Step(env, s, op).Done?
    ensures Bounded(Step(env, s, op).value)
  {
    if op.Commit? {
      if Validate(env.policy, s, op.u) == Done(true) && op.accepted {
        CommitBounded(env, s, op.u);
      }
    } else {
      OthersKeepAmounts(env, s, op);
      KeptBounded(s, Step(env, s, op).value);
    }
  }

  lemma {:induction false} RunBounded(env: Env, s: Ledger, ops: seq<Op>)
    requires Bounded(s) && Run(env, s, ops).Done?
    ensures Bounded(Run(env, s, ops).value)
  {
    if ops != [] {
      RunBounded(env, s, ops[..|ops| - 1]);
      StepBounded(env, Run(env, s, ops[..|ops| - 1]).value, ops[|ops| - 1]);
    }
  }

  /** From a ledger within range, pruning stops a run only over the times of an invoice that is still listed. */
  lemma PruningStopsOnTimes(env: Env, s: Ledger, ops: seq<Op>, now: Duration)
    requires Recorded(s) && Bounded(s) && Run(env, s, ops).Done?
    ensures var s' := Run(env, s, ops).value;
            Run(env, s, ops + [Beat(now)]).Panic? <==>
            || (exists h | h in s'.invoices :: !TimeInRange(s'.invoices[h]))
            || (exists h | h in s'.issued :: !TimeInRange(s'.issued[h]))
  {
    RunStopsExactly(env, s, ops, Beat(now));
    RunBounded(env, s, ops);
    var s' := Run(env, s, ops).value;
    forall h | h in s'.payments
      ensures ForwardInRange(s'.payments[h])
      ensures h in s'.invoices ==> (InvoiceInRange(s', h) <==> TimeInRange(s'.invoices[h]))
    {
      assert BoundedAt(s'.payments[h]);
    }
  }

  /** While no heartbeat survives it, an issued invoice with times out of range stays. */
  lemma {:induction false} EndlessStays(env: Env, s: Ledger, ops: seq<Op>, h: PaymentHash)
    requires Recorded(s) && h in s.issued && !TimeInRange(s.issued[h]) && Run(env, s, ops).Done?
    ensures var s' := Run(env, s, ops).value;
            Recorded(s') && h in s'.issued && s'.issued[h] == s.issued[h]
  {
    if ops != [] {
      var n := |ops| - 1;
      var s' := Run(env, s, ops[..n]).value;
      EndlessStays(env, s, ops[..n], h);
      StepStops(env, s', ops[n]);
      StepRecorded(env, s', ops[n]);
    }
  }

  /** An issued invoice with the longest expiry, in whole seconds, stops the first heartbeat, whatever is in between. */
  lemma NoExpiryStopsPruning(env: Env, h: PaymentHash, p: PaymentState, ops: seq<Op>, now: Duration)
    requires env.policy.maxInvoices > 0 && p.paymentType.Invoice? && p.expiry == U64_MAX * SECOND
    ensures var s := Step(env, Ledger(map[], map[], map[], 0), SignInvoice(h, p));
            s.Done? && Run(env, s.value, ops + [Beat(now)]).Panic?
  {
    var s := Step(env, Ledger(map[], map[], map[], 0), SignInvoice(h, p)).value;
    assert h in s.issued && s.issued[h] == p && !TimeInRange(p);
    assert (ops + [Beat(now)])[..|ops|] == ops;
    if Run(env, s, ops).Done? {
      EndlessStays(env, s, ops, h);
      BeatStopsExactly(Run(env, s, ops).value, now);
    }
  }

  /**
   From a ledger within range, a preimage stops a run exactly if it is news of a payment without an invoice,
   credited under the balance policy, and the register cannot take the credit or bear the loss.
   */
  lemma LearningStopsOnCredit(env: Env, s: Ledger, ops: seq<Op>, preimage: Preimage)
    requires Recorded(s) && Bounded(s) && Run(env, s, ops).Done?
    ensures var s' := Run(env, s, ops).value;
            var h := env.sha(preimage);
            Run(env, s, ops + [LearnPreimage(preimage)]).Panic? <==>
            && Credits(env.policy, s', h)
            && var t := TotalsOf(s'.payments[h]);
               s'.excess + t.incoming > U64_MAX || s'.excess + t.incoming < t.outgoing
  {
    RunStopsExactly(env, s, ops, LearnPreimage(preimage));
    RunBounded(env, s, ops);
    var s' := Run(env, s, ops).value;
    assert env.sha(preimage) in s'.payments ==> BoundedAt(s'.payments[env.sha(preimage)]);
  }

  // ---------- what is validated is what is stored ----------

  lemma SumSingle(k: ChannelId, v: nat)
    ensures Sum(map[k := v]) == v
  {
    var none: map<ChannelId, nat> := map[];
    SumUpdate(none, k, v);
    assert none - {k} == none && none[k := v] == map[k := v];
  }

  lemma NewTotals(u: Update, h: PaymentHash)
    ensures TotalsOf(WithAmounts(NewPayment(), u.channel, u.In(h), u.Out(h))) == Totals(u.In(h), u.Out(h))
  {
    SumSingle(u.channel, u.In(h));
    SumSingle(u.channel, u.Out(h));
    assert map[][u.channel := u.In(h)] == map[u.channel := u.In(h)];
    assert map[][u.channel := u.Out(h)] == map[u.channel := u.Out(h)];
  }

  /** The totals over all channels after applying are the totals that were validated. */
  lemma StoredAsValidated(env: Env, s: Ledger, u: Update, h: PaymentHash)
    requires h in u.Hashes() && Apply(env.policy, s, u).Done?
    ensures var s' := Apply(env.policy, s, u).value;
            h in s'.payments && TotalsOf(s'.payments[h]) == UpdatedTotals(s, u, h)
  {
    NewTotals(u, h);
  }

  // ---------- invoiced payments stay in balance ----------

  ghost predicate CoveredAt(policy: Policy, s: Ledger, h: PaymentHash)
    requires h in s.invoices && h in s.payments
  {
    var p := s.payments[h];
    1000 * Sum(p.outgoing) <= 1000 * Sum(p.incoming) + s.invoices[h].amountMsat + policy.maxRoutingFeeMsat
  }

  /** No invoiced payment sends more than it receives, the invoice and the routing fee allow. */
  ghost predicate Covered(policy: Policy, s: Ledger) {
    Recorded(s) && forall h | h in s.invoices :: CoveredAt(policy, s, h)
  }

  /** The operation registers a new invoice. */
  ghost predicate Enters(policy: Policy, s: Ledger, op: Op)
    requires op.AddInvoice?
  {
    EntryTimely(op.p, op.now) == Done(true) && Admitted(policy, s, op.h, op.admitted) && op.persisted
  }

  /** An invoice that comes after its payment finds the payment within what the invoice allows. */
  ghost predicate CoveredAtEntry(policy: Policy, s: Ledger, op: Op) {
    op.AddInvoice? && Enters(policy, s, op) && op.h in s.payments ==>
      Balanced(policy, TotalsOf(s.payments[op.h]), Some(op.p.amountMsat))
  }

  lemma CommitCovered(env: Env, s: Ledger, u: Update)
    requires Covered(env.policy, s) && Validate(env.policy, s, u) == Done(true)
    ensures Apply(env.policy, s, u).Done? && Covered(env.policy, Apply(env.policy, s, u).value)
  {
    ValidatedApplies(env.policy, s, u);
    var s' := Apply(env.policy, s, u).value;
    forall h | h in s'.invoices
      ensures CoveredAt(env.policy, s', h)
    {
      assert CoveredAt(env.policy, s, h);
      if h in u.Hashes() {
        StoredAsValidated(env, s, u, h);
        assert HashAllowed(env.policy, s, u, h);
      }
    }
  }

  lemma WithInvoiceCovered(policy: Policy, s: Ledger, h: PaymentHash, p: PaymentState)
    requires Covered(policy, s) && h !in s.invoices
    ensures Covered(policy, WithInvoice(s, h, p)) <==>
            Balanced(policy, TotalsOf(PaymentAt(s, h)), Some(p.amountMsat))
  {
    var s' := WithInvoice(s, h, p);
    assert Recorded(s') && s'.payments[h] == PaymentAt(s, h);
    assert CoveredAt(policy, s', h) <==> Balanced(policy, TotalsOf(PaymentAt(s, h)), Some(p.amountMsat));
    forall g | g in s'.invoices && g != h
      ensures CoveredAt(policy, s', g)
    {
      assert CoveredAt(policy, s, g);
    }
  }

  lemma EntryCovered(env: Env, s: Ledger, op: Op)
    requires Covered(env.policy, s) && op.AddInvoice? && Step(env, s, op).Done?
    ensures Covered(env.policy, Step(env, s, op).value) <==> CoveredAtEntry(env.policy, s, op)
  {
    if Enters(env.policy, s, op) {
      assert Step(env, s, op).value == WithInvoice(s, op.h, op.p);
      WithInvoiceCovered(env.policy, s, op.h, op.p);
      assert TotalsOf(NewPayment()) == Totals(0, 0);
    }
  }

  lemma LearningCovered(env: Env, s: Ledger, op: Op)
    requires Covered(env.policy, s) && op.LearnPreimage? && Step(env, s, op).Done?
    ensures Covered(env.policy, Step(env, s, op).value)
  {
    var s' := Step(env, s, op).value;
    forall h | h in s'.invoices
      ensures CoveredAt(env.policy, s', h)
    {
      assert CoveredAt(env.policy, s, h);
    }
  }

  lemma BeatCovered(env: Env, s: Ledger, now: Duration)
    requires Covered(env.policy, s) && Heartbeat(s, now).Done?
    ensures Covered(env.policy, Heartbeat(s, now).value.ledger)
  {
    var s' := Heartbeat(s, now).value.ledger;
    forall h | h in s'.invoices
      ensures h in s'.payments && CoveredAt(env.policy, s', h)
    {
      assert CoveredAt(env.policy, s, h);
    }
  }

  /** One operation keeps invoiced payments in balance, unless it is an invoice that comes too late. */
  lemma StepCovered(env: Env, s: Ledger, op: Op)
    requires Covered(env.policy, s) && Step(env, s, op).Done?
    ensures Covered(env.policy, Step(env, s, op).value) <==> CoveredAtEntry(env.policy, s, op)
  {
    match op
    case Commit(u, accepted) =>
      if Validate(env.policy, s, u) == Done(true) {
        CommitCovered(env, s, u);
      }
    case LearnPreimage(_) => LearningCovered(env, s, op);
    case AddInvoice(_, _, _, _, _) => EntryCovered(env, s, op);
    case SignInvoice(_, _) =>
      var s' := Step(env, s, op).value;
      assert forall h | h in s.invoices :: CoveredAt(env.policy, s, h) && CoveredAt(env.policy, s', h);
    case Beat(now) => BeatCovered(env, s, now);
  }

  /** `payment_state_from_keysend` at time zero. */
  function KeysendOf(h: PaymentHash, msat: Amount): PaymentState {
    PaymentState(h, msat, 0, MINUTE, Keysend)
  }

  /**
   A late invoice: a payment that came in and went on loses its incoming part, which is allowed without an
   invoice, and is then out of balance with the invoice registered for it.
   */
  lemma LateInvoiceExample(env: Env, c: ChannelId, h: PaymentHash)
    requires env.policy == Policy(false, 0, 1)
    ensures var p := KeysendOf(h, 1);
            var s0 := Ledger(map[], map[], map[], 0);
            var s1 := Step(env, s0, Commit(Update(c, map[h := 1], map[h := 1], 0, 0), true));
            && s1.Done?
            && var s2 := Step(env, s1.value, Commit(Update(c, map[], map[h := 1], 0, 0), true));
               && s2.Done?
               && var s3 := Step(env, s2.value, AddInvoice(h, p, 0, true, true));
                  s3.Done? && Covered(env.policy, s2.value) && !Covered(env.policy, s3.value)
  {
    var u1, u2 := Update(c, map[h := 1], map[h := 1], 0, 0), Update(c, map[], map[h := 1], 0, 0);
    var s0 := Ledger(map[], map[], map[], 0);
    var s1 := PassingCommit(env, s0, u1, h);
    var s2 := PassingCommit(env, s1, u2, h);
    SumSingle(c, 0);
    SumSingle(c, 1);
    assert TotalsOf(s2.payments[h]) == Totals(0, 1);
    EntryCovered(env, s2, AddInvoice(h, KeysendOf(h, 1), 0, true, true));
  }

  /** A commitment with one satoshi out on one hash, which is new and balanced or known and not invoiced. */
  lemma PassingCommit(env: Env, s: Ledger, u: Update, h: PaymentHash) returns (after: Ledger)
    requires env.policy.maxRoutingFeeMsat == 0 && s.invoices == map[] && s.issued == map[] && s.excess == 0
    requires u.Hashes() == {h} && u.In(h) <= 1 && u.Out(h) == 1 && u.balanceBefore == u.balanceAfter == 0
    requires || (s.payments == map[] && u.In(h) == 1)
             || (s.payments.Keys == {h} && s.payments[h].incoming == map[u.channel := 1]
                 && s.payments[h].outgoing == map[u.channel := 1])
    ensures Step(env, s, Commit(u, true)) == Done(after)
    ensures after.invoices == map[] && after.issued == map[] && after.excess == 0 && after.payments.Keys == {h}
    ensures s.payments == map[] || s.payments[h].preimage.None? ==> after.payments[h].preimage.None?
    ensures after.payments[h].incoming == map[u.channel := u.In(h)]
    ensures after.payments[h].outgoing == map[u.channel := 1]
  {
    SumSingle(u.channel, u.In(h));
    SumSingle(u.channel, 1);
    var none: map<ChannelId, Amount> := map[];
    assert none[u.channel := u.In(h)] == map[u.channel := u.In(h)];
    assert map[u.channel := 1][u.channel := u.In(h)] == map[u.channel := u.In(h)];
    assert map[u.channel := 1][u.channel := 1] == map[u.channel := 1] == none[u.channel := 1];
    assert UpdatedTotals(s, u, h) == Totals(u.In(h), 1);
    assert HashInRange(env.policy, s, u, h) && HashAllowed(env.policy, s, u, h);
    assert Validate(env.policy, s, u) == Done(true);
    assert AppliesInRange(s, u, h);
    after := Apply(env.policy, s, u).value;
  }

  /**
   A lossy payment: one that came in and went on loses its incoming part, and then its preimage asks for a
   credit below zero.
   */
  lemma LossStopsLearning(env: Env, c: ChannelId, preimage: Preimage)
    requires env.policy.enforceBalance && env.policy.maxRoutingFeeMsat == 0
    ensures var h := env.sha(preimage);
            var s0 := Ledger(map[], map[], map[], 0);
            var s1 := Step(env, s0, Commit(Update(c, map[h := 1], map[h := 1], 0, 0), true));
            && s1.Done?
            && var s2 := Step(env, s1.value, Commit(Update(c, map[], map[h := 1], 0, 0), true));
               s2.Done? && Step(env, s2.value, LearnPreimage(preimage)).Panic?
  {
    var h := env.sha(preimage);
    var u1, u2 := Update(c, map[h := 1], map[h := 1], 0, 0), Update(c, map[], map[h := 1], 0, 0);
    var s1 := PassingCommit(env, Ledger(map[], map[], map[], 0), u1, h);
    var s2 := PassingCommit(env, s1, u2, h);
    SumSingle(c, 0);
    SumSingle(c, 1);
    assert TotalsOf(s2.payments[h]) == Totals(0, 1);
  }

  /** Every invoice of the run was registered before its payment, or over a payment it covers. */
  ghost predicate EntriesCovered(env: Env, s: Ledger, ops: seq<Op>) {
    ops == [] ||
    var n := |ops| - 1;
    && EntriesCovered(env, s, ops[..n])
    && (Run(env, s, ops[..n]).Done? ==> CoveredAtEntry(env.policy, Run(env, s, ops[..n]).value, ops[n]))
  }

  /** In every such run the totals of each invoiced hash, over all channels, are within what was invoiced. */
  lemma {:induction false} InvoicedPaymentsBalanced(env: Env, s: Ledger, ops: seq<Op>)
    requires Covered(env.policy, s) && EntriesCovered(env, s, ops) && Run(env, s, ops).Done?
    ensures Covered(env.policy, Run(env, s, ops).value)
  {
    if ops != [] {
      var n := |ops| - 1;
      InvoicedPaymentsBalanced(env, s, ops[..n]);
      StepCovered(env, Run(env, s, ops[..n]).value, ops[n]);
    }
  }

  // ---------- the register of excess balance ----------

  /** The change of the register: applied balance changes, and credits for learned preimages. */
  ghost function Gain(env: Env, s: Ledger, op: Op): int {
    match op
    case Commit(u, accepted) =>
      if accepted && env.policy.enforceBalance && Validate(env.policy, s, u) == Done(true)
      then u.balanceAfter - u.balanceBefore else 0
    case LearnPreimage(preimage) =>
      var h := env.sha(preimage);
      if env.policy.enforceBalance && h in s.payments && s.payments[h].preimage.None? && h !in s.invoices
      then Sum(s.payments[h].incoming) - Sum(s.payments[h].outgoing) else 0
    case _ => 0
  }

  ghost function Gains(env: Env, s: Ledger, ops: seq<Op>): int {
    if ops == [] then 0
    else
      var n := |ops| - 1;
      Gains(env, s, ops[..n]) +
      if Run(env, s, ops[..n]).Done? then Gain(env, Run(env, s, ops[..n]).value, ops[n]) else 0
  }

  lemma StepGain(env: Env, s: Ledger, op: Op)
    requires Step(env, s, op).Done?
    ensures Step(env, s, op).value.excess == s.excess + Gain(env, s, op)
  {
  }

  /** The register holds its start plus every applied balance change and every credit. */
  lemma {:induction false} ExcessAccounted(env: Env, s: Ledger, ops: seq<Op>)
    requires Run(env, s, ops).Done?
    ensures Run(env, s, ops).value.excess == s.excess + Gains(env, s, ops)
  {
    if ops != [] {
      var n := |ops| - 1;
      ExcessAccounted(env, s, ops[..n]);
      StepGain(env, Run(env, s, ops[..n]).value, ops[n]);
    }
  }

  ghost predicate Known(s: Ledger, h: PaymentHash) {
    h in s.payments && s.payments[h].preimage.Some?
  }

  lemma BeatKeepsPreimage(s: Ledger, now: Duration, h: PaymentHash)
    requires Known(s, h) && Heartbeat(s, now).Done?
    ensures var s' := Heartbeat(s, now).value.ledger; h in s'.payments ==> Known(s', h)
  {
  }

  lemma StepKeepsPreimage(env: Env, s: Ledger, op: Op, h: PaymentHash)
    requires Known(s, h) && Step(env, s, op).Done?
    ensures var s' := Step(env, s, op).value; h in s'.payments ==> Known(s', h)
  {
    match op
    case Beat(now) => BeatKeepsPreimage(s, now, h);
    case _ =>
  }

  /** The record of h stays through the operations i .. j of the run. */
  ghost predicate Stays(env: Env, s: Ledger, ops: seq<Op>, h: PaymentHash, i: nat, j: nat)
    requires i <= j <= |ops|
  {
    forall k | i <= k <= j :: Run(env, s, ops[..k]).Done? && h in Run(env, s, ops[..k]).value.payments
  }

  lemma {:induction false} PreimageStays(env: Env, s: Ledger, ops: seq<Op>, h: PaymentHash, i: nat, j: nat)
    requires i <= j <= |ops| && Stays(env, s, ops, h, i, j)
    requires Known(Run(env, s, ops[..i]).value, h)
    ensures Known(Run(env, s, ops[..j]).value, h)
    decreases j
  {
    if i < j {
      PreimageStays(env, s, ops, h, i, j - 1);
      RunStep(env, s, ops, j - 1);
      StepKeepsPreimage(env, Run(env, s, ops[..j - 1]).value, ops[j - 1], h);
    }
  }

  /** Operation i of the run credits the payment h. */
  ghost predicate CreditsAt(env: Env, s: Ledger, ops: seq<Op>, h: PaymentHash, i: nat)
    requires i < |ops|
  {
    && Run(env, s, ops[..i]).Done?
    && ops[i].LearnPreimage? && env.sha(ops[i].preimage) == h
    && Credits(env.policy, Run(env, s, ops[..i]).value, h)
  }

  /**
   A payment whose preimage is known, learned or because its issued invoice was paid, is not credited
   while its record is kept.
   */
  lemma KnownNotCredited(env: Env, s: Ledger, ops: seq<Op>, h: PaymentHash, i: nat, j: nat)
    requires i <= j < |ops| && Stays(env, s, ops, h, i, j)
    requires Known(Run(env, s, ops[..i]).value, h)
    ensures !CreditsAt(env, s, ops, h, j)
  {
    PreimageStays(env, s, ops, h, i, j);
  }

  lemma CreditMakesKnown(env: Env, s: Ledger, op: Op)
    requires op.LearnPreimage? && Credits(env.policy, s, env.sha(op.preimage)) && Step(env, s, op).Done?
    ensures Known(Step(env, s, op).value, env.sha(op.preimage))
  {
  }

  lemma RunStep(env: Env, s: Ledger, ops: seq<Op>, i: nat)
    requires i < |ops| && Run(env, s, ops[..i]).Done?
    ensures Run(env, s, ops[..i + 1]) == Step(env, Run(env, s, ops[..i]).value, ops[i])
  {
    assert ops[..i + 1][..i] == ops[..i];
  }

  /** So no record is credited twice. */
  lemma CreditedOnce(env: Env, s: Ledger, ops: seq<Op>, h: PaymentHash, i: nat, j: nat)
    requires i < j < |ops| && Stays(env, s, ops, h, i, j) && CreditsAt(env, s, ops, h, i)
    ensures !CreditsAt(env, s, ops, h, j)
  {
    RunStep(env, s, ops, i);
    CreditMakesKnown(env, Run(env, s, ops[..i]).value, ops[i]);
    KnownNotCredited(env, s, ops, h, i + 1, j);
  }

  // ---------- pruning ----------

  /** What a heartbeat keeps, record by record. */
  lemma HeartbeatKeeps(s: Ledger, now: Duration, h: PaymentHash)
    requires Recorded(s) && Heartbeat(s, now).Done?
    ensures KeptBy(s, Heartbeat(s, now).value.ledger, now, h)
  {
  }

  ghost predicate KeptBy(s: Ledger, s': Ledger, now: Duration, h: PaymentHash)
    requires Recorded(s)
  {
    && (h in s'.invoices <==> h in s.invoices && !InvoicePrunable(s, now, h))
    && (h in s'.invoices ==> s'.invoices[h] == s.invoices[h])
    && (h in s'.issued <==> h in s.issued && PruneTime(s.issued[h]) > now)
    && (h in s'.issued ==> s'.issued[h] == s.issued[h])
    && (h in s'.payments <==>
          && h in s.payments
          && if h in s.invoices then !InvoicePrunable(s, now, h)
             else h in s'.issued || !NoIncoming(s.payments[h]) || !NoOutgoing(s.payments[h]))
    && (h in s'.payments ==> s'.payments[h] == s.payments[h])
    && s'.excess == s.excess
  }

  /** A record that goes was fulfilled or had nothing outgoing; one that stays still has a reason to. */
  lemma HeartbeatDropsNothingPending(s: Ledger, now: Duration, h: PaymentHash)
    requires Recorded(s) && Heartbeat(s, now).Done? && h in s.payments
    ensures var s' := Heartbeat(s, now).value.ledger;
            if h in s'.payments
            then h in s'.invoices || h in s'.issued || !NoIncoming(s'.payments[h]) || !NoOutgoing(s'.payments[h])
            else s.payments[h].preimage.Some? || NoOutgoing(s.payments[h])
  {
    HeartbeatKeeps(s, now, h);
  }

  lemma SettledInRange(s: Ledger, now: Duration)
    requires Recorded(s) && Heartbeat(s, now).Done?
    ensures var s' := Heartbeat(s, now).value.ledger; Recorded(s') && !BeatStops(s', now)
  {
    BeatRecorded(s, now);
    BeatStopsExactly(s, now);
    var s' := Heartbeat(s, now).value.ledger;
    forall h
      ensures h in s'.invoices ==> InvoiceInRange(s', h)
      ensures h in s'.issued ==> TimeInRange(s'.issued[h]) && PruneTime(s'.issued[h]) > now
      ensures h in s'.payments && h !in s'.invoices && h !in s'.issued ==> ForwardInRange(s'.payments[h])
    {
      HeartbeatKeeps(s, now, h);
    }
  }

  /** A second heartbeat at the same time finds nothing to prune and says so. */
  lemma HeartbeatSettles(s: Ledger, now: Duration)
    requires Recorded(s) && Heartbeat(s, now).Done?
    ensures var s' := Heartbeat(s, now).value.ledger;
            Heartbeat(s', now) == Done(Pruned(s', false))
  {
    SettledInRange(s, now);
    SettledUnprunable(s, now);
    NothingPrunable(Heartbeat(s, now).value.ledger, now);
  }

  lemma SettledUnprunable(s: Ledger, now: Duration)
    requires Recorded(s) && Heartbeat(s, now).Done?
    ensures var s' := Heartbeat(s, now).value.ledger;
            && Recorded(s')
            && PrunableInvoices(s', now) == {} && PrunableIssued(s', now) == {} && PrunableForwards(s') == {}
  {
    BeatRecorded(s, now);
    var s' := Heartbeat(s, now).value.ledger;
    forall h
      ensures h in s'.invoices ==> !InvoicePrunable(s', now, h)
      ensures h in s'.issued ==> PruneTime(s'.issued[h]) > now
      ensures h in s'.payments ==> !ForwardPrunable(s', h)
    {
      HeartbeatKeeps(s, now, h);
    }
  }

  lemma NothingPrunable(s: Ledger, now: Duration)
    requires Recorded(s) && !BeatStops(s, now)
    requires PrunableInvoices(s, now) == {} && PrunableIssued(s, now) == {} && PrunableForwards(s) == {}
    ensures Heartbeat(s, now) == Done(Pruned(s, false))
  {
    BeatStopsExactly(s, now);
    var none: set<PaymentHash> := {};
    assert s.invoices - none == s.invoices && s.issued - none == s.issued && s.payments - none == s.payments;
    assert WithoutExpired(s, now).value.ledger == s && PruneIssued(s, now).value.ledger == s;
  }
}
