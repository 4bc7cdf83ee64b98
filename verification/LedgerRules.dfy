/**
 What the ledger admits, records, credits and prunes, in plain sums and times rather than in terms of its
 own guards.  Amounts are in satoshi, invoices in millisatoshi, times in nanoseconds.
 */
module LedgerRules {
  import opened Wrappers
  import opened Ledgers
  import LedgerSafety

  /** What is recorded for h with the share of the update's channel replaced. */
  ghost function In(s: Ledger, u: Update, h: PaymentHash): nat {
    var recorded := if h in s.payments then s.payments[h].incoming else map[];
    Sum(recorded[u.channel := if h in u.incoming then u.incoming[h] else 0])
  }

  ghost function Out(s: Ledger, u: Update, h: PaymentHash): nat {
    var recorded := if h in s.payments then s.payments[h].outgoing else map[];
    Sum(recorded[u.channel := if h in u.outgoing then u.outgoing[h] else 0])
  }

  lemma TotalsAre(s: Ledger, u: Update, h: PaymentHash)
    ensures UpdatedTotals(s, u, h) == Totals(In(s, u, h), Out(s, u, h))
  {
    if h !in s.payments {
      var none: map<ChannelId, Amount> := map[];
      SumUpdate(none, u.channel, u.In(h));
      SumUpdate(none, u.channel, u.Out(h));
      assert none - {u.channel} == map[];
    }
  }

  // ---------- what a commitment may do ----------

  /** What goes out is within what comes in, the invoice and the fee; a new payment without an invoice balances. */
  ghost predicate Pays(policy: Policy, s: Ledger, u: Update, h: PaymentHash) {
    if h in s.invoices then
      1000 * Out(s, u, h) <= 1000 * In(s, u, h) + s.invoices[h].amountMsat + policy.maxRoutingFeeMsat
    else h in s.payments || Out(s, u, h) <= In(s, u, h)
  }

  ghost predicate Computes(policy: Policy, s: Ledger, u: Update, h: PaymentHash) {
    && 1000 * Out(s, u, h) <= U64_MAX
    && (if h in s.invoices then 1000 * In(s, u, h) + s.invoices[h].amountMsat + policy.maxRoutingFeeMsat <= U64_MAX
        else 1000 * In(s, u, h) <= U64_MAX)
  }

  ghost predicate Named(u: Update, h: PaymentHash) {
    h in u.incoming || h in u.outgoing
  }

  lemma HashRules(policy: Policy, s: Ledger, u: Update, h: PaymentHash)
    ensures HashAllowed(policy, s, u, h) <==> Pays(policy, s, u, h)
    ensures HashInRange(policy, s, u, h) <==> Computes(policy, s, u, h)
  {
    TotalsAre(s, u, h);
  }

  /** A commitment is admitted exactly if every payment it names may be paid and the register can bear it. */
  lemma AdmitsExactly(policy: Policy, s: Ledger, u: Update)
    ensures Validate(policy, s, u) == Done(true) <==>
            && (forall h | Named(u, h) :: Computes(policy, s, u, h) && Pays(policy, s, u, h))
            && (policy.enforceBalance ==> u.balanceBefore <= s.excess + u.balanceAfter <= U64_MAX)
    ensures Validate(policy, s, u).Panic? <==>
            || (exists h | Named(u, h) :: !Computes(policy, s, u, h))
            || (&& policy.enforceBalance && s.excess + u.balanceAfter > U64_MAX
                && forall h | Named(u, h) :: Pays(policy, s, u, h))
  {
    forall h
      ensures h in u.Hashes() <==> Named(u, h)
      ensures HashAllowed(policy, s, u, h) <==> Pays(policy, s, u, h)
      ensures HashInRange(policy, s, u, h) <==> Computes(policy, s, u, h)
    {
      HashRules(policy, s, u, h);
    }
  }

  // ---------- what a commitment records ----------

  /** The whole effect of an accepted commitment on the record of one payment. */
  lemma RecordsExactly(policy: Policy, s: Ledger, u: Update, h: PaymentHash)
    requires Apply(policy, s, u).Done?
    ensures var s' := Apply(policy, s, u).value;
            && s'.invoices == s.invoices && s'.issued == s.issued
            && s'.excess == (if policy.enforceBalance then s.excess + u.balanceAfter - u.balanceBefore else s.excess)
            && (h in s'.payments <==> h in s.payments || Named(u, h))
            && (h in s.payments && !Named(u, h) ==> s'.payments[h] == s.payments[h])
            && (Named(u, h) ==>
                  var p, p' := PaymentAt(s, h), s'.payments[h];
                  && p'.incoming == p.incoming[u.channel := if h in u.incoming then u.incoming[h] else 0]
                  && p'.outgoing == p.outgoing[u.channel := if h in u.outgoing then u.outgoing[h] else 0])
  {
  }

  /** An issued invoice is marked paid exactly if what came in less what went out has reached its amount. */
  lemma PaidExactly(policy: Policy, s: Ledger, u: Update, h: PaymentHash)
    requires Apply(policy, s, u).Done? && Named(u, h)
    ensures var s' := Apply(policy, s, u).value;
            h in s'.payments &&
            var p := s'.payments[h];
            p.preimage.Some? <==>
            || (h in s.payments && s.payments[h].preimage.Some?)
            || (&& policy.enforceBalance && h in s.issued
                && Sum(p.incoming) >= Sum(p.outgoing) + s.issued[h].amountMsat / 1000)
  {
  }

  /** The mark is a preimage of 32 zero bytes. */
  lemma PaidMark(policy: Policy, s: Ledger, u: Update, h: PaymentHash)
    requires Apply(policy, s, u).Done? && Named(u, h) && PaymentAt(s, h).preimage.None?
    ensures var s' := Apply(policy, s, u).value;
            && h in s'.payments
            && (s'.payments[h].preimage.Some? ==>
                  var mark := s'.payments[h].preimage.value;
                  |mark| == 32 && forall i | 0 <= i < 32 :: mark[i] == 0)
  {
  }

  /** Applying a commitment panics exactly if an issued invoice cannot be compared, or the register is left. */
  lemma ApplyingStopsExactly(policy: Policy, s: Ledger, u: Update)
    ensures Apply(policy, s, u).Panic? <==>
            || (exists h | Named(u, h) :: CannotCompare(s, u, h))
            || (policy.enforceBalance && !(u.balanceBefore <= s.excess + u.balanceAfter <= U64_MAX))
  {
    forall h
      ensures h in u.Hashes() <==> Named(u, h)
      ensures AppliesInRange(s, u, h) <==> !CannotCompare(s, u, h)
    {
      TotalsAre(s, u, h);
      RecordTotals(s, u, h);
    }
  }

  lemma RecordTotals(s: Ledger, u: Update, h: PaymentHash)
    ensures TotalsOf(WithAmounts(PaymentAt(s, h), u.channel, u.In(h), u.Out(h))) == Totals(In(s, u, h), Out(s, u, h))
  {
  }

  /** The totals that are compared with an issued invoice not known to be paid do not fit 64 bits. */
  ghost predicate CannotCompare(s: Ledger, u: Update, h: PaymentHash) {
    && h in s.issued && (h in s.payments ==> s.payments[h].preimage.None?)
    && (In(s, u, h) > U64_MAX || Out(s, u, h) + s.issued[h].amountMsat / 1000 > U64_MAX)
  }

  /** A preimage on record is never replaced by a commitment. */
  lemma PreimageKept(policy: Policy, s: Ledger, u: Update, h: PaymentHash)
    requires Apply(policy, s, u).Done? && h in s.payments && s.payments[h].preimage.Some?
    ensures var s' := Apply(policy, s, u).value;
            h in s'.payments && s'.payments[h].preimage == s.payments[h].preimage
  {
  }

  /** An issued invoice that a commitment has paid is not credited again while its record stays. */
  lemma PaidNotCredited(env: LedgerSafety.Env, s: Ledger, ops: seq<LedgerSafety.Op>, h: PaymentHash, i: nat, j: nat)
    requires i < j < |ops| && LedgerSafety.Stays(env, s, ops, h, i + 1, j) && env.policy.enforceBalance
    requires LedgerSafety.Run(env, s, ops[..i]).Done?
    requires var before := LedgerSafety.Run(env, s, ops[..i]).value;
             && ops[i].Commit? && ops[i].accepted && Validate(env.policy, before, ops[i].u) == Done(true)
             && Named(ops[i].u, h) && h in before.issued
             && In(before, ops[i].u, h) >= Out(before, ops[i].u, h) + before.issued[h].amountMsat / 1000
    ensures !LedgerSafety.CreditsAt(env, s, ops, h, j)
  {
    var before := LedgerSafety.Run(env, s, ops[..i]).value;
    LedgerSafety.RunStep(env, s, ops, i);
    LedgerSafety.ValidatedApplies(env.policy, before, ops[i].u);
    PaidExactly(env.policy, before, ops[i].u, h);
    TotalsAre(before, ops[i].u, h);
    RecordsExactly(env.policy, before, ops[i].u, h);
    LedgerSafety.KnownNotCredited(env, s, ops, h, i + 1, j);
  }

  // ---------- what a preimage does ----------

  lemma LearnsExactly(policy: Policy, s: Ledger, h: PaymentHash, preimage: Preimage, g: PaymentHash)
    requires Fulfill(policy, s, h, preimage).Done?
    ensures var s' := Fulfill(policy, s, h, preimage).value;
            var news := h in s.payments && s.payments[h].preimage.None?;
            && s'.invoices == s.invoices && s'.issued == s.issued
            && s'.payments.Keys == s.payments.Keys
            && (g in s.payments ==>
                  s'.payments[g] ==
                  if g == h && news then s.payments[g].(preimage := Some(preimage)) else s.payments[g])
            && s'.excess == if news && policy.enforceBalance && h !in s.invoices
                            then s.excess + Sum(s.payments[h].incoming) - Sum(s.payments[h].outgoing) else s.excess
  {
  }

  // ---------- what is entered ----------

  /** The longest duration: 2^64 - 1 seconds and 999999999 nanoseconds. */
  const LONGEST: nat := 18_446_744_073_709_551_615_999_999_999
  const MINUTE_NS: nat := 60_000_000_000
  const DAY_NS: nat := 86_400_000_000_000

  /** The clock, a minute ahead, is not before the invoice, which is not expired. */
  predicate InTime(p: PaymentState, now: Duration) {
    p.paymentType.Invoice? ==> p.issuedAt <= now + MINUTE_NS && now <= p.issuedAt + p.expiry
  }

  predicate TimesOverflow(p: PaymentState, now: Duration) {
    && p.paymentType.Invoice?
    && (now + MINUTE_NS > LONGEST
        || (p.issuedAt <= now + MINUTE_NS && p.issuedAt + p.expiry + MINUTE_NS > LONGEST))
  }

  /** The same invoice again is accepted and changes nothing; another one for its hash is refused. */
  lemma RegistersExactly(policy: Policy, s: Ledger, h: PaymentHash, p: PaymentState, now: Duration,
                         admitted: bool, persisted: bool)
    ensures var r := Register(policy, s, h, p, now, admitted, persisted);
            var room := InTime(p, now) && |s.invoices| < policy.maxInvoices;
            && (r.Panic? <==> TimesOverflow(p, now) || (room && h !in s.invoices && admitted && !persisted))
            && (r.Done? ==>
                  r.value ==
                  if room && h in s.invoices && s.invoices[h].invoiceHash == p.invoiceHash then Some(s)
                  else if room && h !in s.invoices && admitted then
                    Some(Ledger(s.invoices[h := p], s.issued,
                                if h in s.payments then s.payments
                                else s.payments[h := RoutedPayment(map[], map[], None)], s.excess))
                  else None)
  {
  }

  lemma IssuesExactly(policy: Policy, s: Ledger, h: PaymentHash, p: PaymentState)
    ensures Issue(policy, s, h, p) ==
            if |s.issued| < policy.maxInvoices && h in s.issued && s.issued[h].invoiceHash == p.invoiceHash then Some(s)
            else if |s.issued| < policy.maxInvoices && h !in s.issued then
              Some(Ledger(s.invoices, s.issued[h := p], s.payments, s.excess))
            else None
  {
  }

  // ---------- what a heartbeat prunes ----------

  /** Invoices are kept for a day after they expire, keysends not. */
  function KeptUntil(p: PaymentState): nat {
    p.issuedAt + p.expiry + if p.paymentType.Invoice? then DAY_NS else 0
  }

  ghost predicate InvoiceGoes(s: Ledger, now: Duration, h: PaymentHash) {
    && h in s.invoices && KeptUntil(s.invoices[h]) < now
    && h in s.payments && (s.payments[h].preimage.Some? || Sum(s.payments[h].outgoing) == 0)
  }

  ghost predicate IssuedGoes(s: Ledger, now: Duration, h: PaymentHash) {
    h in s.issued && KeptUntil(s.issued[h]) <= now
  }

  /** Which invoices, issued invoices and records are left of s, unchanged. */
  ghost predicate Left(s: Ledger, s': Ledger, now: Duration, h: PaymentHash) {
    && (h in s'.invoices <==> h in s.invoices && !InvoiceGoes(s, now, h))
    && (h in s'.invoices ==> s'.invoices[h] == s.invoices[h])
    && (h in s'.issued <==> h in s.issued && !IssuedGoes(s, now, h))
    && (h in s'.issued ==> s'.issued[h] == s.issued[h])
    && (h in s'.payments <==>
          && h in s.payments && !InvoiceGoes(s, now, h)
          && (h in s.invoices || (h in s.issued && !IssuedGoes(s, now, h))
              || Sum(s.payments[h].incoming) > 0 || Sum(s.payments[h].outgoing) > 0))
    && (h in s'.payments ==> s'.payments[h] == s.payments[h])
    && s'.excess == s.excess
  }

  lemma KeptIsLeft(s: Ledger, s': Ledger, now: Duration, h: PaymentHash)
    requires LedgerSafety.Recorded(s) && LedgerSafety.KeptBy(s, s', now, h)
    ensures Left(s, s', now, h)
  {
  }

  /** What a heartbeat leaves. */
  lemma PrunesExactly(s: Ledger, now: Duration, h: PaymentHash)
    requires LedgerSafety.Recorded(s) && Heartbeat(s, now).Done?
    ensures Left(s, Heartbeat(s, now).value.ledger, now, h)
  {
    LedgerSafety.HeartbeatKeeps(s, now, h);
    KeptIsLeft(s, Heartbeat(s, now).value.ledger, now, h);
  }

  /** A heartbeat panics on times or sums that it has to compute and that do not fit. */
  ghost predicate PruningStops(s: Ledger, now: Duration, h: PaymentHash) {
    || (h in s.invoices && KeptUntil(s.invoices[h]) > LONGEST)
    || (h in s.issued && KeptUntil(s.issued[h]) > LONGEST)
    || (&& h in s.invoices && h in s.payments && s.payments[h].preimage.None?
        && Sum(s.payments[h].outgoing) > U64_MAX)
    || (&& h in s.payments && h !in s.invoices && (h in s.issued ==> IssuedGoes(s, now, h))
        && (Sum(s.payments[h].incoming) > U64_MAX
            || (Sum(s.payments[h].incoming) == 0 && Sum(s.payments[h].outgoing) > U64_MAX)))
  }

  lemma PruningStopsExactly(s: Ledger, now: Duration)
    requires LedgerSafety.Recorded(s)
    ensures Heartbeat(s, now).Panic? <==> exists h :: PruningStops(s, now, h)
  {
    LedgerSafety.BeatStopsExactly(s, now);
    if LedgerSafety.BeatStops(s, now) {
      var h := PruningWitness(s, now);
      assert PruningStops(s, now, h);
    }
    if h :| PruningStops(s, now, h) {
      StopsBeat(s, now, h);
    }
  }

  lemma PruningWitness(s: Ledger, now: Duration) returns (h: PaymentHash)
    requires LedgerSafety.Recorded(s) && LedgerSafety.BeatStops(s, now)
    ensures PruningStops(s, now, h)
  {
    if g :| g in s.invoices && !InvoiceInRange(s, g) {
      h := g;
    } else if g :| g in s.issued && !TimeInRange(s.issued[g]) {
      h := g;
    } else {
      h :| && h in s.payments && h !in s.invoices && (h in s.issued ==> PruneTime(s.issued[h]) <= now)
           && !ForwardInRange(s.payments[h]);
    }
  }

  lemma StopsBeat(s: Ledger, now: Duration, h: PaymentHash)
    requires LedgerSafety.Recorded(s) && PruningStops(s, now, h)
    ensures LedgerSafety.BeatStops(s, now)
  {
  }

  /** A heartbeat reports a change exactly if it made one. */
  lemma ReportsExactly(s: Ledger, now: Duration)
    requires LedgerSafety.Recorded(s) && Heartbeat(s, now).Done?
    ensures Heartbeat(s, now).value.modified <==> Heartbeat(s, now).value.ledger != s
  {
  }

  // ---------- what a restart brings back ----------

  /** A fresh record per invoice, else one per known preimage, and no other. */
  lemma {:induction false} RestoresExactly(sha: Preimage -> PaymentHash, invoices: map<PaymentHash, PaymentState>,
                                           issued: map<PaymentHash, PaymentState>, preimages: seq<Preimage>,
                                           excess: Amount, h: PaymentHash)
    ensures var s := Restore(sha, invoices, issued, preimages, excess);
            && s.invoices == invoices && s.issued == issued && s.excess == excess
            && (h in invoices ==> h in s.payments && s.payments[h] == RoutedPayment(map[], map[], None))
            && (h !in invoices ==>
                  (h in s.payments <==> exists i | 0 <= i < |preimages| :: sha(preimages[i]) == h))
            && (h !in invoices && h in s.payments ==>
                  && s.payments[h].incoming == map[] && s.payments[h].outgoing == map[]
                  && s.payments[h].preimage.Some? && sha(s.payments[h].preimage.value) == h
                  && s.payments[h].preimage.value in preimages)
  {
    if preimages != [] {
      var n := |preimages| - 1;
      RestoresExactly(sha, invoices, issued, preimages[..n], excess, h);
      assert preimages == preimages[..n] + [preimages[n]];
    }
  }
}
