/**
 What a channel grants, what it discloses and what it takes over, in terms of what the run has validated,
 signed and stored so far rather than of the signer's own guards.
 */
module ChannelRules {
  import opened Wrappers
  import opened CommitmentSecrets
  import opened Channels
  import opened ChannelSafety

  /** Commitments are numbered from 0 to 2^48 - 1. */
  const LAST_NUMBER: nat := 0xFFFF_FFFF_FFFF

  predicate Passes(x: External) {
    x.policy == PASS && x.signing == PASS && x.payments == PASS && x.persisted
  }

  /** The next holder commitment while the channel is open, or the last one again. */
  ghost predicate ValidatesHolder(h: History, n: nat, info: CommitmentInfo) {
    var next := |h.validated|;
    (n == next && !h.state.closed) || (n + 1 == next && info == h.validated[n])
  }

  /** The next counterparty commitment once all but the last are revoked, or the last one again. */
  ghost predicate SignsNumber(h: History, n: nat, point: Point, info: CommitmentInfo) {
    var next := |h.fixed|;
    && n <= LAST_NUMBER
    && if n == next then next <= h.state.nextRevoke + 1
       else
         && n + 1 == next && h.fixed[n] == Commitment(point, info)
         && (n == 0 || next == h.state.nextRevoke + 2)
  }

  /** The last commitment but one, with a secret of its point that chains with those on file. */
  ghost predicate Revokes(k: Crypto, h: History, n: nat, secret: Secret) {
    && n <= LAST_NUMBER && (n == h.state.nextRevoke || n + 1 == h.state.nextRevoke)
    && n + 2 == |h.fixed|
    && k.publicKey(secret) == h.fixed[n].point
    && h.state.secrets.Some? && Provide(k.sha, h.state.secrets.value, LAST_NUMBER - n, secret).Some?
  }

  predicate NothingPending(info: CommitmentInfo) {
    |info.offered| + |info.received| == 0
  }

  ghost predicate Grants(k: Crypto, h: History, r: Request) {
    var next := |h.validated|;
    match r
    case GetPoint(n) => n <= next + 1 && n <= LAST_NUMBER
    case ReleaseSecret(n) => n + 2 <= next
    case CheckFutureSecret(n, _) => n <= LAST_NUMBER
    case ValidateHolder(n, info, _, x) => n < LAST_NUMBER && ValidatesHolder(h, n, info) && Passes(x)
    case SignHolder(n, x) => n + 1 == next && x.signing == PASS && x.persisted
    case SignHolderForRecovery(x) => next > 0 && x.signing == PASS && x.persisted
    case SignHolderRedundant(n, info, x) =>
      && n <= LAST_NUMBER && x.policy == PASS && x.signing == PASS && x.persisted
      && (ValidatesHolder(h, n, info) || n == next + 1)
    case SignCounterpartyPhase1(decodes, recomposes, n, point, info, x) =>
      decodes && recomposes && SignsNumber(h, n, point, info) && Passes(x)
    case SignCounterpartyPhase2(n, point, info, x) => SignsNumber(h, n, point, info) && Passes(x)
    case RevokeCounterparty(n, secret, x) => Revokes(k, h, n, secret) && x.persisted
    case MutualClose(x) =>
      && next > 0 && NothingPending(h.validated[next - 1])
      && |h.fixed| > 0 && NothingPending(h.fixed[|h.fixed| - 1].info)
      && x.policy == PASS && x.signing == PASS && x.persisted
  }

  lemma HolderGrants(k: Crypto, h: History, r: Request)
    requires HolderInv(h)
    requires r.ValidateHolder? || r.SignHolder? || r.SignHolderForRecovery? || r.SignHolderRedundant?
    ensures Serve(k, h.state, r).reply.Granted? <==> Grants(k, h, r)
  {
    match r
    case ValidateHolder(n, info, _, x) => ValidatePasses(h.state, n, info, x);
    case _ =>
  }

  lemma SigningGrants(h: History, n: Number, point: Point, info: CommitmentInfo, x: External)
    requires CounterpartyInv(h)
    ensures SignCounterpartyTurn(h.state, n, point, info, x).reply.Granted? <==>
            SignsNumber(h, n, point, info) && Passes(x)
  {
    CounterpartyPasses(h.state, n, point, info, x);
  }

  lemma RevokingGrants(k: Crypto, h: History, n: Number, secret: Secret, x: External)
    requires CounterpartyInv(h) && h.state.secrets.Some?
    ensures RevokeTurn(k, h.state, n, secret, x).reply.Granted? <==> Revokes(k, h, n, secret) && x.persisted
  {
  }

  lemma GrantsIn(k: Crypto, h: History, r: Request)
    requires Inv(k, h)
    ensures Serve(k, h.state, r).reply.Granted? <==> Grants(k, h, r)
  {
    match r
    case SignCounterpartyPhase1(_, recomposes, n, point, info, x) =>
      SigningGrants(h, n, point, info, Phase1(recomposes, x));
    case SignCounterpartyPhase2(n, point, info, x) => SigningGrants(h, n, point, info, x);
    case RevokeCounterparty(n, secret, x) => RevokingGrants(k, h, n, secret, x);
    case MutualClose(_) =>
    case GetPoint(_) =>
    case ReleaseSecret(_) =>
    case CheckFutureSecret(_, _) =>
    case _ => HolderGrants(k, h, r);
  }

  /** In every run these are exactly the requests that are granted. */
  lemma GrantsExactly(k: Crypto, requests: seq<Request>, r: Request)
    ensures Serve(k, Run(k, requests).state, r).reply.Granted? <==> Grants(k, Run(k, requests), r)
  {
    RunInv(k, requests);
    GrantsIn(k, Run(k, requests), r);
  }

  // ---------- what stops the signer ----------

  /** A check panics after those before it have passed. */
  predicate PanicsFirst(a: Verdict, b: Verdict) {
    a.Panic? || (a == PASS && b.Panic?)
  }

  /** A number from the last validated one on, which is not changed, and not the next one of a closed channel. */
  ghost predicate HolderNumber(h: History, n: nat, info: CommitmentInfo) {
    n + 1 >= |h.validated| && (ValidatesHolder(h, n, info) || n > |h.validated|)
  }

  /** A number at most one past the next to be revoked; the last one signed is not changed. */
  ghost predicate CounterpartyNumber(h: History, n: nat, point: Point, info: CommitmentInfo) {
    n <= h.state.nextRevoke + 1 && (n + 1 == |h.fixed| ==> h.fixed[n] == Commitment(point, info))
  }

  ghost predicate SigningStops(h: History, n: nat, point: Point, info: CommitmentInfo, x: External) {
    || x.policy.Panic?
    || (&& x.policy == PASS && CounterpartyNumber(h, n, point, info)
        && (n > LAST_NUMBER || PanicsFirst(x.signing, x.payments)))
  }

  ghost predicate Stops(h: History, r: Request) {
    var next := |h.validated|;
    match r
    case GetPoint(n) => LAST_NUMBER < n <= next + 1
    case ReleaseSecret(n) => n > U64_MAX - 2
    case CheckFutureSecret(n, _) => n > LAST_NUMBER
    case ValidateHolder(n, info, _, x) =>
      && n <= next + 1
      && (|| n > LAST_NUMBER || x.policy.Panic?
          || (&& x.policy == PASS && HolderNumber(h, n, info)
              && (PanicsFirst(x.signing, x.payments)
                  || (n == LAST_NUMBER && n <= next && x.signing == PASS && x.payments == PASS))))
    case SignHolder(n, x) => n == U64_MAX || (n + 1 == next && x.signing.Panic?)
    case SignHolderForRecovery(x) => next == 0 || x.signing.Panic?
    case SignHolderRedundant(n, info, x) =>
      && n <= next + 1
      && (n > LAST_NUMBER || x.policy.Panic? || (x.policy == PASS && HolderNumber(h, n, info) && x.signing.Panic?))
    case SignCounterpartyPhase1(decodes, recomposes, n, point, info, x) =>
      decodes && SigningStops(h, n, point, info, if recomposes then x else x.(signing := Done(false)))
    case SignCounterpartyPhase2(n, point, info, x) => SigningStops(h, n, point, info, x)
    case RevokeCounterparty(n, _, _) => n == U64_MAX
    case MutualClose(x) =>
      && next > 0 && NothingPending(h.validated[next - 1])
      && |h.fixed| > 0 && NothingPending(h.fixed[|h.fixed| - 1].info)
      && PanicsFirst(x.policy, x.signing)
  }

  lemma HolderStops(k: Crypto, h: History, r: Request)
    requires HolderInv(h) && (r.ValidateHolder? || r.SignHolderRedundant?)
    ensures OutOfNumbers(h.state, r) || OutsidePanics(h.state, r) <==> Stops(h, r)
  {
    if r.ValidateHolder? {
      ValidatePasses(h.state, r.n, r.info, r.x);
    }
  }

  lemma CounterpartyStops(h: History, r: Request)
    requires CounterpartyInv(h) && SignsCounterparty(r)
    ensures OutOfNumbers(h.state, r) || OutsidePanics(h.state, r) <==> Stops(h, r)
  {
  }

  lemma StopsIn(k: Crypto, h: History, r: Request)
    requires HolderInv(h) && CounterpartyInv(h)
    ensures OutOfNumbers(h.state, r) || OutsidePanics(h.state, r) <==> Stops(h, r)
  {
    if r.ValidateHolder? || r.SignHolderRedundant? {
      HolderStops(k, h, r);
    } else if SignsCounterparty(r) {
      CounterpartyStops(h, r);
    }
  }

  /** In every run these are exactly the requests that stop the signer. */
  lemma StopsExactly(k: Crypto, requests: seq<Request>, r: Request)
    ensures Serve(k, Run(k, requests).state, r).reply.Crashed? <==> Stops(Run(k, requests), r)
  {
    CrashesExactly(k, requests, r);
    RunInv(k, requests);
    StopsIn(k, Run(k, requests), r);
  }

  // ---------- what a granted request does ----------

  ghost function Disclosed(k: Crypto, h: History, r: Request): seq<Disclosure> {
    var next := |h.validated|;
    match r
    case GetPoint(_) => []
    case ReleaseSecret(n) => [SecretReleased(n)]
    case CheckFutureSecret(n, suggested) =>
      if n > LAST_NUMBER then [] else [SecretCompared(n, suggested == k.holderSecret(LAST_NUMBER - n))]
    case ValidateHolder(n, _, _, _) => if n == 0 then [] else [SecretReleased(n - 1)]
    case SignHolder(n, _) => if n < next then [HolderSigned(n, h.validated[n], true)] else []
    case SignHolderForRecovery(_) => if next > 0 then [HolderSigned(next - 1, h.validated[next - 1], true)] else []
    case SignHolderRedundant(n, info, _) => [HolderSigned(n, info, false)]
    case SignCounterpartyPhase1(_, _, n, point, info, _) => [CounterpartySigned(n, point, info)]
    case SignCounterpartyPhase2(n, point, info, _) => [CounterpartySigned(n, point, info)]
    case RevokeCounterparty(_, _, _) => []
    case MutualClose(_) => [ClosingSigned]
  }

  predicate Closes(r: Request) {
    r.SignHolder? || r.SignHolderForRecovery? || r.SignHolderRedundant? || r.MutualClose?
  }

  lemma DisclosesIn(k: Crypto, h: History, r: Request)
    requires Inv(k, h) && Serve(k, h.state, r).reply.Granted?
    ensures Serve(k, h.state, r).reply.out == Disclosed(k, h, r)
  {
    match r
    case ValidateHolder(n, info, _, x) => ValidatePasses(h.state, n, info, x);
    case _ =>
  }

  /** What a granted request discloses, over all runs. */
  lemma DisclosesExactly(k: Crypto, requests: seq<Request>, r: Request)
    requires Serve(k, Run(k, requests).state, r).reply.Granted?
    ensures Serve(k, Run(k, requests).state, r).reply.out == Disclosed(k, Run(k, requests), r)
  {
    RunInv(k, requests);
    DisclosesIn(k, Run(k, requests), r);
  }

  ghost predicate HolderTaken(h: History, r: Request, h': History) {
    && h'.validated == (if r.ValidateHolder? && r.n == |h.validated| then h.validated + [r.info] else h.validated)
    && h'.state.holderSigs == (if r.ValidateHolder? then Some(r.sigs) else h.state.holderSigs)
    && (h'.state.closed <==> h.state.closed || Closes(r))
  }

  ghost predicate CounterpartyTaken(h: History, r: Request, h': History) {
    && h'.fixed == (if SignsCounterparty(r) && r.n == |h.fixed| then h.fixed + [Commitment(r.point, r.info)]
                    else h.fixed)
    && h'.state.nextRevoke == (if r.RevokeCounterparty? then r.n + 1 else h.state.nextRevoke)
    && h'.given == (if r.RevokeCounterparty? && r.n == |h.given| then h.given + [r.secret] else h.given)
  }

  lemma ValidatingTakes(k: Crypto, h: History, r: Request)
    requires HolderInv(h) && r.ValidateHolder? && Serve(k, h.state, r).reply.Granted?
    ensures HolderTaken(h, r, Next(k, h, r))
  {
    ValidatePasses(h.state, r.n, r.info, r.x);
  }

  lemma SigningLeavesHolder(k: Crypto, h: History, r: Request)
    requires SignsCounterparty(r)
    ensures HolderTaken(h, r, Next(k, h, r))
  {
  }

  lemma OthersTakeHolder(k: Crypto, h: History, r: Request)
    requires !r.ValidateHolder? && !SignsCounterparty(r) && Serve(k, h.state, r).reply.Granted?
    ensures HolderTaken(h, r, Next(k, h, r))
  {
  }

  lemma SigningTakes(k: Crypto, h: History, r: Request)
    requires CounterInv(h) && SignsCounterparty(r) && Serve(k, h.state, r).reply.Granted?
    ensures CounterpartyTaken(h, r, Next(k, h, r))
  {
    match r
    case SignCounterpartyPhase1(_, recomposes, n, point, info, x) =>
      CounterpartyPasses(h.state, n, point, info, Phase1(recomposes, x));
    case SignCounterpartyPhase2(n, point, info, x) => CounterpartyPasses(h.state, n, point, info, x);
  }

  lemma RevokingTakes(k: Crypto, h: History, r: Request)
    requires h.state.secrets.Some? && r.RevokeCounterparty? && Serve(k, h.state, r).reply.Granted?
    ensures CounterpartyTaken(h, r, Next(k, h, r))
  {
    assert StoresSecret(k, h.state, r);
  }

  lemma OthersTake(k: Crypto, h: History, r: Request)
    requires !SignsCounterparty(r) && !r.RevokeCounterparty?
    ensures CounterpartyTaken(h, r, Next(k, h, r))
  {
    if r.ValidateHolder? {
      ValidatePasses(h.state, r.n, r.info, r.x);
    }
  }

  lemma TakesOverIn(k: Crypto, h: History, r: Request)
    requires Inv(k, h) && Serve(k, h.state, r).reply.Granted?
    ensures HolderTaken(h, r, Next(k, h, r)) && CounterpartyTaken(h, r, Next(k, h, r))
  {
    if SignsCounterparty(r) {
      SigningLeavesHolder(k, h, r);
      SigningTakes(k, h, r);
    } else if r.RevokeCounterparty? {
      OthersTakeHolder(k, h, r);
      RevokingTakes(k, h, r);
    } else {
      if r.ValidateHolder? {
        ValidatingTakes(k, h, r);
      } else {
        OthersTakeHolder(k, h, r);
      }
      OthersTake(k, h, r);
    }
  }

  /** What a granted request leaves behind, over all runs. */
  lemma TakesOverExactly(k: Crypto, requests: seq<Request>, r: Request)
    requires Serve(k, Run(k, requests).state, r).reply.Granted?
    ensures HolderTaken(Run(k, requests), r, Run(k, requests + [r]))
    ensures CounterpartyTaken(Run(k, requests), r, Run(k, requests + [r]))
  {
    assert (requests + [r])[..|requests|] == requests;
    RunInv(k, requests);
    TakesOverIn(k, Run(k, requests), r);
  }

  // ---------- a counterparty that keeps to the protocol ----------

  lemma HonestChains(sha: Hash, store: Store, seed: Secret, given: seq<Secret>, secret: Secret)
    requires |given| < TOP && Holds(sha, store, given) && FromSeed(sha, seed, given + [secret])
    ensures Provide(sha, store, LAST_NUMBER - |given|, secret).Some?
  {
    var all := given + [secret];
    assert all[..|given|] == given && all[|given|] == secret;
    SeedConsistent(sha, seed, all, |given|);
    ProvideIff(sha, store, given, secret);
  }

  /** It is time to revoke the last commitment but one, and this is its secret, the next one of the seed. */
  ghost predicate HonestNext(k: Crypto, h: History, seed: Secret, secret: Secret) {
    && h.state.nextRevoke == |h.given| && |h.given| + 2 == |h.fixed|
    && FromSeed(k.sha, seed, h.given + [secret])
    && k.publicKey(secret) == h.fixed[|h.given|].point
  }

  /** A counterparty that revokes in time with the secrets of one seed is never refused. */
  lemma HonestRevocationGranted(k: Crypto, requests: seq<Request>, seed: Secret, secret: Secret, x: External)
    requires HonestNext(k, Run(k, requests), seed, secret) && x.persisted
    ensures var h := Run(k, requests);
            |h.given| <= LAST_NUMBER && Serve(k, h.state, RevokeCounterparty(|h.given|, secret, x)).reply.Granted?
  {
    RunInv(k, requests);
    HonestIn(k, Run(k, requests), seed, secret, x);
  }

  lemma HonestIn(k: Crypto, h: History, seed: Secret, secret: Secret, x: External)
    requires CounterpartyInv(h) && SecretsInv(k, h) && HonestNext(k, h, seed, secret) && x.persisted
    ensures |h.given| <= LAST_NUMBER
    ensures RevokeTurn(k, h.state, |h.given|, secret, x).reply.Granted?
  {
    HonestChains(k.sha, h.state.secrets.value, seed, h.given, secret);
    RevokingGrants(k, h, |h.given|, secret, x);
  }

  // ---------- the commitment that can still be revoked ----------

  /** While the last commitment but one is not revoked it is remembered, and else forgotten. */
  ghost predicate PreviousKept(e: EnforcementState, fixed: seq<Commitment>) {
    e.previousInfo ==
    if e.nextCounterparty == e.nextRevoke + 2 && e.nextCounterparty <= |fixed|
    then Some(fixed[e.nextRevoke].info) else None
  }

  lemma SigningKeepsPrevious(h: History, n: Number, point: Point, info: CommitmentInfo, x: External,
                             fixed: seq<Commitment>)
    requires CounterpartyInv(h) && PreviousKept(h.state, h.fixed)
    requires var e := SignCounterpartyTurn(h.state, n, point, info, x).state;
             fixed == if e.nextCounterparty == h.state.nextCounterparty then h.fixed
                      else h.fixed + [Commitment(point, info)]
    ensures PreviousKept(SignCounterpartyTurn(h.state, n, point, info, x).state, fixed)
  {
    CounterpartyPasses(h.state, n, point, info, x);
  }

  lemma RevokingKeepsPrevious(k: Crypto, h: History, n: Number, secret: Secret, x: External)
    requires CounterpartyInv(h) && PreviousKept(h.state, h.fixed)
    ensures PreviousKept(RevokeTurn(k, h.state, n, secret, x).state, h.fixed)
  {
  }

  lemma SigningNext(k: Crypto, h: History, r: Request)
    requires CounterpartyInv(h) && PreviousKept(h.state, h.fixed) && SignsCounterparty(r)
    ensures PreviousKept(Next(k, h, r).state, Next(k, h, r).fixed)
  {
    match r
    case SignCounterpartyPhase1(decodes, recomposes, n, point, info, x) =>
      CounterpartyPasses(h.state, n, point, info, Phase1(recomposes, x));
      if decodes {
        SigningKeepsPrevious(h, n, point, info, Phase1(recomposes, x), Next(k, h, r).fixed);
      }
    case SignCounterpartyPhase2(n, point, info, x) =>
      CounterpartyPasses(h.state, n, point, info, x);
      SigningKeepsPrevious(h, n, point, info, x, Next(k, h, r).fixed);
  }

  lemma OthersNext(k: Crypto, h: History, r: Request)
    requires PreviousKept(h.state, h.fixed) && !SignsCounterparty(r) && !r.RevokeCounterparty?
    ensures PreviousKept(Next(k, h, r).state, Next(k, h, r).fixed)
  {
  }

  lemma NextPreviousKept(k: Crypto, h: History, r: Request)
    requires CounterpartyInv(h) && PreviousKept(h.state, h.fixed)
    ensures PreviousKept(Next(k, h, r).state, Next(k, h, r).fixed)
  {
    if SignsCounterparty(r) {
      SigningNext(k, h, r);
    } else if r.RevokeCounterparty? {
      RevokingKeepsPrevious(k, h, r.n, r.secret, r.x);
    } else {
      OthersNext(k, h, r);
    }
  }

  /** In every run the signer remembers just the commitment that is still to be revoked. */
  lemma {:induction false} PreviousExactly(k: Crypto, requests: seq<Request>)
    ensures PreviousKept(Run(k, requests).state, Run(k, requests).fixed)
  {
    if requests != [] {
      var n := |requests| - 1;
      PreviousExactly(k, requests[..n]);
      RunInv(k, requests[..n]);
      NextPreviousKept(k, Run(k, requests[..n]), requests[n]);
    }
  }
}
