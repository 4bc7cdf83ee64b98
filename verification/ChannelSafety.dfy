/** What holds in every run of a channel, whatever is requested and in whatever order. */
module ChannelSafety {
  import opened Wrappers
  import opened CommitmentSecrets
  import opened Channels

  datatype Commitment = Commitment(point: Point, info: CommitmentInfo)

  /**
   A run so far: the signer's state, everything it disclosed, and for the proofs what it accepted:
   the holder commitments validated, the counterparty commitments fixed, the secrets stored.
   */
  datatype History = History(
    state: EnforcementState,
    out: seq<Disclosure>,
    validated: seq<CommitmentInfo>,
    fixed: seq<Commitment>,
    given: seq<Secret>)

  /** Whether a request is a revocation whose secret passes the point check and chains. */
  ghost predicate StoresSecret(k: Crypto, e: EnforcementState, r: Request) {
    && r.RevokeCounterparty?
    && RevocationChecks(k, e, r.n, r.secret) == PASS
    && r.n <= INITIAL_COMMITMENT_NUMBER
    && e.secrets.Some?
    && Provide(k.sha, e.secrets.value, INITIAL_COMMITMENT_NUMBER - r.n, r.secret).Some?
  }

  ghost function Next(k: Crypto, h: History, r: Request): History {
    var turn := Serve(k, h.state, r);
    var e := turn.state;
    History(
      e,
      h.out + turn.reply.Outputs(),
      if e.nextHolder == h.state.nextHolder + 1 && e.holderInfo.Some?
      then h.validated + [e.holderInfo.value] else h.validated,
      if e.nextCounterparty == h.state.nextCounterparty + 1 && e.currentPoint.Some? && e.currentInfo.Some?
      then h.fixed + [Commitment(e.currentPoint.value, e.currentInfo.value)] else h.fixed,
      if StoresSecret(k, h.state, r) && r.n == |h.given| then h.given + [r.secret] else h.given)
  }

  ghost function Run(k: Crypto, requests: seq<Request>): History {
    if requests == [] then History(NewState(), [], [], [], [])
    else
      var n := |requests| - 1;
      Next(k, Run(k, requests[..n]), requests[n])
  }

  // ---------- the invariant ----------

  /** Secrets are out only below next - 1; signatures are out only from next - 1 up, and then it is over. */
  ghost predicate HolderInv(h: History) {
    && |h.validated| == h.state.nextHolder
    && (h.state.nextHolder > 0 ==> h.state.holderInfo == Some(h.validated[h.state.nextHolder - 1]))
    && (h.state.nextHolder > 0 <==> h.state.holderSigs.Some?)
    && (h.state.nextHolder == 0 ==> h.state.holderInfo.None?)
    && forall d | d in h.out :: HolderOut(h, d)
  }

  ghost predicate HolderOut(h: History, d: Disclosure) {
    match d
    case SecretReleased(n) => n + 2 <= h.state.nextHolder
    case HolderSigned(n, info, stored) =>
      && n + 1 >= h.state.nextHolder
      && h.state.closed
      && (stored ==> n < |h.validated| && h.validated[n] == info)
    case _ => true
  }

  ghost predicate CounterInv(h: History) {
    var e := h.state;
    && |h.fixed| == e.nextCounterparty
    && e.nextRevoke <= e.nextCounterparty <= e.nextRevoke + 2
    && (e.nextCounterparty > 0 ==> e.nextCounterparty >= e.nextRevoke + 1)
  }

  /** The signer remembers the last two counterparty points and the last commitment. */
  ghost predicate CounterpartyInv(h: History) {
    var e := h.state;
    && CounterInv(h)
    && (e.nextCounterparty == 0 ==> e.currentPoint.None? && e.previousPoint.None? && e.currentInfo.None?)
    && (e.previousInfo.Some? ==> e.nextCounterparty == e.nextRevoke + 2)
    && (e.nextCounterparty > 0 ==>
          && e.currentPoint == Some(h.fixed[e.nextCounterparty - 1].point)
          && e.currentInfo == Some(h.fixed[e.nextCounterparty - 1].info))
    && (e.nextCounterparty > 1 ==> e.previousPoint == Some(h.fixed[e.nextCounterparty - 2].point))
    && forall d | d in h.out :: CounterpartyOut(h, d)
  }

  ghost predicate CounterpartyOut(h: History, d: Disclosure) {
    d.CounterpartySigned? ==> d.n < |h.fixed| && h.fixed[d.n] == Commitment(d.point, d.info)
  }

  /** The store holds the secret of every revoked commitment, and perhaps of the next one. */
  ghost predicate SecretsInv(k: Crypto, h: History) {
    && (|h.given| == h.state.nextRevoke || |h.given| == h.state.nextRevoke + 1)
    && |h.given| <= |h.fixed|
    && h.state.secrets.Some? && Holds(k.sha, h.state.secrets.value, h.given)
    && forall n | 0 <= n < |h.given| :: k.publicKey(h.given[n]) == h.fixed[n].point
  }

  ghost predicate Inv(k: Crypto, h: History) {
    HolderInv(h) && CounterpartyInv(h) && SecretsInv(k, h)
  }

  // ---------- holder commitments ----------

  /**
   What one request may do on the holder's side: nothing, a retry, or one step forward while the channel is
   open; a secret released is two below, a signature made is not below, and then the channel is closed.
   */
  ghost predicate HolderMove(e: EnforcementState, e': EnforcementState, out: seq<Disclosure>) {
    && e.nextHolder <= e'.nextHolder <= e.nextHolder + 1
    && (e.closed ==> e'.closed && e'.nextHolder == e.nextHolder)
    && (e'.nextHolder == e.nextHolder ==>
          && e'.holderInfo == e.holderInfo
          && (e'.holderSigs == e.holderSigs || (e'.holderSigs.Some? && e.nextHolder > 0)))
    && (e'.nextHolder == e.nextHolder + 1 ==> e'.holderInfo.Some? && e'.holderSigs.Some?)
    && forall d | d in out :: HolderMoveOut(e', d)
  }

  ghost predicate HolderMoveOut(e: EnforcementState, d: Disclosure) {
    match d
    case SecretReleased(n) => n + 2 <= e.nextHolder
    case HolderSigned(n, info, stored) =>
      && n + 1 >= e.nextHolder
      && e.closed
      && (stored ==> n + 1 == e.nextHolder && e.holderInfo == Some(info))
    case _ => true
  }

  lemma ValidateMoves(e: EnforcementState, n: Number, info: CommitmentInfo, sigs: seq<Signature>, x: External)
    ensures var turn := ValidateHolderTurn(e, n, info, sigs, x);
            HolderMove(e, turn.state, turn.reply.Outputs())
  {
    ValidatePasses(e, n, info, x);
  }

  lemma SigningMoves(e: EnforcementState, n: Number, info: CommitmentInfo, x: External)
    ensures var a := SignHolderTurn(e, n, x); HolderMove(e, a.state, a.reply.Outputs())
    ensures var b := RecoveryTurn(e, x); HolderMove(e, b.state, b.reply.Outputs())
    ensures var c := SignRedundantTurn(e, n, info, x); HolderMove(e, c.state, c.reply.Outputs())
  {
  }

  lemma CounterpartyMoves(k: Crypto, e: EnforcementState, n: Number, point: Point, info: CommitmentInfo,
                          secret: Secret, x: External)
    ensures var a := SignCounterpartyTurn(e, n, point, info, x); HolderMove(e, a.state, a.reply.Outputs())
    ensures var b := RevokeTurn(k, e, n, secret, x); HolderMove(e, b.state, b.reply.Outputs())
  {
  }

  lemma HolderStep(k: Crypto, e: EnforcementState, r: Request)
    ensures var turn := Serve(k, e, r);
            HolderMove(e, turn.state, turn.reply.Outputs())
  {
    match r
    case ValidateHolder(n, info, sigs, x) => ValidateMoves(e, n, info, sigs, x);
    case SignHolder(n, x) => SigningMoves(e, n, CommitmentInfo(0, 0, 0, [], [], 0), x);
    case SignHolderForRecovery(x) => SigningMoves(e, 0, CommitmentInfo(0, 0, 0, [], [], 0), x);
    case SignHolderRedundant(n, info, x) => SigningMoves(e, n, info, x);
    case SignCounterpartyPhase1(_, recomposes, n, point, info, x) =>
      CounterpartyMoves(k, e, n, point, info, seq(32, _ => 0), Phase1(recomposes, x));
    case SignCounterpartyPhase2(n, point, info, x) => CounterpartyMoves(k, e, n, point, info, seq(32, _ => 0), x);
    case RevokeCounterparty(n, secret, x) =>
      CounterpartyMoves(k, e, n, [], CommitmentInfo(0, 0, 0, [], [], 0), secret, x);
    case _ =>
  }

  lemma MoveKeeps(h: History, h': History, out: seq<Disclosure>)
    requires HolderInv(h) && HolderMove(h.state, h'.state, out) && h'.out == h.out + out
    requires h'.validated == if h'.state.nextHolder == h.state.nextHolder + 1 && h'.state.holderInfo.Some?
                             then h.validated + [h'.state.holderInfo.value] else h.validated
    ensures HolderInv(h')
  {
    forall d | d in h'.out
      ensures HolderOut(h', d)
    {
      if d in h.out {
        assert HolderOut(h, d);
      } else {
        assert HolderMoveOut(h'.state, d);
      }
    }
  }

  lemma NextHolderInv(k: Crypto, h: History, r: Request)
    requires HolderInv(h)
    ensures HolderInv(Next(k, h, r))
  {
    HolderStep(k, h.state, r);
    MoveKeeps(h, Next(k, h, r), Serve(k, h.state, r).reply.Outputs());
  }

  // ---------- counterparty commitments ----------

  predicate SignsCounterparty(r: Request) {
    r.SignCounterpartyPhase1? || r.SignCounterpartyPhase2?
  }

  /** Either nothing happens, or the commitment is fixed now or was fixed before. */
  ghost predicate SignMove(e: EnforcementState, turn: Turn, n: Number, point: Point, info: CommitmentInfo) {
    || (turn.state == e && turn.reply.Outputs() == [])
    || (&& n <= INITIAL_COMMITMENT_NUMBER
        && CounterpartyGuards(e, n, point, info) && CommitNumGuards(e, n, point) == PASS
        && turn.state == SetNextCounterparty(e, n, point, info)
        && (turn.reply.Outputs() == [] || turn.reply.Outputs() == [CounterpartySigned(n, point, info)]))
  }

  lemma SigningMove(k: Crypto, e: EnforcementState, r: Request)
    requires SignsCounterparty(r)
    ensures SignMove(e, Serve(k, e, r), r.n, r.point, r.info)
  {
    match r
    case SignCounterpartyPhase1(_, recomposes, n, point, info, x) =>
      CounterpartyPasses(e, n, point, info, Phase1(recomposes, x));
    case SignCounterpartyPhase2(n, point, info, x) => CounterpartyPasses(e, n, point, info, x);
  }

  lemma FixedKeeps(h: History, h': History, turn: Turn, n: Number, point: Point, info: CommitmentInfo)
    requires CounterpartyInv(h) && SignMove(h.state, turn, n, point, info)
    requires h'.state == turn.state && h'.out == h.out + turn.reply.Outputs()
    requires h'.fixed == if h'.state.nextCounterparty == h.state.nextCounterparty + 1
                            && h'.state.currentPoint.Some? && h'.state.currentInfo.Some?
                         then h.fixed + [Commitment(h'.state.currentPoint.value, h'.state.currentInfo.value)]
                         else h.fixed
    ensures CounterpartyInv(h') && h.fixed <= h'.fixed
  {
    forall d | d in h'.out
      ensures CounterpartyOut(h', d)
    {
      if d in h.out {
        assert CounterpartyOut(h, d);
      }
    }
  }

  lemma SigningKeeps(k: Crypto, h: History, r: Request)
    requires CounterpartyInv(h) && SignsCounterparty(r)
    ensures CounterpartyInv(Next(k, h, r)) && h.fixed <= Next(k, h, r).fixed
  {
    SigningMove(k, h.state, r);
    FixedKeeps(h, Next(k, h, r), Serve(k, h.state, r), r.n, r.point, r.info);
  }

  /** Requests other than signing for the counterparty move at most the revoke counter, within its window. */
  predicate CounterpartyAlone(e: EnforcementState, e': EnforcementState) {
    && e'.nextCounterparty == e.nextCounterparty
    && e'.currentPoint == e.currentPoint && e'.previousPoint == e.previousPoint && e'.currentInfo == e.currentInfo
    && (e'.nextRevoke != e.nextRevoke ==>
          && e'.nextRevoke + 1 <= e.nextCounterparty <= e'.nextRevoke + 2
          && (e'.previousInfo.Some? ==> e.nextCounterparty == e'.nextRevoke + 2))
    && (e'.previousInfo.None? || e'.previousInfo == e.previousInfo)
  }

  lemma OtherTurn(k: Crypto, e: EnforcementState, r: Request)
    requires !SignsCounterparty(r)
    ensures CounterpartyAlone(e, Serve(k, e, r).state)
    ensures forall d | d in Serve(k, e, r).reply.Outputs() :: !d.CounterpartySigned?
  {
  }

  lemma AloneKeeps(h: History, h': History, outputs: seq<Disclosure>)
    requires CounterpartyInv(h) && CounterpartyAlone(h.state, h'.state)
    requires h'.fixed == h.fixed && h'.out == h.out + outputs
    requires forall d | d in outputs :: !d.CounterpartySigned?
    ensures CounterpartyInv(h')
  {
    forall d | d in h'.out
      ensures CounterpartyOut(h', d)
    {
      if d in h.out {
        assert CounterpartyOut(h, d);
      }
    }
  }

  lemma OthersKeep(k: Crypto, h: History, r: Request)
    requires CounterpartyInv(h) && !SignsCounterparty(r)
    ensures CounterpartyInv(Next(k, h, r)) && Next(k, h, r).fixed == h.fixed
  {
    OtherTurn(k, h.state, r);
    AloneKeeps(h, Next(k, h, r), Serve(k, h.state, r).reply.Outputs());
  }

  lemma NextCounterpartyInv(k: Crypto, h: History, r: Request)
    requires CounterpartyInv(h)
    ensures CounterpartyInv(Next(k, h, r)) && h.fixed <= Next(k, h, r).fixed
  {
    if SignsCounterparty(r) {
      SigningKeeps(k, h, r);
    } else {
      OthersKeep(k, h, r);
    }
  }

  lemma NotStoring(k: Crypto, h: History, r: Request)
    requires CounterpartyInv(h) && h.state.secrets.Some? && r.RevokeCounterparty? && !StoresSecret(k, h.state, r)
    ensures Serve(k, h.state, r).state == h.state
  {
  }

  lemma NotRevoking(k: Crypto, e: EnforcementState, r: Request)
    requires !r.RevokeCounterparty?
    ensures var e' := Serve(k, e, r).state; e'.secrets == e.secrets && e'.nextRevoke == e.nextRevoke
  {
  }

  lemma SameSecrets(k: Crypto, h: History, h': History)
    requires SecretsInv(k, h) && h.fixed <= h'.fixed && h'.given == h.given
    requires h'.state.secrets == h.state.secrets && h'.state.nextRevoke == h.state.nextRevoke
    ensures SecretsInv(k, h')
  {
  }

  lemma NothingStored(k: Crypto, h: History, r: Request)
    requires Inv(k, h) && !StoresSecret(k, h.state, r)
    ensures SecretsInv(k, Next(k, h, r))
  {
    NextCounterpartyInv(k, h, r);
    if r.RevokeCounterparty? {
      NotStoring(k, h, r);
    } else {
      NotRevoking(k, h.state, r);
    }
    SameSecrets(k, h, Next(k, h, r));
  }

  /** What a stored secret does to the counters and the store. */
  lemma StoringTurn(k: Crypto, e: EnforcementState, r: Request)
    requires StoresSecret(k, e, r)
    ensures var e' := Serve(k, e, r).state;
            && e'.secrets == Provide(k.sha, e.secrets.value, INITIAL_COMMITMENT_NUMBER - r.n, r.secret)
            && (e'.nextRevoke == e.nextRevoke || e'.nextRevoke == r.n + 1)
            && e'.nextRevoke <= e.nextRevoke + 1
  {
  }

  lemma NewSecretPoint(k: Crypto, h: History, r: Request)
    requires CounterpartyInv(h) && StoresSecret(k, h.state, r)
    ensures r.n < |h.fixed| && k.publicKey(r.secret) == h.fixed[r.n].point
  {
  }

  lemma NewSecretStored(k: Crypto, h: History, r: Request)
    requires CounterpartyInv(h) && SecretsInv(k, h) && StoresSecret(k, h.state, r) && r.n == |h.given|
    ensures SecretsInv(k, Next(k, h, r))
  {
    StoringTurn(k, h.state, r);
    NewSecretPoint(k, h, r);
    ProvideKeeps(k.sha, h.state.secrets.value, h.given, r.secret);
    var h' := Next(k, h, r);
    assert h'.given == h.given + [r.secret] && h'.fixed == h.fixed;
  }

  lemma OldSecretStored(k: Crypto, h: History, r: Request)
    requires Inv(k, h) && StoresSecret(k, h.state, r) && r.n != |h.given|
    ensures SecretsInv(k, Next(k, h, r))
  {
    StoringTurn(k, h.state, r);
    OthersKeep(k, h, r);
    ProvideAgain(k.sha, h.state.secrets.value, h.given, INITIAL_COMMITMENT_NUMBER - r.n, r.secret);
    var h' := Next(k, h, r);
    assert h'.given == h.given && h'.state.secrets == h.state.secrets;
  }

  lemma {:induction false} RunInv(k: Crypto, requests: seq<Request>)
    ensures Inv(k, Run(k, requests))
  {
    if requests == [] {
      EmptyHolds(k.sha);
    } else {
      var n := |requests| - 1;
      var h := Run(k, requests[..n]);
      RunInv(k, requests[..n]);
      NextHolderInv(k, h, requests[n]);
      NextCounterpartyInv(k, h, requests[n]);
      if StoresSecret(k, h.state, requests[n]) {
        if requests[n].n == |h.given| {
          NewSecretStored(k, h, requests[n]);
        } else {
          OldSecretStored(k, h, requests[n]);
        }
      } else {
        NothingStored(k, h, requests[n]);
      }
    }
  }

  // ---------- the theorems ----------

  /**
   No commitment number ever has both its revocation secret released and a holder signature made,
   whichever came first and whichever of the three signing requests made it.
   */
  lemma NeverSignedAndRevoked(k: Crypto, requests: seq<Request>, n: nat, info: CommitmentInfo, stored: bool)
    requires SecretReleased(n) in Run(k, requests).out
    ensures HolderSigned(n, info, stored) !in Run(k, requests).out
  {
    RunInv(k, requests);
    var h := Run(k, requests);
    assert HolderOut(h, SecretReleased(n));
  }

  /** A secret is out only once the commitment that replaces its own was validated. */
  lemma ReleasedOnlyWhenReplaced(k: Crypto, requests: seq<Request>, n: nat)
    requires SecretReleased(n) in Run(k, requests).out
    ensures n + 1 < |Run(k, requests).validated|
  {
    RunInv(k, requests);
    assert HolderOut(Run(k, requests), SecretReleased(n));
  }

  /** Holder signatures from the stored commitment are over what was validated for that number. */
  lemma StoredSignaturesMatch(k: Crypto, requests: seq<Request>, n: nat, info: CommitmentInfo)
    requires HolderSigned(n, info, true) in Run(k, requests).out
    ensures var h := Run(k, requests);
            n < |h.validated| && h.validated[n] == info
  {
    RunInv(k, requests);
    assert HolderOut(Run(k, requests), HolderSigned(n, info, true));
  }

  /** All signatures ever issued on one counterparty number are over the same point and commitment. */
  lemma CounterpartySignaturesAgree(k: Crypto, requests: seq<Request>, d: Disclosure, d': Disclosure)
    requires d in Run(k, requests).out && d' in Run(k, requests).out
    requires d.CounterpartySigned? && d'.CounterpartySigned? && d.n == d'.n
    ensures d == d'
  {
    RunInv(k, requests);
    var h := Run(k, requests);
    assert CounterpartyOut(h, d) && CounterpartyOut(h, d');
  }

  /** One request moves each counter by at most one, and never a holder counter after closing. */
  lemma TurnMovesByOne(k: Crypto, e: EnforcementState, r: Request)
    ensures var e' := Serve(k, e, r).state;
            && e.nextCounterparty <= e'.nextCounterparty <= e.nextCounterparty + 1
            && e.nextRevoke <= e'.nextRevoke <= e.nextRevoke + 1
            && e.nextHolder <= e'.nextHolder <= e.nextHolder + 1
            && (e.closed ==> e'.closed && e'.nextHolder == e.nextHolder)
  {
  }

  /** The commit and revoke counters stay within their window and move by at most one. */
  lemma CountersInStep(k: Crypto, requests: seq<Request>, r: Request)
    ensures var e, e' := Run(k, requests).state, Run(k, requests + [r]).state;
            && e.nextRevoke <= e.nextCounterparty <= e.nextRevoke + 2
            && (e.nextCounterparty > 0 ==> e.nextCounterparty >= e.nextRevoke + 1)
            && e.nextCounterparty <= e'.nextCounterparty <= e.nextCounterparty + 1
            && e.nextRevoke <= e'.nextRevoke <= e.nextRevoke + 1
            && e.nextHolder <= e'.nextHolder <= e.nextHolder + 1
            && (e.closed ==> e'.closed && e'.nextHolder == e.nextHolder)
  {
    RunInv(k, requests);
    assert (requests + [r])[..|requests|] == requests;
    TurnMovesByOne(k, Run(k, requests).state, r);
  }

  /** The store answers for commitment n with a secret of the point that was fixed for it. */
  ghost predicate Punishable(k: Crypto, h: History, n: nat)
    requires n <= INITIAL_COMMITMENT_NUMBER
  {
    && h.state.secrets.Some?
    && var got := Get(k.sha, h.state.secrets.value, INITIAL_COMMITMENT_NUMBER - n);
       && n < |h.fixed|
       && got.Done? && got.value.Some?
       && k.publicKey(got.value.value) == h.fixed[n].point
  }

  lemma OnFile(k: Crypto, h: History, n: nat)
    requires SecretsInv(k, h) && n <= INITIAL_COMMITMENT_NUMBER
    ensures n < |h.given| ==> Punishable(k, h, n)
    ensures n >= |h.given| ==> Get(k.sha, h.state.secrets.value, INITIAL_COMMITMENT_NUMBER - n) == Done(None)
  {
    GetHeld(k.sha, h.state.secrets.value, h.given, INITIAL_COMMITMENT_NUMBER - n);
  }

  lemma SignedBound(h: History, d: Disclosure)
    requires CounterpartyInv(h) && d in h.out && d.CounterpartySigned?
    ensures d.n <= h.state.nextRevoke + 1
  {
    assert CounterpartyOut(h, d);
  }

  /**
   Once a counterparty commitment n is signed, every commitment up to n - 2 can be punished: the
   store gives back a secret whose public key is the point that was signed for it.
   */
  lemma OldCommitmentsPunishable(k: Crypto, requests: seq<Request>, d: Disclosure, m: nat)
    requires d in Run(k, requests).out && d.CounterpartySigned?
    requires m + 2 <= d.n && m <= INITIAL_COMMITMENT_NUMBER
    ensures Punishable(k, Run(k, requests), m)
  {
    RunInv(k, requests);
    SignedBound(Run(k, requests), d);
    OnFile(k, Run(k, requests), m);
  }

  /** The secrets on file are those of the revoked commitments, perhaps of the next one, and no other. */
  lemma RevokedOnFile(k: Crypto, requests: seq<Request>, n: nat)
    requires n <= INITIAL_COMMITMENT_NUMBER
    ensures var h := Run(k, requests);
            && (n < h.state.nextRevoke ==> Punishable(k, h, n))
            && h.state.secrets.Some?
            && (n > h.state.nextRevoke ==>
                  Get(k.sha, h.state.secrets.value, INITIAL_COMMITMENT_NUMBER - n) == Done(None))
  {
    RunInv(k, requests);
    OnFile(k, Run(k, requests), n);
  }

  // ---------- when the signer stops ----------

  /** The commitment numbers that arithmetic on them does not survive, in the state they meet. */
  predicate OutOfNumbers(e: EnforcementState, r: Request) {
    match r
    case GetPoint(n) => INITIAL_COMMITMENT_NUMBER < n <= e.nextHolder + 1
    case ReleaseSecret(n) => n + 2 > U64_MAX
    case CheckFutureSecret(n, _) => n > INITIAL_COMMITMENT_NUMBER
    case ValidateHolder(n, info, _, x) =>
      || INITIAL_COMMITMENT_NUMBER < n <= e.nextHolder + 1
      || (n == INITIAL_COMMITMENT_NUMBER && ValidateChecks(e, n, info, x) == PASS)
    case SignHolder(n, _) => n == U64_MAX
    case SignHolderForRecovery(_) => e.nextHolder == 0
    case SignHolderRedundant(n, _, _) => INITIAL_COMMITMENT_NUMBER < n <= e.nextHolder + 1
    case SignCounterpartyPhase1(decodes, _, n, point, info, x) =>
      decodes && n > INITIAL_COMMITMENT_NUMBER && x.policy == PASS && CounterpartyGuards(e, n, point, info)
    case SignCounterpartyPhase2(n, point, info, x) =>
      n > INITIAL_COMMITMENT_NUMBER && x.policy == PASS && CounterpartyGuards(e, n, point, info)
    case RevokeCounterparty(n, _, _) => n == U64_MAX
    case MutualClose(_) => false
  }

  /** An outside check that is reached panics. */
  predicate OutsidePanics(e: EnforcementState, r: Request) {
    match r
    case ValidateHolder(n, info, _, x) => HolderOutside(e, n, info, x.policy, Then(x.signing, x.payments))
    case SignHolder(n, x) => n + 1 == e.nextHolder && x.signing.Panic?
    case SignHolderForRecovery(x) => e.nextHolder > 0 && x.signing.Panic?
    case SignHolderRedundant(n, info, x) => HolderOutside(e, n, info, x.policy, x.signing)
    case SignCounterpartyPhase1(decodes, recomposes, n, point, info, x) =>
      decodes && CounterpartyOutside(e, n, point, info, Phase1(recomposes, x))
    case SignCounterpartyPhase2(n, point, info, x) => CounterpartyOutside(e, n, point, info, x)
    case MutualClose(x) => CloseAllowed(e) && Then(x.policy, x.signing).Panic?
    case _ => false
  }

  /** The policy check panics, or the one after the holder guards have passed. */
  predicate HolderOutside(e: EnforcementState, n: Number, info: CommitmentInfo, policy: Verdict, last: Verdict) {
    && PointChecks(e, n) == PASS
    && (policy.Panic? || (policy == PASS && HolderGuards(e, n, info) == PASS && last.Panic?))
  }

  predicate CounterpartyOutside(e: EnforcementState, n: Number, point: Point, info: CommitmentInfo, x: External) {
    || x.policy.Panic?
    || (&& x.policy == PASS && CounterpartyGuards(e, n, point, info) && n <= INITIAL_COMMITMENT_NUMBER
        && Then(x.signing, x.payments).Panic?)
  }

  lemma HolderCrashes(h: History, n: Number, info: CommitmentInfo, sigs: seq<Signature>, x: External)
    requires HolderInv(h)
    ensures var r := ValidateHolder(n, info, sigs, x);
            ValidateHolderTurn(h.state, n, info, sigs, x).reply.Crashed? <==>
            OutOfNumbers(h.state, r) || OutsidePanics(h.state, r)
    ensures var r := SignHolderRedundant(n, info, x);
            SignRedundantTurn(h.state, n, info, x).reply.Crashed? <==>
            OutOfNumbers(h.state, r) || OutsidePanics(h.state, r)
  {
    ValidatePasses(h.state, n, info, x);
    assert !HolderGuards(h.state, n, info).Panic?;
  }

  lemma CounterpartyCrashes(h: History, n: Number, point: Point, info: CommitmentInfo, x: External)
    requires CounterpartyInv(h)
    ensures SignCounterpartyTurn(h.state, n, point, info, x).reply.Crashed? <==>
            || (n > INITIAL_COMMITMENT_NUMBER && x.policy == PASS && CounterpartyGuards(h.state, n, point, info))
            || CounterpartyOutside(h.state, n, point, info, x)
  {
    assert !CommitNumGuards(h.state, n, point).Panic?;
    CounterpartyPasses(h.state, n, point, info, x);
  }

  lemma RevocationCrashes(k: Crypto, h: History, n: Number, secret: Secret, x: External)
    requires CounterpartyInv(h)
    ensures RevokeTurn(k, h.state, n, secret, x).reply.Crashed? <==> n == U64_MAX
  {
  }

  lemma CrashesIn(k: Crypto, h: History, r: Request)
    requires HolderInv(h) && CounterpartyInv(h)
    ensures Serve(k, h.state, r).reply.Crashed? <==> OutOfNumbers(h.state, r) || OutsidePanics(h.state, r)
  {
    match r
    case ValidateHolder(n, info, sigs, x) => HolderCrashes(h, n, info, sigs, x);
    case SignHolderRedundant(n, info, x) => HolderCrashes(h, n, info, [], x);
    case SignCounterpartyPhase1(_, recomposes, n, point, info, x) =>
      CounterpartyCrashes(h, n, point, info, Phase1(recomposes, x));
    case SignCounterpartyPhase2(n, point, info, x) => CounterpartyCrashes(h, n, point, info, x);
    case RevokeCounterparty(n, secret, x) => RevocationCrashes(k, h, n, secret, x);
    case _ =>
  }

  /** In every run these are exactly the requests that stop the signer. */
  lemma CrashesExactly(k: Crypto, requests: seq<Request>, r: Request)
    ensures var e := Run(k, requests).state;
            Serve(k, e, r).reply.Crashed? <==> OutOfNumbers(e, r) || OutsidePanics(e, r)
  {
    RunInv(k, requests);
    CrashesIn(k, Run(k, requests), r);
  }

  // ---------- what a refusal leaves behind ----------

  /** A good secret of the latest signed commitment, which cannot be revoked yet and was not on file. */
  ghost predicate LeavesSecret(k: Crypto, e: EnforcementState, r: Request) {
    && StoresSecret(k, e, r)
    && r.n + 1 == e.nextCounterparty
    && INITIAL_COMMITMENT_NUMBER - r.n < MinIn(e.secrets.value)
  }

  /** A request that passes all its checks and would change the state, but cannot be persisted. */
  ghost predicate Unpersisted(k: Crypto, e: EnforcementState, r: Request) {
    match r
    case ValidateHolder(n, info, sigs, x) =>
      && !x.persisted && ValidateChecks(e, n, info, x) == PASS
      && (n == e.nextHolder || e.holderSigs != Some(sigs))
    case SignHolder(n, x) => !x.persisted && !e.closed && SignHolderChecks(e, n, x) == PASS
    case SignHolderForRecovery(x) => !x.persisted && !e.closed && RecoveryChecks(e, x) == PASS
    case SignHolderRedundant(n, info, x) => !x.persisted && !e.closed && RedundantChecks(e, n, info, x) == PASS
    case SignCounterpartyPhase1(decodes, recomposes, n, point, info, x) =>
      && !x.persisted && decodes && n == e.nextCounterparty
      && CounterpartyChecks(e, n, point, info, Phase1(recomposes, x)) == PASS
    case SignCounterpartyPhase2(n, point, info, x) =>
      !x.persisted && n == e.nextCounterparty && CounterpartyChecks(e, n, point, info, x) == PASS
    case RevokeCounterparty(n, _, x) =>
      !x.persisted && n == e.nextRevoke && StoresSecret(k, e, r) && RevokeNumGuards(e, n)
    case MutualClose(x) => !x.persisted && !e.closed && MutualCloseChecks(e, x) == PASS
    case _ => false
  }

  /** Where a revocation whose secret is stored ends up. */
  lemma StoringEnds(k: Crypto, h: History, r: Request)
    requires CounterpartyInv(h) && StoresSecret(k, h.state, r)
    ensures var e, turn := h.state, Serve(k, h.state, r);
            var provided := Provide(k.sha, e.secrets.value, INITIAL_COMMITMENT_NUMBER - r.n, r.secret);
            if r.n + 1 == e.nextCounterparty
            then turn == Turn(e.(secrets := provided), Denied) && r.n == e.nextRevoke && !RevokeNumGuards(e, r.n)
            else && RevokeNumGuards(e, r.n)
                 && turn.state == SetNextRevoke(e.(secrets := provided), r.n)
                 && (turn.reply.Denied? <==> !r.x.persisted)
  {
  }

  /** What such a revocation changes, when it is refused. */
  lemma StoredRefusal(e: EnforcementState, turn: Turn, n: Number, provided: Option<Store>, added: bool, persisted: bool)
    requires e.secrets.Some? && provided.Some? && (provided != e.secrets <==> added) && turn.reply.Denied?
    requires if n + 1 == e.nextCounterparty
             then turn.state == e.(secrets := provided) && n == e.nextRevoke && !RevokeNumGuards(e, n)
             else RevokeNumGuards(e, n) && turn.state == SetNextRevoke(e.(secrets := provided), n) && !persisted
    requires n == e.nextRevoke || (n + 1 == e.nextRevoke && !added)
    requires e.previousInfo.Some? ==> e.nextCounterparty == e.nextRevoke + 2
    ensures turn.state != e <==>
            (n + 1 == e.nextCounterparty && added) || (!persisted && n == e.nextRevoke && RevokeNumGuards(e, n))
  {
  }

  lemma RetriedOnFile(k: Crypto, h: History, r: Request)
    requires SecretsInv(k, h) && StoresSecret(k, h.state, r)
    ensures || r.n == h.state.nextRevoke
            || (r.n + 1 == h.state.nextRevoke && MinIn(h.state.secrets.value) <= INITIAL_COMMITMENT_NUMBER - r.n)
  {
    if r.n < |h.given| {
      MinHeld(k.sha, h.state.secrets.value, h.given);
    }
  }

  lemma StoringRefused(k: Crypto, h: History, r: Request)
    requires Inv(k, h) && StoresSecret(k, h.state, r) && Serve(k, h.state, r).reply.Denied?
    ensures Serve(k, h.state, r).state != h.state <==>
            || LeavesSecret(k, h.state, r)
            || (!r.x.persisted && r.n == h.state.nextRevoke && RevokeNumGuards(h.state, r.n))
  {
    StoringEnds(k, h, r);
    RetriedOnFile(k, h, r);
    var store, idx := h.state.secrets.value, INITIAL_COMMITMENT_NUMBER - r.n;
    ProvideChanges(k.sha, store, idx, r.secret);
    StoredRefusal(h.state, Serve(k, h.state, r), r.n, Provide(k.sha, store, idx, r.secret),
                  idx < MinIn(store), r.x.persisted);
  }

  lemma RevocationRefused(k: Crypto, h: History, r: Request)
    requires Inv(k, h) && r.RevokeCounterparty? && Serve(k, h.state, r).reply.Denied?
    ensures var e' := Serve(k, h.state, r).state;
            && (e' != h.state <==> LeavesSecret(k, h.state, r) || Unpersisted(k, h.state, r))
            && (LeavesSecret(k, h.state, r) ==> e' == h.state.(secrets := e'.secrets))
  {
    if StoresSecret(k, h.state, r) {
      StoringRefused(k, h, r);
      StoringEnds(k, h, r);
    } else {
      NotStoring(k, h, r);
    }
  }

  lemma OtherRefused(k: Crypto, h: History, r: Request)
    requires Inv(k, h) && !r.RevokeCounterparty? && Serve(k, h.state, r).reply.Denied?
    ensures Serve(k, h.state, r).state != h.state <==> Unpersisted(k, h.state, r)
  {
    match r
    case ValidateHolder(n, info, _, x) => ValidatePasses(h.state, n, info, x);
    case SignCounterpartyPhase1(_, recomposes, n, point, info, x) =>
      CounterpartyPasses(h.state, n, point, info, Phase1(recomposes, x));
    case SignCounterpartyPhase2(n, point, info, x) => CounterpartyPasses(h.state, n, point, info, x);
    case _ =>
  }

  /**
   A refused request has changed the state exactly if it could not be persisted, or if it was a revocation
   whose secret went on file before the counter guards refused it; then nothing but the store has changed.
   */
  lemma RefusalsChangeExactly(k: Crypto, requests: seq<Request>, r: Request)
    requires Serve(k, Run(k, requests).state, r).reply.Denied?
    ensures var e := Run(k, requests).state;
            var e' := Serve(k, e, r).state;
            && (e' != e <==> LeavesSecret(k, e, r) || Unpersisted(k, e, r))
            && (LeavesSecret(k, e, r) ==> e' == e.(secrets := e'.secrets))
  {
    RunInv(k, requests);
    if r.RevokeCounterparty? {
      RevocationRefused(k, Run(k, requests), r);
    } else {
      OtherRefused(k, Run(k, requests), r);
    }
  }

  /** The shortest such run: the first counterparty commitment is signed and revoked at once. */
  lemma RefusedSecretStays(k: Crypto, secret: Secret, info: CommitmentInfo)
    ensures var x := External(PASS, PASS, PASS, true);
            var signed := Run(k, [SignCounterpartyPhase2(0, k.publicKey(secret), info, x)]).state;
            var turn := Serve(k, signed, RevokeCounterparty(0, secret, x));
            turn.reply.Denied? && turn.state != signed
  {
    var x := External(PASS, PASS, PASS, true);
    var sign := SignCounterpartyPhase2(0, k.publicKey(secret), info, x);
    assert [sign][..0] == [];
    var e := Run(k, [sign]).state;
    assert Run(k, []) == History(NewState(), [], [], [], []);
    assert e == Serve(k, NewState(), sign).state;
    assert e ==
      NewState().(nextCounterparty := 1, currentPoint := Some(k.publicKey(secret)), currentInfo := Some(info));
    RunInv(k, [sign]);
    FirstSecret(k, e, secret, x);
  }

  lemma FirstSecret(k: Crypto, e: EnforcementState, secret: Secret, x: External)
    requires e.nextRevoke == 0 && e.nextCounterparty == 1 && e.currentPoint == Some(k.publicKey(secret))
    requires e.secrets == Some(EmptyStore())
    ensures var turn := Serve(k, e, RevokeCounterparty(0, secret, x));
            turn.reply.Denied? && turn.state != e
  {
    var provided := Provide(k.sha, EmptyStore(), INITIAL_COMMITMENT_NUMBER, secret);
    LastIndexFirst();
    assert Chains(k.sha, EmptyStore(), Place(INITIAL_COMMITMENT_NUMBER), secret);
    assert MinIn(EmptyStore()) == TOP;
    assert provided.value[0] == Slot(secret, INITIAL_COMMITMENT_NUMBER);
  }

  /** The first secret goes to slot 0. */
  lemma LastIndexFirst()
    ensures Place(INITIAL_COMMITMENT_NUMBER) == 0
  {
    assert Bit(INITIAL_COMMITMENT_NUMBER, 0);
    assert INITIAL_COMMITMENT_NUMBER % 2 == 1;
  }
}
