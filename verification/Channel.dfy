/**
 The signer's side of the commitment_signed / revoke_and_ack exchange of BOLT 2 ("Normal Operation").

 `EnforcementState` is the signer's memory of a channel, the functions below say what each request
 does to it, and `Channel` is the object that serves the requests.  Keys, signatures and the policy
 checks on amounts, fees and delays enter only as the `External` verdicts of a request; every policy
 error is enforced.  Numbers are those of a build with overflow checks: a request may name any number
 below 2^64, and arithmetic that leaves this range stops the signer.
 */
module Channels {
  import opened Wrappers
  import opened CommitmentSecrets

  /** A number as a request names it. */
  type Number = n: nat | n <= U64_MAX

  /** A counter of the signer: no request takes one past 2^48. */
  type Counter = n: nat | n <= TOP

  type Point = seq<bv8>
  type Signature = seq<bv8>

  datatype Htlc = Htlc(valueSat: Number, paymentHash: seq<bv8>, cltvExpiry: nat)

  datatype CommitmentInfo = CommitmentInfo(
    toBroadcasterSat: nat, toCountersignerSat: nat, toSelfDelay: nat,
    offered: seq<Htlc>, received: seq<Htlc>, feeratePerKw: nat)

  /** SHA-256, the public key of a secret key, and the holder's own secrets, counted down. */
  datatype Crypto = Crypto(sha: Hash, publicKey: Secret -> Point, holderSecret: nat -> Secret)

  /** What a check comes to: it passes, it refuses, or it stops the signer. */
  type Verdict = Outcome<bool>

  const PASS: Verdict := Done(true)

  /** One check after another: the first that does not pass decides. */
  function Then(a: Verdict, b: Verdict): Verdict {
    if a == PASS then b else a
  }

  /**
   The verdicts of code outside this model on one request: channel value, balances and commitment policy,
   signatures (verifying theirs, making ours), the payment ledger, and whether what is left to do once the
   state has changed, persisting it above all, succeeds.
   */
  datatype External = External(policy: Verdict, signing: Verdict, payments: Verdict, persisted: bool)

  datatype EnforcementState = EnforcementState(
    nextHolder: Counter,
    nextCounterparty: Counter,
    nextRevoke: Counter,
    currentPoint: Option<Point>,
    previousPoint: Option<Point>,
    holderInfo: Option<CommitmentInfo>,
    holderSigs: Option<seq<Signature>>,
    currentInfo: Option<CommitmentInfo>,
    previousInfo: Option<CommitmentInfo>,
    closed: bool,
    secrets: Option<Store>)

  /** A channel from a database older than the secret store has none. */
  function NewState(): EnforcementState {
    EnforcementState(0, 0, 0, None, None, None, None, None, None, false, Some(EmptyStore()))
  }

  /** What leaves the signer. */
  datatype Disclosure =
    | SecretReleased(n: nat)
    | HolderSigned(n: nat, info: CommitmentInfo, stored: bool)
    | CounterpartySigned(n: nat, point: Point, info: CommitmentInfo)
    | ClosingSigned
    | SecretCompared(n: nat, same: bool)

  datatype Reply = Granted(out: seq<Disclosure>) | Denied | Crashed {
    function Outputs(): seq<Disclosure> {
      if Granted? then out else []
    }
  }

  datatype Turn = Turn(state: EnforcementState, reply: Reply)

  datatype Request =
    | GetPoint(n: Number)
    | ReleaseSecret(n: Number)
    | CheckFutureSecret(n: Number, suggested: Secret)
    | ValidateHolder(n: Number, info: CommitmentInfo, sigs: seq<Signature>, x: External)
    | SignHolder(n: Number, x: External)
    | SignHolderForRecovery(x: External)
    | SignHolderRedundant(n: Number, info: CommitmentInfo, x: External)
    | SignCounterpartyPhase1(
        decodes: bool, recomposes: bool, n: Number, point: Point, info: CommitmentInfo, x: External)
    | SignCounterpartyPhase2(n: Number, point: Point, info: CommitmentInfo, x: External)
    | RevokeCounterparty(n: Number, secret: Secret, x: External)
    | MutualClose(x: External)

  const INITIAL_COMMITMENT_NUMBER: nat := TOP - 1

  /** Commitments are counted backwards from 2^48 - 1, below which there is no number. */
  function Backwards(n: Number): Verdict {
    if n > INITIAL_COMMITMENT_NUMBER then Panic else PASS
  }

  /** A request that does not pass its checks changes nothing. */
  function Stopped(e: EnforcementState, v: Verdict): Turn {
    Turn(e, if v.Panic? then Crashed else Denied)
  }

  function Answered(e: EnforcementState, v: Verdict, out: seq<Disclosure>): Turn {
    if v == PASS then Turn(e, Granted(out)) else Stopped(e, v)
  }

  // ---------- holder commitments ----------

  /** `get_per_commitment_point` answers up to one past the next number. */
  function PointChecks(e: EnforcementState, n: Number): Verdict {
    Then(Done(n <= e.nextHolder + 1), Backwards(n))
  }

  /** `get_per_commitment_secret` answers up to two below the next number. */
  function SecretChecks(e: EnforcementState, n: Number): Verdict {
    if n + 2 > U64_MAX then Panic else Done(n + 2 <= e.nextHolder)
  }

  /** `check_future_secret` says whether a suggested secret is that of number n, whatever n is. */
  function CompareTurn(k: Crypto, e: EnforcementState, n: Number, suggested: Secret): Turn {
    if n > INITIAL_COMMITMENT_NUMBER then Turn(e, Crashed)
    else Turn(e, Granted([SecretCompared(n, suggested == k.holderSecret(INITIAL_COMMITMENT_NUMBER - n))]))
  }

  /** The counter, retry and closing guards of `validate_holder_commitment_tx`. */
  function HolderGuards(e: EnforcementState, n: Number, info: CommitmentInfo): Verdict {
    if n + 1 == e.nextHolder && e.holderInfo.None? then Panic
    else Done(
      && (n + 1 == e.nextHolder ==> e.holderInfo == Some(info))
      && n + 2 > e.nextHolder
      && !(n == e.nextHolder && e.closed))
  }

  function ValidateChecks(e: EnforcementState, n: Number, info: CommitmentInfo, x: External): Verdict {
    Then(PointChecks(e, n),
         Then(x.policy,
              Then(HolderGuards(e, n, info),
                   Then(x.signing, Then(x.payments, Done(n + 1 == e.nextHolder || n == e.nextHolder))))))
  }

  lemma ValidatePasses(e: EnforcementState, n: Number, info: CommitmentInfo, x: External)
    ensures ValidateChecks(e, n, info, x) == PASS <==>
            && n <= INITIAL_COMMITMENT_NUMBER && (n + 1 == e.nextHolder || n == e.nextHolder)
            && HolderGuards(e, n, info) == PASS && x.policy == PASS && x.signing == PASS && x.payments == PASS
  {
  }

  /**
   The new number and commitment are recorded; then the next point, which the last number does not have,
   and the secret of the commitment replaced are computed.
   */
  function AdvanceTurn(e: EnforcementState, n: Number, info: CommitmentInfo, sigs: seq<Signature>,
                       persisted: bool): Turn
    requires n <= INITIAL_COMMITMENT_NUMBER
  {
    var e' := e.(nextHolder := n + 1, holderInfo := Some(info), holderSigs := Some(sigs));
    Turn(e', if n == INITIAL_COMMITMENT_NUMBER then Crashed
             else if !persisted then Denied
             else if n == 0 then Granted([]) else Granted([SecretReleased(n - 1)]))
  }

  function ValidateHolderTurn(e: EnforcementState, n: Number, info: CommitmentInfo,
                              sigs: seq<Signature>, x: External): Turn {
    var v := ValidateChecks(e, n, info, x);
    ValidatePasses(e, n, info, x);
    if v == PASS then AdvanceTurn(e, n, info, sigs, x.persisted) else Stopped(e, v)
  }

  /** Closing comes before the attempt to persist it. */
  function CloseTurn(e: EnforcementState, v: Verdict, x: External, out: Disclosure): Turn {
    if v == PASS then Turn(e.(closed := true), if x.persisted then Granted([out]) else Denied) else Stopped(e, v)
  }

  function SignHolderChecks(e: EnforcementState, n: Number, x: External): Verdict {
    if n == U64_MAX then Panic
    else if n + 1 != e.nextHolder then Done(false)
    else if e.holderInfo.None? then Panic
    else x.signing
  }

  function RecoveryChecks(e: EnforcementState, x: External): Verdict {
    if e.holderInfo.None? || e.holderSigs.None? || e.nextHolder == 0 then Panic else x.signing
  }

  function RedundantChecks(e: EnforcementState, n: Number, info: CommitmentInfo, x: External): Verdict {
    Then(PointChecks(e, n), Then(x.policy, Then(HolderGuards(e, n, info), x.signing)))
  }

  function SignHolderTurn(e: EnforcementState, n: Number, x: External): Turn {
    var v := SignHolderChecks(e, n, x);
    if v == PASS then CloseTurn(e, v, x, HolderSigned(n, e.holderInfo.value, true)) else Stopped(e, v)
  }

  function RecoveryTurn(e: EnforcementState, x: External): Turn {
    var v := RecoveryChecks(e, x);
    if v == PASS then CloseTurn(e, v, x, HolderSigned(e.nextHolder - 1, e.holderInfo.value, true)) else Stopped(e, v)
  }

  function SignRedundantTurn(e: EnforcementState, n: Number, info: CommitmentInfo, x: External): Turn {
    CloseTurn(e, RedundantChecks(e, n, info, x), x, HolderSigned(n, info, false))
  }

  // ---------- counterparty commitments ----------

  /** The revocation-window and retry guards of `validate_counterparty_commitment_tx`. */
  predicate CounterpartyGuards(e: EnforcementState, n: Number, point: Point, info: CommitmentInfo) {
    && n <= e.nextRevoke + 1
    && (n + 1 == e.nextCounterparty ==> e.currentPoint == Some(point) && e.currentInfo == Some(info))
  }

  /** The guards of `set_next_counterparty_commit_num` for signing number n; Panic where its assertion fails. */
  function CommitNumGuards(e: EnforcementState, n: Number, point: Point): Verdict {
    var num := n + 1;
    var delta := if num == 1 then 1 else 2;
    if num < e.nextRevoke + delta || num > e.nextRevoke + 2 then Done(false)
    else if num == e.nextCounterparty then
      if e.currentPoint.None? then Panic else Done(e.currentPoint.value == point)
    else Done(num == e.nextCounterparty + 1)
  }

  /** The transaction is built, counting backwards, before it is signed and paid for. */
  function CounterpartyChecks(e: EnforcementState, n: Number, point: Point, info: CommitmentInfo,
                              x: External): Verdict {
    Then(x.policy,
         Then(Done(CounterpartyGuards(e, n, point, info)),
              Then(Backwards(n), Then(x.signing, Then(x.payments, CommitNumGuards(e, n, point))))))
  }

  lemma CounterpartyPasses(e: EnforcementState, n: Number, point: Point, info: CommitmentInfo, x: External)
    ensures CounterpartyChecks(e, n, point, info, x) == PASS <==>
            && n <= INITIAL_COMMITMENT_NUMBER
            && CounterpartyGuards(e, n, point, info) && CommitNumGuards(e, n, point) == PASS
            && x.policy == PASS && x.signing == PASS && x.payments == PASS
  {
  }

  /** A new number shifts current to previous; a retry changes nothing. */
  function SetNextCounterparty(e: EnforcementState, n: Number, point: Point, info: CommitmentInfo): EnforcementState
    requires n <= INITIAL_COMMITMENT_NUMBER
  {
    if n == e.nextCounterparty then
      e.(nextCounterparty := n + 1,
         previousPoint := e.currentPoint, previousInfo := e.currentInfo,
         currentPoint := Some(point), currentInfo := Some(info))
    else e
  }

  function SignCounterpartyTurn(e: EnforcementState, n: Number, point: Point, info: CommitmentInfo, x: External): Turn {
    var v := CounterpartyChecks(e, n, point, info, x);
    CounterpartyPasses(e, n, point, info, x);
    if v == PASS then
      Turn(SetNextCounterparty(e, n, point, info),
           if x.persisted then Granted([CounterpartySigned(n, point, info)]) else Denied)
    else Stopped(e, v)
  }

  function PreviousPoint(e: EnforcementState, n: nat): Option<Point> {
    if n + 1 == e.nextCounterparty then e.currentPoint
    else if n + 2 == e.nextCounterparty then e.previousPoint
    else None
  }

  /** `validate_counterparty_revocation`: the next number or a retry, with a secret of the point signed for it. */
  function RevocationChecks(k: Crypto, e: EnforcementState, n: Number, secret: Secret): Verdict {
    if n != e.nextRevoke && n == U64_MAX then Panic
    else if n != e.nextRevoke && n + 1 != e.nextRevoke then Done(false)
    else Done(PreviousPoint(e, n) == Some(k.publicKey(secret)))
  }

  /** The guards of `set_next_counterparty_revoke_num` for having revoked number n. */
  predicate RevokeNumGuards(e: EnforcementState, n: Number) {
    var num := n + 1;
    && e.nextCounterparty <= num + 2
    && num + 1 <= e.nextCounterparty
    && (num == e.nextRevoke || num == e.nextRevoke + 1)
  }

  function SetNextRevoke(e: EnforcementState, n: Number): EnforcementState
    requires RevokeNumGuards(e, n)
  {
    e.(nextRevoke := n + 1,
       previousInfo := if n + 2 >= e.nextCounterparty then None else e.previousInfo)
  }

  function RevokeCounterTurn(e: EnforcementState, n: Number, x: External): Turn {
    if !RevokeNumGuards(e, n) then Turn(e, Denied)
    else Turn(SetNextRevoke(e, n), if x.persisted then Granted([]) else Denied)
  }

  /** The stored secrets are extended before the counter guards can still refuse. */
  function RevokeTurn(k: Crypto, e: EnforcementState, n: Number, secret: Secret, x: External): Turn {
    var v := RevocationChecks(k, e, n, secret);
    if v != PASS then Stopped(e, v)
    else if e.secrets.None? then RevokeCounterTurn(e, n, x)
    else if Backwards(n).Panic? then Turn(e, Crashed)
    else
      var provided := Provide(k.sha, e.secrets.value, INITIAL_COMMITMENT_NUMBER - n, secret);
      if provided.None? then Turn(e, Denied) else RevokeCounterTurn(e.(secrets := provided), n, x)
  }

  /** A mutual close needs both current commitments, with no HTLC pending in either. */
  predicate CloseAllowed(e: EnforcementState) {
    && e.holderInfo.Some? && e.currentInfo.Some?
    && e.holderInfo.value.offered == [] && e.holderInfo.value.received == []
    && e.currentInfo.value.offered == [] && e.currentInfo.value.received == []
  }

  function MutualCloseChecks(e: EnforcementState, x: External): Verdict {
    Then(Done(CloseAllowed(e)), Then(x.policy, x.signing))
  }

  /** Phase 1 decodes the transaction before the checks and compares it when it has been rebuilt. */
  function Phase1(recomposes: bool, x: External): External {
    x.(signing := Then(Done(recomposes), x.signing))
  }

  function Serve(k: Crypto, e: EnforcementState, r: Request): Turn {
    match r
    case GetPoint(n) => Answered(e, PointChecks(e, n), [])
    case ReleaseSecret(n) => Answered(e, SecretChecks(e, n), [SecretReleased(n)])
    case CheckFutureSecret(n, suggested) => CompareTurn(k, e, n, suggested)
    case ValidateHolder(n, info, sigs, x) => ValidateHolderTurn(e, n, info, sigs, x)
    case SignHolder(n, x) => SignHolderTurn(e, n, x)
    case SignHolderForRecovery(x) => RecoveryTurn(e, x)
    case SignHolderRedundant(n, info, x) => SignRedundantTurn(e, n, info, x)
    case SignCounterpartyPhase1(decodes, recomposes, n, point, info, x) =>
      if decodes then SignCounterpartyTurn(e, n, point, info, Phase1(recomposes, x)) else Turn(e, Denied)
    case SignCounterpartyPhase2(n, point, info, x) => SignCounterpartyTurn(e, n, point, info, x)
    case RevokeCounterparty(n, secret, x) => RevokeTurn(k, e, n, secret, x)
    case MutualClose(x) => CloseTurn(e, MutualCloseChecks(e, x), x, ClosingSigned)
  }

  // ---------- the object that serves the requests ----------

  class Channel {
    var nextHolder: Counter
    var nextCounterparty: Counter
    var nextRevoke: Counter
    var currentPoint: Option<Point>
    var previousPoint: Option<Point>
    var holderInfo: Option<CommitmentInfo>
    var holderSigs: Option<seq<Signature>>
    var currentInfo: Option<CommitmentInfo>
    var previousInfo: Option<CommitmentInfo>
    var closed: bool
    const secrets: Secrets?

    ghost function State(): EnforcementState
      reads this, secrets
    {
      EnforcementState(nextHolder, nextCounterparty, nextRevoke, currentPoint, previousPoint,
                       holderInfo, holderSigs, currentInfo, previousInfo, closed,
                       if secrets == null then None else Some(secrets.oldSecrets))
    }

    constructor ()
      ensures State() == NewState() && secrets != null && fresh(secrets)
    {
      nextHolder, nextCounterparty, nextRevoke := 0, 0, 0;
      currentPoint, previousPoint := None, None;
      holderInfo, holderSigs := None, None;
      currentInfo, previousInfo := None, None;
      closed := false;
      secrets := new Secrets();
    }

    method GetPerCommitmentPoint(n: Number) returns (r: Reply)
      ensures Turn(State(), r) == Answered(State(), PointChecks(State(), n), [])
    {
      if n > nextHolder + 1 {
        return Denied;
      }
      r := if n > INITIAL_COMMITMENT_NUMBER then Crashed else Granted([]);
    }

    method GetPerCommitmentSecret(n: Number) returns (r: Reply)
      ensures Turn(State(), r) == Answered(State(), SecretChecks(State(), n), [SecretReleased(n)])
    {
      if n > U64_MAX - 2 {
        return Crashed;
      }
      if n + 2 > nextHolder {
        return Denied;
      }
      r := Granted([SecretReleased(n)]);
    }

    /** Compares a suggested secret with the one of any number; nothing leaves but the answer. */
    method CheckFutureSecret(k: Crypto, n: Number, suggested: Secret) returns (r: Reply)
      ensures Turn(State(), r) == CompareTurn(k, State(), n, suggested)
    {
      if n > INITIAL_COMMITMENT_NUMBER {
        return Crashed;
      }
      r := Granted([SecretCompared(n, suggested == k.holderSecret(INITIAL_COMMITMENT_NUMBER - n))]);
    }

    method ValidateHolderCommitment(n: Number, info: CommitmentInfo, sigs: seq<Signature>, x: External)
      returns (r: Reply)
      modifies this
      ensures Turn(State(), r) == ValidateHolderTurn(old(State()), n, info, sigs, x)
    {
      r := GetPerCommitmentPoint(n);
      if !r.Granted? {
        return;
      }
      if x.policy != PASS {
        return if x.policy.Panic? then Crashed else Denied;
      }
      r := CheckHolder(n, info);
      if !r.Granted? {
        return;
      }
      if x.signing != PASS {
        return if x.signing.Panic? then Crashed else Denied;
      }
      if x.payments != PASS {
        return if x.payments.Panic? then Crashed else Denied;
      }
      r := AdvanceHolder(n, info, sigs, x.persisted);
    }

    /** The guards of `validate_holder_commitment_tx`. */
    method CheckHolder(n: Number, info: CommitmentInfo) returns (r: Reply)
      ensures Turn(State(), r) == Answered(State(), HolderGuards(State(), n, info), [])
    {
      if n + 1 == nextHolder {
        if holderInfo.None? {
          return Crashed;
        }
        if holderInfo.value != info {
          return Denied;
        }
      }
      if n + 2 <= nextHolder || (n == nextHolder && closed) {
        return Denied;
      }
      r := Granted([]);
    }

    /** The next commitment number and the secret of the one it replaces. */
    method AdvanceHolder(n: Number, info: CommitmentInfo, sigs: seq<Signature>, persisted: bool)
      returns (r: Reply)
      requires n <= INITIAL_COMMITMENT_NUMBER
      modifies this
      ensures Turn(State(), r) ==
              if n + 1 == old(nextHolder) || n == old(nextHolder)
              then AdvanceTurn(old(State()), n, info, sigs, persisted) else Turn(old(State()), Denied)
    {
      if n + 1 != nextHolder && n != nextHolder {
        return Denied;
      }
      nextHolder := n + 1;
      holderInfo := Some(info);
      holderSigs := Some(sigs);
      r := GetPerCommitmentPoint(n + 1);
      if r.Crashed? {
        return;
      }
      if n >= 1 {
        r := GetPerCommitmentSecret(n - 1);
      }
      if !persisted {
        r := Denied;
      }
    }

    method Close(v: Verdict, x: External, out: Disclosure) returns (r: Reply)
      modifies this`closed
      ensures Turn(State(), r) == CloseTurn(old(State()), v, x, out)
    {
      if v != PASS {
        return if v.Panic? then Crashed else Denied;
      }
      closed := true;
      r := if x.persisted then Granted([out]) else Denied;
    }

    method SignHolderCommitment(n: Number, x: External) returns (r: Reply)
      modifies this
      ensures Turn(State(), r) == SignHolderTurn(old(State()), n, x)
    {
      if n == U64_MAX {
        return Crashed;
      }
      if n + 1 != nextHolder {
        return Denied;
      }
      if holderInfo.None? {
        return Crashed;
      }
      r := Close(x.signing, x, HolderSigned(n, holderInfo.value, true));
    }

    method SignHolderCommitmentForRecovery(x: External) returns (r: Reply)
      modifies this
      ensures Turn(State(), r) == RecoveryTurn(old(State()), x)
    {
      if holderInfo.None? || holderSigs.None? || nextHolder == 0 {
        return Crashed;
      }
      r := Close(x.signing, x, HolderSigned(nextHolder - 1, holderInfo.value, true));
    }

    method SignHolderCommitmentRedundant(n: Number, info: CommitmentInfo, x: External) returns (r: Reply)
      modifies this
      ensures Turn(State(), r) == SignRedundantTurn(old(State()), n, info, x)
    {
      r := GetPerCommitmentPoint(n);
      if !r.Granted? {
        return;
      }
      if x.policy != PASS {
        return if x.policy.Panic? then Crashed else Denied;
      }
      r := CheckHolder(n, info);
      if !r.Granted? {
        return;
      }
      r := Close(x.signing, x, HolderSigned(n, info, false));
    }

    method SignCounterpartyCommitment(n: Number, point: Point, info: CommitmentInfo, x: External)
      returns (r: Reply)
      modifies this
      ensures Turn(State(), r) == SignCounterpartyTurn(old(State()), n, point, info, x)
    {
      if x.policy != PASS {
        return if x.policy.Panic? then Crashed else Denied;
      }
      if n > nextRevoke + 1 {
        return Denied;
      }
      if n + 1 == nextCounterparty && (currentPoint != Some(point) || currentInfo != Some(info)) {
        return Denied;
      }
      if n > INITIAL_COMMITMENT_NUMBER {
        return Crashed;
      }
      if x.signing != PASS {
        return if x.signing.Panic? then Crashed else Denied;
      }
      if x.payments != PASS {
        return if x.payments.Panic? then Crashed else Denied;
      }
      r := SetNextCounterpartyCommitNum(n + 1, point, info);
      if r.Granted? {
        r := if x.persisted then Granted([CounterpartySigned(n, point, info)]) else Denied;
      }
    }

    method SetNextCounterpartyCommitNum(num: Number, point: Point, info: CommitmentInfo) returns (r: Reply)
      requires 0 < num <= TOP
      modifies this
      ensures var v := CommitNumGuards(old(State()), num - 1, point);
              Turn(State(), r) ==
              if v == PASS then Turn(SetNextCounterparty(old(State()), num - 1, point, info), Granted([]))
                                  else Stopped(old(State()), v)
    {
      var delta := if num == 1 then 1 else 2;
      if num < nextRevoke + delta || num > nextRevoke + 2 {
        return Denied;
      }
      if num == nextCounterparty {
        if currentPoint.None? {
          return Crashed;
        }
        if point != currentPoint.value {
          return Denied;
        }
      } else if num != nextCounterparty + 1 {
        return Denied;
      }
      if num == nextCounterparty + 1 {
        previousPoint := currentPoint;
        previousInfo := currentInfo;
      }
      if num >= nextCounterparty + 1 {
        currentPoint := Some(point);
        currentInfo := Some(info);
      }
      nextCounterparty := num;
      r := Granted([]);
    }

    method ValidateCounterpartyRevocation(k: Crypto, n: Number, secret: Secret, x: External) returns (r: Reply)
      modifies this, secrets
      ensures Turn(State(), r) == RevokeTurn(k, old(State()), n, secret, x)
    {
      r := CheckRevocation(k, n, secret);
      if !r.Granted? {
        return;
      }
      if secrets != null {
        if n > INITIAL_COMMITMENT_NUMBER {
          return Crashed;
        }
        var provided := secrets.ProvideSecret(k.sha, INITIAL_COMMITMENT_NUMBER - n, secret);
        if provided.Refused? {
          return Denied;
        }
      }
      r := SetNextCounterpartyRevokeNum(n + 1, x);
    }

    /** `validate_counterparty_revocation` of the validator. */
    method CheckRevocation(k: Crypto, n: Number, secret: Secret) returns (r: Reply)
      ensures Turn(State(), r) == Answered(State(), RevocationChecks(k, State(), n, secret), [])
    {
      if n != nextRevoke {
        if n == U64_MAX {
          return Crashed;
        }
        if n + 1 != nextRevoke {
          return Denied;
        }
      }
      var previous := if n + 1 == nextCounterparty then currentPoint
                      else if n + 2 == nextCounterparty then previousPoint else None;
      r := if previous == Some(k.publicKey(secret)) then Granted([]) else Denied;
    }

    method SetNextCounterpartyRevokeNum(num: Number, x: External) returns (r: Reply)
      modifies this
      ensures secrets != null ==> secrets.oldSecrets == old(secrets.oldSecrets)
      ensures Turn(State(), r) ==
              if num == 0 then Stopped(old(State()), Done(false))
              else if num + 2 > U64_MAX then Stopped(old(State()), Panic)
              else RevokeCounterTurn(old(State()), num - 1, x)
    {
      if num == 0 {
        return Denied;
      }
      if num + 2 > U64_MAX {
        return Crashed;
      }
      if num + 2 < nextCounterparty || num + 1 > nextCounterparty {
        return Denied;
      }
      if num != nextRevoke && num != nextRevoke + 1 {
        return Denied;
      }
      if num + 1 >= nextCounterparty {
        previousInfo := None;
      }
      nextRevoke := num;
      r := if x.persisted then Granted([]) else Denied;
    }

    method SignMutualClose(x: External) returns (r: Reply)
      modifies this
      ensures Turn(State(), r) == CloseTurn(old(State()), MutualCloseChecks(old(State()), x), x, ClosingSigned)
    {
      if holderInfo.None? || currentInfo.None? {
        return Denied;
      }
      if |holderInfo.value.offered| + |holderInfo.value.received| > 0
         || |currentInfo.value.offered| + |currentInfo.value.received| > 0 {
        return Denied;
      }
      if x.policy != PASS {
        return if x.policy.Panic? then Crashed else Denied;
      }
      r := Close(x.signing, x, ClosingSigned);
    }
  }
}
