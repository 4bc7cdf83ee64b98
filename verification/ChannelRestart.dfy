/** What holds of a channel whose signer is restarted, with what was persisted of its state. */
module ChannelRestart {
  import opened Wrappers
  import opened CommitmentSecrets
  import opened Channels
  import ChannelSafety

  /** The state in memory, the state last persisted, and everything disclosed. */
  datatype Life = Life(memory: EnforcementState, disk: EnforcementState, out: seq<Disclosure>)

  /** `Sync` stands for the calls outside these requests that end in persisting the channel, such as sweeps. */
  datatype Move = Ask(r: Request) | Sync | Restart

  /** Requests that only read the channel do not persist it; the others do before they answer. */
  predicate Persists(r: Request) {
    !r.GetPoint? && !r.ReleaseSecret? && !r.CheckFutureSecret?
  }

  function Live(k: Crypto, l: Life, m: Move): Life {
    match m
    case Ask(r) =>
      var turn := Serve(k, l.memory, r);
      Life(turn.state, if turn.reply.Granted? && Persists(r) then turn.state else l.disk, l.out + turn.reply.Outputs())
    case Sync => l.(disk := l.memory)
    case Restart => l.(memory := l.disk)
  }

  function LiveOn(k: Crypto, l: Life, moves: seq<Move>): Life {
    if moves == [] then l
    else
      var n := |moves| - 1;
      Live(k, LiveOn(k, l, moves[..n]), moves[n])
  }

  function Birth(): Life {
    Life(NewState(), NewState(), [])
  }

  // ---------- a life as runs without restarts ----------

  /** The requests whose effect is persisted, and those after them that a restart would undo. */
  datatype Record = Record(kept: seq<Request>, open: seq<Request>)

  function Recorded(k: Crypto, l: Life, t: Record, m: Move): Record {
    match m
    case Ask(r) =>
      if Serve(k, l.memory, r).reply.Granted? && Persists(r) then Record(t.kept + t.open + [r], [])
      else Record(t.kept, t.open + [r])
    case Sync => Record(t.kept + t.open, [])
    case Restart => Record(t.kept, [])
  }

  function RecordOf(k: Crypto, moves: seq<Move>): Record {
    if moves == [] then Record([], [])
    else
      var n := |moves| - 1;
      Recorded(k, LiveOn(k, Birth(), moves[..n]), RecordOf(k, moves[..n]), moves[n])
  }

  /** All but released secrets is on record with the persisted requests. */
  ghost predicate OutOnRecord(k: Crypto, l: Life, kept: seq<Request>) {
    forall d | d in l.out && !d.SecretReleased? && !d.SecretCompared? :: d in ChannelSafety.Run(k, kept).out
  }

  ghost predicate Follows(k: Crypto, l: Life, t: Record) {
    && l.disk == ChannelSafety.Run(k, t.kept).state
    && l.memory == ChannelSafety.Run(k, t.kept + t.open).state
    && OutOnRecord(k, l, t.kept)
  }

  lemma RunThen(k: Crypto, requests: seq<Request>, r: Request)
    ensures ChannelSafety.Run(k, requests + [r]) == ChannelSafety.Next(k, ChannelSafety.Run(k, requests), r)
  {
    assert (requests + [r])[..|requests|] == requests;
  }

  /** Nothing disclosed is taken back, and the holder side does not go back, or on after closing. */
  ghost predicate Extends(h: ChannelSafety.History, h': ChannelSafety.History) {
    && (forall d | d in h.out :: d in h'.out)
    && h.state.nextHolder <= h'.state.nextHolder
    && (h.state.closed ==> h'.state.closed && h'.state.nextHolder == h.state.nextHolder)
  }

  lemma NextExtends(k: Crypto, h: ChannelSafety.History, r: Request)
    ensures Extends(h, ChannelSafety.Next(k, h, r))
  {
    ChannelSafety.TurnMovesByOne(k, h.state, r);
  }

  lemma ExtendsOn(a: ChannelSafety.History, b: ChannelSafety.History, c: ChannelSafety.History)
    requires Extends(a, b) && Extends(b, c)
    ensures Extends(a, c)
  {
  }

  lemma {:induction false} RunGrows(k: Crypto, requests: seq<Request>, more: seq<Request>)
    ensures Extends(ChannelSafety.Run(k, requests), ChannelSafety.Run(k, requests + more))
    decreases |more|
  {
    if more == [] {
      assert requests + more == requests;
    } else {
      var n := |more| - 1;
      var before := requests + more[..n];
      assert requests + more == before + [more[n]];
      RunGrows(k, requests, more[..n]);
      RunThen(k, before, more[n]);
      NextExtends(k, ChannelSafety.Run(k, before), more[n]);
      ExtendsOn(ChannelSafety.Run(k, requests), ChannelSafety.Run(k, before), ChannelSafety.Run(k, requests + more));
    }
  }

  lemma ReadersDisclose(k: Crypto, e: EnforcementState, r: Request)
    requires !(Serve(k, e, r).reply.Granted? && Persists(r))
    ensures forall d | d in Serve(k, e, r).reply.Outputs() :: d.SecretReleased? || d.SecretCompared?
  {
  }

  lemma PersistedFollows(k: Crypto, l: Life, t: Record, r: Request)
    requires Follows(k, l, t) && Serve(k, l.memory, r).reply.Granted? && Persists(r)
    ensures Follows(k, Live(k, l, Ask(r)), Recorded(k, l, t, Ask(r)))
  {
    var all := t.kept + t.open;
    assert all + [r] + [] == all + [r] == t.kept + (t.open + [r]);
    RunGrows(k, t.kept, t.open + [r]);
    RunThen(k, all, r);
  }

  lemma OpenFollows(k: Crypto, l: Life, t: Record, r: Request)
    requires Follows(k, l, t) && !(Serve(k, l.memory, r).reply.Granted? && Persists(r))
    ensures Follows(k, Live(k, l, Ask(r)), Recorded(k, l, t, Ask(r)))
  {
    assert t.kept + (t.open + [r]) == t.kept + t.open + [r];
    ReadersDisclose(k, l.memory, r);
    RunThen(k, t.kept + t.open, r);
  }

  lemma MoveFollows(k: Crypto, l: Life, t: Record, m: Move)
    requires Follows(k, l, t)
    ensures Follows(k, Live(k, l, m), Recorded(k, l, t, m))
  {
    match m
    case Ask(r) =>
      if Serve(k, l.memory, r).reply.Granted? && Persists(r) {
        PersistedFollows(k, l, t, r);
      } else {
        OpenFollows(k, l, t, r);
      }
    case Sync =>
      RunGrows(k, t.kept, t.open);
      assert t.kept + t.open + [] == t.kept + t.open;
    case Restart => assert t.kept + [] == t.kept;
  }

  /**
   Through all restarts, memory and disk are those of runs without a restart, of which one extends the
   other, and whatever was signed is on record with what was persisted.
   */
  lemma {:induction false} LifeFollows(k: Crypto, moves: seq<Move>)
    ensures Follows(k, LiveOn(k, Birth(), moves), RecordOf(k, moves))
  {
    if moves == [] {
      var none: seq<Request> := [];
      assert none + none == none;
    } else {
      var n := |moves| - 1;
      LifeFollows(k, moves[..n]);
      MoveFollows(k, LiveOn(k, Birth(), moves[..n]), RecordOf(k, moves[..n]), moves[n]);
    }
  }

  // ---------- what restarts do not break ----------

  /** All signatures ever issued on one counterparty number are over one point and commitment, restarts or not. */
  lemma CounterpartySignaturesAgree(k: Crypto, moves: seq<Move>, d: Disclosure, d': Disclosure)
    requires d in LiveOn(k, Birth(), moves).out && d' in LiveOn(k, Birth(), moves).out
    requires d.CounterpartySigned? && d'.CounterpartySigned? && d.n == d'.n
    ensures d == d'
  {
    LifeFollows(k, moves);
    ChannelSafety.CounterpartySignaturesAgree(k, RecordOf(k, moves).kept, d, d');
  }

  ghost predicate Answers(k: Crypto, e: EnforcementState, n: nat, point: Point)
    requires n <= INITIAL_COMMITMENT_NUMBER
  {
    && e.secrets.Some?
    && var got := Get(k.sha, e.secrets.value, INITIAL_COMMITMENT_NUMBER - n);
       got.Done? && got.value.Some? && k.publicKey(got.value.value) == point
  }

  lemma AnswersInRun(k: Crypto, requests: seq<Request>, past: Disclosure, d: Disclosure)
    requires past in ChannelSafety.Run(k, requests).out && d in ChannelSafety.Run(k, requests).out
    requires past.CounterpartySigned? && d.CounterpartySigned? && past.n + 2 <= d.n
    requires past.n <= INITIAL_COMMITMENT_NUMBER
    ensures Answers(k, ChannelSafety.Run(k, requests).state, past.n, past.point)
  {
    ChannelSafety.OldCommitmentsPunishable(k, requests, d, past.n);
    ChannelSafety.RunInv(k, requests);
    assert ChannelSafety.CounterpartyOut(ChannelSafety.Run(k, requests), past);
  }

  /** The secret of a commitment signed two or more ago can be had from memory, and from disk after a restart. */
  lemma OldCommitmentsPunishable(k: Crypto, moves: seq<Move>, past: Disclosure, d: Disclosure)
    requires past in LiveOn(k, Birth(), moves).out && d in LiveOn(k, Birth(), moves).out
    requires past.CounterpartySigned? && d.CounterpartySigned? && past.n + 2 <= d.n
    requires past.n <= INITIAL_COMMITMENT_NUMBER
    ensures var l := LiveOn(k, Birth(), moves);
            Answers(k, l.memory, past.n, past.point) && Answers(k, l.disk, past.n, past.point)
  {
    LifeFollows(k, moves);
    var t := RecordOf(k, moves);
    RunGrows(k, t.kept, t.open);
    AnswersInRun(k, t.kept, past, d);
    AnswersInRun(k, t.kept + t.open, past, d);
  }

  // ---------- what restarts break ----------

  /** A commitment number both revoked and signed. */
  ghost predicate Conflict(l: Life) {
    exists n, info, stored :: SecretReleased(n) in l.out && HolderSigned(n, info, stored) in l.out
  }

  /** A secret is released for which only the state in memory has a replacement. */
  predicate Early(k: Crypto, l: Life, m: Move) {
    m.Ask? && m.r.ReleaseSecret? && Serve(k, l.memory, m.r).reply.Granted? && m.r.n + 2 > l.disk.nextHolder
  }

  ghost predicate Careful(k: Crypto, l: Life, moves: seq<Move>) {
    moves == [] ||
    var n := |moves| - 1;
    Careful(k, l, moves[..n]) && !Early(k, LiveOn(k, l, moves[..n]), moves[n])
  }

  /** Every secret that is out belongs to a commitment whose replacement is persisted. */
  ghost predicate Backed(l: Life) {
    forall n: nat | SecretReleased(n) in l.out :: n + 2 <= l.disk.nextHolder
  }

  lemma {:induction false} LiveOnAppend(k: Crypto, l: Life, moves: seq<Move>, more: seq<Move>)
    ensures LiveOn(k, l, moves + more) == LiveOn(k, LiveOn(k, l, moves), more)
    ensures Careful(k, l, moves + more) <==> Careful(k, l, moves) && Careful(k, LiveOn(k, l, moves), more)
    decreases |more|
  {
    if more == [] {
      assert moves + more == moves;
    } else {
      var n := |more| - 1;
      assert (moves + more)[..|moves| + n] == moves + more[..n];
      LiveOnAppend(k, l, moves, more[..n]);
    }
  }

  lemma DiskBehind(k: Crypto, l: Life, t: Record)
    requires Follows(k, l, t)
    ensures l.disk.nextHolder <= l.memory.nextHolder
  {
    RunGrows(k, t.kept, t.open);
  }

  lemma DiskGrows(k: Crypto, l: Life, m: Move)
    requires l.disk.nextHolder <= l.memory.nextHolder
    ensures l.disk.nextHolder <= Live(k, l, m).disk.nextHolder
  {
    if m.Ask? {
      ChannelSafety.TurnMovesByOne(k, l.memory, m.r);
    }
  }

  /** A secret that goes out now is backed. */
  lemma NewlyBacked(k: Crypto, l: Life, r: Request, n: nat)
    requires !Early(k, l, Ask(r)) && SecretReleased(n) in Serve(k, l.memory, r).reply.Outputs()
    ensures n + 2 <= Live(k, l, Ask(r)).disk.nextHolder
  {
    if Persists(r) {
      ChannelSafety.HolderStep(k, l.memory, r);
      assert ChannelSafety.HolderMoveOut(Serve(k, l.memory, r).state, SecretReleased(n));
    }
  }

  lemma MoveBacked(k: Crypto, l: Life, m: Move)
    requires l.disk.nextHolder <= l.memory.nextHolder && Backed(l) && !Early(k, l, m)
    ensures Backed(Live(k, l, m))
  {
    DiskGrows(k, l, m);
    var l' := Live(k, l, m);
    forall n: nat | SecretReleased(n) in l'.out
      ensures n + 2 <= l'.disk.nextHolder
    {
      if SecretReleased(n) !in l.out {
        NewlyBacked(k, l, m.r, n);
      }
    }
  }

  lemma {:induction false} CarefulBacked(k: Crypto, moves: seq<Move>)
    requires Careful(k, Birth(), moves)
    ensures Backed(LiveOn(k, Birth(), moves))
  {
    if moves != [] {
      var n := |moves| - 1;
      CarefulBacked(k, moves[..n]);
      LifeFollows(k, moves[..n]);
      DiskBehind(k, LiveOn(k, Birth(), moves[..n]), RecordOf(k, moves[..n]));
      MoveBacked(k, LiveOn(k, Birth(), moves[..n]), moves[n]);
    }
  }

  /** What was signed is not below what is persisted. */
  lemma SignedNotBelow(k: Crypto, moves: seq<Move>, n: nat, info: CommitmentInfo, stored: bool)
    requires HolderSigned(n, info, stored) in LiveOn(k, Birth(), moves).out
    ensures n + 1 >= LiveOn(k, Birth(), moves).disk.nextHolder
  {
    LifeFollows(k, moves);
    var kept := RecordOf(k, moves).kept;
    ChannelSafety.RunInv(k, kept);
    assert ChannelSafety.HolderOut(ChannelSafety.Run(k, kept), HolderSigned(n, info, stored));
  }

  /** In a life in which no secret is released early, no number is both revoked and signed. */
  lemma CarefulNeverConflicts(k: Crypto, moves: seq<Move>)
    requires Careful(k, Birth(), moves)
    ensures !Conflict(LiveOn(k, Birth(), moves))
  {
    var l := LiveOn(k, Birth(), moves);
    CarefulBacked(k, moves);
    forall n, info, stored | HolderSigned(n, info, stored) in l.out
      ensures SecretReleased(n) !in l.out
    {
      SignedNotBelow(k, moves, n, info, stored);
    }
  }

  const GOOD: External := External(PASS, PASS, PASS, true)

  /** The holder commitments up to number n are validated, one after another, and persisted. */
  lemma CatchUp(k: Crypto, l: Life, n: nat, info: CommitmentInfo) returns (moves: seq<Move>)
    requires !l.memory.closed && l.memory.nextHolder <= n + 1 && n < INITIAL_COMMITMENT_NUMBER
    requires l.memory.nextHolder > 0 ==> l.memory.holderInfo.Some?
    ensures var l' := LiveOn(k, l, moves);
            && Careful(k, l, moves) && (forall d | d in l.out :: d in l'.out)
            && l'.memory.nextHolder == n + 1 && l'.memory.holderInfo.Some?
    decreases n + 1 - l.memory.nextHolder
  {
    if l.memory.nextHolder == n + 1 {
      moves := [];
    } else {
      var step := Ask(ValidateHolder(l.memory.nextHolder, info, [], GOOD));
      ValidatePasses(l.memory, l.memory.nextHolder, info, GOOD);
      var more := CatchUp(k, Live(k, l, step), n, info);
      One(k, l, step);
      LiveOnAppend(k, l, [step], more);
      moves := [step] + more;
    }
  }

  lemma One(k: Crypto, l: Life, m: Move)
    ensures LiveOn(k, l, [m]) == Live(k, l, m)
    ensures Careful(k, l, [m]) <==> !Early(k, l, m)
  {
    assert [m][..0] == [];
  }

  /** Signing the current commitment, with every outside check passed. */
  lemma SignNow(k: Crypto, l: Life, n: nat)
    requires l.memory.nextHolder == n + 1 && l.memory.holderInfo.Some? && n < INITIAL_COMMITMENT_NUMBER
    ensures HolderSigned(n, l.memory.holderInfo.value, true) in Live(k, l, Ask(SignHolder(n, GOOD))).out
  {
  }

  /** A channel whose closing is persisted has its whole holder side persisted. */
  lemma EarlyIsOpen(k: Crypto, moves: seq<Move>, m: Move)
    requires Early(k, LiveOn(k, Birth(), moves), m)
    ensures var l := LiveOn(k, Birth(), moves);
            && !l.disk.closed && l.disk.nextHolder <= m.r.n + 1 && m.r.n < INITIAL_COMMITMENT_NUMBER
            && (l.disk.nextHolder > 0 ==> l.disk.holderInfo.Some?)
  {
    LifeFollows(k, moves);
    var t := RecordOf(k, moves);
    RunGrows(k, t.kept, t.open);
    ChannelSafety.RunInv(k, t.kept);
  }

  /** After an early release, a restart and good requests alone lead to a signature on what was revoked. */
  lemma EarlyConflicts(k: Crypto, moves: seq<Move>, m: Move, info: CommitmentInfo) returns (rest: seq<Move>)
    requires Early(k, LiveOn(k, Birth(), moves), m)
    ensures var l := Live(k, LiveOn(k, Birth(), moves), m);
            Careful(k, l, rest) && Conflict(LiveOn(k, l, rest))
  {
    var n := m.r.n;
    var l := Live(k, LiveOn(k, Birth(), moves), m);
    EarlyIsOpen(k, moves, m);
    assert SecretReleased(n) in l.out;
    var l1 := Live(k, l, Restart);
    One(k, l, Restart);
    var up := CatchUp(k, l1, n, info);
    var l2 := LiveOn(k, l1, up);
    var sign := Ask(SignHolder(n, GOOD));
    SignNow(k, l2, n);
    One(k, l2, sign);
    LiveOnAppend(k, l1, up, [sign]);
    LiveOnAppend(k, l, [Restart], up + [sign]);
    rest := [Restart] + (up + [sign]);
    var l3 := LiveOn(k, l, rest);
    assert SecretReleased(n) in l3.out && HolderSigned(n, l2.memory.holderInfo.value, true) in l3.out;
  }

  ghost predicate SafeWith(k: Crypto, l: Life, rest: seq<Move>) {
    Careful(k, l, rest) ==> !Conflict(LiveOn(k, l, rest))
  }

  /**
   Releasing a secret is safe, whatever follows that releases none early, if and only if it is not early:
   the persisted state has to be past the commitment that replaces the one revoked.
   */
  lemma ReleaseSafeIff(k: Crypto, moves: seq<Move>, m: Move)
    requires Careful(k, Birth(), moves) && m.Ask? && m.r.ReleaseSecret?
    ensures (forall rest :: SafeWith(k, Live(k, LiveOn(k, Birth(), moves), m), rest)) <==>
            !Early(k, LiveOn(k, Birth(), moves), m)
  {
    var l0 := LiveOn(k, Birth(), moves);
    var l := Live(k, l0, m);
    if Early(k, l0, m) {
      var rest := EarlyConflicts(k, moves, m, CommitmentInfo(0, 0, 0, [], [], 0));
      assert !SafeWith(k, l, rest);
    } else {
      One(k, l0, m);
      LiveOnAppend(k, Birth(), moves, [m]);
      forall rest
        ensures SafeWith(k, l, rest)
      {
        if Careful(k, l, rest) {
          LiveOnAppend(k, Birth(), moves + [m], rest);
          CarefulNeverConflicts(k, moves + [m] + rest);
        }
      }
    }
  }

  lemma LiveThen(k: Crypto, l: Life, moves: seq<Move>, m: Move)
    ensures LiveOn(k, l, moves + [m]) == Live(k, LiveOn(k, l, moves), m)
  {
    assert (moves + [m])[..|moves|] == moves;
  }

  /** Two commitments, the second of which is not persisted, and the secret of the first. */
  lemma ReleasedUnpersisted(k: Crypto, first: CommitmentInfo, second: CommitmentInfo)
    ensures var a := Ask(ValidateHolder(0, first, [], GOOD));
            var b := Ask(ValidateHolder(1, second, [], GOOD.(persisted := false)));
            var e := NewState().(nextHolder := 1, holderInfo := Some(first), holderSigs := Some([]));
            Live(k, Live(k, Live(k, Birth(), a), b), Ask(ReleaseSecret(0))) ==
            Life(e.(nextHolder := 2, holderInfo := Some(second)), e, [SecretReleased(0)])
  {
    var a := Ask(ValidateHolder(0, first, [], GOOD));
    var e := NewState().(nextHolder := 1, holderInfo := Some(first), holderSigs := Some([]));
    ValidatePasses(NewState(), 0, first, GOOD);
    assert Live(k, Birth(), a) == Life(e, e, []);
    ValidatePasses(e, 1, second, GOOD.(persisted := false));
  }

  /** A life in which the first commitment is revoked and, after a restart, signed. */
  lemma RevokedThenSigned(k: Crypto, first: CommitmentInfo, second: CommitmentInfo)
    ensures Conflict(LiveOn(k, Birth(), [Ask(ValidateHolder(0, first, [], GOOD)),
                                         Ask(ValidateHolder(1, second, [], GOOD.(persisted := false))),
                                         Ask(ReleaseSecret(0)), Restart, Ask(SignHolder(0, GOOD))]))
  {
    var a, b := Ask(ValidateHolder(0, first, [], GOOD)), Ask(ValidateHolder(1, second, [], GOOD.(persisted := false)));
    var c, d := Ask(ReleaseSecret(0)), Ask(SignHolder(0, GOOD));
    assert [a] + [b] == [a, b] && [a, b] + [c] == [a, b, c];
    assert [a, b, c] + [Restart] == [a, b, c, Restart] && [a, b, c, Restart] + [d] == [a, b, c, Restart, d];
    One(k, Birth(), a);
    LiveThen(k, Birth(), [a], b);
    LiveThen(k, Birth(), [a, b], c);
    LiveThen(k, Birth(), [a, b, c], Restart);
    LiveThen(k, Birth(), [a, b, c, Restart], d);
    ReleasedUnpersisted(k, first, second);
    SignNow(k, LiveOn(k, Birth(), [a, b, c, Restart]), 0);
    var out := LiveOn(k, Birth(), [a, b, c, Restart, d]).out;
    assert SecretReleased(0) in out && HolderSigned(0, first, true) in out;
  }
}
