/** The monitor under reorganisations: what it knows depends only on the chain that survives. */
module Reorg {
  import opened Wrappers
  import opened Monitor

  type Block = seq<BlockTx>

  // ---------- counting what a block holds ----------

  function SpendsIn(f: Funding, inputs: seq<TxIn>): nat {
    if inputs == [] then 0
    else SpendsIn(f, inputs[..|inputs| - 1]) + if inputs[|inputs| - 1].previousOutput in f.inputs then 1 else 0
  }

  /** How many funding inputs the block spends. */
  function Spends(f: Funding, txs: Block): nat {
    if txs == [] then 0 else Spends(f, txs[..|txs| - 1]) + SpendsIn(f, txs[|txs| - 1].tx.inputs)
  }

  /** How many funding transactions the block confirms. */
  function Confirms(f: Funding, txs: Block): nat {
    if txs == [] then 0 else Confirms(f, txs[..|txs| - 1]) + if txs[|txs| - 1].txid in f.txids then 1 else 0
  }

  /** How many transactions of the block spend the given output. */
  function Closings(op: Option<OutPoint>, txs: Block): nat {
    if txs == [] then 0 else Closings(op, txs[..|txs| - 1]) + if Closes(op, txs[|txs| - 1].tx) then 1 else 0
  }

  /** The funding output that the block confirms, the last one if there are several. */
  function ConfirmedIn(f: Funding, txs: Block): (r: Option<OutPoint>)
    requires f.Valid()
    ensures r.Some? <==> Confirms(f, txs) > 0
  {
    if txs == [] then None
    else
      var t := txs[|txs| - 1];
      if t.txid in f.txids then Some(OutPoint(t.txid, f.vouts[Position(f.txids, t.txid)]))
      else ConfirmedIn(f, txs[..|txs| - 1])
  }

  datatype Tally = Tally(spends: nat, confirms: nat, closings: nat, outpoint: Option<OutPoint>)

  /** The same counts over a change list. */
  function Count(changes: seq<StateChange>): Tally {
    if changes == [] then Tally(0, 0, 0, None)
    else
      var t := Count(changes[..|changes| - 1]);
      match changes[|changes| - 1]
      case FundingConfirmed(op) => t.(confirms := t.confirms + 1, outpoint := Some(op))
      case FundingDoubleSpent(_) => t.(spends := t.spends + 1)
      case ClosingConfirmed(_, _) => t.(closings := t.closings + 1)
  }

  function Plus(a: Tally, b: Tally): Tally {
    Tally(a.spends + b.spends, a.confirms + b.confirms, a.closings + b.closings,
          if b.outpoint.Some? then b.outpoint else a.outpoint)
  }

  lemma {:induction false} CountAppend(a: seq<StateChange>, b: seq<StateChange>)
    ensures Count(a + b) == Plus(Count(a), Count(b))
    decreases b
  {
    if b == [] {
      assert a + b == a;
    } else {
      var n := |b| - 1;
      var c := a + b;
      CountAppend(a, b[..n]);
      assert c[..|c| - 1] == a + b[..n] && c[|c| - 1] == b[n];
    }
  }

  lemma {:induction false} CountSpends(f: Funding, inputs: seq<TxIn>)
    ensures Count(SpendChanges(f, inputs)) == Tally(SpendsIn(f, inputs), 0, 0, None)
  {
    if inputs != [] {
      var n := |inputs| - 1;
      CountSpends(f, inputs[..n]);
      var before := SpendChanges(f, inputs[..n]);
      var prev := inputs[n].previousOutput;
      if prev in f.inputs {
        assert (before + [FundingDoubleSpent(prev)])[..|before|] == before;
      } else {
        assert before + [] == before;
      }
    }
  }

  lemma CountOne(c: StateChange)
    ensures Count([c]) == match c
                          case FundingConfirmed(op) => Tally(0, 1, 0, Some(op))
                          case FundingDoubleSpent(_) => Tally(1, 0, 0, None)
                          case ClosingConfirmed(_, _) => Tally(0, 0, 1, None)
  {
    assert [c][..0] == [];
  }

  lemma CountTx(f: Funding, op: Option<OutPoint>, t: BlockTx)
    requires f.Valid()
    ensures Count(TxChanges(f, op, t)) ==
            Tally(SpendsIn(f, t.tx.inputs), if t.txid in f.txids then 1 else 0, if Closes(op, t.tx) then 1 else 0,
                  if t.txid in f.txids then Some(OutPoint(t.txid, f.vouts[Position(f.txids, t.txid)])) else None)
  {
    var spends := SpendChanges(f, t.tx.inputs);
    var confirmed := if t.txid in f.txids
                     then [FundingConfirmed(OutPoint(t.txid, f.vouts[Position(f.txids, t.txid)]))] else [];
    var closed := if Closes(op, t.tx) then [ClosingConfirmed(t.txid, t.tx)] else [];
    CountSpends(f, t.tx.inputs);
    CountAppend(spends, confirmed);
    CountAppend(spends + confirmed, closed);
    if t.txid in f.txids { CountOne(confirmed[0]); }
    if Closes(op, t.tx) { CountOne(closed[0]); }
  }

  lemma {:induction false} CountBlock(f: Funding, op: Option<OutPoint>, txs: Block)
    requires f.Valid()
    ensures Count(BlockChanges(f, op, txs)) ==
            Tally(Spends(f, txs), Confirms(f, txs), Closings(op, txs), ConfirmedIn(f, txs))
  {
    if txs != [] {
      var n := |txs| - 1;
      CountBlock(f, op, txs[..n]);
      CountAppend(BlockChanges(f, op, txs[..n]), TxChanges(f, op, txs[n]));
      CountTx(f, op, txs[n]);
    }
  }

  lemma {:induction false} HasConfirmationIff(changes: seq<StateChange>)
    ensures HasConfirmation(changes) <==> Count(changes).confirms > 0
  {
    if changes != [] {
      var n := |changes| - 1;
      HasConfirmationIff(changes[..n]);
      if HasConfirmation(changes[..n]) {
        var i :| 0 <= i < n && changes[..n][i].FundingConfirmed?;
        assert changes[i].FundingConfirmed?;
      }
      if HasConfirmation(changes) {
        var i :| 0 <= i <= n && changes[i].FundingConfirmed?;
        assert i < n ==> changes[..n][i].FundingConfirmed?;
      }
    }
  }

  // ---------- the end of a block in terms of the counts ----------

  ghost predicate SingleInputs(changes: seq<StateChange>) {
    forall i | 0 <= i < |changes| && changes[i].ClosingConfirmed? :: |changes[i].tx.inputs| == 1
  }

  function AddTally(s: Facts, t: Tally): Outcome<Facts> {
    if t.confirms > 0 then
      if s.doubleSpentHeight.Some? then Panic
      else Done(s.(fundingHeight := Some(s.height), fundingOutpoint := t.outpoint,
                   closingHeight := if t.closings > 0 then Some(s.height) else s.closingHeight))
    else if t.spends > 0 && s.fundingHeight.Some? then Panic
    else Done(s.(doubleSpentHeight := if t.spends > 0 && s.doubleSpentHeight.None? then Some(s.height)
                                      else s.doubleSpentHeight,
                 closingHeight := if t.closings > 0 then Some(s.height) else s.closingHeight))
  }

  lemma {:induction false} AddChangesTally(s: Facts, changes: seq<StateChange>)
    requires SingleInputs(changes)
    ensures AddChanges(s, changes, HasConfirmation(changes)) == AddTally(s, Count(changes))
  {
    HasConfirmationIff(changes);
    if HasConfirmation(changes) {
      AddConfirming(s, changes);
    } else {
      AddOthers(s, changes);
    }
  }

  /** In a confirming block the spends of funding inputs are passed over. */
  lemma {:induction false} AddConfirming(s: Facts, changes: seq<StateChange>)
    requires SingleInputs(changes)
    ensures AddChanges(s, changes, true) ==
            var t := Count(changes);
            if t.confirms > 0 then AddTally(s, t)
            else Done(s.(closingHeight := if t.closings > 0 then Some(s.height) else s.closingHeight))
  {
    if changes != [] {
      AddConfirming(s, changes[..|changes| - 1]);
    }
  }

  lemma {:induction false} AddOthers(s: Facts, changes: seq<StateChange>)
    requires SingleInputs(changes) && Count(changes).confirms == 0
    ensures AddChanges(s, changes, false) == AddTally(s, Count(changes))
  {
    if changes != [] {
      AddOthers(s, changes[..|changes| - 1]);
    }
  }

  /** What taking a block back does; it can fail in more ways than adding it. */
  function RemoveTally(s: Facts, t: Tally): Outcome<Facts> {
    if t.closings > 0 && (t.closings > 1 || s.closingHeight != Some(s.height)) then Panic
    else
      var s' := if t.closings > 0 then s.(closingHeight := None) else s;
      if t.confirms > 0 then
        if t.confirms > 1 || s.fundingHeight != Some(s.height) then Panic
        else Done(s'.(fundingHeight := None, fundingOutpoint := None))
      else if t.spends > 0 && s.doubleSpentHeight.None? then Panic
      else if t.spends > 1 && s.doubleSpentHeight == Some(s.height) then Panic
      else Done(s'.(doubleSpentHeight := if t.spends > 0 && s.doubleSpentHeight == Some(s.height) then None
                                         else s.doubleSpentHeight))
  }

  lemma {:induction false} RemoveChangesTally(s: Facts, changes: seq<StateChange>)
    requires SingleInputs(changes)
    ensures RemoveChanges(s, changes, HasConfirmation(changes)) == RemoveTally(s, Count(changes))
  {
    HasConfirmationIff(changes);
    if HasConfirmation(changes) {
      RemoveConfirming(s, changes);
    } else {
      RemoveOthers(s, changes);
    }
  }

  lemma {:induction false} RemoveConfirming(s: Facts, changes: seq<StateChange>)
    requires SingleInputs(changes)
    ensures RemoveChanges(s, changes, true) == RemoveTally(s, Count(changes).(spends := 0))
  {
    if changes != [] {
      RemoveConfirming(s, changes[..|changes| - 1]);
    }
  }

  lemma {:induction false} RemoveOthers(s: Facts, changes: seq<StateChange>)
    requires SingleInputs(changes) && Count(changes).confirms == 0
    ensures RemoveChanges(s, changes, false) == RemoveTally(s, Count(changes))
  {
    if changes != [] {
      RemoveOthers(s, changes[..|changes| - 1]);
    }
  }

  lemma {:induction false} SpendsHaveNoClosing(f: Funding, inputs: seq<TxIn>)
    ensures SingleInputs(SpendChanges(f, inputs))
  {
    if inputs != [] {
      SpendsHaveNoClosing(f, inputs[..|inputs| - 1]);
    }
  }

  lemma {:induction false} BlockSingleInputs(f: Funding, op: Option<OutPoint>, txs: Block)
    requires f.Valid() && WellFormed(f, op, txs)
    ensures SingleInputs(BlockChanges(f, op, txs))
  {
    if txs != [] {
      var n := |txs| - 1;
      BlockSingleInputs(f, op, txs[..n]);
      SpendsHaveNoClosing(f, txs[n].tx.inputs);
      assert WellFormedTx(f, op, txs[n]);
    }
  }

  function BlockTally(f: Funding, op: Option<OutPoint>, txs: Block): Tally
    requires f.Valid()
  {
    Tally(Spends(f, txs), Confirms(f, txs), Closings(op, txs), ConfirmedIn(f, txs))
  }

  /** Adding and removing a block, in terms of what the block holds. */
  lemma BlockByTally(f: Funding, s: Facts, txs: Block)
    requires f.Valid() && WellFormed(f, s.fundingOutpoint, txs)
    ensures Add(f, s, txs) == AddTally(s.(height := s.height + 1), BlockTally(f, s.fundingOutpoint, txs))
    ensures Remove(f, s, txs) ==
            var s' := RemoveTally(s, BlockTally(f, s.fundingOutpoint, txs));
            if s'.Panic? || s.height == 0 then Panic else Done(s'.value.(height := s.height - 1))
  {
    var changes := BlockChanges(f, s.fundingOutpoint, txs);
    CountBlock(f, s.fundingOutpoint, txs);
    BlockSingleInputs(f, s.fundingOutpoint, txs);
    AddChangesTally(s.(height := s.height + 1), changes);
    RemoveChangesTally(s, changes);
  }

  // ---------- exactly when adding a block can be undone ----------

  /** What every followed chain keeps: no event above the tip, an outpoint exactly while funding is confirmed. */
  ghost predicate Sane(s: Facts) {
    && (s.fundingOutpoint.Some? <==> s.fundingHeight.Some?)
    && (s.fundingHeight.Some? ==> s.fundingHeight.value <= s.height)
    && (s.doubleSpentHeight.Some? ==> s.doubleSpentHeight.value <= s.height)
    && (s.closingHeight.Some? ==> s.closingHeight.value <= s.height)
  }

  /**
   The block confirms at most one funding transaction, and then on an unfunded, unspent channel whose
   output it does not spend itself; otherwise it spends funding inputs only before the funding, one at
   most if it is the first to do so, and closes the channel once, if it was not closed.
   */
  predicate Reversible(f: Funding, s: Facts, txs: Block)
    requires f.Valid()
  {
    && WellFormed(f, s.fundingOutpoint, txs)
    && if Confirms(f, txs) == 0 then
         && (Spends(f, txs) > 0 ==> s.fundingHeight.None? && (Spends(f, txs) == 1 || s.doubleSpentHeight.Some?))
         && (Closings(s.fundingOutpoint, txs) > 0 ==>
               Closings(s.fundingOutpoint, txs) == 1 && s.closingHeight.None?)
       else
         && Confirms(f, txs) == 1
         && s.fundingHeight.None? && s.doubleSpentHeight.None?
         && Closings(ConfirmedIn(f, txs), txs) == 0
  }

  lemma {:induction false} NoClosings(op: Option<OutPoint>, txs: Block)
    requires Closings(op, txs) == 0
    ensures forall i | 0 <= i < |txs| :: !Closes(op, txs[i].tx)
  {
    if txs != [] {
      NoClosings(op, txs[..|txs| - 1]);
    }
  }

  lemma {:induction false} NothingToClose(txs: Block)
    ensures Closings(None, txs) == 0
  {
    if txs != [] {
      NothingToClose(txs[..|txs| - 1]);
    }
  }

  lemma WellFormedWithout(f: Funding, op: Option<OutPoint>, op': Option<OutPoint>, txs: Block)
    requires f.Valid() && WellFormed(f, op, txs) && Closings(op', txs) == 0
    ensures WellFormed(f, op', txs)
  {
    NoClosings(op', txs);
    forall i | 0 <= i < |txs|
      ensures WellFormedTx(f, op', txs[i])
    {
      assert WellFormedTx(f, op, txs[i]);
    }
  }

  function AddThenRemove(f: Funding, s: Facts, txs: Block): Outcome<Facts>
    requires f.Valid()
  {
    var s' := Add(f, s, txs);
    if s'.Panic? then Panic else Remove(f, s'.value, txs)
  }

  lemma PlainTallies(s: Facts, t: Tally)
    requires Sane(s) && t.confirms == 0
    ensures var up := s.(height := s.height + 1);
            var added := AddTally(up, t);
            (added.Done? && RemoveTally(added.value, t) == Done(up)) <==>
            && (t.spends > 0 ==> s.fundingHeight.None? && (t.spends == 1 || s.doubleSpentHeight.Some?))
            && (t.closings > 0 ==> t.closings == 1 && s.closingHeight.None?)
  {
  }

  lemma UndoPlain(f: Funding, s: Facts, txs: Block)
    requires f.Valid() && Sane(s) && WellFormed(f, s.fundingOutpoint, txs) && Confirms(f, txs) == 0
    ensures AddThenRemove(f, s, txs) == Done(s) <==> Reversible(f, s, txs)
  {
    var t := BlockTally(f, s.fundingOutpoint, txs);
    PlainTallies(s, t);
    assert Add(f, s, txs) == AddTally(s.(height := s.height + 1), t) by {
      BlockByTally(f, s, txs);
    }
    var s' := Add(f, s, txs);
    if s'.Done? {
      RemoveGives(f, s, s'.value, txs);
    }
  }

  /** Whether removing a well-formed block from one state gives another, in terms of what the block holds. */
  lemma RemoveGives(f: Funding, s: Facts, s': Facts, txs: Block)
    requires f.Valid() && WellFormed(f, s'.fundingOutpoint, txs) && s'.height == s.height + 1
    ensures Remove(f, s', txs) == Done(s) <==>
            RemoveTally(s', BlockTally(f, s'.fundingOutpoint, txs)) == Done(s.(height := s.height + 1))
  {
    BlockByTally(f, s', txs);
    RemoveKeepsHeight(s', BlockTally(f, s'.fundingOutpoint, txs));
  }

  lemma RemoveKeepsHeight(s: Facts, t: Tally)
    ensures RemoveTally(s, t).Done? ==> RemoveTally(s, t).value.height == s.height
  {
  }

  lemma ConfirmingTallies(s: Facts, t: Tally, closings: nat)
    requires Sane(s) && t.confirms > 0 && t.outpoint.Some? && (s.fundingOutpoint.None? ==> t.closings == 0)
    ensures var up := s.(height := s.height + 1);
            var added := AddTally(up, t);
            (added.Done? && RemoveTally(added.value, t.(closings := closings)) == Done(up)) <==>
            (t.confirms == 1 && s.fundingHeight.None? && s.doubleSpentHeight.None? && closings == 0)
  {
  }

  lemma UndoConfirming(f: Funding, s: Facts, txs: Block)
    requires f.Valid() && Sane(s) && WellFormed(f, s.fundingOutpoint, txs) && Confirms(f, txs) > 0
    ensures AddThenRemove(f, s, txs) == Done(s) <==> Reversible(f, s, txs)
  {
    var t := BlockTally(f, s.fundingOutpoint, txs);
    var closings := Closings(ConfirmedIn(f, txs), txs);
    assert Add(f, s, txs) == AddTally(s.(height := s.height + 1), t) by {
      BlockByTally(f, s, txs);
    }
    NothingToClose(txs);
    ConfirmingTallies(s, t, closings);
    var s' := Add(f, s, txs);
    if s'.Done? {
      RemoveConfirmingBlock(f, s, s'.value, txs);
    }
  }

  lemma RemoveConfirmingBlock(f: Funding, s: Facts, s': Facts, txs: Block)
    requires f.Valid() && WellFormed(f, s.fundingOutpoint, txs)
    requires s'.fundingOutpoint == ConfirmedIn(f, txs) && s'.height == s.height + 1
    ensures var closings := Closings(ConfirmedIn(f, txs), txs);
            var r := RemoveTally(s', BlockTally(f, s.fundingOutpoint, txs).(closings := closings));
            (Remove(f, s', txs) == Done(s) <==>
             r == Done(s.(height := s.height + 1)) && WellFormed(f, ConfirmedIn(f, txs), txs))
            && (closings == 0 ==> WellFormed(f, ConfirmedIn(f, txs), txs))
  {
    if Closings(ConfirmedIn(f, txs), txs) == 0 {
      WellFormedWithout(f, s.fundingOutpoint, ConfirmedIn(f, txs), txs);
    }
    if WellFormed(f, ConfirmedIn(f, txs), txs) {
      RemoveGives(f, s, s', txs);
    }
  }

  /** A block can be added and taken back, with no assertion failing, exactly when it is reversible. */
  lemma UndoIff(f: Funding, s: Facts, txs: Block)
    requires f.Valid() && Sane(s)
    ensures AddThenRemove(f, s, txs) == Done(s) <==> Reversible(f, s, txs)
  {
    if WellFormed(f, s.fundingOutpoint, txs) {
      if Confirms(f, txs) == 0 {
        UndoPlain(f, s, txs);
      } else {
        UndoConfirming(f, s, txs);
      }
    }
  }

  /** A channel funded and closed in one block is not seen as closed, and removing that block crashes. */
  lemma SameBlockCloseCrashes(f: Funding, s: Facts, txs: Block)
    requires f.Valid() && Sane(s) && WellFormed(f, s.fundingOutpoint, txs)
    requires s.fundingHeight.None? && s.doubleSpentHeight.None?
    requires Confirms(f, txs) == 1 && Closings(ConfirmedIn(f, txs), txs) > 0
    ensures Add(f, s, txs) == Done(s.(height := s.height + 1, fundingHeight := Some(s.height + 1),
                                      fundingOutpoint := ConfirmedIn(f, txs)))
    ensures AddThenRemove(f, s, txs).Panic?
  {
    BlockByTally(f, s, txs);
    NothingToClose(txs);
    var s' := Add(f, s, txs).value;
    if WellFormed(f, s'.fundingOutpoint, txs) {
      BlockByTally(f, s', txs);
    }
  }

  /** The smallest such block: a funding transaction and the transaction that spends it. */
  lemma SameBlockCloseExample(h0: nat)
    ensures var f := Funding([[1]], [0], {});
            var funding := BlockTx([1], Transaction(2, 0, [], [TxOut(1000, [])]));
            var closing := BlockTx([2], Transaction(2, 0, [TxIn(OutPoint([1], 0), [], 0)], []));
            var s := Facts(h0, None, None, None, None);
            Add(f, s, [funding, closing]).Done? && AddThenRemove(f, s, [funding, closing]).Panic?
  {
    var f := Funding([[1]], [0], {});
    var funding := BlockTx([1], Transaction(2, 0, [], [TxOut(1000, [])]));
    var closing := BlockTx([2], Transaction(2, 0, [TxIn(OutPoint([1], 0), [], 0)], []));
    var s := Facts(h0, None, None, None, None);
    var txs := [funding, closing];
    assert txs[..1] == [funding] && [funding][..0] == [];
    assert Some(closing.tx.inputs[0].previousOutput) == Some(OutPoint([1], 0));
    assert ConfirmedIn(f, [funding]) == Some(OutPoint([1], 0)) && ConfirmedIn(f, txs) == Some(OutPoint([1], 0));
    assert Confirms(f, [funding]) == 1 && Confirms(f, txs) == 1;
    assert Closes(Some(OutPoint([1], 0)), closing.tx);
    SameBlockCloseCrashes(f, s, txs);
  }

  /** Two funding inputs double-spent in one block: adding it works, removing it crashes. */
  lemma TwoSpendsCrash(f: Funding, s: Facts, txs: Block)
    requires f.Valid() && Sane(s) && WellFormed(f, s.fundingOutpoint, txs)
    requires s.fundingHeight.None? && s.doubleSpentHeight.None?
    requires Confirms(f, txs) == 0 && Spends(f, txs) >= 2
    ensures Add(f, s, txs) == Done(s.(height := s.height + 1, doubleSpentHeight := Some(s.height + 1)))
    ensures AddThenRemove(f, s, txs).Panic?
  {
    BlockByTally(f, s, txs);
    NothingToClose(txs);
    BlockByTally(f, Add(f, s, txs).value, txs);
  }

  /** The smallest such block: one transaction that spends both inputs of a funding that is never seen. */
  lemma TwoSpendsExample(h0: nat)
    ensures var a, b := OutPoint([3], 0), OutPoint([4], 0);
            var f := Funding([[1]], [0], {a, b});
            var spend := BlockTx([2], Transaction(2, 0, [TxIn(a, [], 0), TxIn(b, [], 0)], []));
            var s := Facts(h0, None, None, None, None);
            Add(f, s, [spend]).Done? && AddThenRemove(f, s, [spend]).Panic?
  {
    var a, b := OutPoint([3], 0), OutPoint([4], 0);
    var f := Funding([[1]], [0], {a, b});
    var inputs := [TxIn(a, [], 0), TxIn(b, [], 0)];
    var spend := BlockTx([2], Transaction(2, 0, inputs, []));
    var s := Facts(h0, None, None, None, None);
    assert inputs[..1] == [inputs[0]] && [inputs[0]][..0] == [] && [spend][..0] == [];
    assert SpendsIn(f, [inputs[0]]) == 1 && SpendsIn(f, inputs) == 2;
    assert spend.txid !in f.txids by { assert f.txids[0] == [1]; assert spend.txid == [2]; }
    TwoSpendsCrash(f, s, [spend]);
  }

  // ---------- what a chain says ----------

  /** The first block that confirms the funding. */
  function FirstConfirm(f: Funding, chain: seq<Block>): (r: Option<nat>)
    ensures r.Some? ==> r.value < |chain| && Confirms(f, chain[r.value]) > 0
    ensures forall i | 0 <= i < (if r.Some? then r.value else |chain|) :: Confirms(f, chain[i]) == 0
  {
    if chain == [] then None
    else
      var n := |chain| - 1;
      var r := FirstConfirm(f, chain[..n]);
      if r.Some? then r else if Confirms(f, chain[n]) > 0 then Some(n) else None
  }

  /** The first block that spends a funding input without confirming the funding. */
  function FirstDoubleSpend(f: Funding, chain: seq<Block>): (r: Option<nat>)
    ensures r.Some? ==> r.value < |chain| && Spends(f, chain[r.value]) > 0 && Confirms(f, chain[r.value]) == 0
    ensures forall i | 0 <= i < (if r.Some? then r.value else |chain|) ::
              Spends(f, chain[i]) == 0 || Confirms(f, chain[i]) > 0
  {
    if chain == [] then None
    else
      var n := |chain| - 1;
      var r := FirstDoubleSpend(f, chain[..n]);
      if r.Some? then r
      else if Spends(f, chain[n]) > 0 && Confirms(f, chain[n]) == 0 then Some(n) else None
  }

  function FundingOutput(f: Funding, chain: seq<Block>): Option<OutPoint>
    requires f.Valid()
  {
    var i := FirstConfirm(f, chain);
    if i.Some? then ConfirmedIn(f, chain[i.value]) else None
  }

  /** The first block that spends the funding output of the blocks before it. */
  function FirstClosing(f: Funding, chain: seq<Block>): (r: Option<nat>)
    requires f.Valid()
    ensures r.Some? ==> r.value < |chain|
  {
    if chain == [] then None
    else
      var n := |chain| - 1;
      var r := FirstClosing(f, chain[..n]);
      if r.Some? then r
      else if Closings(FundingOutput(f, chain[..n]), chain[n]) > 0 then Some(n) else None
  }

  /** It closes, and no block before it does. */
  lemma {:induction false} FirstClosingIsFirst(f: Funding, chain: seq<Block>, i: nat)
    requires f.Valid() && i < |chain|
    requires FirstClosing(f, chain).Some? ==> i <= FirstClosing(f, chain).value
    ensures Closings(FundingOutput(f, chain[..i]), chain[i]) > 0 <==> FirstClosing(f, chain) == Some(i)
    decreases |chain|
  {
    var n := |chain| - 1;
    if i < n {
      FirstClosingIsFirst(f, chain[..n], i);
      assert chain[..n][..i] == chain[..i];
    }
  }

  /** The height of the i-th block of a chain that starts above height h0. */
  function HeightOf(h0: nat, i: Option<nat>): Option<nat> {
    if i.Some? then Some(h0 + 1 + i.value) else None
  }

  /** What a monitor that started at height h0 should know about a chain. */
  function Known(f: Funding, h0: nat, chain: seq<Block>): Facts
    requires f.Valid()
  {
    Facts(h0 + |chain|, HeightOf(h0, FirstConfirm(f, chain)), FundingOutput(f, chain),
          HeightOf(h0, FirstDoubleSpend(f, chain)), HeightOf(h0, FirstClosing(f, chain)))
  }

  lemma KnownSane(f: Funding, h0: nat, chain: seq<Block>)
    requires f.Valid()
    ensures Sane(Known(f, h0, chain))
  {
  }

  /** Every block of the chain is reversible on top of the ones before it. */
  predicate ValidChain(f: Funding, h0: nat, chain: seq<Block>)
    requires f.Valid()
  {
    chain == [] ||
    var n := |chain| - 1;
    ValidChain(f, h0, chain[..n]) && Reversible(f, Known(f, h0, chain[..n]), chain[n])
  }

  /** One more block, field by field. */
  function KnownAfter(f: Funding, s: Facts, txs: Block): Facts
    requires f.Valid()
  {
    var up := s.height + 1;
    Facts(up,
          if s.fundingHeight.Some? then s.fundingHeight else if Confirms(f, txs) > 0 then Some(up) else None,
          if s.fundingHeight.Some? then s.fundingOutpoint else ConfirmedIn(f, txs),
          if s.doubleSpentHeight.Some? then s.doubleSpentHeight
          else if Spends(f, txs) > 0 && Confirms(f, txs) == 0 then Some(up) else None,
          if s.closingHeight.Some? then s.closingHeight
          else if Closings(s.fundingOutpoint, txs) > 0 then Some(up) else None)
  }

  lemma OutputUnfold(f: Funding, chain: seq<Block>)
    requires f.Valid() && chain != []
    ensures var n := |chain| - 1;
            FundingOutput(f, chain) == if FirstConfirm(f, chain[..n]).Some? then FundingOutput(f, chain[..n])
                                       else ConfirmedIn(f, chain[n])
  {
    var prior := chain[..|chain| - 1];
    var i := FirstConfirm(f, prior);
    if i.Some? {
      assert prior[i.value] == chain[i.value];
    }
  }

  lemma ClosingUnfold(f: Funding, chain: seq<Block>)
    requires f.Valid() && chain != []
    ensures var n := |chain| - 1;
            FirstClosing(f, chain) == if FirstClosing(f, chain[..n]).Some? then FirstClosing(f, chain[..n])
                                      else if Closings(FundingOutput(f, chain[..n]), chain[n]) > 0 then Some(n)
                                      else None
  {
  }

  lemma FundingUnfold(f: Funding, h0: nat, chain: seq<Block>)
    requires f.Valid() && chain != []
    ensures var after := KnownAfter(f, Known(f, h0, chain[..|chain| - 1]), chain[|chain| - 1]);
            && HeightOf(h0, FirstConfirm(f, chain)) == after.fundingHeight
            && FundingOutput(f, chain) == after.fundingOutpoint
  {
    OutputUnfold(f, chain);
  }

  lemma SpendUnfold(f: Funding, chain: seq<Block>)
    requires chain != []
    ensures var n := |chain| - 1;
            FirstDoubleSpend(f, chain) == if FirstDoubleSpend(f, chain[..n]).Some? then FirstDoubleSpend(f, chain[..n])
                                          else if Spends(f, chain[n]) > 0 && Confirms(f, chain[n]) == 0 then Some(n)
                                          else None
  {
  }

  lemma KnownUnfold(f: Funding, h0: nat, chain: seq<Block>)
    requires f.Valid() && chain != []
    ensures Known(f, h0, chain) == KnownAfter(f, Known(f, h0, chain[..|chain| - 1]), chain[|chain| - 1])
  {
    FundingUnfold(f, h0, chain);
    SpendUnfold(f, chain);
    ClosingUnfold(f, chain);
  }

  lemma AddReversible(f: Funding, s: Facts, txs: Block)
    requires f.Valid() && Sane(s) && Reversible(f, s, txs)
    ensures Add(f, s, txs) == Done(KnownAfter(f, s, txs))
  {
    BlockByTally(f, s, txs);
    NothingToClose(txs);
  }

  /** Adding a reversible block gives what the longer chain says. */
  lemma KnownStep(f: Funding, h0: nat, chain: seq<Block>)
    requires f.Valid() && chain != []
    requires Reversible(f, Known(f, h0, chain[..|chain| - 1]), chain[|chain| - 1])
    ensures Add(f, Known(f, h0, chain[..|chain| - 1]), chain[|chain| - 1]) == Done(Known(f, h0, chain))
  {
    var prior := Known(f, h0, chain[..|chain| - 1]);
    KnownSane(f, h0, chain[..|chain| - 1]);
    AddReversible(f, prior, chain[|chain| - 1]);
    KnownUnfold(f, h0, chain);
  }

  /** Removing the tip of a valid chain gives what the shorter chain says. */
  lemma KnownBack(f: Funding, h0: nat, chain: seq<Block>)
    requires f.Valid() && chain != []
    requires Reversible(f, Known(f, h0, chain[..|chain| - 1]), chain[|chain| - 1])
    ensures Remove(f, Known(f, h0, chain), chain[|chain| - 1]) == Done(Known(f, h0, chain[..|chain| - 1]))
  {
    KnownSane(f, h0, chain[..|chain| - 1]);
    KnownStep(f, h0, chain);
    UndoIff(f, Known(f, h0, chain[..|chain| - 1]), chain[|chain| - 1]);
  }

  // ---------- ordinary chains are valid ----------

  /** The output of the one funding transaction that is watched. */
  function Watched(f: Funding): Option<OutPoint>
    requires f.Valid() && |f.txids| == 1
  {
    Some(OutPoint(f.txids[0], f.vouts[0]))
  }

  /**
   The funding confirms at most once, its output is spent at most once, in a later block and by a
   transaction with one input, and its inputs are spent elsewhere only on a chain that never confirms
   it, at most one per block.
   */
  ghost predicate OrdinaryChain(f: Funding, chain: seq<Block>)
    requires f.Valid() && |f.txids| == 1
  {
    && (forall j | 0 <= j < |chain| :: OrdinaryBlock(f, chain[j]))
    && (forall i, j | 0 <= i < j < |chain| :: Confirms(f, chain[i]) == 0 || Confirms(f, chain[j]) == 0)
    && (forall i, j | 0 <= i < j < |chain| ::
          Closings(Watched(f), chain[i]) == 0 || Closings(Watched(f), chain[j]) == 0)
    && (forall j | 0 <= j < |chain| && Closings(Watched(f), chain[j]) > 0 :: ConfirmedBefore(f, chain, j))
    && (forall i, j | 0 <= i < |chain| && 0 <= j < |chain| && DoubleSpends(f, chain[i]) :: Confirms(f, chain[j]) == 0)
  }

  ghost predicate OrdinaryBlock(f: Funding, txs: Block)
    requires f.Valid() && |f.txids| == 1
  {
    && WellFormed(f, Watched(f), txs)
    && Confirms(f, txs) <= 1 && Closings(Watched(f), txs) <= 1
    && (DoubleSpends(f, txs) ==> Spends(f, txs) == 1)
  }

  ghost predicate DoubleSpends(f: Funding, txs: Block) {
    Spends(f, txs) > 0 && Confirms(f, txs) == 0
  }

  ghost predicate ConfirmedBefore(f: Funding, chain: seq<Block>, j: nat)
    requires j <= |chain|
  {
    exists i | 0 <= i < j :: Confirms(f, chain[i]) > 0
  }

  lemma {:induction false} ConfirmsWatched(f: Funding, txs: Block)
    requires f.Valid() && |f.txids| == 1
    ensures Confirms(f, txs) > 0 ==> ConfirmedIn(f, txs) == Watched(f)
  {
    if txs != [] {
      ConfirmsWatched(f, txs[..|txs| - 1]);
    }
  }

  lemma OutputIsWatched(f: Funding, chain: seq<Block>)
    requires f.Valid() && |f.txids| == 1
    ensures FundingOutput(f, chain) == if FirstConfirm(f, chain).Some? then Watched(f) else None
  {
    var i := FirstConfirm(f, chain);
    if i.Some? {
      ConfirmsWatched(f, chain[i.value]);
    }
  }

  lemma OrdinaryWellFormed(f: Funding, chain: seq<Block>, txs: Block)
    requires f.Valid() && |f.txids| == 1 && OrdinaryBlock(f, txs)
    ensures WellFormed(f, FundingOutput(f, chain), txs)
  {
    OutputIsWatched(f, chain);
    NothingToClose(txs);
    if FirstConfirm(f, chain).None? {
      WellFormedWithout(f, Watched(f), None, txs);
    }
  }

  lemma OrdinaryConfirming(f: Funding, h0: nat, chain: seq<Block>, n: nat)
    requires f.Valid() && |f.txids| == 1 && OrdinaryChain(f, chain) && n < |chain| && Confirms(f, chain[n]) > 0
    ensures Reversible(f, Known(f, h0, chain[..n]), chain[n])
  {
    var prior := chain[..n];
    OrdinaryWellFormed(f, prior, chain[n]);
    ConfirmsWatched(f, chain[n]);
    assert OrdinaryBlock(f, chain[n]);
    assert forall k | 0 <= k < n :: prior[k] == chain[k] && Confirms(f, prior[k]) == 0 && !DoubleSpends(f, prior[k]);
  }

  lemma OrdinaryNotClosed(f: Funding, chain: seq<Block>, n: nat)
    requires f.Valid() && |f.txids| == 1 && OrdinaryChain(f, chain) && n < |chain|
    requires Closings(Watched(f), chain[n]) > 0
    ensures FirstClosing(f, chain[..n]).None?
  {
    var j := FirstClosing(f, chain[..n]);
    if j.Some? {
      FirstClosingIsFirst(f, chain[..n], j.value);
      OutputIsWatched(f, chain[..n][..j.value]);
      NothingToClose(chain[j.value]);
    }
  }

  lemma OrdinaryOther(f: Funding, h0: nat, chain: seq<Block>, n: nat)
    requires f.Valid() && |f.txids| == 1 && OrdinaryChain(f, chain) && n < |chain| && Confirms(f, chain[n]) == 0
    ensures Reversible(f, Known(f, h0, chain[..n]), chain[n])
  {
    var prior := chain[..n];
    OrdinaryWellFormed(f, prior, chain[n]);
    OutputIsWatched(f, prior);
    NothingToClose(chain[n]);
    assert OrdinaryBlock(f, chain[n]);
    var i := FirstConfirm(f, prior);
    assert i.Some? ==> prior[i.value] == chain[i.value];
    if Closings(Watched(f), chain[n]) > 0 {
      OrdinaryNotClosed(f, chain, n);
    }
  }

  lemma OrdinaryPrefix(f: Funding, chain: seq<Block>, n: nat)
    requires f.Valid() && |f.txids| == 1 && OrdinaryChain(f, chain) && n <= |chain|
    ensures OrdinaryChain(f, chain[..n])
  {
    var prior := chain[..n];
    assert forall j | 0 <= j < n :: prior[j] == chain[j];
    forall j | 0 <= j < n && Closings(Watched(f), prior[j]) > 0
      ensures ConfirmedBefore(f, prior, j)
    {
      assert ConfirmedBefore(f, chain, j);
      var i :| 0 <= i < j && Confirms(f, chain[i]) > 0;
      assert Confirms(f, prior[i]) > 0;
    }
  }

  /** Every chain that Bitcoin would call ordinary for this funding can be followed and unwound. */
  lemma {:induction false} OrdinaryIsValid(f: Funding, h0: nat, chain: seq<Block>)
    requires f.Valid() && |f.txids| == 1 && OrdinaryChain(f, chain)
    ensures ValidChain(f, h0, chain)
  {
    if chain != [] {
      var n := |chain| - 1;
      OrdinaryPrefix(f, chain, n);
      OrdinaryIsValid(f, h0, chain[..n]);
      if Confirms(f, chain[n]) > 0 {
        OrdinaryConfirming(f, h0, chain, n);
      } else {
        OrdinaryOther(f, h0, chain, n);
      }
    }
  }

  // ---------- runs of added and removed blocks ----------

  datatype Move = Connect(txs: Block, blockHash: BlockHash) | Disconnect(blockHash: BlockHash)

  /** The chain that is left; None when more blocks were removed than added. */
  function Surviving(moves: seq<Move>): Option<seq<Block>> {
    if moves == [] then Some([])
    else
      var n := |moves| - 1;
      var chain := Surviving(moves[..n]);
      if chain.None? then None
      else if moves[n].Connect? then Some(chain.value + [moves[n].txs])
      else if chain.value == [] then None
      else Some(chain.value[..|chain.value| - 1])
  }

  /** The monitor fed with every push event of every move; a removed block is streamed again. */
  function Follow(f: Funding, m: State, moves: seq<Move>): Outcome<State>
    requires f.Valid() && Surviving(moves).Some?
  {
    if moves == [] then Done(m)
    else
      var n := |moves| - 1;
      var m' := Follow(f, m, moves[..n]);
      var chain := Surviving(moves[..n]).value;
      if m'.Panic? then Panic
      else match moves[n]
           case Connect(txs, blockHash) => AddBlock(f, m'.value, txs, blockHash)
           case Disconnect(blockHash) => RemoveBlock(f, m'.value, chain[|chain| - 1], blockHash)
  }

  /** The chain is valid at every moment of the run. */
  predicate AlwaysValid(f: Funding, h0: nat, moves: seq<Move>)
    requires f.Valid()
  {
    && Surviving(moves).Some? && ValidChain(f, h0, Surviving(moves).value)
    && (moves == [] || AlwaysValid(f, h0, moves[..|moves| - 1]))
  }

  /** `ChainMonitor::new`. */
  function Fresh(h0: nat): State {
    State(Facts(h0, None, None, None, None), false, None)
  }

  lemma ConnectStep(f: Funding, h0: nat, m: State, chain: seq<Block>, txs: Block, blockHash: BlockHash)
    requires f.Valid() && ValidChain(f, h0, chain + [txs]) && m.facts == Known(f, h0, chain)
    ensures AddBlock(f, m, txs, blockHash) == Done(State(Known(f, h0, chain + [txs]), true, None))
  {
    assert (chain + [txs])[..|chain|] == chain;
    KnownStep(f, h0, chain + [txs]);
    BlocksAsPasses(f, m, txs, blockHash);
  }

  lemma DisconnectStep(f: Funding, h0: nat, m: State, chain: seq<Block>, blockHash: BlockHash)
    requires f.Valid() && chain != [] && ValidChain(f, h0, chain) && m.facts == Known(f, h0, chain)
    ensures var n := |chain| - 1;
            RemoveBlock(f, m, chain[n], blockHash) == Done(State(Known(f, h0, chain[..n]), true, None))
  {
    KnownBack(f, h0, chain);
    BlocksAsPasses(f, m, chain[|chain| - 1], blockHash);
  }

  lemma FollowStep(f: Funding, h0: nat, moves: seq<Move>)
    requires f.Valid() && moves != [] && AlwaysValid(f, h0, moves)
    requires var prior := moves[..|moves| - 1];
             && Follow(f, Fresh(h0), prior).Done?
             && Follow(f, Fresh(h0), prior).value.facts == Known(f, h0, Surviving(prior).value)
    ensures var m := Follow(f, Fresh(h0), moves);
            m == Done(State(Known(f, h0, Surviving(moves).value), true, None))
  {
    var n := |moves| - 1;
    var m := Follow(f, Fresh(h0), moves[..n]).value;
    var chain := Surviving(moves[..n]).value;
    match moves[n]
    case Connect(txs, blockHash) => ConnectStep(f, h0, m, chain, txs, blockHash);
    case Disconnect(blockHash) => DisconnectStep(f, h0, m, chain, blockHash);
  }

  /**
   After any run of added and removed blocks over valid chains no assertion has failed, and what the
   monitor knows is what the surviving chain says.
   */
  lemma {:induction false} OnlySurvivingChainCounts(f: Funding, h0: nat, moves: seq<Move>)
    requires f.Valid() && AlwaysValid(f, h0, moves)
    ensures var m := Follow(f, Fresh(h0), moves);
            m.Done? && m.value.facts == Known(f, h0, Surviving(moves).value)
  {
    if moves != [] {
      OnlySurvivingChainCounts(f, h0, moves[..|moves| - 1]);
      FollowStep(f, h0, moves);
    }
  }

  /** The chain is ordinary at every moment of the run. */
  ghost predicate AlwaysOrdinary(f: Funding, moves: seq<Move>)
    requires f.Valid() && |f.txids| == 1
  {
    && Surviving(moves).Some? && OrdinaryChain(f, Surviving(moves).value)
    && (moves == [] || AlwaysOrdinary(f, moves[..|moves| - 1]))
  }

  lemma {:induction false} OrdinaryRunsAreValid(f: Funding, h0: nat, moves: seq<Move>)
    requires f.Valid() && |f.txids| == 1 && AlwaysOrdinary(f, moves)
    ensures AlwaysValid(f, h0, moves)
  {
    OrdinaryIsValid(f, h0, Surviving(moves).value);
    if moves != [] {
      OrdinaryRunsAreValid(f, h0, moves[..|moves| - 1]);
    }
  }

  /** The number of blocks from the i-th to the tip. */
  function BlocksFrom(chain: seq<Block>, i: Option<nat>): int {
    if i.Some? then |chain| - i.value else 0
  }

  /** The reported depths count surviving blocks from the first such event, and none underflows. */
  lemma DepthsCountBlocks(f: Funding, h0: nat, moves: seq<Move>)
    requires f.Valid() && AlwaysValid(f, h0, moves)
    ensures var m, chain := Follow(f, Fresh(h0), moves), Surviving(moves).value;
            && m.Done? && Sane(m.value.facts)
            && ChainStateOf(m.value.facts) ==
               ChainState(h0 + |chain|, BlocksFrom(chain, FirstConfirm(f, chain)),
                          BlocksFrom(chain, FirstDoubleSpend(f, chain)), BlocksFrom(chain, FirstClosing(f, chain)))
            && ChainStateOf(m.value.facts).fundingDepth >= 0
            && ChainStateOf(m.value.facts).fundingDoubleSpentDepth >= 0
            && ChainStateOf(m.value.facts).closingDepth >= 0
  {
    OnlySurvivingChainCounts(f, h0, moves);
    KnownSane(f, h0, Surviving(moves).value);
  }
}
