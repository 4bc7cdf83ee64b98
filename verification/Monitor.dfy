/**
 The on-chain monitor of a channel: push events of a block are decoded into a list of changes, which
 the end of the block applies when the block is added and takes back when it is removed.
 */
module Monitor {
  import opened Wrappers

  type Txid = seq<bv8>
  type BlockHash = seq<bv8>

  datatype OutPoint = OutPoint(txid: Txid, vout: nat)
  datatype TxIn = TxIn(previousOutput: OutPoint, scriptSig: seq<bv8>, sequence: nat)
  datatype TxOut = TxOut(value: nat, scriptPubkey: seq<bv8>)
  datatype Transaction = Transaction(version: int, lockTime: nat, inputs: seq<TxIn>, outputs: seq<TxOut>)

  /** A transaction of a block with its id. */
  datatype BlockTx = BlockTx(txid: Txid, tx: Transaction)

  datatype StateChange =
    | FundingConfirmed(outpoint: OutPoint)
    | FundingDoubleSpent(outpoint: OutPoint)
    | ClosingConfirmed(txid: Txid, tx: Transaction)

  datatype BlockDecode = BlockDecode(
    changes: seq<StateChange>, version: int, inputNum: nat, outputNum: nat,
    closingTx: Option<Transaction>, blockHash: BlockHash)

  /** What to watch: set up once, before the chain is followed. */
  datatype Funding = Funding(txids: seq<Txid>, vouts: seq<nat>, inputs: set<OutPoint>) {
    /** Each funding transaction has its output index. */
    ghost predicate Valid() {
      |txids| == |vouts|
    }
  }

  /** What the monitor knows about the chain. */
  datatype Facts = Facts(
    height: nat,
    fundingHeight: Option<nat>,
    fundingOutpoint: Option<OutPoint>,
    doubleSpentHeight: Option<nat>,
    closingHeight: Option<nat>)

  datatype State = State(facts: Facts, sawBlock: bool, decode: Option<BlockDecode>)

  const MAX_COMMITMENT_OUTPUTS: nat := 600

  datatype Event =
    | BlockStart(blockHash: BlockHash)
    | TransactionStart(version: int)
    | TransactionInput(input: TxIn)
    | TransactionOutput(output: TxOut)
    | TransactionEnd(lockTime: nat, txid: Txid)

  // ---------- one event ----------

  /** The start of a block was never seen. */
  predicate NotReady(m: State) {
    m.decode.None? && !m.sawBlock
  }

  function StartDecode(blockHash: BlockHash): BlockDecode {
    BlockDecode([], 0, 0, 0, None, blockHash)
  }

  function DecodeInput(f: Funding, op: Option<OutPoint>, d: BlockDecode, input: TxIn): Outcome<BlockDecode> {
    var prev := input.previousOutput;
    var changes := if prev in f.inputs then d.changes + [FundingDoubleSpent(prev)] else d.changes;
    var closing := if Some(prev) == op then Some(Transaction(d.version, 0, [input], [])) else d.closingTx;
    if closing.Some? && d.inputNum != 0 then Panic
    else Done(d.(changes := changes, closingTx := closing, inputNum := d.inputNum + 1))
  }

  function DecodeOutput(d: BlockDecode, output: TxOut): Outcome<BlockDecode> {
    if d.closingTx.None? then Done(d.(outputNum := d.outputNum + 1))
    else if d.outputNum >= MAX_COMMITMENT_OUTPUTS then Panic
    else
      var tx := d.closingTx.value;
      Done(d.(closingTx := Some(tx.(outputs := tx.outputs + [output])), outputNum := d.outputNum + 1))
  }

  /** The position of the first occurrence. */
  function Position(txids: seq<Txid>, txid: Txid): (i: nat)
    requires txid in txids
    ensures i < |txids| && txids[i] == txid && txid !in txids[..i]
  {
    if txids[0] == txid then 0 else 1 + Position(txids[1..], txid)
  }

  function DecodeEnd(f: Funding, d: BlockDecode, lockTime: nat, txid: Txid): Outcome<BlockDecode>
    requires f.Valid()
  {
    if txid in f.txids && f.vouts[Position(f.txids, txid)] >= d.outputNum then Panic
    else
      var confirmed := if txid in f.txids
                       then [FundingConfirmed(OutPoint(txid, f.vouts[Position(f.txids, txid)]))] else [];
      var closed := if d.closingTx.Some?
                    then [ClosingConfirmed(txid, d.closingTx.value.(lockTime := lockTime))] else [];
      Done(d.(changes := d.changes + confirmed + closed, closingTx := None))
  }

  function Decode(f: Funding, op: Option<OutPoint>, d: BlockDecode, e: Event): Outcome<BlockDecode>
    requires f.Valid()
  {
    match e
    case BlockStart(blockHash) => Done(StartDecode(blockHash))
    case TransactionStart(version) =>
      Done(d.(version := version, inputNum := 0, outputNum := 0, closingTx := None))
    case TransactionInput(input) => DecodeInput(f, op, d, input)
    case TransactionOutput(output) => DecodeOutput(d, output)
    case TransactionEnd(lockTime, txid) => DecodeEnd(f, d, lockTime, txid)
  }

  function Push(f: Funding, m: State, e: Event): Outcome<State>
    requires f.Valid()
  {
    if e.BlockStart? then Done(m.(sawBlock := true, decode := Some(StartDecode(e.blockHash))))
    else if NotReady(m) then Done(m)
    else if m.decode.None? then Panic
    else
      var d := Decode(f, m.facts.fundingOutpoint, m.decode.value, e);
      if d.Panic? then Panic else Done(m.(decode := Some(d.value)))
  }

  function PushAll(f: Funding, m: State, events: seq<Event>): Outcome<State>
    requires f.Valid()
  {
    if events == [] then Done(m)
    else
      var n := |events| - 1;
      var m' := PushAll(f, m, events[..n]);
      if m'.Panic? then Panic else Push(f, m'.value, events[n])
  }

  // ---------- the end of a block ----------

  predicate HasConfirmation(changes: seq<StateChange>) {
    exists i | 0 <= i < |changes| :: changes[i].FundingConfirmed?
  }

  function AddChange(s: Facts, c: StateChange, confirmed: bool): Outcome<Facts> {
    match c
    case FundingConfirmed(outpoint) =>
      if s.doubleSpentHeight.Some? then Panic
      else Done(s.(fundingHeight := Some(s.height), fundingOutpoint := Some(outpoint)))
    case FundingDoubleSpent(_) =>
      if confirmed then Done(s)
      else if s.fundingHeight.Some? then Panic
      else Done(s.(doubleSpentHeight := if s.doubleSpentHeight.Some? then s.doubleSpentHeight else Some(s.height)))
    case ClosingConfirmed(_, tx) =>
      if |tx.inputs| != 1 then Panic else Done(s.(closingHeight := Some(s.height)))
  }

  function RemoveChange(s: Facts, c: StateChange, confirmed: bool): Outcome<Facts> {
    match c
    case FundingConfirmed(_) =>
      if s.fundingHeight != Some(s.height) then Panic
      else Done(s.(fundingHeight := None, fundingOutpoint := None))
    case FundingDoubleSpent(_) =>
      if confirmed then Done(s)
      else if s.doubleSpentHeight.None? then Panic
      else Done(s.(doubleSpentHeight :=
                     if s.doubleSpentHeight == Some(s.height) then None else s.doubleSpentHeight))
    case ClosingConfirmed(_, tx) =>
      if s.closingHeight != Some(s.height) || |tx.inputs| != 1 then Panic
      else Done(s.(closingHeight := None))
  }

  function AddChanges(s: Facts, changes: seq<StateChange>, confirmed: bool): Outcome<Facts> {
    if changes == [] then Done(s)
    else
      var n := |changes| - 1;
      var s' := AddChanges(s, changes[..n], confirmed);
      if s'.Panic? then Panic else AddChange(s'.value, changes[n], confirmed)
  }

  function RemoveChanges(s: Facts, changes: seq<StateChange>, confirmed: bool): Outcome<Facts> {
    if changes == [] then Done(s)
    else
      var n := |changes| - 1;
      var s' := RemoveChanges(s, changes[..n], confirmed);
      if s'.Panic? then Panic else RemoveChange(s'.value, changes[n], confirmed)
  }

  function ApplyAdd(s: Facts, changes: seq<StateChange>): Outcome<Facts> {
    AddChanges(s.(height := s.height + 1), changes, HasConfirmation(changes))
  }

  /** The height goes down last, and cannot go below zero. */
  function ApplyRemove(s: Facts, changes: seq<StateChange>): Outcome<Facts> {
    var s' := RemoveChanges(s, changes, HasConfirmation(changes));
    if s'.Panic? || s'.value.height == 0 then Panic
    else Done(s'.value.(height := s'.value.height - 1))
  }

  function AddBlockEnd(m: State, blockHash: BlockHash): Outcome<State> {
    if NotReady(m) then Done(m)
    else if m.decode.None? || m.decode.value.blockHash != blockHash then Panic
    else
      var s := ApplyAdd(m.facts, m.decode.value.changes);
      if s.Panic? then Panic else Done(State(s.value, true, None))
  }

  function RemoveBlockEnd(m: State, blockHash: BlockHash): Outcome<State> {
    if NotReady(m) then Done(m)
    else if m.decode.None? || m.decode.value.blockHash != blockHash then Panic
    else
      var s := ApplyRemove(m.facts, m.decode.value.changes);
      if s.Panic? then Panic else Done(State(s.value, m.sawBlock, None))
  }

  // ---------- the events of a block ----------

  function InputEvents(inputs: seq<TxIn>): seq<Event> {
    seq(|inputs|, i requires 0 <= i < |inputs| => TransactionInput(inputs[i]))
  }

  function OutputEvents(outputs: seq<TxOut>): seq<Event> {
    seq(|outputs|, i requires 0 <= i < |outputs| => TransactionOutput(outputs[i]))
  }

  function TxEvents(t: BlockTx): seq<Event> {
    [TransactionStart(t.tx.version)] + InputEvents(t.tx.inputs) + OutputEvents(t.tx.outputs)
    + [TransactionEnd(t.tx.lockTime, t.txid)]
  }

  function BlockEvents(txs: seq<BlockTx>): seq<Event> {
    if txs == [] then [] else BlockEvents(txs[..|txs| - 1]) + TxEvents(txs[|txs| - 1])
  }

  // ---------- what decoding a block comes to ----------

  /** The transaction spends the confirmed funding output. */
  predicate Closes(op: Option<OutPoint>, tx: Transaction) {
    exists i | 0 <= i < |tx.inputs| :: Some(tx.inputs[i].previousOutput) == op
  }

  function SpendChanges(f: Funding, inputs: seq<TxIn>): seq<StateChange> {
    if inputs == [] then []
    else
      var prev := inputs[|inputs| - 1].previousOutput;
      SpendChanges(f, inputs[..|inputs| - 1]) + (if prev in f.inputs then [FundingDoubleSpent(prev)] else [])
  }

  /** A funding transaction has its funding output; a closing one has one input and at most 600 outputs. */
  predicate WellFormedTx(f: Funding, op: Option<OutPoint>, t: BlockTx)
    requires f.Valid()
  {
    && (t.txid in f.txids ==> f.vouts[Position(f.txids, t.txid)] < |t.tx.outputs|)
    && (Closes(op, t.tx) ==> |t.tx.inputs| == 1 && |t.tx.outputs| <= 600)
  }

  /** The changes one transaction stands for, the closing transaction as it is in the block. */
  function TxChanges(f: Funding, op: Option<OutPoint>, t: BlockTx): seq<StateChange>
    requires f.Valid()
  {
    SpendChanges(f, t.tx.inputs)
    + (if t.txid in f.txids
       then [FundingConfirmed(OutPoint(t.txid, f.vouts[Position(f.txids, t.txid)]))] else [])
    + (if Closes(op, t.tx) then [ClosingConfirmed(t.txid, t.tx)] else [])
  }

  predicate WellFormed(f: Funding, op: Option<OutPoint>, txs: seq<BlockTx>)
    requires f.Valid()
  {
    forall i | 0 <= i < |txs| :: WellFormedTx(f, op, txs[i])
  }

  function BlockChanges(f: Funding, op: Option<OutPoint>, txs: seq<BlockTx>): seq<StateChange>
    requires f.Valid()
  {
    if txs == [] then [] else BlockChanges(f, op, txs[..|txs| - 1]) + TxChanges(f, op, txs[|txs| - 1])
  }

  // ---------- decoding is that pass ----------

  function DecodeAll(f: Funding, op: Option<OutPoint>, d: BlockDecode, events: seq<Event>): Outcome<BlockDecode>
    requires f.Valid()
  {
    if events == [] then Done(d)
    else
      var n := |events| - 1;
      var d' := DecodeAll(f, op, d, events[..n]);
      if d'.Panic? then Panic else Decode(f, op, d'.value, events[n])
  }

  lemma {:induction false} DecodeAppend(f: Funding, op: Option<OutPoint>, d: BlockDecode, a: seq<Event>, b: seq<Event>)
    requires f.Valid()
    ensures DecodeAll(f, op, d, a + b) ==
            var d' := DecodeAll(f, op, d, a);
            if d'.Panic? then Panic else DecodeAll(f, op, d'.value, b)
    decreases b
  {
    if b == [] {
      assert a + b == a;
    } else {
      var n := |b| - 1;
      DecodeAppend(f, op, d, a, b[..n]);
      assert (a + b)[..|a + b| - 1] == a + b[..n];
    }
  }

  predicate ClosesWithin(op: Option<OutPoint>, inputs: seq<TxIn>) {
    exists i | 0 <= i < |inputs| :: Some(inputs[i].previousOutput) == op
  }

  /** What the inputs of a transaction come to: its spends, and a closing transaction if that is its one input. */
  function InputsPass(f: Funding, op: Option<OutPoint>, d: BlockDecode, inputs: seq<TxIn>): Outcome<BlockDecode> {
    if ClosesWithin(op, inputs) && |inputs| != 1 then Panic
    else Done(d.(changes := d.changes + SpendChanges(f, inputs), inputNum := |inputs|,
                 closingTx := if ClosesWithin(op, inputs) then Some(Transaction(d.version, 0, inputs, []))
                              else None))
  }

  lemma InputsPassStep(f: Funding, op: Option<OutPoint>, d: BlockDecode, inputs: seq<TxIn>)
    requires d.inputNum == 0 && d.closingTx.None? && inputs != []
    ensures var n := |inputs| - 1;
            var before := InputsPass(f, op, d, inputs[..n]);
            InputsPass(f, op, d, inputs) ==
            if before.Panic? then Panic else DecodeInput(f, op, before.value, inputs[n])
  {
    var n := |inputs| - 1;
    assert ClosesWithin(op, inputs) <==> ClosesWithin(op, inputs[..n]) || Some(inputs[n].previousOutput) == op;
    assert n == 0 ==> inputs == [inputs[0]];
    var last := if inputs[n].previousOutput in f.inputs
                then [FundingDoubleSpent(inputs[n].previousOutput)] else [];
    var before := d.changes + SpendChanges(f, inputs[..n]);
    assert d.changes + (SpendChanges(f, inputs[..n]) + last) == before + last;
    assert before + [] == before;
  }

  lemma {:induction false} InputsDecoded(f: Funding, op: Option<OutPoint>, d: BlockDecode, inputs: seq<TxIn>)
    requires f.Valid() && d.inputNum == 0 && d.closingTx.None?
    ensures DecodeAll(f, op, d, InputEvents(inputs)) == InputsPass(f, op, d, inputs)
  {
    if inputs == [] {
      assert d.changes + [] == d.changes;
    } else {
      var n := |inputs| - 1;
      InputsDecoded(f, op, d, inputs[..n]);
      assert InputEvents(inputs)[..n] == InputEvents(inputs[..n]);
      InputsPassStep(f, op, d, inputs);
    }
  }

  lemma {:induction false} OutputsDecoded(f: Funding, op: Option<OutPoint>, d: BlockDecode, outputs: seq<TxOut>)
    requires f.Valid() && d.outputNum == 0
    requires d.closingTx.Some? ==> d.closingTx.value.outputs == []
    ensures DecodeAll(f, op, d, OutputEvents(outputs)) ==
            if d.closingTx.Some? && |outputs| > MAX_COMMITMENT_OUTPUTS then Panic
            else Done(d.(outputNum := |outputs|,
                         closingTx := if d.closingTx.Some? then Some(d.closingTx.value.(outputs := outputs)) else None))
  {
    if outputs != [] {
      var n := |outputs| - 1;
      OutputsDecoded(f, op, d, outputs[..n]);
      assert OutputEvents(outputs)[..n] == OutputEvents(outputs[..n]);
      assert outputs[..n] + [outputs[n]] == outputs;
    }
  }

  lemma DecodeOne(f: Funding, op: Option<OutPoint>, d: BlockDecode, e: Event)
    requires f.Valid()
    ensures DecodeAll(f, op, d, [e]) == Decode(f, op, d, e)
  {
    assert [e][..0] == [];
  }

  lemma ChangesJoin(f: Funding, op: Option<OutPoint>, d: BlockDecode, t: BlockTx)
    requires f.Valid()
    ensures d.changes + SpendChanges(f, t.tx.inputs)
            + (if t.txid in f.txids
               then [FundingConfirmed(OutPoint(t.txid, f.vouts[Position(f.txids, t.txid)]))] else [])
            + (if Closes(op, t.tx) then [ClosingConfirmed(t.txid, t.tx)] else [])
            == d.changes + TxChanges(f, op, t)
  {
  }

  /** One transaction adds exactly its changes, or stops the decoder when it is not well formed. */
  lemma TxDecoded(f: Funding, op: Option<OutPoint>, d: BlockDecode, t: BlockTx)
    requires f.Valid()
    ensures DecodeAll(f, op, d, TxEvents(t)) ==
            if WellFormedTx(f, op, t)
            then Done(d.(changes := d.changes + TxChanges(f, op, t), version := t.tx.version,
                         inputNum := |t.tx.inputs|, outputNum := |t.tx.outputs|, closingTx := None))
            else Panic
  {
    var start, ins, outs := [TransactionStart(t.tx.version)], InputEvents(t.tx.inputs), OutputEvents(t.tx.outputs);
    var end := TransactionEnd(t.tx.lockTime, t.txid);
    var d0 := d.(version := t.tx.version, inputNum := 0, outputNum := 0, closingTx := None);
    DecodeOne(f, op, d, start[0]);
    InputsDecoded(f, op, d0, t.tx.inputs);
    DecodeAppend(f, op, d, start, ins);
    DecodeAppend(f, op, d, start + ins, outs);
    DecodeAppend(f, op, d, start + ins + outs, [end]);
    assert Closes(op, t.tx) <==> ClosesWithin(op, t.tx.inputs);
    var d1 := DecodeAll(f, op, d, start + ins);
    if d1.Done? {
      OutputsDecoded(f, op, d1.value, t.tx.outputs);
      var d2 := DecodeAll(f, op, d, start + ins + outs);
      if d2.Done? {
        DecodeOne(f, op, d2.value, end);
        ChangesJoin(f, op, d, t);
      }
    }
  }

  lemma WellFormedStep(f: Funding, op: Option<OutPoint>, txs: seq<BlockTx>)
    requires f.Valid() && txs != []
    ensures var n := |txs| - 1;
            WellFormed(f, op, txs) <==> WellFormed(f, op, txs[..n]) && WellFormedTx(f, op, txs[n])
  {
    var prior := txs[..|txs| - 1];
    assert forall i | 0 <= i < |prior| :: prior[i] == txs[i];
  }

  /** The decode state after a block holds its changes, and it exists just for well-formed blocks. */
  ghost predicate DecodedAs(d': Outcome<BlockDecode>, d: BlockDecode, ok: bool, changes: seq<StateChange>) {
    if ok then d'.Done? && d'.value.changes == d.changes + changes && d'.value.blockHash == d.blockHash
    else d'.Panic?
  }

  lemma {:induction false} BlockDecoded(f: Funding, op: Option<OutPoint>, d: BlockDecode, txs: seq<BlockTx>)
    requires f.Valid()
    ensures DecodedAs(DecodeAll(f, op, d, BlockEvents(txs)), d, WellFormed(f, op, txs), BlockChanges(f, op, txs))
  {
    if txs == [] {
      assert d.changes + [] == d.changes;
    } else {
      var n := |txs| - 1;
      BlockDecoded(f, op, d, txs[..n]);
      WellFormedStep(f, op, txs);
      BlockDecodedStep(f, op, d, txs);
    }
  }

  lemma BlockDecodedStep(f: Funding, op: Option<OutPoint>, d: BlockDecode, txs: seq<BlockTx>)
    requires f.Valid() && txs != []
    requires var prior := txs[..|txs| - 1];
             DecodedAs(DecodeAll(f, op, d, BlockEvents(prior)), d, WellFormed(f, op, prior), BlockChanges(f, op, prior))
    ensures var n := |txs| - 1;
            DecodedAs(DecodeAll(f, op, d, BlockEvents(txs)), d,
                      WellFormed(f, op, txs[..n]) && WellFormedTx(f, op, txs[n]), BlockChanges(f, op, txs))
  {
    var n := |txs| - 1;
    DecodeAppend(f, op, d, BlockEvents(txs[..n]), TxEvents(txs[n]));
    var d' := DecodeAll(f, op, d, BlockEvents(txs[..n]));
    if d'.Done? {
      TxDecoded(f, op, d'.value, txs[n]);
      assert d.changes + (BlockChanges(f, op, txs[..n]) + TxChanges(f, op, txs[n])) ==
             d.changes + BlockChanges(f, op, txs[..n]) + TxChanges(f, op, txs[n]);
    }
  }

  ghost predicate InsideBlock(events: seq<Event>) {
    forall i | 0 <= i < |events| :: !events[i].BlockStart?
  }

  lemma TxEventsInside(t: BlockTx)
    ensures InsideBlock(TxEvents(t))
  {
  }

  lemma {:induction false} BlockEventsInside(txs: seq<BlockTx>)
    ensures InsideBlock(BlockEvents(txs))
  {
    if txs != [] {
      BlockEventsInside(txs[..|txs| - 1]);
      TxEventsInside(txs[|txs| - 1]);
    }
  }

  /** Pushing events inside a block only works on the decode state. */
  lemma {:induction false} PushDecodes(f: Funding, m: State, events: seq<Event>)
    requires f.Valid() && m.decode.Some? && InsideBlock(events)
    ensures PushAll(f, m, events) ==
            var d := DecodeAll(f, m.facts.fundingOutpoint, m.decode.value, events);
            if d.Panic? then Panic else Done(m.(decode := Some(d.value)))
  {
    if events != [] {
      PushDecodes(f, m, events[..|events| - 1]);
    }
  }

  lemma {:induction false} PushAppend(f: Funding, m: State, a: seq<Event>, b: seq<Event>)
    requires f.Valid()
    ensures PushAll(f, m, a + b) ==
            var m' := PushAll(f, m, a);
            if m'.Panic? then Panic else PushAll(f, m'.value, b)
    decreases b
  {
    if b == [] {
      assert a + b == a;
    } else {
      var n := |b| - 1;
      PushAppend(f, m, a, b[..n]);
      assert (a + b)[..|a + b| - 1] == a + b[..n];
    }
  }

  /** One more event, from where the first k have led; if it stops the decoder, so do all of them. */
  lemma PushNext(f: Funding, m: State, events: seq<Event>, k: nat, now: State)
    requires f.Valid() && k < |events| && PushAll(f, m, events[..k]) == Done(now)
    ensures PushAll(f, m, events[..k + 1]) == Push(f, now, events[k])
    ensures Push(f, now, events[k]).Panic? ==> PushAll(f, m, events).Panic?
  {
    assert events[..k + 1][..k] == events[..k];
    PushAppend(f, m, events[..k + 1], events[k + 1..]);
    assert events[..k + 1] + events[k + 1..] == events;
  }

  lemma PushOne(f: Funding, m: State, e: Event)
    requires f.Valid()
    ensures PushAll(f, m, [e]) == Push(f, m, e)
  {
    assert [e][..0] == [];
    assert PushAll(f, m, []) == Done(m);
  }

  /** The events of a transaction: its start, its inputs, its outputs and its end. */
  lemma TxPushed(f: Funding, m: State, t: BlockTx)
    requires f.Valid()
    ensures PushAll(f, m, TxEvents(t)) ==
            var a := Push(f, m, TransactionStart(t.tx.version));
            if a.Panic? then Panic
            else
              var b := PushAll(f, a.value, InputEvents(t.tx.inputs));
              if b.Panic? then Panic
              else
                var c := PushAll(f, b.value, OutputEvents(t.tx.outputs));
                if c.Panic? then Panic else Push(f, c.value, TransactionEnd(t.tx.lockTime, t.txid))
  {
    var start, end := [TransactionStart(t.tx.version)], [TransactionEnd(t.tx.lockTime, t.txid)];
    var ins, outs := InputEvents(t.tx.inputs), OutputEvents(t.tx.outputs);
    PushAppend(f, m, start + ins + outs, end);
    PushAppend(f, m, start + ins, outs);
    PushAppend(f, m, start, ins);
    PushOne(f, m, start[0]);
    var c := PushAll(f, m, start + ins + outs);
    if c.Done? {
      PushOne(f, c.value, end[0]);
    }
  }

  /** The push events of a whole block, as they are streamed. */
  function StreamBlock(f: Funding, m: State, txs: seq<BlockTx>, blockHash: BlockHash): Outcome<State>
    requires f.Valid()
  {
    PushAll(f, m, [BlockStart(blockHash)] + BlockEvents(txs))
  }

  function AddBlock(f: Funding, m: State, txs: seq<BlockTx>, blockHash: BlockHash): Outcome<State>
    requires f.Valid()
  {
    var m' := StreamBlock(f, m, txs, blockHash);
    if m'.Panic? then Panic else AddBlockEnd(m'.value, blockHash)
  }

  function RemoveBlock(f: Funding, m: State, txs: seq<BlockTx>, blockHash: BlockHash): Outcome<State>
    requires f.Valid()
  {
    var m' := StreamBlock(f, m, txs, blockHash);
    if m'.Panic? then Panic else RemoveBlockEnd(m'.value, blockHash)
  }

  lemma StreamDecoded(f: Funding, m: State, txs: seq<BlockTx>, blockHash: BlockHash)
    requires f.Valid()
    ensures var m' := StreamBlock(f, m, txs, blockHash);
            && (m'.Done? <==> WellFormed(f, m.facts.fundingOutpoint, txs))
            && (m'.Done? ==>
                  && m'.value.facts == m.facts && m'.value.sawBlock && m'.value.decode.Some?
                  && m'.value.decode.value.changes == BlockChanges(f, m.facts.fundingOutpoint, txs)
                  && m'.value.decode.value.blockHash == blockHash)
  {
    var started := m.(sawBlock := true, decode := Some(StartDecode(blockHash)));
    PushAppend(f, m, [BlockStart(blockHash)], BlockEvents(txs));
    assert PushAll(f, m, []) == Done(m);
    assert [BlockStart(blockHash)][..0] == [];
    assert PushAll(f, m, [BlockStart(blockHash)]) == Done(started);
    BlockEventsInside(txs);
    PushDecodes(f, started, BlockEvents(txs));
    BlockDecoded(f, m.facts.fundingOutpoint, StartDecode(blockHash), txs);
    assert [] + BlockChanges(f, m.facts.fundingOutpoint, txs) == BlockChanges(f, m.facts.fundingOutpoint, txs);
  }

  /** Adding a block on what the monitor knows, whatever was being decoded before. */
  function Add(f: Funding, s: Facts, txs: seq<BlockTx>): Outcome<Facts>
    requires f.Valid()
  {
    if WellFormed(f, s.fundingOutpoint, txs) then ApplyAdd(s, BlockChanges(f, s.fundingOutpoint, txs)) else Panic
  }

  function Remove(f: Funding, s: Facts, txs: seq<BlockTx>): Outcome<Facts>
    requires f.Valid()
  {
    if WellFormed(f, s.fundingOutpoint, txs) then ApplyRemove(s, BlockChanges(f, s.fundingOutpoint, txs)) else Panic
  }

  function Settled(s: Outcome<Facts>): Outcome<State> {
    if s.Panic? then Panic else Done(State(s.value, true, None))
  }

  /** Event by event, a block amounts to one functional pass over its transactions. */
  lemma BlocksAsPasses(f: Funding, m: State, txs: seq<BlockTx>, blockHash: BlockHash)
    requires f.Valid()
    ensures AddBlock(f, m, txs, blockHash) == Settled(Add(f, m.facts, txs))
    ensures RemoveBlock(f, m, txs, blockHash) == Settled(Remove(f, m.facts, txs))
  {
    StreamDecoded(f, m, txs, blockHash);
  }

  /** A monitor created in the middle of a block ignores the rest of it, the end of the block included. */
  lemma {:induction false} TailIgnored(f: Funding, m: State, events: seq<Event>, blockHash: BlockHash)
    requires f.Valid() && m.decode.None? && !m.sawBlock && InsideBlock(events)
    ensures PushAll(f, m, events) == Done(m)
    ensures AddBlockEnd(m, blockHash) == Done(m) && RemoveBlockEnd(m, blockHash) == Done(m)
  {
    if events != [] {
      TailIgnored(f, m, events[..|events| - 1], blockHash);
    }
  }

  /** Once a block has been seen, an event or an end of block outside of one is a fault; a start is always fine. */
  lemma OutsideBlock(f: Funding, m: State, e: Event, blockHash: BlockHash)
    requires f.Valid() && m.decode.None? && m.sawBlock
    ensures Push(f, m, e) ==
            if e.BlockStart? then Done(State(m.facts, true, Some(BlockDecode([], 0, 0, 0, None, e.blockHash))))
            else Panic
    ensures AddBlockEnd(m, blockHash).Panic? && RemoveBlockEnd(m, blockHash).Panic?
  {
  }

  /** A block has to end with the hash it started with. */
  lemma OtherBlockEnds(m: State, blockHash: BlockHash)
    requires m.decode.Some? && m.decode.value.blockHash != blockHash
    ensures AddBlockEnd(m, blockHash).Panic? && RemoveBlockEnd(m, blockHash).Panic?
  {
  }

  // ---------- the monitor object ----------

  class ChainMonitor {
    var fundingTxids: seq<Txid>
    var fundingVouts: seq<nat>
    var fundingInputs: set<OutPoint>
    var height: nat
    var fundingHeight: Option<nat>
    var fundingOutpoint: Option<OutPoint>
    var doubleSpentHeight: Option<nat>
    var closingHeight: Option<nat>
    var sawBlock: bool
    var decode: Option<BlockDecode>

    ghost function Watch(): Funding
      reads this
    {
      Funding(fundingTxids, fundingVouts, fundingInputs)
    }

    ghost predicate Valid()
      reads this
    {
      Watch().Valid()
    }

    ghost function View(): State
      reads this
    {
      State(Facts(height, fundingHeight, fundingOutpoint, doubleSpentHeight, closingHeight), sawBlock, decode)
    }

    constructor (height: nat)
      ensures Valid() && Watch() == Funding([], [], {})
      ensures View() == State(Facts(height, None, None, None, None), false, None)
    {
      this.height := height;
      fundingTxids, fundingVouts, fundingInputs := [], [], {};
      fundingHeight, fundingOutpoint, doubleSpentHeight, closingHeight := None, None, None, None;
      sawBlock, decode := false, None;
    }

    /** Only one funding transaction can be set up. */
    method AddFunding(txid: Txid, tx: Transaction, vout: nat) returns (r: Outcome<()>)
      requires Valid()
      modifies this
      ensures r.Done? <==> old(fundingTxids) == []
      ensures r.Done? ==>
                && Valid() && View() == old(View())
                && Watch() == Funding([txid], [vout],
                                      old(fundingInputs) + set i | 0 <= i < |tx.inputs| :: tx.inputs[i].previousOutput)
    {
      if |fundingTxids| != 0 || |fundingTxids| != |fundingVouts| {
        return Panic;
      }
      fundingTxids := fundingTxids + [txid];
      fundingVouts := fundingVouts + [vout];
      fundingInputs := fundingInputs + set i | 0 <= i < |tx.inputs| :: tx.inputs[i].previousOutput;
      r := Done(());
    }

    method OnBlockStart(blockHash: BlockHash)
      requires Valid()
      modifies this`sawBlock, this`decode
      ensures Done(View()) == Push(Watch(), old(View()), BlockStart(blockHash))
    {
      sawBlock := true;
      decode := Some(BlockDecode([], 0, 0, 0, None, blockHash));
    }

    method OnTransactionStart(version: int) returns (r: Outcome<()>)
      requires Valid()
      modifies this`decode
      ensures var m := Push(Watch(), old(View()), TransactionStart(version));
              (r.Done? <==> m.Done?) && (r.Done? ==> View() == m.value)
    {
      if decode.None? && !sawBlock {
        return Done(());
      }
      if decode.None? {
        return Panic;
      }
      decode := Some(decode.value.(version := version, inputNum := 0, outputNum := 0, closingTx := None));
      r := Done(());
    }

    method OnTransactionInput(input: TxIn) returns (r: Outcome<()>)
      requires Valid()
      modifies this`decode
      ensures var m := Push(Watch(), old(View()), TransactionInput(input));
              (r.Done? <==> m.Done?) && (r.Done? ==> View() == m.value)
    {
      if decode.None? && !sawBlock {
        return Done(());
      }
      if decode.None? {
        return Panic;
      }
      var d := decode.value;
      if input.previousOutput in fundingInputs {
        d := d.(changes := d.changes + [FundingDoubleSpent(input.previousOutput)]);
      }
      if Some(input.previousOutput) == fundingOutpoint {
        d := d.(closingTx := Some(Transaction(d.version, 0, [input], [])));
      }
      if d.closingTx.Some? && d.inputNum != 0 {
        return Panic;
      }
      decode := Some(d.(inputNum := d.inputNum + 1));
      r := Done(());
    }

    method OnTransactionOutput(output: TxOut) returns (r: Outcome<()>)
      requires Valid()
      modifies this`decode
      ensures var m := Push(Watch(), old(View()), TransactionOutput(output));
              (r.Done? <==> m.Done?) && (r.Done? ==> View() == m.value)
    {
      if decode.None? && !sawBlock {
        return Done(());
      }
      if decode.None? {
        return Panic;
      }
      var d := decode.value;
      if d.closingTx.Some? {
        var tx := d.closingTx.value;
        d := d.(closingTx := Some(tx.(outputs := tx.outputs + [output])));
        if d.outputNum >= MAX_COMMITMENT_OUTPUTS {
          return Panic;
        }
      }
      decode := Some(d.(outputNum := d.outputNum + 1));
      r := Done(());
    }

    method OnTransactionEnd(lockTime: nat, txid: Txid) returns (r: Outcome<()>)
      requires Valid()
      modifies this`decode
      ensures var m := Push(Watch(), old(View()), TransactionEnd(lockTime, txid));
              (r.Done? <==> m.Done?) && (r.Done? ==> View() == m.value)
    {
      if decode.None? && !sawBlock {
        return Done(());
      }
      if decode.None? {
        return Panic;
      }
      var d := decode.value;
      assert d.changes + [] == d.changes;
      if txid in fundingTxids {
        var vout := fundingVouts[Position(fundingTxids, txid)];
        if vout >= d.outputNum {
          return Panic;
        }
        d := d.(changes := d.changes + [FundingConfirmed(OutPoint(txid, vout))]);
      }
      assert d.changes + [] == d.changes;
      if d.closingTx.Some? {
        var tx := d.closingTx.value.(lockTime := lockTime);
        d := d.(changes := d.changes + [ClosingConfirmed(txid, tx)], closingTx := None);
      }
      decode := Some(d);
      r := Done(());
    }

    method AddOne(change: StateChange, confirmed: bool) returns (r: Outcome<()>)
      modifies this`fundingHeight, this`fundingOutpoint, this`doubleSpentHeight, this`closingHeight
      ensures var s := AddChange(old(View().facts), change, confirmed);
              (r.Done? <==> s.Done?) && (r.Done? ==> View().facts == s.value)
    {
      r := Done(());
      match change
      case FundingConfirmed(outpoint) =>
        if doubleSpentHeight.Some? {
          return Panic;
        }
        fundingHeight := Some(height);
        fundingOutpoint := Some(outpoint);
      case FundingDoubleSpent(_) =>
        if !confirmed {
          if fundingHeight.Some? {
            return Panic;
          }
          if doubleSpentHeight.None? {
            doubleSpentHeight := Some(height);
          }
        }
      case ClosingConfirmed(_, tx) =>
        if |tx.inputs| != 1 {
          return Panic;
        }
        closingHeight := Some(height);
    }

    method RemoveOne(change: StateChange, confirmed: bool) returns (r: Outcome<()>)
      modifies this`fundingHeight, this`fundingOutpoint, this`doubleSpentHeight, this`closingHeight
      ensures var s := RemoveChange(old(View().facts), change, confirmed);
              (r.Done? <==> s.Done?) && (r.Done? ==> View().facts == s.value)
    {
      r := Done(());
      match change
      case FundingConfirmed(_) =>
        if fundingHeight != Some(height) {
          return Panic;
        }
        fundingHeight := None;
        fundingOutpoint := None;
      case FundingDoubleSpent(_) =>
        if !confirmed {
          if doubleSpentHeight.None? {
            return Panic;
          }
          if doubleSpentHeight == Some(height) {
            doubleSpentHeight := None;
          }
        }
      case ClosingConfirmed(_, tx) =>
        if closingHeight != Some(height) || |tx.inputs| != 1 {
          return Panic;
        }
        closingHeight := None;
    }

    method OnAddBlockEnd(blockHash: BlockHash) returns (r: Outcome<()>)
      requires Valid()
      modifies this
      ensures Valid() && Watch() == old(Watch())
      ensures var m := AddBlockEnd(old(View()), blockHash);
              (r.Done? <==> m.Done?) && (r.Done? ==> View() == m.value)
    {
      if decode.None? && !sawBlock {
        return Done(());
      }
      if decode.None? || decode.value.blockHash != blockHash {
        return Panic;
      }
      var changes := decode.value.changes;
      decode := None;
      sawBlock := true;
      height := height + 1;
      var confirmed := exists i | 0 <= i < |changes| :: changes[i].FundingConfirmed?;
      ghost var start := View().facts;
      for i := 0 to |changes|
        invariant Watch() == old(Watch()) && sawBlock && decode.None?
        invariant AddChanges(start, changes[..i], confirmed) == Done(View().facts)
      {
        AddNext(start, changes, confirmed, i, View().facts);
        r := AddOne(changes[i], confirmed);
        if r.Panic? {
          return;
        }
      }
      assert changes[..|changes|] == changes;
      r := Done(());
    }

    method OnRemoveBlockEnd(blockHash: BlockHash) returns (r: Outcome<()>)
      requires Valid()
      modifies this
      ensures Valid() && Watch() == old(Watch())
      ensures var m := RemoveBlockEnd(old(View()), blockHash);
              (r.Done? <==> m.Done?) && (r.Done? ==> View() == m.value)
    {
      if decode.None? && !sawBlock {
        return Done(());
      }
      if decode.None? || decode.value.blockHash != blockHash {
        return Panic;
      }
      var changes := decode.value.changes;
      decode := None;
      var confirmed := exists i | 0 <= i < |changes| :: changes[i].FundingConfirmed?;
      ghost var start := View().facts;
      for i := 0 to |changes|
        invariant Watch() == old(Watch()) && sawBlock == old(sawBlock) && decode.None?
        invariant RemoveChanges(start, changes[..i], confirmed) == Done(View().facts)
      {
        RemoveNext(start, changes, confirmed, i, View().facts);
        r := RemoveOne(changes[i], confirmed);
        if r.Panic? {
          return;
        }
      }
      assert changes[..|changes|] == changes;
      if height == 0 {
        return Panic;
      }
      height := height - 1;
      r := Done(());
    }

    method StreamTransaction(t: BlockTx) returns (r: Outcome<()>)
      requires Valid()
      modifies this`decode
      ensures var m := PushAll(Watch(), old(View()), TxEvents(t));
              (r.Done? <==> m.Done?) && (r.Done? ==> View() == m.value)
    {
      TxPushed(Watch(), View(), t);
      r := OnTransactionStart(t.tx.version);
      if r.Panic? {
        return;
      }
      r := StreamInputs(t.tx.inputs);
      if r.Panic? {
        return;
      }
      r := StreamOutputs(t.tx.outputs);
      if r.Panic? {
        return;
      }
      r := OnTransactionEnd(t.tx.lockTime, t.txid);
    }

    method StreamInputs(inputs: seq<TxIn>) returns (r: Outcome<()>)
      requires Valid()
      modifies this`decode
      ensures var m := PushAll(Watch(), old(View()), InputEvents(inputs));
              (r.Done? <==> m.Done?) && (r.Done? ==> View() == m.value)
    {
      ghost var f, m, events := Watch(), View(), InputEvents(inputs);
      assert events[..0] == [];
      for i := 0 to |inputs|
        invariant PushAll(f, m, events[..i]) == Done(View())
      {
        PushNext(f, m, events, i, View());
        r := OnTransactionInput(inputs[i]);
        if r.Panic? {
          return;
        }
      }
      assert events[..|inputs|] == events;
      r := Done(());
    }

    method StreamOutputs(outputs: seq<TxOut>) returns (r: Outcome<()>)
      requires Valid()
      modifies this`decode
      ensures var m := PushAll(Watch(), old(View()), OutputEvents(outputs));
              (r.Done? <==> m.Done?) && (r.Done? ==> View() == m.value)
    {
      ghost var f, m, events := Watch(), View(), OutputEvents(outputs);
      assert events[..0] == [];
      for i := 0 to |outputs|
        invariant PushAll(f, m, events[..i]) == Done(View())
      {
        PushNext(f, m, events, i, View());
        r := OnTransactionOutput(outputs[i]);
        if r.Panic? {
          return;
        }
      }
      assert events[..|outputs|] == events;
      r := Done(());
    }

    method StreamTransactions(txs: seq<BlockTx>, blockHash: BlockHash) returns (r: Outcome<()>)
      requires Valid()
      modifies this`sawBlock, this`decode
      ensures var m := StreamBlock(Watch(), old(View()), txs, blockHash);
              (r.Done? <==> m.Done?) && (r.Done? ==> View() == m.value)
    {
      ghost var f, m := Watch(), View();
      OnBlockStart(blockHash);
      StreamStarts(f, m, blockHash);
      assert txs[..0] == [];
      for i := 0 to |txs|
        invariant StreamBlock(f, m, txs[..i], blockHash) == Done(View())
      {
        StreamNext(f, m, txs, blockHash, i, View());
        r := StreamTransaction(txs[i]);
        if r.Panic? {
          return;
        }
      }
      assert txs[..|txs|] == txs;
      r := Done(());
    }

    method OnAddBlock(txs: seq<BlockTx>, blockHash: BlockHash) returns (r: Outcome<()>)
      requires Valid()
      modifies this
      ensures Valid() && Watch() == old(Watch())
      ensures var m := AddBlock(Watch(), old(View()), txs, blockHash);
              (r.Done? <==> m.Done?) && (r.Done? ==> View() == m.value)
    {
      r := StreamTransactions(txs, blockHash);
      if r.Done? {
        r := OnAddBlockEnd(blockHash);
      }
    }

    method OnRemoveBlock(txs: seq<BlockTx>, blockHash: BlockHash) returns (r: Outcome<()>)
      requires Valid()
      modifies this
      ensures Valid() && Watch() == old(Watch())
      ensures var m := RemoveBlock(Watch(), old(View()), txs, blockHash);
              (r.Done? <==> m.Done?) && (r.Done? ==> View() == m.value)
    {
      r := StreamTransactions(txs, blockHash);
      if r.Done? {
        r := OnRemoveBlockEnd(blockHash);
      }
    }

    method AsChainState() returns (c: ChainState)
      ensures c == ChainStateOf(View().facts)
    {
      c := ChainState(
        height,
        if fundingHeight.Some? then height + 1 - fundingHeight.value else 0,
        if doubleSpentHeight.Some? then height + 1 - doubleSpentHeight.value else 0,
        if closingHeight.Some? then height + 1 - closingHeight.value else 0);
    }
  }

  /** Depths as computed; a negative one stands for the underflow of the unsigned subtraction. */
  datatype ChainState = ChainState(
    currentHeight: nat, fundingDepth: int, fundingDoubleSpentDepth: int, closingDepth: int)

  function Depth(height: nat, event: Option<nat>): int {
    if event.Some? then height + 1 - event.value else 0
  }

  function ChainStateOf(s: Facts): ChainState {
    ChainState(s.height, Depth(s.height, s.fundingHeight), Depth(s.height, s.doubleSpentHeight),
               Depth(s.height, s.closingHeight))
  }

  lemma StreamStarts(f: Funding, m: State, blockHash: BlockHash)
    requires f.Valid()
    ensures StreamBlock(f, m, [], blockHash) == Push(f, m, BlockStart(blockHash))
  {
    assert [BlockStart(blockHash)] + BlockEvents([]) == [BlockStart(blockHash)];
    PushOne(f, m, BlockStart(blockHash));
  }

  lemma {:induction false} EventsPrefix(txs: seq<BlockTx>, k: nat)
    requires k <= |txs|
    ensures BlockEvents(txs[..k]) <= BlockEvents(txs)
    decreases |txs|
  {
    if k < |txs| {
      var n := |txs| - 1;
      assert txs[..n][..k] == txs[..k];
      EventsPrefix(txs[..n], k);
    } else {
      assert txs[..k] == txs;
    }
  }

  lemma StreamStops(f: Funding, m: State, txs: seq<BlockTx>, blockHash: BlockHash, k: nat)
    requires f.Valid() && k <= |txs| && StreamBlock(f, m, txs[..k], blockHash).Panic?
    ensures StreamBlock(f, m, txs, blockHash).Panic?
  {
    EventsPrefix(txs, k);
    var some, all := [BlockStart(blockHash)] + BlockEvents(txs[..k]), [BlockStart(blockHash)] + BlockEvents(txs);
    PushAppend(f, m, some, all[|some|..]);
    assert some + all[|some|..] == all;
  }

  /** One more transaction, from where the first i have led. */
  lemma StreamNext(f: Funding, m: State, txs: seq<BlockTx>, blockHash: BlockHash, i: nat, now: State)
    requires f.Valid() && i < |txs| && StreamBlock(f, m, txs[..i], blockHash) == Done(now)
    ensures StreamBlock(f, m, txs[..i + 1], blockHash) == PushAll(f, now, TxEvents(txs[i]))
    ensures PushAll(f, now, TxEvents(txs[i])).Panic? ==> StreamBlock(f, m, txs, blockHash).Panic?
  {
    var before := [BlockStart(blockHash)] + BlockEvents(txs[..i]);
    PushAppend(f, m, before, TxEvents(txs[i]));
    assert txs[..i + 1][..i] == txs[..i];
    assert [BlockStart(blockHash)] + BlockEvents(txs[..i + 1]) == before + TxEvents(txs[i]);
    if StreamBlock(f, m, txs[..i + 1], blockHash).Panic? {
      StreamStops(f, m, txs, blockHash, i + 1);
    }
  }

  lemma {:induction false} AddStops(s: Facts, changes: seq<StateChange>, confirmed: bool, i: nat)
    requires i < |changes| && AddChanges(s, changes[..i + 1], confirmed).Panic?
    ensures AddChanges(s, changes, confirmed).Panic?
    decreases |changes|
  {
    if i + 1 < |changes| {
      var n := |changes| - 1;
      assert changes[..n][..i + 1] == changes[..i + 1];
      AddStops(s, changes[..n], confirmed, i);
    } else {
      assert changes[..i + 1] == changes;
    }
  }

  lemma {:induction false} RemoveStops(s: Facts, changes: seq<StateChange>, confirmed: bool, i: nat)
    requires i < |changes| && RemoveChanges(s, changes[..i + 1], confirmed).Panic?
    ensures RemoveChanges(s, changes, confirmed).Panic?
    decreases |changes|
  {
    if i + 1 < |changes| {
      var n := |changes| - 1;
      assert changes[..n][..i + 1] == changes[..i + 1];
      RemoveStops(s, changes[..n], confirmed, i);
    } else {
      assert changes[..i + 1] == changes;
    }
  }

  /** One more change, from where the first i have led. */
  lemma AddNext(s: Facts, changes: seq<StateChange>, confirmed: bool, i: nat, now: Facts)
    requires i < |changes| && AddChanges(s, changes[..i], confirmed) == Done(now)
    ensures AddChanges(s, changes[..i + 1], confirmed) == AddChange(now, changes[i], confirmed)
    ensures AddChange(now, changes[i], confirmed).Panic? ==> AddChanges(s, changes, confirmed).Panic?
  {
    assert changes[..i + 1][..i] == changes[..i];
    if AddChange(now, changes[i], confirmed).Panic? {
      AddStops(s, changes, confirmed, i);
    }
  }

  lemma RemoveNext(s: Facts, changes: seq<StateChange>, confirmed: bool, i: nat, now: Facts)
    requires i < |changes| && RemoveChanges(s, changes[..i], confirmed) == Done(now)
    ensures RemoveChanges(s, changes[..i + 1], confirmed) == RemoveChange(now, changes[i], confirmed)
    ensures RemoveChange(now, changes[i], confirmed).Panic? ==> RemoveChanges(s, changes, confirmed).Panic?
  {
    assert changes[..i + 1][..i] == changes[..i];
    if RemoveChange(now, changes[i], confirmed).Panic? {
      RemoveStops(s, changes, confirmed, i);
    }
  }
}
