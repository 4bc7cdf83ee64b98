# A verified model of the Validating Lightning Signer

The Validating Lightning Signer holds the keys of a Lightning node and serves signing requests from a
node it does not trust. This project models, in Dafny, the parts of it that have to be right for that to
be safe, and proves what holds in every run of them.

| part | files | what it is |
|---|---|---|
| Channel protocol | `Channel.dfy`, `ChannelSafety.dfy`, `ChannelRules.dfy`, `ChannelRestart.dfy` | the signer's side of `commitment_signed` / `revoke_and_ack`: counters, retries, closing, restarts |
| Revocation secrets | `CommitmentSecrets.dfy` | the 49-slot store of the counterparty's secrets of BOLT 3 |
| Chain monitor | `Monitor.dfy`, `Reorg.dfy` | decoding of streamed blocks, and following and unwinding a chain |
| Payment ledger | `Ledger.dfy`, `LedgerSafety.dfy`, `LedgerRules.dfy` | amounts per payment hash over all channels, invoices, pruning |
| Node | `Node.dfy`, `NodeSafety.dfy` | channels and ledger together: what is in flight per payment, checked and recorded |
| Cipher | `KeyStream.dfy`, `ChaCha.dfy`, `ChaChaStream.dfy`, `ChaChaWords.dfy` | the storage client's ChaCha20 and RFC 8439 |
| Value codec | `Codec.dfy` | MAC and cipher around a stored value |
| Memo store | `OrderedMap.dfy`, `MemoStore.dfy`, `MemoScan.dfy` | revisioned writes, mutations of a context, prefix scans |

Objects whose fields the program updates in place are classes; each of their methods is tied to a function
of the old value, and the results about whole runs are lemmas about those functions. Foreign code enters
as parameters: SHA-256, HMAC-SHA256 and the public key of a secret are function-valued, and signature
checks, amount policy and persistence are verdicts carried by a request, which pass, refuse or panic. A
failed `assert!`, `expect` or `unwrap` is an outcome of its own (`Panic`, or the reply `Crashed`), never a
precondition, except where it checks the shape of an argument (lengths of keys, nonces and buffers).
Commitment numbers and amounts are 64 bits wide and durations as wide as Rust's; arithmetic that leaves
its range panics, as it does for durations always and for integers in a build with overflow checks. Policy
errors are enforced, as in the strict configuration.

The guards of an operation are restated apart from the functions that compute them: in `ChannelRules.dfy`
by what a run has validated, signed and stored, in `LedgerRules.dfy` by plain sums and times, for the
secrets by BOLT 3's own generation from a seed, and for the cipher by RFC 8439 word for word.

ChaCha20 is written over a record of word operations. The equality of the two shapes, four lanes with
swizzling and columns with diagonals, is proved for all word operations; the 32-bit words come in at the
end, with the proofs that shift-and-xor rotates and that the block counter counts modulo 2^32.

Some properties one would expect do not hold of the code. Each is stated exactly instead, with an input
that breaks it.

- Removing the block last added does not always undo it. A block that confirms the funding and also spends
  it is not seen as closing when it is added, but is when it is removed, where an assertion then fails; a
  block that double-spends two funding inputs fails in the same way. `Reorg.UndoIff` gives the condition,
  `Reorg.SameBlockCloseExample` and `Reorg.TwoSpendsExample` concrete blocks.
- A refused request can have changed the channel. A `validate_counterparty_revocation` of the commitment
  signed last leaves its secret in the store, since the store is extended before the last guard; and a
  request that cannot be persisted was carried out before. `ChannelSafety.RefusalsChangeExactly` gives the
  condition, `ChannelSafety.RefusedSecretStays` a run.
- Over a restart a commitment can be both revoked and signed. A request that cannot be persisted has
  advanced the state in memory, from which a secret is then released; a restart brings back the state that
  still signs. `ChannelRestart.ReleaseSafeIff` gives the condition, `ChannelRestart.RevokedThenSigned` a life.
- An invoice registered after its payment can find that payment out of balance, since payments without an
  invoice may get there. `LedgerSafety.StepCovered` gives the condition, `LedgerSafety.LateInvoiceExample` a
  run.
- Learning a preimage can panic, since a payment without an invoice may have lost its incoming part and then
  asks for a credit below zero. `LedgerSafety.LearningStopsOnCredit` gives the condition,
  `LedgerSafety.LossStopsLearning` a run.
- Pruning can panic, on the times of an invoice: `sign_invoice` takes any expiry.
  `LedgerSafety.PruningStopsOnTimes` gives the condition, `LedgerSafety.NoExpiryStopsPruning` an invoice.
- A heartbeat can forget a payment that a channel still commits to, if its invoice is expired and it is
  fulfilled or only incoming. `NodeSafety.BeatMatchesIff` gives the condition, `NodeSafety.ForgottenExample`
  a node, and `NodeSafety.ForgottenReached` the run that leads to it.
- The bytes under a stored value's MAC do not say where the key ends, so that one tag can be right for two
  values under two keys. `Codec.MacInputsMeet` gives the condition, `Codec.CutValueAccepted` two such values.

## Model

| member | source | states |
|---|---|---|
| `CommitmentSecrets.PlaceSpec` | vls-core/src/policy/validator.rs:539-547 | the slot of an index is its number of trailing zero bits, up to 48 |
| `CommitmentSecrets.DeriveThrough` | vls-core/src/policy/validator.rs:562-573 | deriving a secret to a leaf of the tree is deriving to an inner node and on from there |
| `CommitmentSecrets.BitSpec` | vls-core/src/policy/validator.rs:539-573 | bit i of an index is the index divided by 2^i, modulo two |
| `CommitmentSecrets.FlipsOneBit` | vls-core/src/policy/validator.rs:567 | a derivation step flips one bit of the 256 and no other, counted from the low bit of the first byte |
| `CommitmentSecrets.DeriveGenerates` | vls-core/src/policy/validator.rs:562-573 | deriving all the way down is BOLT 3's loop of flipping and hashing |
| `CommitmentSecrets.Secrets.constructor` | vls-core/src/policy/validator.rs:533-536 | all 49 slots start unused |
| `CommitmentSecrets.Secrets.PlaceSecret` | vls-core/src/policy/validator.rs:539-547 | the loop finds the lowest set bit |
| `CommitmentSecrets.Secrets.DeriveSecret` | vls-core/src/policy/validator.rs:562-573 | the loop over bits, highest first, computes the recursive derivation |
| `CommitmentSecrets.Secrets.GetMinSeenSecret` | vls-core/src/policy/validator.rs:550-559 | the smallest index in any slot, 2^48 if none |
| `CommitmentSecrets.Secrets.ProvideSecret` | vls-core/src/policy/validator.rs:576-590 | accepted exactly when every lower slot derives from the new secret; a refusal changes nothing |
| `CommitmentSecrets.Secrets.GetSecret` | vls-core/src/policy/validator.rs:593-602 | the first covering slot answers; the assertion fails exactly where none covers an index already seen |
| `CommitmentSecrets.ProvideIff` | vls-core/src/policy/validator.rs:576-590 | on a store holding a run of secrets, the slot check accepts the next secret exactly when it derives all earlier ones below it |
| `CommitmentSecrets.ProvideKeeps` | vls-core/src/policy/validator.rs:576-590 | after an accepted secret the store holds the run extended by it |
| `CommitmentSecrets.ProvideAgain` | vls-core/src/policy/validator.rs:576-590 | offering an already revealed index again leaves the store as it is |
| `CommitmentSecrets.ProvideChanges` | vls-core/src/policy/validator.rs:576-590 | an accepted secret changes the store exactly when its index is below all those on file |
| `CommitmentSecrets.GetHeld` | vls-core/src/policy/validator.rs:593-602 | every revealed secret is read back, later ones are absent, and the closing assertion never fires |
| `CommitmentSecrets.GetStopsIff` | vls-core/src/policy/validator.rs:593-602 | in any store the assertion fails exactly for an index that no slot covers although one at or below it was seen |
| `CommitmentSecrets.FillAccepts` | vls-core/src/policy/validator.rs:576-590 | a whole run of secrets is accepted if and only if each derives all those before it in its subtree |
| `CommitmentSecrets.Recovery` | vls-core/src/policy/validator.rs:576-602 | after any accepted run of any length the 49 slots answer for every secret of it and for no other |
| `CommitmentSecrets.HonestAccepted` | vls-core/src/policy/validator.rs:562-590 | secrets generated from one seed by BOLT 3's generate_from_seed are all accepted |
| `Channels.Channel.constructor` | vls-core/src/policy/validator.rs:649-665 | a new channel has all counters at zero and nothing remembered |
| `Channels.Channel.GetPerCommitmentPoint` | vls-core/src/channel.rs:377-393 | answered up to one past the next number; panics where there is no such point to count down to |
| `Channels.Channel.GetPerCommitmentSecret` | vls-core/src/channel.rs:395-416 | a secret is handed out exactly for numbers two below the next holder commitment; panics exactly where adding two overflows |
| `Channels.Channel.CheckFutureSecret` | vls-core/src/channel.rs:418-426 | answers whether a suggested secret is that of any number, releasing none; panics from number 2^48 on |
| `Channels.Channel.ValidateHolderCommitment` | vls-core/src/channel.rs:811-916 | point, policy, retry, revocation and closing guards in order, each refusing or panicking, then the advance |
| `Channels.Channel.CheckHolder` | vls-core/src/policy/simple_validator.rs:790-872 | a retry must be the same commitment, a revoked number is refused, and a new one on a closed channel |
| `Channels.Channel.AdvanceHolder` | vls-core/src/channel.rs:778-803 | new number, commitment and signatures are recorded, the replaced commitment's secret is returned; panics after recording number 2^48 - 1, which has no next point |
| `Channels.Channel.SignHolderCommitment` | vls-core/src/channel.rs:918-976 | signs only the current commitment and closes the channel; panics at number 2^64 - 1 |
| `Channels.Channel.SignHolderCommitmentForRecovery` | vls-core/src/channel.rs:981-1065 | signs the stored commitment and closes the channel |
| `Channels.Channel.SignHolderCommitmentRedundant` | vls-core/src/channel.rs:1073-1140 | signs a supplied commitment under the same guards as validation and closes the channel |
| `Channels.Channel.SignCounterpartyCommitment` | vls-core/src/channel.rs:529-615 | revocation window and retry guards, the number counted down, payments, then the counter step, in the order in which they refuse or panic |
| `Channels.Channel.SetNextCounterpartyCommitNum` | vls-core/src/policy/validator.rs:269-338 | the commit counter guards, and the shift of current to previous on a new number only |
| `Channels.Channel.ValidateCounterpartyRevocation` | vls-core/src/channel.rs:2055-2092 | the point check, the secret store if there is one, and the revoke counter, in the order in which they can refuse or panic |
| `Channels.Channel.CheckRevocation` | vls-core/src/policy/simple_validator.rs:874-925 | the secret has to be that of the point the number was signed with |
| `Channels.Channel.SetNextCounterpartyRevokeNum` | vls-core/src/policy/validator.rs:341-384 | the window and progression guards, zero and overflow included; the previous commitment is forgotten once revoked, then the step is persisted |
| `Channels.Channel.SignMutualClose` | vls-core/src/channel.rs:1235-1270 | refused while either commitment has an HTLC; closes the channel |
| `ChannelSafety.RunInv` | vls-core/src/channel.rs:778-1140 | every run of requests keeps the joint invariant of holder, counterparty and secret state |
| `ChannelSafety.NeverSignedAndRevoked` | vls-core/src/channel.rs:395-1140 | in no run is a commitment number both revoked (its secret released) and signed by the holder, in either order, over all signing paths |
| `ChannelSafety.ReleasedOnlyWhenReplaced` | vls-core/src/channel.rs:395-416 | a secret is out only after the commitment replacing its own was validated |
| `ChannelSafety.StoredSignaturesMatch` | vls-core/src/channel.rs:918-1065 | holder signatures from the stored commitment are over what was validated for that number |
| `ChannelSafety.CounterpartySignaturesAgree` | vls-core/src/channel.rs:1711-1853 | all signatures ever issued on one counterparty number, phase 1 and 2 and retries mixed, are over one point and one commitment |
| `ChannelSafety.TurnMovesByOne` | vls-core/src/policy/validator.rs:227-384 | from any state a request moves each counter by at most one, and never the holder's after closing |
| `ChannelSafety.CountersInStep` | vls-core/src/policy/validator.rs:269-384 | in every run next_revoke <= next_commit <= next_revoke + 2, strict once signed, each moving by at most one |
| `ChannelSafety.OldCommitmentsPunishable` | vls-core/src/channel.rs:2055-2092 | once a counterparty commitment is signed, the secret of each one two or more below can be read back from the store, and its public key is the point that commitment was signed with |
| `ChannelSafety.RevokedOnFile` | vls-core/src/channel.rs:2069-2087 | the secrets on file are those of revoked commitments, perhaps the next one, and no other |
| `ChannelSafety.CrashesExactly` | vls-core/src/channel.rs:377-2092 | in every run a request panics if and only if its number leaves the range of the arithmetic it meets, holder recovery comes before the first commitment, or an outside check panics after all before it have passed; the signer's own `expect`s on its counters never fail |
| `ChannelSafety.RefusalsChangeExactly` | vls-core/src/channel.rs:377-2092 | in every run a refused request has changed the state if and only if it passed all checks and could not be persisted, or was a revocation of the latest signed commitment with a good secret not yet on file; then only the store has changed |
| `ChannelSafety.RefusedSecretStays` | vls-core/src/channel.rs:2055-2092 | signing the first counterparty commitment and revoking it at once is such a run |
| `ChannelRules.GrantsExactly` | vls-core/src/channel.rs:377-2092 | for each of the eleven requests, in every run, exactly when it is granted, in terms of what was validated, signed and revoked before |
| `ChannelRules.StopsExactly` | vls-core/src/channel.rs:377-2092 | likewise exactly when it stops the signer |
| `ChannelRules.DisclosesExactly` | vls-core/src/channel.rs:377-2092 | what a granted request discloses: which secret, or a signature on which number and commitment |
| `ChannelRules.TakesOverExactly` | vls-core/src/channel.rs:377-2092 | what a granted request leaves: the commitment validated or signed, the signatures, the secret, the revoke counter, the closing, and nothing else of these |
| `ChannelRules.HonestRevocationGranted` | vls-core/src/channel.rs:2055-2092 | a counterparty that revokes its last commitment but one with the next secret of its seed is never refused |
| `ChannelRules.PreviousExactly` | vls-core/src/policy/validator.rs:716-800 | in every run the commitment still to be revoked is remembered, and none when there is none |
| `ChannelRestart.LifeFollows` | vls-core/src/node.rs:1395-1458 | through any restarts, memory and disk are the states of two runs without a restart, one extending the other, and all that was signed is in the persisted one |
| `ChannelRestart.CounterpartySignaturesAgree` | vls-core/src/channel.rs:529-615 | all signatures ever issued on one counterparty number are over one point and commitment, restarts included |
| `ChannelRestart.OldCommitmentsPunishable` | vls-core/src/channel.rs:2055-2092 | the secret of each counterparty commitment signed two or more ago can be had from memory and from what a restart brings back |
| `ChannelRestart.CarefulNeverConflicts` | vls-core/src/channel.rs:395-416 | in a life in which no secret is released whose replacement is not persisted, no commitment is both revoked and signed |
| `ChannelRestart.EarlyConflicts` | vls-core/src/channel.rs:395-416 | after any early release, a restart and requests that all pass lead to a signature on the commitment revoked |
| `ChannelRestart.ReleaseSafeIff` | vls-core/src/channel.rs:395-416 | releasing secret n is safe in every continuation without an early release if and only if it is refused or the persisted counter is at least n + 2 |
| `ChannelRestart.RevokedThenSigned` | vls-core/src/channel.rs:1422-1428 | five moves, one of them not persisted, after which commitment 0 is both revoked and signed |
| `Monitor.ChainMonitor.constructor` | vls-core/src/monitor.rs:314-329 | a new monitor knows only its height |
| `Monitor.ChainMonitor.AddFunding` | vls-core/src/monitor.rs:360-367 | only one funding transaction can be set up; its inputs are watched |
| `Monitor.ChainMonitor.OnBlockStart` | vls-core/src/monitor.rs:281-293 | starts decoding afresh |
| `Monitor.ChainMonitor.OnTransactionStart` | vls-core/src/monitor.rs:77-86 | resets the counters of a transaction, or is ignored before the first block start |
| `Monitor.ChainMonitor.OnTransactionInput` | vls-core/src/monitor.rs:88-114 | notes double spends, starts a closing transaction, panics if that has another input |
| `Monitor.ChainMonitor.OnTransactionOutput` | vls-core/src/monitor.rs:116-131 | collects the outputs of a closing transaction, up to 600 |
| `Monitor.ChainMonitor.OnTransactionEnd` | vls-core/src/monitor.rs:133-156 | emits funding and closing confirmations |
| `Monitor.ChainMonitor.OnAddBlockEnd` | vls-core/src/monitor.rs:165-219 | applies the decoded changes at the new height |
| `Monitor.ChainMonitor.OnRemoveBlockEnd` | vls-core/src/monitor.rs:222-279 | takes the decoded changes back and lowers the height |
| `Monitor.ChainMonitor.OnAddBlock` | vls-core/src/monitor.rs:405-428 | streams the transactions and applies them |
| `Monitor.ChainMonitor.OnRemoveBlock` | vls-core/src/monitor.rs:435-457 | streams the transactions and takes them back |
| `Monitor.ChainMonitor.AsChainState` | vls-core/src/monitor.rs:384-395 | height and the three depths |
| `Monitor.InputsDecoded` | vls-core/src/monitor.rs:88-114 | the inputs of a transaction yield its double spends in order, and the closing transaction exactly when its only input spends the funding |
| `Monitor.OutputsDecoded` | vls-core/src/monitor.rs:116-131 | a closing transaction gets exactly the outputs streamed |
| `Monitor.TxDecoded` | vls-core/src/monitor.rs:77-156 | the events of one transaction add exactly its changes, the closing transaction rebuilt in full, or stop the decoder exactly when it is not well formed |
| `Monitor.BlockDecoded` | vls-core/src/monitor.rs:71-156 | the same for all transactions of a block |
| `Monitor.BlocksAsPasses` | vls-core/src/monitor.rs:405-462 | streaming a block and ending it is one functional pass over its transactions, for adding and for removing |
| `Monitor.TailIgnored` | vls-core/src/monitor.rs:165-168 | a monitor created inside a block ignores the rest of it, its end included |
| `Monitor.OutsideBlock` | vls-core/src/monitor.rs:165-293 | once a block was seen, an event outside of one other than a start panics, and so does an end |
| `Monitor.OtherBlockEnds` | vls-core/src/monitor.rs:165-235 | so does an end with another hash than the start |
| `Reorg.BlockByTally` | vls-core/src/monitor.rs:165-279 | adding and removing depend only on how often a block confirms, double-spends and closes, and on the confirmed output |
| `Reorg.UndoIff` | vls-core/src/monitor.rs:165-279 | adding a block and removing it restores the state with no assertion failing if and only if the block is reversible in that state |
| `Reorg.SameBlockCloseCrashes` | vls-core/src/monitor.rs:222-279 | a block that confirms and closes is added without the closing being seen, and removing it panics |
| `Reorg.SameBlockCloseExample` | vls-core/src/monitor.rs:222-279 | a two-transaction block of that kind |
| `Reorg.TwoSpendsCrash` | vls-core/src/monitor.rs:222-279 | a block with two double spends is added and panics on removal |
| `Reorg.TwoSpendsExample` | vls-core/src/monitor.rs:222-279 | one transaction spending both funding inputs is such a block |
| `Reorg.FirstClosingIsFirst` | vls-core/src/monitor.rs:88-114 | the reference notion of the first closing block: it closes, and none before it does |
| `Reorg.KnownStep` | vls-core/src/monitor.rs:165-219 | adding a reversible block to what a chain says gives what the longer chain says |
| `Reorg.KnownBack` | vls-core/src/monitor.rs:222-279 | removing the tip gives what the shorter chain says |
| `Reorg.OrdinaryIsValid` | vls-core/src/monitor.rs:165-279 | a chain that confirms the funding at most once, spends it at most once in a later block, and double-spends only if it never confirms, is reversible block by block |
| `Reorg.OnlySurvivingChainCounts` | vls-core/src/monitor.rs:165-279 | after any run of adds and last-in-first-out removes over valid chains, no assertion has failed and the state is what the surviving chain alone says |
| `Reorg.OrdinaryRunsAreValid` | vls-core/src/monitor.rs:165-279 | runs over ordinary chains are such runs |
| `Reorg.DepthsCountBlocks` | vls-core/src/monitor.rs:371-395 | in every such run each reported depth is the number of surviving blocks from the first such event on, or zero, with no underflow |
| `Ledgers.SumUpdate` | vls-core/src/node.rs:204-225 | replacing one channel's amount replaces its share of the sum over channels |
| `Ledgers.NodeState.UpdatedIncomingOutgoing` | vls-core/src/node.rs:204-217 | the totals over all channels with one channel's amounts replaced; panics exactly where a total overflows |
| `Ledgers.NodeState.CheckHash` | vls-core/src/node.rs:434-478 | one payment is in balance, or known and without an invoice; panics exactly where its amounts in millisatoshi overflow |
| `Ledgers.NodeState.ValidatePayments` | vls-core/src/node.rs:410-506 | every hash in balance and the register not below zero; panics exactly where the sums, products or the register overflow |
| `Ledgers.NodeState.ApplyPayments` | vls-core/src/node.rs:513-587 | records, newly paid issued invoices and the register after a commitment |
| `Ledgers.NodeState.HtlcFulfilled` | vls-core/src/node.rs:591-654 | the preimage is recorded once and the margin of an uninvoiced payment credited; reports whether anything changed, panics exactly where totals or credit leave their range |
| `Ledgers.NodeState.AddInvoice` | vls-core/src/node.rs:2342-2390 | a timely, admitted invoice gets its entry and a fresh payment record; panics if that cannot be persisted or the times overflow |
| `Ledgers.NodeState.SignInvoice` | vls-core/src/node.rs:2120-2160 | an issued invoice is entered unless there are too many or the hash is taken |
| `Ledgers.NodeState.PruneInvoices` | vls-core/src/node.rs:689-735 | expired invoices that are paid or unused go with their records; panics exactly if one has no record, times out of range or a sum out of range |
| `Ledgers.NodeState.IsInvoicePrunable` | vls-core/src/node.rs:754-772 | past its prune time, and fulfilled or with nothing outgoing |
| `Ledgers.NodeState.PruneIssuedInvoices` | vls-core/src/node.rs:670-687 | issued invoices past their prune time go; panics exactly if one has times out of range |
| `Ledgers.NodeState.PruneForwardedPayments` | vls-core/src/node.rs:737-752 | records with neither invoice nor amounts go |
| `Ledgers.NodeState.GetHeartbeat` | vls-core/src/node.rs:1723-1735 | the three prunings in order |
| `LedgerSafety.RestoreRecorded` | vls-core/src/node.rs:1466-1510 | a restored node, after any number of channels restored their payments, has a payment record for every invoice |
| `LedgerSafety.RunRecorded` | vls-core/src/node.rs:513-784 | every run from a recorded ledger keeps a record for every invoice |
| `LedgerSafety.RunStopsExactly` | vls-core/src/node.rs:410-784 | in every run an operation panics if and only if amounts, totals, the register or an invoice's times would leave their range, or a new invoice cannot be persisted |
| `LedgerSafety.RunBounded` | vls-core/src/node.rs:410-784 | every run keeps the totals of every record within 64 bits |
| `LedgerSafety.PruningStopsOnTimes` | vls-core/src/node.rs:656-784 | in every run from such a ledger, a heartbeat panics if and only if the times of some listed invoice overflow |
| `LedgerSafety.NoExpiryStopsPruning` | vls-core/src/node.rs:656-687 | an issued invoice with the longest expiry in whole seconds stops the first heartbeat, whatever comes in between |
| `LedgerSafety.LearningStopsOnCredit` | vls-core/src/node.rs:591-654 | in every run from such a ledger, a preimage panics if and only if its payment is credited and the register with what came in overflows or is below what went out |
| `LedgerSafety.LossStopsLearning` | vls-core/src/node.rs:410-654 | two commitments and a preimage that panics |
| `LedgerSafety.StoredAsValidated` | vls-core/src/node.rs:410-587 | the totals stored by applying are the totals that validating checked |
| `LedgerSafety.StepCovered` | vls-core/src/node.rs:410-784 | an operation keeps every invoiced hash in balance if and only if it is not an invoice registered for payments that already exceed it |
| `LedgerSafety.LateInvoiceExample` | vls-core/src/node.rs:410-587 | two commitments and a keysend, as `add_keysend` enters it, after which an invoiced payment is out of balance |
| `LedgerSafety.InvoicedPaymentsBalanced` | vls-core/src/node.rs:410-587 | in every run without such a late invoice, the totals of each invoiced hash over all channels satisfy the balance rule |
| `LedgerSafety.ExcessAccounted` | vls-core/src/node.rs:551-654 | after any run the register is its start plus all applied balance changes plus all credits |
| `LedgerSafety.ValidatedApplies` | vls-core/src/node.rs:490-572 | what validating admits, applying never refuses |
| `LedgerSafety.KnownNotCredited` | vls-core/src/node.rs:591-654 | while its record stays, a payment whose preimage is known, an issued invoice marked paid included, is never credited |
| `LedgerSafety.CreditedOnce` | vls-core/src/node.rs:591-654 | while its record stays, no payment is credited twice in a run |
| `LedgerSafety.HeartbeatKeeps` | vls-core/src/node.rs:656-784 | exactly which invoices, issued invoices and records a heartbeat keeps, unchanged |
| `LedgerSafety.HeartbeatDropsNothingPending` | vls-core/src/node.rs:737-784 | a dropped record was fulfilled or had nothing outgoing; a kept one has an invoice or an amount |
| `LedgerSafety.HeartbeatSettles` | vls-core/src/node.rs:1723-1735 | a second heartbeat at the same time removes nothing and reports so |
| `LedgerRules.AdmitsExactly` | vls-core/src/node.rs:410-506 | exactly which commitments are admitted and on which validating panics, in sums over channels, invoice amount and routing fee |
| `LedgerRules.RecordsExactly` | vls-core/src/node.rs:513-587 | what an applied commitment changes: the channel's two amounts of each payment it names, the register, and nothing else |
| `LedgerRules.PaidExactly` | vls-core/src/node.rs:536-572 | a record is marked after a commitment exactly if it was before, or its issued invoice is covered by what came in less what went out |
| `LedgerRules.PaidMark` | vls-core/src/node.rs:558-572 | the mark is a preimage of 32 zero bytes |
| `LedgerRules.PaidNotCredited` | vls-core/src/node.rs:536-654 | in every run an issued invoice that a commitment paid is not credited again while its record stays |
| `LedgerRules.ApplyingStopsExactly` | vls-core/src/node.rs:513-587 | on which commitments applying panics |
| `LedgerRules.LearnsExactly` | vls-core/src/node.rs:591-654 | the whole effect of a preimage |
| `LedgerRules.RegistersExactly` | vls-core/src/node.rs:2342-2390 | which invoices are entered, accepted as a repetition, refused, or panic, times and limits spelled out |
| `LedgerRules.IssuesExactly` | vls-core/src/node.rs:2120-2160 | the same for issued invoices |
| `LedgerRules.PrunesExactly` | vls-core/src/node.rs:656-784 | what a heartbeat leaves: invoices up to a day after their expiry, keysends up to it, records with amounts |
| `LedgerRules.PruningStopsExactly` | vls-core/src/node.rs:656-784 | on which ledgers it panics |
| `LedgerRules.ReportsExactly` | vls-core/src/node.rs:1723-1735 | it reports a change exactly if it made one |
| `LedgerRules.RestoresExactly` | vls-core/src/node.rs:304-345 | a restart has a fresh record per invoice and else one per known preimage |
| `Nodes.SummarizePayments` | vls-core/src/policy/validator.rs:926-933 | the HTLCs of each payment hash summed; panics exactly where a sum overflows |
| `Nodes.PaymentsSummary` | vls-core/src/policy/validator.rs:844-879 | for each payment the greater of what the holder offers and the counterparty receives, zero for those no longer there |
| `Nodes.IncomingPaymentsSummary` | vls-core/src/policy/validator.rs:889-924 | for each payment of both sides the smaller of what the holder receives and the counterparty offers, zero for those no longer there |
| `NodeSafety.SumForPlaced` | vls-core/src/policy/validator.rs:926-933 | every HTLC counts for its payment and no other, wherever it stands |
| `NodeSafety.OutgoingIsGreater` | vls-core/src/policy/validator.rs:844-879 | out go the HTLCs the holder offers and the counterparty receives, the greater sum of the two |
| `NodeSafety.IncomingIsSmaller` | vls-core/src/policy/validator.rs:889-924 | in come those the holder receives and the counterparty offers, the smaller sum, none while one side is missing |
| `NodeSafety.SummariesName` | vls-core/src/policy/validator.rs:844-924 | exactly which payments the two summaries name |
| `NodeSafety.AcceptedTakes` | vls-core/src/channel.rs:529-916 | an accepted commitment, new or a retry, by any of the three requests, is the current one afterwards |
| `NodeSafety.UpdateSays` | vls-core/src/policy/validator.rs:844-924 | a summary gives every payment's amounts after a change, and a payment it does not name has none before or after |
| `NodeSafety.StepMatches` | vls-core/src/channel.rs:529-916 | an operation on a node whose records are those of its channels' commitments keeps them so, if and only if it is not a heartbeat that drops a record in flight |
| `NodeSafety.BeatMatchesIff` | vls-core/src/node.rs:656-784 | a heartbeat keeps them so if and only if nothing is in flight for any invoice it drops |
| `NodeSafety.ForgottenExample` | vls-core/src/node.rs:689-772 | a node with a fulfilled keysend still committed to, whose minute is over, where it does not |
| `NodeSafety.ForgottenReached` | vls-core/src/node.rs:513-784 | four operations from an empty node lead to it |
| `NodeSafety.RunMatches` | vls-core/src/channel.rs:529-916 | after any interleaving of requests to any channels and of ledger operations, without such a heartbeat, each record's amounts for each channel are the summary of that channel's current commitments |
| `NodeSafety.AskStopsExactly` | vls-core/src/channel.rs:529-916 | a request stops the node exactly if it stops its channel: what was validated the ledger can always apply |
| `NodeSafety.IncomingOverflowStops` | vls-core/src/channel.rs:529-916 | a commitment whose incoming HTLCs overflow stops the node before policy is asked |
| `NodeSafety.PaymentsOverflowStops` | vls-core/src/channel.rs:529-916 | one whose outgoing HTLCs overflow, or whose totals do, stops it if all other checks pass |
| `NodeSafety.TotalsMatch` | vls-core/src/node.rs:194-217 | the totals of a record are the sums over what all channels commit to |
| `NodeSafety.LedgerFollows` | vls-core/src/node.rs:410-784 | the ledger of a node goes through a run of the ledger, so that all its results apply |
| `NodeSafety.ChannelsFollow` | vls-core/src/channel.rs:377-2092 | each channel of a node goes through a run of its own, whatever the others and the ledger do |
| `NodeSafety.CommitmentsBalanced` | vls-core/src/node.rs:410-587 | in every run without late invoices and forgetting heartbeats, what all channels commit to send for an invoice is within what they commit to receive, the invoice and the fee |
| `NodeSafety.FromNothing` | vls-core/src/node.rs:410-784 | both for every such run of a new node, whose commitments can also be summarized without overflow |
| `NodeSafety.RunFits` | vls-core/src/policy/validator.rs:844-933 | in every run the commitments of every channel can be summarized without overflow |
| `NodeSafety.RestartMatches` | vls-core/src/channel.rs:617-636 | after a restart, in whatever order channels restore their payments and whatever was forgotten before, the records are those of the commitments again |
| `KeyStream.CryptTwice` | lightning-storage-server/src/chacha20.rs:225-271 | enciphering twice at one place is the identity |
| `KeyStream.CryptAppend` | lightning-storage-server/src/chacha20.rs:225-271 | enciphering in pieces, however cut, is enciphering at once |
| `KeyStream.CryptIsBlockByBlock` | lightning-storage-server/src/chacha20.rs:225-271 | reading the key stream byte by byte is xoring block by block, for all lengths |
| `KeyStream.CryptBothIff` | lightning-storage-server/src/chacha20.rs:225-271 | enciphering under two key streams gives exactly the bytes with both xored in |
| `ChaCha.RoundLanes` | lightning-storage-server/src/chacha20.rs:119-139 | lane i of a round is the quarter round of the four words in lane i |
| `ChaCha.DoubleRoundAgrees` | lightning-storage-server/src/chacha20.rs:95-139 | round, swizzle, round, unswizzle is the column rounds followed by the diagonal rounds |
| `ChaCha.MixedAgree` | lightning-storage-server/src/chacha20.rs:196-208 | any number of double rounds agrees with as many of RFC 8439's inner blocks, for all word operations |
| `ChaCha.BlocksAgree` | lightning-storage-server/src/chacha20.rs:196-210 | ten rounds, addition and serialization lane by lane are the block of section 2.3.1: ten inner blocks, then word by word |
| `ChaChaStream.ExpandIsRfcState` | lightning-storage-server/src/chacha20.rs:167-193 | a 32-byte key and 12-byte nonce are laid out as section 2.3 of RFC 8439 says, counter zero |
| `ChaChaStream.ExpandWithCounter` | lightning-storage-server/src/chacha20.rs:167-193 | a 16-byte nonce is a little-endian counter and a 12-byte nonce |
| `ChaChaStream.ShortNonceAtEnd` | lightning-storage-server/src/chacha20.rs:183-191 | an 8-byte nonce leaves the first two words of its row at zero |
| `ChaChaStream.SeekIsCounter` | lightning-storage-server/src/chacha20.rs:156-193 | seeking a 12-byte-nonce cipher to the first word of a 16-byte nonce gives that nonce's state |
| `ChaChaStream.CryptIsRfc` | lightning-storage-server/src/chacha20.rs:196-271 | what the cipher computes at any position is what the RFC computes block by block |
| `ChaChaStream.Mix` | lightning-storage-server/src/chacha20.rs:197-208 | the loop of ten double rounds and the addition |
| `ChaChaStream.StateToBuffer` | lightning-storage-server/src/chacha20.rs:106-117 | the words of a state, little-endian, in order |
| `ChaChaStream.XorInto` | lightning-storage-server/src/chacha20.rs:242-244 | the inner loop enciphers its stretch and touches nothing else |
| `ChaChaStream.ChaCha20.constructor` | lightning-storage-server/src/chacha20.rs:148-153 | a fresh cipher stands at position zero of the key stream of its key and nonce |
| `ChaChaStream.ChaCha20.Update` | lightning-storage-server/src/chacha20.rs:196-222 | the next block is in the buffer; panics exactly when the counter was 2^32 - 1 |
| `ChaChaStream.ChaCha20.Process` | lightning-storage-server/src/chacha20.rs:225-248 | xors byte k with key stream byte position + k whatever was buffered, and moves on by the length; panics exactly when position plus length exceeds 64 times (2^32 - 1 - first counter) |
| `ChaChaStream.ChaCha20.ProcessInPlace` | lightning-storage-server/src/chacha20.rs:250-271 | the same function of the old contents as `Process` computes, in place |
| `ChaChaStream.ChaCha20.SeekToBlock` | lightning-storage-server/src/chacha20.rs:274-277 | the key stream starts again at the chosen counter; panics exactly at 2^32 - 1 |
| `ChaChaStream.Encipher` | lightning-storage-server/src/util.rs:71-72 | a fresh cipher over a buffer enciphers all of it, or panics exactly when it is too long |
| `ChaChaStream.GetSingleBlock` | lightning-storage-server/src/chacha20.rs:156-165 | the first 32 bytes of the block at the nonce's counter; panics exactly when that counter is 2^32 - 1 |
| `ChaChaStream.SeekAndRead` | lightning-storage-server/src/chacha20.rs:225-277 | the first 32 bytes after seeking; panics exactly at counter 2^32 - 1 |
| `ChaChaStream.SingleBlockBySeeking` | lightning-storage-server/src/chacha20.rs:156-165 | the single block of a 16-byte nonce is what a cipher with the last 12 bytes gives after seeking to the counter in the first four, panics included |
| `ChaChaWords.SourceOpsAreRfcOps` | lightning-storage-server/src/chacha20.rs:132-145 | the shift-and-xor rotations by 16, 12, 8 and 7 are the rotations of section 2.1 of RFC 8439, on all words |
| `ChaChaWords.SourceCounts` | lightning-storage-server/src/chacha20.rs:20-30 | wrapping addition of one counts modulo 2^32 in the number the bytes of a word spell |
| `ChaChaWords.SourceStartsAtZero` | lightning-storage-server/src/chacha20.rs:183-191 | the counter of a fresh cipher is zero, so that it reaches 64 times (2^32 - 1) bytes |
| `ChaChaWords.LeRoundTrip` | lightning-storage-server/src/chacha20.rs:61-69 | a word survives being written and read little-endian |
| `ChaChaWords.ShortKeyTwice` | lightning-storage-server/src/chacha20.rs:167-193 | a 16-byte key fills both key rows, under the constants "expand 16-byte k" |
| `ChaChaWords.BlockConforms` | lightning-storage-server/src/chacha20.rs:95-212 | for every key, counter and nonce the block computed is the block of section 2.3 of RFC 8439 |
| `ChaChaWords.CipherConforms` | lightning-storage-server/src/chacha20.rs:148-271 | for every 32-byte key, 12-byte nonce and data the cipher is that of section 2.4 from counter zero |
| `ChaChaWords.CounterConforms` | lightning-storage-server/src/chacha20.rs:156-193 | with a 16-byte nonce it is that cipher from the counter in the first word |
| `Codec.OpenedIff` | lightning-storage-server/src/util.rs:51-105 | reading yields a value exactly from the bytes that putting this value under this secret, key and version stores: both round trips at once |
| `Codec.MacInputBinds` | lightning-storage-server/src/util.rs:101-112 | for one value the bytes under the MAC determine key and version, although they do not say where the key ends |
| `Codec.MacInputsMeet` | lightning-storage-server/src/util.rs:101-112 | two values under any two keys and versions have the same bytes under the MAC if and only if the longer key and its version begin with the shorter and its version, and the value under the shorter begins with the rest |
| `Codec.RetaggedIff` | lightning-storage-server/src/util.rs:82-99 | without encryption, the tag of one value is accepted with another under another key and version if and only if their MAC inputs are the same or collide |
| `Codec.CutValueAccepted` | lightning-storage-server/src/util.rs:82-112 | a value under the empty key and, cut by eight bytes, under a key of eight zero bytes, with one tag |
| `Codec.MovedIff` | lightning-storage-server/src/util.rs:75-99 | without encryption, bytes stored under one key and version are accepted under another if and only if as the same value, and the key and version are the same or the two MAC inputs differ and collide |
| `Codec.BeBytesSpec` | lightning-storage-server/src/util.rs:101-112 | the version is written big-endian |
| `Codec.NoncesAgreeIff` | lightning-storage-server/src/util.rs:63-73 | two nonces agree if and only if the hashes of key and big-endian version agree in their first twelve bytes |
| `Codec.MovedEncryptedIff` | lightning-storage-server/src/util.rs:63-99 | with encryption, bytes stored under one key and version are accepted under another if and only if both key streams together leave a value with a right tag |
| `Codec.StoredForm` | lightning-storage-server/src/util.rs:51-112 | the stored form in full: value and HMAC of key, version and value, under RFC 8439 from counter zero, keyed with the secret, with that nonce |
| `Codec.Value.AppendHmac` | lightning-storage-server/src/util.rs:57-60 | the MAC of key, version and value is appended |
| `Codec.Value.CryptValue` | lightning-storage-server/src/util.rs:63-73 | enciphers under the nonce of key and version; panics exactly for a secret that is not 16 or 32 bytes or a value past the cipher's reach |
| `Codec.Value.PrepareForPut` | lightning-storage-server/src/util.rs:51-55 | the stored form of a value, and exactly when there is none |
| `Codec.Value.RemoveAndCheckHmac` | lightning-storage-server/src/util.rs:82-99 | accepts exactly a right tag; what is left behind on a refusal |
| `Codec.Value.ProcessFromGet` | lightning-storage-server/src/util.rs:75-80 | the value read back, or a refusal, exactly as specified by `Opened` |
| `OrderedMap.GetInsert` | vls-persist/src/thread_memo_persister.rs:78 | an entry is found where it was put and all others are as before |
| `OrderedMap.Canonical` | vls-persist/src/thread_memo_persister.rs:26 | ordered maps that answer alike are equal |
| `OrderedMap.ScanFindsAll` | vls-persist/src/thread_memo_persister.rs:97-99 | starting at the prefix and stopping at the first key without it finds all keys that have it |
| `MemoStore.UnhexHex` | vls-persist/src/thread_memo_persister.rs:101 | decoding undoes hex encoding |
| `MemoStore.RunTracks` | vls-persist/src/thread_memo_persister.rs:64-80 | after any run of inserts and removes no assertion has failed, each key holds its last value at a revision that grew by the number of value-changing inserts plus removes (a new key starts at zero), and is dirty exactly if there were any |
| `MemoStore.MutationsSuffice` | vls-persist/src/thread_memo_persister.rs:150-157 | after any run the mutations can be had, and storing them over the store as entered gives the store as left |
| `MemoStore.State.constructor` | vls-persist/src/thread_memo_persister.rs:49-51 | nothing is dirty on entry |
| `MemoStore.State.Insert` | vls-persist/src/thread_memo_persister.rs:64-80 | an equal value is a no-op; otherwise a new revision, and the key is dirty |
| `MemoStore.State.Remove` | vls-persist/src/thread_memo_persister.rs:135-140 | an empty value at the next revision, and the key is dirty |
| `MemoStore.State.GetDirty` | vls-persist/src/thread_memo_persister.rs:150-157 | the dirty keys in order with their entries; panics exactly if one is not in the store |
| `MemoScan.DecodesIff` | vls-persist/src/thread_memo_persister.rs:97-104 | reading a prefix panics exactly when some key under it has a tail that is not hex |
| `MemoScan.ScanExact` | vls-persist/src/thread_memo_persister.rs:94-105 | a scan returns each key under the prefix, decoded, with its entry, and nothing else |
| `MemoScan.KeysInjective` | vls-persist/src/thread_memo_persister.rs:146-148 | a channel key determines its node and channel |
| `MemoScan.NodesExact` | vls-persist/src/thread_memo_persister.rs:94-105 | reading one kind of record back gives every key of that kind once and nothing of another kind |
| `MemoScan.ChannelsExact` | vls-persist/src/thread_memo_persister.rs:107-122 | reading the channels of a node back gives each of them once and none of another node |
| `MemoScan.ChannelsAfterRun` | vls-persist/src/thread_memo_persister.rs:64-122 | after any run over the persister's keys, that gives for each channel its last value at its revision |

## Left out

- Keys, signatures, sighashes, transaction building and BIP 32 derivation are foreign code; they are function parameters or verdicts of a request.
- Policy on fees, dust, delays, sweeps and on-chain outputs is one verdict of a request; policy filters that turn errors into warnings are not modelled.
- HTLC signing, sweeps, channel announcements and set-up calls (`ready_channel`, the `_for_testing` setters) are not requests of a modelled run.
- Channels.Channel.SignCounterpartyCommitment: phase 1 (vls-core/src/channel.rs:1711-1853) is the same turn behind two verdicts, that the transaction decodes and that it recomposes to the same signature hash.
- Channels.Channel.SignHolderCommitmentRedundant: the commitment signed is the one supplied, so only its number is constrained, as in the program.
- Channels.Channel.ValidateCounterpartyRevocation: a channel restored from a database that predates the secret store has none; that branch is in the method, but runs start from a new channel, which has one.
- Block heights are unbounded: 2^32 blocks are not modelled.
- The `timeless_workaround` build, which skips the time checks of an invoice, is not modelled.
- ChannelRestart.LifeFollows: a restart falls between requests, and a request that cannot be persisted leaves what was persisted as it was; what a persister does on its own failure is not modelled.
- The lists of outpoints to watch returned at the end of a block, and logging, are not modelled.
- Monitor.ChainMonitor.AddFunding: the single-funding calls `add_funding_outpoint` and `add_funding_inputs` are the two halves of it and have no members of their own.
- Ledgers.NodeState.AddInvoice: the velocity control and the checks on an invoice's signature and description are one verdict; `add_keysend` is the same entry with a keysend record.
- Ledgers.NodeState.ValidatePayments: the claimable balances before and after come with the update; `claimable_balances` is not part of this model.
- LedgerSafety.RestoreRecorded: a restart replaces preimages by the ones persisted, which this does not follow; amounts are the subject of `NodeSafety.RestartMatches`.
- NodeSafety.RunMatches: the node puts channel and ledger together as values, one request at a time; locks, and the removal of stubs that never became channels, are not modelled.
- LedgerSafety.KnownNotCredited: stops where a record is pruned, since a payment that comes back under the same hash is a new record.
- MemoStore.RunTracks: the store is used by one context at a time, and revisions are unbounded; JSON encoding of values is not modelled.
- Codec.Value.ProcessFromGet: what is left in the value on a refusal is stated by `Codec.Value.RemoveAndCheckHmac`.
- The storage server and its client protocol, the chain follower, gRPC and the embedded front ends move messages between processes; they are input and output around the parts above.
- The approver decides whether to ask a user about an invoice or an on-chain payment; its answer is part of the verdict on a request.
- `compute_shared_hmac`, the MAC over a list of stored values, is not part of this model; the MAC of one value is.
- The lanes' shift constants S16, S12, S8 and S7 have equal components and appear as one number each.
