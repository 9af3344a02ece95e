# MHR transfer mutations

A model of the manufactured-home transfer slice of the PPR UI's Vuex store
(`ppr-ui/src/store/mutations/mhr-transfer-mutations-model.ts`). The store
state holds, under `state.stateModel.mhrTransfer`, the record of a transfer
being drafted. Six mutations each assign one of six of its fields in
place: its declared value, consideration, transfer date, whether the owner
owns the land, the submitting party and an attention reference. None checks
or converts its argument.

The project has two modules:

- `MhrTransferModel` (`transfer_model.dfy`): the record as a value
  (`TransferModel`), a field-tagged value (`Value`) for the payload of one
  mutation, `Store` (what one mutation does to the record) and `Replay` (what
  a sequence of commits does: it models committing mutations one after
  another, in order, each `Store` applied to the record the previous one
  left), with the lemmas about them: last write wins,
  idempotence, commutation of different fields, and that after any sequence
  of commits each field holds the last value written to it.
- `MhrTransferMutations` (`mhr_transfer_mutations.dfy`): the store state as
  classes (`State`, `StateModel`, `MhrTransfer`) and the six mutations as
  methods that assign one field of the `mhrTransfer` object. Each method's
  `modifies` clause is that object alone, so nothing else in the state
  changes; its `ensures` give the new field and equate the record's new
  snapshot with `Store` of the old one.

## Model

| member | source | states |
|---|---|---|
| MhrTransferModel.Store | ppr-ui/src/store/mutations/mhr-transfer-mutations-model.ts:3-25 | after one mutation the targeted field holds exactly the given value, and every other field reads as before |
| MhrTransferModel.Read | ppr-ui/src/store/mutations/mhr-transfer-mutations-model.ts:4-24 | reading a field of the record yields a value tagged with that same field |
| MhrTransferModel.ReadDetermines | ppr-ui/src/store/mutations/mhr-transfer-mutations-model.ts:4-24 | the six modelled fields determine the model record: two model records agreeing on all six are equal |
| MhrTransferModel.StoreLastWins | ppr-ui/src/store/mutations/mhr-transfer-mutations-model.ts:3-25 | two mutations of the same field leave only the second value |
| MhrTransferModel.StoreIdempotent | ppr-ui/src/store/mutations/mhr-transfer-mutations-model.ts:3-25 | committing the same mutation twice equals committing it once |
| MhrTransferModel.StoreCommute | ppr-ui/src/store/mutations/mhr-transfer-mutations-model.ts:3-25 | mutations of different fields give the same record in either order |
| MhrTransferModel.LastWrite | ppr-ui/src/store/mutations/mhr-transfer-mutations-model.ts:3-25 | the last write to a field in a sequence of commits is absent exactly when no commit targets that field, and otherwise is a commit at some position that targets that field with no later commit targeting it |
| MhrTransferModel.ReplayRead | ppr-ui/src/store/mutations/mhr-transfer-mutations-model.ts:3-25 | after any sequence of commits each field holds the last value written to it, or its original value if none was |
| MhrTransferModel.LastWriteAppend | ppr-ui/src/store/mutations/mhr-transfer-mutations-model.ts:3-25 | the last write to a field in two batches of commits is the second batch's, else the first's |
| MhrTransferModel.ReplayAppend | ppr-ui/src/store/mutations/mhr-transfer-mutations-model.ts:3-25 | committing one batch and then another equals committing their concatenation |
| MhrTransferModel.ReplayDeterminedByLastWrites | ppr-ui/src/store/mutations/mhr-transfer-mutations-model.ts:3-25 | two sequences of commits with the same last write per field leave the same record |
| MhrTransferModel.ReplaySwap | ppr-ui/src/store/mutations/mhr-transfer-mutations-model.ts:3-25 | adjacent commits to different fields may be swapped anywhere in a sequence without changing the result |
| MhrTransferModel.ReplayShadowed | ppr-ui/src/store/mutations/mhr-transfer-mutations-model.ts:3-25 | a commit overwritten later by a commit to the same field can be dropped without changing the result |
| MhrTransferMutations.MutateMhrTransferDeclaredValue | ppr-ui/src/store/mutations/mhr-transfer-mutations-model.ts:3-5 | `declaredValue` becomes the argument, unchecked; the same `mhrTransfer` object is updated in place and only it may change; its snapshot is `Store` of the old one |
| MhrTransferMutations.MutateMhrTransferConsideration | ppr-ui/src/store/mutations/mhr-transfer-mutations-model.ts:7-9 | `consideration` becomes the argument, the empty string included; only the `mhrTransfer` object changes; its snapshot is `Store` of the old one |
| MhrTransferMutations.MutateMhrTransferDate | ppr-ui/src/store/mutations/mhr-transfer-mutations-model.ts:11-13 | `transferDate` becomes the argument string, unparsed; only the `mhrTransfer` object changes; its snapshot is `Store` of the old one |
| MhrTransferMutations.MutateMhrTransferOwnLand | ppr-ui/src/store/mutations/mhr-transfer-mutations-model.ts:15-17 | `ownLand` becomes the argument; only the `mhrTransfer` object changes; its snapshot is `Store` of the old one |
| MhrTransferMutations.MutateMhrTransferSubmittingParty | ppr-ui/src/store/mutations/mhr-transfer-mutations-model.ts:19-21 | `submittingParty` becomes a reference to the very object passed in, replacing the old party whole; only the `mhrTransfer` object changes; its snapshot is `Store` of the old one |
| MhrTransferMutations.MutateMhrTransferAttentionReference | ppr-ui/src/store/mutations/mhr-transfer-mutations-model.ts:23-25 | `attentionReference` becomes the argument; only the `mhrTransfer` object changes; its snapshot is `Store` of the old one |
| MhrTransferMutations.Commit | ppr-ui/src/store/mutations/mhr-transfer-mutations-model.ts:3-25 | committing a tagged value calls the setter for its field, so the same `mhrTransfer` object's new snapshot is `Store` of the old one for every value |
| MhrTransferMutations.CommitPairCommutes | ppr-ui/src/store/mutations/mhr-transfer-mutations-model.ts:3-25 | on the store itself, any two mutations of different fields committed in turn leave the `mhrTransfer` object as the other order would |

## Left out

- The Vuex machinery that invokes the mutations (`commit` by mutation name, `dispatch`, reactivity) and the store's initial state: `Commit` stands for choosing the setter, by the field of the value, and the classes take their initial contents from their constructors.
- Any other fields of the `mhrTransfer` record (its interface is not part of this model): no mutation assigns them, the model does not carry them, and so no frame is stated for them.
- The other fields of the store state and of `stateModel`: the `modifies` clause of each mutation states that no object but `mhrTransfer` changes, so they are covered without being listed.
- The internals of the submitting party interface (`SubmittingPartyIF`), which is not part of this model: it is a class without fields, compared by reference.
- JavaScript number semantics for `declaredValue` (fractions, `NaN`, infinities): the value is only stored, never computed on, so an unbounded integer stands for it.
- The TypeScript types are not enforced at run time; a caller passing a value of another type (or `undefined`) is not modelled.
