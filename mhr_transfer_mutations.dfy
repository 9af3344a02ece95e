/** The six store mutations of `mhr-transfer-mutations-model.ts`. Each one
    takes the whole store state and assigns, in place, one field of the
    `mhrTransfer` record that `state.stateModel` refers to. None of them
    checks or converts its argument, and none returns anything.

    The `modifies` clause of each mutation is the `mhrTransfer` object alone,
    so the state object, the state model and every other object are left as
    they were; the `ensures` clauses give the new field and tie the record's
    new snapshot to `Store` of the old one, whose lemmas (last write wins,
    idempotence, commutation) then apply to the store. */
module MhrTransferMutations {
  import opened MhrTransferModel

  /** The `mhrTransfer` record of the store's state model: of its fields only
      the six that the mutations assign are modelled. */
  class MhrTransfer {
    var declaredValue: int
    var consideration: string
    var transferDate: string
    var ownLand: bool
    var submittingParty: SubmittingPartyInfo
    var attentionReference: string

    constructor (init: TransferModel)
      ensures Model() == init
    {
      declaredValue := init.declaredValue;
      consideration := init.consideration;
      transferDate := init.transferDate;
      ownLand := init.ownLand;
      submittingParty := init.submittingParty;
      attentionReference := init.attentionReference;
    }

    /** The current contents of the record, as a value. */
    function Model(): TransferModel
      reads this
    {
      TransferModel(declaredValue, consideration, transferDate, ownLand, submittingParty, attentionReference)
    }
  }

  /** `state.stateModel`: of its fields only `mhrTransfer` is modelled. */
  class StateModel {
    var mhrTransfer: MhrTransfer

    constructor (mhrTransfer: MhrTransfer)
      ensures this.mhrTransfer == mhrTransfer
    {
      this.mhrTransfer := mhrTransfer;
    }
  }

  /** The store state handed to every mutation. */
  class State {
    var stateModel: StateModel

    constructor (stateModel: StateModel)
      ensures this.stateModel == stateModel
    {
      this.stateModel := stateModel;
    }
  }

  /** Stores the declared value as given, with no range check. */
  method MutateMhrTransferDeclaredValue(state: State, declaredValue: int)
    modifies state.stateModel.mhrTransfer
    ensures state.stateModel.mhrTransfer == old(state.stateModel.mhrTransfer)
    ensures state.stateModel.mhrTransfer.declaredValue == declaredValue
    ensures state.stateModel.mhrTransfer.Model()
         == Store(old(state.stateModel.mhrTransfer.Model()), DeclaredValue(declaredValue))
  {
    state.stateModel.mhrTransfer.declaredValue := declaredValue;
  }

  /** Stores the consideration string as given, the empty string included. */
  method MutateMhrTransferConsideration(state: State, consideration: string)
    modifies state.stateModel.mhrTransfer
    ensures state.stateModel.mhrTransfer == old(state.stateModel.mhrTransfer)
    ensures state.stateModel.mhrTransfer.consideration == consideration
    ensures state.stateModel.mhrTransfer.Model()
         == Store(old(state.stateModel.mhrTransfer.Model()), Consideration(consideration))
  {
    state.stateModel.mhrTransfer.consideration := consideration;
  }

  /** Stores the transfer date string as given: it is neither parsed nor checked. */
  method MutateMhrTransferDate(state: State, transferDate: string)
    modifies state.stateModel.mhrTransfer
    ensures state.stateModel.mhrTransfer == old(state.stateModel.mhrTransfer)
    ensures state.stateModel.mhrTransfer.transferDate == transferDate
    ensures state.stateModel.mhrTransfer.Model()
         == Store(old(state.stateModel.mhrTransfer.Model()), TransferDate(transferDate))
  {
    state.stateModel.mhrTransfer.transferDate := transferDate;
  }

  /** Stores whether the home sits on land the owner owns. */
  method MutateMhrTransferOwnLand(state: State, isOwnLand: bool)
    modifies state.stateModel.mhrTransfer
    ensures state.stateModel.mhrTransfer == old(state.stateModel.mhrTransfer)
    ensures state.stateModel.mhrTransfer.ownLand == isOwnLand
    ensures state.stateModel.mhrTransfer.Model()
         == Store(old(state.stateModel.mhrTransfer.Model()), OwnLand(isOwnLand))
  {
    state.stateModel.mhrTransfer.ownLand := isOwnLand;
  }

  /** Stores a reference to the given party object itself: the previous party
      is replaced as a whole, not merged, and the object is not copied. */
  method MutateMhrTransferSubmittingParty(state: State, submittingPartyInfo: SubmittingPartyInfo)
    modifies state.stateModel.mhrTransfer
    ensures state.stateModel.mhrTransfer == old(state.stateModel.mhrTransfer)
    ensures state.stateModel.mhrTransfer.submittingParty == submittingPartyInfo
    ensures state.stateModel.mhrTransfer.Model()
         == Store(old(state.stateModel.mhrTransfer.Model()), SubmittingParty(submittingPartyInfo))
  {
    state.stateModel.mhrTransfer.submittingParty := submittingPartyInfo;
  }

  /** Stores the attention reference string as given. */
  method MutateMhrTransferAttentionReference(state: State, attentionReference: string)
    modifies state.stateModel.mhrTransfer
    ensures state.stateModel.mhrTransfer == old(state.stateModel.mhrTransfer)
    ensures state.stateModel.mhrTransfer.attentionReference == attentionReference
    ensures state.stateModel.mhrTransfer.Model()
         == Store(old(state.stateModel.mhrTransfer.Model()), AttentionReference(attentionReference))
  {
    state.stateModel.mhrTransfer.attentionReference := attentionReference;
  }

  /** Commits one tagged value by calling the setter for its field. */
  method Commit(state: State, v: Value)
    modifies state.stateModel.mhrTransfer
    ensures state.stateModel.mhrTransfer == old(state.stateModel.mhrTransfer)
    ensures state.stateModel.mhrTransfer.Model() == Store(old(state.stateModel.mhrTransfer.Model()), v)
  {
    match v
    case DeclaredValue(x) => MutateMhrTransferDeclaredValue(state, x);
    case Consideration(x) => MutateMhrTransferConsideration(state, x);
    case TransferDate(x) => MutateMhrTransferDate(state, x);
    case OwnLand(x) => MutateMhrTransferOwnLand(state, x);
    case SubmittingParty(x) => MutateMhrTransferSubmittingParty(state, x);
    case AttentionReference(x) => MutateMhrTransferAttentionReference(state, x);
  }

  /** Commutation on the store itself: committing `a` and then `b`, two
      values of different fields, leaves the `mhrTransfer` object as
      committing them in the other order would, by `StoreCommute`. */
  method CommitPairCommutes(state: State, a: Value, b: Value)
    requires FieldOf(a) != FieldOf(b)
    modifies state.stateModel.mhrTransfer
    ensures state.stateModel.mhrTransfer == old(state.stateModel.mhrTransfer)
    ensures state.stateModel.mhrTransfer.Model()
         == Store(Store(old(state.stateModel.mhrTransfer.Model()), b), a)
  {
    Commit(state, a);
    Commit(state, b);
    StoreCommute(old(state.stateModel.mhrTransfer.Model()), a, b);
  }
}
