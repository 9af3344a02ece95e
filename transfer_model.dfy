/** Value-level view of the `mhrTransfer` record that the UI store keeps for a
    manufactured-home ownership transfer, and of what one mutation does to it.

    The model keeps the six fields the mutations assign. A mutation names one of them and carries the
    new value; storing it overwrites that field and no other. `Replay` commits
    a sequence of such mutations in order, and the lemmas below say what a
    sequence of commits leaves behind: each field holds the last value written
    to it, or its original value when nothing wrote to it. */
module MhrTransferModel {

  /** The submitting party of a transfer. Its interface is not part of this
      model, so the class has no fields: the store keeps a reference to the
      object it is given, never a copy. */
  class SubmittingPartyInfo {
    constructor () {}
  }

  datatype Option<T> = None | Some(value: T) {
    function GetOr(default: T): T {
      match this
      case Some(v) => v
      case None => default
    }
  }

  /** A snapshot of the six fields of `mhrTransfer` that the mutations assign. `declaredValue` is only
      ever stored, so an integer stands for the UI's number. */
  datatype TransferModel = TransferModel(
    declaredValue: int,
    consideration: string,
    transferDate: string,
    ownLand: bool,
    submittingParty: SubmittingPartyInfo,
    attentionReference: string)

  /** The six modelled fields of `mhrTransfer`, by name. */
  datatype Field =
    | DeclaredValueField
    | ConsiderationField
    | TransferDateField
    | OwnLandField
    | SubmittingPartyField
    | AttentionReferenceField

  /** A value tagged with the field it is stored in: the payload of one mutation. */
  datatype Value =
    | DeclaredValue(declaredValue: int)
    | Consideration(consideration: string)
    | TransferDate(transferDate: string)
    | OwnLand(ownLand: bool)
    | SubmittingParty(submittingParty: SubmittingPartyInfo)
    | AttentionReference(attentionReference: string)

  /** The field a tagged value is stored in. */
  function FieldOf(v: Value): Field {
    match v
    case DeclaredValue(_) => DeclaredValueField
    case Consideration(_) => ConsiderationField
    case TransferDate(_) => TransferDateField
    case OwnLand(_) => OwnLandField
    case SubmittingParty(_) => SubmittingPartyField
    case AttentionReference(_) => AttentionReferenceField
  }

  /** What `m` holds in field `f`, tagged with `f`. */
  function Read(m: TransferModel, f: Field): (v: Value)
    ensures FieldOf(v) == f
  {
    match f
    case DeclaredValueField => DeclaredValue(m.declaredValue)
    case ConsiderationField => Consideration(m.consideration)
    case TransferDateField => TransferDate(m.transferDate)
    case OwnLandField => OwnLand(m.ownLand)
    case SubmittingPartyField => SubmittingParty(m.submittingParty)
    case AttentionReferenceField => AttentionReference(m.attentionReference)
  }

  /** `m` after one mutation: the field of `v` holds `v`, as given, and every
      other field is as it was. */
  function Store(m: TransferModel, v: Value): (r: TransferModel)
    ensures Read(r, FieldOf(v)) == v
    ensures forall f :: f != FieldOf(v) ==> Read(r, f) == Read(m, f)
  {
    match v
    case DeclaredValue(x) => m.(declaredValue := x)
    case Consideration(x) => m.(consideration := x)
    case TransferDate(x) => m.(transferDate := x)
    case OwnLand(x) => m.(ownLand := x)
    case SubmittingParty(x) => m.(submittingParty := x)
    case AttentionReference(x) => m.(attentionReference := x)
  }

  /** Two model records that agree on every modelled field are the same record. */
  lemma ReadDetermines(m1: TransferModel, m2: TransferModel)
    requires forall f :: Read(m1, f) == Read(m2, f)
    ensures m1 == m2
  {
    assert Read(m1, DeclaredValueField) == Read(m2, DeclaredValueField);
    assert Read(m1, ConsiderationField) == Read(m2, ConsiderationField);
    assert Read(m1, TransferDateField) == Read(m2, TransferDateField);
    assert Read(m1, OwnLandField) == Read(m2, OwnLandField);
    assert Read(m1, SubmittingPartyField) == Read(m2, SubmittingPartyField);
    assert Read(m1, AttentionReferenceField) == Read(m2, AttentionReferenceField);
  }

  /** Last write wins: of two mutations of the same field, only the second
      one is visible afterwards. */
  lemma StoreLastWins(m: TransferModel, a: Value, b: Value)
    requires FieldOf(a) == FieldOf(b)
    ensures Store(Store(m, a), b) == Store(m, b)
  {
  }

  /** Committing the same mutation twice is the same as committing it once. */
  lemma StoreIdempotent(m: TransferModel, v: Value)
    ensures Store(Store(m, v), v) == Store(m, v)
  {
  }

  /** Mutations of different fields commute. */
  lemma StoreCommute(m: TransferModel, a: Value, b: Value)
    requires FieldOf(a) != FieldOf(b)
    ensures Store(Store(m, a), b) == Store(Store(m, b), a)
  {
  }

  /** The record after committing the mutations `vs` in order. */
  function Replay(m: TransferModel, vs: seq<Value>): TransferModel
  {
    if vs == [] then m else Store(Replay(m, vs[..|vs| - 1]), vs[|vs| - 1])
  }

  /** The last value in `vs` that is written to field `f`, if there is one. */
  function LastWrite(vs: seq<Value>, f: Field): (r: Option<Value>)
    ensures r.None? <==> forall i :: 0 <= i < |vs| ==> FieldOf(vs[i]) != f
    ensures r.Some? ==> FieldOf(r.value) == f && r.value in vs
    ensures r.Some? ==> exists i :: 0 <= i < |vs| && vs[i] == r.value && forall j :: i < j < |vs| ==> FieldOf(vs[j]) != f
  {
    if vs == [] then None
    else if FieldOf(vs[|vs| - 1]) == f then Some(vs[|vs| - 1])
    else LastWrite(vs[..|vs| - 1], f)
  }

  /** After a sequence of commits each field holds the last value written to
      it, or its original value when no commit wrote to it. */
  lemma {:induction false} ReplayRead(m: TransferModel, vs: seq<Value>, f: Field)
    ensures Read(Replay(m, vs), f) == LastWrite(vs, f).GetOr(Read(m, f))
  {
    if vs != [] {
      ReplayRead(m, vs[..|vs| - 1], f);
    }
  }

  /** The last write to `f` in `p + q` is the last one in `q`, or failing
      that the last one in `p`. */
  lemma {:induction false} LastWriteAppend(p: seq<Value>, q: seq<Value>, f: Field)
    ensures LastWrite(p + q, f) == if LastWrite(q, f).Some? then LastWrite(q, f) else LastWrite(p, f)
  {
    if q == [] {
      assert p + q == p;
    } else {
      assert (p + q)[..|p + q| - 1] == p + q[..|q| - 1];
      LastWriteAppend(p, q[..|q| - 1], f);
    }
  }

  /** Committing `p` and then `q` is committing `p + q`. */
  lemma {:induction false} ReplayAppend(m: TransferModel, p: seq<Value>, q: seq<Value>)
    ensures Replay(m, p + q) == Replay(Replay(m, p), q)
  {
    if q == [] {
      assert p + q == p;
    } else {
      assert (p + q)[..|p + q| - 1] == p + q[..|q| - 1];
      ReplayAppend(m, p, q[..|q| - 1]);
    }
  }

  /** Two sequences of commits that end with the same last write to every
      field leave the same record, whatever else they contain and in
      whatever order. */
  lemma ReplayDeterminedByLastWrites(m: TransferModel, vs: seq<Value>, ws: seq<Value>)
    requires forall f :: LastWrite(vs, f) == LastWrite(ws, f)
    ensures Replay(m, vs) == Replay(m, ws)
  {
    forall f ensures Read(Replay(m, vs), f) == Read(Replay(m, ws), f) {
      ReplayRead(m, vs, f);
      ReplayRead(m, ws, f);
    }
    ReadDetermines(Replay(m, vs), Replay(m, ws));
  }

  /** Two adjacent commits to different fields can be swapped anywhere in a
      sequence of commits. */
  lemma ReplaySwap(m: TransferModel, p: seq<Value>, a: Value, b: Value, q: seq<Value>)
    requires FieldOf(a) != FieldOf(b)
    ensures Replay(m, p + [a, b] + q) == Replay(m, p + [b, a] + q)
  {
    ReplayAppend(m, p + [a, b], q);
    ReplayAppend(m, p + [b, a], q);
    assert (p + [a, b])[..|p + [a, b]| - 1] == p + [a];
    assert (p + [a])[..|p + [a]| - 1] == p;
    assert (p + [b, a])[..|p + [b, a]| - 1] == p + [b];
    assert (p + [b])[..|p + [b]| - 1] == p;
    StoreCommute(Replay(m, p), a, b);
  }

  /** A commit that a later commit to the same field overwrites leaves no
      trace: dropping it gives the same record. */
  lemma ReplayShadowed(m: TransferModel, p: seq<Value>, a: Value, q: seq<Value>)
    requires LastWrite(q, FieldOf(a)).Some?
    ensures Replay(m, p + [a] + q) == Replay(m, p + q)
  {
    forall f ensures LastWrite(p + [a] + q, f) == LastWrite(p + q, f) {
      LastWriteAppend(p + [a], q, f);
      LastWriteAppend(p, q, f);
      LastWriteAppend(p, [a], f);
    }
    ReplayDeterminedByLastWrites(m, p + [a] + q, p + q);
  }
}
