/**
  `HashVisit`: the visitor that materialises a live entity into an owned `RecordMap`,
  inserting one entry per callback, keyed by an owned copy of the field name.
*/
module HashVisitors {
  import opened Base
  import opened CowStrings
  import opened Tracing
  import opened Values
  import opened RecordMaps
  import MapVisitors

  /** The value `HashVisit` stores for a callback: strings and debug output as owned snapshots. */
  function OwnedValue(x: Recorded): SerializeValue {
    match x
    case RecordedBool(b) => Bool(b)
    case RecordedU64(u) => U64(u)
    case RecordedI64(i) => I64(i)
    case RecordedF64(f) => F64(f)
    case RecordedStr(s) => Str(Owned(s))
    case RecordedDebug(d) => Debug(De(Owned(d.text)))
  }

  /** What `HashVisit` stores is what the streaming visitor would serialize, made owned. */
  lemma OwnedValueIsLiveValueOwned(x: Recorded)
    ensures OwnedValue(x) == Values.ToOwned(MapVisitors.LiveValue(x))
    ensures Render(OwnedValue(x)) == Render(MapVisitors.LiveValue(x))
  {
  }

  function OwnedPushPair(p: Push): Pair {
    (Owned(p.field.name), OwnedValue(p.value))
  }

  function OwnedPushPairs(pushes: seq<Push>): seq<Pair> {
    seq(|pushes|, i requires 0 <= i < |pushes| => OwnedPushPair(pushes[i]))
  }

  /** The map `HashVisit` holds after visiting `pushes` from an empty map. */
  function Materialize(pushes: seq<Push>): (r: RecordMap)
    ensures Sorted(r) && IsOwnedMap(r)
    ensures Keys(r) == PushedNames(pushes)
  {
    OwnedPushPairsKeys(pushes);
    OwnedPushPairsOwned(pushes);
    CollectOwned(OwnedPushPairs(pushes));
    Collect(OwnedPushPairs(pushes))
  }

  lemma OwnedPushPairsOwned(pushes: seq<Push>)
    ensures IsOwnedMap(OwnedPushPairs(pushes))
  {
    var ps := OwnedPushPairs(pushes);
    forall p | p in ps ensures p.0.Owned? && Values.IsOwned(p.1) {
      var i :| 0 <= i < |ps| && ps[i] == p;
      assert p == OwnedPushPair(pushes[i]);
    }
  }

  /** The owned keys of the pushed field names. */
  function PushedNames(pushes: seq<Push>): set<CowString> {
    set p | p in pushes :: Owned(p.field.name)
  }

  lemma OwnedPushPairsKeys(pushes: seq<Push>)
    ensures Keys(OwnedPushPairs(pushes)) == PushedNames(pushes)
  {
    OwnedPushPairsKeysWithin(pushes);
    PushedNamesWithin(pushes);
  }

  lemma OwnedPushPairsKeysWithin(pushes: seq<Push>)
    ensures Keys(OwnedPushPairs(pushes)) <= PushedNames(pushes)
  {
    var ps := OwnedPushPairs(pushes);
    forall k | k in Keys(ps) ensures k in PushedNames(pushes) {
      var q :| q in ps && q.0 == k;
      var i :| 0 <= i < |ps| && ps[i] == q;
      assert pushes[i] in pushes;
    }
  }

  lemma PushedNamesWithin(pushes: seq<Push>)
    ensures PushedNames(pushes) <= Keys(OwnedPushPairs(pushes))
  {
    var ps := OwnedPushPairs(pushes);
    forall k | k in PushedNames(pushes) ensures k in Keys(ps) {
      var p :| p in pushes && k == Owned(p.field.name);
      var i :| 0 <= i < |pushes| && pushes[i] == p;
      assert ps[i] in ps;
    }
  }

  /** The last value pushed under `name`, if any. */
  function LastPushed(pushes: seq<Push>, name: string): Option<Recorded> {
    if |pushes| == 0 then None
    else if pushes[|pushes| - 1].field.name == name then Some(pushes[|pushes| - 1].value)
    else LastPushed(pushes[..|pushes| - 1], name)
  }

  /**
    The materialised map holds, under each pushed name, the owned form of the LAST value
    pushed with that name: a later push with the same name overwrites the earlier one.
  */
  lemma {:induction false} MaterializeGet(pushes: seq<Push>, name: string)
    ensures Get(Materialize(pushes), Owned(name)) ==
      match LastPushed(pushes, name)
      case Some(x) => Some(OwnedValue(x))
      case None => None
  {
    CollectGet(OwnedPushPairs(pushes), Owned(name));
    LastForIsLastPushed(pushes, name);
  }

  lemma {:induction false} LastForIsLastPushed(pushes: seq<Push>, name: string)
    ensures LastFor(OwnedPushPairs(pushes), Owned(name)) ==
      match LastPushed(pushes, name)
      case Some(x) => Some(OwnedValue(x))
      case None => None
  {
    if |pushes| > 0 {
      var init := pushes[..|pushes| - 1];
      assert OwnedPushPairs(pushes)[..|pushes| - 1] == OwnedPushPairs(init);
      LastForIsLastPushed(init, name);
    }
  }

  /** Field names strictly ascending in visiting order, hence all distinct. */
  predicate StrictlyAscending(pushes: seq<Push>) {
    forall i :: 0 < i < |pushes| ==> StrCmp(pushes[i - 1].field.name, pushes[i].field.name) == Less
  }

  /** Pushes with strictly ascending names materialise in push order, one entry each. */
  lemma {:induction false} MaterializeAscending(pushes: seq<Push>)
    requires StrictlyAscending(pushes)
    ensures Materialize(pushes) == OwnedPushPairs(pushes)
  {
    var ps := OwnedPushPairs(pushes);
    forall i, j | 0 <= i < j < |ps| ensures Cmp(ps[i].0, ps[j].0) == Less {
      AscendingNames(pushes, i, j);
    }
    CollectOfSorted(ps);
  }

  lemma {:induction false} AscendingNames(pushes: seq<Push>, i: nat, j: nat)
    requires StrictlyAscending(pushes)
    requires i < j < |pushes|
    ensures StrCmp(pushes[i].field.name, pushes[j].field.name) == Less
    decreases j - i
  {
    if i + 1 < j {
      AscendingNames(pushes, i + 1, j);
      StrCmpTransitive(pushes[i].field.name, pushes[i + 1].field.name, pushes[j].field.name);
    }
  }

  class HashVisit {
    var tree: RecordMap

    ghost predicate Valid()
      reads this
    {
      Sorted(tree) && IsOwnedMap(tree)
    }

    /** `HashVisit(BTreeMap::new())`. */
    constructor ()
      ensures tree == [] && Valid()
    {
      tree := [];
    }

    /** `self.0.insert(CowString::Owned(field.name().to_string()), value)`, for every callback. */
    method Insert(name: string, value: SerializeValue)
      requires Valid() && Values.IsOwned(value)
      modifies this
      ensures Valid()
      ensures tree == RecordMaps.Insert(old(tree), Owned(name), value)
    {
      InsertSorted(tree, Owned(name), value);
      tree := RecordMaps.Insert(tree, Owned(name), value);
    }

    method RecordBool(field: Field, value: bool)
      requires Valid()
      modifies this
      ensures Valid() && tree == RecordMaps.Insert(old(tree), Owned(field.name), Bool(value))
    {
      Insert(field.name, Bool(value));
    }

    method RecordDebug(field: Field, value: DebugValue)
      requires Valid()
      modifies this
      ensures Valid() && tree == RecordMaps.Insert(old(tree), Owned(field.name), Debug(De(Owned(value.text))))
    {
      Insert(field.name, Debug(De(Owned(value.text))));
    }

    method RecordU64(field: Field, value: u64)
      requires Valid()
      modifies this
      ensures Valid() && tree == RecordMaps.Insert(old(tree), Owned(field.name), U64(value))
    {
      Insert(field.name, U64(value));
    }

    method RecordI64(field: Field, value: i64)
      requires Valid()
      modifies this
      ensures Valid() && tree == RecordMaps.Insert(old(tree), Owned(field.name), I64(value))
    {
      Insert(field.name, I64(value));
    }

    method RecordF64(field: Field, value: Float64)
      requires Valid()
      modifies this
      ensures Valid() && tree == RecordMaps.Insert(old(tree), Owned(field.name), F64(value))
    {
      Insert(field.name, F64(value));
    }

    method RecordStr(field: Field, value: string)
      requires Valid()
      modifies this
      ensures Valid() && tree == RecordMaps.Insert(old(tree), Owned(field.name), Str(Owned(value)))
    {
      Insert(field.name, Str(Owned(value)));
    }
  }

  /**
    The `Ser` branch of every fields wrapper's `to_owned`: a fresh `HashVisit`, the entity's
    `record` call on it, and the map it ends with.
  */
  method VisitIntoMap(pushes: seq<Push>) returns (m: RecordMap)
    ensures m == Materialize(pushes)
  {
    var hv := new HashVisit();
    for i := 0 to |pushes|
      invariant hv.tree == Materialize(pushes[..i]) && hv.Valid()
    {
      MaterializeSnoc(pushes, i);
      Visit(hv, pushes[i]);
    }
    assert pushes[..|pushes|] == pushes;
    m := hv.tree;
  }

  /** One callback of a `record` call: the `record_*` method matching the pushed value. */
  method Visit(hv: HashVisit, p: Push)
    requires hv.Valid()
    modifies hv
    ensures hv.Valid() && hv.tree == RecordMaps.Insert(old(hv.tree), Owned(p.field.name), OwnedValue(p.value))
  {
    match p.value
    case RecordedBool(b) =>
      assert OwnedValue(p.value) == Bool(b);
      hv.RecordBool(p.field, b);
    case RecordedU64(u) =>
      assert OwnedValue(p.value) == U64(u);
      hv.RecordU64(p.field, u);
    case RecordedI64(x) =>
      assert OwnedValue(p.value) == I64(x);
      hv.RecordI64(p.field, x);
    case RecordedF64(f) =>
      assert OwnedValue(p.value) == F64(f);
      hv.RecordF64(p.field, f);
    case RecordedStr(s) =>
      assert OwnedValue(p.value) == Str(Owned(s));
      hv.RecordStr(p.field, s);
    case RecordedDebug(d) =>
      assert OwnedValue(p.value) == Debug(De(Owned(d.text)));
      hv.RecordDebug(p.field, d);
  }

  /** Materialising one more push inserts it into the map of the earlier ones. */
  lemma MaterializeSnoc(pushes: seq<Push>, i: nat)
    requires i < |pushes|
    ensures Materialize(pushes[..i + 1])
      == RecordMaps.Insert(Materialize(pushes[..i]), Owned(pushes[i].field.name), OwnedValue(pushes[i].value))
  {
    var ps := OwnedPushPairs(pushes[..i + 1]);
    assert ps[..i] == OwnedPushPairs(pushes[..i]) && ps[i] == OwnedPushPair(pushes[i]);
  }
}
