/**
  The two ways a fields wrapper serializes: live, by visiting the entity's values into an
  open map, or materialised, by serializing its stored `RecordMap` in key order. Shared by
  `SerializeRecordFields`, `SerializeSpanFields` and `SerializeRecord`.
*/
module FieldMaps {
  import opened Base
  import opened CowStrings
  import opened Tracing
  import opened Values
  import opened RecordMaps
  import opened Serializers
  import opened MapVisitors
  import opened HashVisitors

  /**
    The `serialize_entry` calls serializing a stored map makes: key content and value, in
    the stored order (key order when the map is `Sorted`).
  */
  function MapEntries(m: RecordMap): seq<Entry> {
    seq(|m|, i requires 0 <= i < |m| => Entry(AsStr(m[i].0), m[i].1))
  }

  /**
    The `Ser` branch: `serialize_map(Some(items))?`, a `SerdeMapVisitor` over it, the
    entity's `record` call, then `finish`. The result is that of serializing the live
    entries with `?` after every call.
  */
  method SerializeLive(pushes: seq<Push>, items: nat, ser: Serializer) returns (r: Result<Compound<Entry>, SerError>)
    ensures r == Serialized(ser, Some(items), LiveEntries(pushes))
  {
    var started := SerializeMap(ser, Some(items));
    if started.Err? {
      return Err(started.error);
    }
    var ssv := new SerdeMapVisitor(started.value);
    RecordInto(pushes, ssv);
    FinishAfterRun(ser, Some(items), LiveEntries(pushes));
    r := ssv.Finish();
  }

  /**
    The `De` branch: a `BTreeMap` serializes as a map sized by its length, one
    `serialize_entry` per pair in the stored order with `?`, then `end`. The stored order
    is key order for every map that is `Sorted`, as `Insert` and `Collect` build them.
  */
  method SerializeRecordMap(m: RecordMap, ser: Serializer) returns (r: Result<Compound<Entry>, SerError>)
    ensures r == Serialized(ser, Some(|m|), MapEntries(m))
  {
    var started := SerializeMap(ser, Some(|m|));
    if started.Err? {
      return Err(started.error);
    }
    var sink := started.value;
    ghost var es := MapEntries(m);
    for i := 0 to |m|
      invariant !sink.ended && sink.log == es[..i]
      invariant sink.hint == Some(|m|)
      invariant sink.failures == ser.itemFailures && sink.endFailure == ser.endFailure
      invariant FirstFailure(ser.itemFailures, 0, i) == None
    {
      var res := sink.SerializeEntry(AsStr(m[i].0), m[i].1);
      assert es[..i + 1] == es[..i] + [Entry(AsStr(m[i].0), m[i].1)];
      if res.Err? {
        assert FirstFailure(ser.itemFailures, 0, |m|) == Some(i);
        return Err(res.error);
      }
    }
    assert es[..|m|] == es;
    r := sink.End();
  }

  /**
    When the names are visited in strictly ascending order and the size hint is the number
    of values visited, the live output and the output of the materialised map are the
    same: same success or same error, same hint, same keys, same value images.
  */
  lemma LiveMatchesMaterialized(pushes: seq<Push>, ser: Serializer)
    requires StrictlyAscending(pushes)
    ensures var m := Materialize(pushes);
      RenderMap(Serialized(ser, Some(|pushes|), LiveEntries(pushes)))
        == RenderMap(Serialized(ser, Some(|m|), MapEntries(m)))
  {
    MaterializeAscending(pushes);
    var live := LiveEntries(pushes);
    var stored := MapEntries(Materialize(pushes));
    forall i | 0 <= i < |live| ensures RenderEntry(live[i]) == RenderEntry(stored[i]) {
      OwnedValueIsLiveValueOwned(pushes[i].value);
    }
    SerializedAlike(ser, Some(|pushes|), live, stored);
  }

  /** Names visited out of order come out of the materialised map in key order instead. */
  lemma OutOfOrderNamesAreReordered()
    ensures var pushes := [Push(Field("b"), RecordedBool(true)), Push(Field("a"), RecordedBool(true))];
      var ser := Serializer(None, map[], None);
      var m := Materialize(pushes);
      |m| == 2 &&
      RenderMap(Serialized(ser, Some(2), LiveEntries(pushes)))
        != RenderMap(Serialized(ser, Some(|m|), MapEntries(m)))
  {
    var pushes := [Push(Field("b"), RecordedBool(true)), Push(Field("a"), RecordedBool(true))];
    var ps := OwnedPushPairs(pushes);
    assert ps == [(Owned("b"), Bool(true)), (Owned("a"), Bool(true))];
    assert ps[..1] == [(Owned("b"), Bool(true))];
    assert Collect(ps[..1]) == [(Owned("b"), Bool(true))] by {
      assert ps[..1][..0] == [];
    }
    assert StrCmp("a", "b") == Less;
    var m := Materialize(pushes);
    assert m == [(Owned("a"), Bool(true)), (Owned("b"), Bool(true))];
    var ser := Serializer(None, map[], None);
    var live := RenderMap(Serialized(ser, Some(2), LiveEntries(pushes)));
    var stored := RenderMap(Serialized(ser, Some(|m|), MapEntries(m)));
    assert live.value.items[0].0 == "b";
    assert stored.value.items[0].0 == "a";
  }

  /** A name visited twice is serialized twice live, but stored once, with the later value. */
  lemma RepeatedNameKeepsLastValue()
    ensures var pushes := [Push(Field("a"), RecordedBool(true)), Push(Field("a"), RecordedBool(false))];
      var ser := Serializer(None, map[], None);
      Materialize(pushes) == [(Owned("a"), Bool(false))] &&
      RenderMap(Serialized(ser, Some(2), LiveEntries(pushes)))
        != RenderMap(Serialized(ser, Some(1), MapEntries(Materialize(pushes))))
  {
    var pushes := [Push(Field("a"), RecordedBool(true)), Push(Field("a"), RecordedBool(false))];
    var ps := OwnedPushPairs(pushes);
    assert ps == [(Owned("a"), Bool(true)), (Owned("a"), Bool(false))];
    assert ps[..1] == [(Owned("a"), Bool(true))];
    assert Collect(ps[..1]) == [(Owned("a"), Bool(true))] by {
      assert ps[..1][..0] == [];
    }
    assert Materialize(pushes) == [(Owned("a"), Bool(false))];
    var ser := Serializer(None, map[], None);
    var live := RenderMap(Serialized(ser, Some(2), LiveEntries(pushes)));
    assert |live.value.items| == 2;
  }
}
