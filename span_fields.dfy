/** `SerializeSpanFields`: the values a new span is created with, live or materialised. */
module SpanFields {
  import opened Base
  import opened CowStrings
  import opened Tracing
  import opened RecordMaps
  import opened Serializers
  import opened MapVisitors
  import opened HashVisitors
  import opened FieldMaps

  datatype SerializeSpanFields = Ser(values: ValueSet) | De(entries: RecordMap)

  /**
    What serializing the wrapper yields. Live, the size hint is the value set's `len`,
    whatever number of values it visits.
  */
  function Output(w: SerializeSpanFields, ser: Serializer): Result<Compound<Entry>, SerError> {
    match w
    case Ser(vs) => Serialized(ser, Some(vs.len), LiveEntries(vs.pushes))
    case De(m) => Serialized(ser, Some(|m|), MapEntries(m))
  }

  /** `Serialize for SerializeSpanFields`. */
  method Serialize(w: SerializeSpanFields, ser: Serializer) returns (r: Result<Compound<Entry>, SerError>)
    ensures r == Output(w, ser)
  {
    match w
    case Ser(vs) =>
      r := SerializeLive(vs.pushes, vs.len, ser);
    case De(m) =>
      r := SerializeRecordMap(m, ser);
  }

  /**
    `From<RecordMap>`, the deserialisation path: the stored form, serializing as the map
    itself, entry by entry in the stored order (key order for a `Sorted` map, as every
    deserialised `BTreeMap` is).
  */
  function FromMap(m: RecordMap): (r: SerializeSpanFields)
    ensures r.De?
    ensures forall ser :: Output(r, ser) == Serialized(ser, Some(|m|), MapEntries(m))
  {
    De(m)
  }

  /** Owns all its data: a valid stored map with owned keys and values. */
  ghost predicate IsOwned(w: SerializeSpanFields) {
    w.De? && Sorted(w.entries) && IsOwnedMap(w.entries)
  }

  /**
    The result of `to_owned`: a live value set is visited into a fresh map, one owned key per
    field name; a stored map has its keys and values made owned and is collected again.
  */
  function OwnedForm(w: SerializeSpanFields): (r: SerializeSpanFields)
    ensures IsOwned(r)
    ensures w.Ser? ==> Keys(r.entries) == PushedNames(w.values.pushes)
    ensures w.De? ==> KeyContents(r.entries) == KeyContents(w.entries)
  {
    match w
    case Ser(vs) => De(Materialize(vs.pushes))
    case De(m) => De(OwnedRecordMap(m))
  }

  /** `SerializeSpanFields::to_owned`. */
  method ToOwned(w: SerializeSpanFields) returns (r: SerializeSpanFields)
    ensures r == OwnedForm(w)
  {
    match w
    case Ser(vs) =>
      var m := VisitIntoMap(vs.pushes);
      r := De(m);
    case De(m) =>
      r := De(OwnedRecordMap(m));
  }

  /** Owning an owned wrapper changes nothing. */
  lemma {:induction false} OwnedIdempotent(w: SerializeSpanFields)
    ensures OwnedForm(OwnedForm(w)) == OwnedForm(w)
  {
    OwnedRecordMapIdempotent(OwnedForm(w).entries);
  }

  /**
    A value set whose `len` is the number of values it visits, visited in strictly
    ascending name order, serializes the same before and after `to_owned`.
  */
  lemma {:induction false} OwnedSerializesAlike(vs: ValueSet, ser: Serializer)
    requires vs.len == |vs.pushes|
    requires StrictlyAscending(vs.pushes)
    ensures RenderMap(Output(OwnedForm(Ser(vs)), ser)) == RenderMap(Output(Ser(vs), ser))
  {
    LiveMatchesMaterialized(vs.pushes, ser);
  }
}
