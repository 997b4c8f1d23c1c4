/** `SerializeRecordFields`: the fields of an event, live or materialised. */
module EventFields {
  import opened Base
  import opened CowStrings
  import opened Tracing
  import opened RecordMaps
  import opened Serializers
  import opened MapVisitors
  import opened HashVisitors
  import opened FieldMaps

  datatype SerializeRecordFields = Ser(event: Event) | De(entries: RecordMap)

  /**
    What serializing the wrapper yields. Live, the size hint is the number of fields the
    event's callsite declares (`fields().count()`), whatever number of values it visits.
  */
  function Output(w: SerializeRecordFields, ser: Serializer): Result<Compound<Entry>, SerError> {
    match w
    case Ser(e) => Serialized(ser, Some(|e.metadata.fields.names|), LiveEntries(e.values.pushes))
    case De(m) => Serialized(ser, Some(|m|), MapEntries(m))
  }

  /** `Serialize for SerializeRecordFields`. */
  method Serialize(w: SerializeRecordFields, ser: Serializer) returns (r: Result<Compound<Entry>, SerError>)
    ensures r == Output(w, ser)
  {
    match w
    case Ser(e) =>
      r := SerializeLive(e.values.pushes, |e.metadata.fields.names|, ser);
    case De(m) =>
      r := SerializeRecordMap(m, ser);
  }

  /**
    `From<RecordMap>`, the deserialisation path: the stored form, serializing as the map
    itself, entry by entry in the stored order (key order for a `Sorted` map, as every
    deserialised `BTreeMap` is).
  */
  function FromMap(m: RecordMap): (r: SerializeRecordFields)
    ensures r.De?
    ensures forall ser :: Output(r, ser) == Serialized(ser, Some(|m|), MapEntries(m))
  {
    De(m)
  }

  /** Owns all its data: a valid stored map with owned keys and values. */
  ghost predicate IsOwned(w: SerializeRecordFields) {
    w.De? && Sorted(w.entries) && IsOwnedMap(w.entries)
  }

  /**
    The result of `to_owned`: a live event is visited into a fresh map, one owned key per
    field name; a stored map has its keys and values made owned and is collected again.
  */
  function OwnedForm(w: SerializeRecordFields): (r: SerializeRecordFields)
    ensures IsOwned(r)
    ensures w.Ser? ==> Keys(r.entries) == PushedNames(w.event.values.pushes)
    ensures w.De? ==> KeyContents(r.entries) == KeyContents(w.entries)
  {
    match w
    case Ser(e) => De(Materialize(e.values.pushes))
    case De(m) => De(OwnedRecordMap(m))
  }

  /** `SerializeRecordFields::to_owned`. */
  method ToOwned(w: SerializeRecordFields) returns (r: SerializeRecordFields)
    ensures r == OwnedForm(w)
  {
    match w
    case Ser(e) =>
      var m := VisitIntoMap(e.values.pushes);
      r := De(m);
    case De(m) =>
      r := De(OwnedRecordMap(m));
  }

  /** Owning an owned wrapper changes nothing. */
  lemma {:induction false} OwnedIdempotent(w: SerializeRecordFields)
    ensures OwnedForm(OwnedForm(w)) == OwnedForm(w)
  {
    OwnedRecordMapIdempotent(OwnedForm(w).entries);
  }

  /**
    An event whose callsite declares exactly the fields it visits, visited in strictly
    ascending name order, serializes the same before and after `to_owned`.
  */
  lemma {:induction false} OwnedSerializesAlike(e: Event, ser: Serializer)
    requires |e.metadata.fields.names| == |e.values.pushes|
    requires StrictlyAscending(e.values.pushes)
    ensures RenderMap(Output(OwnedForm(Ser(e)), ser)) == RenderMap(Output(Ser(e), ser))
  {
    LiveMatchesMaterialized(e.values.pushes, ser);
  }
}
