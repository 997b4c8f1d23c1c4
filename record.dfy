/** `SerializeRecord`: the values recorded on an existing span, live or materialised. */
module RecordValues {
  import opened Base
  import opened CowStrings
  import opened Tracing
  import opened RecordMaps
  import opened Serializers
  import opened MapVisitors
  import opened HashVisitors
  import opened FieldMaps

  datatype SerializeRecord = Ser(record: Record) | De(entries: RecordMap)

  /**
    What serializing the wrapper yields. Live, the size hint is the record's `len`,
    whatever number of values it visits.
  */
  function Output(w: SerializeRecord, ser: Serializer): Result<Compound<Entry>, SerError> {
    match w
    case Ser(rec) => Serialized(ser, Some(rec.values.len), LiveEntries(rec.values.pushes))
    case De(m) => Serialized(ser, Some(|m|), MapEntries(m))
  }

  /** `Serialize for SerializeRecord`. */
  method Serialize(w: SerializeRecord, ser: Serializer) returns (r: Result<Compound<Entry>, SerError>)
    ensures r == Output(w, ser)
  {
    match w
    case Ser(rec) =>
      r := SerializeLive(rec.values.pushes, rec.values.len, ser);
    case De(m) =>
      r := SerializeRecordMap(m, ser);
  }

  /**
    `From<RecordMap>`, the deserialisation path: the stored form, serializing as the map
    itself, entry by entry in the stored order (key order for a `Sorted` map, as every
    deserialised `BTreeMap` is).
  */
  function FromMap(m: RecordMap): (r: SerializeRecord)
    ensures r.De?
    ensures forall ser :: Output(r, ser) == Serialized(ser, Some(|m|), MapEntries(m))
  {
    De(m)
  }

  /** Owns all its data: a valid stored map with owned keys and values. */
  ghost predicate IsOwned(w: SerializeRecord) {
    w.De? && Sorted(w.entries) && IsOwnedMap(w.entries)
  }

  /**
    The result of `to_owned`: a live record is visited into a fresh map, one owned key per
    field name; a stored map has its keys and values made owned and is collected again.
  */
  function OwnedForm(w: SerializeRecord): (r: SerializeRecord)
    ensures IsOwned(r)
    ensures w.Ser? ==> Keys(r.entries) == PushedNames(w.record.values.pushes)
    ensures w.De? ==> KeyContents(r.entries) == KeyContents(w.entries)
  {
    match w
    case Ser(rec) => De(Materialize(rec.values.pushes))
    case De(m) => De(OwnedRecordMap(m))
  }

  /** `SerializeRecord::to_owned`. */
  method ToOwned(w: SerializeRecord) returns (r: SerializeRecord)
    ensures r == OwnedForm(w)
  {
    match w
    case Ser(rec) =>
      var m := VisitIntoMap(rec.values.pushes);
      r := De(m);
    case De(m) =>
      r := De(OwnedRecordMap(m));
  }

  /** Owning an owned wrapper changes nothing. */
  lemma {:induction false} OwnedIdempotent(w: SerializeRecord)
    ensures OwnedForm(OwnedForm(w)) == OwnedForm(w)
  {
    OwnedRecordMapIdempotent(OwnedForm(w).entries);
  }

  /**
    A record whose `len` is the number of values it visits, visited in strictly
    ascending name order, serializes the same before and after `to_owned`.
  */
  lemma {:induction false} OwnedSerializesAlike(rec: Record, ser: Serializer)
    requires rec.values.len == |rec.values.pushes|
    requires StrictlyAscending(rec.values.pushes)
    ensures RenderMap(Output(OwnedForm(Ser(rec)), ser)) == RenderMap(Output(Ser(rec), ser))
  {
    LiveMatchesMaterialized(rec.values.pushes, ser);
  }
}
