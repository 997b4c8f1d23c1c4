/**
  The serializable forms of the library's entities, and `as_serde`, which borrows a live
  entity into them, and `to_owned`, which detaches them from it.
*/
module Entities {
  import opened Base
  import opened Tracing
  import opened Serializers
  import opened MapVisitors
  import HashVisitors
  import Metadatas
  import EventFields
  import SpanFields
  import RecordValues

  datatype SerializeId = SerializeId(id: NonZeroU64)

  /** `Id::as_serde`: the identifier's non-zero number. */
  function IdAsSerde(id: Id): (r: SerializeId)
    ensures r.id == id.value && r.id as int > 0
  {
    SerializeId(id.value)
  }

  function ParentAsSerde(parent: Option<Id>): (r: Option<SerializeId>)
    ensures r.Some? <==> parent.Some?
    ensures r.Some? ==> r.value.id == parent.value.value
  {
    match parent
    case None => None
    case Some(p) => Some(IdAsSerde(p))
  }

  datatype SerializeEvent = SerializeEvent(
    fields: EventFields.SerializeRecordFields,
    metadata: Metadatas.SerializeMetadata,
    parent: Option<SerializeId>)

  datatype SerializeAttributes = SerializeAttributes(
    metadata: Metadatas.SerializeMetadata,
    parent: Option<SerializeId>,
    isRoot: bool,
    fields: SpanFields.SerializeSpanFields)

  /**
    `Event::as_serde`: the fields serialize the event's visited values live, sized by its
    callsite's declared fields; the metadata describes the event's callsite; the parent
    is the event's explicit parent.
  */
  function EventAsSerde(e: Event): (r: SerializeEvent)
    ensures forall ser ::
      EventFields.Output(r.fields, ser) == Serialized(ser, Some(|e.metadata.fields.names|), LiveEntries(e.values.pushes))
    ensures Metadatas.View(r.metadata) == Metadatas.MetadataFacts(e.metadata)
    ensures r.parent == ParentAsSerde(e.parent)
  {
    SerializeEvent(EventFields.Ser(e), Metadatas.AsSerde(e.metadata), ParentAsSerde(e.parent))
  }

  /**
    `Attributes::as_serde`: the fields serialize the span's initial values live, sized by
    the value set's `len`; metadata, parent and `is_root` are the attributes' own.
  */
  function AttributesAsSerde(a: Attributes): (r: SerializeAttributes)
    ensures forall ser ::
      SpanFields.Output(r.fields, ser) == Serialized(ser, Some(a.values.len), LiveEntries(a.values.pushes))
    ensures Metadatas.View(r.metadata) == Metadatas.MetadataFacts(a.metadata)
    ensures r.parent == ParentAsSerde(a.parent) && r.isRoot == a.isRoot
  {
    SerializeAttributes(Metadatas.AsSerde(a.metadata), ParentAsSerde(a.parent), a.isRoot, SpanFields.Ser(a.values))
  }

  /** `Record::as_serde`: the record's values, serialized live and sized by its `len`. */
  function RecordAsSerde(rec: Record): (r: RecordValues.SerializeRecord)
    ensures forall ser ::
      RecordValues.Output(r, ser) == Serialized(ser, Some(rec.values.len), LiveEntries(rec.values.pushes))
  {
    RecordValues.Ser(rec)
  }

  ghost predicate IsOwnedEvent(e: SerializeEvent) {
    EventFields.IsOwned(e.fields) && Metadatas.IsOwned(e.metadata)
  }

  ghost predicate IsOwnedAttributes(a: SerializeAttributes) {
    SpanFields.IsOwned(a.fields) && Metadatas.IsOwned(a.metadata)
  }

  /**
    `SerializeEvent::to_owned`: owned fields and metadata describing the same callsite,
    the same parent.
  */
  method EventToOwned(e: SerializeEvent) returns (r: SerializeEvent)
    ensures IsOwnedEvent(r)
    ensures r.fields == EventFields.OwnedForm(e.fields)
    ensures Metadatas.View(r.metadata) == Metadatas.View(e.metadata)
    ensures r.parent == e.parent
  {
    var fields := EventFields.ToOwned(e.fields);
    r := SerializeEvent(fields, Metadatas.ToOwned(e.metadata), e.parent);
  }

  /**
    `SerializeAttributes::to_owned`: owned fields and metadata describing the same
    callsite, the same parent and `is_root`.
  */
  method AttributesToOwned(a: SerializeAttributes) returns (r: SerializeAttributes)
    ensures IsOwnedAttributes(r)
    ensures r.fields == SpanFields.OwnedForm(a.fields)
    ensures Metadatas.View(r.metadata) == Metadatas.View(a.metadata)
    ensures r.parent == a.parent && r.isRoot == a.isRoot
  {
    var fields := SpanFields.ToOwned(a.fields);
    r := SerializeAttributes(Metadatas.ToOwned(a.metadata), a.parent, a.isRoot, fields);
  }

  /**
    An event whose callsite declares exactly the fields it visits, in strictly ascending
    name order, has fields that serialize the same before and after `to_owned`.
  */
  lemma {:induction false} OwnedEventFieldsSerializeAlike(e: Event, ser: Serializer)
    requires |e.metadata.fields.names| == |e.values.pushes|
    requires HashVisitors.StrictlyAscending(e.values.pushes)
    ensures var live := EventAsSerde(e).fields;
      RenderMap(EventFields.Output(EventFields.OwnedForm(live), ser)) == RenderMap(EventFields.Output(live, ser))
  {
    EventFields.OwnedSerializesAlike(e, ser);
  }
}
