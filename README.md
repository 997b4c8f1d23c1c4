# tracing-serde-structured, modelled in Dafny

`tracing-serde-structured` is an adapter between the `tracing` instrumentation library and
`serde`. It turns the borrowed entities that `tracing` hands to a subscriber (events, span
attributes, span records, metadata, levels, span ids) into values that implement
`Serialize`. Each of those values has two forms:

- a **live** (`Ser`) form, which borrows the entity and streams its fields through a visitor
  when serialized;
- a **materialised** (`De`) form, which holds owned data: field names as a vector, recorded
  values in a `BTreeMap` keyed by field name.

The `to_owned` family converts live values into materialised ones that no longer borrow
anything.

This project models the `std` configuration of `src/lib.rs`:

- `CowString` (`CowStrings`): content-based `PartialEq` and `Hash` next to the derived,
  tag-first `Ord`.
- `DebugRecord` and `SerializeValue` (`Values`).
- The `BTreeMap` that backs a `RecordMap` (`RecordMaps`): an ascending association list under
  the derived `Ord`, with `insert` and `collect`.
- `SerdeMapVisitor` (`MapVisitors`): a class whose `record_*` callbacks implement the
  sticky-error protocol over an open map serializer.
- `HashVisit` (`HashVisitors`): a class that inserts each callback into its map in place.
- The three fields wrappers `SerializeRecordFields`, `SerializeSpanFields` and
  `SerializeRecord` (`EventFields`, `SpanFields`, `RecordValues`), which share their live and
  stored serialization paths (`FieldMaps`).
- `SerializeFieldSet` (`FieldSets`), `SerializeLevel` (`Levels`) and `SerializeMetadata`
  (`Metadatas`).
- The `as_serde`/`to_owned` conversions for ids, events, attributes and records (`Entities`).

The downstream serde serializer is abstract (`Serializers`). It is deterministic and is
described by where it fails: when the map or sequence is opened, at the call with index `k`,
or at `end`. A sink class records every `serialize_entry`/`serialize_element` call, so the
exact calls the adapter makes can be stated.

`Render` gives the serde data-model image of a value: its variant, with every string taken
by content. Two outputs are "the same" when their keys and rendered values agree, because
`CowString` serializes through `as_str` and `DebugRecord` through its formatted text.

A `tracing` entity that carries values is described by the ordered sequence of `record_*`
callbacks its `record` method makes (`Tracing.ValueSet.pushes`). Its `len` (or its callsite's
field count) is recorded separately, because the two need not agree.

The live and the materialised form of the same fields do **not** always serialize alike:

- The materialised map is a `BTreeMap`. It emits its keys in ascending order, once each, with
  the last value recorded for a name.
- The live form emits the callbacks in visiting order, repeats included.
- The live form's size hint is the declared field count; the map's hint is its own length.

The model therefore proves the agreement only when the names are visited in strictly
ascending order and the size hint equals the number of values visited
(`FieldMaps.LiveMatchesMaterialized`). It exhibits concrete inputs where the two forms differ
(`FieldMaps.OutOfOrderNamesAreReordered`, `FieldMaps.RepeatedNameKeepsLastValue`).

## Model

| member | source | states |
|---|---|---|
| CowStrings.AsStr | src/lib.rs:240-248 | `as_str` returns the content of either representation: the value is `Borrowed` or `Owned` of the result |
| CowStrings.Eq | src/lib.rs:272-276 | `PartialEq` holds exactly when the contents compare `Equal`, which is also exactly when the derived `Ord` says `Equal` of the two owned copies |
| CowStrings.Hash | src/lib.rs:257-270 | both `Hash` impls feed the content to the hasher, so every value `PartialEq`-equal to the input hashes to the result |
| CowStrings.Cmp | src/lib.rs:224-230 | the derived `Ord` answers `Equal` exactly for identical values, and puts every `Borrowed` before every `Owned` |
| CowStrings.FromStr | src/lib.rs:278-282 | a `&str` converts to `Borrowed` with that exact content |
| CowStrings.ToOwned | src/lib.rs:250-255 | always `Owned`, with the same `as_str` content; on an owned value the result equals the input |
| CowStrings.CmpEqual | src/lib.rs:224-230 | the derived `Ord` answers `Equal` exactly for structurally equal values (same tag, same content) |
| CowStrings.CmpFlip | src/lib.rs:224-230 | the derived `Ord` is antisymmetric: swapping the operands flips the answer |
| CowStrings.CmpTransitive | src/lib.rs:224-230 | the derived `Ord` is transitive on `Less` |
| CowStrings.EqIsContentEquality | src/lib.rs:272-276 | `PartialEq` is reflexive, symmetric and transitive, and is unaffected by `to_owned` |
| CowStrings.HashAgreesWithEq | src/lib.rs:257-270 | values equal under `PartialEq` hash identically under every hasher, for both `Hash` impls |
| CowStrings.BorrowedEqualsOwned | src/lib.rs:241-282 | `Borrowed(s)` and its owned copy are equal and hash identically |
| CowStrings.OrdDisagreesWithEq | src/lib.rs:224-276 | `Borrowed("a") == Owned("a")` under `PartialEq`, yet the derived `Ord` says `Less` |
| CowStrings.CmpOwnedIsContentOrder | src/lib.rs:224-230 | among `Owned` values the derived `Ord` is the content order, and `Equal` coincides with `PartialEq` |
| Values.DebugText | src/lib.rs:464-474 | a `DebugRecord` serializes as the formatted live arguments, or as the content of the stored string |
| Values.DebugRecordFrom | src/lib.rs:458-462 | a deserialised debug string becomes the `De` form, whose serialized text is that string |
| Values.DebugRecordToOwned | src/lib.rs:750-758 | the result is `De(Owned(_))` and carries the text the input serializes as (live arguments are formatted); owned input is returned unchanged |
| Values.ToOwned | src/lib.rs:764-776 | the result owns all its data and has the input's variant and payload (same serialized image); owned input is returned unchanged |
| Values.RenderDeterminesVariant | src/lib.rs:438-474 | the same serialized image means the same variant; two owned values with the same image are equal |
| RecordMaps.Insert | src/lib.rs:783-788 | `BTreeMap::insert`: the key set gains the key, the key maps to the new value, every other key keeps its value |
| RecordMaps.InsertSorted | src/lib.rs:783-788 | insertion keeps the keys strictly ascending; the map grows by one exactly when the key is new |
| RecordMaps.Collect | src/lib.rs:557-561 | `collect()` into a `BTreeMap` (as successive inserts, which matches the standard one for owned keys) yields a strictly ascending map over the same key set, holding only given pairs |
| RecordMaps.CollectGet | src/lib.rs:557-561 | after `collect()` each key holds the value of its last occurrence (later duplicates overwrite), and a key no pair carries is absent |
| RecordMaps.CollectOfSorted | src/lib.rs:557-561 | collecting pairs that are already strictly ascending rebuilds them unchanged |
| RecordMaps.OwnedRecordMap | src/lib.rs:557-561 | the `De` branch of `to_owned` yields a valid map with owned keys and values and the same key contents |
| RecordMaps.OwnedRecordMapGet | src/lib.rs:557-561 | each key's content maps to its value made owned, unless a later key has the same content |
| RecordMaps.OwnedRecordMapIdempotent | src/lib.rs:557-561 | owning an already owned map gives it back unchanged |
| RecordMaps.OwnedRecordMapMergesEqualContents | src/lib.rs:557-561 | keys `Borrowed("a")` and `Owned("a")` are two entries of a map, and owning it merges them into one, keeping the later value |
| Serializers.SerializedAlike | src/lib.rs:284-291 | entries with the same keys and value images serialize alike, failures included |
| MapVisitors.RunSticky | src/lib.rs:616-665 | once `state` is `Err`, further callbacks change neither the entry log nor `state` |
| MapVisitors.RunCharacterized | src/lib.rs:616-665 | from `Ok`, the entries issued are the pushes in order up to and including the first failing one, and that first error is kept |
| MapVisitors.FirstFailureStopsEntries | src/lib.rs:616-665 | if call `k` is the first to fail, exactly entries `0..k` are issued and `state` holds call `k`'s error |
| MapVisitors.FinishAfterRun | src/lib.rs:588-591 | visiting then `finish` gives the first entry error, else `end`'s result: serializing with `?` after every call |
| MapVisitors.SerdeMapVisitor.constructor | src/lib.rs:578-583 | a new visitor wraps the given open serializer with `state` `Ok` |
| MapVisitors.SerdeMapVisitor.Finish | src/lib.rs:588-591 | the recorded error without calling `end`, else `end`'s result over the entries logged |
| MapVisitors.SerdeMapVisitor.TakeSerializer | src/lib.rs:596-599 | the still open serializer exactly when `state` is `Ok`, else the recorded error |
| MapVisitors.SerdeMapVisitor.RecordBool | src/lib.rs:616-624 | while `Ok`, one `serialize_entry(name, Bool(value))` whose result becomes `state`; nothing once `Err` |
| MapVisitors.SerdeMapVisitor.RecordDebug | src/lib.rs:626-633 | while `Ok`, one entry `Debug(Ser(args))` with debug-format arguments around the value; nothing once `Err` |
| MapVisitors.SerdeMapVisitor.RecordU64 | src/lib.rs:635-641 | while `Ok`, one entry `U64(value)`; nothing once `Err` |
| MapVisitors.SerdeMapVisitor.RecordI64 | src/lib.rs:643-649 | while `Ok`, one entry `I64(value)`; nothing once `Err` |
| MapVisitors.SerdeMapVisitor.RecordF64 | src/lib.rs:651-657 | while `Ok`, one entry `F64(value)`; nothing once `Err` |
| MapVisitors.SerdeMapVisitor.RecordStr | src/lib.rs:659-665 | while `Ok`, one entry `Str(Borrowed(value))`; nothing once `Err` |
| MapVisitors.RecordInto | src/lib.rs:536 | an entity's `record` call on the visitor leaves it in the state the callback sequence specifies |
| HashVisitors.OwnedValueIsLiveValueOwned | src/lib.rs:790-795 | what `HashVisit` stores for a callback is what `SerdeMapVisitor` would emit, made owned; both serialize alike |
| HashVisitors.Materialize | src/lib.rs:778-824 | a fresh `HashVisit` ends with a valid map whose keys are all owned, one per distinct pushed name |
| HashVisitors.MaterializeGet | src/lib.rs:778-824 | each pushed name maps to the owned form of the last value pushed under it; unpushed names are absent |
| HashVisitors.MaterializeAscending | src/lib.rs:778-824 | pushes with strictly ascending names materialise in push order, one entry each |
| HashVisitors.HashVisit.constructor | src/lib.rs:553 | `HashVisit(BTreeMap::new())` starts empty |
| HashVisitors.HashVisit.Insert | src/lib.rs:783-788 | inserting under an owned key keeps the map valid and owned |
| HashVisitors.HashVisit.RecordBool | src/lib.rs:783-788 | inserts `Bool(value)` under the owned field name |
| HashVisitors.HashVisit.RecordDebug | src/lib.rs:790-795 | inserts `Debug(De(Owned(formatted value)))` under the owned field name |
| HashVisitors.HashVisit.RecordU64 | src/lib.rs:797-802 | inserts `U64(value)` under the owned field name |
| HashVisitors.HashVisit.RecordI64 | src/lib.rs:804-809 | inserts `I64(value)` under the owned field name |
| HashVisitors.HashVisit.RecordF64 | src/lib.rs:811-816 | inserts `F64(value)` under the owned field name |
| HashVisitors.HashVisit.RecordStr | src/lib.rs:818-823 | inserts `Str(Owned(value))` under the owned field name |
| HashVisitors.VisitIntoMap | src/lib.rs:552-556 | visiting the pushes into a fresh `HashVisit` yields the materialised map |
| FieldMaps.SerializeLive | src/lib.rs:531-537 | `serialize_map(Some(items))?`, visit, `finish` gives exactly the result of serializing the live entries with `?` after each call |
| FieldMaps.SerializeRecordMap | src/lib.rs:539 | a stored map serializes as a map sized by its length, entries in the stored order (key order for a `Sorted` map), first failure reported |
| FieldMaps.LiveMatchesMaterialized | src/lib.rs:548-564 | with strictly ascending names and a hint equal to the number of values, live and materialised output agree |
| FieldMaps.OutOfOrderNamesAreReordered | src/lib.rs:548-564 | names visited as `b, a` are emitted live as `b, a` but from the map as `a, b` |
| FieldMaps.RepeatedNameKeepsLastValue | src/lib.rs:778-824 | a name visited twice gives two live entries but one stored entry, holding the later value |
| EventFields.Serialize | src/lib.rs:491-508 | live: a map sized by the callsite's declared field count with the visited entries; stored: the map itself |
| EventFields.FromMap | src/lib.rs:485-489 | a deserialised map becomes the stored form, which serializes as that map |
| EventFields.OwnedForm | src/lib.rs:830-846 | `to_owned` always yields an owned stored map; live: keyed by the owned pushed names; stored: same key contents |
| EventFields.ToOwned | src/lib.rs:830-846 | the `to_owned` method computes that owned form, visiting a live event into a fresh `HashVisit` |
| EventFields.OwnedIdempotent | src/lib.rs:830-846 | `to_owned` of an owned value changes nothing |
| EventFields.OwnedSerializesAlike | src/lib.rs:491-508 | an event declaring exactly the fields it visits, in ascending name order, serializes the same after `to_owned` |
| SpanFields.Serialize | src/lib.rs:525-541 | live: a map sized by the value set's `len` with the visited entries; stored: the map itself |
| SpanFields.FromMap | src/lib.rs:519-523 | a deserialised map becomes the stored form, which serializes as that map |
| SpanFields.OwnedForm | src/lib.rs:548-564 | `to_owned` always yields an owned stored map; live: keyed by the owned pushed names; stored: same key contents |
| SpanFields.ToOwned | src/lib.rs:548-564 | the `to_owned` method computes that owned form |
| SpanFields.OwnedIdempotent | src/lib.rs:548-564 | `to_owned` of an owned value changes nothing |
| SpanFields.OwnedSerializesAlike | src/lib.rs:525-541 | a value set whose `len` is its number of values, in ascending name order, serializes the same after `to_owned` |
| RecordValues.Serialize | src/lib.rs:413-430 | live: a map sized by the record's `len` with the visited entries; stored: the map itself |
| RecordValues.FromMap | src/lib.rs:432-436 | a deserialised map becomes the stored form, which serializes as that map |
| RecordValues.OwnedForm | src/lib.rs:922-938 | `to_owned` always yields an owned stored map; live: keyed by the owned pushed names; stored: same key contents |
| RecordValues.ToOwned | src/lib.rs:922-938 | the `to_owned` method computes that owned form |
| RecordValues.OwnedIdempotent | src/lib.rs:922-938 | `to_owned` of an owned value changes nothing |
| RecordValues.OwnedSerializesAlike | src/lib.rs:413-430 | a record whose `len` is its number of values, in ascending name order, serializes the same after `to_owned` |
| FieldSets.FromVec | src/lib.rs:331-335 | a deserialised vector becomes the vector form, holding those names in order |
| FieldSets.ToOwned | src/lib.rs:697-711 | always the vector form, every name owned, same names in the same order and number; owned input unchanged |
| FieldSets.SerializeNames | src/lib.rs:319-324 | a sequence sized by the number of names, one element per name in order, first failure reported |
| FieldSets.Serialize | src/lib.rs:313-329 | both forms serialize as the sequence of their names, sized by their number |
| FieldSets.SerializeIgnoresOwnership | src/lib.rs:697-711 | a field set and its owned copy serialize identically |
| Levels.Discriminant | src/lib.rs:337-361 | the `usize` discriminants lie in 0..4 |
| Levels.AsSerde | src/lib.rs:940-952 | each library level maps to the variant whose serialized name is that level's name |
| Levels.FromToken | src/lib.rs:337-340 | reading an upper-case name yields a level that serializes as that name |
| Levels.TokenRoundTrip | src/lib.rs:337-340 | every level's serialized name reads back as the same level |
| Levels.ToLevel | src/lib.rs:940-952 | each variant stands for the library level of the same name |
| Levels.AsSerdeBijective | src/lib.rs:940-952 | `as_serde` and `ToLevel` are mutually inverse: the mapping is a bijection |
| Levels.DiscriminantsBySeverity | src/lib.rs:341-361 | the discriminants are distinct and increase Trace=0 < Debug < Info < Warn < Error=4 |
| Metadatas.AsSerde | src/lib.rs:675-691 | every accessor is copied with content preserved, strings borrowed, the level mapped, the field set kept live |
| Metadatas.OptionToOwned | src/lib.rs:724-725 | an optional string keeps its presence and content and becomes owned |
| Metadatas.ToOwned | src/lib.rs:717-732 | all strings owned; name, target, level, optional paths, line, field names and flags keep their contents |
| Metadatas.OwnedAsSerdeKeepsFacts | src/lib.rs:675-732 | owning the live metadata of a callsite keeps everything the callsite describes |
| Entities.IdAsSerde | src/lib.rs:893-901 | the id's non-zero number is kept |
| Entities.ParentAsSerde | src/lib.rs:741 | a parent is present exactly when the entity has one, with the same number |
| Entities.EventAsSerde | src/lib.rs:734-744 | the fields serialize the event's values live, sized by its declared fields; metadata and parent describe the event |
| Entities.AttributesAsSerde | src/lib.rs:863-874 | the fields serialize the span's values live, sized by `len`; metadata, parent and `is_root` are the attributes' own |
| Entities.RecordAsSerde | src/lib.rs:910-916 | the record serializes its values live, sized by its `len` |
| Entities.EventToOwned | src/lib.rs:852-861 | owned fields and metadata with unchanged contents, the same parent |
| Entities.AttributesToOwned | src/lib.rs:880-891 | owned fields and metadata with unchanged contents, the same parent and `is_root` |
| Entities.OwnedEventFieldsSerializeAlike | src/lib.rs:734-861 | under the ascending-names condition, an event's live fields and their owned copy serialize the same |

## Left out

- The derive-generated `Serialize`/`Deserialize` of the structs and enums, and the
  `#[serde(from = …)]` plumbing, with three exceptions: `Levels.Token` is the derived
  `Serialize` of `SerializeLevel` under `rename_all = "UPPERCASE"`, `Levels.FromToken` its
  derived `Deserialize`, and `Values.Render` the derived externally tagged `Serialize` of
  `SerializeValue`. Otherwise only the hand-written `Serialize` impls and the `From`
  conversions are modelled.
- RecordMaps.Collect: modelled as successive `insert`s in iteration order. The standard
  `collect()` sorts stably and drops adjacent keys equal under `PartialEq`, which differs
  from this only when one key appears both `Borrowed` and `Owned`; every call site
  (src/lib.rs:560, 842, 933) collects owned keys, where the two agree.
- The serde `Serializer`, `SerializeMap` and `SerializeSeq` implementations and concrete
  formats: they are replaced by the abstract failure-indexed serializer of `Serializers`.
- The `tracing_core` types are external. Each is described by its accessors and by the
  callbacks its `record` method makes.
- `fmt::Debug` and `fmt::Arguments` are foreign formatting code. A debug value is its
  formatted text (`DebugValue.text`).
- `f64` is an opaque 64-bit payload that is only copied; no numeric semantics.
- The `valuable` `record_value` callback (src/lib.rs:606-614) depends on an unstable,
  cfg-gated foreign crate.
- The `unsafe impl Send` blocks and the `'a`/`'static` lifetimes have no Dafny counterpart.
  Owning is expressed by the `IsOwned` predicates.
- The `no_std` configuration with `heapless` containers of capacity 32 (src/lib.rs:293-297)
  is not modelled; the `std` configuration with `Vec`/`BTreeMap` is.
- `SerializeLevel::to_owned` and `SerializeId::to_owned` are clones of `Copy`-like values,
  i.e. the identity; they are used as such (`Entities.EventToOwned` keeps `parent` as is).
- `CowString`'s `Deref` is `as_str` and is used as `AsStr` throughout.
- The `sealed::Sealed` trait is a type-system restriction with nothing to verify.
- `Serializers.MapSink`, `Serializers.SeqSink`, `Serializers.SerializeMap` and
  `Serializers.SerializeSeq` stand for the external serializer. Their contracts describe that
  stand-in, not code of this crate.
