/** `SerializeMetadata`: the descriptive data of a callsite, live or owned. */
module Metadatas {
  import opened Base
  import opened CowStrings
  import opened Tracing
  import FieldSets
  import Levels

  datatype SerializeMetadata = SerializeMetadata(
    name: CowString,
    target: CowString,
    level: Levels.SerializeLevel,
    modulePath: Option<CowString>,
    file: Option<CowString>,
    line: Option<u32>,
    fields: FieldSets.SerializeFieldSet,
    isSpan: bool,
    isEvent: bool)

  /** The contents a metadata value serializes as: strings by content, fields by name. */
  datatype MetadataView = MetadataView(
    name: string,
    target: string,
    level: Levels.SerializeLevel,
    modulePath: Option<string>,
    file: Option<string>,
    line: Option<u32>,
    fieldNames: seq<string>,
    isSpan: bool,
    isEvent: bool)

  function OptionAsStr(o: Option<CowString>): Option<string> {
    match o
    case None => None
    case Some(c) => Some(AsStr(c))
  }

  function View(m: SerializeMetadata): MetadataView {
    MetadataView(AsStr(m.name), AsStr(m.target), m.level, OptionAsStr(m.modulePath),
                 OptionAsStr(m.file), m.line, FieldSets.Names(m.fields), m.isSpan, m.isEvent)
  }

  predicate OptionIsOwned(o: Option<CowString>) {
    o.Some? ==> o.value.Owned?
  }

  /** Owns all its strings and holds its field names as an owned vector. */
  predicate IsOwned(m: SerializeMetadata) {
    m.name.Owned? && m.target.Owned? && OptionIsOwned(m.modulePath) && OptionIsOwned(m.file)
    && FieldSets.IsOwned(m.fields)
  }

  /** What the library's `Metadata` describes, in the same terms. */
  function MetadataFacts(md: Metadata): MetadataView {
    MetadataView(md.name, md.target, Levels.AsSerde(md.level), md.modulePath, md.file, md.line,
                 md.fields.names, md.isSpan, md.isEvent)
  }

  function OptionFromStr(o: Option<string>): Option<CowString> {
    match o
    case None => None
    case Some(s) => Some(FromStr(s))
  }

  /**
    `Metadata::as_serde`: every accessor copied, strings borrowed rather than copied, the
    level mapped, the field set kept live.
  */
  function AsSerde(md: Metadata): (r: SerializeMetadata)
    ensures View(r) == MetadataFacts(md)
    ensures r.name.Borrowed? && r.target.Borrowed?
    ensures r.modulePath.Some? ==> r.modulePath.value.Borrowed?
    ensures r.file.Some? ==> r.file.value.Borrowed?
    ensures r.fields == FieldSets.Ser(md.fields)
  {
    SerializeMetadata(FromStr(md.name), FromStr(md.target), Levels.AsSerde(md.level),
                      OptionFromStr(md.modulePath), OptionFromStr(md.file), md.line,
                      FieldSets.Ser(md.fields), md.isSpan, md.isEvent)
  }

  function OptionToOwned(o: Option<CowString>): (r: Option<CowString>)
    ensures OptionIsOwned(r) && OptionAsStr(r) == OptionAsStr(o)
    ensures OptionIsOwned(o) ==> r == o
  {
    match o
    case None => None
    case Some(c) => Some(CowStrings.ToOwned(c))
  }

  /**
    `SerializeMetadata::to_owned`: the same contents, every string owned; an owned value
    comes back as it was.
  */
  function ToOwned(m: SerializeMetadata): (r: SerializeMetadata)
    ensures IsOwned(r)
    ensures View(r) == View(m)
    ensures IsOwned(m) ==> r == m
  {
    SerializeMetadata(CowStrings.ToOwned(m.name), CowStrings.ToOwned(m.target), m.level,
                      OptionToOwned(m.modulePath), OptionToOwned(m.file), m.line,
                      FieldSets.ToOwned(m.fields), m.isSpan, m.isEvent)
  }

  /** Taking the live view of a callsite and owning it keeps everything the callsite described. */
  lemma {:induction false} OwnedAsSerdeKeepsFacts(md: Metadata)
    ensures IsOwned(ToOwned(AsSerde(md)))
    ensures View(ToOwned(AsSerde(md))) == MetadataFacts(md)
  {
  }
}
