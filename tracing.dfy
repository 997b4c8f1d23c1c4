/**
  The entities of the instrumentation library that the adapter borrows. They belong to
  another crate, so each is described only by what the adapter asks of it: its accessors,
  and for the ones that carry values, the ordered sequence of `record_*` callbacks that
  its `record` method makes on a visitor.
*/
module Tracing {
  import opened Base

  /** A `&dyn Debug` value, described by the text its `Debug` implementation writes. */
  datatype DebugValue = DebugValue(text: string)

  /** A field of a callsite; the adapter only reads its name. */
  datatype Field = Field(name: string)

  /** Which `record_*` callback the visitor receives, with its argument. */
  datatype Recorded =
    | RecordedBool(b: bool)
    | RecordedU64(u: u64)
    | RecordedI64(i: i64)
    | RecordedF64(f: Float64)
    | RecordedStr(s: string)
    | RecordedDebug(d: DebugValue)

  /** One callback: `visitor.record_*(field, value)`. */
  datatype Push = Push(field: Field, value: Recorded)

  /** A callsite's field set: its names in declaration order (`iter`), and `len` their number. */
  datatype FieldSet = FieldSet(names: seq<string>)

  /**
    A `ValueSet`: `len` is what `ValueSet::len` reports, and `pushes` the callbacks that
    `record` makes, in visiting order. The two need not agree (a field declared without a
    value is counted but not visited).
  */
  datatype ValueSet = ValueSet(len: nat, pushes: seq<Push>)

  datatype Level = TRACE | DEBUG | INFO | WARN | ERROR

  datatype Metadata = Metadata(
    name: string,
    target: string,
    level: Level,
    modulePath: Option<string>,
    file: Option<string>,
    line: Option<u32>,
    fields: FieldSet,
    isSpan: bool,
    isEvent: bool)

  /** A span identifier: a non-zero 64-bit number. */
  datatype Id = Id(value: NonZeroU64)

  /** An event: `fields()` iterates its metadata's field set, `record` visits `values`. */
  datatype Event = Event(metadata: Metadata, parent: Option<Id>, values: ValueSet)

  /** The attributes of a new span. */
  datatype Attributes = Attributes(metadata: Metadata, parent: Option<Id>, isRoot: bool, values: ValueSet)

  /** A record of values added to an existing span: `len` and `record` are those of its value set. */
  datatype Record = Record(values: ValueSet)
}
