/** `DebugRecord` and `SerializeValue`: the value of one recorded field, live or materialised. */
module Values {
  import opened Base
  import opened CowStrings
  import opened Tracing

  /** Debug-format arguments built around a value: a reference to it, formatted only when displayed. */
  datatype Arguments = FormatDebug(value: DebugValue)

  /** The `Display` of the arguments, i.e. what `to_string` and the serializer see. */
  function Format(a: Arguments): string {
    a.value.text
  }

  /** A debug-formatted field: live arguments, or a formatted snapshot. */
  datatype DebugRecord = Ser(args: Arguments) | De(text: CowString)

  datatype SerializeValue =
    | Debug(record: DebugRecord)
    | Str(str: CowString)
    | F64(f: Float64)
    | I64(i: i64)
    | U64(u: u64)
    | Bool(b: bool)

  /**
    `Serialize for DebugRecord`: the text a serializer receives, the `Display` of the live
    arguments, or the content of the stored string.
  */
  function DebugText(d: DebugRecord): (s: string)
    ensures d.Ser? ==> s == Format(d.args)
    ensures d.De? ==> s == AsStr(d.text)
  {
    match d
    case Ser(args) => Format(args)
    case De(text) => AsStr(text)
  }

  /**
    What a serializer receives for a `SerializeValue`: the variant's tag and its payload, with
    strings as plain content. Two values with the same image produce the same output under
    any deterministic serializer.
  */
  datatype ValueData =
    | DebugData(text: string)
    | StrData(text: string)
    | F64Data(f: Float64)
    | I64Data(i: i64)
    | U64Data(u: u64)
    | BoolData(b: bool)

  function Render(v: SerializeValue): ValueData {
    match v
    case Debug(d) => DebugData(DebugText(d))
    case Str(s) => StrData(AsStr(s))
    case F64(x) => F64Data(x)
    case I64(x) => I64Data(x)
    case U64(x) => U64Data(x)
    case Bool(x) => BoolData(x)
  }

  /** `From<CowString>` for `DebugRecord`, the deserialisation path: always a snapshot. */
  function DebugRecordFrom(c: CowString): (r: DebugRecord)
    ensures r.De? && DebugText(r) == AsStr(c)
  {
    De(c)
  }

  /** Owns all its data: no live arguments and no borrowed string inside. */
  predicate IsOwnedDebug(d: DebugRecord) {
    d.De? && d.text.Owned?
  }

  predicate IsOwned(v: SerializeValue) {
    match v
    case Debug(d) => IsOwnedDebug(d)
    case Str(s) => s.Owned?
    case _ => true
  }

  /** `DebugRecord::to_owned`: formats live arguments, copies a snapshot. */
  function DebugRecordToOwned(d: DebugRecord): (r: DebugRecord)
    ensures IsOwnedDebug(r)
    ensures DebugText(r) == DebugText(d)
    ensures IsOwnedDebug(d) ==> r == d
  {
    match d
    case Ser(args) => De(Owned(Format(args)))
    case De(text) => De(CowStrings.ToOwned(text))
  }

  /**
    `SerializeValue::to_owned`: the variant and the payload are kept (the serialized image
    is unchanged) and the result owns all its data; an owned value comes back as it was.
  */
  function ToOwned(v: SerializeValue): (r: SerializeValue)
    ensures IsOwned(r)
    ensures Render(r) == Render(v)
    ensures IsOwned(v) ==> r == v
  {
    match v
    case Debug(d) => Debug(DebugRecordToOwned(d))
    case Str(s) => Str(CowStrings.ToOwned(s))
    case F64(x) => F64(x)
    case I64(x) => I64(x)
    case U64(x) => U64(x)
    case Bool(x) => Bool(x)
  }

  /** The same serialized image means the same variant with the same payload content. */
  lemma RenderDeterminesVariant(v: SerializeValue, w: SerializeValue)
    requires Render(v) == Render(w)
    ensures v.Debug? == w.Debug? && v.Str? == w.Str? && v.Bool? == w.Bool?
    ensures v.F64? == w.F64? && v.I64? == w.I64? && v.U64? == w.U64?
    ensures IsOwned(v) && IsOwned(w) ==> v == w
  {
  }
}
