/** `SerializeFieldSet`: a callsite's field names, as a live field set or an owned vector. */
module FieldSets {
  import opened Base
  import opened CowStrings
  import opened Tracing
  import opened Serializers

  datatype SerializeFieldSet = Ser(fieldSet: FieldSet) | De(names: seq<CowString>)

  /** The names held, in order, whatever the representation. */
  function Names(sfs: SerializeFieldSet): seq<string> {
    match sfs
    case Ser(fs) => fs.names
    case De(ns) => seq(|ns|, i requires 0 <= i < |ns| => AsStr(ns[i]))
  }

  predicate IsOwned(sfs: SerializeFieldSet) {
    sfs.De? && forall c :: c in sfs.names ==> c.Owned?
  }

  /** `From<TracingVec<CowString>>`, the deserialisation path: always the vector form. */
  function FromVec(v: seq<CowString>): (r: SerializeFieldSet)
    ensures r.De? && |Names(r)| == |v|
    ensures forall i :: 0 <= i < |v| ==> Names(r)[i] == AsStr(v[i])
  {
    De(v)
  }

  /**
    `SerializeFieldSet::to_owned`: always the vector form, with the same names in the same
    order, every one owned.
  */
  function ToOwned(sfs: SerializeFieldSet): (r: SerializeFieldSet)
    ensures IsOwned(r)
    ensures Names(r) == Names(sfs)
    ensures IsOwned(sfs) ==> r == sfs
  {
    match sfs
    case Ser(fs) => De(seq(|fs.names|, i requires 0 <= i < |fs.names| => CowStrings.ToOwned(FromStr(fs.names[i]))))
    case De(ns) => De(seq(|ns|, i requires 0 <= i < |ns| => CowStrings.ToOwned(ns[i])))
  }

  /**
    A sequence of `names`, opened with their number as size hint, one `serialize_element`
    per name with `?`, then `end`: the loop of the live branch, and the calls that
    serializing the stored vector makes.
  */
  method SerializeNames(ser: Serializer, names: seq<string>) returns (r: Result<Compound<string>, SerError>)
    ensures r == Serialized(ser, Some(|names|), names)
  {
    var started := SerializeSeq(ser, Some(|names|));
    if started.Err? {
      return Err(started.error);
    }
    var sink := started.value;
    for i := 0 to |names|
      invariant !sink.ended && sink.log == names[..i]
      invariant sink.hint == Some(|names|)
      invariant sink.failures == ser.itemFailures && sink.endFailure == ser.endFailure
      invariant FirstFailure(ser.itemFailures, 0, i) == None
    {
      var res := sink.SerializeElement(names[i]);
      if res.Err? {
        assert FirstFailure(ser.itemFailures, 0, |names|) == Some(i);
        return Err(res.error);
      }
    }
    assert names[..|names|] == names;
    r := sink.End();
  }

  /** `Serialize for SerializeFieldSet`: a sequence of the names, sized by their number. */
  method Serialize(sfs: SerializeFieldSet, ser: Serializer) returns (r: Result<Compound<string>, SerError>)
    ensures r == Serialized(ser, Some(|Names(sfs)|), Names(sfs))
  {
    match sfs
    case Ser(fs) =>
      r := SerializeNames(ser, fs.names);
    case De(ns) =>
      r := SerializeNames(ser, seq(|ns|, i requires 0 <= i < |ns| => AsStr(ns[i])));
  }

  /** A live field set and its owned copy serialize identically, failures included. */
  lemma {:induction false} SerializeIgnoresOwnership(sfs: SerializeFieldSet, ser: Serializer)
    ensures Serialized(ser, Some(|Names(ToOwned(sfs))|), Names(ToOwned(sfs)))
         == Serialized(ser, Some(|Names(sfs)|), Names(sfs))
  {
  }
}
