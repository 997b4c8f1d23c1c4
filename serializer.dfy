/**
  The downstream serializer, reduced to what the adapter uses of it: open a map or a
  sequence with a size hint, add entries or elements one call at a time, close it. It is
  deterministic and described by where it fails, so that every failure the adapter must
  handle can be named: opening, the call with a given index, or closing.
*/
module Serializers {
  import opened Base
  import opened Values

  datatype SerError = SerError(code: nat)

  /**
    `openFailure`: `serialize_map`/`serialize_seq` fails; `itemFailures[k]`: the call with
    index `k` (counting from 0) to `serialize_entry`/`serialize_element` fails;
    `endFailure`: `end` fails.
  */
  datatype Serializer = Serializer(
    openFailure: Option<SerError>,
    itemFailures: map<nat, SerError>,
    endFailure: Option<SerError>)

  /** The arguments of one `serialize_entry(key, value)` call. */
  datatype Entry = Entry(key: string, value: SerializeValue)

  /** A completed map or sequence: the size hint it was opened with and its items in order. */
  datatype Compound<T> = Compound(hint: Option<nat>, items: seq<T>)

  /** The result of the item call with index `k`. */
  function ItemResult(failures: map<nat, SerError>, k: nat): Result<(), SerError> {
    if k in failures then Err(failures[k]) else Ok(())
  }

  /** The least index in `[lo, hi)` whose item call fails. */
  function FirstFailure(failures: map<nat, SerError>, lo: nat, hi: nat): (r: Option<nat>)
    requires lo <= hi
    ensures r.Some? ==> lo <= r.value < hi && r.value in failures
    ensures r.Some? ==> forall j :: lo <= j < r.value ==> j !in failures
    ensures r.None? <==> forall j :: lo <= j < hi ==> j !in failures
    decreases hi
  {
    if lo == hi then None
    else
      match FirstFailure(failures, lo, hi - 1)
      case Some(k) => Some(k)
      case None => if hi - 1 in failures then Some(hi - 1) else None
  }

  /**
    What serializing a map or a sequence of `items` with `?` after every call yields:
    the first failure, or the completed compound.
  */
  function Serialized<T>(ser: Serializer, hint: Option<nat>, items: seq<T>): Result<Compound<T>, SerError> {
    if ser.openFailure.Some? then Err(ser.openFailure.value)
    else
      match FirstFailure(ser.itemFailures, 0, |items|)
      case Some(k) => Err(ser.itemFailures[k])
      case None => if ser.endFailure.Some? then Err(ser.endFailure.value) else Ok(Compound(hint, items))
  }

  function RenderEntry(e: Entry): (string, ValueData) {
    (e.key, Render(e.value))
  }

  /** A serialized map as a deterministic serializer sees it: keys and value images. */
  function RenderMap(r: Result<Compound<Entry>, SerError>): Result<Compound<(string, ValueData)>, SerError> {
    match r
    case Ok(c) => Ok(Compound(c.hint, seq(|c.items|, i requires 0 <= i < |c.items| => RenderEntry(c.items[i]))))
    case Err(e) => Err(e)
  }

  /**
    Success and failure depend on how many entries there are, not on what they are, so
    entries with the same images serialize alike.
  */
  lemma SerializedAlike(ser: Serializer, hint: Option<nat>, a: seq<Entry>, b: seq<Entry>)
    requires |a| == |b|
    requires forall i :: 0 <= i < |a| ==> RenderEntry(a[i]) == RenderEntry(b[i])
    ensures RenderMap(Serialized(ser, hint, a)) == RenderMap(Serialized(ser, hint, b))
  {
    if Serialized(ser, hint, a).Ok? {
      assert Serialized(ser, hint, a) == Ok(Compound(hint, a));
      assert Serialized(ser, hint, b) == Ok(Compound(hint, b));
      var ra := RenderMap(Ok(Compound(hint, a))).value.items;
      var rb := RenderMap(Ok(Compound(hint, b))).value.items;
      assert |ra| == |rb|;
      assert forall i :: 0 <= i < |ra| ==> ra[i] == rb[i];
      assert ra == rb;
    }
  }

  /** An open `SerializeMap`. `log` holds the arguments of every `serialize_entry` call so far. */
  class MapSink {
    const hint: Option<nat>
    const failures: map<nat, SerError>
    const endFailure: Option<SerError>
    var log: seq<Entry>
    var ended: bool

    constructor (ser: Serializer, hint: Option<nat>)
      ensures this.hint == hint && failures == ser.itemFailures && endFailure == ser.endFailure
      ensures log == [] && !ended
    {
      this.hint := hint;
      failures := ser.itemFailures;
      endFailure := ser.endFailure;
      log := [];
      ended := false;
    }

    method SerializeEntry(key: string, value: SerializeValue) returns (r: Result<(), SerError>)
      requires !ended
      modifies this
      ensures log == old(log) + [Entry(key, value)] && !ended
      ensures r == ItemResult(failures, |old(log)|)
    {
      r := ItemResult(failures, |log|);
      log := log + [Entry(key, value)];
    }

    /** `end` takes the map by value, so it is called at most once. */
    method End() returns (r: Result<Compound<Entry>, SerError>)
      requires !ended
      modifies this
      ensures ended && log == old(log)
      ensures r == if endFailure.Some? then Err(endFailure.value) else Ok(Compound(hint, log))
    {
      ended := true;
      r := if endFailure.Some? then Err(endFailure.value) else Ok(Compound(hint, log));
    }
  }

  /** `Serializer::serialize_map`. */
  method SerializeMap(ser: Serializer, hint: Option<nat>) returns (r: Result<MapSink, SerError>)
    ensures ser.openFailure.Some? ==> r == Err(ser.openFailure.value)
    ensures ser.openFailure.None? ==> r.Ok? && fresh(r.value)
    ensures r.Ok? ==> r.value.hint == hint && r.value.log == [] && !r.value.ended
    ensures r.Ok? ==> r.value.failures == ser.itemFailures && r.value.endFailure == ser.endFailure
  {
    if ser.openFailure.Some? {
      return Err(ser.openFailure.value);
    }
    var sink := new MapSink(ser, hint);
    r := Ok(sink);
  }

  /** An open `SerializeSeq` of strings. `log` holds every `serialize_element` argument so far. */
  class SeqSink {
    const hint: Option<nat>
    const failures: map<nat, SerError>
    const endFailure: Option<SerError>
    var log: seq<string>
    var ended: bool

    constructor (ser: Serializer, hint: Option<nat>)
      ensures this.hint == hint && failures == ser.itemFailures && endFailure == ser.endFailure
      ensures log == [] && !ended
    {
      this.hint := hint;
      failures := ser.itemFailures;
      endFailure := ser.endFailure;
      log := [];
      ended := false;
    }

    method SerializeElement(element: string) returns (r: Result<(), SerError>)
      requires !ended
      modifies this
      ensures log == old(log) + [element] && !ended
      ensures r == ItemResult(failures, |old(log)|)
    {
      r := ItemResult(failures, |log|);
      log := log + [element];
    }

    method End() returns (r: Result<Compound<string>, SerError>)
      requires !ended
      modifies this
      ensures ended && log == old(log)
      ensures r == if endFailure.Some? then Err(endFailure.value) else Ok(Compound(hint, log))
    {
      ended := true;
      r := if endFailure.Some? then Err(endFailure.value) else Ok(Compound(hint, log));
    }
  }

  /** `Serializer::serialize_seq`. */
  method SerializeSeq(ser: Serializer, hint: Option<nat>) returns (r: Result<SeqSink, SerError>)
    ensures ser.openFailure.Some? ==> r == Err(ser.openFailure.value)
    ensures ser.openFailure.None? ==> r.Ok? && fresh(r.value)
    ensures r.Ok? ==> r.value.hint == hint && r.value.log == [] && !r.value.ended
    ensures r.Ok? ==> r.value.failures == ser.itemFailures && r.value.endFailure == ser.endFailure
  {
    if ser.openFailure.Some? {
      return Err(ser.openFailure.value);
    }
    var sink := new SeqSink(ser, hint);
    r := Ok(sink);
  }
}
