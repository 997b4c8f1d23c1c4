/**
  `SerdeMapVisitor`: the visitor that streams recorded fields into an open map serializer.
  The first failing `serialize_entry` is remembered in `state`, and from then on every
  callback does nothing, because the visiting protocol cannot be stopped from inside.
*/
module MapVisitors {
  import opened Base
  import opened CowStrings
  import opened Tracing
  import opened Values
  import opened Serializers

  /** The value a `record_*` callback hands to `serialize_entry`: strings stay borrowed, debug values stay unformatted. */
  function LiveValue(x: Recorded): SerializeValue {
    match x
    case RecordedBool(b) => Bool(b)
    case RecordedU64(u) => U64(u)
    case RecordedI64(i) => I64(i)
    case RecordedF64(f) => F64(f)
    case RecordedStr(s) => Str(FromStr(s))
    case RecordedDebug(d) => Debug(Ser(FormatDebug(d)))
  }

  /** The entry a push produces: the field's name as key, the matching value variant. */
  function LiveEntry(p: Push): Entry {
    Entry(p.field.name, LiveValue(p.value))
  }

  function LiveEntries(pushes: seq<Push>): seq<Entry> {
    seq(|pushes|, i requires 0 <= i < |pushes| => LiveEntry(pushes[i]))
  }

  /** The visitor's observable state: the serializer's entry log and `state`. */
  datatype VisitState = VisitState(log: seq<Entry>, state: Result<(), SerError>)

  /**
    One `record_*` callback: while `state` is `Ok`, one `serialize_entry` call, whose result
    becomes the new `state`; once it is `Err`, nothing.
  */
  function Step(failures: map<nat, SerError>, st: VisitState, e: Entry): VisitState {
    if st.state.Ok? then VisitState(st.log + [e], ItemResult(failures, |st.log|)) else st
  }

  /** A sequence of callbacks, in order. */
  function Run(failures: map<nat, SerError>, st: VisitState, es: seq<Entry>): VisitState {
    if |es| == 0 then st
    else Step(failures, Run(failures, st, es[..|es| - 1]), es[|es| - 1])
  }

  /** Sticky error: once `state` is `Err`, further callbacks change neither the log nor `state`. */
  lemma {:induction false} RunSticky(failures: map<nat, SerError>, st: VisitState, es: seq<Entry>)
    requires st.state.Err?
    ensures Run(failures, st, es) == st
  {
    if |es| > 0 {
      RunSticky(failures, st, es[..|es| - 1]);
    }
  }

  /**
    Starting from `Ok`, the entries issued are the pushes in order, up to and including the
    first one whose call fails, and that first error is the one retained.
  */
  lemma {:induction false} RunCharacterized(failures: map<nat, SerError>, log0: seq<Entry>, es: seq<Entry>)
    ensures Run(failures, VisitState(log0, Ok(())), es) ==
      match FirstFailure(failures, |log0|, |log0| + |es|)
      case None => VisitState(log0 + es, Ok(()))
      case Some(k) => VisitState(log0 + es[..k - |log0| + 1], Err(failures[k]))
  {
    if |es| > 0 {
      var init := es[..|es| - 1];
      RunCharacterized(failures, log0, init);
      match FirstFailure(failures, |log0|, |log0| + |init|)
      case Some(k) =>
        assert init[..k - |log0| + 1] == es[..k - |log0| + 1];
      case None =>
        assert init + [es[|es| - 1]] == es;
    }
  }

  /** With the `k`-th entry failing first, exactly entries `0..k` are issued and its error is kept. */
  lemma FirstFailureStopsEntries(failures: map<nat, SerError>, es: seq<Entry>, k: nat)
    requires k < |es| && k in failures
    requires forall j :: 0 <= j < k ==> j !in failures
    ensures Run(failures, VisitState([], Ok(())), es) == VisitState(es[..k + 1], Err(failures[k]))
  {
    var first := FirstFailure(failures, 0, |es|);
    assert first.Some? by {
      assert 0 <= k < |es| && k in failures;
    }
    assert first.value == k by {
      assert !(first.value < k);
      assert !(k < first.value);
    }
    RunCharacterized(failures, [], es);
    assert [] + es[..k + 1] == es[..k + 1];
  }

  /**
    Visiting `es` into a freshly opened map and then calling `finish` gives the same result
    as serializing the entries with `?` after each call.
  */
  lemma FinishAfterRun(ser: Serializer, hint: Option<nat>, es: seq<Entry>)
    requires ser.openFailure.None?
    ensures var st := Run(ser.itemFailures, VisitState([], Ok(())), es);
      Serialized(ser, hint, es) ==
        if st.state.Err? then Err(st.state.error)
        else if ser.endFailure.Some? then Err(ser.endFailure.value)
        else Ok(Compound(hint, st.log))
  {
    RunCharacterized(ser.itemFailures, [], es);
    assert [] + es == es;
  }

  class SerdeMapVisitor {
    var serializer: MapSink
    var state: Result<(), SerError>

    /** The serializer is still open: `finish` and `take_serializer` consume the visitor. */
    ghost predicate Valid()
      reads this, serializer
    {
      !serializer.ended
    }

    ghost function View(): VisitState
      reads this, serializer
    {
      VisitState(serializer.log, state)
    }

    /** `SerdeMapVisitor::new`. */
    constructor (serializer: MapSink)
      requires !serializer.ended
      ensures this.serializer == serializer && state == Ok(())
      ensures Valid()
    {
      this.serializer := serializer;
      state := Ok(());
    }

    /** `finish`: the recorded error if any (the map is then left open), else the result of `end`. */
    method Finish() returns (r: Result<Compound<Entry>, SerError>)
      requires Valid()
      modifies serializer
      ensures state.Err? ==> r == Err(state.error) && unchanged(serializer)
      ensures state.Ok? ==> serializer.ended && serializer.log == old(serializer.log)
      ensures state.Ok? ==> r == if serializer.endFailure.Some? then Err(serializer.endFailure.value)
                                 else Ok(Compound(serializer.hint, serializer.log))
    {
      if state.Err? {
        return Err(state.error);
      }
      r := serializer.End();
    }

    /** `take_serializer`: the still open serializer, only if no entry failed. */
    method TakeSerializer() returns (r: Result<MapSink, SerError>)
      requires Valid()
      ensures r == if state.Ok? then Ok(serializer) else Err(state.error)
      ensures r.Ok? ==> !r.value.ended
    {
      if state.Err? {
        return Err(state.error);
      }
      r := Ok(serializer);
    }

    method RecordBool(field: Field, value: bool)
      requires Valid()
      modifies this`state, serializer
      ensures Valid()
      ensures View() == Step(serializer.failures, old(View()), Entry(field.name, Bool(value)))
    {
      if state.Ok? {
        state := serializer.SerializeEntry(field.name, Bool(value));
      }
    }

    method RecordDebug(field: Field, value: DebugValue)
      requires Valid()
      modifies this`state, serializer
      ensures Valid()
      ensures View() == Step(serializer.failures, old(View()), Entry(field.name, Debug(Ser(FormatDebug(value)))))
    {
      if state.Ok? {
        state := serializer.SerializeEntry(field.name, Debug(Ser(FormatDebug(value))));
      }
    }

    method RecordU64(field: Field, value: u64)
      requires Valid()
      modifies this`state, serializer
      ensures Valid()
      ensures View() == Step(serializer.failures, old(View()), Entry(field.name, U64(value)))
    {
      if state.Ok? {
        state := serializer.SerializeEntry(field.name, U64(value));
      }
    }

    method RecordI64(field: Field, value: i64)
      requires Valid()
      modifies this`state, serializer
      ensures Valid()
      ensures View() == Step(serializer.failures, old(View()), Entry(field.name, I64(value)))
    {
      if state.Ok? {
        state := serializer.SerializeEntry(field.name, I64(value));
      }
    }

    method RecordF64(field: Field, value: Float64)
      requires Valid()
      modifies this`state, serializer
      ensures Valid()
      ensures View() == Step(serializer.failures, old(View()), Entry(field.name, F64(value)))
    {
      if state.Ok? {
        state := serializer.SerializeEntry(field.name, F64(value));
      }
    }

    method RecordStr(field: Field, value: string)
      requires Valid()
      modifies this`state, serializer
      ensures Valid()
      ensures View() == Step(serializer.failures, old(View()), Entry(field.name, Str(FromStr(value))))
    {
      if state.Ok? {
        state := serializer.SerializeEntry(field.name, Str(FromStr(value)));
      }
    }
  }

  /** The `record` call of a value set on this visitor: one callback per push, in order. */
  method RecordInto(pushes: seq<Push>, visitor: SerdeMapVisitor)
    requires visitor.Valid()
    modifies visitor`state, visitor.serializer
    ensures visitor.Valid()
    ensures visitor.View() == Run(visitor.serializer.failures, old(visitor.View()), LiveEntries(pushes))
  {
    for i := 0 to |pushes|
      invariant visitor.Valid()
      invariant visitor.View() == Run(visitor.serializer.failures, old(visitor.View()), LiveEntries(pushes[..i]))
    {
      var p := pushes[i];
      ghost var before := visitor.View();
      ghost var es := LiveEntries(pushes[..i + 1]);
      assert es[..i] == LiveEntries(pushes[..i]) && es[i] == LiveEntry(p);
      assert Run(visitor.serializer.failures, old(visitor.View()), es)
          == Step(visitor.serializer.failures, before, LiveEntry(p));
      match p.value
      case RecordedBool(b) => visitor.RecordBool(p.field, b);
      case RecordedU64(u) => visitor.RecordU64(p.field, u);
      case RecordedI64(x) => visitor.RecordI64(p.field, x);
      case RecordedF64(f) => visitor.RecordF64(p.field, f);
      case RecordedStr(s) => visitor.RecordStr(p.field, s);
      case RecordedDebug(d) => visitor.RecordDebug(p.field, d);
    }
    assert pushes[..|pushes|] == pushes;
  }
}
