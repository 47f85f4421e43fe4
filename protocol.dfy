/** The state an ObjectResultSet keeps across calls, and the effect of any
    sequence of calls on it. Only four members of the class write the
    was-null flag, and every updater funnels into updateObject; so a call
    is, for the state, a read through one of the four flag-writing entry
    points, one updateObject, or nothing. */
module Protocol {
  import opened JdbcValues
  import opened Extraction

  /** m_wasNull, and the updateObject calls made so far in order. */
  datatype State = State(wasNull: bool, updates: seq<(int, Value)>)

  /** The flag-writing entry point a getter reaches. */
  datatype ReadPath =
    | ViaGetObject                                  // getObject(int)
    | ViaGetObjectWithMap(typeMap: Option<TypeMap>) // getObject(int, Map)
    | ViaGetObjectAs(t: JavaClass)                  // getObject(int, Class)
    | ViaGetNumber                                  // getNumber(int, Class)

  datatype Call =
    | Read(col: int, path: ReadPath)
    | Forward(col: int, value: Value)  // one updateObject(col, value)
    | Inert                            // touches neither the flag nor the row

  /** The value getObjectValue returned to the entry point of a read, when it
      was called and returned; none when it threw or was never reached. */
  function Extracted(env: Env, c: Call): Option<Value> {
    match c
    case Read(col, path) =>
      var fetched :=
        match path
        case ViaGetObject => ObjectValue(env, col)
        case ViaGetObjectWithMap(m) => ObjectValueWithMap(env, col, m)
        case ViaGetObjectAs(t) => env.source(col, Some(t))
        case ViaGetNumber => ObjectValue(env, col);
      if fetched.Ok? then Some(fetched.value) else None
    case _ => None
  }

  /** The flag after an entry point extracted `fetched`: its nullness if the
      extraction returned, the old flag if it threw. */
  function FlagAfter(before: bool, fetched: Result<Value>): bool {
    if fetched.Ok? then fetched.value.Null? else before
  }

  function Step(env: Env, st: State, c: Call): State {
    match c
    case Read(_, _) =>
      var x := Extracted(env, c);
      if x.Some? then st.(wasNull := x.value.Null?) else st
    case Forward(col, v) => st.(updates := st.updates + [(col, v)])
    case Inert => st
  }

  /** The state after `calls`, made one after the other from `st`. */
  function Run(env: Env, st: State, calls: seq<Call>): State
    decreases |calls|
  {
    if calls == [] then st
    else Step(env, Run(env, st, calls[..|calls| - 1]), calls[|calls| - 1])
  }

  /** The (column, value) pairs of the updateObject calls in `calls`, in order. */
  function Forwarded(calls: seq<Call>): seq<(int, Value)>
    decreases |calls|
  {
    if calls == [] then []
    else (if calls[0].Forward? then [(calls[0].col, calls[0].value)] else []) + Forwarded(calls[1..])
  }

  lemma {:induction false} ForwardedAppend(calls: seq<Call>, c: Call)
    ensures Forwarded(calls + [c]) == Forwarded(calls) + Forwarded([c])
    decreases |calls|
  {
    if calls == [] {
      assert calls + [c] == [c];
    } else {
      assert (calls + [c])[1..] == calls[1..] + [c];
      ForwardedAppend(calls[1..], c);
    }
  }

  /** The write path loses nothing: the row's update log ends up as what it
      was, followed by every forwarded value in the order the calls made
      them; reads and refused calls add nothing. */
  lemma {:induction false} UpdatesLoseNothing(env: Env, st: State, calls: seq<Call>)
    ensures Run(env, st, calls).updates == st.updates + Forwarded(calls)
    decreases |calls|
  {
    if calls != [] {
      var init, last := calls[..|calls| - 1], calls[|calls| - 1];
      assert calls == init + [last];
      UpdatesLoseNothing(env, st, init);
      ForwardedAppend(init, last);
    }
  }

  /** wasNull answers for the most recent extraction that returned, whatever
      calls came after it: updaters, refused calls, extractions that threw. */
  lemma {:induction false} WasNullIsLastExtraction(env: Env, st: State, calls: seq<Call>, i: nat)
    requires i < |calls| && Extracted(env, calls[i]).Some?
    requires forall j :: i < j < |calls| ==> Extracted(env, calls[j]).None?
    ensures Run(env, st, calls).wasNull == Extracted(env, calls[i]).value.Null?
    decreases |calls|
  {
    var init, last := calls[..|calls| - 1], calls[|calls| - 1];
    if i < |calls| - 1 {
      WasNullIsLastExtraction(env, st, init, i);
    }
  }

  /** Without an extraction that returned, wasNull keeps its old answer. */
  lemma {:induction false} WasNullWithoutExtraction(env: Env, st: State, calls: seq<Call>)
    requires forall j :: 0 <= j < |calls| ==> Extracted(env, calls[j]).None?
    ensures Run(env, st, calls).wasNull == st.wasNull
    decreases |calls|
  {
    if calls != [] {
      WasNullWithoutExtraction(env, st, calls[..|calls| - 1]);
    }
  }

  /** Getter A then getter B: wasNull reports B's value, even when A's was
      null and B's is not. */
  lemma LaterReadDecides(env: Env, st: State, a: Call, b: Call)
    requires Extracted(env, b).Some?
    ensures Run(env, st, [a, b]).wasNull == Extracted(env, b).value.Null?
  {
    WasNullIsLastExtraction(env, st, [a, b], 1);
  }

  /** A sequence of reads leaves the update log as it was. */
  lemma {:induction false} ReadsLeaveUpdates(env: Env, st: State, calls: seq<Call>)
    requires forall j :: 0 <= j < |calls| ==> !calls[j].Forward?
    ensures Run(env, st, calls).updates == st.updates
    decreases |calls|
  {
    if calls != [] {
      ReadsLeaveUpdates(env, st, calls[..|calls| - 1]);
    }
  }
}
