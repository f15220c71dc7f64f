/**
 * JavaScript values as the plugin sees them in configuration, plain objects
 * used as environment maps, the `Number(...)` conversion and the semantics of
 * `Object.assign(target, ...sources)`.
 */
module JsValues {
  import opened Wrappers

  /** A configuration value. Fractional numbers are not modelled. */
  datatype Value = Undefined | Null | Bool(b: bool) | Num(n: int) | Str(s: string)

  /** A plain object, or the process environment: own keys to values. */
  type Env = map<string, Value>

  /** The result of `Number(v)`. */
  datatype Number = NaN | Finite(n: int)

  /** A JavaScript number is truthy unless it is NaN or zero. */
  predicate NumberTruthy(x: Number) {
    x.Finite? && x.n != 0
  }

  /** An optional string option is truthy when present and non-empty. */
  predicate TextTruthy(o: Option<string>) {
    o.Some? && o.value != ""
  }

  /** An optional string as it is read from an object: absent is `undefined`. */
  function OptionalText(o: Option<string>): (v: Value)
    ensures v.Undefined? <==> o.None?
    ensures o.Some? ==> v == Str(o.value)
  {
    match o
    case None => Undefined
    case Some(s) => Str(s)
  }

  predicate IsDigits(s: string) {
    forall i :: 0 <= i < |s| ==> '0' <= s[i] <= '9'
  }

  /** The value of a string of decimal digits; the empty string is 0. */
  function DecimalValue(s: string): nat
    requires IsDigits(s)
    decreases |s|
  {
    if s == [] then 0
    else 10 * DecimalValue(s[..|s| - 1]) + (s[|s| - 1] as int - '0' as int)
  }

  /** `Number(v)`: strings are read as unsigned decimal integers. */
  function ToNumber(v: Value): (x: Number)
    ensures v.Undefined? ==> x == NaN
    ensures v.Null? ==> x == Finite(0)
    ensures v.Bool? ==> x == Finite(if v.b then 1 else 0)
    ensures v.Num? ==> x == Finite(v.n)
    ensures v.Str? ==> (x.Finite? <==> IsDigits(v.s))
    ensures v.Str? && IsDigits(v.s) ==> x == Finite(DecimalValue(v.s))
  {
    match v
    case Undefined => NaN
    case Null => Finite(0)
    case Bool(b) => Finite(if b then 1 else 0)
    case Num(n) => Finite(n)
    case Str(s) => if IsDigits(s) then Finite(DecimalValue(s)) else NaN
  }

  /** Reads key `k` of an object: `None` when the object does not have it. */
  function Get(m: Env, k: string): (r: Option<Value>)
    ensures r.Some? <==> k in m
    ensures r.Some? ==> r.value == m[k]
  {
    if k in m then Some(m[k]) else None
  }

  /**
   * `Object.assign(target, sources[0], sources[1], ...)`: copies the keys of
   * each source onto the target, one source after the other, from the left.
   */
  function Assign(target: Env, sources: seq<Env>): (r: Env)
    ensures target.Keys <= r.Keys
    ensures sources != [] ==> forall k :: k in sources[|sources| - 1] ==>
              k in r && r[k] == sources[|sources| - 1][k]
    decreases |sources|
  {
    if sources == [] then target
    else Assign(target + sources[0], sources[1..])
  }

  /**
   * Reference definition of "last writer wins": the value of `k` in the last
   * source that defines it, and otherwise the target's own value.
   */
  function LastDefined(target: Env, sources: seq<Env>, k: string): (r: Option<Value>)
    ensures r.Some? <==> k in target || exists j :: 0 <= j < |sources| && k in sources[j]
    decreases |sources|
  {
    if sources == [] then Get(target, k)
    else if k in sources[|sources| - 1] then Some(sources[|sources| - 1][k])
    else
      var front := sources[..|sources| - 1];
      assert forall j :: 0 <= j < |front| ==> front[j] == sources[j];
      LastDefined(target, front, k)
  }

  /** Assigning one more source is the same as merging it into the result so far. */
  lemma {:induction false} AssignSnoc(target: Env, sources: seq<Env>, last: Env)
    ensures Assign(target, sources + [last]) == Assign(target, sources) + last
    decreases |sources|
  {
    if sources == [] {
      assert sources + [last] == [last];
      assert [last][1..] == [];
    } else {
      assert (sources + [last])[0] == sources[0];
      assert (sources + [last])[1..] == sources[1..] + [last];
      AssignSnoc(target + sources[0], sources[1..], last);
    }
  }

  /** `Object.assign` gives every key the value of its last writer. */
  lemma {:induction false} AssignIsLastWriter(target: Env, sources: seq<Env>, k: string)
    ensures Get(Assign(target, sources), k) == LastDefined(target, sources, k)
    decreases |sources|
  {
    if sources != [] {
      var front, last := sources[..|sources| - 1], sources[|sources| - 1];
      assert sources == front + [last];
      AssignSnoc(target, front, last);
      AssignIsLastWriter(target, front, k);
    }
  }

  /** Last writer wins, spelled out for four sources. */
  lemma AssignFourLayers(target: Env, s0: Env, s1: Env, s2: Env, s3: Env, k: string)
    ensures Get(Assign(target, [s0, s1, s2, s3]), k) ==
              if k in s3 then Some(s3[k])
              else if k in s2 then Some(s2[k])
              else if k in s1 then Some(s1[k])
              else if k in s0 then Some(s0[k])
              else Get(target, k)
  {
    var ls := [s0, s1, s2, s3];
    AssignIsLastWriter(target, ls, k);
    assert ls[..3] == [s0, s1, s2] && [s0, s1, s2][..2] == [s0, s1];
    assert [s0, s1][..1] == [s0] && [s0][..0] == [];
    assert LastDefined(target, [s0], k) == if k in s0 then Some(s0[k]) else Get(target, k);
    assert LastDefined(target, [s0, s1], k) ==
             if k in s1 then Some(s1[k]) else LastDefined(target, [s0], k);
    assert LastDefined(target, [s0, s1, s2], k) ==
             if k in s2 then Some(s2[k]) else LastDefined(target, [s0, s1], k);
  }
}
