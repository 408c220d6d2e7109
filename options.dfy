/**
 * The `ffmpeg.options` mapping of the settings file: a Python dict kept as
 * an ordered sequence of (key, value) pairs in insertion order, and the rule
 * that turns each option into command-line words.
 */
module FfmpegOptions {
  import opened Wrappers
  import opened PyText

  /** A YAML scalar as loaded: a boolean, a string, an integer or null. */
  datatype Value = Bool(b: bool) | Text(s: string) | Int(i: int) | Null

  type Options = seq<(string, Value)>

  /** A dict never holds a key twice. */
  predicate DistinctKeys(o: Options) {
    forall i, j :: 0 <= i < j < |o| ==> o[i].0 != o[j].0
  }

  predicate HasKey(o: Options, key: string) {
    exists i :: 0 <= i < |o| && o[i].0 == key
  }

  /** The position of `key`, or -1 when the dict does not hold it. */
  function Find(o: Options, key: string): (r: int)
    ensures -1 <= r < |o|
    ensures r >= 0 ==> o[r].0 == key
    ensures r >= 0 <==> HasKey(o, key)
    ensures forall j :: 0 <= j < |o| && (r < 0 || j < r) ==> o[j].0 != key
  {
    if o == [] then -1
    else if o[0].0 == key then 0
    else
      var r := Find(o[1..], key);
      assert forall j :: 1 <= j < |o| ==> o[j] == o[1..][j - 1];
      if r < 0 then -1 else r + 1
  }

  /** `d.get(key)`. */
  function Get(o: Options, key: string): (r: Option<Value>)
    ensures r.Some? <==> HasKey(o, key)
    ensures r.Some? ==> (key, r.value) in o
  {
    var i := Find(o, key);
    if i < 0 then None else Some(o[i].1)
  }

  /**
   * `d[key] = v`: an existing key keeps its position and takes the new
   * value; a new key goes at the end.
   */
  function Set(o: Options, key: string, v: Value): (r: Options)
    ensures Find(o, key) >= 0 ==> r == o[Find(o, key) := (key, v)]
    ensures Find(o, key) < 0 ==> r == o + [(key, v)]
  {
    if o == [] then [(key, v)]
    else if o[0].0 == key then [(key, v)] + o[1..]
    else
      var rest := Set(o[1..], key, v);
      assert o == [o[0]] + o[1..];
      [o[0]] + rest
  }

  /** Setting a key keeps the dict's keys distinct. */
  lemma SetKeepsDistinct(o: Options, key: string, v: Value)
    requires DistinctKeys(o)
    ensures DistinctKeys(Set(o, key, v))
  {
    var r := Set(o, key, v);
    var i := Find(o, key);
    forall a, b | 0 <= a < b < |r| ensures r[a].0 != r[b].0 {
      if i >= 0 {
        assert r[a].0 == o[a].0 && r[b].0 == o[b].0;
      } else if b == |o| {
        assert r[a] == o[a];
      } else {
        assert r[a] == o[a] && r[b] == o[b];
      }
    }
  }

  /** After `d[key] = v`, `d.get(key)` is `v`. */
  lemma SetReadsBack(o: Options, key: string, v: Value)
    requires DistinctKeys(o)
    ensures Get(Set(o, key, v), key) == Some(v)
  {
    var r := Set(o, key, v);
    var i := Find(o, key);
    if i >= 0 {
      assert r[i] == (key, v);
      assert forall j :: 0 <= j < i ==> r[j] == o[j];
    } else {
      assert r[|o|] == (key, v);
      assert forall j :: 0 <= j < |o| ==> r[j] == o[j];
    }
  }

  /** `d.get(k)` looks at the first pair, then at the rest. */
  lemma GetCons(o: Options, k: string)
    requires o != []
    ensures Get(o, k) == if o[0].0 == k then Some(o[0].1) else Get(o[1..], k)
  {
    if o[0].0 != k {
      var r := Find(o[1..], k);
      assert r >= 0 ==> o[r + 1] == o[1..][r];
    }
  }

  /** `d[key] = v` leaves every other key's value as it was. */
  lemma {:induction false} SetLeavesOthers(o: Options, key: string, v: Value, k: string)
    requires k != key
    ensures Get(Set(o, key, v), k) == Get(o, k)
  {
    var r := Set(o, key, v);
    if o == [] {
      GetCons(r, k);
      assert r[1..] == [];
    } else {
      GetCons(r, k);
      GetCons(o, k);
      if o[0].0 == key {
        assert r[1..] == o[1..];
      } else {
        assert r[1..] == Set(o[1..], key, v);
        SetLeavesOthers(o[1..], key, v, k);
      }
    }
  }

  const FilterComplexKey := "filter_complex"

  /** The filter used when there is no cover: a black 1080x1080 canvas under the audio. */
  const DefaultFilterComplex := "color=black:size=1080x1080 [bg]; [bg][0:a] concat=n=1:v=1:a=1"

  /**
   * Lines 127-130: `options["filter_complex"] = options.get("filter_complex", default)`.
   * A configured value stays where it is, verbatim; otherwise the default is
   * appended last.
   */
  function WithDefaultFilter(o: Options): (r: Options)
    ensures HasKey(o, FilterComplexKey) ==> r == o
    ensures !HasKey(o, FilterComplexKey) ==> r == o + [(FilterComplexKey, Text(DefaultFilterComplex))]
    ensures DistinctKeys(o) ==> DistinctKeys(r)
    ensures HasKey(r, FilterComplexKey)
  {
    var i := Find(o, FilterComplexKey);
    assert i >= 0 ==> o[i := (FilterComplexKey, o[i].1)] == o;
    var r := Set(o, FilterComplexKey, Get(o, FilterComplexKey).GetOr(Text(DefaultFilterComplex)));
    assert i < 0 ==> r[|o|].0 == FilterComplexKey;
    r
  }

  // ---------------------------------------------------------------------------
  // Rendering

  /**
   * Line 133. Both arms build the same word, so a `:v` or `:a` stream
   * specifier changes nothing.
   */
  function Flag(key: string): (r: string)
    ensures r == "-" + key
  {
    if !EndsWith(key, ":v") && !EndsWith(key, ":a") then "-" + key else "-" + key
  }

  /** `str(value)` for a scalar. */
  function PyStr(v: Value): string {
    match v
    case Bool(b) => if b then "True" else "False"
    case Text(s) => s
    case Int(i) => IntToDecimal(i)
    case Null => "None"
  }

  /**
   * What `str(value)` gives: a string is itself, an integer canonical
   * decimal text that `int` reads back (and so exactly `str` of it, by
   * `CanonicalIntIsDecimal`), null `None`, a boolean `True` or `False`.
   */
  lemma PyStrForms(v: Value)
    ensures v.Text? ==> PyStr(v) == v.s
    ensures v.Int? ==> IsCanonicalInt(PyStr(v)) && ParseInt(PyStr(v)) == v.i
    ensures v.Null? ==> PyStr(v) == "None"
    ensures v.Bool? ==> PyStr(v) == if v.b then "True" else "False"
  {
    if v.Int? {
      IntToDecimalRoundTrip(v.i);
    }
  }

  /** How many words an option contributes: 0, 1 or 2. */
  function Width(v: Value): nat {
    match v
    case Bool(b) => if b then 1 else 0
    case _ => 2
  }

  /**
   * Lines 134-141: `true` gives the bare flag, `false` gives nothing, any
   * other value the flag and the value's `str`.
   */
  function RenderOption(key: string, v: Value): (r: seq<string>)
    ensures |r| == Width(v)
    ensures v == Bool(true) ==> r == ["-" + key]
    ensures v == Bool(false) ==> r == []
    ensures !v.Bool? ==> r == ["-" + key, PyStr(v)]
  {
    if v.Bool? then (if v.b then [Flag(key)] else [])
    else [Flag(key), PyStr(v)]
  }

  /** The option words for a whole dict, in its order. */
  function RenderOptions(o: Options): seq<string> {
    if o == [] then []
    else RenderOptions(o[..|o| - 1]) + RenderOption(o[|o| - 1].0, o[|o| - 1].1)
  }

  /** The summed width of all options. */
  function TotalWidth(o: Options): nat {
    if o == [] then 0 else Width(o[0].1) + TotalWidth(o[1..])
  }

  /** Rendering a concatenation renders each part in turn. */
  lemma {:induction false} RenderOptionsAppend(a: Options, b: Options)
    ensures RenderOptions(a + b) == RenderOptions(a) + RenderOptions(b)
    decreases |b|
  {
    if b == [] {
      assert a + b == a;
    } else {
      var b' := b[..|b| - 1];
      assert (a + b)[..|a + b| - 1] == a + b';
      RenderOptionsAppend(a, b');
    }
  }

  /** The option segment is exactly as long as the options' widths add up to. */
  lemma {:induction false} RenderOptionsLength(o: Options)
    ensures |RenderOptions(o)| == TotalWidth(o)
  {
    if o != [] {
      assert o == [o[0]] + o[1..];
      RenderOptionsAppend([o[0]], o[1..]);
      assert RenderOptions([o[0]]) == RenderOption(o[0].0, o[0].1) by {
        assert [o[0]][..0] == [];
      }
      RenderOptionsLength(o[1..]);
    }
  }

  /**
   * Nothing but the dict contributes: every word is the flag of some option
   * or the `str` of its value.
   */
  lemma {:induction false} RenderOptionsOrigin(o: Options, j: nat)
    requires j < |RenderOptions(o)|
    ensures exists i :: 0 <= i < |o| && (RenderOptions(o)[j] == "-" + o[i].0 || RenderOptions(o)[j] == PyStr(o[i].1))
  {
    var n := |o| - 1;
    var front := RenderOptions(o[..n]);
    if j < |front| {
      RenderOptionsOrigin(o[..n], j);
      var i :| 0 <= i < n && (front[j] == "-" + o[..n][i].0 || front[j] == PyStr(o[..n][i].1));
      assert o[..n][i] == o[i];
    } else {
      assert RenderOptions(o)[j] == "-" + o[n].0 || RenderOptions(o)[j] == PyStr(o[n].1);
    }
  }

  /** An option set to `false` is as good as absent. */
  lemma FalseOptionVanishes(a: Options, key: string, b: Options)
    ensures RenderOptions(a + [(key, Bool(false))] + b) == RenderOptions(a + b)
  {
    var f: Options := [(key, Bool(false))];
    assert RenderOptions(f) == [] by {
      assert f[..0] == [];
      assert RenderOption(key, Bool(false)) == [];
    }
    RenderOptionsAppend(a + f, b);
    RenderOptionsAppend(a, f);
    RenderOptionsAppend(a, b);
  }
}
