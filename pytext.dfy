/**
 * The few pieces of Python string and `pathlib` behaviour that the bot relies
 * on: `str.lower` on a suffix, `str.strip`, `PurePath.suffix` and
 * `PurePath.stem`, `str(int)`, and the `/` operator on paths.
 */
module PyText {

  // ---------------------------------------------------------------------------
  // str.isspace and str.strip()

  /** The code points for which Python's `str.isspace` holds. */
  predicate IsSpace(c: char) {
    ('\t' <= c <= '\r') || ('\U{1C}' <= c <= '\U{1F}') || c == ' '
    || c == '\U{85}' || c == '\U{A0}' || c == '\U{1680}'
    || ('\U{2000}' <= c <= '\U{200A}') || c == '\U{2028}' || c == '\U{2029}'
    || c == '\U{202F}' || c == '\U{205F}' || c == '\U{3000}'
  }

  /** `s.lstrip()`: drop leading whitespace. */
  function StripLeft(s: string): (r: string)
    ensures |r| <= |s| && r == s[|s| - |r|..]
    ensures forall k :: 0 <= k < |s| - |r| ==> IsSpace(s[k])
    ensures r != [] ==> !IsSpace(r[0])
  {
    if s != [] && IsSpace(s[0]) then StripLeft(s[1..]) else s
  }

  /** `s.rstrip()`: drop trailing whitespace. */
  function StripRight(s: string): (r: string)
    ensures |r| <= |s| && r == s[..|r|]
    ensures forall k :: |r| <= k < |s| ==> IsSpace(s[k])
    ensures r != [] ==> !IsSpace(r[|r| - 1])
  {
    if s != [] && IsSpace(s[|s| - 1]) then StripRight(s[..|s| - 1]) else s
  }

  /** `r` is the slice of `s` at `i`, and only whitespace lies around it. */
  predicate StrippedAt(s: string, i: int, r: string) {
    && 0 <= i <= |s| - |r|
    && r == s[i..i + |r|]
    && (forall k :: 0 <= k < i ==> IsSpace(s[k]))
    && (forall k :: i + |r| <= k < |s| ==> IsSpace(s[k]))
  }

  /**
   * `s.strip()`: the result is a contiguous slice of `s`, everything outside
   * it is whitespace, and it neither starts nor ends with whitespace.
   */
  function Strip(s: string): (r: string)
    ensures exists i :: StrippedAt(s, i, r)
    ensures r != [] ==> !IsSpace(r[0]) && !IsSpace(r[|r| - 1])
  {
    var l := StripLeft(s);
    var r := StripRight(l);
    var i := |s| - |l|;
    assert StrippedAt(s, i, r);
    r
  }

  /** A string without whitespace at either end is its own strip. */
  lemma StripFixed(s: string)
    requires s != [] ==> !IsSpace(s[0]) && !IsSpace(s[|s| - 1])
    ensures Strip(s) == s
  {
    assert StripLeft(s) == s;
    assert StripRight(s) == s;
  }

  /** Stripping twice is stripping once. */
  lemma StripIdempotent(s: string)
    ensures Strip(Strip(s)) == Strip(s)
  {
    StripFixed(Strip(s));
  }

  // ---------------------------------------------------------------------------
  // str.lower() (ASCII letters)

  function LowerChar(c: char): (r: char)
    ensures 'A' <= c <= 'Z' ==> 'a' <= r <= 'z' && r as int == c as int + 32
    ensures !('A' <= c <= 'Z') ==> r == c
  {
    if 'A' <= c <= 'Z' then (c as int + 32) as char else c
  }

  /** Lower-cases every ASCII capital and leaves every other character alone. */
  function Lower(s: string): (r: string)
    ensures |r| == |s|
    ensures forall k :: 0 <= k < |s| ==> r[k] == LowerChar(s[k])
  {
    if s == [] then [] else [LowerChar(s[0])] + Lower(s[1..])
  }

  // ---------------------------------------------------------------------------
  // PurePath.suffix and PurePath.stem of a final path component

  /** `name.rfind('.')`: the index of the last dot, or -1. */
  function LastDot(name: string): (i: int)
    ensures -1 <= i < |name|
    ensures i >= 0 ==> name[i] == '.'
    ensures forall k :: i < k < |name| ==> name[k] != '.'
  {
    if name == [] then -1
    else if name[|name| - 1] == '.' then |name| - 1
    else LastDot(name[..|name| - 1])
  }

  /** The split point `pathlib` uses: a dot that is neither first nor last. */
  predicate HasSuffix(name: string) {
    0 < LastDot(name) < |name| - 1
  }

  /**
   * `PurePath(name).suffix`: from the last dot on, provided that dot is not
   * the first character (a hidden file) and not the last one.
   */
  function Suffix(name: string): (r: string)
    ensures HasSuffix(name) <==> r != ""
    ensures r != "" ==> |r| >= 2 && r[0] == '.' && '.' !in r[1..]
    ensures |r| <= |name| && r == name[|name| - |r|..]
  {
    if HasSuffix(name) then name[LastDot(name)..] else ""
  }

  /** `PurePath(name).stem`: the name with its suffix removed. */
  function Stem(name: string): (r: string)
    ensures r + Suffix(name) == name
    ensures name != "" ==> r != ""
  {
    if HasSuffix(name) then name[..LastDot(name)] else name
  }

  // ---------------------------------------------------------------------------
  // str(int)

  function DigitChar(d: nat): (c: char)
    requires d < 10
    ensures '0' <= c <= '9' && c as int - '0' as int == d
  {
    ('0' as int + d) as char
  }

  predicate IsDigits(s: string) {
    forall k :: 0 <= k < |s| ==> '0' <= s[k] <= '9'
  }

  /** Decimal digits of `n`, without leading zeros. */
  function NatToDecimal(n: nat): (r: string)
    ensures r != [] && IsDigits(r)
    ensures r[0] == '0' ==> r == "0"
  {
    if n < 10 then [DigitChar(n)] else NatToDecimal(n / 10) + [DigitChar(n % 10)]
  }

  /** `str(i)` for a Python `int`. */
  function IntToDecimal(i: int): (r: string)
    ensures r != []
    ensures i < 0 <==> r[0] == '-'
    ensures IsDigits(if i < 0 then r[1..] else r)
    ensures IsCanonicalInt(r)
  {
    if i < 0 then "-" + NatToDecimal(-i) else NatToDecimal(i)
  }

  /** The value of a string of decimal digits: the reference reading of `str(int)`. */
  function DecimalValue(s: string): nat
    requires IsDigits(s)
  {
    if s == [] then 0
    else DecimalValue(s[..|s| - 1]) * 10 + (s[|s| - 1] as int - '0' as int)
  }

  /** An optional minus sign followed by decimal digits. */
  predicate IsIntText(s: string) {
    s != [] && IsDigits(if s[0] == '-' then s[1..] else s)
  }

  /**
   * The only form `str` gives an integer: an optional minus sign, then
   * digits with no leading zero, and never `-0`.
   */
  predicate IsCanonicalInt(s: string) {
    IsIntText(s) && var d := if s[0] == '-' then s[1..] else s; d != [] && (d[0] == '0' ==> s == "0")
  }

  /** `int(s)` on a string produced by `str`. */
  function ParseInt(s: string): int
    requires IsIntText(s)
  {
    if s[0] == '-' then 0 - DecimalValue(s[1..]) as int else DecimalValue(s)
  }

  lemma {:induction false} NatToDecimalValue(n: nat)
    ensures DecimalValue(NatToDecimal(n)) == n
  {
    if n >= 10 {
      var r := NatToDecimal(n);
      var p := NatToDecimal(n / 10);
      assert r[..|r| - 1] == p;
      NatToDecimalValue(n / 10);
    }
  }

  /** `int(str(i)) == i`: distinct integers render as distinct strings. */
  lemma IntToDecimalRoundTrip(i: int)
    ensures IsIntText(IntToDecimal(i)) && ParseInt(IntToDecimal(i)) == i
  {
    if i < 0 {
      assert IntToDecimal(i)[1..] == NatToDecimal(-i);
      NatToDecimalValue(-i);
    } else {
      NatToDecimalValue(i);
    }
  }

  /** Digits that do not start with a zero stand for a positive number. */
  lemma {:induction false} DecimalValuePositive(d: string)
    requires IsDigits(d) && d != [] && d[0] != '0'
    ensures DecimalValue(d) >= 1
    decreases |d|
  {
    if |d| > 1 {
      DecimalValuePositive(d[..|d| - 1]);
    }
  }

  /** Digits without a leading zero are the decimal form of their value. */
  lemma {:induction false} CanonicalDigits(d: string)
    requires IsDigits(d) && d != [] && (d[0] == '0' ==> d == "0")
    ensures NatToDecimal(DecimalValue(d)) == d
    decreases |d|
  {
    var n := DecimalValue(d);
    if |d| == 1 {
      assert d[..0] == [];
    } else {
      var p := d[..|d| - 1];
      DecimalValuePositive(p);
      CanonicalDigits(p);
      assert n / 10 == DecimalValue(p) && n % 10 == d[|d| - 1] as int - '0' as int;
      assert d == p + [d[|d| - 1]];
    }
  }

  /** Canonical integer text is `str` of its value: `str(int(s)) == s`. */
  lemma CanonicalIntIsDecimal(s: string)
    requires IsCanonicalInt(s)
    ensures IntToDecimal(ParseInt(s)) == s
  {
    if s[0] == '-' {
      var d := s[1..];
      DecimalValuePositive(d);
      CanonicalDigits(d);
      assert s == "-" + d;
    } else {
      CanonicalDigits(s);
    }
  }

  // ---------------------------------------------------------------------------
  // pathlib: Path(s) and the / operator

  /** `str(Path(s))` for an already normalised string: only "" changes, to ".". */
  function PathOf(s: string): (r: string)
    ensures r != ""
    ensures s == "" ==> r == "."
    ensures s != "" ==> r == s
  {
    if s == "" then "." else s
  }

  /** `s.endswith(t)`. */
  predicate EndsWith(s: string, t: string) {
    |t| <= |s| && s[|s| - |t|..] == t
  }

  /** A path string that starts at the root, as `Path.resolve` gives. */
  predicate IsAbsolute(name: string) {
    name != "" && name[0] == '/'
  }

  /** A path string that does not start at the root. */
  predicate IsRelative(name: string) {
    name != "" && name[0] != '/'
  }

  /**
   * `str(Path(dir) / name)`, where `dir` and `name` are normalised path
   * strings: an absolute `name` replaces `dir`, an empty one leaves
   * `Path(dir)`, a `dir` of "." (or "") disappears, and otherwise exactly one
   * separator joins the two.
   */
  function JoinPath(dir: string, name: string): (r: string)
    ensures r != ""
    ensures name != "" && name[0] == '/' ==> r == name
    ensures name == "" ==> r == PathOf(dir)
    ensures name != "" ==> EndsWith(r, name)
    ensures IsRelative(name) && PathOf(dir) == "." ==> r == name
    ensures IsRelative(name) && PathOf(dir) != "." ==>
      && (r == dir + name || r == dir + "/" + name)
      && r[|r| - |name| - 1] == '/'
      && (EndsWith(dir, "/") ==> r == dir + name)
  {
    var d := PathOf(dir);
    if name != "" && name[0] == '/' then name
    else if name == "" then d
    else if d == "." then name
    else if d[|d| - 1] == '/' then d + name
    else d + "/" + name
  }

  /** Joining a relative name onto a directory other than ".": one separator between them. */
  lemma JoinRelative(dir: string, name: string)
    requires PathOf(dir) != "." && IsRelative(name)
    ensures EndsWith(dir, "/") ==> JoinPath(dir, name) == dir + name
    ensures !EndsWith(dir, "/") ==> JoinPath(dir, name) == dir + "/" + name
  {
    assert EndsWith(dir, "/") <==> dir[|dir| - 1] == '/';
  }
}
