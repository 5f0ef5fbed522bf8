/** Values and helpers shared by every part of the model: JavaScript-style
    values and truthiness, browser storage, and the sequence and string
    functions (filter, substring search, split/join, trim, email prefix)
    the components are built from. */
module Common {

  datatype Option<+T> = None | Some(value: T)

  datatype Result<+T, +E> = Ok(value: T) | Err(error: E)

  /** A JavaScript value as JSON.parse produces it, plus `undefined`.
      Numbers are reals (no NaN, no infinities). Dafny's `==` is structural;
      JavaScript's `===` is `StrictEquals`. */
  datatype Val =
    | Undefined
    | Null
    | Bool(b: bool)
    | Num(n: real)
    | Str(s: string)
    | Arr(items: seq<Val>)
    | Obj(fields: map<string, Val>)

  /** `a === b` between values of two different JSON.parse results: primitives
      compare by value, while arrays and objects compare by reference, and two
      parses never share one, so they are never equal. */
  predicate StrictEquals(a: Val, b: Val) {
    !a.Arr? && !a.Obj? && a == b
  }

  /** JavaScript truthiness. */
  predicate Truthy(v: Val) {
    match v
    case Undefined => false
    case Null => false
    case Bool(b) => b
    case Num(n) => n != 0.0
    case Str(s) => s != ""
    case Arr(_) => true
    case Obj(_) => true
  }

  predicate Nullish(v: Val) {
    v == Undefined || v == Null
  }

  /** `String(v)`, the text `new Error(v)` and `localStorage.setItem` keep.
      `num` renders a number (Number.prototype.toString). */
  function StringOf(v: Val, num: real -> string): string
    decreases v
  {
    match v
    case Undefined => "undefined"
    case Null => "null"
    case Bool(b) => if b then "true" else "false"
    case Num(n) => num(n)
    case Str(s) => s
    case Arr(items) =>
      Join(seq(|items|, i requires 0 <= i < |items| =>
        if Nullish(items[i]) then "" else StringOf(items[i], num)), ',')
    case Obj(_) => "[object Object]"
  }

  /** An inbound socket frame after JSON.parse: the value, or a parse failure. */
  datatype Inbound = Parsed(message: Val) | Malformed

  /** The TypeError raised by reading a property of null or undefined. */
  datatype TypeError = TypeError

  /** The message of that TypeError when the value read from is null. */
  const NullRead := "Cannot read properties of null"

  /** Property read `v.key`. */
  function Get(v: Val, key: string): Result<Val, TypeError> {
    match v
    case Undefined => Err(TypeError)
    case Null => Err(TypeError)
    case Obj(fields) => if key in fields then Ok(fields[key]) else Ok(Undefined)
    case _ => Ok(Undefined)
  }

  /** The own enumerable properties an object spread `{...v}` copies. */
  function OwnProps(v: Val): map<string, Val> {
    if v.Obj? then v.fields else map[]
  }

  /** A string-valued field that may be absent: truthy when present and non-empty. */
  predicate Present(s: Option<string>) {
    s.Some? && s.value != ""
  }

  /** `a || b` for an optional string and a default. */
  function OrElse(s: Option<string>, default: string): string {
    if Present(s) then s.value else default
  }

  /** Browser localStorage: keys to string values. */
  type Storage = map<string, string>

  /** localStorage.getItem: null for a missing key. */
  function GetItem(st: Storage, key: string): Option<string> {
    if key in st then Some(st[key]) else None
  }

  /** The WebSocket readyState values. */
  datatype ReadyState = Connecting | Open | Closing | Closed

  /** WebSocket.close(): a connecting or open socket starts closing; otherwise nothing. */
  function AfterClose(r: ReadyState): ReadyState {
    if r == Connecting || r == Open then Closing else r
  }

  // ---------------------------------------------------------------------------
  // Array.prototype.filter

  function Filter<T>(s: seq<T>, p: T -> bool): (r: seq<T>)
    ensures |r| <= |s|
    ensures forall x :: x in r ==> x in s && p(x)
    ensures forall i :: 0 <= i < |s| && p(s[i]) ==> s[i] in r
  {
    if s == [] then []
    else (if p(s[0]) then [s[0]] else []) + Filter(s[1..], p)
  }

  /** `a` is `b` with some elements dropped, order kept. */
  predicate IsSubsequence<T(==)>(a: seq<T>, b: seq<T>)
    decreases |b|
  {
    if a == [] then true
    else if b == [] then false
    else if a[0] == b[0] then IsSubsequence(a[1..], b[1..])
    else IsSubsequence(a, b[1..])
  }

  lemma {:induction false} FilterIsSubsequence<T>(s: seq<T>, p: T -> bool)
    ensures IsSubsequence(Filter(s, p), s)
  {
    if s != [] {
      FilterIsSubsequence(s[1..], p);
      var tail := Filter(s[1..], p);
      if p(s[0]) {
        assert Filter(s, p) == [s[0]] + tail;
        assert ([s[0]] + tail)[1..] == tail;
      } else {
        assert Filter(s, p) == tail;
        SubsequenceDropHead(tail, s);
      }
    }
  }

  lemma {:induction false} SubsequenceDropHead<T>(a: seq<T>, b: seq<T>)
    requires b != []
    requires IsSubsequence(a, b[1..])
    ensures IsSubsequence(a, b)
    decreases |a| + |b|
  {
    if a != [] && a[0] == b[0] {
      // IsSubsequence(a, b) now needs IsSubsequence(a[1..], b[1..])
      SubsequenceTail(a, b[1..]);
    }
  }

  lemma {:induction false} SubsequenceTail<T>(a: seq<T>, b: seq<T>)
    requires a != []
    requires IsSubsequence(a, b)
    ensures IsSubsequence(a[1..], b)
    decreases |a| + |b|
  {
    assert b != [];
    if a[0] == b[0] {
      SubsequenceDropHead(a[1..], b);
    } else {
      SubsequenceTail(a, b[1..]);
      SubsequenceDropHead(a[1..], b);
    }
  }

  lemma {:induction false} FilterAppend<T>(s: seq<T>, x: T, p: T -> bool)
    ensures Filter(s + [x], p) == Filter(s, p) + (if p(x) then [x] else [])
  {
    if s == [] {
      assert [x][1..] == [];
    } else {
      assert (s + [x])[1..] == s[1..] + [x];
      FilterAppend(s[1..], x, p);
    }
  }

  /** Filtering twice with the same predicate changes nothing more. */
  lemma {:induction false} FilterIdempotent<T>(s: seq<T>, p: T -> bool)
    ensures Filter(Filter(s, p), p) == Filter(s, p)
  {
    if s != [] {
      FilterIdempotent(s[1..], p);
      if p(s[0]) {
        var f := [s[0]] + Filter(s[1..], p);
        assert Filter(s, p) == f;
        assert f[0] == s[0] && f[1..] == Filter(s[1..], p);
        assert Filter(f, p) == [f[0]] + Filter(f[1..], p);
      } else {
        assert Filter(s, p) == [] + Filter(s[1..], p) == Filter(s[1..], p);
      }
    }
  }

  /** A predicate every element meets keeps the whole sequence. */
  lemma {:induction false} FilterAll<T>(s: seq<T>, p: T -> bool)
    requires forall i :: 0 <= i < |s| ==> p(s[i])
    ensures Filter(s, p) == s
  {
    if s != [] {
      FilterAll(s[1..], p);
      assert [s[0]] + s[1..] == s;
    }
  }

  /** A predicate no element meets keeps nothing. */
  lemma {:induction false} FilterNone<T>(s: seq<T>, p: T -> bool)
    requires forall i :: 0 <= i < |s| ==> !p(s[i])
    ensures Filter(s, p) == []
  {
    if s != [] {
      FilterNone(s[1..], p);
    }
  }

  // ---------------------------------------------------------------------------
  // Strings

  predicate StartsWith(s: string, prefix: string) {
    |prefix| <= |s| && s[..|prefix|] == prefix
  }

  /** String.prototype.includes. */
  predicate Includes(hay: string, needle: string)
    decreases |hay|
  {
    StartsWith(hay, needle) || (|hay| > 0 && Includes(hay[1..], needle))
  }

  /** `needle` occurs in `hay` starting at index `i`. */
  predicate OccursAt(needle: string, hay: string, i: int) {
    0 <= i && i + |needle| <= |hay| && hay[i..i + |needle|] == needle
  }

  /** `needle` occurs in `hay` at some position. */
  ghost predicate OccursIn(needle: string, hay: string) {
    exists i :: OccursAt(needle, hay, i)
  }

  lemma {:induction false} IncludesIffOccurs(hay: string, needle: string)
    ensures Includes(hay, needle) <==> OccursIn(needle, hay)
    decreases |hay|
  {
    if |hay| > 0 {
      IncludesIffOccurs(hay[1..], needle);
      if OccursIn(needle, hay[1..]) {
        var i :| OccursAt(needle, hay[1..], i);
        var left, right := hay[i + 1..i + 1 + |needle|], hay[1..][i..i + |needle|];
        forall j | 0 <= j < |needle|
          ensures left[j] == right[j]
        {
        }
        assert left == right;
        assert OccursAt(needle, hay, i + 1);
      }
      if StartsWith(hay, needle) {
        assert OccursAt(needle, hay, 0);
      }
      if OccursIn(needle, hay) && !StartsWith(hay, needle) {
        var i :| OccursAt(needle, hay, i);
        assert i != 0;
        var left, right := hay[1..][i - 1..i - 1 + |needle|], hay[i..i + |needle|];
        forall j | 0 <= j < |needle|
          ensures left[j] == right[j]
        {
        }
        assert left == right;
        assert OccursAt(needle, hay[1..], i - 1);
      }
    } else {
      if OccursIn(needle, hay) {
        var i :| OccursAt(needle, hay, i);
        assert needle == [];
        assert StartsWith(hay, needle);
      }
      if StartsWith(hay, needle) {
        assert OccursAt(needle, hay, 0);
      }
    }
  }

  lemma IncludesEmpty(hay: string)
    ensures Includes(hay, "")
  {
    assert StartsWith(hay, "");
  }

  /** `s.split(c)[0]`: the text before the first `c`, or all of `s`. */
  function BeforeFirst(s: string, c: char): (r: string)
    ensures StartsWith(s, r)
    ensures c !in r
    ensures |r| < |s| ==> s[|r|] == c
  {
    if s == [] || s[0] == c then ""
    else [s[0]] + BeforeFirst(s[1..], c)
  }

  /** `s.length`: the number of UTF-16 code units, two for a character outside
      the Basic Multilingual Plane. */
  function Utf16Length(s: string): (r: nat)
    ensures |s| <= r <= 2 * |s|
  {
    if s == [] then 0 else (if s[0] as int > 0xFFFF then 2 else 1) + Utf16Length(s[1..])
  }

  /** String.prototype.split with a one-character separator. */
  function Split(s: string, c: char): (r: seq<string>)
    ensures |r| >= 1
    ensures forall i :: 0 <= i < |r| ==> c !in r[i]
  {
    if s == [] then [""]
    else
      var rest := Split(s[1..], c);
      if s[0] == c then [""] + rest
      else [[s[0]] + rest[0]] + rest[1..]
  }

  /** Array.prototype.join with a one-character separator. */
  function Join(parts: seq<string>, c: char): string
    decreases |parts|
  {
    if parts == [] then ""
    else if |parts| == 1 then parts[0]
    else parts[0] + [c] + Join(parts[1..], c)
  }

  /** Splitting loses nothing: joining the pieces back gives the string. */
  lemma {:induction false} JoinSplit(s: string, c: char)
    ensures Join(Split(s, c), c) == s
  {
    if s != [] {
      JoinSplit(s[1..], c);
      var rest := Split(s[1..], c);
      if s[0] == c {
        assert Split(s, c) == [""] + rest;
        assert ([""] + rest)[1..] == rest;
        assert s == [c] + s[1..];
      } else {
        var r := Split(s, c);
        assert r == [[s[0]] + rest[0]] + rest[1..];
        if |rest| == 1 {
          assert Join(rest, c) == rest[0];
        } else {
          assert r[1..] == rest[1..];
          assert Join(rest, c) == rest[0] + [c] + Join(rest[1..], c);
        }
      }
    }
  }

  /** `s.split(c)[0]` is the text before the first `c`. */
  lemma {:induction false} SplitFirst(s: string, c: char)
    ensures Split(s, c)[0] == BeforeFirst(s, c)
  {
    if s != [] && s[0] != c {
      SplitFirst(s[1..], c);
    }
  }

  /** A string with no separator in it is one piece. */
  lemma {:induction false} SplitWithoutSeparator(s: string, c: char)
    requires c !in s
    ensures Split(s, c) == [s]
  {
    if s != [] {
      SplitWithoutSeparator(s[1..], c);
      assert [s[0]] + s[1..] == s;
    }
  }

  /** The text before the first separator becomes the first piece. */
  lemma {:induction false} SplitPrefixed(p: string, t: string, c: char)
    requires c !in p
    ensures Split(p + [c] + t, c) == [p] + Split(t, c)
  {
    if p == [] {
      assert p + [c] + t == [c] + t;
      assert ([c] + t)[1..] == t;
    } else {
      assert (p + [c] + t)[1..] == p[1..] + [c] + t;
      SplitPrefixed(p[1..], t, c);
      assert [p[0]] + p[1..] == p;
    }
  }

  /** The white-space characters String.prototype.trim removes. */
  predicate IsSpace(ch: char) {
    ch in {' ', '\t', '\n', '\r', '\U{000B}', '\U{000C}', '\U{00A0}', '\U{1680}',
           '\U{2000}', '\U{2001}', '\U{2002}', '\U{2003}', '\U{2004}', '\U{2005}',
           '\U{2006}', '\U{2007}', '\U{2008}', '\U{2009}', '\U{200A}', '\U{2028}',
           '\U{2029}', '\U{202F}', '\U{205F}', '\U{3000}', '\U{FEFF}'}
  }

  function TrimStart(s: string): string
  {
    if s != [] && IsSpace(s[0]) then TrimStart(s[1..]) else s
  }

  function TrimEnd(s: string): string
  {
    if s != [] && IsSpace(s[|s| - 1]) then TrimEnd(s[..|s| - 1]) else s
  }

  /** String.prototype.trim. */
  function Trim(s: string): string {
    TrimEnd(TrimStart(s))
  }

  predicate Blank(s: string) {
    forall i :: 0 <= i < |s| ==> IsSpace(s[i])
  }

  /** `!s.trim()` holds exactly for strings made only of white space. */
  lemma {:induction false} TrimEmptyIffBlank(s: string)
    ensures Trim(s) == "" <==> Blank(s)
  {
    TrimStartBlank(s);
    TrimEndEmptyIff(TrimStart(s));
  }

  lemma {:induction false} TrimStartBlank(s: string)
    ensures Blank(s) <==> TrimStart(s) == ""
    ensures TrimStart(s) != "" ==> !IsSpace(TrimStart(s)[0])
  {
    if s != [] && IsSpace(s[0]) {
      TrimStartBlank(s[1..]);
      if Blank(s[1..]) {
        assert Blank(s);
      }
      if Blank(s) {
        assert Blank(s[1..]);
      }
    }
  }

  lemma {:induction false} TrimEndEmptyIff(s: string)
    requires s != [] ==> !IsSpace(s[0])
    ensures TrimEnd(s) == "" <==> s == ""
  {
    if s != [] && IsSpace(s[|s| - 1]) {
      assert |s| > 1;
      TrimEndEmptyIff(s[..|s| - 1]);
    }
  }
}
