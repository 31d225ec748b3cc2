/** Shared vocabulary of the Drift Desk model: optional values, the HTTP error an endpoint
    raises, JavaScript values as the browser sees them, the string helpers both tiers rely on
    (whitespace trimming, ASCII case mapping, Python's `str.title`, decimal rendering) and the
    generic table queries (filter, first match, reverse, offset/limit page). */
module Common {

  datatype Option<+T> = None | Some(value: T)

  /** An `HTTPException`: status code and `detail` text. */
  datatype HttpError = HttpError(status: int, detail: string)

  /** What an endpoint returns: a response body or the exception it raised. */
  datatype Result<+T> = Ok(value: T) | Err(error: HttpError)

  function Min(a: int, b: int): int { if a <= b then a else b }

  /** An optional argument: the value given, or `d` when it was left out. */
  function OrDefault<T>(o: Option<T>, d: T): T {
    if o.Some? then o.value else d
  }

  /** The error FastAPI answers with when a query parameter fails its declared bounds, before
      the endpoint runs. */
  const Unprocessable := HttpError(422, "Unprocessable Entity")

  // ---------------------------------------------------------------------------
  // JavaScript values

  /** A JSON-like JavaScript value; `Arr` and `Obj` are the composite values. */
  datatype JsValue =
    | Undefined
    | Null
    | Bool(b: bool)
    | Num(n: int)
    | Str(s: string)
    | Arr(items: seq<JsValue>)
    | Obj(fields: map<string, JsValue>)

  /** JavaScript truthiness (NaN is not modelled). */
  predicate Truthy(v: JsValue) {
    match v
    case Undefined => false
    case Null => false
    case Bool(b) => b
    case Num(n) => n != 0
    case Str(s) => s != ""
    case Arr(_) => true
    case Obj(_) => true
  }

  /** `a || b` */
  function Or(a: JsValue, b: JsValue): JsValue {
    if Truthy(a) then a else b
  }

  /** Optional chaining `v?.key`: a missing property, or a receiver that is not an object,
      gives `undefined`. */
  function Prop(v: JsValue, key: string): JsValue {
    match v
    case Obj(fs) => if key in fs then fs[key] else Undefined
    case _ => Undefined
  }

  // ---------------------------------------------------------------------------
  // Characters and strings

  /** White space as JavaScript sees it (`String.prototype.trim` and the regular-expression
      class `\s`): the ECMAScript WhiteSpace and LineTerminator characters. */
  predicate IsSpace(c: char) {
    || c == '\t' || c == '\n' || c == '\U{B}' || c == '\U{C}' || c == '\r' || c == ' '
    || c == '\U{A0}' || c == '\U{1680}' || '\U{2000}' <= c <= '\U{200A}'
    || c == '\U{2028}' || c == '\U{2029}' || c == '\U{202F}' || c == '\U{205F}' || c == '\U{3000}'
    || c == '\U{FEFF}'
  }

  /** White space as Python sees it (`str.isspace`, which `str.strip` removes): unlike
      JavaScript it includes the separators U+001C to U+001F and U+0085, and it excludes
      U+FEFF. */
  predicate IsPySpace(c: char) {
    || c == '\t' || c == '\n' || c == '\U{B}' || c == '\U{C}' || c == '\r' || c == ' '
    || '\U{1C}' <= c <= '\U{1F}' || c == '\U{85}'
    || c == '\U{A0}' || c == '\U{1680}' || '\U{2000}' <= c <= '\U{200A}'
    || c == '\U{2028}' || c == '\U{2029}' || c == '\U{202F}' || c == '\U{205F}' || c == '\U{3000}'
  }

  /** Whose white space: JavaScript's or Python's. */
  datatype WhiteSpace = JsSpace | PySpace

  predicate IsWhite(w: WhiteSpace, c: char) {
    if w == JsSpace then IsSpace(c) else IsPySpace(c)
  }

  /** Every character of `s` is white space in the sense of `w`. */
  predicate AllSpace(s: string, w: WhiteSpace) {
    forall i :: 0 <= i < |s| ==> IsWhite(w, s[i])
  }

  predicate IsBlank(s: string) {
    AllSpace(s, JsSpace)
  }

  predicate IsPyBlank(s: string) {
    AllSpace(s, PySpace)
  }

  function TrimStart(s: string, w: WhiteSpace): (r: string)
    ensures |r| <= |s| && r == s[|s| - |r|..]
    ensures forall i :: 0 <= i < |s| - |r| ==> IsWhite(w, s[i])
    ensures r != [] ==> !IsWhite(w, r[0])
    ensures r == [] <==> AllSpace(s, w)
  {
    if s != [] && IsWhite(w, s[0]) then
      var r := TrimStart(s[1..], w);
      assert forall i :: 1 <= i < |s| ==> s[i] == s[1..][i - 1];
      r
    else s
  }

  function TrimEnd(s: string, w: WhiteSpace): (r: string)
    ensures |r| <= |s| && r == s[..|r|]
    ensures forall i :: |r| <= i < |s| ==> IsWhite(w, s[i])
    ensures r != [] ==> !IsWhite(w, r[|r| - 1])
    ensures r == [] <==> AllSpace(s, w)
  {
    if s != [] && IsWhite(w, s[|s| - 1]) then TrimEnd(s[..|s| - 1], w) else s
  }

  /** `r` is `s` from index `i` on, with only white space (in the sense of `w`) before and
      after it. */
  predicate TrimmedAt(s: string, r: string, i: int, w: WhiteSpace) {
    && 0 <= i && i + |r| <= |s| && r == s[i..i + |r|]
    && (forall k :: 0 <= k < i ==> IsWhite(w, s[k]))
    && (forall k :: i + |r| <= k < |s| ==> IsWhite(w, s[k]))
  }

  /** Removing leading and trailing white space in the sense of `w`: the result is an infix
      of `s` with only white space before and after it, and it is empty exactly when
      `s` is all white space. */
  function TrimWith(s: string, w: WhiteSpace): (r: string)
    ensures exists i :: TrimmedAt(s, r, i, w)
    ensures r != [] ==> !IsWhite(w, r[0]) && !IsWhite(w, r[|r| - 1])
    ensures r == [] <==> AllSpace(s, w)
  {
    var t := TrimStart(s, w);
    var r := TrimEnd(t, w);
    TrimmedInfix(s, t, r, w);
    r
  }

  /** A suffix of `s` after white space, cut short before white space, is an infix of `s` with
      white space around it. */
  lemma TrimmedInfix(s: string, t: string, r: string, w: WhiteSpace)
    requires |t| <= |s| && t == s[|s| - |t|..]
    requires forall k :: 0 <= k < |s| - |t| ==> IsWhite(w, s[k])
    requires |r| <= |t| && r == t[..|r|]
    requires forall k :: |r| <= k < |t| ==> IsWhite(w, t[k])
    requires t != [] ==> !IsWhite(w, t[0])
    requires r != [] ==> !IsWhite(w, r[|r| - 1])
    requires t == [] <==> AllSpace(s, w)
    requires r == [] <==> AllSpace(t, w)
    ensures TrimmedAt(s, r, |s| - |t|, w)
    ensures r != [] ==> !IsWhite(w, r[0]) && !IsWhite(w, r[|r| - 1])
    ensures r == [] <==> AllSpace(s, w)
  {
    var i := |s| - |t|;
    assert r == s[i..i + |r|];
    assert r != [] ==> r[0] == t[0];
    forall k | i + |r| <= k < |s|
      ensures IsWhite(w, s[k])
    {
      assert s[k] == t[k - i];
    }
  }

  /** `s.trim()` in JavaScript: the infix of `s` left after removing leading and trailing
      white space; it is empty exactly when `s` is blank. */
  function Trim(s: string): (r: string)
    ensures exists i :: TrimmedAt(s, r, i, JsSpace)
    ensures r != [] ==> !IsSpace(r[0]) && !IsSpace(r[|r| - 1])
    ensures r == [] <==> IsBlank(s)
  {
    TrimWith(s, JsSpace)
  }

  /** `s.strip()` in Python: the same, with Python's white space. */
  function Strip(s: string): (r: string)
    ensures exists i :: TrimmedAt(s, r, i, PySpace)
    ensures r != [] ==> !IsPySpace(r[0]) && !IsPySpace(r[|r| - 1])
    ensures r == [] <==> IsPyBlank(s)
  {
    TrimWith(s, PySpace)
  }

  predicate IsLower(c: char) { 'a' <= c <= 'z' }
  predicate IsUpper(c: char) { 'A' <= c <= 'Z' }
  predicate IsLetter(c: char) { IsLower(c) || IsUpper(c) }

  function ToLower(c: char): (r: char)
    ensures IsLetter(c) ==> IsLower(r)
    ensures !IsUpper(c) ==> r == c
  {
    if IsUpper(c) then (c as int + 32) as char else c
  }

  function ToUpper(c: char): (r: char)
    ensures IsLetter(c) ==> IsUpper(r)
    ensures !IsLower(c) ==> r == c
  {
    if IsLower(c) then (c as int - 32) as char else c
  }

  function LowerString(s: string): (r: string)
    ensures |r| == |s| && forall i :: 0 <= i < |s| ==> r[i] == ToLower(s[i])
  {
    seq(|s|, i requires 0 <= i < |s| => ToLower(s[i]))
  }

  /** Every occurrence of `a` replaced by `b` (Python's `str.replace`). */
  function ReplaceAll(s: string, a: char, b: char): (r: string)
    ensures |r| == |s|
    ensures forall i :: 0 <= i < |s| ==> r[i] == (if s[i] == a then b else s[i])
  {
    seq(|s|, i requires 0 <= i < |s| => if s[i] == a then b else s[i])
  }

  /** The character Python's `str.title` puts at a position, given whether the character
      before it is a letter. */
  function TitleChar(c: char, afterLetter: bool): char {
    if !IsLetter(c) then c else if afterLetter then ToLower(c) else ToUpper(c)
  }

  function TitleFrom(s: string, afterLetter: bool): (r: string)
    ensures |r| == |s|
  {
    if s == [] then [] else [TitleChar(s[0], afterLetter)] + TitleFrom(s[1..], IsLetter(s[0]))
  }

  /** Each character of `TitleFrom` depends only on that character and the one before it. */
  lemma {:induction false} TitleFromChars(s: string, afterLetter: bool)
    ensures |s| > 0 ==> TitleFrom(s, afterLetter)[0] == TitleChar(s[0], afterLetter)
    ensures forall i :: 0 < i < |s| ==> TitleFrom(s, afterLetter)[i] == TitleChar(s[i], IsLetter(s[i - 1]))
  {
    if s != [] {
      TitleFromChars(s[1..], IsLetter(s[0]));
    }
  }

  /** After a letter, a run of lower-case letters is kept as it is. */
  lemma {:induction false} TitleLowerRun(w: string, rest: string)
    requires forall i :: 0 <= i < |w| ==> IsLower(w[i])
    ensures TitleFrom(w + rest, true) == w + TitleFrom(rest, true)
  {
    if w != [] {
      var s := w + rest;
      assert s[0] == w[0] && s[1..] == w[1..] + rest;
      assert TitleFrom(s, true) == [w[0]] + TitleFrom(w[1..] + rest, true);
      TitleLowerRun(w[1..], rest);
      calc {
        TitleFrom(s, true);
        [w[0]] + TitleFrom(w[1..] + rest, true);
        [w[0]] + (w[1..] + TitleFrom(rest, true));
        ([w[0]] + w[1..]) + TitleFrom(rest, true);
        { assert [w[0]] + w[1..] == w; }
        w + TitleFrom(rest, true);
      }
    } else {
      assert w + rest == rest;
    }
  }

  /** A lower-case word at the start of a word is capitalised: its first letter upper-cased,
      the rest kept. */
  lemma TitleWord(w: string, rest: string)
    requires |w| > 0 && forall i :: 0 <= i < |w| ==> IsLower(w[i])
    ensures TitleFrom(w + rest, false) == [ToUpper(w[0])] + w[1..] + TitleFrom(rest, true)
  {
    var s := w + rest;
    assert s[0] == w[0] && s[1..] == w[1..] + rest;
    TitleLowerRun(w[1..], rest);
  }

  /** Python's `str.title` over ASCII letters: a letter that starts a run of letters is upper-cased,
      every other letter lower-cased, anything else kept. */
  function TitleCase(s: string): (r: string)
    ensures |r| == |s|
    ensures forall i :: 0 <= i < |s| ==>
      r[i] == TitleChar(s[i], i > 0 && IsLetter(s[i - 1]))
  {
    TitleFromChars(s, false);
    TitleFrom(s, false)
  }

  /** Two lower-case words joined by a space are title-cased word by word. */
  lemma TitleTwoWords(a: string, b: string)
    requires |a| > 0 && forall i :: 0 <= i < |a| ==> IsLower(a[i])
    requires |b| > 0 && forall i :: 0 <= i < |b| ==> IsLower(b[i])
    ensures TitleCase(a + " " + b) == [ToUpper(a[0])] + a[1..] + " " + [ToUpper(b[0])] + b[1..]
  {
    assert a + " " + b == a + (" " + b);
    TitleWord(a, " " + b);
    var t := " " + b;
    assert t[0] == ' ' && t[1..] == b;
    TitleWord(b, []);
    assert b + [] == b;
  }

  /** The decimal digit for `d`. */
  function DigitChar(d: nat): (c: char)
    requires d < 10
    ensures '0' <= c <= '9' && c as int - '0' as int == d
  {
    "0123456789"[d]
  }

  /** The number a string of decimal digits denotes, its last digit the units. */
  function DigitsValue(s: string): nat
    requires forall i :: 0 <= i < |s| ==> '0' <= s[i] <= '9'
  {
    if s == [] then 0 else DigitsValue(s[..|s| - 1]) * 10 + (s[|s| - 1] as int - '0' as int)
  }

  /** Decimal rendering of a natural number: digits only, no leading zero, denoting `n`. */
  function NatToString(n: nat): (r: string)
    ensures |r| >= 1
    ensures forall i :: 0 <= i < |r| ==> '0' <= r[i] <= '9'
    ensures |r| > 1 ==> r[0] != '0'
    ensures DigitsValue(r) == n
  {
    if n < 10 then [DigitChar(n)]
    else
      var r := NatToString(n / 10) + [DigitChar(n % 10)];
      assert r[..|r| - 1] == NatToString(n / 10);
      r
  }

  /** Decimal rendering of an integer, as `str(i)` and JavaScript template strings give it. */
  function IntToString(i: int): string {
    if i < 0 then "-" + NatToString(-i) else NatToString(i)
  }

  // ---------------------------------------------------------------------------
  // Table queries

  /** The elements of `s` that satisfy `p`, in their order in `s`. */
  function Filter<T(!new)>(s: seq<T>, p: T -> bool): (r: seq<T>)
    ensures |r| <= |s|
    ensures forall x :: x in r <==> x in s && p(x)
  {
    if s == [] then [] else (if p(s[0]) then [s[0]] else []) + Filter(s[1..], p)
  }

  /** `p` and `q` split every element of `s` between them: the two filters together have as many
      elements as `s`. */
  lemma {:induction false} FilterPartition<T(!new)>(s: seq<T>, p: T -> bool, q: T -> bool)
    requires forall x :: x in s ==> (p(x) <==> !q(x))
    ensures |Filter(s, p)| + |Filter(s, q)| == |s|
  {
    if s != [] {
      FilterPartition(s[1..], p, q);
    }
  }

  /** The filter of a concatenation is the concatenation of the filters. */
  lemma {:induction false} FilterAppend<T(!new)>(a: seq<T>, b: seq<T>, p: T -> bool)
    ensures Filter(a + b, p) == Filter(a, p) + Filter(b, p)
  {
    if a != [] {
      assert (a + b)[0] == a[0];
      assert (a + b)[1..] == a[1..] + b;
      FilterAppend(a[1..], b, p);
    } else {
      assert a + b == b;
    }
  }

  /** Filters by two predicates that agree on `s` are equal. */
  lemma {:induction false} FilterCongruent<T(!new)>(s: seq<T>, p: T -> bool, q: T -> bool)
    requires forall x :: x in s ==> (p(x) <==> q(x))
    ensures Filter(s, p) == Filter(s, q)
  {
    if s != [] {
      FilterCongruent(s[1..], p, q);
    }
  }

  /** A stronger predicate keeps no more elements. */
  lemma {:induction false} FilterMonotone<T(!new)>(s: seq<T>, p: T -> bool, q: T -> bool)
    requires forall x :: x in s && p(x) ==> q(x)
    ensures |Filter(s, p)| <= |Filter(s, q)|
  {
    if s != [] {
      FilterMonotone(s[1..], p, q);
    }
  }

  /** The index of the first element of `s` satisfying `p` (SQL `.first()` over a table kept in
      insertion order). */
  function FindFirst<T>(s: seq<T>, p: T -> bool): (r: Option<nat>)
    ensures r.Some? ==> r.value < |s| && p(s[r.value])
    ensures r.Some? ==> forall j :: 0 <= j < r.value ==> !p(s[j])
    ensures r.None? <==> forall j :: 0 <= j < |s| ==> !p(s[j])
  {
    if s == [] then None
    else if p(s[0]) then Some(0)
    else match FindFirst(s[1..], p)
      case None => None
      case Some(k) => Some(k + 1)
  }

  function Reverse<T>(s: seq<T>): (r: seq<T>)
    ensures |r| == |s|
    ensures forall i :: 0 <= i < |s| ==> r[i] == s[|s| - 1 - i]
  {
    if s == [] then [] else Reverse(s[1..]) + [s[0]]
  }

  /** SQL `OFFSET offset LIMIT limit`: the run of at most `limit` elements starting at `offset`. */
  function Page<T>(s: seq<T>, offset: nat, limit: nat): (r: seq<T>)
    ensures |r| == (if offset >= |s| then 0 else Min(limit, |s| - offset))
    ensures forall k :: 0 <= k < |r| ==> r[k] == s[offset + k]
    ensures forall x :: x in r ==> x in s
  {
    if offset >= |s| then [] else s[offset..offset + Min(limit, |s| - offset)]
  }

  /** `ORDER BY created_at DESC OFFSET offset LIMIT limit` over a table kept in insertion order:
      the page counts back from the newest element. */
  function NewestFirst<T>(s: seq<T>, offset: nat, limit: nat): (r: seq<T>)
    ensures |r| == (if offset >= |s| then 0 else Min(limit, |s| - offset))
    ensures forall k :: 0 <= k < |r| ==> r[k] == s[|s| - 1 - (offset + k)]
    ensures forall x :: x in r ==> x in s
  {
    var r := Page(Reverse(s), offset, limit);
    assert forall k :: 0 <= k < |r| ==> r[k] == s[|s| - 1 - (offset + k)];
    r
  }

  /** `s` without its element at `i`; the elements before it stay put and those after it move
      down by one. */
  function RemoveAt<T>(s: seq<T>, i: nat): (r: seq<T>)
    requires i < |s|
    ensures |r| == |s| - 1
    ensures forall k :: 0 <= k < i ==> r[k] == s[k]
    ensures forall k :: i <= k < |r| ==> r[k] == s[k + 1]
  {
    s[..i] + s[i + 1..]
  }
}
