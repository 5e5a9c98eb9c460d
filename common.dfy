/** Shared vocabulary of the server: optional values, error results carrying an
    HTTP status, the outcome of JavaScript's `Number(...)` and of ObjectId
    parsing, the JavaScript string operations `trim()` and `toLowerCase()`,
    and offset/limit paging. */
module Common {

  datatype Option<T> = None | Some(value: T)

  /** An HTTP error response: status code and the `error` message string. */
  datatype ApiError = ApiError(status: int, message: string)

  datatype Result<T> = Ok(value: T) | Err(error: ApiError)

  /** What `Number(v)` yields for a request field: a finite number, or one of
      NaN, Infinity, -Infinity (all rejected by `Number.isFinite`). */
  datatype Num = Finite(v: real) | NonFinite

  /** What `oid(v)` makes of a request value: nothing was sent, a string that
      ObjectId rejects, or a valid id. */
  datatype IdArg = Absent | Malformed | Oid(id: nat)

  /** A date field of a request: not sent or blank (`null`, `undefined`,
      `''`), a string `new Date` cannot parse, or a parsed instant in
      milliseconds since the Unix epoch. */
  datatype DateIn = Blank | BadDate(text: string) | At(ms: int)

  /** The three places a caller's user id is read from, in the order the
      routes try them: request body, query string, `X-User-Id` header. */
  datatype Caller = Caller(body: IdArg, query: IdArg, header: IdArg)

  /** `a || b || c` over three optional id sources: the first one sent. */
  function FirstGiven(a: IdArg, b: IdArg, c: IdArg): (r: IdArg)
    ensures r.Absent? <==> a.Absent? && b.Absent? && c.Absent?
    ensures !a.Absent? ==> r == a
    ensures a.Absent? && !b.Absent? ==> r == b
  {
    if !a.Absent? then a else if !b.Absent? then b else c
  }

  /** The JavaScript truthiness of an optional string field. */
  predicate Truthy(s: Option<string>) {
    s.Some? && s.value != ""
  }

  /** `String(v || d)` for an optional string field. */
  function OrDefault(s: Option<string>, d: string): (r: string)
    ensures Truthy(s) ==> r == s.value
    ensures !Truthy(s) ==> r == d
  {
    if Truthy(s) then s.value else d
  }

  // ---------------------------------------------------------------------------
  // JavaScript string operations

  /** The characters JavaScript's `trim()` and the regex class `\s` treat as
      white space: WhiteSpace and LineTerminator of ECMAScript. */
  predicate IsSpace(c: char) {
    var n := c as int;
    n == 0x09 || n == 0x0A || n == 0x0B || n == 0x0C || n == 0x0D || n == 0x20 ||
    n == 0xA0 || n == 0x1680 || (0x2000 <= n <= 0x200A) || n == 0x2028 || n == 0x2029 ||
    n == 0x202F || n == 0x205F || n == 0x3000 || n == 0xFEFF
  }

  function TrimStart(s: string): (r: string)
    ensures |r| <= |s|
  {
    if |s| > 0 && IsSpace(s[0]) then TrimStart(s[1..]) else s
  }

  function TrimEnd(s: string): (r: string)
    ensures |r| <= |s|
  {
    if |s| > 0 && IsSpace(s[|s| - 1]) then TrimEnd(s[..|s| - 1]) else s
  }

  /** `TrimStart` cuts exactly the leading white space. */
  lemma {:induction false} TrimStartCut(s: string)
    ensures TrimStart(s) == s[|s| - |TrimStart(s)|..]
    ensures TrimStart(s) == [] || !IsSpace(TrimStart(s)[0])
    ensures forall i :: 0 <= i < |s| - |TrimStart(s)| ==> IsSpace(s[i])
  {
    if |s| > 0 && IsSpace(s[0]) {
      TrimStartCut(s[1..]);
      assert forall i :: 1 <= i < |s| ==> s[i] == s[1..][i - 1];
    }
  }

  /** `TrimEnd` cuts exactly the trailing white space. */
  lemma {:induction false} TrimEndCut(s: string)
    ensures TrimEnd(s) == s[..|TrimEnd(s)|]
    ensures TrimEnd(s) == [] || !IsSpace(TrimEnd(s)[|TrimEnd(s)| - 1])
    ensures forall i :: |TrimEnd(s)| <= i < |s| ==> IsSpace(s[i])
  {
    if |s| > 0 && IsSpace(s[|s| - 1]) {
      TrimEndCut(s[..|s| - 1]);
      assert forall i :: 0 <= i < |s| - 1 ==> s[i] == s[..|s| - 1][i];
    }
  }

  /** `s.trim()`. */
  function Trim(s: string): (r: string)
  {
    TrimEnd(TrimStart(s))
  }

  predicate NoEdgeSpace(s: string) {
    s == [] || (!IsSpace(s[0]) && !IsSpace(s[|s| - 1]))
  }

  /** `trim()` removes exactly the white space at both ends: the result is a
      contiguous part of the input, everything cut away is white space, and
      the result neither starts nor ends with white space. */
  lemma TrimIsCut(s: string)
    ensures NoEdgeSpace(Trim(s))
    ensures exists a, b ::
      && 0 <= a <= b <= |s| && Trim(s) == s[a..b]
      && (forall i :: 0 <= i < a ==> IsSpace(s[i]))
      && (forall i :: b <= i < |s| ==> IsSpace(s[i]))
  {
    TrimNoEdge(s);
    var a := |s| - |TrimStart(s)|;
    TrimSlice(s, a, a + |Trim(s)|);
  }

  lemma TrimNoEdge(s: string)
    ensures NoEdgeSpace(Trim(s))
  {
    var t := TrimStart(s);
    TrimStartCut(s);
    TrimEndCut(t);
    if Trim(s) != [] {
      assert Trim(s)[0] == t[0];
    }
  }

  lemma TrimSlice(s: string, a: int, b: int)
    requires a == |s| - |TrimStart(s)| && b == a + |Trim(s)|
    ensures 0 <= a <= b <= |s| && Trim(s) == s[a..b]
    ensures forall i :: 0 <= i < a ==> IsSpace(s[i])
    ensures forall i :: b <= i < |s| ==> IsSpace(s[i])
  {
    var t := TrimStart(s);
    var r := TrimEnd(t);
    TrimStartCut(s);
    TrimEndCut(t);
    assert t == s[a..];
    assert r == t[..|r|];
    assert t[..|r|] == s[a..b];
    assert forall i :: b <= i < |s| ==> s[i] == t[i - a] && |r| <= i - a < |t|;
  }

  /** A string with no white space at its ends is its own `trim()`. */
  lemma TrimmedIsFixpoint(s: string)
    requires NoEdgeSpace(s)
    ensures Trim(s) == s
  {
  }

  /** `trim()` is idempotent. */
  lemma TrimIdempotent(s: string)
    ensures Trim(Trim(s)) == Trim(s)
  {
    TrimIsCut(s);
    TrimmedIsFixpoint(Trim(s));
  }

  /** `trim()` yields "" exactly when the string is all white space. */
  lemma TrimEmptyIffAllSpace(s: string)
    ensures Trim(s) == "" <==> forall i :: 0 <= i < |s| ==> IsSpace(s[i])
  {
    var t := TrimStart(s);
    TrimStartCut(s);
    TrimEndCut(t);
    if Trim(s) == "" {
      assert forall i :: 0 <= i < |s| ==> IsSpace(s[i]);
    } else {
      TrimIsCut(s);
      assert !IsSpace(s[|s| - |t|]);
    }
  }

  /** `toLowerCase()` of one character, for the Latin letters A-Z. */
  function LowerChar(c: char): (r: char)
    ensures IsSpace(r) <==> IsSpace(c)
    ensures !('A' <= r <= 'Z')
  {
    if 'A' <= c <= 'Z' then (c as int + 32) as char else c
  }

  /** `s.toLowerCase()`. */
  function Lower(s: string): (r: string)
    ensures |r| == |s|
  {
    seq(|s|, i requires 0 <= i < |s| => LowerChar(s[i]))
  }

  lemma LowerIdempotent(s: string)
    ensures Lower(Lower(s)) == Lower(s)
  {
  }

  /** Lower-casing and trimming commute, so `toLowerCase().trim()` and
      `trim().toLowerCase()` normalise a string alike. */
  lemma LowerTrimCommute(s: string)
    ensures Lower(Trim(s)) == Trim(Lower(s))
  {
    LowerTrimStart(s);
    LowerTrimEndOf(TrimStart(s));
  }

  lemma {:induction false} LowerTrimStart(s: string)
    ensures Lower(TrimStart(s)) == TrimStart(Lower(s))
  {
    if |s| > 0 && IsSpace(s[0]) {
      LowerTrimStart(s[1..]);
      assert Lower(s)[1..] == Lower(s[1..]);
    }
  }

  lemma {:induction false} LowerTrimEndOf(s: string)
    ensures Lower(TrimEnd(s)) == TrimEnd(Lower(s))
  {
    if |s| > 0 && IsSpace(s[|s| - 1]) {
      LowerTrimEndOf(s[..|s| - 1]);
      assert Lower(s)[..|s| - 1] == Lower(s[..|s| - 1]);
    }
  }

  /** `q` occurs in `s` starting at position `i`. */
  predicate OccursAt(q: string, s: string, i: int)
    requires 0 <= i <= |s| - |q|
  {
    s[i..i + |q|] == q
  }

  /** `s.includes(q)`. */
  predicate Contains(s: string, q: string) {
    exists i :: 0 <= i <= |s| - |q| && OccursAt(q, s, i)
  }

  /** A name as stored by the server: trimmed and non-empty. */
  predicate CleanName(s: string) {
    s != "" && Trim(s) == s
  }

  // ---------------------------------------------------------------------------
  // Offset/limit paging

  /** `Math.max(1, Math.min(parseInt(raw || dflt), max))`, with `raw` the
      parsed integer when the parameter was sent. */
  function ClampLimit(raw: Option<int>, dflt: int, max: int): (r: int)
    requires 1 <= dflt <= max
    ensures 1 <= r <= max
    ensures raw.None? ==> r == dflt
    ensures raw.Some? && 1 <= raw.value <= max ==> r == raw.value
  {
    var n := if raw.Some? then raw.value else dflt;
    if n > max then max else if n < 1 then 1 else n
  }

  /** `Math.max(parseInt(raw || 0), 0)`. */
  function ClampOffset(raw: Option<int>): (r: nat)
    ensures raw.Some? && raw.value >= 0 ==> r == raw.value
    ensures raw.None? || raw.value <= 0 ==> r == 0
  {
    if raw.Some? && raw.value > 0 then raw.value else 0
  }

  /** The page a cursor with `skip(offset).limit(limit)` yields. */
  function Page<T>(s: seq<T>, offset: nat, limit: nat): (r: seq<T>)
    ensures |r| <= limit
    ensures offset + limit <= |s| ==> |r| == limit
    ensures forall k :: 0 <= k < |r| ==> offset + k < |s| && r[k] == s[offset + k]
    ensures |r| < limit ==> offset + |r| >= |s|
  {
    if offset >= |s| then [] else if offset + limit >= |s| then s[offset..] else s[offset..offset + limit]
  }

  /** `items.length === limit ? offset + limit : null`. */
  function NextOffset(count: nat, offset: nat, limit: nat): (r: Option<nat>)
    ensures r.Some? <==> count == limit
    ensures r.Some? ==> r.value == offset + limit
  {
    if count == limit then Some(offset + limit) else None
  }

  /** A full page is reported with a cursor exactly when the listing
      continues at or beyond `offset + limit` entries. */
  lemma PageCursor<T>(s: seq<T>, offset: nat, limit: nat)
    requires limit >= 1
    ensures NextOffset(|Page(s, offset, limit)|, offset, limit).Some? <==> offset + limit <= |s|
  {
  }
}
