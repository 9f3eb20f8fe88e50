/** Shared vocabulary of the model: optional values, results that stand for
    JavaScript exceptions, and the few JavaScript string and array built-ins
    the services rely on (trim, ASCII case mapping, number-to-text, padStart,
    Array.prototype.join and Array.prototype.slice). */
module Common {

  /** `undefined`/`null` versus a present value. */
  datatype Option<+T> = None | Some(value: T)

  /** A computation that either returns a value or throws an Error whose
      `message` is `error`. */
  datatype Result<+T> = Ok(value: T) | Err(error: string)

  /** A JSON-ish value where only "is it a string?" matters. */
  datatype JsValue = JsString(s: string) | JsNumber(n: int) | JsNull | JsOther

  /** `Boolean(s)` for an optional string: present and non-empty. */
  predicate Truthy(s: Option<string>)
  {
    s.Some? && s.value != ""
  }

  /** A chat message as the language model sees it. */
  datatype Turn = Turn(role: string, content: string)

  /** What an outbound HTTP request yields: the response body, or an error
      that may carry the response's status code. */
  datatype HttpResult<+T> = Response(data: T) | HttpError(status: Option<int>, message: string)

  /** A parameter of a tool's JSON schema. */
  datatype ToolParameter = ToolParameter(name: string, description: string, default: Option<string>)

  /** The `{type: 'function', function: {...}}` object offered to the
      language model. */
  datatype ToolDefinition = ToolDefinition(name: string, description: string,
                                           parameters: seq<ToolParameter>, required: seq<string>)

  /** The `function` part of a tool call the language model asks for: the
      tool's name and its `arguments` JSON text, given here as what
      `JSON.parse` makes of it (an error message when the text does not
      parse). */
  datatype FunctionCall = FunctionCall(name: string, arguments: Result<map<string, string>>)

  /** `Math.round(x)`: the nearest integer, halves rounded up. */
  function Round(x: real): (r: int)
    ensures -0.5 < r as real - x <= 0.5
  {
    (x + 0.5).Floor
  }

  // ---------------------------------------------------------------------
  // Whitespace and trim (String.prototype.trim, and `\s` in regular expressions)

  /** WhiteSpace and LineTerminator code points of ECMAScript. */
  predicate IsJsWhitespace(c: char)
  {
    c == '\t' || c == '\n' || c == '\U{B}' || c == '\U{C}' || c == '\r' || c == ' ' ||
    c == '\U{A0}' || c == '\U{1680}' || ('\U{2000}' <= c <= '\U{200A}') ||
    c == '\U{2028}' || c == '\U{2029}' || c == '\U{202F}' || c == '\U{205F}' ||
    c == '\U{3000}' || c == '\U{FEFF}'
  }

  predicate AllWhitespace(s: string)
  {
    forall i :: 0 <= i < |s| ==> IsJsWhitespace(s[i])
  }

  /** True when `s` neither starts nor ends with whitespace. */
  predicate IsTrimmed(s: string)
  {
    s == [] || (!IsJsWhitespace(s[0]) && !IsJsWhitespace(s[|s| - 1]))
  }

  function TrimStart(s: string): (r: string)
    ensures |r| <= |s| && r == s[|s| - |r|..]
    ensures AllWhitespace(s[..|s| - |r|])
    ensures r == [] || !IsJsWhitespace(r[0])
  {
    if s == [] then s
    else if IsJsWhitespace(s[0]) then
      var r := TrimStart(s[1..]);
      assert s[1..][..|s| - 1 - |r|] == s[1..|s| - |r|];
      r
    else s
  }

  function TrimEnd(s: string): (r: string)
    ensures |r| <= |s| && r == s[..|r|]
    ensures AllWhitespace(s[|r|..])
    ensures r == [] || !IsJsWhitespace(r[|r| - 1])
  {
    if s == [] then s
    else if IsJsWhitespace(s[|s| - 1]) then
      var r := TrimEnd(s[..|s| - 1]);
      assert s[..|s| - 1][|r|..] + [s[|s| - 1]] == s[|r|..];
      r
    else s
  }

  /** String.prototype.trim: the result is the middle of `s` left after
      removing the leading and trailing whitespace. */
  function Trim(s: string): (r: string)
    ensures IsTrimmed(r)
    ensures exists i :: 0 <= i <= |s| - |r| && r == s[i..i + |r|] && AllWhitespace(s[..i]) && AllWhitespace(s[i + |r|..])
  {
    var t := TrimStart(s);
    var r := TrimEnd(t);
    var i := |s| - |t|;
    assert r == s[i..i + |r|];
    assert s[i + |r|..] == t[|r|..];
    r
  }

  /** Trimming a string that already has no outer whitespace changes nothing. */
  lemma TrimOfTrimmed(s: string)
    requires IsTrimmed(s)
    ensures Trim(s) == s
  {
  }

  /** A string of whitespace only trims to the empty string. */
  lemma TrimOfWhitespace(s: string)
    requires AllWhitespace(s)
    ensures Trim(s) == ""
  {
  }

  /** Trimming is idempotent. */
  lemma TrimIdempotent(s: string)
    ensures Trim(Trim(s)) == Trim(s)
  {
    TrimOfTrimmed(Trim(s));
  }

  // ---------------------------------------------------------------------
  // ASCII case mapping

  function UpperChar(c: char): (d: char)
  {
    if 'a' <= c <= 'z' then (c as int - 32) as char else c
  }

  function LowerChar(c: char): (d: char)
  {
    if 'A' <= c <= 'Z' then (c as int + 32) as char else c
  }

  /** String.prototype.toUpperCase restricted to the ASCII letters. */
  function ToUpper(s: string): (r: string)
    ensures |r| == |s|
    ensures forall i :: 0 <= i < |s| ==> r[i] == UpperChar(s[i])
  {
    seq(|s|, i requires 0 <= i < |s| => UpperChar(s[i]))
  }

  /** String.prototype.toLowerCase restricted to the ASCII letters. */
  function ToLower(s: string): (r: string)
    ensures |r| == |s|
    ensures forall i :: 0 <= i < |s| ==> r[i] == LowerChar(s[i])
  {
    seq(|s|, i requires 0 <= i < |s| => LowerChar(s[i]))
  }

  /** Equality of two characters under the case folding of a JavaScript `/i`
      regular expression (for ASCII letters the two cases match; no
      non-ASCII character folds onto an ASCII one). */
  predicate CharEqIgnoreCase(a: char, b: char)
  {
    LowerChar(a) == LowerChar(b)
  }

  /** `s[i..]` starts with `pat`, comparing letters case-insensitively. */
  predicate StartsWithIgnoreCase(s: string, i: nat, pat: string)
  {
    i + |pat| <= |s| && forall k :: 0 <= k < |pat| ==> CharEqIgnoreCase(s[i + k], pat[k])
  }

  /** `\w` of a JavaScript regular expression without the `u` flag. */
  predicate IsWordChar(c: char)
  {
    ('a' <= c <= 'z') || ('A' <= c <= 'Z') || ('0' <= c <= '9') || c == '_'
  }

  // ---------------------------------------------------------------------
  // Numbers as text

  function DigitChar(d: nat): (c: char)
    requires d < 10
    ensures '0' <= c <= '9'
  {
    ('0' as int + d) as char
  }

  /** The value of a string of decimal digits. */
  function DigitsValue(s: string): int
  {
    if s == [] then 0
    else DigitsValue(s[..|s| - 1]) * 10 + (s[|s| - 1] as int - '0' as int)
  }

  predicate AllDigits(s: string)
  {
    forall i :: 0 <= i < |s| ==> '0' <= s[i] <= '9'
  }

  /** String(n) for a non-negative integer: decimal digits, no leading zero. */
  function NatToString(n: nat): (r: string)
    ensures |r| >= 1 && AllDigits(r)
    ensures |r| > 1 ==> r[0] != '0'
  {
    if n < 10 then [DigitChar(n)]
    else NatToString(n / 10) + [DigitChar(n % 10)]
  }

  /** Reading the digits back gives the number. */
  lemma {:induction false} NatToStringRoundTrip(n: nat)
    ensures DigitsValue(NatToString(n)) == n
  {
    if n >= 10 {
      NatToStringRoundTrip(n / 10);
      var r := NatToString(n);
      assert r[..|r| - 1] == NatToString(n / 10);
    }
  }

  /** String(i) for any integer. */
  function IntToString(i: int): (r: string)
    ensures i >= 0 ==> r == NatToString(i)
    ensures i < 0 ==> r == "-" + NatToString(-i)
  {
    if i >= 0 then NatToString(i) else "-" + NatToString(-i)
  }

  /** A template literal's rendering of a possibly undefined string. */
  function Show(s: Option<string>): string
  {
    if s.Some? then s.value else "undefined"
  }

  /** `s.charAt(0).toUpperCase() + s.slice(1)`. */
  function Capitalize(s: string): (r: string)
    ensures |r| == |s|
    ensures s != [] ==> r[0] == UpperChar(s[0]) && r[1..] == s[1..]
  {
    if s == [] then "" else [UpperChar(s[0])] + s[1..]
  }

  /** String.prototype.padStart(2, '0'). */
  function PadStart2(s: string): (r: string)
    ensures |s| >= 2 ==> r == s
    ensures |s| < 2 ==> |r| == 2 && r[2 - |s|..] == s && forall i :: 0 <= i < 2 - |s| ==> r[i] == '0'
  {
    if |s| >= 2 then s else if |s| == 1 then "0" + s else "00"
  }

  // ---------------------------------------------------------------------
  // Arrays

  /** Array.prototype.join(sep). */
  function Join(parts: seq<string>, sep: string): string
  {
    if parts == [] then ""
    else if |parts| == 1 then parts[0]
    else Join(parts[..|parts| - 1], sep) + sep + parts[|parts| - 1]
  }

  /** Joining one more part appends the separator and the part. */
  lemma JoinSnoc(parts: seq<string>, p: string, sep: string)
    ensures Join(parts + [p], sep) == if parts == [] then p else Join(parts, sep) + sep + p
  {
    assert (parts + [p])[..|parts|] == parts;
  }

  /** The index an Array.prototype.slice(start) starts from. */
  function SliceStart(len: nat, start: int): (k: nat)
    ensures k <= len
  {
    if start < 0 then (if len + start < 0 then 0 else len + start)
    else if start < len then start else len
  }

  /** Array.prototype.slice(start) (one argument). */
  function SliceFrom<T>(s: seq<T>, start: int): (r: seq<T>)
  {
    s[SliceStart(|s|, start)..]
  }

  /** The texts `render` gives each element, numbered from 1, one after
      another. */
  function Rendered<T>(items: seq<T>, render: (int, T) -> string): string
  {
    if items == [] then "" else Rendered(items[..|items| - 1], render) + render(|items|, items[|items| - 1])
  }

  /** `items.forEach((item, index) => { text += render(index + 1, item) })`. */
  method AppendEach<T>(prefix: string, items: seq<T>, render: (int, T) -> string) returns (text: string)
    ensures text == prefix + Rendered(items, render)
  {
    text := prefix;
    var i := 0;
    while i < |items|
      invariant 0 <= i <= |items|
      invariant text == prefix + Rendered(items[..i], render)
    {
      assert items[..i + 1][..i] == items[..i];
      text := text + render(i + 1, items[i]);
      i := i + 1;
    }
    assert items[..|items|] == items;
  }

  /** Concatenation regroups; stated once so that long texts need not be
      compared element by element. */
  lemma Regroup<T>(a: seq<T>, b: seq<T>, c: seq<T>, d: seq<T>, e: seq<T>)
    ensures a + (b + c + d) + e == (a + b) + c + (d + e)
  {
  }

  lemma Assoc<T>(a: seq<T>, b: seq<T>, c: seq<T>)
    ensures a + b + c == a + (b + c)
    ensures a + [] == a
  {
  }

  /** `slice(-n)` for n >= 1 keeps the last min(n, |s|) elements; `slice(-0)`
      is `slice(0)` and keeps everything. */
  lemma SliceLast<T>(s: seq<T>, n: int)
    requires n >= 0
    ensures n == 0 ==> SliceFrom(s, -n) == s
    ensures n >= 1 ==> SliceFrom(s, -n) == s[|s| - Min(n, |s|)..]
    ensures |SliceFrom(s, -n)| == if n == 0 then |s| else Min(n, |s|)
  {
  }

  function Min(a: int, b: int): (m: int)
    ensures m <= a && m <= b && (m == a || m == b)
  {
    if a <= b then a else b
  }

  function Max(a: int, b: int): (m: int)
    ensures m >= a && m >= b && (m == a || m == b)
  {
    if a >= b then a else b
  }

  /** Whether every element of `s` is distinct. */
  predicate Distinct<T(==)>(s: seq<T>)
  {
    forall i, j :: 0 <= i < j < |s| ==> s[i] != s[j]
  }

  // ---------------------------------------------------------------------
  // Random draws and sorting

  /** A value `Math.random()` can return. */
  predicate Unit(r: real)
  {
    0.0 <= r < 1.0
  }

  lemma PickBounds(r: real, n: nat)
    requires Unit(r) && n > 0
    ensures 0 <= (r * (n as real)).Floor < n
  {
    var x := r * (n as real);
    assert x < n as real by {
      assert (1.0 - r) * (n as real) > 0.0;
    }
  }

  /** `Math.floor(Math.random() * n)`: an index below `n`. */
  function Pick(r: real, n: nat): (i: nat)
    requires Unit(r) && n > 0
    ensures i < n
  {
    PickBounds(r, n);
    (r * (n as real)).Floor
  }

  /** `s` is in ascending order of `key`. */
  predicate SortedBy<T>(s: seq<T>, key: T -> int)
  {
    forall i, j :: 0 <= i < j < |s| ==> key(s[i]) <= key(s[j])
  }

  /** Inserts `x` after every leading element whose key is no greater. */
  function InsertBy<T>(x: T, s: seq<T>, key: T -> int): (r: seq<T>)
    ensures |r| == |s| + 1 && multiset(r) == multiset(s) + multiset{x}
  {
    if s == [] then [x]
    else if key(s[0]) <= key(x) then
      assert s == [s[0]] + s[1..];
      [s[0]] + InsertBy(x, s[1..], key)
    else [x] + s
  }

  lemma {:induction false} InsertBySorted<T>(x: T, s: seq<T>, key: T -> int)
    requires SortedBy(s, key)
    ensures SortedBy(InsertBy(x, s, key), key)
  {
    if s != [] && key(s[0]) <= key(x) {
      InsertBySorted(x, s[1..], key);
      var rest := InsertBy(x, s[1..], key);
      forall j | 0 <= j < |rest| ensures key(s[0]) <= key(rest[j]) {
        assert rest[j] in multiset(rest);
        if rest[j] != x {
          assert rest[j] in multiset(s[1..]);
        }
      }
    }
  }

  /** A stable sort into ascending order of `key` (`Array.prototype.sort`
      with a comparator subtracting the keys). */
  function SortBy<T>(s: seq<T>, key: T -> int): (r: seq<T>)
    ensures |r| == |s| && multiset(r) == multiset(s)
    ensures SortedBy(r, key)
  {
    if s == [] then []
    else
      assert s == s[..|s| - 1] + [s[|s| - 1]];
      var sorted := SortBy(s[..|s| - 1], key);
      InsertBySorted(s[|s| - 1], sorted, key);
      InsertBy(s[|s| - 1], sorted, key)
  }

  /** Sorting keeps every property its elements had. */
  lemma SortKeeps<T>(s: seq<T>, key: T -> int, p: T -> bool)
    requires forall x :: x in s ==> p(x)
    ensures forall x :: x in SortBy(s, key) ==> p(x)
  {
    var r := SortBy(s, key);
    forall x | x in r ensures p(x) {
      assert x in multiset(r);
    }
  }
}
