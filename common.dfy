/** Values and text operations shared by every module of the model: an
    Option type, Python/JavaScript style string helpers over seq<char>,
    and decimal rendering of integers. */
module Common {

  datatype Option<+T> = None | Some(value: T) {
    function GetOr(default: T): T {
      match this
      case Some(v) => v
      case None => default
    }
  }

  type String = seq<char>

  /** A decoded JSON value, as the Python dicts and lists of the backend carry them. */
  datatype Json =
    | JNull
    | JBool(b: bool)
    | JNum(n: real)
    | JStr(s: String)
    | JList(items: seq<Json>)
    | JObj(fields: map<String, Json>)

  /** Python truthiness of such a value. */
  predicate Truthy(v: Json) {
    match v
    case JNull => false
    case JBool(b) => b
    case JNum(n) => n != 0.0
    case JStr(s) => s != []
    case JList(items) => items != []
    case JObj(fields) => |fields| > 0
  }

  /** dict.get(key, default). */
  function GetField<V>(fields: map<String, V>, key: String, default: V): (v: V)
    ensures key in fields ==> v == fields[key]
    ensures key !in fields ==> v == default
  {
    if key in fields then fields[key] else default
  }

  /** The six ASCII white-space characters (space, tab, line feed, carriage return,
      vertical tab, form feed). Python's str.strip() and JavaScript's trim() both remove
      these and more: Python also the separators U+001C-U+001F, U+0085 and the Unicode
      spaces, JavaScript U+00A0, U+FEFF and the Unicode spaces. */
  predicate IsSpace(c: char) {
    c == ' ' || c == '\t' || c == '\n' || c == '\r' || c == '\U{000B}' || c == '\U{000C}'
  }

  function TrimStart(s: String): (r: String)
    ensures |r| <= |s| && r == s[|s| - |r|..]
    ensures r == [] || !IsSpace(r[0])
    ensures forall i :: 0 <= i < |s| - |r| ==> IsSpace(s[i])
  {
    if s == [] || !IsSpace(s[0]) then s else TrimStart(s[1..])
  }

  function TrimEnd(s: String): (r: String)
    ensures |r| <= |s| && r == s[..|r|]
    ensures r == [] || !IsSpace(r[|r| - 1])
    ensures forall i :: |r| <= i < |s| ==> IsSpace(s[i])
  {
    if s == [] || !IsSpace(s[|s| - 1]) then s else TrimEnd(s[..|s| - 1])
  }

  /** Python's str.strip() / JavaScript's String.prototype.trim(). */
  function Strip(s: String): (r: String)
    ensures r == [] || (!IsSpace(r[0]) && !IsSpace(r[|r| - 1]))
    ensures r == TrimEnd(TrimStart(s))
  {
    TrimEnd(TrimStart(s))
  }

  lemma {:induction false} TrimStartOfUntrimmed(s: String)
    requires s == [] || !IsSpace(s[0])
    ensures TrimStart(s) == s
  {
  }

  lemma {:induction false} TrimEndOfUntrimmed(s: String)
    requires s == [] || !IsSpace(s[|s| - 1])
    ensures TrimEnd(s) == s
  {
  }

  /** Stripping twice is stripping once. */
  lemma StripIdempotent(s: String)
    ensures Strip(Strip(s)) == Strip(s)
  {
    var r := Strip(s);
    TrimStartOfUntrimmed(r);
    TrimEndOfUntrimmed(r);
  }

  /** A string is blank when it strips to nothing. */
  lemma {:induction false} StripEmptyIffAllSpace(s: String)
    ensures Strip(s) == [] <==> forall i :: 0 <= i < |s| ==> IsSpace(s[i])
  {
    var t := TrimStart(s);
    if t != [] {
      assert s[|s| - |t|] == t[0];
    }
  }

  predicate StartsWith(s: String, prefix: String) {
    |prefix| <= |s| && s[..|prefix|] == prefix
  }

  predicate EndsWith(s: String, suffix: String) {
    |suffix| <= |s| && s[|s| - |suffix|..] == suffix
  }

  /** Python's `needle in s` for strings. */
  predicate Contains(s: String, needle: String) {
    exists i | 0 <= i <= |s| - |needle| :: OccursAt(s, needle, i)
  }

  predicate OccursAt(s: String, needle: String, i: int) {
    0 <= i <= |s| - |needle| && s[i..i + |needle|] == needle
  }

  /** Python's s.find(c, start): the first index >= start holding c, or -1. */
  function FindFrom(s: String, c: char, start: nat): (r: int)
    decreases |s| - start
    ensures r == -1 || (start <= r < |s| && s[r] == c)
    ensures r == -1 ==> forall k :: start <= k < |s| ==> s[k] != c
    ensures r != -1 ==> forall k :: start <= k < r ==> s[k] != c
  {
    if start >= |s| then -1
    else if s[start] == c then start
    else FindFrom(s, c, start + 1)
  }

  /** Python's s.rfind(c): the last index holding c, or -1. */
  function RFind(s: String, c: char): (r: int)
    ensures r == -1 || (0 <= r < |s| && s[r] == c)
    ensures r == -1 ==> forall k :: 0 <= k < |s| ==> s[k] != c
    ensures r != -1 ==> forall k :: r < k < |s| ==> s[k] != c
  {
    if s == [] then -1
    else if s[|s| - 1] == c then |s| - 1
    else RFind(s[..|s| - 1], c)
  }

  /** The index at which `needle` first occurs in `s`, when it does. */
  function FindSub(s: String, needle: String, start: nat): (r: int)
    decreases |s| - start
    ensures r == -1 || (start <= r <= |s| - |needle| && s[r..r + |needle|] == needle)
    ensures r == -1 ==> forall i :: start <= i <= |s| - |needle| ==> !OccursAt(s, needle, i)
  {
    if start + |needle| > |s| then -1
    else if s[start..start + |needle|] == needle then start
    else FindSub(s, needle, start + 1)
  }

  /** Python's slice s[i:j] with its treatment of negative and out-of-range bounds. */
  function PySlice(s: String, i: int, j: int): (r: String)
    ensures 0 <= i <= j <= |s| ==> r == s[i..j]
    ensures |r| <= |s|
  {
    var lo := PyIndex(|s|, i);
    var hi := PyIndex(|s|, j);
    if lo < hi then s[lo..hi] else []
  }

  /** A Python slice bound, resolved against a sequence of length n. */
  function PyIndex(n: nat, i: int): (k: nat)
    ensures k <= n
    ensures 0 <= i <= n ==> k == i
  {
    if i < 0 then (if i + n < 0 then 0 else i + n)
    else if i > n then n
    else i
  }

  function LowerChar(c: char): char {
    if 'A' <= c <= 'Z' then (c as int + 32) as char else c
  }

  /** str.lower() / toLowerCase(), on ASCII letters. */
  function Lower(s: String): (r: String)
    ensures |r| == |s|
    ensures forall i :: 0 <= i < |s| ==> r[i] == LowerChar(s[i])
  {
    if s == [] then [] else [LowerChar(s[0])] + Lower(s[1..])
  }

  function UpperChar(c: char): char {
    if 'a' <= c <= 'z' then (c as int - 32) as char else c
  }

  /** str.upper(), on ASCII letters. */
  function Upper(s: String): (r: String)
    ensures |r| == |s|
    ensures forall i :: 0 <= i < |s| ==> r[i] == UpperChar(s[i])
  {
    if s == [] then [] else [UpperChar(s[0])] + Upper(s[1..])
  }

  /** Python's s.split(sep) / JavaScript's s.split(sep) for a one-character separator. */
  function Split(s: String, sep: char): (parts: seq<String>)
    ensures |parts| >= 1
    ensures forall p :: p in parts ==> sep !in p
  {
    if sep !in s then [s]
    else
      var i := FindFrom(s, sep, 0);
      [s[..i]] + Split(s[i + 1..], sep)
  }

  /** Splitting at the first separator: the text before it is the first part. */
  lemma SplitCons(a: String, b: String, sep: char)
    requires sep !in a
    ensures Split(a + [sep] + b, sep) == [a] + Split(b, sep)
  {
    var s := a + [sep] + b;
    assert s[|a|] == sep;
    assert forall k :: 0 <= k < |a| ==> s[k] == a[k] && a[k] in a;
    FindFirst(s, sep, |a|);
    assert s[..|a|] == a;
    assert s[|a| + 1..] == b;
  }

  /** A suffix is the slice up to j followed by the suffix from j. */
  lemma SliceSplit<T>(s: seq<T>, i: nat, j: nat)
    requires i <= j <= |s|
    ensures s[i..] == s[i..j] + s[j..]
  {
  }

  /** Splitting the separator-joined parts gives the parts back when none of them holds
      the separator. */
  lemma {:induction false} SplitJoin(parts: seq<String>, sep: char)
    requires parts != []
    requires forall i :: 0 <= i < |parts| ==> sep !in parts[i]
    ensures Split(Join([sep], parts), sep) == parts
    decreases |parts|
  {
    if |parts| > 1 {
      var rest := parts[1..];
      forall i | 0 <= i < |rest| ensures sep !in rest[i] {
        assert rest[i] == parts[i + 1];
      }
      SplitJoin(rest, sep);
      assert sep !in parts[0];
      assert Join([sep], parts) == parts[0] + [sep] + Join([sep], rest);
      SplitCons(parts[0], Join([sep], rest), sep);
    }
  }

  lemma FindFirst(s: String, c: char, n: nat)
    requires n < |s| && s[n] == c
    requires forall k :: 0 <= k < n ==> s[k] != c
    ensures FindFrom(s, c, 0) == n
  {
  }

  /** Python's sep.join(parts) / JavaScript's parts.join(sep). */
  function Join(sep: String, parts: seq<String>): (r: String)
    ensures parts == [] ==> r == []
    ensures |parts| == 1 ==> r == parts[0]
  {
    if parts == [] then []
    else if |parts| == 1 then parts[0]
    else parts[0] + sep + Join(sep, parts[1..])
  }

  /** The decimal text of a natural number (Python's str(), JavaScript's String()). */
  function NatText(n: nat): (r: String)
    ensures r != []
    ensures forall i :: 0 <= i < |r| ==> '0' <= r[i] <= '9'
  {
    if n < 10 then [DigitChar(n)] else NatText(n / 10) + [DigitChar(n % 10)]
  }

  function DigitChar(d: nat): (c: char)
    requires d < 10
    ensures '0' <= c <= '9'
  {
    ('0' as int + d) as char
  }

  function IntText(n: int): (r: String)
    ensures r != []
  {
    if n < 0 then "-" + NatText(-n) else NatText(n)
  }

  /** Two to the power n. */
  function Pow2(n: nat): (p: nat)
    ensures p >= 1
  {
    if n == 0 then 1 else 2 * Pow2(n - 1)
  }

  lemma {:induction false} Pow2Monotone(m: nat, n: nat)
    requires m <= n
    ensures Pow2(m) <= Pow2(n)
  {
    if m < n {
      Pow2Monotone(m, n - 1);
    }
  }

  /** No bound c caps the doubling: some exponent exceeds it. */
  lemma {:induction false} Pow2Unbounded(c: nat)
    ensures Pow2(c) > c
  {
    if c > 0 {
      Pow2Unbounded(c - 1);
    }
  }
}
