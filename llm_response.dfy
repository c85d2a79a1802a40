/** The direct LLM recommender (backend/aiagent/deepseek_direct.py): the guard
    on the selected symbols before any call, and the extraction of the JSON
    candidate from the model's reply text before it reaches json.loads. The
    API call, the data fetch and json.loads itself are foreign; the model
    states which string json.loads would be given. */
module LlmResponse {
  import opened Common

  const Marker: String := "```json"

  /** What _parse_response does with the reply text. */
  datatype ParseOutcome =
    | EmptyResponse                    // {"error": "Empty API response"}
    | InvalidStructure                 // {"error": "Invalid JSON structure"}
    | Decode(candidate: String)        // json.loads(candidate)

  /** The candidate before comment removal: from the first '{' after the marker (or in
      the whole text) to the last '}' inclusive, with Python's slice semantics. */
  function Extract(content: String): String {
    if Contains(content, Marker) then
      var start := FindFrom(content, '{', FindSub(content, Marker, 0) as nat);
      PySlice(content, start, RFind(content, '}') + 1)
    else
      var start := FindFrom(content, '{', 0);
      var end := RFind(content, '}') + 1;
      if start != -1 && end != 0 then PySlice(content, start, end) else content
  }

  lemma MarkerFound(content: String)
    requires Contains(content, Marker)
    ensures FindSub(content, Marker, 0) >= 0
  {
    var i :| 0 <= i <= |content| - |Marker| && OccursAt(content, Marker, i);
  }

  /** A line survives unless it is blank or a `//` comment once stripped. */
  predicate KeepLine(line: String) {
    Strip(line) != [] && !StartsWith(Strip(line), "//")
  }

  /** The generator filter over the lines, in order. */
  function KeptLines(lines: seq<String>): (r: seq<String>)
    ensures forall l :: l in r <==> l in lines && KeepLine(l)
    ensures |r| <= |lines|
  {
    if lines == [] then []
    else (if KeepLine(lines[0]) then [lines[0]] else []) + KeptLines(lines[1..])
  }

  /** The filter keeps the relative order: filtering a concatenation filters each part. */
  lemma {:induction false} KeptLinesAppend(a: seq<String>, b: seq<String>)
    decreases |a|
    ensures KeptLines(a + b) == KeptLines(a) + KeptLines(b)
  {
    if a != [] {
      var head := if KeepLine(a[0]) then [a[0]] else [];
      var ab := a + b;
      assert ab[0] == a[0];
      assert ab[1..] == a[1..] + b;
      KeptLinesAppend(a[1..], b);
      var x, y := KeptLines(a[1..]), KeptLines(b);
      assert KeptLines(ab) == head + (x + y);
      assert KeptLines(a) == head + x;
      SeqAssoc(head, x, y);
    } else {
      assert a + b == b;
    }
  }

  lemma SeqAssoc<T>(a: seq<T>, b: seq<T>, c: seq<T>)
    ensures a + (b + c) == (a + b) + c
  {
  }

  function DropComments(s: String): String {
    Join("\n", KeptLines(Split(s, '\n')))
  }

  /** Splitting the joined lines gives the lines back, so the lines of the cleaned
      candidate are exactly the kept lines of the extracted one. */
  lemma CleanedLines(s: String)
    ensures KeptLines(Split(s, '\n')) != [] ==> Split(DropComments(s), '\n') == KeptLines(Split(s, '\n'))
    ensures forall l :: l in Split(DropComments(s), '\n') && DropComments(s) != [] ==> KeepLine(l)
  {
    var kept := KeptLines(Split(s, '\n'));
    if kept != [] {
      SplitJoin(kept, '\n');
    }
  }

  /** The structure check: the cleaned candidate starts with '{' and ends with '}'. */
  predicate Braced(candidate: String) {
    StartsWith(candidate, "{") && EndsWith(candidate, "}")
  }

  /** _parse_response on the reply's content (None when the reply carries no text). */
  function ParseResponse(content: Option<String>): (r: ParseOutcome)
    ensures r == EmptyResponse <==> content.None? || Strip(content.value) == []
    ensures r.Decode? <==> content.Some? && Strip(content.value) != [] && Braced(DropComments(Extract(content.value)))
    ensures r == InvalidStructure <==>
      content.Some? && Strip(content.value) != [] && !Braced(DropComments(Extract(content.value)))
    ensures r.Decode? ==> Braced(r.candidate) && r.candidate == DropComments(Extract(content.value))
  {
    if content.None? || Strip(content.value) == [] then EmptyResponse
    else
      var candidate := DropComments(Extract(content.value));
      if Braced(candidate) then Decode(candidate)
      else InvalidStructure
  }

  /** With the marker, the candidate spans from the first '{' after it to the last '}'. */
  lemma ExtractAfterMarker(content: String, a: int, b: int)
    requires Contains(content, Marker)
    requires a == FindFrom(content, '{', FindSub(content, Marker, 0) as nat)
    requires b == RFind(content, '}') && 0 <= a <= b
    ensures Extract(content) == content[a..b + 1]
    ensures content[a] == '{' && content[b] == '}'
    ensures forall k :: FindSub(content, Marker, 0) <= k < a ==> content[k] != '{'
    ensures forall k :: b < k < |content| ==> content[k] != '}'
  {
    MarkerFound(content);
  }

  /** Without the marker, a reply lacking either brace is used whole. */
  lemma WholeReplyWithoutBraces(content: String)
    requires !Contains(content, Marker)
    requires '{' !in content || '}' !in content
    ensures Extract(content) == content
  {
    if '{' !in content {
      assert FindFrom(content, '{', 0) == -1;
    } else {
      assert forall k :: 0 <= k < |content| ==> content[k] in content;
    }
  }

  /** With the marker but no '{' after it, the slice starts at index -1, i.e. at the last
      character, and the reply is always rejected as an invalid structure. */
  lemma MarkerWithoutBraceIsInvalid(content: String)
    requires Contains(content, Marker)
    requires forall k :: FindSub(content, Marker, 0) <= k < |content| ==> content[k] != '{'
    ensures ParseResponse(Some(content)) == EmptyResponse || ParseResponse(Some(content)) == InvalidStructure
  {
    MarkerFound(content);
    var x := Extract(content);
    assert FindFrom(content, '{', FindSub(content, Marker, 0) as nat) == -1;
    assert '{' !in x by {
      var lo := PyIndex(|content|, -1);
      var hi := PyIndex(|content|, RFind(content, '}') + 1);
      assert lo == |content| - 1;
      assert FindSub(content, Marker, 0) <= |content| - |Marker|;
      if lo < hi {
        assert x == content[lo..hi];
        forall k | 0 <= k < |x| ensures x[k] != '{' {
          assert x[k] == content[lo + k];
        }
      }
    }
    NoBraceSurvives(x);
  }

  /** A text without '{' still has none after comment removal, so it cannot start with one. */
  lemma NoBraceSurvives(x: String)
    requires '{' !in x
    ensures !StartsWith(DropComments(x), "{")
  {
    var kept := KeptLines(Split(x, '\n'));
    forall l | l in kept ensures '{' !in l {
      SplitPartsWithin(x, '\n', l);
    }
    JoinWithout(kept, '{');
    var d := DropComments(x);
    if |d| >= 1 {
      assert d[0] in d;
      assert d[..1] == [d[0]];
    }
  }

  lemma {:induction false} SplitPartsWithin(s: String, sep: char, part: String)
    requires part in Split(s, sep)
    decreases |s|
    ensures forall c :: c in part ==> c in s
  {
    if sep in s {
      var i := FindFrom(s, sep, 0);
      if part != s[..i] {
        SplitPartsWithin(s[i + 1..], sep, part);
        forall c | c in part ensures c in s {
          assert c in s[i + 1..];
        }
      }
    }
  }

  lemma {:induction false} JoinWithout(parts: seq<String>, c: char)
    requires c != '\n'
    requires forall p :: p in parts ==> c !in p
    decreases |parts|
    ensures c !in Join("\n", parts)
  {
    if |parts| > 1 {
      JoinWithout(parts[1..], c);
      assert Join("\n", parts) == parts[0] + "\n" + Join("\n", parts[1..]);
    }
  }

  /** The result of execute. */
  datatype ExecuteOutcome<R> =
    | NoSelection       // {"status": "error", "message": "選択された銘柄がありません"}
    | Raised            // {"status": "error", "message": str(e)}
    | Answered(reply: R)

  /** execute: an absent or empty selection is refused before any data is fetched or
      the API is called; otherwise the call's answer, or the error it raised (None). */
  function Execute<R>(selected: Option<seq<String>>, call: seq<String> -> Option<R>): (r: ExecuteOutcome<R>)
    ensures r.NoSelection? <==> selected.None? || selected.value == []
    ensures r.Answered? <==> !r.NoSelection? && call(selected.value).Some?
    ensures r.Answered? ==> r.reply == call(selected.value).value
  {
    if selected.None? || selected.value == [] then NoSelection
    else match call(selected.value)
      case None => Raised
      case Some(reply) => Answered(reply)
  }
}
