/**
 * The raw preview `showCurrent` prints when the settings cannot be parsed:
 * `content.split('\n').slice(0, 20).join('\n')`.
 */
module Lines {

  const PreviewLines: nat := 20

  function NewlineCount(s: string): nat {
    if s == [] then 0 else (if s[0] == '\n' then 1 else 0) + NewlineCount(s[1..])
  }

  /** `s.split('\n')`: the pieces between newlines; the empty string gives `[""]`. */
  function Split(s: string): (lines: seq<string>)
    ensures |lines| == NewlineCount(s) + 1
    ensures forall i :: 0 <= i < |lines| ==> '\n' !in lines[i]
  {
    if s == [] then [""]
    else
      var rest := Split(s[1..]);
      if s[0] == '\n' then [""] + rest
      else [[s[0]] + rest[0]] + rest[1..]
  }

  /**
   * `lines.join('\n')`: it starts with the first line, and joining lines
   * that hold no newline puts exactly one newline between neighbours.
   */
  function JoinLines(lines: seq<string>): (r: string)
    requires |lines| > 0
    ensures lines[0] <= r
    ensures (forall i :: 0 <= i < |lines| ==> '\n' !in lines[i]) ==> NewlineCount(r) == |lines| - 1
  {
    NoNewlineCount(lines[0]);
    if |lines| == 1 then lines[0]
    else
      var rest := JoinLines(lines[1..]);
      assert (forall i :: 0 <= i < |lines| ==> '\n' !in lines[i]) ==>
               (forall i :: 0 <= i < |lines[1..]| ==> '\n' !in lines[1..][i]);
      NewlineCountAppend(lines[0], "\n");
      NewlineCountAppend(lines[0] + "\n", rest);
      lines[0] + "\n" + rest
  }

  /** Joining the pieces of a split gives back the text. */
  lemma {:induction false} JoinSplit(s: string)
    ensures JoinLines(Split(s)) == s
  {
    if s != [] {
      var rest := Split(s[1..]);
      JoinSplit(s[1..]);
      if s[0] == '\n' {
        assert Split(s) == [""] + rest;
        assert Split(s)[1..] == rest;
      } else {
        assert Split(s) == [[s[0]] + rest[0]] + rest[1..];
        if |rest| == 1 {
          assert JoinLines(rest) == rest[0];
        } else {
          assert Split(s)[1..] == rest[1..];
          assert JoinLines(rest) == rest[0] + "\n" + JoinLines(rest[1..]);
        }
      }
    }
  }

  /** Joining all pieces is joining the first k, a newline, then joining the rest. */
  lemma {:induction false} JoinAt(lines: seq<string>, k: nat)
    requires 1 <= k < |lines|
    ensures JoinLines(lines) == JoinLines(lines[..k]) + "\n" + JoinLines(lines[k..])
  {
    if k == 1 {
      assert lines[..1] == [lines[0]];
      assert lines[1..] == lines[k..];
    } else {
      JoinAt(lines[1..], k - 1);
      assert lines[..k][1..] == lines[1..][..k - 1];
      assert lines[1..][k - 1..] == lines[k..];
      var head := lines[0] + "\n";
      assert JoinLines(lines[..k]) == head + JoinLines(lines[1..][..k - 1]);
      assert JoinLines(lines) == head + JoinLines(lines[1..]);
    }
  }

  lemma {:induction false} NewlineCountAppend(a: string, b: string)
    ensures NewlineCount(a + b) == NewlineCount(a) + NewlineCount(b)
  {
    if a == [] {
      assert a + b == b;
    } else {
      assert (a + b)[1..] == a[1..] + b;
      NewlineCountAppend(a[1..], b);
    }
  }

  lemma {:induction false} NoNewlineCount(s: string)
    ensures '\n' !in s ==> NewlineCount(s) == 0
  {
    if s != [] && '\n' !in s {
      assert s[0] in s;
      assert forall c :: c in s[1..] ==> c in s;
      NoNewlineCount(s[1..]);
    }
  }

  /**
   * The preview is the first at most twenty lines of the content: a prefix
   * of it, the whole content when it has fewer than twenty newlines, and
   * otherwise the content up to, not including, its twentieth newline.
   */
  function Preview(content: string): (r: string)
    ensures r <= content
    ensures NewlineCount(content) < PreviewLines ==> r == content
    ensures NewlineCount(content) >= PreviewLines ==> |r| < |content| && content[|r|] == '\n'
    ensures NewlineCount(r) == if NewlineCount(content) < PreviewLines then NewlineCount(content) else PreviewLines - 1
  {
    var lines := Split(content);
    var k := if |lines| < PreviewLines then |lines| else PreviewLines;
    JoinSplit(content);
    assert k == |lines| ==> lines[..k] == lines;
    if k < |lines| then
      JoinAt(lines, k);
      JoinLines(lines[..k])
    else
      JoinLines(lines[..k])
  }
}
