/** Joining and splitting text: Python's `sep.join(parts)` and
    `s.split('\n')`. The server's replies are newline-joined lines; splitting
    a reply recovers them, which is how the reply lemmas state what a reply
    says line by line. */
module TextLines {

  /** `sep.join(parts)`. */
  function Join(parts: seq<string>, sep: string): string
  {
    if |parts| == 0 then ""
    else if |parts| == 1 then parts[0]
    else parts[0] + sep + Join(parts[1..], sep)
  }

  /** `"".join(parts)`. */
  function Concat(parts: seq<string>): string
  {
    if |parts| == 0 then "" else parts[0] + Concat(parts[1..])
  }

  predicate NoNewline(s: string) { '\n' !in s }

  predicate AllNoNewline(lines: seq<string>)
  {
    forall i :: 0 <= i < |lines| ==> NoNewline(lines[i])
  }

  lemma AllNoNewlineConcat(a: seq<string>, b: seq<string>)
    requires AllNoNewline(a) && AllNoNewline(b)
    ensures AllNoNewline(a + b)
  {
  }

  /** The index of the first newline of s, or |s| when there is none. */
  function NewlineAt(s: string): (i: nat)
    ensures i <= |s|
    ensures forall j :: 0 <= j < i ==> s[j] != '\n'
    ensures i < |s| ==> s[i] == '\n'
  {
    if |s| == 0 || s[0] == '\n' then 0 else 1 + NewlineAt(s[1..])
  }

  /** `s.split('\n')`: always at least one piece, none holding a newline. */
  function SplitLines(s: string): (parts: seq<string>)
    ensures |parts| >= 1
    decreases |s|
  {
    var i := NewlineAt(s);
    if i == |s| then [s] else [s[..i]] + SplitLines(s[i + 1..])
  }

  /** Splitting newline-joined lines gives back exactly those lines. */
  lemma {:induction false} SplitJoin(parts: seq<string>)
    requires |parts| >= 1
    requires forall i :: 0 <= i < |parts| ==> NoNewline(parts[i])
    ensures SplitLines(Join(parts, "\n")) == parts
  {
    var s := Join(parts, "\n");
    if |parts| == 1 {
      assert NewlineAt(s) == |s|;
    } else {
      var tail := Join(parts[1..], "\n");
      assert s == parts[0] + "\n" + tail;
      assert s[|parts[0]|] == '\n';
      assert forall j :: 0 <= j < |parts[0]| ==> s[j] == parts[0][j];
      assert NewlineAt(s) == |parts[0]|;
      assert s[..|parts[0]|] == parts[0];
      assert s[|parts[0]| + 1..] == tail;
      SplitJoin(parts[1..]);
      assert [parts[0]] + parts[1..] == parts;
    }
  }

  /** Joining newline-free pieces with a newline-free separator gives a
      single physical line. */
  lemma {:induction false} JoinNoNewline(parts: seq<string>, sep: string)
    requires NoNewline(sep)
    requires forall i :: 0 <= i < |parts| ==> NoNewline(parts[i])
    ensures NoNewline(Join(parts, sep))
  {
    if |parts| > 1 {
      JoinNoNewline(parts[1..], sep);
      assert Join(parts, sep) == parts[0] + sep + Join(parts[1..], sep);
    }
  }

  /** Adding one more piece at the end of a concatenation. */
  lemma {:induction false} ConcatPush(parts: seq<string>, last: string)
    ensures Concat(parts + [last]) == Concat(parts) + last
  {
    if |parts| > 0 {
      assert (parts + [last])[1..] == parts[1..] + [last];
      ConcatPush(parts[1..], last);
    }
  }

  /** Four texts appended left to right are the first followed by the
      other three appended from the right. */
  lemma AppendAssoc(a: string, b: string, c: string, d: string)
    ensures a + b + c + d == a + (b + (c + d))
  {
  }

  /** Each line followed by sep: what a run of `text += line + sep`
      statements produces. */
  function Terminated(lines: seq<string>, sep: string): string
  {
    if |lines| == 0 then "" else lines[0] + sep + Terminated(lines[1..], sep)
  }

  /** Adding one more terminated line at the end. */
  lemma {:induction false} TerminatedAppend(lines: seq<string>, line: string, sep: string)
    ensures Terminated(lines + [line], sep) == Terminated(lines, sep) + (line + sep)
  {
    if |lines| > 0 {
      assert (lines + [line])[1..] == lines[1..] + [line];
      TerminatedAppend(lines[1..], line, sep);
    }
  }

  /** Terminated lines followed by one unterminated line are those lines
      joined. */
  lemma {:induction false} TerminatedThenLast(lines: seq<string>, last: string, sep: string)
    ensures Terminated(lines, sep) + last == Join(lines + [last], sep)
  {
    if |lines| > 0 {
      assert (lines + [last])[1..] == lines[1..] + [last];
      TerminatedThenLast(lines[1..], last, sep);
    }
  }

  /** Terminating every line is joining them and terminating the last. */
  lemma TerminatedIsJoin(lines: seq<string>, sep: string)
    requires |lines| >= 1
    ensures Terminated(lines, sep) == Join(lines, sep) + sep
  {
    var init := lines[..|lines| - 1];
    assert lines == init + [lines[|lines| - 1]];
    TerminatedAppend(init, lines[|lines| - 1], sep);
    TerminatedThenLast(init, lines[|lines| - 1], sep);
  }

  /** acc followed by each line and sep, added one line at a time: what a
      run of `text += line + sep` statements makes of a text that already
      holds acc. */
  function AppendLines(acc: string, lines: seq<string>, sep: string): string
    decreases |lines|
  {
    if |lines| == 0 then acc
    else AppendLines(acc, lines[..|lines| - 1], sep) + (lines[|lines| - 1] + sep)
  }

  lemma AppendLinesPush(acc: string, lines: seq<string>, line: string, sep: string)
    ensures AppendLines(acc, lines + [line], sep) == AppendLines(acc, lines, sep) + (line + sep)
  {
    assert (lines + [line])[..|lines|] == lines;
  }

  /** Adding the lines one by one is adding them all terminated at once. */
  lemma {:induction false} AppendLinesIsTerminated(acc: string, lines: seq<string>, sep: string)
    ensures AppendLines(acc, lines, sep) == acc + Terminated(lines, sep)
    decreases |lines|
  {
    if |lines| > 0 {
      var init := lines[..|lines| - 1];
      var last := lines[|lines| - 1];
      assert lines == init + [last];
      AppendLinesIsTerminated(acc, init, sep);
      TerminatedAppend(init, last, sep);
    }
  }

  /** Splitting newline-terminated lines gives back those lines and the
      empty remainder after the last newline. */
  lemma SplitTerminated(lines: seq<string>)
    requires forall i :: 0 <= i < |lines| ==> NoNewline(lines[i])
    ensures SplitLines(Terminated(lines, "\n")) == lines + [""]
  {
    TerminatedThenLast(lines, "", "\n");
    assert Terminated(lines, "\n") + "" == Terminated(lines, "\n");
    SplitJoin(lines + [""]);
  }
}
