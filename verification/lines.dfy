/** Text as a sequence of lines separated by "\n", as produced by
    JavaScript's `Array.prototype.join("\n")` and read back by a line splitter. */
module Lines {

  /** No line break inside a line. */
  predicate OneLine(s: string)
  {
    '\n' !in s
  }

  /** Every element is a single line. */
  predicate AllOneLine(lines: seq<string>)
  {
    forall k :: 0 <= k < |lines| ==> OneLine(lines[k])
  }

  /** `lines.join("\n")`: the empty array joins to the empty string. */
  function Join(lines: seq<string>): string
    decreases |lines|
  {
    if |lines| == 0 then ""
    else if |lines| == 1 then lines[0]
    else lines[0] + "\n" + Join(lines[1..])
  }

  /** Position of the first line break. */
  function FirstBreak(s: string): (i: nat)
    requires '\n' in s
    ensures i < |s| && s[i] == '\n' && forall j :: 0 <= j < i ==> s[j] != '\n'
  {
    if s[0] == '\n' then 0
    else
      assert '\n' in s[1..] by {
        var j :| 0 <= j < |s| && s[j] == '\n';
        assert s[1..][j - 1] == '\n';
      }
      var k := FirstBreak(s[1..]);
      assert forall j :: 1 <= j < k + 1 ==> s[j] == s[1..][j - 1];
      k + 1
  }

  /** Cuts a text at every line break; the reader of a joined line list. */
  function Split(s: string): (lines: seq<string>)
    ensures |lines| >= 1
    ensures AllOneLine(lines)
    decreases |s|
  {
    if '\n' in s then
      var i := FirstBreak(s);
      assert OneLine(s[..i]) by {
        forall j | 0 <= j < i ensures s[..i][j] != '\n' { }
      }
      [s[..i]] + Split(s[i + 1..])
    else [s]
  }

  /** Joining the split lines gives the text back: no character is lost. */
  lemma {:induction false} JoinSplit(s: string)
    ensures Join(Split(s)) == s
    decreases |s|
  {
    if '\n' in s {
      var i := FirstBreak(s);
      var rest := s[i + 1..];
      JoinSplit(rest);
      assert Split(s) == [s[..i]] + Split(rest);
      assert s == s[..i] + "\n" + rest;
    }
  }

  /** The first line break of `a + "\n" + b` is the one after `a` when `a` is a single line. */
  lemma BreakAfterFirstLine(a: string, b: string)
    requires OneLine(a)
    ensures '\n' in a + "\n" + b
    ensures FirstBreak(a + "\n" + b) == |a|
  {
    var s := a + "\n" + b;
    assert s[|a|] == '\n';
  }

  /** Splitting `a + "\n" + b` with `a` a single line gives `a`, then the lines of `b`. */
  lemma SplitAt(a: string, b: string)
    requires OneLine(a)
    ensures Split(a + "\n" + b) == [a] + Split(b)
  {
    var s := a + "\n" + b;
    BreakAfterFirstLine(a, b);
    assert s[..|a|] == a;
    assert s[|a| + 1..] == b;
  }

  /** The first line read back from a join is the first element, when that
      element is a single line; the later elements may hold breaks. */
  lemma {:induction false} FirstLineOfJoin(lines: seq<string>)
    requires |lines| >= 1 && OneLine(lines[0])
    ensures Split(Join(lines))[0] == lines[0]
  {
    if |lines| > 1 {
      SplitAt(lines[0], Join(lines[1..]));
    }
  }

  /** Splitting a joined list of single lines gives the list back. */
  lemma {:induction false} SplitJoin(lines: seq<string>)
    requires |lines| >= 1
    requires AllOneLine(lines)
    ensures Split(Join(lines)) == lines
    decreases |lines|
  {
    if |lines| > 1 {
      var rest := lines[1..];
      assert AllOneLine(rest) by {
        forall k | 0 <= k < |rest| ensures OneLine(rest[k]) {
          assert rest[k] == lines[k + 1];
        }
      }
      SplitJoin(rest);
      assert OneLine(lines[0]);
      SplitAt(lines[0], Join(rest));
      assert lines == [lines[0]] + rest;
    }
  }

  /** Joining two non-empty line lists puts one line break between them. */
  lemma {:induction false} JoinAppend(xs: seq<string>, ys: seq<string>)
    requires |xs| >= 1 && |ys| >= 1
    ensures Join(xs + ys) == Join(xs) + "\n" + Join(ys)
    decreases |xs|
  {
    if |xs| > 1 {
      assert (xs + ys)[1..] == xs[1..] + ys;
      JoinAppend(xs[1..], ys);
    }
  }
}
