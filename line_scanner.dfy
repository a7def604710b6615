/**
 * The line scanner a text reader iterates with, in the shape of Go's
 * bufio.Scanner with its default ScanLines split: a line ends at `\n`, one
 * `\r` before the `\n` is dropped, a last line without `\n` still counts, and
 * a stream that ends right after a `\n` has no further (empty) line.
 */
module LineScan {
  import opened Wrappers

  /** What is left of the stream, and the line the last successful step produced. */
  datatype Scanner = Scanner(rest: string, token: string)

  /** bufio.NewScanner: nothing scanned yet, an empty current line. */
  function NewScanner(s: string): Scanner
  {
    Scanner(s, "")
  }

  /** The position of the first `\n` in `s`, or `|s|` when there is none. */
  function IndexOfNewline(s: string): (i: nat)
    ensures i <= |s|
    ensures forall k :: 0 <= k < i ==> s[k] != '\n'
    ensures i < |s| ==> s[i] == '\n'
  {
    if |s| == 0 || s[0] == '\n' then 0 else 1 + IndexOfNewline(s[1..])
  }

  /** The line without one trailing carriage return. */
  function DropCR(s: string): (r: string)
    ensures |s| - 1 <= |r| <= |s| && r == s[..|r|]
    ensures |r| < |s| <==> |s| > 0 && s[|s| - 1] == '\r'
  {
    if |s| > 0 && s[|s| - 1] == '\r' then s[..|s| - 1] else s
  }

  /**
   * One ScanLines step: the next line and the stream after it, or None when
   * the stream is used up.  The line, its ending and what follows make up the
   * stream again, and the line is the text before the first `\n` less one
   * `\r` at its end exactly when there is one there.
   */
  function NextLine(s: string): (r: Option<(string, string)>)
    ensures r.None? <==> s == []
    ensures r.Some? ==> |r.value.1| < |s| && '\n' !in r.value.0
    ensures r.Some? ==>
      var (line, after) := r.value;
      s == line + "\n" + after || s == line + "\r\n" + after ||
      (after == [] && (s == line || s == line + "\r"))
    ensures r.Some? ==>
      var i := IndexOfNewline(s);
      (0 < i && s[i - 1] == '\r' <==> |r.value.0| == i - 1) && (|r.value.0| == i - 1 || |r.value.0| == i)
  {
    if |s| == 0 then None
    else
      var i := IndexOfNewline(s);
      if i < |s| then
        assert s == s[..i] + "\n" + s[i + 1..];
        Some((DropCR(s[..i]), s[i + 1..]))
      else
        Some((DropCR(s), []))
  }

  /** Every line the scanner produces on `s`, in order. */
  function Lines(s: string): (ls: seq<string>)
    ensures ls == [] <==> s == []
    ensures forall k :: 0 <= k < |ls| ==> '\n' !in ls[k]
    decreases |s|
  {
    match NextLine(s)
    case None => []
    case Some((line, after)) => [line] + Lines(after)
  }

  /** Scanner.Scan: advances to the next line; false (with an empty current line) once the stream is used up. */
  function ScanStep(sc: Scanner): (r: (bool, Scanner))
    ensures r.0 <==> sc.rest != []
    ensures r.0 ==> |r.1.rest| < |sc.rest| && Lines(sc.rest) == [r.1.token] + Lines(r.1.rest)
    ensures !r.0 ==> r.1 == Scanner([], "")
  {
    match NextLine(sc.rest)
    case None => (false, Scanner([], ""))
    case Some((line, after)) => (true, Scanner(after, line))
  }

  /** The lines rejoined with `\n` between them. */
  function Join(ls: seq<string>): string
  {
    if |ls| == 0 then "" else if |ls| == 1 then ls[0] else ls[0] + ("\n" + Join(ls[1..]))
  }

  /** A line the scanner gives back exactly: no `\n` in it and no `\r` at its end. */
  predicate PlainLine(l: string)
  {
    '\n' !in l && (l == [] || l[|l| - 1] != '\r')
  }

  lemma NextLineOfPlain(l: string, after: string)
    requires PlainLine(l) && |l| + |after| > 0
    requires after == [] || after[0] == '\n'
    ensures NextLine(l + after) == Some((l, if after == [] then [] else after[1..]))
  {
    var s := l + after;
    var i := IndexOfNewline(s);
    if after == [] {
      assert s == l;
    } else {
      assert s[|l|] == '\n';
      assert s[..i] == l;
    }
  }

  /** A non-empty plain line on its own is one line. */
  lemma LinesOfPlain(l: string)
    requires PlainLine(l) && l != []
    ensures Lines(l) == [l]
  {
    NextLineOfPlain(l, []);
    assert l + [] == l;
  }

  /** A plain line, a `\n` and the rest scan as that line followed by the rest's lines. */
  lemma LinesStep(l: string, rest: string)
    requires PlainLine(l)
    ensures Lines(l + ("\n" + rest)) == [l] + Lines(rest)
  {
    NextLineOfPlain(l, "\n" + rest);
    assert ("\n" + rest)[1..] == rest;
  }

  /**
   * Lines joined with `\n` scan back into the same lines, provided each is
   * plain and the last one is not empty (an empty last line would leave a
   * trailing `\n`, which yields no line).
   */
  lemma {:induction false} LinesOfJoin(ls: seq<string>)
    requires forall i :: 0 <= i < |ls| ==> PlainLine(ls[i])
    requires ls == [] || ls[|ls| - 1] != []
    ensures Lines(Join(ls)) == ls
  {
    if |ls| == 1 {
      assert PlainLine(ls[0]);
      LinesOfPlain(ls[0]);
    } else if |ls| > 1 {
      var rest := Join(ls[1..]);
      assert PlainLine(ls[0]);
      assert forall i :: 0 <= i < |ls[1..]| ==> PlainLine(ls[1..][i]) by {
        forall i | 0 <= i < |ls[1..]| ensures PlainLine(ls[1..][i]) { assert ls[1..][i] == ls[i + 1]; }
      }
      LinesOfJoin(ls[1..]);
      calc {
        Lines(Join(ls));
        Lines(ls[0] + ("\n" + rest));
        { LinesStep(ls[0], rest); }
        [ls[0]] + Lines(rest);
        [ls[0]] + ls[1..];
        ls;
      }
    }
  }

  /** Without carriage returns, a step cuts the stream at its first `\n` and drops nothing else. */
  lemma NextLineWithoutCR(s: string)
    requires |s| > 0 && '\r' !in s
    ensures var i := IndexOfNewline(s);
      NextLine(s) == if i < |s| then Some((s[..i], s[i + 1..])) else Some((s, []))
  {
    var i := IndexOfNewline(s);
    if i < |s| && i > 0 {
      assert s[..i][i - 1] == s[i - 1];
    }
  }

  /** Joining a line before further lines puts a `\n` between it and their join. */
  lemma JoinCons(head: string, rest: seq<string>)
    requires rest != []
    ensures Join([head] + rest) == head + ("\n" + Join(rest))
  {
    var ls := [head] + rest;
    assert ls[0] == head && ls[1..] == rest;
  }

  /** A stream cut at one of its `\n`s. */
  lemma CutAtNewline(s: string, i: nat)
    requires i < |s| && s[i] == '\n'
    ensures s == s[..i] + ("\n" + s[i + 1..])
  {
    assert s[i..] == "\n" + s[i + 1..];
    assert s == s[..i] + s[i..];
  }

  /**
   * In the other direction: a stream without carriage returns that does not
   * end with `\n` is exactly its lines rejoined.
   */
  lemma {:induction false} JoinOfLines(s: string)
    requires '\r' !in s
    requires s == [] || s[|s| - 1] != '\n'
    ensures Join(Lines(s)) == s
    decreases |s|
  {
    if |s| > 0 {
      var i := IndexOfNewline(s);
      NextLineWithoutCR(s);
      if i < |s| {
        var after := s[i + 1..];
        assert after != [];
        assert '\r' !in after by {
          forall k | 0 <= k < |after| ensures after[k] != '\r' { assert after[k] == s[i + 1 + k]; }
        }
        assert after[|after| - 1] == s[|s| - 1];
        JoinOfLines(after);
        assert Lines(s) == [s[..i]] + Lines(after);
        JoinCons(s[..i], Lines(after));
        CutAtNewline(s, i);
      } else {
        assert Lines(s) == [s];
      }
    }
  }
}
