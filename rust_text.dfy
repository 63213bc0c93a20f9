/**
 * The pieces of Rust's string and iterator library that the program relies on:
 * `str::lines`, slice `join`, and the `.rev().take(k) ... .rev()` chain that keeps
 * the last `k` items of a sequence. Strings are sequences of Unicode scalar values.
 */
module RustText {

  function Min(a: int, b: int): int {
    if a <= b then a else b
  }

  /** Index of the first line feed in `s`, or `|s|` when there is none. */
  function LineEnd(s: string): (i: nat)
    ensures i <= |s|
    ensures forall j :: 0 <= j < i ==> s[j] != '\n'
    ensures i < |s| ==> s[i] == '\n'
  {
    if s == [] || s[0] == '\n' then 0 else 1 + LineEnd(s[1..])
  }

  /** Drops one trailing carriage return, so that "\r\n" endings are removed whole. */
  function StripCarriageReturn(line: string): string {
    if |line| > 0 && line[|line| - 1] == '\r' then line[..|line| - 1] else line
  }

  /**
   * `str::lines`: the text is cut after every line feed; a line that ended in a
   * line feed loses it and then one carriage return before it; the final line
   * ending is optional, so a trailing line feed yields no empty last line, and a
   * final line without a line feed is kept as it is. The contract gives only the
   * shape of the result; what the lines are is stated by `LinesOfFramed` and its
   * converse `FramedOfLines`.
   */
  function Lines(s: string): (r: seq<string>)
    ensures forall k :: 0 <= k < |r| ==> '\n' !in r[k]
    ensures s == [] <==> r == []
    decreases |s|
  {
    if s == [] then []
    else
      var i := LineEnd(s);
      if i == |s| then [s]
      else [StripCarriageReturn(s[..i])] + Lines(s[i + 1..])
  }

  /** A line that `str::lines` gives back unchanged when it is followed by a line feed. */
  predicate PlainLine(line: string) {
    '\n' !in line && (line == [] || line[|line| - 1] != '\r')
  }

  /** Each line followed by a line feed, in order: what writing `line` then `'\n'` per line produces. */
  function Framed(lines: seq<string>): string {
    if lines == [] then ""
    else Framed(lines[..|lines| - 1]) + lines[|lines| - 1] + "\n"
  }

  lemma FramedSnoc(lines: seq<string>, line: string)
    ensures Framed(lines + [line]) == Framed(lines) + line + "\n"
  {
    assert (lines + [line])[..|lines|] == lines;
  }

  lemma {:induction false} FramedCons(line: string, rest: seq<string>)
    ensures Framed([line] + rest) == line + "\n" + Framed(rest)
    decreases |rest|
  {
    var all := [line] + rest;
    if rest != [] {
      var init := rest[..|rest| - 1];
      assert all[..|all| - 1] == [line] + init;
      FramedCons(line, init);
    } else {
      assert all[..|all| - 1] == [];
    }
  }

  /** Splitting framed plain lines gives back exactly those lines. */
  lemma {:induction false} LinesOfFramed(lines: seq<string>)
    requires forall k :: 0 <= k < |lines| ==> PlainLine(lines[k])
    ensures Lines(Framed(lines)) == lines
    decreases |lines|
  {
    if lines != [] {
      var line, rest := lines[0], lines[1..];
      assert lines == [line] + rest;
      FramedCons(line, rest);
      var s := Framed(lines);
      assert s == line + "\n" + Framed(rest);
      assert s[|line|] == '\n';
      assert forall j :: 0 <= j < |line| ==> s[j] == line[j];
      assert LineEnd(s) == |line|;
      assert s[..|line|] == line;
      assert StripCarriageReturn(line) == line;
      assert s[|line| + 1..] == Framed(rest);
      LinesOfFramed(rest);
    }
  }

  /** A text with a line feed starts with its first line, then the lines after that line feed. */
  lemma LinesStep(s: string)
    requires LineEnd(s) < |s|
    ensures var i := LineEnd(s);
      Lines(s) == [StripCarriageReturn(s[..i])] + Lines(s[i + 1..])
  {
  }

  /**
   * A text without carriage returns that ends in a line feed (or is empty) is
   * exactly its lines, each followed by a line feed.
   */
  lemma {:induction false} FramedOfLines(s: string)
    requires '\r' !in s
    requires s == [] || s[|s| - 1] == '\n'
    ensures Framed(Lines(s)) == s
    decreases |s|
  {
    if s != [] {
      var i := LineEnd(s);
      assert i < |s|;
      var line, rest := s[..i], s[i + 1..];
      assert Framed(Lines(s)) == line + "\n" + Framed(Lines(rest)) by {
        assert StripCarriageReturn(line) == line by {
          if |line| > 0 {
            assert line[|line| - 1] == s[i - 1];
          }
        }
        LinesStep(s);
        FramedCons(line, Lines(rest));
      }
      assert Framed(Lines(rest)) == rest by {
        assert '\r' !in rest by {
          forall j | 0 <= j < |rest| ensures rest[j] != '\r' {
            assert rest[j] == s[i + 1 + j];
          }
        }
        assert rest == [] || rest[|rest| - 1] == '\n' by {
          if rest != [] {
            assert rest[|rest| - 1] == s[|s| - 1];
          }
        }
        FramedOfLines(rest);
      }
      SplitAtLineFeed(s, i);
    }
  }

  lemma SplitAtLineFeed(s: string, i: nat)
    requires i < |s| && s[i] == '\n'
    ensures s == s[..i] + "\n" + s[i + 1..]
  {
    assert s == s[..i] + [s[i]] + s[i + 1..];
  }

  /** Slice `join`: the parts with `sep` between consecutive ones. */
  function Join(parts: seq<string>, sep: string): string {
    if parts == [] then ""
    else if |parts| == 1 then parts[0]
    else parts[0] + sep + Join(parts[1..], sep)
  }

  /** Joining one more part adds the separator and that part at the end. */
  lemma {:induction false} JoinSnoc(parts: seq<string>, part: string, sep: string)
    requires parts != []
    ensures Join(parts + [part], sep) == Join(parts, sep) + sep + part
    decreases |parts|
  {
    var all := parts + [part];
    if |parts| == 1 {
      assert all[1..] == [part];
    } else {
      assert all[1..] == parts[1..] + [part];
      JoinSnoc(parts[1..], part, sep);
      assert Join(all, sep) == parts[0] + sep + (Join(parts[1..], sep) + sep + part);
    }
  }

  function Reverse<T>(s: seq<T>): (r: seq<T>)
    ensures |r| == |s|
  {
    if s == [] then [] else [s[|s| - 1]] + Reverse(s[..|s| - 1])
  }

  lemma {:induction false} ReverseAt<T>(s: seq<T>, i: nat)
    requires i < |s|
    ensures Reverse(s)[i] == s[|s| - 1 - i]
    decreases |s|
  {
    if i > 0 {
      ReverseAt(s[..|s| - 1], i - 1);
    }
  }

  lemma {:induction false} ReverseOfFront<T>(s: seq<T>, m: nat)
    requires m <= |s|
    ensures Reverse(Reverse(s)[..m]) == s[|s| - m..]
  {
    var front := Reverse(s)[..m];
    var back := Reverse(front);
    var tail := s[|s| - m..];
    forall j | 0 <= j < m
      ensures back[j] == tail[j]
    {
      ReverseAt(front, j);
      ReverseAt(s, m - 1 - j);
    }
    assert back == tail;
  }

  /**
   * The last `k` items of `s` in their original order, computed as the program
   * does: reverse, take `k`, reverse again.
   */
  function LastN<T>(s: seq<T>, k: nat): (r: seq<T>)
    ensures |r| == Min(k, |s|)
    ensures r == s[|s| - |r|..]
  {
    var m := Min(k, |s|);
    ReverseOfFront(s, m);
    Reverse(Reverse(s)[..m])
  }
}
