/** Text as a sequence of newline-terminated lines, and counting characters. */
module Lines {

  /** Lines joined into text, each one terminated by a newline. */
  function Unlines(lines: seq<string>): string {
    if |lines| == 0 then "" else lines[0] + "\n" + Unlines(lines[1..])
  }

  /** No line holds a newline of its own. */
  predicate NoNewlines(lines: seq<string>) {
    forall k, p :: 0 <= k < |lines| && 0 <= p < |lines[k]| ==> lines[k][p] != '\n'
  }

  /** The number of occurrences of c in s. */
  function CountChar(s: string, c: char): nat {
    if |s| == 0 then 0 else (if s[0] == c then 1 else 0) + CountChar(s[1..], c)
  }

  lemma {:induction false} CountCharAppend(s: string, t: string, c: char)
    ensures CountChar(s + t, c) == CountChar(s, c) + CountChar(t, c)
    decreases |s|
  {
    if |s| == 0 {
      assert s + t == t;
    } else {
      assert (s + t)[0] == s[0];
      assert (s + t)[1..] == s[1..] + t;
      CountCharAppend(s[1..], t, c);
    }
  }

  lemma {:induction false} CountCharAbsent(s: string, c: char)
    requires forall k :: 0 <= k < |s| ==> s[k] != c
    ensures CountChar(s, c) == 0
    decreases |s|
  {
    if |s| > 0 {
      CountCharAbsent(s[1..], c);
    }
  }

  /** Joining lines that hold no newline yields one newline per line, the
      last character being a newline whenever there is a line at all. */
  lemma {:induction false} UnlinesNewlines(lines: seq<string>)
    requires NoNewlines(lines)
    ensures CountChar(Unlines(lines), '\n') == |lines|
    ensures |lines| > 0 ==> |Unlines(lines)| > 0 && Unlines(lines)[|Unlines(lines)| - 1] == '\n'
    decreases |lines|
  {
    if |lines| > 0 {
      assert forall p :: 0 <= p < |lines[0]| ==> lines[0][p] != '\n';
      CountCharAbsent(lines[0], '\n');
      CountCharAppend(lines[0], "\n", '\n');
      CountCharAppend(lines[0] + "\n", Unlines(lines[1..]), '\n');
      assert NoNewlines(lines[1..]) by {
        forall k, p | 0 <= k < |lines| - 1 && 0 <= p < |lines[1..][k]|
          ensures lines[1..][k][p] != '\n'
        {
          assert lines[1..][k] == lines[k + 1];
        }
      }
      UnlinesNewlines(lines[1..]);
    }
  }

  /** Unlines of a suffix peels off its first line. */
  lemma UnlinesSuffix(lines: seq<string>, s: nat)
    requires s < |lines|
    ensures Unlines(lines[s..]) == lines[s] + "\n" + Unlines(lines[s + 1..])
  {
    assert lines[s..][1..] == lines[s + 1..];
  }
}
