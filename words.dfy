/**
 * Whitespace tokenisation as done by Python's `str.split()` with no
 * separator: the text is cut at runs of whitespace and empty tokens are
 * dropped. The planner counts these tokens to decide whether retrieval is
 * needed.
 */
module Words {
  import opened Text

  /** The ASCII whitespace of Python strings: `string.whitespace` and the four separators 0x1C-0x1F. */
  const AsciiSpaces: string := "\t\n\U{B}\U{C}\r\U{1C}\U{1D}\U{1E}\U{1F} "

  /** The characters Python's `str.isspace` accepts, which `str.split()` cuts on. */
  predicate IsSpace(c: char) {
    var n := c as int;
    (0x09 <= n <= 0x0D) || (0x1C <= n <= 0x20) || n == 0x85 || n == 0xA0
    || n == 0x1680 || (0x2000 <= n <= 0x200A) || n == 0x2028 || n == 0x2029
    || n == 0x202F || n == 0x205F || n == 0x3000
  }

  /**
   * Below 0x80 the whitespace characters are exactly `AsciiSpaces`; above
   * U+3000 (the ideographic space) there are none.
   */
  lemma WhitespaceSet(c: char)
    ensures c as int < 0x80 ==> (IsSpace(c) <==> c in AsciiSpaces)
    ensures 0x3000 < c as int ==> !IsSpace(c)
  {
  }

  predicate NoSpace(s: string) {
    forall i :: 0 <= i < |s| ==> !IsSpace(s[i])
  }

  /** A token: non-empty and free of whitespace. */
  predicate IsWord(w: string) {
    |w| > 0 && NoSpace(w)
  }

  /** Length of the longest whitespace-free prefix of `s`. */
  function SpanWord(s: string): (n: nat)
    ensures n <= |s| && NoSpace(s[..n])
    ensures n == |s| || IsSpace(s[n])
  {
    if s == [] || IsSpace(s[0]) then 0 else 1 + SpanWord(s[1..])
  }

  /** Python's `s.split()`: the maximal whitespace-free runs of `s`, in order. */
  function Split(s: string): (r: seq<string>)
    ensures forall i :: 0 <= i < |r| ==> IsWord(r[i])
  {
    if s == [] then []
    else if IsSpace(s[0]) then Split(s[1..])
    else
      var n := SpanWord(s);
      [s[..n]] + Split(s[n..])
  }

  /**
   * Reference count of words, independent of `Split`: scanning left to
   * right, a word starts at every non-whitespace character that is first or
   * follows whitespace. `afterSpace` says whether the previous character
   * (if any) was whitespace.
   */
  function Starts(s: string, afterSpace: bool): nat {
    if s == [] then 0
    else (if afterSpace && !IsSpace(s[0]) then 1 else 0) + Starts(s[1..], IsSpace(s[0]))
  }

  function WordCount(s: string): nat {
    Starts(s, true)
  }

  /** The characters of `s` that are not whitespace, in order. */
  function NonSpace(s: string): string {
    if s == [] then []
    else (if IsSpace(s[0]) then [] else [s[0]]) + NonSpace(s[1..])
  }

  function Concat(ws: seq<string>): string {
    if ws == [] then [] else ws[0] + Concat(ws[1..])
  }

  // ---------------------------------------------------------------------
  // Counting

  lemma {:induction false} StartsSkipWord(s: string, n: nat)
    requires n <= |s| && NoSpace(s[..n])
    ensures Starts(s, false) == Starts(s[n..], false)
  {
    if n > 0 {
      assert !IsSpace(s[..n][0]);
      assert s[1..][..n - 1] == s[..n][1..];
      StartsSkipWord(s[1..], n - 1);
      assert s[1..][n - 1..] == s[n..];
    }
  }

  /** `Split` finds exactly as many tokens as there are word starts. */
  lemma {:induction false} SplitCount(s: string)
    ensures |Split(s)| == WordCount(s)
  {
    if s != [] {
      if IsSpace(s[0]) {
        SplitCount(s[1..]);
      } else {
        var n := SpanWord(s);
        assert s[1..][..n - 1] == s[..n][1..];
        StartsSkipWord(s[1..], n - 1);
        assert s[1..][n - 1..] == s[n..];
        // the rest is empty or starts with whitespace, so the flag is irrelevant
        assert Starts(s[n..], false) == Starts(s[n..], true);
        SplitCount(s[n..]);
      }
    }
  }

  /** Retrieval threshold in terms of the reference count. */
  lemma MoreThanTwoTokens(q: string)
    ensures |Split(q)| > 2 <==> WordCount(q) > 2
  {
    SplitCount(q);
  }

  // ---------------------------------------------------------------------
  // Content: the tokens are exactly the non-whitespace characters

  lemma {:induction false} NonSpaceAppend(x: string, y: string)
    ensures NonSpace(x + y) == NonSpace(x) + NonSpace(y)
  {
    if x != [] {
      assert (x + y)[1..] == x[1..] + y;
      NonSpaceAppend(x[1..], y);
    } else {
      assert x + y == y;
    }
  }

  lemma {:induction false} NonSpaceOfWord(s: string)
    requires NoSpace(s)
    ensures NonSpace(s) == s
  {
    if s != [] {
      NonSpaceOfWord(s[1..]);
    }
  }

  /** Joining the tokens back together loses exactly the whitespace. */
  lemma {:induction false} SplitKeepsText(s: string)
    ensures Concat(Split(s)) == NonSpace(s)
  {
    if s != [] {
      if IsSpace(s[0]) {
        SplitKeepsText(s[1..]);
      } else {
        var n := SpanWord(s);
        var w, rest := s[..n], s[n..];
        assert s == w + rest;
        NonSpaceAppend(w, rest);
        NonSpaceOfWord(w);
        SplitKeepsText(rest);
        ConcatCons(w, Split(rest));
      }
    }
  }

  lemma ConcatCons(w: string, ws: seq<string>)
    ensures Concat([w] + ws) == w + Concat(ws)
  {
    assert ([w] + ws)[1..] == ws;
  }

  // ---------------------------------------------------------------------
  // Round trip: splitting words joined by single spaces gives the words back

  lemma {:induction false} SpanWordUpTo(w: string, t: string)
    requires NoSpace(w)
    requires t == [] || IsSpace(t[0])
    ensures SpanWord(w + t) == |w|
  {
    if w != [] {
      assert (w + t)[0] == w[0];
      assert (w + t)[1..] == w[1..] + t;
      SpanWordUpTo(w[1..], t);
    } else {
      assert w + t == t;
    }
  }

  /** A word followed by whitespace (or nothing) is the first token. */
  lemma {:induction false} SplitAfterWord(w: string, rest: string)
    requires IsWord(w)
    requires rest == [] || IsSpace(rest[0])
    ensures Split(w + rest) == [w] + Split(rest)
  {
    var s := w + rest;
    assert s[0] == w[0];
    SpanWordUpTo(w, rest);
    assert s[..|w|] == w && s[|w|..] == rest;
  }

  /** `Split` inverts `Join(words, " ")` on non-empty, whitespace-free words. */
  lemma {:induction false} SplitJoinWords(words: seq<string>)
    requires forall i :: 0 <= i < |words| ==> IsWord(words[i])
    ensures Split(Join(words, " ")) == words
  {
    if words == [] {
      assert Split([]) == [];
    } else if |words| == 1 {
      SplitAfterWord(words[0], []);
      assert words[0] + [] == words[0];
      assert Split([]) == [];
    } else {
      var tail := Join(words[1..], " ");
      var rest := " " + tail;
      assert Join(words, " ") == words[0] + rest;
      SplitAfterWord(words[0], rest);
      assert rest[1..] == tail;
      SplitJoinWords(words[1..]);
      assert words == [words[0]] + words[1..];
    }
  }

  // ---------------------------------------------------------------------
  // Examples

  lemma OneWord()
    ensures Split("flu") == ["flu"]
  {
    SplitAfterWord("flu", []);
    assert "flu" + [] == "flu";
    assert Split([]) == [];
  }
}
