/**
 * The textual fallback of the inline scorer program: when the two class probabilities cannot be
 * converted directly, their printed form is stripped of '[' and ']' and split on white space,
 * and tokens 0 and 1 are read as certainty and delay. Tokens stay text: float() is not modelled.
 */
module ScorerOutput {
  import opened Wrappers

  /** Python's str.isspace, the separators of str.split() with no argument. */
  predicate IsPySpace(c: char) {
    ('\t' <= c <= '\r') || ('\U{001C}' <= c <= '\U{001F}') || c == ' ' || c == '\U{0085}'
    || c == '\U{00A0}' || c == '\U{1680}' || ('\U{2000}' <= c <= '\U{200A}')
    || c == '\U{2028}' || c == '\U{2029}' || c == '\U{202F}' || c == '\U{205F}' || c == '\U{3000}'
  }

  predicate IsBracket(c: char) {
    c == '[' || c == ']'
  }

  predicate NoBrackets(s: string) {
    forall k :: 0 <= k < |s| ==> !IsBracket(s[k])
  }

  /** A token of str.split(): non-empty and free of white space. */
  predicate IsToken(w: string) {
    w != [] && forall k :: 0 <= k < |w| ==> !IsPySpace(w[k])
  }

  /** s.replace('[', '').replace(']', ''): s with every bracket removed, the rest in order. */
  function StripBrackets(s: string): (r: string)
    ensures |r| <= |s|
    ensures NoBrackets(r)
    ensures NoBrackets(s) ==> r == s
  {
    if s == [] then []
    else (if IsBracket(s[0]) then [] else [s[0]]) + StripBrackets(s[1..])
  }

  /** The length of the run of white space that starts s. */
  function SpaceRun(s: string): (n: nat)
    ensures n <= |s|
    ensures forall k :: 0 <= k < n ==> IsPySpace(s[k])
    ensures n < |s| ==> !IsPySpace(s[n])
  {
    if s != [] && IsPySpace(s[0]) then 1 + SpaceRun(s[1..]) else 0
  }

  /** The length of the run of non-space characters that starts s. */
  function WordRun(s: string): (n: nat)
    ensures n <= |s|
    ensures forall k :: 0 <= k < n ==> !IsPySpace(s[k])
    ensures n < |s| ==> IsPySpace(s[n])
  {
    if s != [] && !IsPySpace(s[0]) then 1 + WordRun(s[1..]) else 0
  }

  /** s.split(): the maximal runs of non-space characters of s, in order. */
  function Words(s: string): (ws: seq<string>)
    ensures forall i :: 0 <= i < |ws| ==> IsToken(ws[i])
    decreases |s|
  {
    var t := s[SpaceRun(s)..];
    if t == [] then []
    else
      var n := WordRun(t);
      [t[..n]] + Words(t[n..])
  }

  predicate AllPySpace(g: string) {
    forall k :: 0 <= k < |g| ==> IsPySpace(g[k])
  }

  /**
   * gaps[0] + ws[0] + gaps[1] + ... + ws[n-1] + gaps[n]: how numpy lays out the entries of a
   * vector, with padding of its own choosing before, between and after them.
   */
  function Interleave(ws: seq<string>, gaps: seq<string>): (r: string)
    requires |gaps| == |ws| + 1
    ensures |r| >= |gaps[0]| && r[..|gaps[0]|] == gaps[0]
    decreases |ws|
  {
    if ws == [] then gaps[0] else gaps[0] + ws[0] + Interleave(ws[1..], gaps[1..])
  }

  /** Tokens separated by white space that is non-empty between two tokens. */
  predicate Separated(ws: seq<string>, gaps: seq<string>) {
    |gaps| == |ws| + 1
    && (forall i :: 0 <= i < |ws| ==> IsToken(ws[i]))
    && (forall i :: 0 <= i < |gaps| ==> AllPySpace(gaps[i]))
    && (forall i :: 0 < i < |ws| ==> gaps[i] != [])
  }

  /**
   * parts = <text>.replace('[', '').replace(']', '').split(); (parts[0], parts[1]).
   * None stands for the IndexError raised when fewer than two tokens remain.
   */
  function ExtractPair(text: string): (r: Option<(string, string)>)
    ensures r.Some? <==> |Words(StripBrackets(text))| >= 2
    ensures r.Some? ==> r.value == (Words(StripBrackets(text))[0], Words(StripBrackets(text))[1])
    ensures r.Some? ==> IsToken(r.value.0) && IsToken(r.value.1)
  {
    var parts := Words(StripBrackets(text));
    if |parts| < 2 then None else Some((parts[0], parts[1]))
  }

  lemma {:induction false} StripBracketsConcat(a: string, b: string)
    ensures StripBrackets(a + b) == StripBrackets(a) + StripBrackets(b)
    decreases |a|
  {
    if a != [] {
      var head := if IsBracket(a[0]) then [] else [a[0]];
      assert (a + b)[0] == a[0];
      assert (a + b)[1..] == a[1..] + b;
      assert StripBrackets(a + b) == head + StripBrackets(a[1..] + b);
      assert StripBrackets(a) == head + StripBrackets(a[1..]);
      StripBracketsConcat(a[1..], b);
    } else {
      assert a + b == b;
    }
  }

  /** A run of white space in front of s lengthens the leading run by exactly its own length. */
  lemma {:induction false} SpaceRunConcat(g: string, x: string)
    requires AllPySpace(g)
    ensures SpaceRun(g + x) == |g| + SpaceRun(x)
    decreases |g|
  {
    if g == [] {
      assert g + x == x;
    } else {
      assert (g + x)[0] == g[0];
      assert (g + x)[1..] == g[1..] + x;
      SpaceRunConcat(g[1..], x);
    }
  }

  /** split() ignores white space in front of the text. */
  lemma WordsSkipsLeadingSpace(g: string, x: string)
    requires AllPySpace(g)
    ensures Words(g + x) == Words(x)
  {
    SpaceRunConcat(g, x);
    var s := g + x;
    assert s[SpaceRun(s)..] == x[SpaceRun(x)..];
  }

  /** A token followed by white space, or by nothing, is the first piece of the split. */
  lemma WordsOfLeadingToken(w: string, rest: string)
    requires IsToken(w)
    requires rest == [] || IsPySpace(rest[0])
    ensures Words(w + rest) == [w] + Words(rest)
  {
    var u := w + rest;
    assert u[0] == w[0];
    assert SpaceRun(u) == 0;
    assert u[0..] == u;
    forall k | 0 <= k < |w| ensures !IsPySpace(u[k]) {
      assert u[k] == w[k];
    }
    if rest != [] {
      assert u[|w|] == rest[0];
    }
    assert WordRun(u) == |w|;
    assert u[..|w|] == w;
    assert u[|w|..] == rest;
  }

  lemma WordsOfEmpty()
    ensures Words("") == []
  {
    assert SpaceRun("") == 0;
  }

  lemma SeparatedTail(ws: seq<string>, gaps: seq<string>)
    requires Separated(ws, gaps) && ws != []
    ensures Separated(ws[1..], gaps[1..])
  {
    forall i | 0 <= i < |ws[1..]| ensures IsToken(ws[1..][i]) {
      assert ws[1..][i] == ws[i + 1];
    }
    forall i | 0 <= i < |gaps[1..]| ensures AllPySpace(gaps[1..][i]) {
      assert gaps[1..][i] == gaps[i + 1];
    }
  }

  /** What follows the first entry is white space or nothing: the entry is a whole token. */
  lemma AfterFirstEntry(ws: seq<string>, gaps: seq<string>)
    requires Separated(ws, gaps) && ws != []
    ensures var rest := Interleave(ws[1..], gaps[1..]); rest == [] || IsPySpace(rest[0])
  {
    var rest := Interleave(ws[1..], gaps[1..]);
    if gaps[1] != [] {
      assert rest[..|gaps[1]|] == gaps[1];
      assert rest[0] == gaps[1][0];
    } else {
      assert ws[1..] == [];
    }
  }

  /** Splitting the printed entries gives the entries back, whatever the padding. */
  lemma {:induction false} WordsOfInterleave(ws: seq<string>, gaps: seq<string>)
    requires Separated(ws, gaps)
    ensures Words(Interleave(ws, gaps)) == ws
    decreases |ws|
  {
    if ws == [] {
      WordsSkipsLeadingSpace(gaps[0], "");
      assert gaps[0] + "" == gaps[0];
      WordsOfEmpty();
    } else {
      var rest := Interleave(ws[1..], gaps[1..]);
      assert Interleave(ws, gaps) == gaps[0] + (ws[0] + rest);
      WordsSkipsLeadingSpace(gaps[0], ws[0] + rest);
      AfterFirstEntry(ws, gaps);
      WordsOfLeadingToken(ws[0], rest);
      SeparatedTail(ws, gaps);
      WordsOfInterleave(ws[1..], gaps[1..]);
      assert ws == [ws[0]] + ws[1..];
    }
  }

  lemma {:induction false} InterleaveNoBrackets(ws: seq<string>, gaps: seq<string>)
    requires Separated(ws, gaps)
    requires forall i :: 0 <= i < |ws| ==> NoBrackets(ws[i])
    ensures NoBrackets(Interleave(ws, gaps))
    decreases |ws|
  {
    assert NoBrackets(gaps[0]) by {
      forall k | 0 <= k < |gaps[0]| ensures !IsBracket(gaps[0][k]) {
        assert IsPySpace(gaps[0][k]);
      }
    }
    if ws != [] {
      SeparatedTail(ws, gaps);
      assert forall i :: 0 <= i < |ws[1..]| ==> NoBrackets(ws[1..][i]) by {
        forall i | 0 <= i < |ws[1..]| ensures NoBrackets(ws[1..][i]) {
          assert ws[1..][i] == ws[i + 1];
        }
      }
      InterleaveNoBrackets(ws[1..], gaps[1..]);
      var rest := Interleave(ws[1..], gaps[1..]);
      var u := gaps[0] + ws[0] + rest;
      forall k | 0 <= k < |u| ensures !IsBracket(u[k]) {
        if k < |gaps[0]| { assert u[k] == gaps[0][k]; }
        else if k < |gaps[0]| + |ws[0]| { assert u[k] == ws[0][k - |gaps[0]|]; }
        else { assert u[k] == rest[k - |gaps[0]| - |ws[0]|]; }
      }
    }
  }

  /** Printing puts the entries between brackets; stripping them gives the entries' text back. */
  lemma StripEnclosingBrackets(body: string)
    requires NoBrackets(body)
    ensures StripBrackets("[" + body + "]") == body
  {
    var closed := body + "]";
    StripBracketsConcat(body, "]");
    assert StripBrackets("]") == [];
    assert StripBrackets(closed) == body;
    StripBracketsConcat("[", closed);
    assert StripBrackets("[") == [];
    assert "[" + body + "]" == "[" + closed;
  }

  /**
   * A vector printed as "[" + padded entries + "]" yields its first two entries when it has at
   * least two, and raises IndexError when it has fewer.
   */
  lemma PrintedVector(ws: seq<string>, gaps: seq<string>)
    requires Separated(ws, gaps)
    requires forall i :: 0 <= i < |ws| ==> NoBrackets(ws[i])
    ensures ExtractPair("[" + Interleave(ws, gaps) + "]").Some? <==> |ws| >= 2
    ensures |ws| >= 2 ==> ExtractPair("[" + Interleave(ws, gaps) + "]") == Some((ws[0], ws[1]))
  {
    InterleaveNoBrackets(ws, gaps);
    StripEnclosingBrackets(Interleave(ws, gaps));
    WordsOfInterleave(ws, gaps);
  }

  /** The entries and padding of numpy's "[0.5   0.123]". */
  lemma PaddedLayout()
    ensures Separated(["0.5", "0.123"], ["", "   ", ""])
    ensures Interleave(["0.5", "0.123"], ["", "   ", ""]) == "0.5   0.123"
  {
    var ws, gaps := ["0.5", "0.123"], ["", "   ", ""];
    assert AllPySpace("   ") && AllPySpace("");
    assert IsToken("0.5") && IsToken("0.123");
    assert ws[1..] == ["0.123"] && gaps[1..] == ["   ", ""];
    assert Interleave(["0.123"], ["   ", ""]) == "   " + "0.123" + Interleave([], [""]);
    assert Interleave(ws, gaps) == "" + "0.5" + ("   " + "0.123" + "");
  }

  /** numpy's padded layout: "[0.5   0.123]" gives certainty "0.5" and delay "0.123". */
  lemma PaddedVectorPair()
    ensures ExtractPair("[0.5   0.123]") == Some(("0.5", "0.123"))
  {
    PaddedLayout();
    assert NoBrackets("0.5") && NoBrackets("0.123");
    PrintedVector(["0.5", "0.123"], ["", "   ", ""]);
    assert "[" + "0.5   0.123" + "]" == "[0.5   0.123]";
  }

  /** A one-entry vector, however padded, leaves one token: the fallback raises IndexError. */
  lemma ExtractPairOfSingleToken(w: string, before: string, after: string)
    requires IsToken(w) && NoBrackets(w) && AllPySpace(before) && AllPySpace(after)
    ensures ExtractPair("[" + before + w + after + "]") == None
  {
    var ws, gaps := [w], [before, after];
    assert Separated(ws, gaps);
    assert ws[1..] == [] && gaps[1..] == [after];
    assert Interleave(ws, gaps) == before + w + Interleave([], [after]);
    assert "[" + Interleave(ws, gaps) + "]" == "[" + before + w + after + "]";
    PrintedVector(ws, gaps);
  }
}
