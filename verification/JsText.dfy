/** The JavaScript string operations the sources rely on. */
module JsText {
  /** White space in the sense of String.prototype.trim and of \s in a regular expression. */
  predicate IsSpace(c: char) {
    '\t' <= c <= '\r' || c == ' ' || c == '\U{00A0}' || c == '\U{1680}' || '\U{2000}' <= c <= '\U{200A}'
    || c == '\U{2028}' || c == '\U{2029}' || c == '\U{202F}' || c == '\U{205F}' || c == '\U{3000}' || c == '\U{FEFF}'
  }

  function TrimStart(s: string): (r: string)
    ensures |r| <= |s| && r == s[|s| - |r|..]
    ensures r != "" ==> !IsSpace(r[0])
  {
    if s != "" && IsSpace(s[0]) then TrimStart(s[1..]) else s
  }

  function TrimEnd(s: string): (r: string)
    ensures |r| <= |s| && r == s[..|r|]
    ensures r != "" ==> !IsSpace(r[|r| - 1])
  {
    if s != "" && IsSpace(s[|s| - 1]) then TrimEnd(s[..|s| - 1]) else s
  }

  function Trim(s: string): string { TrimEnd(TrimStart(s)) }

  predicate Trimmed(s: string) { s != "" ==> !IsSpace(s[0]) && !IsSpace(s[|s| - 1]) }

  /** Trim cuts the white space off both ends: its result has none there, and what has none there is left alone. */
  lemma TrimIsTrimmed(s: string)
    ensures Trimmed(Trim(s)) && Trim(Trim(s)) == Trim(s)
    ensures Trimmed(s) ==> Trim(s) == s
  {
    var a := TrimStart(s);
    var b := TrimEnd(a);
    if b != "" { assert b[0] == a[0]; }
  }

  predicate AllSpace(s: string) { forall i :: 0 <= i < |s| ==> IsSpace(s[i]) }

  lemma TrimStartStep(c: char, s: string)
    ensures TrimStart([c] + s) == if IsSpace(c) then TrimStart(s) else [c] + s
  {
    hide IsSpace;
    assert ([c] + s)[1..] == s;
  }

  lemma TrimEndStep(s: string, c: char)
    ensures TrimEnd(s + [c]) == if IsSpace(c) then TrimEnd(s) else s + [c]
  {
    hide IsSpace;
    assert (s + [c])[..|s|] == s;
  }

  lemma {:induction false} TrimStartCuts(before: string, s: string)
    requires AllSpace(before)
    ensures TrimStart(before + s) == TrimStart(s)
  {
    hide IsSpace, TrimStart;
    if before != "" {
      TrimStartStep(before[0], before[1..] + s);
      TrimStartCuts(before[1..], s);
      assert before + s == [before[0]] + (before[1..] + s);
    } else {
      assert before + s == s;
    }
  }

  lemma {:induction false} TrimEndCuts(s: string, after: string)
    requires AllSpace(after)
    ensures TrimEnd(s + after) == TrimEnd(s)
  {
    hide IsSpace, TrimEnd;
    if after != "" {
      var n := |after| - 1;
      TrimEndStep(s + after[..n], after[n]);
      TrimEndCuts(s, after[..n]);
      assert s + after == (s + after[..n]) + [after[n]];
    } else {
      assert s + after == s;
    }
  }

  lemma NothingToTrim(s: string, after: string)
    requires s == "" || (!IsSpace(s[0]) && !IsSpace(s[|s| - 1]))
    ensures s != "" ==> TrimStart(s + after) == s + after
    ensures TrimStart("") == "" && TrimEnd(s) == s
  {
    hide IsSpace;
  }

  /** White space is all that Trim cuts: what stands between it, and has none at its ends, is kept whole. */
  lemma TrimKeeps(before: string, s: string, after: string)
    requires AllSpace(before) && AllSpace(after) && Trimmed(s)
    ensures Trim(before + s + after) == s
  {
    hide IsSpace, TrimStart, TrimEnd, AllSpace;
    assert before + s + after == before + (s + after);
    TrimStartCuts(before, s + after);
    NothingToTrim(s, after);
    if s == "" {
      assert s + after == after && after + "" == after;
      TrimStartCuts(after, "");
    } else {
      TrimEndCuts(s, after);
    }
  }
}
