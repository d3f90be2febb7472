/** redactMnemonicRuns: three or more consecutive words of a mnemonic list are cut out of an error message. */
module Redaction {
  const MNEMONIC_RUN := 3
  const MARK := "[redacted]"

  predicate IsLetter(c: char) { 'A' <= c <= 'Z' || 'a' <= c <= 'z' }

  function LowerChar(c: char): char { if 'A' <= c <= 'Z' then 'a' + (c - 'A') else c }

  function Lower(s: string): string { seq(|s|, i requires 0 <= i < |s| => LowerChar(s[i])) }

  predicate Listed(words: set<string>, w: string) { Lower(w) in words }

  // ----- The words of a text -----

  function LetterLength(s: string): (n: nat)
    ensures n <= |s| && forall i :: 0 <= i < n ==> IsLetter(s[i])
    ensures n < |s| ==> !IsLetter(s[n])
    ensures s != "" && IsLetter(s[0]) ==> n > 0
  {
    if s != "" && IsLetter(s[0]) then 1 + LetterLength(s[1..]) else 0
  }

  /** The maximal stretches of letters, in order. */
  function Words(s: string): seq<string>
    decreases |s|
  {
    if s == "" then []
    else if !IsLetter(s[0]) then Words(s[1..])
    else [s[..LetterLength(s)]] + Words(s[LetterLength(s)..])
  }

  lemma {:induction false} LetterLengthJoin(a: string, b: string)
    requires b == "" || !IsLetter(b[0])
    ensures LetterLength(a + b) == LetterLength(a)
  {
    if a == "" {
      assert a + b == b;
    } else if IsLetter(a[0]) {
      LetterLengthJoin(a[1..], b);
      assert (a + b)[1..] == a[1..] + b;
    }
  }

  /** Words are not cut or joined where the second text does not begin with a letter. */
  lemma {:induction false} WordsJoin(a: string, b: string)
    requires b == "" || !IsLetter(b[0])
    ensures Words(a + b) == Words(a) + Words(b)
    decreases |a|
  {
    hide IsLetter;
    if a == "" {
      assert a + b == b;
    } else if !IsLetter(a[0]) {
      WordsJoin(a[1..], b);
      assert (a + b)[1..] == a[1..] + b;
    } else {
      var n := LetterLength(a);
      LetterLengthJoin(a, b);
      WordsJoin(a[n..], b);
      assert (a + b)[..n] == a[..n] && (a + b)[n..] == a[n..] + b;
    }
  }

  // ----- What is to be redacted -----

  /** Word `k` lies among three consecutive listed words. */
  predicate Exposed(words: set<string>, ws: seq<string>, k: nat) {
    exists i :: k - MNEMONIC_RUN < i <= k && Window(words, ws, i)
  }

  predicate Window(words: set<string>, ws: seq<string>, i: int) {
    0 <= i <= |ws| - MNEMONIC_RUN && forall d :: i <= d < i + MNEMONIC_RUN ==> Listed(words, ws[d])
  }

  /** No run of three or more consecutive listed words. */
  ghost predicate Clean(words: set<string>, ws: seq<string>) { forall i :: !Window(words, ws, i) }

  function Run(words: set<string>, ws: seq<string>): (r: nat)
    ensures r <= |ws| && forall d :: 0 <= d < r ==> Listed(words, ws[d])
    ensures r < |ws| ==> !Listed(words, ws[r])
  {
    if ws != [] && Listed(words, ws[0]) then 1 + Run(words, ws[1..]) else 0
  }

  /** The words after redaction, run by run. */
  function Collapsed(words: set<string>, ws: seq<string>): seq<string>
    decreases |ws|
  {
    var r := Run(words, ws);
    if ws == [] then []
    else if r == 0 then [ws[0]] + Collapsed(words, ws[1..])
    else (if r >= MNEMONIC_RUN then ["redacted"] else ws[..r]) + Collapsed(words, ws[r..])
  }

  /** A match of the word pattern: where it starts and what it is. */
  datatype Match = Match(index: nat, text: string)
  {
    function End(): nat { index + |text| }
  }

  function Matches(s: string, i: nat): seq<Match>
    requires i <= |s|
    decreases |s| - i
  {
    if i == |s| then []
    else if !IsLetter(s[i]) then Matches(s, i + 1)
    else
      var n := LetterLength(s[i..]);
      [Match(i, s[i..i + n])] + Matches(s, i + n)
  }

  function Texts(ms: seq<Match>): (r: seq<string>)
    ensures |r| == |ms| && forall k :: 0 <= k < |ms| ==> r[k] == ms[k].text
  {
    seq(|ms|, k requires 0 <= k < |ms| => ms[k].text)
  }

  lemma WordsUnfold(s: string)
    requires s != ""
    ensures Words(s) == if !IsLetter(s[0]) then Words(s[1..]) else [s[..LetterLength(s)]] + Words(s[LetterLength(s)..])
  {
  }

  lemma TextsCons(m: Match, ms: seq<Match>)
    ensures Texts([m] + ms) == [m.text] + Texts(ms)
  {
  }

  lemma MatchesUnfold(s: string, i: nat)
    requires i < |s|
    ensures var n := LetterLength(s[i..]);
      n <= |s| - i && (IsLetter(s[i]) ==> n > 0)
      && Matches(s, i) == if !IsLetter(s[i]) then Matches(s, i + 1) else [Match(i, s[i..i + n])] + Matches(s, i + n)
  {
  }

  lemma Slices(s: string, i: nat, n: nat)
    requires i < |s| && n <= |s| - i
    ensures s[i..][0] == s[i] && s[i..][n..] == s[i + n..] && s[i..][..n] == s[i..i + n]
  {
  }

  lemma {:induction false} MatchesAreWords(s: string, i: nat)
    requires i <= |s|
    ensures Texts(Matches(s, i)) == Words(s[i..])
    decreases |s| - i
  {
    if i < |s| {
      hide *;
      MatchesUnfold(s, i);
      WordsUnfold(s[i..]);
      var n := LetterLength(s[i..]);
      if !IsLetter(s[i]) {
        Slices(s, i, 1);
        MatchesAreWords(s, i + 1);
      } else {
        Slices(s, i, n);
        MatchesAreWords(s, i + n);
        TextsCons(Match(i, s[i..i + n]), Matches(s, i + n));
      }
    }
  }

  /** The matches left at a place that is no letter of a word already passed: in order, whole, and separated. */
  predicate Laid(s: string, from: nat, ms: seq<Match>) {
    && from <= |s|
    && (forall k :: 0 <= k < |ms| ==>
      from <= ms[k].index && ms[k].text != "" && ms[k].End() <= |s| && ms[k].text == s[ms[k].index..ms[k].End()])
    && (forall k :: 0 <= k < |ms| && ms[k].End() < |s| ==> !IsLetter(s[ms[k].End()]))
    && (forall j, k :: 0 <= j < k < |ms| ==> ms[j].End() < ms[k].index)
  }

  lemma LaidCons(s: string, from: nat, m: Match, rest: seq<Match>)
    requires Laid(s, m.End(), rest) && from <= m.index && m.text != "" && m.text == s[m.index..m.End()]
    requires m.End() < |s| ==> !IsLetter(s[m.End()])
    requires forall k :: 0 <= k < |rest| ==> m.End() < rest[k].index
    ensures Laid(s, from, [m] + rest)
  {
    hide IsLetter;
    var ms := [m] + rest;
    assert forall k :: 0 < k < |ms| ==> ms[k] == rest[k - 1];
  }

  lemma {:induction false} MatchesLaid(s: string, i: nat)
    requires i <= |s|
    ensures Laid(s, i, Matches(s, i))
    ensures i < |s| && !IsLetter(s[i]) ==> forall k :: 0 <= k < |Matches(s, i)| ==> i < Matches(s, i)[k].index
    decreases |s| - i
  {
    hide IsLetter, Laid;
    if i == |s| {
      LaidNone(s);
    } else if !IsLetter(s[i]) {
      MatchesLaid(s, i + 1);
      LaidFrom(s, i + 1, i, Matches(s, i + 1));
    } else {
      var n := LetterLength(s[i..]);
      MatchesLaid(s, i + n);
      assert i + n < |s| ==> !IsLetter(s[i..][n]);
      LaidCons(s, i, Match(i, s[i..i + n]), Matches(s, i + n));
    }
  }

  lemma LaidNone(s: string)
    ensures Laid(s, |s|, [])
  {
  }

  lemma LaidFrom(s: string, a: nat, b: nat, ms: seq<Match>)
    requires Laid(s, a, ms) && b <= a
    ensures Laid(s, b, ms) && forall k :: 0 <= k < |ms| ==> a <= ms[k].index
  {
  }

  /** Where match `k` leaves off the one before it. */
  function From(ms: seq<Match>, k: nat): nat
    requires k <= |ms|
  {
    if k == 0 then 0 else ms[k - 1].End()
  }

  /** Redaction word by word, from word `k` on: an exposed word goes, and the first of its run leaves the mark; all else
      stays. */
  function Redacted(words: set<string>, s: string, ms: seq<Match>, k: nat): string
    requires k <= |ms| && Laid(s, 0, ms)
    decreases |ms| - k
  {
    if k == |ms| then s[From(ms, k)..]
    else if !Exposed(words, Texts(ms), k) then s[From(ms, k)..ms[k].End()] + Redacted(words, s, ms, k + 1)
    else
      (if k > 0 && Exposed(words, Texts(ms), k - 1) then "" else s[From(ms, k)..ms[k].index] + MARK)
        + Redacted(words, s, ms, k + 1)
  }

  /** The message with exactly its runs of three or more listed words replaced. */
  function Redact(words: set<string>, message: string): string {
    MatchesLaid(message, 0);
    Redacted(words, message, Matches(message, 0), 0)
  }

  // ----- Run by run -----

  /** A run begins at word `k`. */
  predicate Boundary(words: set<string>, ws: seq<string>, k: nat) {
    k <= |ws| && (k == 0 || !Listed(words, ws[k - 1]) || k == |ws| || !Listed(words, ws[k]))
  }

  /** From a boundary on, a run is exposed as a whole or not at all, according to its length. */
  lemma RunIsExposed(words: set<string>, ws: seq<string>, k: nat, r: nat, d: nat)
    requires Boundary(words, ws, k) && r == Run(words, ws[k..]) && k <= d < k + r
    ensures Exposed(words, ws, d) <==> r >= MNEMONIC_RUN
  {
    hide Listed;
    var run := ws[k..];
    forall e | k <= e < k + r ensures Listed(words, ws[e]) { assert run[e - k] == ws[e]; }
    if k + r < |ws| { assert run[r] == ws[k + r]; }
    if r > 0 { assert k == 0 || !Listed(words, ws[k - 1]); }
    if r >= MNEMONIC_RUN {
      var i := if d + MNEMONIC_RUN <= k + r then d else k + r - MNEMONIC_RUN;
      assert Window(words, ws, i);
    } else {
      forall i | d - MNEMONIC_RUN < i <= d ensures !Window(words, ws, i) {
        if 0 <= i < k { assert !Listed(words, ws[k - 1]); } else if k + r < |ws| { assert !Listed(words, ws[k + r]); }
      }
    }
  }

  lemma UnlistedIsNotExposed(words: set<string>, ws: seq<string>, k: nat)
    requires k < |ws| && !Listed(words, ws[k])
    ensures !Exposed(words, ws, k)
  {
    hide Listed;
  }

  /** A long run from word `k` on leaves one mark. */
  lemma {:induction false} LongRun(words: set<string>, s: string, ms: seq<Match>, k: nat, r: nat, d: nat)
    requires Laid(s, 0, ms) && Boundary(words, Texts(ms), k) && r == Run(words, Texts(ms)[k..])
    requires r >= MNEMONIC_RUN && k < d <= k + r
    ensures Redacted(words, s, ms, d) == Redacted(words, s, ms, k + r)
    decreases k + r - d
  {
    hide Laid, Listed, Run;
    if d < k + r {
      RunIsExposed(words, Texts(ms), k, r, d);
      RunIsExposed(words, Texts(ms), k, r, d - 1);
      LongRun(words, s, ms, k, r, d + 1);
    }
  }

  /** Pieces of the message put side by side. */
  lemma Splice(out: string, s: string, a: nat, b: nat, c: nat, rest: string)
    requires a <= b <= c <= |s|
    ensures out + s[a..b] + (s[b..c] + rest) == out + s[a..c] + rest
    ensures out + s[a..b] + (s[b..c] + MARK + rest) == (out + s[a..c] + MARK) + s[c..c] + rest
  {
    assert s[a..b] + s[b..c] == s[a..c];
  }

  lemma Join(s: string, a: nat, b: nat, c: nat, whole: string, mid: string, rest: string)
    requires a <= b <= c <= |s| && whole == s[a..b] + mid && mid == s[b..c] + rest
    ensures whole == s[a..c] + rest
  {
    assert s[a..b] + s[b..c] == s[a..c];
  }

  lemma Nothing(s: string, a: nat, rest: string)
    requires a <= |s|
    ensures rest == s[a..a] + rest
  {
  }

  lemma Kept(words: set<string>, s: string, ms: seq<Match>, k: nat)
    requires Laid(s, 0, ms) && k < |ms| && !Exposed(words, Texts(ms), k)
    ensures From(ms, k) <= From(ms, k + 1) <= |s|
    ensures Redacted(words, s, ms, k) == s[From(ms, k)..From(ms, k + 1)] + Redacted(words, s, ms, k + 1)
  {
    hide Exposed;
    FromGrows(s, ms, k);
  }

  ghost predicate NoneExposed(words: set<string>, ws: seq<string>, d: nat, e: nat) {
    forall i :: d <= i < e ==> !Exposed(words, ws, i)
  }

  lemma FromFits(s: string, ms: seq<Match>, k: nat)
    requires Laid(s, 0, ms) && k <= |ms|
    ensures From(ms, k) <= |s|
  {
  }

  /** Words that are not exposed stay, with all around them. */
  lemma {:induction false} KeptRange(words: set<string>, s: string, ms: seq<Match>, d: nat, e: nat)
    requires Laid(s, 0, ms) && d <= e <= |ms| && NoneExposed(words, Texts(ms), d, e)
    ensures From(ms, d) <= From(ms, e) <= |s|
    ensures Redacted(words, s, ms, d) == s[From(ms, d)..From(ms, e)] + Redacted(words, s, ms, e)
    decreases e - d
  {
    hide Laid, Exposed, Redacted, From, Texts;
    FromFits(s, ms, e);
    if d == e {
      Nothing(s, From(ms, e), Redacted(words, s, ms, e));
    } else {
      Kept(words, s, ms, d);
      KeptRange(words, s, ms, d + 1, e);
      Join(s, From(ms, d), From(ms, d + 1), From(ms, e), Redacted(words, s, ms, d), Redacted(words, s, ms, d + 1),
        Redacted(words, s, ms, e));
    }
  }

  lemma ShortRunKept(words: set<string>, ws: seq<string>, k: nat, r: nat)
    requires Boundary(words, ws, k) && r == Run(words, ws[k..]) && r < MNEMONIC_RUN
    ensures k + r <= |ws| && NoneExposed(words, ws, k, k + r)
  {
    assert k + r <= |ws|;
    hide Exposed, Listed, Boundary, Run;
    forall d | k <= d < k + r ensures !Exposed(words, ws, d) { RunIsExposed(words, ws, k, r, d); }
  }

  /** A short run stays as it is. */
  lemma ShortRun(words: set<string>, s: string, ms: seq<Match>, k: nat, r: nat)
    requires Laid(s, 0, ms) && Boundary(words, Texts(ms), k) && r == Run(words, Texts(ms)[k..]) && r < MNEMONIC_RUN
    ensures k + r <= |ms| && From(ms, k) <= From(ms, k + r) <= |s|
    ensures Redacted(words, s, ms, k) == s[From(ms, k)..From(ms, k + r)] + Redacted(words, s, ms, k + r)
  {
    hide *;
    ShortRunKept(words, Texts(ms), k, r);
    KeptRange(words, s, ms, k, k + r);
  }

  lemma FromGrows(s: string, ms: seq<Match>, k: nat)
    requires Laid(s, 0, ms) && k < |ms|
    ensures From(ms, k) <= ms[k].index < From(ms, k + 1) == ms[k].End() <= |s|
    ensures k > 0 ==> From(ms, k) < ms[k].index
  {
  }

  /** After `k` words, `out` and the message from `cursor` to the last of them are the result so far. */
  ghost predicate Written(words: set<string>, message: string, ms: seq<Match>, k: nat, out: string, cursor: nat)
    requires Laid(message, 0, ms) && k <= |ms|
  {
    && Boundary(words, Texts(ms), k) && cursor <= From(ms, k) <= |message|
    && Redact(words, message) == out + message[cursor..From(ms, k)] + Redacted(words, message, ms, k)
  }

  method RedactMnemonicRuns(message: string, words: set<string>) returns (r: string)
    ensures r == Redact(words, message)
  {
    hide Listed, Run, RunFrom, Laid, Written, Matches;
    var tokens := Matches(message, 0);
    Opens(words, message);
    ghost var ws := Texts(tokens);
    var out, cursor: nat, i: nat := "", 0, 0;
    while i < |tokens|
      invariant 0 <= i <= |tokens| && Written(words, message, tokens, i, out, cursor)
    {
      if !Listed(words, tokens[i].text) {
        WritesUnlisted(words, message, tokens, i, out, cursor);
        i := i + 1;
        continue;
      }
      var j := i;
      while j < |tokens| && Listed(words, tokens[j].text)
        invariant i <= j <= |tokens| && j - i + RunFrom(words, ws, j) == RunFrom(words, ws, i)
      {
        RunStep(words, ws, j);
        j := j + 1;
      }
      RunStop(words, ws, j);
      RunStep(words, ws, i);
      WritesRun(words, message, tokens, i, j - i, out, cursor);
      if j - i >= MNEMONIC_RUN {
        var start, end := tokens[i].index, tokens[j - 1].End();
        out := out + message[cursor..start] + MARK;
        cursor := end;
      }
      i := j;
    }
    WritesEnd(words, message, tokens, out, cursor);
    r := out + message[cursor..];
  }

  lemma WritesUnlisted(words: set<string>, message: string, ms: seq<Match>, k: nat, out: string, cursor: nat)
    requires Laid(message, 0, ms) && k < |ms| && Written(words, message, ms, k, out, cursor)
    requires !Listed(words, ms[k].text)
    ensures Written(words, message, ms, k + 1, out, cursor)
  {
    hide Listed, Laid, Redacted, Redact, From, Boundary;
    Passes(words, message, ms, k);
    Splice(out, message, cursor, From(ms, k), From(ms, k + 1), Redacted(words, message, ms, k + 1));
  }

  lemma WritesRun(words: set<string>, message: string, ms: seq<Match>, k: nat, r: nat, out: string, cursor: nat)
    requires Laid(message, 0, ms) && k < |ms| && Written(words, message, ms, k, out, cursor)
    requires r == RunFrom(words, Texts(ms), k) && r > 0
    ensures k + r <= |ms|
    ensures if r < MNEMONIC_RUN then Written(words, message, ms, k + r, out, cursor)
      else cursor <= ms[k].index <= |message|
           && Written(words, message, ms, k + r, out + message[cursor..ms[k].index] + MARK, ms[k + r - 1].End())
  {
    hide Listed, Laid, Redacted, Redact, From, Boundary, RunFrom;
    var ws := Texts(ms);
    AfterRun(words, ws, k, r);
    if r < MNEMONIC_RUN {
      Stays(words, message, ms, k, r);
      Splice(out, message, cursor, From(ms, k), From(ms, k + r), Redacted(words, message, ms, k + r));
    } else {
      Cuts(words, message, ms, k, r);
      var start, end := ms[k].index, From(ms, k + r);
      Splice(out, message, cursor, From(ms, k), start, Redacted(words, message, ms, k + r));
      assert message[end..end] == message[start..start];
    }
  }

  lemma WritesEnd(words: set<string>, message: string, ms: seq<Match>, out: string, cursor: nat)
    requires Laid(message, 0, ms) && Written(words, message, ms, |ms|, out, cursor)
    ensures cursor <= |message| && out + message[cursor..] == Redact(words, message)
  {
    hide Laid, Redacted, Redact, From, Boundary;
    AtEnd(words, message, ms);
    var from := From(ms, |ms|);
    assert message[cursor..from] + message[from..] == message[cursor..];
    assert out + message[cursor..from] + message[from..] == out + (message[cursor..from] + message[from..]);
  }

  lemma Opens(words: set<string>, message: string)
    ensures var ms := Matches(message, 0);
      Laid(message, 0, ms) && Written(words, message, ms, 0, "", 0)
  {
    MatchesLaid(message, 0);
    var r := Redacted(words, message, Matches(message, 0), 0);
    assert "" + message[0..0] + r == r;
  }

  lemma Stays(words: set<string>, s: string, ms: seq<Match>, k: nat, r: nat)
    requires Laid(s, 0, ms) && Boundary(words, Texts(ms), k) && r == RunFrom(words, Texts(ms), k)
    requires 0 < r < MNEMONIC_RUN
    ensures k + r <= |ms| && From(ms, k) <= From(ms, k + r) <= |s|
    ensures Redacted(words, s, ms, k) == s[From(ms, k)..From(ms, k + r)] + Redacted(words, s, ms, k + r)
  {
    ShortRun(words, s, ms, k, r);
  }

  ghost function RunFrom(words: set<string>, ws: seq<string>, j: nat): nat
    requires j <= |ws|
  {
    Run(words, ws[j..])
  }

  lemma RunStep(words: set<string>, ws: seq<string>, j: nat)
    requires j < |ws| && Listed(words, ws[j])
    ensures RunFrom(words, ws, j) == 1 + RunFrom(words, ws, j + 1)
  {
    assert ws[j..][1..] == ws[j + 1..];
  }

  lemma RunStop(words: set<string>, ws: seq<string>, j: nat)
    requires j == |ws| || (j < |ws| && !Listed(words, ws[j]))
    ensures RunFrom(words, ws, j) == 0
  {
  }

  lemma AfterRun(words: set<string>, ws: seq<string>, k: nat, r: nat)
    requires k <= |ws| && r == RunFrom(words, ws, k)
    ensures k + r <= |ws| && Boundary(words, ws, k + r)
  {
    hide Listed;
    if k + r < |ws| { assert ws[k..][r] == ws[k + r]; }
  }

  lemma Passes(words: set<string>, s: string, ms: seq<Match>, k: nat)
    requires Laid(s, 0, ms) && k < |ms| && !Listed(words, ms[k].text)
    ensures From(ms, k) <= From(ms, k + 1) <= |s| && Boundary(words, Texts(ms), k + 1)
    ensures Redacted(words, s, ms, k) == s[From(ms, k)..From(ms, k + 1)] + Redacted(words, s, ms, k + 1)
  {
    hide Listed, Exposed;
    FromGrows(s, ms, k);
    UnlistedIsNotExposed(words, Texts(ms), k);
  }

  lemma Cuts(words: set<string>, s: string, ms: seq<Match>, k: nat, r: nat)
    requires Laid(s, 0, ms) && k < |ms| && Boundary(words, Texts(ms), k) && r == RunFrom(words, Texts(ms), k)
    requires r >= MNEMONIC_RUN
    ensures From(ms, k) <= ms[k].index <= |s| && k + r <= |ms| && From(ms, k + r) == ms[k + r - 1].End() <= |s|
    ensures Redacted(words, s, ms, k) == s[From(ms, k)..ms[k].index] + MARK + Redacted(words, s, ms, k + r)
  {
    hide Exposed;
    FromGrows(s, ms, k);
    RunIsExposed(words, Texts(ms), k, r, k);
    assert Texts(ms)[k..][0] == ms[k].text;
    if k > 0 { UnlistedIsNotExposed(words, Texts(ms), k - 1); }
    LongRun(words, s, ms, k, r, k + 1);
  }

  lemma AtEnd(words: set<string>, s: string, ms: seq<Match>)
    requires Laid(s, 0, ms)
    ensures From(ms, |ms|) <= |s| && Redacted(words, s, ms, |ms|) == s[From(ms, |ms|)..]
  {
  }

  // ----- Complete, minimal, stable -----

  lemma {:induction false} LaterMatches(s: string, i: nat, k: nat)
    requires i <= |s| && 0 < k <= |Matches(s, i)|
    ensures var e := Matches(s, i)[k - 1].End(); e <= |s| && Matches(s, e) == Matches(s, i)[k..]
    decreases |s| - i
  {
    if !IsLetter(s[i]) {
      LaterMatches(s, i + 1, k);
    } else {
      var n := LetterLength(s[i..]);
      if k > 1 { LaterMatches(s, i + n, k - 1); }
    }
  }

  lemma {:induction false} FirstGap(s: string, i: nat)
    requires i <= |s| && Matches(s, i) != []
    ensures forall p :: i <= p < Matches(s, i)[0].index && p < |s| ==> !IsLetter(s[p])
    decreases |s| - i
  {
    if !IsLetter(s[i]) { FirstGap(s, i + 1); }
  }

  lemma {:induction false} NoLetterNoWord(s: string)
    requires forall p :: 0 <= p < |s| ==> !IsLetter(s[p])
    ensures Words(s) == []
  {
    if s != "" { NoLetterNoWord(s[1..]); }
  }

  /** The text from the end of a match on: its words, and that it does not begin with a letter. */
  lemma TailWords(s: string, k: nat)
    requires k <= |Matches(s, 0)|
    ensures var ms := Matches(s, 0);
      From(ms, k) <= |s| && Words(s[From(ms, k)..]) == Texts(ms)[k..]
        && (k > 0 && From(ms, k) < |s| ==> !IsLetter(s[From(ms, k)]))
  {
    hide Matches, Words, IsLetter;
    var ms := Matches(s, 0);
    MatchesLaid(s, 0);
    if k > 0 { LaterMatches(s, 0, k); }
    MatchesAreWords(s, From(ms, k));
    assert Texts(ms[k..]) == Texts(ms)[k..];
  }

  lemma SplitWords(s: string, a: nat, b: nat)
    requires a <= b <= |s| && (b < |s| ==> !IsLetter(s[b]))
    ensures Words(s[a..]) == Words(s[a..b]) + Words(s[b..])
  {
    hide Words;
    assert s[a..] == s[a..b] + s[b..];
    WordsJoin(s[a..b], s[b..]);
  }

  lemma Cancels(x: seq<string>, ws: seq<string>, k: nat, m: nat)
    requires k <= m <= |ws| && ws[k..] == x + ws[m..]
    ensures x == ws[k..m]
  {
    forall i | 0 <= i < |x| ensures x[i] == ws[k + i] { assert ws[k..][i] == (x + ws[m..])[i]; }
  }

  lemma SliceWords(s: string, k: nat, m: nat)
    requires k < m <= |Matches(s, 0)|
    ensures var ms := Matches(s, 0);
      From(ms, k) <= From(ms, m) <= |s| && Words(s[From(ms, k)..From(ms, m)]) == Texts(ms)[k..m]
  {
    hide Matches, IsLetter, Words;
    var ms := Matches(s, 0);
    MatchesLaid(s, 0);
    FromGrows(s, ms, m - 1);
    var a, b := From(ms, k), From(ms, m);
    assert a <= b;
    hide Laid, From;
    TailWords(s, k);
    TailWords(s, m);
    SplitWords(s, a, b);
    Cancels(Words(s[a..b]), Texts(ms), k, m);
  }

  lemma GapWords(s: string, k: nat)
    requires k < |Matches(s, 0)|
    ensures var ms := Matches(s, 0);
      From(ms, k) <= ms[k].index <= |s| && Words(s[From(ms, k)..ms[k].index]) == []
  {
    hide IsLetter, Words;
    var ms := Matches(s, 0);
    MatchesLaid(s, 0);
    FromGrows(s, ms, k);
    if k > 0 { LaterMatches(s, 0, k); }
    FirstGap(s, From(ms, k));
    NoLetterNoWord(s[From(ms, k)..ms[k].index]);
  }

  lemma MarkWords(gap: string, rest: string)
    requires Words(gap) == [] && (rest == "" || !IsLetter(rest[0]))
    ensures Words(gap + MARK + rest) == ["redacted"] + Words(rest)
  {
    hide Words, LetterLength;
    WordsJoin(gap, MARK);
    WordsJoin(gap + MARK, rest);
    WordsOfMark();
  }

  lemma WordsOfMark()
    ensures Words(MARK) == ["redacted"]
  {
    var w := "redacted";
    WholeWord(w);
    NoLetterNoWord("]");
    assert MARK[0] == '[' && MARK[1..] == w + "]";
    assert Words(MARK) == Words(w + "]");
    hide Words, LetterLength;
    WordsJoin(w, "]");
  }

  lemma WholeWord(s: string)
    requires s != "" && forall i :: 0 <= i < |s| ==> IsLetter(s[i])
    ensures Words(s) == [s]
  {
    hide IsLetter;
    AllLetters(s);
    assert s[..|s|] == s && s[|s|..] == "";
  }

  lemma {:induction false} AllLetters(s: string)
    requires forall i :: 0 <= i < |s| ==> IsLetter(s[i])
    ensures LetterLength(s) == |s|
  {
    if s != "" { AllLetters(s[1..]); }
  }

  /** The words of the result are the words of the message with every run of three or more listed ones become one
      mark. */
  ghost predicate RightFrom(words: set<string>, s: string, k: nat)
    requires k <= |Matches(s, 0)| && Laid(s, 0, Matches(s, 0))
  {
    var t := Redacted(words, s, Matches(s, 0), k);
    Words(t) == Collapsed(words, Texts(Matches(s, 0))[k..]) && (k > 0 && t != "" ==> !IsLetter(t[0]))
  }

  lemma {:induction false} RedactedWords(words: set<string>, s: string, k: nat)
    requires k <= |Matches(s, 0)| && Laid(s, 0, Matches(s, 0)) && Boundary(words, Texts(Matches(s, 0)), k)
    ensures RightFrom(words, s, k)
    decreases |Matches(s, 0)| - k
  {
    hide Listed, IsLetter, Laid, Redacted, Exposed, Boundary, Words, Matches, RightFrom, Run;
    var ms := Matches(s, 0);
    var ws := Texts(ms);
    if k == |ms| {
      RightAtEnd(words, s);
    } else if !Listed(words, ms[k].text) {
      Passes(words, s, ms, k);
      RedactedWords(words, s, k + 1);
      RightUnlisted(words, s, k);
    } else {
      RunStep(words, ws, k);
      var r := RunFrom(words, ws, k);
      AfterRun(words, ws, k, r);
      RedactedWords(words, s, k + r);
      RightRun(words, s, k, r);
    }
  }

  lemma RightAtEnd(words: set<string>, s: string)
    requires Laid(s, 0, Matches(s, 0))
    ensures RightFrom(words, s, |Matches(s, 0)|)
  {
    hide Laid, Redacted, Words, Matches;
    TailWords(s, |Matches(s, 0)|);
    AtEnd(words, s, Matches(s, 0));
  }

  lemma RightUnlisted(words: set<string>, s: string, k: nat)
    requires k < |Matches(s, 0)| && Laid(s, 0, Matches(s, 0)) && !Listed(words, Matches(s, 0)[k].text)
    requires RightFrom(words, s, k + 1)
    ensures RightFrom(words, s, k)
  {
    hide Listed, IsLetter, Laid, Redacted, Exposed, Boundary, Words, Matches;
    var ms := Matches(s, 0);
    var ws := Texts(ms);
    Passes(words, s, ms, k);
    KeptWords(words, s, k, k + 1);
    assert ws[k..][0] == ms[k].text && ws[k..][1..] == ws[k + 1..] && ws[k..k + 1] == [ws[k]];
  }

  lemma RightRun(words: set<string>, s: string, k: nat, r: nat)
    requires Laid(s, 0, Matches(s, 0)) && Boundary(words, Texts(Matches(s, 0)), k)
    requires r == RunFrom(words, Texts(Matches(s, 0)), k)
    requires r > 0 && k + r <= |Matches(s, 0)| && RightFrom(words, s, k + r)
    ensures RightFrom(words, s, k)
  {
    hide Listed, IsLetter, Laid, Redacted, Exposed, Boundary, Words, Matches;
    var ms := Matches(s, 0);
    var ws := Texts(ms);
    assert ws[k..][r..] == ws[k + r..];
    FromGrows(s, ms, k);
    if r >= MNEMONIC_RUN {
      Cuts(words, s, ms, k, r);
      GapWords(s, k);
      MarkWords(s[From(ms, k)..ms[k].index], Redacted(words, s, ms, k + r));
      TailWords(s, k);
    } else {
      Stays(words, s, ms, k, r);
      KeptWords(words, s, k, k + r);
      assert ws[k..][..r] == ws[k..k + r];
    }
  }

  lemma KeptWords(words: set<string>, s: string, k: nat, m: nat)
    requires k < m <= |Matches(s, 0)| && Laid(s, 0, Matches(s, 0))
    requires From(Matches(s, 0), k) <= From(Matches(s, 0), m) <= |s|
    requires var t := Redacted(words, s, Matches(s, 0), m); t != "" ==> !IsLetter(t[0])
    ensures var ms := Matches(s, 0);
      var t := s[From(ms, k)..From(ms, m)] + Redacted(words, s, ms, m);
      Words(t) == Texts(ms)[k..m] + Words(Redacted(words, s, ms, m)) && (k > 0 ==> t == "" || !IsLetter(t[0]))
  {
    hide IsLetter, Laid, Redacted, Words, Matches;
    var ms := Matches(s, 0);
    SliceWords(s, k, m);
    TailWords(s, k);
    FromGrows(s, ms, k);
    WordsJoin(s[From(ms, k)..From(ms, m)], Redacted(words, s, ms, m));
  }

  lemma {:induction false} CollapsedIsClean(words: set<string>, ws: seq<string>)
    ensures Clean(words, Collapsed(words, ws))
    ensures ws != [] && !Listed(words, ws[0]) ==> Collapsed(words, ws) != [] && Collapsed(words, ws)[0] == ws[0]
    decreases |ws|
  {
    hide Listed;
    if ws != [] {
      var r := Run(words, ws);
      var a := if r == 0 then [ws[0]] else if r >= MNEMONIC_RUN then ["redacted"] else ws[..r];
      var rest := if r == 0 then ws[1..] else ws[r..];
      CollapsedIsClean(words, rest);
      var b := Collapsed(words, rest);
      assert Collapsed(words, ws) == a + b;
      forall i ensures !Window(words, a + b, i) { NoWindow(words, ws, r, a, b, i); }
    }
  }

  lemma NoWindow(words: set<string>, ws: seq<string>, r: nat, a: seq<string>, b: seq<string>, i: int)
    requires 0 < |a| < MNEMONIC_RUN && Clean(words, b)
    requires (!Listed(words, a[0]) && |a| == 1) || b == [] || !Listed(words, b[0])
    ensures !Window(words, a + b, i)
  {
    hide Listed;
    var all := a + b;
    if |a| <= i <= |all| - MNEMONIC_RUN {
      assert !Window(words, b, i - |a|);
      var d :| i - |a| <= d < i - |a| + MNEMONIC_RUN && !Listed(words, b[d]);
      assert all[d + |a|] == b[d];
    } else if 0 <= i <= |all| - MNEMONIC_RUN {
      var d := if |a| == 1 && !Listed(words, a[0]) then 0 else |a|;
      assert i <= d < i + MNEMONIC_RUN && !Listed(words, all[d]);
    }
  }

  /** Complete: no three consecutive listed words are left, even if "redacted" is itself a listed word. */
  lemma RedactionIsComplete(words: set<string>, message: string)
    ensures Clean(words, Words(Redact(words, message)))
    ensures Words(Redact(words, message)) == Collapsed(words, Words(message))
  {
    hide Collapsed, Redacted, Words;
    MatchesLaid(message, 0);
    assert RightFrom(words, message, 0) by { RedactedWords(words, message, 0); }
    MatchesAreWords(message, 0);
    assert message[0..] == message;
    var ws := Texts(Matches(message, 0));
    assert ws[0..] == ws;
    CollapsedIsClean(words, ws);
  }

  lemma CleanKeeps(words: set<string>, ws: seq<string>, k: nat)
    requires Clean(words, ws)
    ensures !Exposed(words, ws, k)
  {
    hide Listed, Window;
  }

  lemma CleanStays(words: set<string>, s: string, ms: seq<Match>)
    requires Laid(s, 0, ms) && Clean(words, Texts(ms))
    ensures Redacted(words, s, ms, 0) == s
  {
    hide Laid, Exposed, Redacted, Texts, Clean;
    forall d | 0 <= d < |ms| ensures !Exposed(words, Texts(ms), d) { CleanKeeps(words, Texts(ms), d); }
    KeptRange(words, s, ms, 0, |ms|);
    AtEnd(words, s, ms);
    assert s[..From(ms, |ms|)] + s[From(ms, |ms|)..] == s;
  }

  /** Minimal: a message is changed exactly when it holds three consecutive listed words. So a second pass changes
      nothing. */
  lemma OnlyRunsAreRedacted(words: set<string>, message: string)
    ensures Redact(words, message) == message <==> Clean(words, Words(message))
    ensures var ws := Words(message);
      Clean(words, ws) <==> forall i :: 0 <= i < |ws| - 2 ==>
        !(Listed(words, ws[i]) && Listed(words, ws[i + 1]) && Listed(words, ws[i + 2]))
    ensures Redact(words, Redact(words, message)) == Redact(words, message)
  {
    hide Redacted, Words, Collapsed, Clean;
    LeftAlone(words, message);
    RedactionIsComplete(words, message);
    LeftAlone(words, Redact(words, message));
    CleanIs(words, Words(message));
  }

  lemma CleanIs(words: set<string>, ws: seq<string>)
    ensures Clean(words, ws) <==> forall i :: 0 <= i < |ws| - 2 ==>
      !(Listed(words, ws[i]) && Listed(words, ws[i + 1]) && Listed(words, ws[i + 2]))
  {
    hide Listed;
    if i :| 0 <= i < |ws| - 2 && Listed(words, ws[i]) && Listed(words, ws[i + 1]) && Listed(words, ws[i + 2]) {
      assert Window(words, ws, i);
    }
    if i :| Window(words, ws, i) {
      assert Listed(words, ws[i]) && Listed(words, ws[i + 1]) && Listed(words, ws[i + 2]);
    }
  }

  lemma LeftAlone(words: set<string>, message: string)
    ensures Clean(words, Words(message)) ==> Redact(words, message) == message
  {
    hide Redacted, Words;
    MatchesLaid(message, 0);
    MatchesAreWords(message, 0);
    assert message[0..] == message;
    if Clean(words, Words(message)) { CleanStays(words, message, Matches(message, 0)); }
  }

  // ----- What is left around a run -----

  /** No word of `s` reaches across place `i`. */
  predicate Break(s: string, i: nat) { i <= |s| && (0 < i < |s| ==> !IsLetter(s[i - 1]) || !IsLetter(s[i])) }

  /** The matches from `j` on are those that end by `i` and those from `i` on. */
  ghost predicate Upto(s: string, j: nat, i: nat, ms: seq<Match>)
    requires j <= i <= |s|
  {
    && Matches(s, j) == ms + Matches(s, i) && Texts(ms) == Words(s[j..i])
    && (j < i && IsLetter(s[i - 1]) ==> ms != [] && ms[|ms| - 1].End() == i)
  }

  lemma UptoGap(s: string, j: nat, i: nat, ms: seq<Match>)
    requires j < i <= |s| && !IsLetter(s[j]) && Upto(s, j + 1, i, ms)
    ensures Upto(s, j, i, ms)
  {
    hide Words, Texts;
    WordsUnfold(s[j..i]);
    MatchesUnfold(s, j);
    assert s[j..i][1..] == s[j + 1..i];
  }

  lemma UptoWord(s: string, j: nat, n: nat, i: nat, rest: seq<Match>)
    requires j < i <= |s| && IsLetter(s[j]) && n == LetterLength(s[j..]) == LetterLength(s[j..i]) && 0 < n <= i - j
    requires Upto(s, j + n, i, rest)
    ensures Upto(s, j, i, [Match(j, s[j..j + n])] + rest)
  {
    hide Words, Texts, Matches, LetterLength, IsLetter;
    var m := Match(j, s[j..j + n]);
    WordsUnfold(s[j..i]);
    MatchesUnfold(s, j);
    TextsCons(m, rest);
    assert s[j..i][n..] == s[j + n..i] && s[j..i][..n] == s[j..j + n];
    assert [m] + (rest + Matches(s, i)) == ([m] + rest) + Matches(s, i);
    if j + n < i && IsLetter(s[i - 1]) { assert ([m] + rest)[|rest|] == rest[|rest| - 1]; }
  }

  lemma {:induction false} MatchesSplit(s: string, j: nat, i: nat) returns (ms: seq<Match>)
    requires j <= i && Break(s, i)
    ensures Upto(s, j, i, ms)
    decreases i - j
  {
    ms := [];
    if j == i {
      assert s[j..i] == "" && [] + Matches(s, i) == Matches(s, i);
    } else {
      hide Matches, Words, Upto, LetterLength, Texts;
      MatchesUnfold(s, j);
      if !IsLetter(s[j]) {
        ms := MatchesSplit(s, j + 1, i);
        UptoGap(s, j, i, ms);
      } else {
        var n := WordEnds(s, j, i);
        var rest := MatchesSplit(s, j + n, i);
        UptoWord(s, j, n, i, rest);
        ms := [Match(j, s[j..j + n])] + rest;
      }
    }
  }

  /** A word that begins before a break ends by it. */
  lemma WordEnds(s: string, j: nat, i: nat) returns (n: nat)
    requires j < i && Break(s, i) && IsLetter(s[j])
    ensures n == LetterLength(s[j..]) == LetterLength(s[j..i]) && 0 < n <= i - j
  {
    n := LetterLength(s[j..]);
    assert s[j..][i - 1 - j] == s[i - 1] && s[j..][0] == s[j];
    if i < |s| { assert s[j..][i - j] == s[i]; }
    assert s[j..i] + s[i..] == s[j..];
    SameLength(s[j..i], s[i..], n);
  }

  lemma {:induction false} SameLength(a: string, b: string, n: nat)
    requires n == LetterLength(a + b) <= |a|
    ensures LetterLength(a) == n
  {
    if a != "" && IsLetter(a[0]) {
      assert (a + b)[1..] == a[1..] + b;
      SameLength(a[1..], b, n - 1);
    }
  }

  /** All words of a text are listed. */
  predicate AllListed(words: set<string>, ws: seq<string>) { forall d :: 0 <= d < |ws| ==> Listed(words, ws[d]) }

  predicate FirstUnlisted(words: set<string>, ws: seq<string>) { ws != [] ==> !Listed(words, ws[0]) }

  predicate LastUnlisted(words: set<string>, ws: seq<string>) { ws != [] ==> !Listed(words, ws[|ws| - 1]) }

  lemma NoWindowBefore(words: set<string>, a: seq<string>, rest: seq<string>, i: int)
    requires Clean(words, a) && LastUnlisted(words, a) && i < |a|
    ensures !Window(words, a + rest, i)
  {
    hide Listed;
    var ws := a + rest;
    if 0 <= i <= |a| - MNEMONIC_RUN {
      assert !Window(words, a, i);
      var d :| i <= d < i + MNEMONIC_RUN && !Listed(words, a[d]);
      assert ws[d] == a[d];
    } else if 0 <= i {
      assert ws[|a| - 1] == a[|a| - 1];
    }
  }

  lemma NoWindowAfter(words: set<string>, front: seq<string>, b: seq<string>, i: int)
    requires Clean(words, b) && FirstUnlisted(words, b) && |front| < i + MNEMONIC_RUN
    ensures !Window(words, front + b, i)
  {
    hide Listed;
    var ws := front + b;
    if |front| <= i <= |ws| - MNEMONIC_RUN {
      assert !Window(words, b, i - |front|);
      var d :| i - |front| <= d < i - |front| + MNEMONIC_RUN && !Listed(words, b[d]);
      assert ws[d + |front|] == b[d];
    } else if b != [] {
      assert ws[|front|] == b[0];
    }
  }

  lemma NotExposed(words: set<string>, ws: seq<string>, d: nat)
    requires forall i :: d - MNEMONIC_RUN < i <= d ==> !Window(words, ws, i)
    ensures !Exposed(words, ws, d)
  {
    hide Window;
  }

  lemma RunShows(words: set<string>, a: seq<string>, run: seq<string>, b: seq<string>)
    requires LastUnlisted(words, a) && FirstUnlisted(words, b) && AllListed(words, run) && |run| >= 3
    ensures var ws := a + run + b;
      Exposed(words, ws, |a|) && Boundary(words, ws, |a|) && Run(words, ws[|a|..]) == |run|
  {
    hide Listed;
    var ws := a + run + b;
    forall d | |a| <= d < |a| + 3 ensures Listed(words, ws[d]) { assert ws[d] == run[d - |a|]; }
    assert Window(words, ws, |a|);
    assert ws[|a|..] == run + b;
    RunThenRest(words, run, b);
    if a != [] { assert ws[|a| - 1] == a[|a| - 1]; }
  }

  /** Between clean words a run of listed words is exposed, and nothing else is. */
  lemma OnlyTheRun(words: set<string>, a: seq<string>, run: seq<string>, b: seq<string>)
    requires Clean(words, a) && LastUnlisted(words, a) && Clean(words, b) && FirstUnlisted(words, b)
    requires AllListed(words, run) && |run| >= 3
    ensures var ws := a + run + b;
      NoneExposed(words, ws, 0, |a|) && NoneExposed(words, ws, |a| + |run|, |ws|)
  {
    hide Listed, Window, Clean, Exposed;
    var ws := a + run + b;
    assert ws == a + (run + b);
    forall d | 0 <= d < |a| ensures !Exposed(words, ws, d) {
      forall i | d - MNEMONIC_RUN < i <= d ensures !Window(words, ws, i) { NoWindowBefore(words, a, run + b, i); }
      NotExposed(words, ws, d);
    }
    forall d | |a| + |run| <= d < |ws| ensures !Exposed(words, ws, d) {
      forall i | d - MNEMONIC_RUN < i <= d ensures !Window(words, ws, i) { NoWindowAfter(words, a + run, b, i); }
      NotExposed(words, ws, d);
    }
  }

  lemma {:induction false} RunThenRest(words: set<string>, run: seq<string>, b: seq<string>)
    requires AllListed(words, run) && FirstUnlisted(words, b)
    ensures Run(words, run + b) == |run|
  {
    hide Listed;
    if run == [] {
      assert run + b == b;
    } else {
      assert (run + b)[1..] == run[1..] + b;
      RunThenRest(words, run[1..], b);
    }
  }

  lemma Ends(words: set<string>, s: string, ms: seq<Match>, k: nat)
    requires Laid(s, 0, ms) && k < |ms| && Exposed(words, Texts(ms), k) && NoneExposed(words, Texts(ms), 0, k)
    requires From(ms, k) <= ms[k].index <= |s| && From(ms, |ms|) <= |s|
    ensures Redacted(words, s, ms, k) == s[From(ms, k)..ms[k].index] + MARK + Redacted(words, s, ms, k + 1)
    ensures Redacted(words, s, ms, |ms|) == s[From(ms, |ms|)..]
  {
    hide Exposed, Laid;
  }

  lemma BeginsBeforeItEnds(s: string, ms: seq<Match>, k: nat, r: nat)
    requires Laid(s, 0, ms) && k + r <= |ms| && r > 0
    ensures ms[k].index <= ms[k + r - 1].End() == From(ms, k + r)
  {
  }

  lemma Around(s: string, f: nat, i: nat, e: nat, l: nat)
    requires f <= i <= e <= l <= |s|
    ensures s[0..f] + (s[f..i] + MARK + (s[e..l] + s[l..])) == s[..i] + MARK + s[e..]
  {
    assert s[0..f] + s[f..i] == s[..i];
    assert s[e..l] + s[l..] == s[e..];
  }

  /** What `Redacted` makes of matches of which only the run from `k` on is exposed. */
  lemma CutOnce(words: set<string>, s: string, ms: seq<Match>, k: nat, r: nat)
    requires Laid(s, 0, ms) && k + r <= |ms| && r >= 3 && Boundary(words, Texts(ms), k)
    requires Run(words, Texts(ms)[k..]) == r && Exposed(words, Texts(ms), k)
    requires NoneExposed(words, Texts(ms), 0, k) && NoneExposed(words, Texts(ms), k + r, |ms|)
    ensures ms[k].index <= ms[k + r - 1].End() <= |s|
    ensures Redacted(words, s, ms, 0) == s[..ms[k].index] + MARK + s[ms[k + r - 1].End()..]
  {
    hide Listed, Exposed, Window, Run, Texts, Boundary, Laid, Redacted;
    KeptRange(words, s, ms, 0, k);
    FromGrows(s, ms, k);
    LongRun(words, s, ms, k, r, k + 1);
    KeptRange(words, s, ms, k + r, |ms|);
    Ends(words, s, ms, k);
    BeginsBeforeItEnds(s, ms, k, r);
    var f, i, e, l := From(ms, k), ms[k].index, From(ms, k + r), From(ms, |ms|);
    Around(s, f, i, e, l);
  }

  /** `before`, a run and `after` meet where no word reaches across, and the run begins and ends with a word. */
  predicate Meet(before: string, run: string, after: string) {
    && (before != "" ==> !IsLetter(before[|before| - 1])) && (after != "" ==> !IsLetter(after[0]))
    && run != "" && IsLetter(run[0]) && IsLetter(run[|run| - 1])
  }

  lemma TextsJoin(a: seq<Match>, b: seq<Match>, c: seq<Match>)
    ensures Texts(a + b + c) == Texts(a) + Texts(b) + Texts(c)
  {
  }

  lemma Places(before: string, run: string, after: string)
    requires Meet(before, run, after)
    ensures var s, i, e := before + run + after, |before|, |before| + |run|;
      && i < e <= |s| && Break(s, i) && Break(s, e) && IsLetter(s[i]) && IsLetter(s[e - 1])
      && s[..i] == s[0..i] == before && s[i..e] == run && s[e..] == after
  {
    hide IsLetter;
  }

  /** The matches of the three parts. */
  lemma MatchesOfParts(before: string, run: string, after: string) returns (a: seq<Match>, b: seq<Match>, c: seq<Match>)
    requires Meet(before, run, after)
    ensures Matches(before + run + after, 0) == a + b + c
    ensures Texts(a) == Words(before) && Texts(b) == Words(run) && Texts(c) == Words(after)
    ensures b != [] && b[0].index == |before| && b[|b| - 1].End() == |before| + |run|
  {
    hide Words, Texts, Matches, Meet, IsLetter, Break;
    Places(before, run, after);
    var s, i, e := before + run + after, |before|, |before| + |run|;
    a := MatchesSplit(s, 0, i);
    b := MatchesSplit(s, i, e);
    c := Matches(s, e);
    MatchesAreWords(s, e);
    MatchesUnfold(s, i);
    assert (b + c)[0] == b[0];
    assert a + (b + c) == a + b + c;
  }

  /** A run of three or more listed words is cut, from its first letter to its last, and what is around it stays as it
      is, to the character. */
  lemma TheRunIsCut(words: set<string>, before: string, run: string, after: string)
    requires Meet(before, run, after) && AllListed(words, Words(run)) && |Words(run)| >= 3
    requires Clean(words, Words(before)) && LastUnlisted(words, Words(before))
    requires Clean(words, Words(after)) && FirstUnlisted(words, Words(after))
    ensures Redact(words, before + run + after) == before + "[redacted]" + after
  {
    hide Words, Clean, LastUnlisted, FirstUnlisted, AllListed, NoneExposed, Exposed, Run, Redacted, Texts, Laid,
      Boundary,
      Matches, Meet;
    var s := before + run + after;
    var a, b, c := MatchesOfParts(before, run, after);
    OnlyTheRun(words, Words(before), Words(run), Words(after));
    RunShows(words, Words(before), Words(run), Words(after));
    MatchesLaid(s, 0);
    TextsJoin(a, b, c);
    var ms := a + b + c;
    SameSizes(a, b, c);
    assert ms[|a|] == b[0] && ms[|a| + |b| - 1] == b[|b| - 1];
    CutOnce(words, s, ms, |a|, |b|);
    assert s[..|before|] == before && s[|before| + |run|..] == after;
  }

  lemma SameSizes(a: seq<Match>, b: seq<Match>, c: seq<Match>)
    ensures |Texts(a)| == |a| && |Texts(b)| == |b| && |Texts(a + b + c)| == |a + b + c|
  {
  }

  // ----- Letter case -----

  /** The same character, or a letter and its other case. */
  predicate SameLetter(a: char, b: char) {
    a == b || ('A' <= a <= 'Z' && b as int == a as int + 32) || ('A' <= b <= 'Z' && a as int == b as int + 32)
  }

  predicate SameButCase(a: string, b: string) { |a| == |b| && forall i :: 0 <= i < |a| ==> SameLetter(a[i], b[i]) }

  predicate AllSameButCase(a: seq<string>, b: seq<string>) {
    |a| == |b| && forall i :: 0 <= i < |a| ==> SameButCase(a[i], b[i])
  }

  lemma LowerIgnoresCase(a: string, b: string)
    ensures SameButCase(a, b) <==> Lower(a) == Lower(b)
  {
    if Lower(a) == Lower(b) {
      forall i | 0 <= i < |a| ensures SameLetter(a[i], b[i]) { assert Lower(a)[i] == Lower(b)[i]; }
    }
  }

  /** A word is listed exactly if, up to letter case, it is one of a list written in small letters. */
  lemma WhenAWordIsListed(words: set<string>, w: string)
    requires forall v :: v in words ==> forall i :: 0 <= i < |v| ==> !('A' <= v[i] <= 'Z')
    ensures Listed(words, w) <==> exists v :: v in words && SameButCase(w, v)
  {
    hide Lower, SameButCase;
    forall v | v in words ensures Lower(v) == v && (SameButCase(w, v) <==> Lower(w) == v) {
      SmallIsLower(v);
      LowerIgnoresCase(w, v);
    }
  }

  lemma SmallIsLower(v: string)
    requires forall i :: 0 <= i < |v| ==> !('A' <= v[i] <= 'Z')
    ensures Lower(v) == v
  {
  }

  lemma {:induction false} LengthsAgree(a: string, b: string)
    requires SameButCase(a, b)
    ensures LetterLength(a) == LetterLength(b)
  {
    if a != "" && IsLetter(a[0]) { LengthsAgree(a[1..], b[1..]); }
  }

  lemma {:induction false} WordsAgree(a: string, b: string)
    requires SameButCase(a, b)
    ensures AllSameButCase(Words(a), Words(b))
    decreases |a|
  {
    hide SameLetter;
    if a != "" {
      assert IsLetter(a[0]) == IsLetter(b[0]) by { SameKind(a[0], b[0]); }
      LengthsAgree(a, b);
      var n := if IsLetter(a[0]) then LetterLength(a) else 1;
      assert SameButCase(a[..n], b[..n]);
      WordsAgree(a[n..], b[n..]);
    }
  }

  lemma SameKind(a: char, b: char)
    requires SameLetter(a, b)
    ensures IsLetter(a) == IsLetter(b)
  {
  }

  /** Letter case does not matter: in two messages that differ in nothing else the same words are cut. */
  lemma CaseIsIgnored(words: set<string>, a: string, b: string, k: nat)
    requires SameButCase(a, b)
    ensures |Words(a)| == |Words(b)| && (Exposed(words, Words(a), k) <==> Exposed(words, Words(b), k))
  {
    hide Words, Lower, SameButCase;
    WordsAgree(a, b);
    var x, y := Words(a), Words(b);
    forall i | 0 <= i < |x| ensures Listed(words, x[i]) == Listed(words, y[i]) { LowerIgnoresCase(x[i], y[i]); }
    forall i ensures Window(words, x, i) == Window(words, y, i) { hide Listed; }
  }
}
