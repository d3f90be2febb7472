/** findTransactionControl of scripts/migrate.js: the top-level transaction control statements of a migration file. */
module SqlScanner {
  import opened JsText
  import opened SqlLexer

  /** A token and the line it starts on. */
  datatype Tok = Tok(piece: Piece, line: nat)
  {
    function Text(): string { match piece case Word(t) => t case Mark(t) => t case Gap => "" case Semicolon => ";" }
  }

  /** What is reported of a statement. */
  datatype Hit = Hit(line: nat, keyword: string)

  const TRANSACTION_CONTROL: set<string> := {"BEGIN", "START", "COMMIT", "END", "ROLLBACK", "ABORT", "PREPARE"}
  const NEEDS_TRANSACTION_WORD: set<string> := {"START", "PREPARE"}

  /** toUpperCase; nothing is used of it but that it leaves the empty string alone. */
  type Upper = f: string -> string | f("") == "" witness (s: string) => s

  function Tokens(before: string, rest: string): seq<Tok>
    decreases |rest|
  {
    if rest == "" then []
    else
      var x := Lex(before, rest);
      (if x.piece == Gap then [] else [Tok(x.piece, 1 + Newlines(before))])
        + Tokens(before + rest[..x.len], rest[x.len..])
  }

  /** Inside BEGIN ATOMIC ... END: one more than the CASEs open in it; 0 outside. `words` are the tokens of a statement
      so far. */
  function Depth(up: Upper, words: seq<Tok>): nat {
    if words == [] then 0
    else
      var front, last := words[..|words| - 1], words[|words| - 1];
      var d := Depth(up, front);
      if !last.piece.Word? then d
      else if d > 0 then if up(last.Text()) == "CASE" then d + 1 else if up(last.Text()) == "END" then d - 1 else d
      else if up(last.Text()) == "ATOMIC" && |front| > 1 && up(front[|front| - 1].Text()) == "BEGIN" then 1
      else 0
  }

  /** The statements of a token list, `words` being those of the statement under way: a `;` ends one outside atomic
      bodies. */
  function Statements(up: Upper, words: seq<Tok>, toks: seq<Tok>): seq<seq<Tok>>
    decreases |toks|
  {
    if toks == [] then [words]
    else if toks[0].piece != Semicolon then Statements(up, words + [toks[0]], toks[1..])
    else if Depth(up, words) > 0 then Statements(up, words, toks[1..])
    else [words] + Statements(up, [], toks[1..])
  }

  function WordAt(up: Upper, words: seq<Tok>, i: nat): string { if i < |words| then up(words[i].Text()) else up("") }

  /** A statement is control if it begins with such a keyword, START and PREPARE only with TRANSACTION next; it is
      reported on the line of its first token. */
  function Judge(up: Upper, words: seq<Tok>): seq<Hit> {
    var first := WordAt(up, words, 0);
    if words != [] && first in TRANSACTION_CONTROL
      && (first in NEEDS_TRANSACTION_WORD ==> WordAt(up, words, 1) == "TRANSACTION")
    then [Hit(words[0].line, if first in NEEDS_TRANSACTION_WORD then first + " TRANSACTION" else first)]
    else []
  }

  function Judged(up: Upper, statements: seq<seq<Tok>>): seq<Hit> {
    if statements == [] then [] else Judge(up, statements[0]) + Judged(up, statements[1..])
  }

  function HitsFrom(up: Upper, words: seq<Tok>, toks: seq<Tok>): seq<Hit> { Judged(up, Statements(up, words, toks)) }

  /** The transaction control statements of `sql`. */
  function Hits(up: Upper, sql: string): seq<Hit> { HitsFrom(up, [], Tokens("", sql)) }

  // ----- Compositionality -----

  function Shifted(toks: seq<Tok>, n: nat): (r: seq<Tok>)
    ensures |r| == |toks| && forall i :: 0 <= i < |toks| ==> r[i] == Tok(toks[i].piece, toks[i].line + n)
  {
    seq(|toks|, i requires 0 <= i < |toks| => Tok(toks[i].piece, toks[i].line + n))
  }

  function ShiftedHits(hits: seq<Hit>, n: nat): (r: seq<Hit>)
    ensures |r| == |hits| && forall i :: 0 <= i < |hits| ==> r[i] == Hit(hits[i].line + n, hits[i].keyword)
  {
    seq(|hits|, i requires 0 <= i < |hits| => Hit(hits[i].line + n, hits[i].keyword))
  }

  /** No comment, string or dollar quote of the text is cut by its end. */
  predicate AllClosed(before: string, rest: string)
    decreases |rest|
  {
    rest == "" || (var x := Lex(before, rest); x.closed && AllClosed(before + rest[..x.len], rest[x.len..]))
  }

  /** The tokens of the statement a token list ends in. */
  function LastStatement(up: Upper, words: seq<Tok>, toks: seq<Tok>): seq<Tok>
    decreases |toks|
  {
    if toks == [] then words
    else if toks[0].piece != Semicolon then LastStatement(up, words + [toks[0]], toks[1..])
    else LastStatement(up, if Depth(up, words) > 0 then words else [], toks[1..])
  }

  /** The scanner ends `sql` at top level: nothing cut, and outside any atomic body. */
  predicate EndsAtTopLevel(up: Upper, sql: string) {
    AllClosed("", sql) && Depth(up, LastStatement(up, [], Tokens("", sql))) == 0
  }

  lemma TokensUnfold(before: string, rest: string)
    requires rest != ""
    ensures var x := Lex(before, rest);
      Tokens(before, rest) == (if x.piece == Gap then [] else [Tok(x.piece, 1 + Newlines(before))])
        + Tokens(before + rest[..x.len], rest[x.len..])
  {
  }

  lemma ShiftedCons(t: Tok, b: seq<Tok>, n: nat)
    ensures Shifted([t] + b, n) == [Tok(t.piece, t.line + n)] + Shifted(b, n)
  {
  }

  lemma {:induction false} TokensAfterBreak(p: string, before: string, rest: string)
    requires p != "" && !IsIdent(p[|p| - 1])
    ensures Tokens(p + before, rest) == Shifted(Tokens(before, rest), Newlines(p))
    decreases |rest|
  {
    hide *;
    if rest == "" {
      NoText(p + before);
      NoText(before);
    } else {
      LexAfterBreak(p, before, rest);
      var x := Lex(before, rest);
      var b, r := before + rest[..x.len], rest[x.len..];
      NewlinesAdd(p, before);
      assert (p + before) + rest[..x.len] == p + b;
      TokensUnfold(p + before, rest);
      TokensUnfold(before, rest);
      TokensAfterBreak(p, b, r);
      ShiftedHead(x.piece, 1 + Newlines(before), Tokens(b, r), Newlines(p));
    }
  }

  lemma ShiftedHead(piece: Piece, line: nat, b: seq<Tok>, n: nat)
    ensures Shifted((if piece == Gap then [] else [Tok(piece, line)]) + b, n)
      == (if piece == Gap then [] else [Tok(piece, line + n)]) + Shifted(b, n)
  {
    if piece == Gap {
      assert [] + b == b && [] + Shifted(b, n) == Shifted(b, n);
    } else {
      ShiftedCons(Tok(piece, line), b, n);
    }
  }

  lemma {:induction false} TokensJoin(before: string, rest: string, tail: string)
    requires AllClosed(before, rest)
    ensures Tokens(before, rest + ";" + tail) ==
      Tokens(before, rest) + [Tok(Semicolon, 1 + Newlines(before + rest))]
        + Shifted(Tokens("", tail), Newlines(before + rest))
    decreases |rest|
  {
    hide *;
    if rest == "" {
      assert before + rest == before && rest + ";" + tail == ";" + tail;
      NoText(before);
      JoinBase(before, tail);
    } else {
      JoinStep(before, rest, tail);
    }
  }

  /** A `;` at top level, and the text after it. */
  lemma JoinBase(before: string, tail: string)
    ensures Tokens(before, ";" + tail) ==
      [] + [Tok(Semicolon, 1 + Newlines(before))] + Shifted(Tokens("", tail), Newlines(before))
  {
    hide *;
    var more := ";" + tail;
    LexSemicolon(before, more);
    assert more[..1] == ";" && more[1..] == tail && (before + ";") + "" == before + ";";
    TokensUnfold(before, more);
    NoWordGoesOn(before);
    TokensAfterBreak(before + ";", "", tail);
    NewlinesAdd(before, ";");
    NoBreak();
  }

  lemma NoWordGoesOn(before: string)
    ensures var p := before + ";"; p != "" && !IsIdent(p[|p| - 1])
  {
  }

  lemma LexSemicolon(before: string, rest: string)
    requires rest != "" && rest[0] == ';'
    ensures Lex(before, rest) == Lexeme(Semicolon, 1, true)
  {
    hide QuoteExtent, CommentExtent, LineExtent, ToTag, DollarTag, IdentLength;
  }

  lemma NoBreak()
    ensures Newlines(";") == 0
  {
  }

  lemma ClosedUnfolds(before: string, rest: string)
    requires rest != "" && AllClosed(before, rest)
    ensures var x := Lex(before, rest); x.closed && AllClosed(before + rest[..x.len], rest[x.len..])
  {
  }

  lemma Associates(a: seq<Tok>, b: seq<Tok>, c: seq<Tok>, d: seq<Tok>)
    ensures a + (b + c + d) == (a + b) + c + d
  {
  }

  lemma {:induction false} JoinStep(before: string, rest: string, tail: string)
    requires rest != "" && AllClosed(before, rest)
    ensures Tokens(before, rest + ";" + tail) ==
      Tokens(before, rest) + [Tok(Semicolon, 1 + Newlines(before + rest))]
        + Shifted(Tokens("", tail), Newlines(before + rest))
    decreases |rest|, 0
  {
    hide Lex, Newlines, Tokens, AllClosed, Shifted;
    var more := ";" + tail;
    assert rest + ";" + tail == rest + more;
    ClosedUnfolds(before, rest);
    LexGrows(before, rest, more);
    TokensUnfold(before, rest);
    TokensUnfold(before, rest + more);
    var x := Lex(before, rest);
    var b, r := before + rest[..x.len], rest[x.len..];
    assert (rest + more)[..x.len] == rest[..x.len] && (rest + more)[x.len..] == r + more;
    assert b + r == before + rest;
    assert r + more == r + ";" + tail;
    TokensJoin(b, r, tail);
    Associates(if x.piece == Gap then [] else [Tok(x.piece, 1 + Newlines(before))], Tokens(b, r),
               [Tok(Semicolon, 1 + Newlines(before + rest))], Shifted(Tokens("", tail), Newlines(before + rest)));
  }

  lemma {:induction false} StatementsJoin(up: Upper, words: seq<Tok>, a: seq<Tok>, semi: Tok, b: seq<Tok>)
    requires semi.piece == Semicolon && Depth(up, LastStatement(up, words, a)) == 0
    ensures HitsFrom(up, words, a + [semi] + b) == HitsFrom(up, words, a) + HitsFrom(up, [], b)
    decreases |a|
  {
    hide Depth, Judge;
    var all := a + [semi] + b;
    if a == [] {
      assert all[0] == semi && all[1..] == b;
      assert Statements(up, words, a) == [words];
      assert Judged(up, [words]) == Judge(up, words) + Judged(up, []);
      assert ([words] + Statements(up, [], b))[1..] == Statements(up, [], b);
    } else {
      assert all[0] == a[0] && all[1..] == a[1..] + [semi] + b;
      if a[0].piece != Semicolon {
        StatementsJoin(up, words + [a[0]], a[1..], semi, b);
      } else if Depth(up, words) > 0 {
        StatementsJoin(up, words, a[1..], semi, b);
      } else {
        StatementsJoin(up, [], a[1..], semi, b);
        assert ([words] + Statements(up, [], all[1..]))[1..] == Statements(up, [], all[1..]);
        assert ([words] + Statements(up, [], a[1..]))[1..] == Statements(up, [], a[1..]);
      }
    }
  }

  lemma {:induction false} DepthShifts(up: Upper, words: seq<Tok>, n: nat)
    ensures Depth(up, Shifted(words, n)) == Depth(up, words)
  {
    if words != [] {
      var k := |words| - 1;
      assert Shifted(words, n)[..k] == Shifted(words[..k], n);
      DepthShifts(up, words[..k], n);
    }
  }

  lemma JudgeShifts(up: Upper, words: seq<Tok>, n: nat)
    ensures Judge(up, Shifted(words, n)) == ShiftedHits(Judge(up, words), n)
  {
  }

  lemma JudgedOne(up: Upper, words: seq<Tok>, more: seq<seq<Tok>>)
    ensures Judged(up, [words] + more) == Judge(up, words) + Judged(up, more)
  {
    assert ([words] + more)[1..] == more;
  }

  lemma ShiftedHitsAdd(a: seq<Hit>, b: seq<Hit>, n: nat)
    ensures ShiftedHits(a + b, n) == ShiftedHits(a, n) + ShiftedHits(b, n)
  {
  }

  lemma {:induction false} HitsShift(up: Upper, words: seq<Tok>, toks: seq<Tok>, n: nat)
    ensures HitsFrom(up, Shifted(words, n), Shifted(toks, n)) == ShiftedHits(HitsFrom(up, words, toks), n)
    decreases |toks|
  {
    hide Depth, Judge, Judged;
    JudgeShifts(up, words, n);
    if toks == [] {
      JudgedOne(up, words, []);
      JudgedOne(up, Shifted(words, n), []);
      JudgedNone(up);
      assert [words] + [] == [words] && [Shifted(words, n)] + [] == [Shifted(words, n)];
    } else {
      assert Shifted(toks, n)[1..] == Shifted(toks[1..], n);
      DepthShifts(up, words, n);
      if toks[0].piece != Semicolon {
        assert Shifted(words, n) + [Shifted(toks, n)[0]] == Shifted(words + [toks[0]], n);
        HitsShift(up, words + [toks[0]], toks[1..], n);
      } else if Depth(up, words) > 0 {
        HitsShift(up, words, toks[1..], n);
      } else {
        HitsShift(up, [], toks[1..], n);
        assert Shifted([], n) == [];
        JudgedOne(up, words, Statements(up, [], toks[1..]));
        JudgedOne(up, Shifted(words, n), Statements(up, [], Shifted(toks[1..], n)));
        ShiftedHitsAdd(Judge(up, words), HitsFrom(up, [], toks[1..]), n);
      }
    }
  }

  lemma JudgedNone(up: Upper)
    ensures Judged(up, []) == []
  {
  }

  /** Two files joined by `;`: if the first one ends at top level, the scan finds what it finds in each, the lines of
      the second counted on from the first. */
  lemma ScanIsCompositional(up: Upper, s1: string, s2: string)
    requires EndsAtTopLevel(up, s1)
    ensures Hits(up, s1 + ";" + s2) == Hits(up, s1) + ShiftedHits(Hits(up, s2), Newlines(s1))
  {
    hide Tokens, AllClosed, Depth, Statements, Judged;
    var n := Newlines(s1);
    TokensJoin("", s1, s2);
    assert "" + s1 == s1;
    StatementsJoin(up, [], Tokens("", s1), Tok(Semicolon, 1 + n), Shifted(Tokens("", s2), n));
    HitsShift(up, [], Tokens("", s2), n);
    assert Shifted([], n) == [];
  }

  /** Nothing hides a control statement that follows top-level text: it is reported, on its own line. */
  lemma AppendedCommitIsFound(up: Upper, s1: string)
    requires EndsAtTopLevel(up, s1) && up("COMMIT") == "COMMIT"
    ensures Hits(up, s1 + ";COMMIT") == Hits(up, s1) + [Hit(1 + Newlines(s1), "COMMIT")]
  {
    hide Hits, EndsAtTopLevel, Newlines;
    ScanIsCompositional(up, s1, "COMMIT");
    assert s1 + ";" + "COMMIT" == s1 + ";COMMIT";
    CommitAlone(up);
  }

  lemma CommitAlone(up: Upper)
    requires up("COMMIT") == "COMMIT"
    ensures Hits(up, "COMMIT") == [Hit(1, "COMMIT")]
  {
    hide *;
    var s := "COMMIT";
    CommitIsAWord();
    IdentAll(s);
    LexWord("", s);
    assert s[..6] == s && s[6..] == "" && "" + s == s;
    var t := Tok(Word(s), 1);
    TokensUnfold("", s);
    NoText(s);
    assert [t] + [] == [t];
    HitsStep(up, [], t, []);
    assert [] + [t] == [t];
    HitsEnd(up, [t]);
    CommitIsJudged(up);
    HitsAre(up, s);
  }

  lemma CommitIsAWord()
    ensures var s := "COMMIT"; s != "" && IsLetter(s[0]) && forall i :: 0 <= i < |s| ==> IsIdent(s[i])
  {
  }

  lemma CommitIsJudged(up: Upper)
    requires up("COMMIT") == "COMMIT"
    ensures Judge(up, [Tok(Word("COMMIT"), 1)]) == [Hit(1, "COMMIT")]
  {
  }

  lemma HitsAre(up: Upper, sql: string)
    ensures Hits(up, sql) == HitsFrom(up, [], Tokens("", sql))
  {
  }

  lemma LexWord(before: string, rest: string)
    requires rest != "" && IsLetter(rest[0])
    ensures Lex(before, rest) == Lexeme(Word(rest[..IdentLength(rest)]), IdentLength(rest), true)
  {
    hide QuoteExtent, CommentExtent, LineExtent, ToTag, DollarTag, IdentLength;
  }

  lemma NoText(before: string)
    ensures Newlines("") == 0 && Tokens(before, "") == []
  {
  }

  /** Hits come in the order of the text, on lines the text has. */
  lemma {:induction false} TokensInOrder(before: string, rest: string, i: nat, j: nat)
    requires i <= j < |Tokens(before, rest)|
    ensures 1 + Newlines(before) <= Tokens(before, rest)[i].line <= Tokens(before, rest)[j].line <= 1
      + Newlines(before + rest)
    decreases |rest|
  {
    hide Lex, Newlines, Tokens;
    if rest == "" { NoText(before); }
    TokensUnfold(before, rest);
    var x := Lex(before, rest);
    var b, r := before + rest[..x.len], rest[x.len..];
    assert b + r == before + rest;
    NewlinesAdd(before, rest[..x.len]);
    NewlinesAdd(before, rest);
    var k := if x.piece == Gap then 0 else 1;
    if i >= k { TokensInOrder(b, r, i - k, j - k); } else if j >= k { TokensInOrder(b, r, j - k, j - k); }
  }

  // ----- The scan itself -----

  /** The places of the text at which the tokens are read, from `i` on. */
  function Places(sql: string, i: nat): seq<nat>
    requires i <= |sql|
    decreases |sql| - i
  {
    if i == |sql| then []
    else
      var x := Lex(sql[..i], sql[i..]);
      (if x.piece == Gap then [] else [i]) + Places(sql, i + x.len)
  }

  /** Every token is read at its place, and carries the number of its line: one more than the line breaks before that
      place. */
  lemma {:induction false} TokenSits(sql: string, i: nat, m: nat) returns (k: nat)
    requires i <= |sql| && m < |Tokens(sql[..i], sql[i..])|
    ensures m < |Places(sql, i)| && k == Places(sql, i)[m] && i <= k < |sql|
    ensures Tokens(sql[..i], sql[i..])[m] == Tok(Lex(sql[..k], sql[k..]).piece, 1 + Newlines(sql[..k]))
    ensures Tokens(sql[..k], sql[k..]) == Tokens(sql[..i], sql[i..])[m..]
    decreases |sql| - i
  {
    hide Lex, Newlines, Tokens;
    if i == |sql| { NoText(sql[..i]); }
    TokensStep(sql, i);
    var x := Lex(sql[..i], sql[i..]);
    var head := if x.piece == Gap then 0 else 1;
    var all, rest := Tokens(sql[..i], sql[i..]), Tokens(sql[..i + x.len], sql[i + x.len..]);
    if m < head {
      k := i;
      assert all[0..] == all;
    } else {
      k := TokenSits(sql, i + x.len, m - head);
      assert all[m..] == rest[m - head..];
    }
  }

  lemma {:induction false} UnderWay(up: Upper, words: seq<Tok>, toks: seq<Tok>)
    requires words != []
    ensures Statements(up, words, toks) != [] && Statements(up, words, toks)[0] != []
      && Statements(up, words, toks)[0][0] == words[0]
    decreases |toks|
  {
    hide Depth;
    if toks != [] { UnderWay(up, if toks[0].piece == Semicolon then words else words + [toks[0]], toks[1..]); }
  }

  /** A statement that has not begun yet begins with the first token of all or with one that follows a `;`. */
  lemma {:induction false} StatementBegins(up: Upper, words: seq<Tok>, toks: seq<Tok>, j: nat) returns (m: nat)
    requires j < |Statements(up, words, toks)| && Statements(up, words, toks)[j] != [] && (j > 0 || words == [])
    ensures m < |toks| && Statements(up, words, toks)[j][0] == toks[m]
    ensures (m > 0 ==> toks[m - 1].piece == Semicolon) && (j > 0 ==> m > 0)
    decreases |toks|
  {
    if toks[0].piece != Semicolon {
      if j == 0 {
        UnderWay(up, words + [toks[0]], toks[1..]);
        m := 0;
      } else {
        m := StatementBegins(up, words + [toks[0]], toks[1..], j);
        m := m + 1;
      }
    } else if Depth(up, words) > 0 {
      m := StatementBegins(up, words, toks[1..], j);
      m := m + 1;
    } else {
      m := StatementBegins(up, [], toks[1..], j - 1);
      m := m + 1;
    }
  }

  /** Each hit is what the judgement of one statement says. */
  lemma {:induction false} JudgedAt(up: Upper, statements: seq<seq<Tok>>, i: nat) returns (j: nat)
    requires i < |Judged(up, statements)|
    ensures j < |statements| && Judge(up, statements[j]) == [Judged(up, statements)[i]]
  {
    hide Judge;
    var n := |Judge(up, statements[0])|;
    AtMostOne(up, statements[0]);
    if i < n {
      j := 0;
    } else {
      j := JudgedAt(up, statements[1..], i - n);
      j := j + 1;
    }
  }

  lemma AtMostOne(up: Upper, words: seq<Tok>)
    ensures |Judge(up, words)| <= 1
  {
  }

  /** Every reported line is one more than the line breaks before the place `k` at which the first token of its
      statement is read. That token is the first of the text or follows a `;`, and its word is the keyword. */
  lemma HitSits(up: Upper, sql: string, i: nat) returns (j: nat, m: nat, k: nat)
    requires i < |Hits(up, sql)|
    ensures j < |Statements(up, [], Tokens("", sql))|
    ensures Judge(up, Statements(up, [], Tokens("", sql))[j]) == [Hits(up, sql)[i]]
    ensures m < |Tokens("", sql)| && Statements(up, [], Tokens("", sql))[j] != []
    ensures Statements(up, [], Tokens("", sql))[j][0] == Tokens("", sql)[m]
    ensures m > 0 ==> Tokens("", sql)[m - 1].piece == Semicolon
    ensures m < |Places(sql, 0)| && k == Places(sql, 0)[m] < |sql| && Tokens(sql[..k], sql[k..]) == Tokens("", sql)[m..]
    ensures Tokens("", sql)[m].piece == Lex(sql[..k], sql[k..]).piece
    ensures Hits(up, sql)[i].line == 1 + Newlines(sql[..k])
    ensures up(Tokens("", sql)[m].Text()) <= Hits(up, sql)[i].keyword
  {
    var toks := Tokens("", sql);
    j := JudgedAt(up, Statements(up, [], toks), i);
    m := StatementBegins(up, [], toks, j);
    hide Lex, Newlines, Tokens, Statements, Judged, Places;
    assert sql[..0] == "" && sql[0..] == sql;
    k := TokenSits(sql, 0, m);
  }

  lemma TokensStep(sql: string, i: nat)
    requires i < |sql|
    ensures var x := Lex(sql[..i], sql[i..]);
      i + x.len <= |sql|
      && Tokens(sql[..i], sql[i..]) ==
        (if x.piece == Gap then [] else [Tok(x.piece, 1 + Newlines(sql[..i]))])
          + Tokens(sql[..i + x.len], sql[i + x.len..])
  {
    hide Lex, Newlines;
    var x := Lex(sql[..i], sql[i..]);
    assert sql[..i] + sql[i..][..x.len] == sql[..i + x.len];
    assert sql[i..][x.len..] == sql[i + x.len..];
  }

  method CommentEnd(sql: string, i: nat) returns (j: nat)
    requires i < |sql| && Starts(sql[i..], '/', '*')
    ensures j == i + CommentExtent(sql[i..], 0).len <= |sql|
  {
    var depth := 0;
    j := i;
    while j < |sql|
      invariant i <= j <= |sql| && depth >= 0 && (depth == 0 ==> j == i)
      invariant j + CommentExtent(sql[j..], depth).len == i + CommentExtent(sql[i..], 0).len
    {
      if j + 2 <= |sql| { assert sql[j..][2..] == sql[j + 2..]; }
      assert sql[j..][1..] == sql[j + 1..];
      assert depth == 0 ==> sql[j] == '/' && j + 1 < |sql| && sql[j + 1] == '*';
      if sql[j] == '/' && j + 1 < |sql| && sql[j + 1] == '*' {
        depth := depth + 1;
        j := j + 2;
      } else if sql[j] == '*' && j + 1 < |sql| && sql[j + 1] == '/' {
        depth := depth - 1;
        j := j + 2;
        if depth == 0 { return; }
      } else {
        j := j + 1;
      }
    }
  }

  method QuoteEnd(sql: string, i: nat, quote: char, escapes: bool) returns (j: nat)
    requires i < |sql| && sql[i] == quote
    ensures j == i + 1 + QuoteExtent(sql[i + 1..], quote, escapes).len <= |sql|
  {
    j := i + 1;
    while j < |sql|
      invariant i < j <= |sql|
      invariant j + QuoteExtent(sql[j..], quote, escapes).len == i + 1 + QuoteExtent(sql[i + 1..], quote, escapes).len
    {
      if j + 2 <= |sql| { assert sql[j..][2..] == sql[j + 2..]; }
      assert sql[j..][1..] == sql[j + 1..];
      if escapes && sql[j] == '\\' {
        j := if j + 2 <= |sql| then j + 2 else |sql|;
        continue;
      }
      if sql[j] == quote {
        if j + 1 < |sql| && sql[j + 1] == quote { j := j + 2; continue; }
        j := j + 1;
        return;
      }
      j := j + 1;
    }
  }

  method WordEnd(sql: string, i: nat) returns (j: nat)
    requires i <= |sql|
    ensures j == i + IdentLength(sql[i..]) <= |sql|
  {
    j := i;
    while j < |sql| && IsIdent(sql[j])
      invariant i <= j <= |sql| && j + IdentLength(sql[j..]) == i + IdentLength(sql[i..])
    {
      assert sql[j..][1..] == sql[j + 1..];
      j := j + 1;
    }
  }

  /** advance: move on to `to`, counting the line breaks passed. */
  method Advance(sql: string, i: nat, line: nat, to: nat) returns (i': nat, line': nat)
    requires i <= to <= |sql| && line == 1 + Newlines(sql[..i])
    ensures i' == to && line' == 1 + Newlines(sql[..to])
  {
    i', line' := i, line;
    while i' < to
      invariant i <= i' <= to && line' == 1 + Newlines(sql[..i'])
    {
      assert sql[..i' + 1][..i'] == sql[..i'];
      if sql[i'] == '\n' { line' := line' + 1; }
      i' := i' + 1;
    }
  }

  function Texts(words: seq<Tok>): (r: seq<string>)
    ensures |r| == |words| && forall i :: 0 <= i < |words| ==> r[i] == words[i].Text()
  {
    seq(|words|, i requires 0 <= i < |words| => words[i].Text())
  }

  /** endStatement. */
  method EndStatement(up: Upper, words: seq<string>, firstLine: nat, ghost toks: seq<Tok>) returns (found: seq<Hit>)
    requires words == Texts(toks) && (toks != [] ==> firstLine == toks[0].line)
    ensures found == Judge(up, toks)
  {
    assert up("") == "" && "" !in TRANSACTION_CONTROL;
    var first := up(if |words| > 0 then words[0] else "");
    var second := up(if |words| > 1 then words[1] else "");
    found := [];
    if first in TRANSACTION_CONTROL && (first !in NEEDS_TRANSACTION_WORD || second == "TRANSACTION") {
      found := [Hit(firstLine, if first in NEEDS_TRANSACTION_WORD then first + " TRANSACTION" else first)];
    }
  }

  /** noteToken. */
  method NoteToken(words: seq<string>, firstLine: nat, line: nat, token: Piece, ghost toks: seq<Tok>)
    returns (words': seq<string>, firstLine': nat)
    requires token.Word? || token.Mark?
    requires words == Texts(toks) && (toks != [] ==> firstLine == toks[0].line)
    ensures words' == Texts(toks + [Tok(token, line)]) && firstLine' == (toks + [Tok(token, line)])[0].line
  {
    firstLine' := if |words| == 0 then line else firstLine;
    words' := words + [token.text];
    assert Tok(token, line).Text() == token.text;
  }

  /** The element at position `i`, read off the text around it. */
  lemma LexAt(sql: string, i: nat)
    requires i < |sql|
    ensures var x := PieceAt(sql, i);
      0 < x.len && i + x.len <= |sql|
    ensures var x := PieceAt(sql, i);
      var c := sql[i];
      var next := if i + 1 < |sql| then sql[i + 1] else ' ';
      var tag := DollarTag(sql[i..]);
      if c == '-' && next == '-' then x.piece == Gap && x.len == LineExtent(sql[i..]).len
      else if c == '/' && next == '*'
        then x.piece == Gap && x.len == CommentExtent(sql[i..], 0).len && Starts(sql[i..], '/', '*')
      else if c == '\'' then x.piece == Mark("'") && x.len == 1 + QuoteExtent(sql[i + 1..], '\'', AfterE(sql[..i])).len
      else if c == '"' then x.piece == Mark("\"") && x.len == 1 + QuoteExtent(sql[i + 1..], '"', false).len
      else if c == '$' && !AfterIdent(sql[..i]) && tag > 0 then
        x.piece == Mark("$$") && x.len == tag + ToTag(sql[i + tag..], sql[i..i + tag]).len
      else if IsLetter(c) then x.piece == Word(sql[i..i + x.len]) && x.len == IdentLength(sql[i..])
      else x.len == 1 && x.piece == (if c == ';' then Semicolon else if IsSpace(c) then Gap else Mark([c]))
  {
    hide QuoteExtent, CommentExtent, LineExtent, ToTag, DollarTag, IdentLength, IsSpace, AfterE;
    assert sql[i..][1..] == sql[i + 1..];
    var tag := DollarTag(sql[i..]);
    assert sql[i..][tag..] == sql[i + tag..] && sql[i..][..tag] == sql[i..i + tag];
  }

  lemma DepthGrows(up: Upper, words: seq<Tok>, t: Tok)
    ensures var d := Depth(up, words);
      Depth(up, words + [t]) ==
        if !t.piece.Word? then d
        else if d > 0 then if up(t.piece.text) == "CASE" then d + 1 else if up(t.piece.text) == "END" then d - 1 else d
        else if up(t.piece.text) == "ATOMIC" && |words| > 1 && up(words[|words| - 1].Text()) == "BEGIN" then 1
        else 0
  {
    assert (words + [t])[..|words|] == words;
  }

  lemma HitsStep(up: Upper, words: seq<Tok>, t: Tok, after: seq<Tok>)
    ensures HitsFrom(up, words, [t] + after) ==
      if t.piece != Semicolon then HitsFrom(up, words + [t], after)
      else if Depth(up, words) > 0 then HitsFrom(up, words, after)
      else Judge(up, words) + HitsFrom(up, [], after)
  {
    hide Depth, Judge;
    assert ([t] + after)[1..] == after;
    JudgedOne(up, words, Statements(up, [], after));
  }

  lemma HitsEnd(up: Upper, words: seq<Tok>)
    ensures HitsFrom(up, words, []) == Judge(up, words)
  {
    assert [words] + [] == [words];
    JudgedOne(up, words, []);
  }

  /** `found` and what is still to be found from position `i` on, `toks` being the statement under way, are all the
      hits. */
  ghost predicate Agrees(up: Upper, sql: string, i: nat, toks: seq<Tok>, found: seq<Hit>) {
    i <= |sql| && Hits(up, sql) == found + HitsFrom(up, toks, Tokens(sql[..i], sql[i..]))
  }

  function PieceAt(sql: string, i: nat): Lexeme
    requires i < |sql|
  {
    Lex(sql[..i], sql[i..])
  }

  lemma PassGap(up: Upper, sql: string, i: nat, toks: seq<Tok>, found: seq<Hit>)
    requires i < |sql| && Agrees(up, sql, i, toks, found) && PieceAt(sql, i).piece == Gap
    ensures Agrees(up, sql, i + PieceAt(sql, i).len, toks, found)
  {
    hide Hits, HitsFrom, Tokens, Lex;
    TokensStep(sql, i);
    var after := Tokens(sql[..i + PieceAt(sql, i).len], sql[i + PieceAt(sql, i).len..]);
    assert [] + after == after;
  }

  lemma PassToken(up: Upper, sql: string, i: nat, toks: seq<Tok>, found: seq<Hit>)
    requires i < |sql| && Agrees(up, sql, i, toks, found)
    requires (PieceAt(sql, i).piece.Word? || PieceAt(sql, i).piece.Mark?)
    ensures Agrees(up, sql, i + PieceAt(sql, i).len, toks + [Tok(PieceAt(sql, i).piece, 1 + Newlines(sql[..i]))], found)
  {
    hide Hits, HitsFrom, Tokens, Lex, Newlines, Depth, Judge;
    TokensStep(sql, i);
    var x := PieceAt(sql, i);
    HitsStep(up, toks, Tok(x.piece, 1 + Newlines(sql[..i])), Tokens(sql[..i + x.len], sql[i + x.len..]));
  }

  lemma PassSemicolon(up: Upper, sql: string, i: nat, toks: seq<Tok>, found: seq<Hit>)
    requires i < |sql| && Agrees(up, sql, i, toks, found) && PieceAt(sql, i).piece == Semicolon
    ensures if Depth(up, toks) > 0 then Agrees(up, sql, i + PieceAt(sql, i).len, toks, found)
      else Agrees(up, sql, i + PieceAt(sql, i).len, [], found + Judge(up, toks))
  {
    hide Hits, HitsFrom, Tokens, Lex, Newlines, Depth, Judge;
    TokensStep(sql, i);
    var x := PieceAt(sql, i);
    HitsStep(up, toks, Tok(x.piece, 1 + Newlines(sql[..i])), Tokens(sql[..i + x.len], sql[i + x.len..]));
  }

  method FindTransactionControl(up: Upper, sql: string) returns (found: seq<Hit>)
    ensures found == Hits(up, sql)
  {
    hide Hits, Lex, PieceAt, Agrees, Newlines, Depth, Judge, Texts, IsSpace, IsLetter, QuoteExtent, CommentExtent,
      LineExtent, ToTag,
      DollarTag, IdentLength, AfterE, AfterIdent, Starts;
    var n := |sql|;
    var i: nat, line: nat := 0, 1;
    var words: seq<string>, firstLine: nat, atomicDepth: nat := [], 0, 0;
    ghost var toks: seq<Tok> := [];
    found := [];
    Beginning(up, sql);
    while i < n
      invariant i <= n && line == 1 + Newlines(sql[..i])
      invariant words == Texts(toks) && (toks != [] ==> firstLine == toks[0].line)
      invariant atomicDepth == Depth(up, toks)
      invariant Agrees(up, sql, i, toks, found)
      decreases n - i
    {
      LexAt(sql, i);
      ghost var t := Tok(PieceAt(sql, i).piece, line);
      DepthGrows(up, toks, t);
      var c, next := sql[i], if i + 1 < n then sql[i + 1] else ' ';
      var j: nat;
      if c == '-' && next == '-' {
        j := i + LineExtent(sql[i..]).len;
        PassGap(up, sql, i, toks, found);
      } else if c == '/' && next == '*' {
        j := CommentEnd(sql, i);
        PassGap(up, sql, i, toks, found);
      } else if c == '\'' {
        j := QuoteEnd(sql, i, '\'', AfterE(sql[..i]));
        PassToken(up, sql, i, toks, found);
        words, firstLine := NoteToken(words, firstLine, line, Mark("'"), toks);
        toks := toks + [t];
      } else if c == '"' {
        j := QuoteEnd(sql, i, '"', false);
        PassToken(up, sql, i, toks, found);
        words, firstLine := NoteToken(words, firstLine, line, Mark("\""), toks);
        toks := toks + [t];
      } else if c == '$' && !AfterIdent(sql[..i]) && DollarTag(sql[i..]) > 0 {
        var tag := sql[i..i + DollarTag(sql[i..])];
        j := i + |tag| + ToTag(sql[i + |tag|..], tag).len;
        PassToken(up, sql, i, toks, found);
        words, firstLine := NoteToken(words, firstLine, line, Mark("$$"), toks);
        toks := toks + [t];
      } else if IsLetter(c) {
        j := WordEnd(sql, i);
        PassToken(up, sql, i, toks, found);
        var word := sql[i..j];
        var upper := up(word);
        if atomicDepth > 0 {
          if upper == "CASE" {
            atomicDepth := atomicDepth + 1;
          } else if upper == "END" {
            atomicDepth := atomicDepth - 1;
          }
        } else if upper == "ATOMIC" && |words| > 1 && up(words[|words| - 1]) == "BEGIN" {
          atomicDepth := 1;
        }
        words, firstLine := NoteToken(words, firstLine, line, Word(word), toks);
        toks := toks + [t];
      } else if c == ';' {
        j := i + 1;
        PassSemicolon(up, sql, i, toks, found);
        if atomicDepth == 0 {
          var hits := EndStatement(up, words, firstLine, toks);
          found := found + hits;
          words, toks := [], [];
          atomicDepth := 0;
          DepthOfNone(up);
        }
      } else {
        j := i + 1;
        if !IsSpace(c) {
          PassToken(up, sql, i, toks, found);
          words, firstLine := NoteToken(words, firstLine, line, Mark([c]), toks);
          toks := toks + [t];
        } else {
          PassGap(up, sql, i, toks, found);
        }
      }
      i, line := Advance(sql, i, line, j);
    }
    Ending(up, sql, toks, found);
    var last := EndStatement(up, words, firstLine, toks);
    found := found + last;
  }

  lemma Beginning(up: Upper, sql: string)
    ensures Newlines(sql[..0]) == 0 && Texts([]) == [] && Depth(up, []) == 0 && Agrees(up, sql, 0, [], [])
  {
    assert sql[..0] == "" && sql[0..] == sql;
    assert [] + Hits(up, sql) == Hits(up, sql);
  }

  lemma Ending(up: Upper, sql: string, toks: seq<Tok>, found: seq<Hit>)
    requires Agrees(up, sql, |sql|, toks, found)
    ensures found + Judge(up, toks) == Hits(up, sql)
  {
    hide Hits, HitsFrom, Judge;
    HitsEnd(up, toks);
    TokensAtEnd(sql);
  }

  lemma DepthOfNone(up: Upper)
    ensures Depth(up, []) == 0 && Texts([]) == []
  {
  }

  lemma TokensAtEnd(sql: string)
    ensures Tokens(sql[..|sql|], sql[|sql|..]) == []
  {
  }
}
