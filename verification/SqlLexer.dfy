/** The lexical elements findTransactionControl steps over (PostgreSQL documentation, section 4.1), one at a time:
    `before` is the text already consumed, `rest` what follows. */
module SqlLexer {
  import opened JsText

  predicate IsLetter(c: char) { 'A' <= c <= 'Z' || 'a' <= c <= 'z' || c == '_' || c >= '\U{0080}' }

  predicate IsTagChar(c: char) { IsLetter(c) || '0' <= c <= '9' }

  predicate IsIdent(c: char) { IsTagChar(c) || c == '$' }

  predicate AfterIdent(before: string) { before != "" && IsIdent(before[|before| - 1]) }

  /** A quote here opens an escape string: `E'`, the E not being the end of a longer word. */
  predicate AfterE(before: string) {
    before != "" && before[|before| - 1] in {'E', 'e'} && !(|before| > 1 && IsIdent(before[|before| - 2]))
  }

  function Newlines(s: string): nat {
    if s == "" then 0 else Newlines(s[..|s| - 1]) + (if s[|s| - 1] == '\n' then 1 else 0)
  }

  lemma {:induction false} NewlinesAdd(a: string, b: string)
    ensures Newlines(a + b) == Newlines(a) + Newlines(b)
  {
    if b == "" {
      assert a + b == a;
    } else {
      NewlinesAdd(a, b[..|b| - 1]);
      assert (a + b)[..|a + b| - 1] == a + b[..|b| - 1];
    }
  }

  /** How far an element reaches into the rest, and whether its own end was found there. */
  datatype Extent = Extent(len: nat, closed: bool)

  function Further(n: nat, e: Extent): Extent { Extent(n + e.len, e.closed) }

  /** Up to the line break. */
  function LineExtent(rest: string): (e: Extent)
    ensures e.len <= |rest|
  {
    if rest == "" then Extent(0, false) else if rest[0] == '\n' then Extent(0, true)
    else Further(1, LineExtent(rest[1..]))
  }

  predicate Starts(rest: string, a: char, b: char) { |rest| > 1 && rest[0] == a && rest[1] == b }

  /** A block comment, `depth` levels of which are open. */
  function CommentExtent(rest: string, depth: nat): (e: Extent)
    ensures e.len <= |rest|
  {
    if rest == "" then Extent(0, false)
    else if Starts(rest, '/', '*') then Further(2, CommentExtent(rest[2..], depth + 1))
    else if Starts(rest, '*', '/') then if depth <= 1 then Extent(2, true)
    else Further(2, CommentExtent(rest[2..], depth - 1))
    else Further(1, CommentExtent(rest[1..], depth))
  }

  /** Up to and with the closing quote; doubled quotes, and in escape strings escaped characters, are content. */
  function QuoteExtent(rest: string, quote: char, escapes: bool): (e: Extent)
    ensures e.len <= |rest|
  {
    if rest == "" then Extent(0, false)
    else if escapes && rest[0] == '\\' then if |rest| == 1 then Extent(1, false)
    else Further(2, QuoteExtent(rest[2..], quote, escapes))
    else if rest[0] == quote then if Starts(rest, quote, quote) then Further(2, QuoteExtent(rest[2..], quote, escapes))
    else Extent(1, true)
    else Further(1, QuoteExtent(rest[1..], quote, escapes))
  }

  function IdentLength(rest: string): (n: nat)
    ensures n <= |rest|
    ensures rest != "" && IsIdent(rest[0]) ==> n > 0
  {
    if rest != "" && IsIdent(rest[0]) then 1 + IdentLength(rest[1..]) else 0
  }

  lemma {:induction false} IdentAll(rest: string)
    requires forall i :: 0 <= i < |rest| ==> IsIdent(rest[i])
    ensures IdentLength(rest) == |rest|
  {
    if rest != "" { IdentAll(rest[1..]); }
  }

  function TagLength(rest: string): (n: nat)
    ensures n <= |rest|
  {
    if rest != "" && IsTagChar(rest[0]) then 1 + TagLength(rest[1..]) else 0
  }

  /** The length of the opening dollar quote at the start of `rest`, if there is one within its first 64 characters. */
  function DollarTag(rest: string): (n: nat)
    ensures n <= |rest|
  {
    if rest == "" || rest[0] != '$' then 0
    else
      var k := if |rest| > 1 && IsLetter(rest[1]) then TagLength(rest[1..]) else 0;
      if 1 + k < |rest| && 1 + k < 64 && rest[1 + k] == '$' then k + 2 else 0
  }

  /** Up to and with the next occurrence of `tag`. */
  function ToTag(rest: string, tag: string): (e: Extent)
    ensures e.len <= |rest|
  {
    if |rest| < |tag| then Extent(|rest|, false)
    else if rest[..|tag|] == tag then Extent(|tag|, true)
    else if rest == "" then Extent(0, false)
    else Further(1, ToTag(rest[1..], tag))
  }

  /** What an element contributes: nothing, a word, another token, or the end of a statement. */
  datatype Piece = Gap | Word(text: string) | Mark(text: string) | Semicolon

  datatype Lexeme = Lexeme(piece: Piece, len: nat, closed: bool)

  function Upon(piece: Piece, opening: nat, e: Extent): Lexeme { Lexeme(piece, opening + e.len, e.closed) }

  function Lex(before: string, rest: string): (x: Lexeme)
    requires rest != ""
    ensures 0 < x.len <= |rest|
  {
    var c := rest[0];
    if Starts(rest, '-', '-') then
      assert LineExtent(rest) == Further(2, LineExtent(rest[1..][1..]));
      Upon(Gap, 0, LineExtent(rest))
    else if Starts(rest, '/', '*') then
      assert CommentExtent(rest, 0).len >= 2;
      Upon(Gap, 0, CommentExtent(rest, 0))
    else if c == '\'' then Upon(Mark("'"), 1, QuoteExtent(rest[1..], '\'', AfterE(before)))
    else if c == '"' then Upon(Mark("\""), 1, QuoteExtent(rest[1..], '"', false))
    else if c == '$' && !AfterIdent(before) && DollarTag(rest) > 0 then
      Upon(Mark("$$"), DollarTag(rest), ToTag(rest[DollarTag(rest)..], rest[..DollarTag(rest)]))
    else if IsLetter(c) then Lexeme(Word(rest[..IdentLength(rest)]), IdentLength(rest), true)
    else if c == ';' then Lexeme(Semicolon, 1, true)
    else Lexeme(if IsSpace(c) then Gap else Mark([c]), 1, true)
  }

  // ----- A closed element does not look past a following `;`, and nothing looks back across a break -----

  lemma {:induction false} LineGrows(rest: string, more: string)
    requires LineExtent(rest).closed
    ensures LineExtent(rest + more) == LineExtent(rest)
  {
    if rest[0] != '\n' {
      LineGrows(rest[1..], more);
      assert (rest + more)[1..] == rest[1..] + more;
    }
  }

  lemma {:induction false} CommentGrows(rest: string, depth: nat, more: string)
    requires CommentExtent(rest, depth).closed
    ensures CommentExtent(rest + more, depth) == CommentExtent(rest, depth)
  {
    if |rest| > 1 { assert (rest + more)[2..] == rest[2..] + more; }
    assert (rest + more)[1..] == rest[1..] + more;
    if Starts(rest, '/', '*') {
      CommentGrows(rest[2..], depth + 1, more);
    } else if Starts(rest, '*', '/') {
      if depth > 1 { CommentGrows(rest[2..], depth - 1, more); }
    } else {
      CommentGrows(rest[1..], depth, more);
    }
  }

  lemma {:induction false} QuoteGrows(rest: string, quote: char, escapes: bool, more: string)
    requires QuoteExtent(rest, quote, escapes).closed && quote != ';' && more != "" && more[0] == ';'
    ensures QuoteExtent(rest + more, quote, escapes) == QuoteExtent(rest, quote, escapes)
  {
    if |rest| > 1 { assert (rest + more)[2..] == rest[2..] + more; }
    assert (rest + more)[1..] == rest[1..] + more;
    if escapes && rest[0] == '\\' {
      QuoteGrows(rest[2..], quote, escapes, more);
    } else if rest[0] == quote {
      if Starts(rest, quote, quote) { QuoteGrows(rest[2..], quote, escapes, more); }
    } else {
      QuoteGrows(rest[1..], quote, escapes, more);
    }
  }

  lemma {:induction false} IdentGrows(rest: string, more: string)
    requires more != "" && more[0] == ';'
    ensures IdentLength(rest + more) == IdentLength(rest)
  {
    if rest == "" {
      assert rest + more == more;
    } else if IsIdent(rest[0]) {
      IdentGrows(rest[1..], more);
      assert (rest + more)[1..] == rest[1..] + more;
    }
  }

  lemma {:induction false} TagGrows(rest: string, more: string)
    requires more != "" && more[0] == ';'
    ensures TagLength(rest + more) == TagLength(rest)
  {
    if rest == "" {
      assert rest + more == more;
    } else if IsTagChar(rest[0]) {
      TagGrows(rest[1..], more);
      assert (rest + more)[1..] == rest[1..] + more;
    }
  }

  lemma DollarGrows(rest: string, more: string)
    requires rest != "" && more != "" && more[0] == ';'
    ensures DollarTag(rest + more) == DollarTag(rest)
  {
    if rest[0] == '$' {
      assert (rest + more)[1..] == rest[1..] + more;
      TagGrows(rest[1..], more);
    }
  }

  lemma {:induction false} ToTagGrows(rest: string, tag: string, more: string)
    requires ToTag(rest, tag).closed
    ensures ToTag(rest + more, tag) == ToTag(rest, tag)
  {
    assert (rest + more)[..|tag|] == rest[..|tag|];
    if rest[..|tag|] != tag {
      assert (rest + more)[1..] == rest[1..] + more;
      ToTagGrows(rest[1..], tag, more);
    }
  }

  lemma LexGrows(before: string, rest: string, more: string)
    requires rest != "" && more != "" && more[0] == ';' && Lex(before, rest).closed
    ensures Lex(before, rest + more) == Lex(before, rest)
  {
    var c := rest[0];
    if Starts(rest, '-', '-') || Starts(rest, '/', '*') || c in {'\'', '"'} {
      BracketsGrow(before, rest, more);
    } else {
      TokensGrow(before, rest, more);
    }
  }

  lemma BracketsGrow(before: string, rest: string, more: string)
    requires rest != "" && more != "" && more[0] == ';' && Lex(before, rest).closed
    requires Starts(rest, '-', '-') || Starts(rest, '/', '*') || rest[0] in {'\'', '"'}
    ensures Lex(before, rest + more) == Lex(before, rest)
  {
    hide TagLength, IsSpace, DollarTag, IdentLength, ToTag, AfterE, QuoteExtent, CommentExtent, LineExtent;
    assert (rest + more)[1..] == rest[1..] + more;
    if Starts(rest, '-', '-') {
      LineGrows(rest, more);
    } else if Starts(rest, '/', '*') {
      CommentGrows(rest, 0, more);
    } else if rest[0] == '\'' {
      QuoteGrows(rest[1..], '\'', AfterE(before), more);
    } else {
      QuoteGrows(rest[1..], '"', false, more);
    }
  }

  lemma TokensGrow(before: string, rest: string, more: string)
    requires rest != "" && more != "" && more[0] == ';' && Lex(before, rest).closed
    requires !Starts(rest, '-', '-') && !Starts(rest, '/', '*') && rest[0] !in {'\'', '"'}
    ensures Lex(before, rest + more) == Lex(before, rest)
  {
    hide TagLength, IsSpace, DollarTag, IdentLength, ToTag, QuoteExtent, CommentExtent, LineExtent, AfterIdent;
    DollarGrows(rest, more);
    IdentGrows(rest, more);
    var d, n := DollarTag(rest), IdentLength(rest);
    assert (rest + more)[d..] == rest[d..] + more && (rest + more)[..d] == rest[..d];
    assert (rest + more)[..n] == rest[..n];
    assert !Starts(rest + more, '-', '-') && !Starts(rest + more, '/', '*');
    if rest[0] == '$' && !AfterIdent(before) && d > 0 { ToTagGrows(rest[d..], rest[..d], more); }
  }

  /** After a character that no word can hold, such as `;`, an element reads as at the start of a text. */
  lemma LexAfterBreak(p: string, before: string, rest: string)
    requires rest != "" && p != "" && !IsIdent(p[|p| - 1])
    ensures Lex(p + before, rest) == Lex(before, rest)
  {
    hide QuoteExtent, CommentExtent, LineExtent, ToTag, DollarTag, IdentLength, IsSpace;
    var q := p + before;
    if before == "" { assert q == p; } else { assert q[|q| - 1] == before[|before| - 1]; }
    if |before| == 1 { assert q[|q| - 2] == p[|p| - 1]; }
    if |before| > 1 { assert q[|q| - 2] == before[|before| - 2]; }
  }
}
