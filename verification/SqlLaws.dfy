/** What the scan reads, and what it passes over: texts written out element by element, and what is found in them. */
module SqlLaws {
  import opened JsText
  import opened SqlLexer
  import opened SqlScanner

  // ----- SQL texts, element by element -----

  /** Written out, an element is: the word; the character; `--` and the text of the line; `/` `*` body `*` `/`; the body
      between quotes; the body between `$tag$` and `$tag$`. */
  datatype Element =
    | Name(word: string)
    | Blank(c: char)
    | Sign(c: char)
    | Stop
    | LineComment(text: string)
    | BlockComment(body: string)
    | Quoted(body: string)
    | Escaped(body: string)
    | Named(body: string)
    | Dollar(tag: string, body: string)

  function Text(e: Element): (s: string)
    ensures e.Dollar? || e.Quoted? || e.Escaped? || e.Named? || e.Blank? || e.Sign? || e.Stop? ==> s != ""
  {
    match e
    case Name(w) => w
    case Blank(c) => [c]
    case Sign(c) => [c]
    case Stop => ";"
    case LineComment(t) => "--" + t
    case BlockComment(b) => "/*" + b + "*/"
    case Quoted(b) => "'" + b + "'"
    case Escaped(b) => "'" + b + "'"
    case Named(b) => "\"" + b + "\""
    case Dollar(t, b) => "$" + t + "$" + b + "$" + t + "$"
  }

  function Render(es: seq<Element>): string { if es == [] then "" else Text(es[0]) + Render(es[1..]) }

  predicate IsName(w: string) { w != "" && IsLetter(w[0]) && forall i :: 0 <= i < |w| ==> IsIdent(w[i]) }

  /** Inside a block comment: comments nest, and no other `/` `*` or `*` `/` is formed up to the end of the comment. */
  ghost predicate CommentText(b: string)
    decreases |b|
  {
    || b == ""
    || (!Starts(b + "*/", '/', '*') && !Starts(b + "*/", '*', '/') && CommentText(b[1..]))
    || (exists inner, more ::
      b == "/*" + inner + "*/" + more && |inner| < |b| && |more| < |b| && CommentText(inner) && CommentText(more))
  }

  /** Inside quotes: a quote is doubled, or escaped with a backslash where that is allowed. */
  predicate QuoteText(b: string, quote: char, escapes: bool) {
    if b == "" then true
    else if escapes && b[0] == '\\' then |b| > 1 && QuoteText(b[2..], quote, escapes)
    else if b[0] == quote then |b| > 1 && b[1] == quote && QuoteText(b[2..], quote, escapes)
    else QuoteText(b[1..], quote, escapes)
  }

  /** Nothing, or a letter and then letters and digits; with the two `$`, at most 64 characters. */
  predicate IsTag(tag: string) {
    && |tag| <= 62 && (tag != "" ==> IsLetter(tag[0]))
    && forall i :: 0 <= i < |tag| ==> IsTagChar(tag[i])
  }

  predicate Occurs(s: string, part: string, k: int) { 0 <= k <= |s| - |part| && s[k..k + |part|] == part }

  /** `close` is not found in `body + close` before its end. */
  predicate EndsFirst(body: string, close: string) {
    forall k :: 0 <= k < |body| ==> !Occurs(body + close, close, k)
  }

  predicate BeginsWith(s: string, c: char) { s != "" && s[0] == c }

  /** A lone `E` or `e` stands last in `before`. */
  predicate LoneE(before: string) {
    var n := |before|;
    n > 0 && (before[n - 1] == 'E' || before[n - 1] == 'e') && (n > 1 ==> !IsIdent(before[n - 2]))
  }

  /** Element `e` between the texts `before` and `after` is well formed and not joined to either. */
  ghost predicate Legible(before: string, e: Element, after: string) {
    match e
    case Name(w) => IsName(w) && (after != "" ==> !IsIdent(after[0]))
    case Blank(c) => IsSpace(c) && !IsLetter(c)
    case Sign(c) =>
      && !IsSpace(c) && !IsLetter(c) && c !in {';', '\'', '"'}
      && !(c == '-' && BeginsWith(after, '-')) && !(c == '/' && BeginsWith(after, '*'))
      && (c == '$' && after != "" ==> !IsLetter(after[0]) && after[0] != '$')
    case Stop => true
    case LineComment(t) => (forall i :: 0 <= i < |t| ==> t[i] != '\n') && BeginsWith(after, '\n')
    case BlockComment(b) => CommentText(b)
    case Quoted(b) => QuoteText(b, '\'', false) && !LoneE(before) && !BeginsWith(after, '\'')
    case Escaped(b) => QuoteText(b, '\'', true) && LoneE(before) && !BeginsWith(after, '\'')
    case Named(b) => QuoteText(b, '"', false) && !BeginsWith(after, '"')
    case Dollar(t, b) =>
      IsTag(t) && EndsFirst(b, "$" + t + "$") && (before != "" ==> !IsIdent(before[|before| - 1]))
  }

  /** So are all of `es`, between `before` and `more`. */
  ghost predicate AllLegible(before: string, es: seq<Element>, more: string)
    decreases |es|
  {
    es == [] || (Legible(before, es[0], Render(es[1..]) + more) && AllLegible(before + Text(es[0]), es[1..], more))
  }

  /** What is read of an element: comments and white space leave no token. */
  function PieceOf(e: Element): Piece {
    match e
    case Name(w) => Word(w)
    case Sign(c) => Mark([c])
    case Stop => Semicolon
    case Quoted(_) => Mark("'")
    case Escaped(_) => Mark("'")
    case Named(_) => Mark("\"")
    case Dollar(_, _) => Mark("$$")
    case _ => Gap
  }

  function TokensOf(before: string, es: seq<Element>): seq<Tok>
    decreases |es|
  {
    if es == [] then []
    else
      (if PieceOf(es[0]) == Gap then [] else [Tok(PieceOf(es[0]), 1 + Newlines(before))])
        + TokensOf(before + Text(es[0]), es[1..])
  }

  // ----- Each element is read for what it is -----

  lemma {:induction false} NameIsRead(w: string, after: string)
    requires (forall i :: 0 <= i < |w| ==> IsIdent(w[i])) && (after != "" ==> !IsIdent(after[0]))
    ensures IdentLength(w + after) == |w|
  {
    if w == "" {
      assert w + after == after;
    } else {
      assert (w + after)[1..] == w[1..] + after;
      NameIsRead(w[1..], after);
    }
  }

  lemma {:induction false} LineIsRead(text: string, after: string)
    requires (forall i :: 0 <= i < |text| ==> text[i] != '\n') && BeginsWith(after, '\n')
    ensures LineExtent(text + after) == Extent(|text|, true)
  {
    if text == "" {
      assert text + after == after;
    } else {
      assert (text + after)[1..] == text[1..] + after;
      LineIsRead(text[1..], after);
    }
  }

  lemma {:induction false} CommentIsRead(b: string, after: string, depth: nat)
    requires CommentText(b) && depth > 0
    ensures CommentExtent(b + "*/" + after, depth) == Further(|b|, CommentExtent("*/" + after, depth))
    decreases |b|
  {
    var rest := b + "*/" + after;
    if b == "" {
      assert rest == "*/" + after;
    } else if !Starts(b + "*/", '/', '*') && !Starts(b + "*/", '*', '/') && CommentText(b[1..]) {
      assert rest[0] == b[0] == (b + "*/")[0] && rest[1] == (b + "*/")[1];
      assert rest[1..] == b[1..] + "*/" + after;
      CommentIsRead(b[1..], after, depth);
    } else {
      var inner, more :| b == "/*" + inner + "*/" + more && |inner| < |b| && |more| < |b|
        && CommentText(inner) && CommentText(more);
      NestIsRead(inner, more, after, depth);
    }
  }

  lemma {:induction false} NestIsRead(inner: string, more: string, after: string, depth: nat)
    requires CommentText(inner) && CommentText(more) && depth > 0
    ensures var b := "/*" + inner + "*/" + more;
      CommentExtent(b + "*/" + after, depth) == Further(|b|, CommentExtent("*/" + after, depth))
    decreases |inner| + |more| + 1
  {
    hide CommentText;
    var rest, tail := ("/*" + inner + "*/" + more) + "*/" + after, more + "*/" + after;
    assert rest == "/*" + (inner + "*/" + tail);
    assert Starts(rest, '/', '*') && rest[2..] == inner + "*/" + tail;
    CommentIsRead(inner, tail, depth + 1);
    var close := "*/" + tail;
    assert Starts(close, '*', '/') && close[2..] == tail;
    CommentIsRead(more, after, depth);
  }

  lemma BlockIsRead(b: string, after: string)
    requires CommentText(b)
    ensures CommentExtent("/*" + b + "*/" + after, 0) == Extent(|b| + 4, true)
  {
    hide CommentText;
    var rest := "/*" + b + "*/" + after;
    assert rest == "/*" + (b + "*/" + after);
    assert Starts(rest, '/', '*') && rest[2..] == b + "*/" + after;
    CommentIsRead(b, after, 1);
    var close := "*/" + after;
    assert Starts(close, '*', '/') && !Starts(close, '/', '*');
  }

  lemma {:induction false} QuoteIsRead(b: string, quote: char, escapes: bool, after: string)
    requires QuoteText(b, quote, escapes) && quote != '\\' && !BeginsWith(after, quote)
    ensures QuoteExtent(b + [quote] + after, quote, escapes) == Extent(|b| + 1, true)
  {
    var rest := b + [quote] + after;
    if b == "" {
      assert rest[0] == quote && (|rest| > 1 ==> rest[1] == after[0]);
    } else if (escapes && b[0] == '\\') || b[0] == quote {
      assert rest[2..] == b[2..] + [quote] + after && rest[0] == b[0] && rest[1] == b[1];
      QuoteIsRead(b[2..], quote, escapes, after);
    } else {
      assert rest[1..] == b[1..] + [quote] + after && rest[0] == b[0];
      QuoteIsRead(b[1..], quote, escapes, after);
    }
  }

  lemma {:induction false} TagIsRead(tag: string, after: string)
    requires (forall i :: 0 <= i < |tag| ==> IsTagChar(tag[i])) && BeginsWith(after, '$')
    ensures TagLength(tag + after) == |tag|
  {
    if tag == "" {
      assert tag + after == after;
    } else {
      assert (tag + after)[1..] == tag[1..] + after;
      TagIsRead(tag[1..], after);
    }
  }

  lemma DollarIsRead(tag: string, after: string)
    requires IsTag(tag)
    ensures DollarTag("$" + tag + "$" + after) == |tag| + 2
  {
    var rest := "$" + tag + "$" + after;
    assert rest[1..] == tag + ("$" + after);
    TagIsRead(tag, "$" + after);
    assert rest[1 + |tag|] == '$';
  }

  lemma {:induction false} BodyIsRead(body: string, close: string, after: string)
    requires EndsFirst(body, close) && close != ""
    ensures ToTag(body + close + after, close) == Extent(|body| + |close|, true)
  {
    var rest := body + close + after;
    if body == "" {
      assert rest[..|close|] == close;
    } else {
      assert rest[..|close|] == (body + close)[0..0 + |close|] && !Occurs(body + close, close, 0);
      assert rest[1..] == body[1..] + close + after;
      assert body[1..] + close == (body + close)[1..];
      forall k | 0 <= k < |body[1..]| ensures !Occurs(body[1..] + close, close, k) {
        assert !Occurs(body + close, close, k + 1);
        assert (body + close)[1..][k..k + |close|] == (body + close)[k + 1..k + 1 + |close|];
      }
      BodyIsRead(body[1..], close, after);
    }
  }

  /** The branches of the lexer, one by one. */
  lemma LexComment(before: string, rest: string)
    requires rest != ""
    ensures Starts(rest, '-', '-') ==> Lex(before, rest) == Upon(Gap, 0, LineExtent(rest))
    ensures Starts(rest, '/', '*') ==> Lex(before, rest) == Upon(Gap, 0, CommentExtent(rest, 0))
  {
    hide QuoteExtent, CommentExtent, LineExtent, ToTag, DollarTag, IdentLength, IsSpace, IsLetter, AfterE;
  }

  lemma LexQuote(before: string, rest: string)
    requires rest != ""
    ensures rest[0] == '\'' ==>
      Lex(before, rest) == Upon(Mark("'"), 1, QuoteExtent(rest[1..], '\'', AfterE(before)))
    ensures rest[0] == '"' ==> Lex(before, rest) == Upon(Mark("\""), 1, QuoteExtent(rest[1..], '"', false))
  {
    hide QuoteExtent, CommentExtent, LineExtent, ToTag, DollarTag, IdentLength, IsSpace, IsLetter, AfterE;
  }

  lemma LexDollar(before: string, rest: string)
    requires BeginsWith(rest, '$') && !AfterIdent(before) && DollarTag(rest) > 0
    ensures var n := DollarTag(rest); Lex(before, rest) == Upon(Mark("$$"), n, ToTag(rest[n..], rest[..n]))
  {
    hide QuoteExtent, CommentExtent, LineExtent, ToTag, DollarTag, IdentLength, IsSpace, IsLetter, AfterE;
  }

  lemma LexOne(before: string, rest: string)
    requires rest != "" && !IsLetter(rest[0]) && rest[0] != '\'' && rest[0] != '"'
    requires !Starts(rest, '-', '-') && !Starts(rest, '/', '*') && (rest[0] == '$' ==> DollarTag(rest) == 0)
    ensures Lex(before, rest)
      == Lexeme(if rest[0] == ';' then Semicolon else if IsSpace(rest[0]) then Gap else Mark([rest[0]]), 1, true)
  {
    hide QuoteExtent, CommentExtent, LineExtent, ToTag, DollarTag, IdentLength, IsSpace, AfterE;
  }

  lemma CommentsAreRead(before: string, e: Element, after: string)
    requires Legible(before, e, after) && (e.LineComment? || e.BlockComment?)
    ensures Lex(before, Text(e) + after) == Lexeme(PieceOf(e), |Text(e)|, true)
  {
    hide Lex, CommentExtent, LineExtent, CommentText;
    var rest := Text(e) + after;
    LexComment(before, rest);
    if e.LineComment? {
      assert rest[0] == '-' && rest[1] == '-' && rest[2..] == e.text + after;
      LineIsRead(e.text, after);
      LineStarts(rest);
    } else {
      assert rest[0] == '/' && rest[1] == '*';
      BlockIsRead(e.body, after);
    }
  }

  lemma LineStarts(rest: string)
    requires Starts(rest, '-', '-')
    ensures LineExtent(rest) == Further(2, LineExtent(rest[2..]))
  {
    assert rest[1..][1..] == rest[2..];
  }

  lemma QuotesAreRead(before: string, e: Element, after: string)
    requires Legible(before, e, after) && (e.Quoted? || e.Escaped? || e.Named?)
    ensures Lex(before, Text(e) + after) == Lexeme(PieceOf(e), |Text(e)|, true)
  {
    hide Lex, QuoteExtent, QuoteText, IsIdent, LoneE, AfterE;
    var rest, quote := Text(e) + after, if e.Named? then '"' else '\'';
    QuoteOpens(quote, e.body, after);
    assert rest == [quote] + e.body + [quote] + after;
    LexQuote(before, rest);
    QuoteIsRead(e.body, quote, e.Escaped?, after);
    LoneEs(before);
  }

  lemma QuoteOpens(quote: char, body: string, after: string)
    ensures var rest := [quote] + body + [quote] + after;
      rest != "" && rest[0] == quote && rest[1..] == body + [quote] + after
  {
  }

  lemma LoneEs(before: string)
    ensures AfterE(before) <==> LoneE(before)
  {
    hide IsIdent;
  }

  lemma DollarQuoteIsRead(before: string, e: Element, after: string)
    requires Legible(before, e, after) && e.Dollar?
    ensures Lex(before, Text(e) + after) == Lexeme(PieceOf(e), |Text(e)|, true)
  {
    hide Lex, ToTag, DollarTag, EndsFirst, IsTag, IsIdent, Text;
    var rest, close := Text(e) + after, "$" + e.tag + "$";
    DollarParts(e, after, close);
    DollarIsRead(e.tag, e.body + close + after);
    BodyIsRead(e.body, close, after);
    LexDollar(before, rest);
  }

  lemma DollarParts(e: Element, after: string, close: string)
    requires e.Dollar? && close == "$" + e.tag + "$"
    ensures var rest := Text(e) + after;
      && rest == close + (e.body + close + after) && BeginsWith(rest, '$') && |Text(e)| == |close| + |e.body| + |close|
      && rest[..|close|] == close && rest[|close|..] == e.body + close + after
  {
    var rest := Text(e) + after;
    assert rest == close + (e.body + close + after);
  }

  lemma NameWordIsRead(before: string, e: Element, after: string)
    requires Legible(before, e, after) && e.Name?
    ensures Lex(before, Text(e) + after) == Lexeme(PieceOf(e), |Text(e)|, true)
  {
    hide Lex, IdentLength, IsIdent, IsLetter;
    var rest := e.word + after;
    assert rest[0] == e.word[0] && rest[..|e.word|] == e.word;
    NameIsRead(e.word, after);
    LexWord(before, rest);
  }

  lemma OneIsRead(before: string, e: Element, after: string)
    requires Legible(before, e, after) && (e.Blank? || e.Sign? || e.Stop?)
    ensures Lex(before, Text(e) + after) == Lexeme(PieceOf(e), |Text(e)|, true)
  {
    hide Lex, DollarTag;
    var rest := Text(e) + after;
    assert rest[0] == Text(e)[0] && rest[1..] == after && (after != "" ==> rest[1] == after[0]);
    if rest[0] == '$' { LoneDollar(rest); }
    LexOne(before, rest);
  }

  lemma LoneDollar(rest: string)
    requires rest != "" && (|rest| > 1 ==> !IsLetter(rest[1]) && rest[1] != '$')
    ensures DollarTag(rest) == 0
  {
  }

  /** Every element is read as itself. */
  lemma ElementIsRead(before: string, e: Element, after: string)
    requires Legible(before, e, after)
    ensures Text(e) != ""
    ensures Lex(before, Text(e) + after) == Lexeme(PieceOf(e), |Text(e)|, true)
  {
    hide Lex, IsSpace, CommentText, QuoteText, IsIdent, EndsFirst, LoneE;
    match e
    case Name(_) => NameWordIsRead(before, e, after);
    case Dollar(_, _) => DollarQuoteIsRead(before, e, after);
    case LineComment(_) => CommentsAreRead(before, e, after);
    case BlockComment(_) => CommentsAreRead(before, e, after);
    case Quoted(_) => QuotesAreRead(before, e, after);
    case Escaped(_) => QuotesAreRead(before, e, after);
    case Named(_) => QuotesAreRead(before, e, after);
    case _ => OneIsRead(before, e, after);
  }

  /** A text written out of elements is read as those elements, and nothing of it is cut by its end. */
  lemma {:induction false} TextIsRead(before: string, es: seq<Element>, more: string)
    requires AllLegible(before, es, more)
    ensures Tokens(before, Render(es) + more) == TokensOf(before, es) + Tokens(before + Render(es), more)
    ensures more == "" ==> AllClosed(before, Render(es))
    decreases |es|
  {
    hide Lex, Legible, Text, Newlines, Tokens, AllClosed, AllLegible, TokensOf;
    if es == [] {
      assert Render(es) + more == more && before + Render(es) == before;
      LegibleNone(before, more);
      NothingCut(before);
    } else {
      Unfold(before, es, more);
      var e, after := es[0], Render(es[1..]) + more;
      ElementIsRead(before, e, after);
      var rest := Text(e) + after;
      assert Render(es) + more == rest && (before + Text(e)) + Render(es[1..]) == before + Render(es);
      assert rest[..|Text(e)|] == Text(e) && rest[|Text(e)|..] == after;
      TokensUnfold(before, rest);
      TextIsRead(before + Text(e), es[1..], more);
      if more == "" {
        assert rest == Render(es) && after == Render(es[1..]);
        ClosedStep(before, rest);
      }
    }
  }

  lemma NothingCut(before: string)
    ensures AllClosed(before, "")
  {
  }

  lemma ClosedStep(before: string, rest: string)
    requires rest != "" && Lex(before, rest).closed
    requires var x := Lex(before, rest); AllClosed(before + rest[..x.len], rest[x.len..])
    ensures AllClosed(before, rest)
  {
  }

  // ----- What is found in them -----

  /** The hits of a text are those of its elements. */
  lemma HitsOfElements(up: Upper, es: seq<Element>)
    requires AllLegible("", es, "")
    ensures Hits(up, Render(es)) == HitsFrom(up, [], TokensOf("", es)) && AllClosed("", Render(es))
  {
    hide Tokens, AllClosed, HitsFrom, Render, TokensOf;
    TextIsRead("", es, "");
    assert Render(es) + "" == Render(es);
    NoText("" + Render(es));
    assert TokensOf("", es) + [] == TokensOf("", es);
  }

  /** The keyword a statement with the first words `a` and `b`, in upper case, is reported under. */
  function Control(a: string, b: string): seq<string> {
    if a == "BEGIN" || a == "COMMIT" || a == "END" || a == "ROLLBACK" || a == "ABORT" then [a]
    else if (a == "START" || a == "PREPARE") && b == "TRANSACTION" then [a + " TRANSACTION"]
    else []
  }

  function OnLine(line: nat, keywords: seq<string>): seq<Hit> {
    if keywords == [] then [] else [Hit(line, keywords[0])]
  }

  lemma JudgedByControl(up: Upper, words: seq<Tok>)
    requires words != []
    ensures Judge(up, words) == OnLine(words[0].line, Control(up(words[0].Text()), WordAt(up, words, 1)))
  {
  }

  predicate NoStop(toks: seq<Tok>) { forall i :: 0 <= i < |toks| ==> toks[i].piece != Semicolon }

  lemma {:induction false} OneStatement(up: Upper, words: seq<Tok>, toks: seq<Tok>)
    requires NoStop(toks)
    ensures HitsFrom(up, words, toks) == Judge(up, words + toks) && LastStatement(up, words, toks) == words + toks
    decreases |toks|
  {
    hide Judge, Depth, HitsFrom;
    if toks == [] {
      assert words + toks == words;
      HitsEnd(up, words);
    } else {
      assert [toks[0]] + toks[1..] == toks;
      HitsStep(up, words, toks[0], toks[1..]);
      OneStatement(up, words + [toks[0]], toks[1..]);
      assert (words + [toks[0]]) + toks[1..] == words + toks;
    }
  }

  /** One statement and the text after it. */
  lemma StatementIsJudged(up: Upper, es: seq<Element>, toks: seq<Tok>, s2: string)
    requires AllLegible("", es, "") && toks == TokensOf("", es) && NoStop(toks) && Depth(up, toks) == 0
    ensures Hits(up, Render(es) + ";" + s2)
      == Judge(up, toks) + ShiftedHits(Hits(up, s2), Newlines(Render(es)))
  {
    hide AllLegible, TokensOf, Render, Tokens, AllClosed, Judge, HitsFrom, Depth;
    HitsOfElements(up, es);
    TextIsRead("", es, "");
    assert Render(es) + "" == Render(es);
    NoText("" + Render(es));
    assert toks + [] == toks && [] + toks == toks;
    OneStatement(up, [], toks);
    ScanIsCompositional(up, Render(es), s2);
  }

  lemma RenderOne(e: Element, es: seq<Element>)
    ensures Render([e] + es) == Text(e) + Render(es) && Render([]) == ""
    ensures Render([e]) == Text(e)
  {
    assert ([e] + es)[1..] == es && [e] + [] == [e];
    assert Text(e) + "" == Text(e);
  }

  lemma LegibleOne(before: string, e: Element, es: seq<Element>, more: string)
    requires Legible(before, e, Render(es) + more) && AllLegible(before + Text(e), es, more)
    ensures AllLegible(before, [e] + es, more)
    ensures TokensOf(before, [e] + es)
      == (if PieceOf(e) == Gap then [] else [Tok(PieceOf(e), 1 + Newlines(before))]) + TokensOf(before + Text(e), es)
  {
    assert ([e] + es)[1..] == es;
  }

  lemma LegibleNone(before: string, more: string)
    ensures AllLegible(before, [], more) && TokensOf(before, []) == []
  {
  }

  /** `DO`, a blank, and elements `es`. */
  lemma DoFirst(es: seq<Element>)
    requires AllLegible("DO ", es, "")
    ensures var all := [Name("DO")] + ([Blank(' ')] + es);
      && AllLegible("", all, "") && Render(all) == "DO " + Render(es)
      && TokensOf("", all) == [Tok(Word("DO"), 1)] + TokensOf("DO ", es)
  {
    hide AllLegible, Render, TokensOf;
    var d, b := Name("DO"), Blank(' ');
    assert "" + "DO" == "DO" && "DO" + " " == "DO ";
    RenderOne(b, es);
    RenderOne(d, [b] + es);
    assert IsName("DO") && !IsIdent(' ') && ((" " + Render(es)) + "")[0] == ' ';
    LegibleOne("DO", b, es, "");
    LegibleOne("", d, [b] + es, "");
    assert "DO" + (" " + Render(es)) == "DO " + Render(es);
    assert [] + TokensOf("DO ", es) == TokensOf("DO ", es);
    NoText("");
  }

  lemma DepthOfThree(up: Upper, toks: seq<Tok>)
    requires |toks| <= 2 || (|toks| == 3 && !toks[2].piece.Word?)
    ensures Depth(up, toks) == 0
  {
    if |toks| > 0 {
      var a := toks[..|toks| - 1];
      if |a| > 0 {
        var b := a[..|a| - 1];
        if |b| > 0 { assert b[..|b| - 1] == []; }
      }
    }
  }

  /** A DO statement with a quoted body, up to its end, is passed over. */
  lemma DoIsPassedOver(up: Upper, es: seq<Element>, toks: seq<Tok>, s2: string)
    requires up("DO") == "DO" && AllLegible("DO ", es, "") && toks == TokensOf("DO ", es) && NoStop(toks)
    requires |toks| == 1 || (|toks| == 2 && !toks[1].piece.Word?)
    ensures Hits(up, "DO " + Render(es) + ";" + s2) == ShiftedHits(Hits(up, s2), Newlines(Render(es)))
  {
    hide AllLegible, TokensOf, Hits, Render, Depth, Judge;
    DoFirst(es);
    var all := [Name("DO")] + ([Blank(' ')] + es);
    var ts := [Tok(Word("DO"), 1)] + toks;
    DepthOfThree(up, ts);
    StatementIsJudged(up, all, ts, s2);
    JudgedByControl(up, ts);
    NewlinesAdd("DO ", Render(es));
    NoNewlineInDo();
    assert [] + ShiftedHits(Hits(up, s2), Newlines(Render(es))) == ShiftedHits(Hits(up, s2), Newlines(Render(es)));
  }

  lemma NoNewlineInDo()
    ensures Newlines("DO ") == 0
  {
    assert "DO "[..2] == "DO" && "DO"[..1] == "D" && "D"[..0] == "";
  }

  lemma OnlyElement(before: string, e: Element)
    requires Legible(before, e, "") && PieceOf(e) != Gap
    ensures AllLegible(before, [e], "") && Render([e]) == Text(e)
    ensures TokensOf(before, [e]) == [Tok(PieceOf(e), 1 + Newlines(before))]
  {
    hide AllLegible, TokensOf, Legible, Render;
    RenderOne(e, []);
    assert [e] + [] == [e] && "" + "" == "";
    LegibleNone(before + Text(e), "");
    LegibleOne(before, e, [], "");
  }

  lemma QuotedIsPassedOver(up: Upper, e: Element, s2: string)
    requires up("DO") == "DO" && Legible("DO ", e, "") && PieceOf(e).Mark?
    ensures Hits(up, "DO " + Text(e) + ";" + s2) == ShiftedHits(Hits(up, s2), Newlines(Text(e)))
  {
    hide Hits, Legible, Render, TokensOf, AllLegible, Text;
    OnlyElement("DO ", e);
    DoIsPassedOver(up, [e], TokensOf("DO ", [e]), s2);
  }

  lemma {:induction false} NoNewlines(s: string)
    requires forall i :: 0 <= i < |s| ==> s[i] != '\n'
    ensures Newlines(s) == 0
  {
    if s != "" { NoNewlines(s[..|s| - 1]); }
  }

  /** Only the line breaks of the body count. */
  lemma BracketsHoldNoNewline(open: string, body: string, close: string)
    requires forall i :: 0 <= i < |open| ==> open[i] != '\n'
    requires forall i :: 0 <= i < |close| ==> close[i] != '\n'
    ensures Newlines(open + body + close) == Newlines(body)
  {
    hide Newlines;
    NoNewlines(open);
    NoNewlines(close);
    NewlinesAdd(open + body, close);
    NewlinesAdd(open, body);
  }

  lemma TagHasNoNewline(tag: string)
    requires IsTag(tag)
    ensures forall i :: 0 <= i < |tag| + 2 ==> ("$" + tag + "$")[i] != '\n'
  {
  }

  /** A DO statement with the body in brackets of some kind. */
  lemma BracketedBody(up: Upper, e: Element, open: string, body: string, close: string, s2: string)
    requires up("DO") == "DO" && Legible("DO ", e, "") && PieceOf(e).Mark? && Text(e) == open + body + close
    requires forall i :: 0 <= i < |open| ==> open[i] != '\n'
    requires forall i :: 0 <= i < |close| ==> close[i] != '\n'
    ensures Hits(up, "DO " + (open + body + close) + ";" + s2) == ShiftedHits(Hits(up, s2), Newlines(body))
  {
    hide *;
    QuotedIsPassedOver(up, e, s2);
    BracketsHoldNoNewline(open, body, close);
  }

  lemma LegibleDollar(tag: string, body: string, mark: string)
    requires IsTag(tag) && mark == "$" + tag + "$" && EndsFirst(body, mark)
    ensures var e := Dollar(tag, body);
      Legible("DO ", e, "") && PieceOf(e).Mark? && Text(e) == mark + body + mark
  {
    hide EndsFirst;
    assert mark + body + mark == "$" + tag + "$" + body + "$" + tag + "$";
  }

  lemma DollarText(tag: string, body: string, mark: string, s2: string)
    requires mark == "$" + tag + "$"
    ensures "DO $" + tag + "$" + body + "$" + tag + "$;" + s2 == "DO " + (mark + body + mark) + ";" + s2
  {
  }

  /** A dollar-quoted body is hidden, whatever it holds, for every legal tag of at most 62 characters: up to the first
      place where the tag is repeated nothing is reported, and after it the scan goes on as at the start of a text. */
  lemma DollarQuotesAreHidden(up: Upper, tag: string, body: string, s2: string)
    requires up("DO") == "DO" && IsTag(tag) && EndsFirst(body, "$" + tag + "$")
    ensures Hits(up, "DO $" + tag + "$" + body + "$" + tag + "$;" + s2)
      == ShiftedHits(Hits(up, s2), Newlines(body))
  {
    hide *;
    var mark := "$" + tag + "$";
    LegibleDollar(tag, body, mark);
    TagHasNoNewline(tag);
    BracketedBody(up, Dollar(tag, body), mark, body, mark, s2);
    DollarText(tag, body, mark, s2);
  }

  lemma LegibleQuotes(body: string)
    ensures QuoteText(body, '\'', false) ==> Legible("DO ", Quoted(body), "")
    ensures QuoteText(body, '"', false) ==> Legible("DO ", Named(body), "")
    ensures PieceOf(Quoted(body)).Mark? && PieceOf(Named(body)).Mark?
    ensures Text(Quoted(body)) == "'" + body + "'" && Text(Named(body)) == "\"" + body + "\""
  {
    hide QuoteText;
  }

  lemma QuotedText(body: string, s2: string)
    ensures "DO '" + body + "';" + s2 == "DO " + ("'" + body + "'") + ";" + s2
  {
  }

  lemma NamedText(body: string, s2: string)
    ensures "DO \"" + body + "\";" + s2 == "DO " + ("\"" + body + "\"") + ";" + s2
  {
  }

  /** A quoted body is hidden, doubled quotes and all. */
  lemma QuotesAreHidden(up: Upper, body: string, s2: string)
    requires up("DO") == "DO" && QuoteText(body, '\'', false)
    ensures Hits(up, "DO '" + body + "';" + s2) == ShiftedHits(Hits(up, s2), Newlines(body))
  {
    hide *;
    LegibleQuotes(body);
    BracketedBody(up, Quoted(body), "'", body, "'", s2);
    QuotedText(body, s2);
  }

  /** So is a quoted name. */
  lemma QuotedNamesAreHidden(up: Upper, body: string, s2: string)
    requires up("DO") == "DO" && QuoteText(body, '"', false)
    ensures Hits(up, "DO \"" + body + "\";" + s2) == ShiftedHits(Hits(up, s2), Newlines(body))
  {
    hide *;
    LegibleQuotes(body);
    BracketedBody(up, Named(body), "\"", body, "\"", s2);
    NamedText(body, s2);
  }

  lemma NameBeforeQuote(w: string, e: Element)
    requires IsName(w) && (e.Quoted? || e.Escaped?)
    ensures Legible("DO ", Name(w), Text(e) + "") && PieceOf(e) == Mark("'") && PieceOf(Name(w)) == Word(w)
    ensures Text(Name(w)) == w && Text(e) == "'" + e.body + "'"
  {
    assert Text(e)[0] == '\'' && !IsIdent('\'') && (Text(e) + "")[0] == '\'';
  }

  lemma WordAndQuote(w: string, e: Element)
    requires IsName(w) && Legible("DO " + w, e, "") && (e.Quoted? || e.Escaped?)
    ensures var es := [Name(w)] + [e];
      && AllLegible("DO ", es, "") && Render(es) == w + Text(e)
      && TokensOf("DO ", es) == [Tok(Word(w), 1 + Newlines("DO "))] + [Tok(Mark("'"), 1 + Newlines("DO " + w))]
  {
    hide *;
    NameBeforeQuote(w, e);
    OnlyElement("DO " + w, e);
    RenderOne(Name(w), [e]);
    LegibleOne("DO ", Name(w), [e], "");
  }

  lemma TwoTokens(w: string, i: nat, j: nat)
    ensures NoStop([Tok(Word(w), i)] + [Tok(Mark("'"), j)])
  {
  }

  lemma PrefixedIsPassedOver(up: Upper, w: string, e: Element, s2: string)
    requires up("DO") == "DO" && IsName(w) && Legible("DO " + w, e, "") && (e.Quoted? || e.Escaped?)
    ensures Hits(up, "DO " + (w + Text(e)) + ";" + s2) == ShiftedHits(Hits(up, s2), Newlines(w + Text(e)))
  {
    hide *;
    WordAndQuote(w, e);
    var toks := [Tok(Word(w), 1 + Newlines("DO "))] + [Tok(Mark("'"), 1 + Newlines("DO " + w))];
    TwoTokens(w, 1 + Newlines("DO "), 1 + Newlines("DO " + w));
    DoIsPassedOver(up, [Name(w)] + [e], toks, s2);
  }

  lemma LoneEBefore(w: string)
    requires IsName(w)
    ensures LoneE("DO " + w) <==> w == "E" || w == "e"
  {
    hide IsIdent, IsLetter;
    var b := "DO " + w;
    assert b[|b| - 1] == w[|w| - 1];
    if |w| == 1 {
      assert w == [w[0]] && b[|b| - 2] == ' ' && !IsIdent(' ') by { NotIdent(); }
    } else {
      assert b[|b| - 2] == w[|w| - 2];
    }
  }

  lemma NotIdent()
    ensures !IsIdent(' ') && !IsIdent('\n') && !IsIdent('\'') && !IsIdent('/')
  {
  }

  lemma LegiblePrefixed(w: string, body: string)
    requires IsName(w)
    ensures if w == "E" || w == "e" then QuoteText(body, '\'', true) ==> Legible("DO " + w, Escaped(body), "")
      else QuoteText(body, '\'', false) ==> Legible("DO " + w, Quoted(body), "")
  {
    hide QuoteText, LoneE, IsName;
    LoneEBefore(w);
  }

  lemma PrefixText(w: string, body: string)
    requires IsName(w)
    ensures w + Text(Escaped(body)) == w + Text(Quoted(body)) == (w + "'") + body + "'"
    ensures forall i :: 0 <= i < |w + "'"| ==> (w + "'")[i] != '\n'
  {
    hide IsIdent, IsLetter;
    NotIdent();
    assert w + ("'" + body + "'") == (w + "'") + body + "'";
  }

  lemma PrefixedText(w: string, body: string, s2: string)
    ensures "DO " + w + "'" + body + "';" + s2 == "DO " + ((w + "'") + body + "'") + ";" + s2
  {
  }

  /** A quote directly behind a word takes escapes exactly if the word is `E` or `e`; either way its body is hidden. */
  lemma PrefixedQuotesAreHidden(up: Upper, w: string, body: string, s2: string)
    requires up("DO") == "DO" && IsName(w) && QuoteText(body, '\'', w == "E" || w == "e")
    ensures Hits(up, "DO " + w + "'" + body + "';" + s2) == ShiftedHits(Hits(up, s2), Newlines(body))
  {
    hide *;
    LegiblePrefixed(w, body);
    PrefixText(w, body);
    PrefixedIsPassedOver(up, w, if w == "E" || w == "e" then Escaped(body) else Quoted(body), s2);
    BracketsHoldNoNewline(w + "'", body, "'");
    PrefixedText(w, body, s2);
  }

  // ----- Comments -----

  lemma GapBeforeText(up: Upper, p: string, s2: string)
    requires p != "" && !IsIdent(p[|p| - 1]) && Tokens("", p + s2) == Tokens(p, s2)
    ensures Hits(up, p + s2) == ShiftedHits(Hits(up, s2), Newlines(p))
  {
    hide Tokens, Newlines, HitsFrom;
    assert p + "" == p && Shifted([], Newlines(p)) == [];
    TokensAfterBreak(p, "", s2);
    HitsShift(up, [], Tokens("", s2), Newlines(p));
  }

  lemma PassesOver(up: Upper, es: seq<Element>, p: string, s2: string)
    requires AllLegible("", es, s2) && TokensOf("", es) == [] && Render(es) == p != "" && !IsIdent(p[|p| - 1])
    ensures Hits(up, p + s2) == ShiftedHits(Hits(up, s2), Newlines(p))
  {
    hide *;
    TextIsRead("", es, s2);
    assert "" + p == p && [] + Tokens(p, s2) == Tokens(p, s2);
    GapBeforeText(up, p, s2);
  }

  lemma LegibleLine(text: string, s2: string)
    requires forall i :: 0 <= i < |text| ==> text[i] != '\n'
    ensures Legible("", LineComment(text), "\n" + s2) && Legible("--" + text, Blank('\n'), "" + s2)
    ensures Text(LineComment(text)) == "--" + text && Text(Blank('\n')) == "\n"
    ensures PieceOf(LineComment(text)) == Gap && PieceOf(Blank('\n')) == Gap && !IsIdent('\n')
  {
  }

  lemma LineBreaks(text: string)
    requires forall i :: 0 <= i < |text| ==> text[i] != '\n'
    ensures Newlines("--" + text) == 0 && Newlines("\n") == 1
  {
    assert "\n"[..0] == "";
    NoNewlines("--" + text);
  }

  lemma LineGap(text: string, s2: string)
    requires forall i :: 0 <= i < |text| ==> text[i] != '\n'
    ensures var es := [LineComment(text)] + [Blank('\n')];
      AllLegible("", es, s2) && TokensOf("", es) == [] && Render(es) == ("--" + text) + "\n"
  {
    hide *;
    var c, b, none: seq<Tok> := LineComment(text), Blank('\n'), [];
    assert [b] + [] == [b] && "" + ("--" + text) == "--" + text && none + none == none;
    LegibleLine(text, s2);
    LegibleNone("--" + text + "\n", s2);
    RenderOne(b, []);
    RenderOne(c, [b]);
    LegibleOne("--" + text, b, [], s2);
    LegibleOne("", c, [b], s2);
  }

  /** A comment up to the end of its line is passed over. */
  lemma LineCommentsAreHidden(up: Upper, text: string, s2: string)
    requires forall i :: 0 <= i < |text| ==> text[i] != '\n'
    ensures Hits(up, "--" + text + "\n" + s2) == ShiftedHits(Hits(up, s2), 1)
  {
    hide *;
    LineGap(text, s2);
    LegibleLine(text, s2);
    LineBreaks(text);
    NewlinesAdd("--" + text, "\n");
    PassesOver(up, [LineComment(text)] + [Blank('\n')], "--" + text + "\n", s2);
  }

  lemma BlockGap(body: string, s2: string)
    requires CommentText(body)
    ensures var es := [BlockComment(body)];
      AllLegible("", es, s2) && TokensOf("", es) == [] && Render(es) == "/*" + body + "*/"
    ensures !IsIdent('/')
  {
    var c, none: seq<Tok> := BlockComment(body), [];
    assert Legible("", c, "" + s2) && PieceOf(c) == Gap;
    hide Legible, TokensOf, AllLegible, Render, Newlines, CommentText;
    assert [c] + [] == [c] && "" + Text(c) == Text(c) && none + none == none;
    LegibleNone(Text(c), s2);
    RenderOne(c, []);
    LegibleOne("", c, [], s2);
  }

  /** A block comment is passed over, with the comments nested in it. */
  lemma BlockCommentsAreHidden(up: Upper, body: string, s2: string)
    requires CommentText(body)
    ensures Hits(up, "/*" + body + "*/" + s2) == ShiftedHits(Hits(up, s2), Newlines(body))
  {
    hide *;
    BlockGap(body, s2);
    BracketsHoldNoNewline("/*", body, "*/");
    PassesOver(up, [BlockComment(body)], "/*" + body + "*/", s2);
  }

  // ----- Statements and their first words -----

  /** No statement ends among the elements, and no atomic body begins. */
  predicate Plain(up: Upper, es: seq<Element>) {
    forall i :: 0 <= i < |es| ==> es[i] != Stop && (es[i].Name? ==> up(es[i].word) != "ATOMIC")
  }

  predicate PlainTokens(up: Upper, toks: seq<Tok>) {
    forall i :: 0 <= i < |toks| ==>
      toks[i].piece != Semicolon && (toks[i].piece.Word? ==> up(toks[i].Text()) != "ATOMIC")
  }

  lemma {:induction false} PlainIsRead(up: Upper, before: string, es: seq<Element>)
    requires Plain(up, es)
    ensures PlainTokens(up, TokensOf(before, es))
    decreases |es|
  {
    if es != [] { PlainIsRead(up, before + Text(es[0]), es[1..]); }
  }

  /** Only behind a BEGIN that is not the first token can an atomic body begin. */
  lemma {:induction false} NoBodyBegins(up: Upper, words: seq<Tok>, toks: seq<Tok>)
    requires |words| <= 2 && PlainTokens(up, toks)
    ensures Depth(up, words + toks) == 0
    decreases |toks|
  {
    if toks == [] {
      assert words + toks == words;
      DepthOfThree(up, words);
    } else {
      var n := |toks| - 1;
      NoBodyBegins(up, words, toks[..n]);
      assert (words + toks)[..|words| + n] == words + toks[..n];
    }
  }

  lemma Unfold(before: string, es: seq<Element>, more: string)
    requires es != [] && AllLegible(before, es, more)
    ensures Legible(before, es[0], Render(es[1..]) + more) && AllLegible(before + Text(es[0]), es[1..], more)
    ensures Render(es) == Text(es[0]) + Render(es[1..])
    ensures TokensOf(before, es) == (if PieceOf(es[0]) == Gap then [] else [Tok(PieceOf(es[0]), 1 + Newlines(before))])
      + TokensOf(before + Text(es[0]), es[1..])
  {
    hide Legible, Text, Newlines, PieceOf;
  }

  lemma {:induction false} RenderJoin(before: string, a: seq<Element>, b: seq<Element>, more: string)
    requires AllLegible(before, a, Render(b) + more) && AllLegible(before + Render(a), b, more)
    ensures AllLegible(before, a + b, more) && Render(a + b) == Render(a) + Render(b)
    ensures TokensOf(before, a + b) == TokensOf(before, a) + TokensOf(before + Render(a), b)
    decreases |a|
  {
    hide *;
    if a == [] {
      LegibleNone(before, more);
      NoneRendered();
      assert a + b == b && before + "" == before && "" + Render(b) == Render(b);
      assert [] + TokensOf(before, b) == TokensOf(before, b);
    } else {
      var e, rest, here := a[0], a[1..], before + Text(a[0]);
      assert a + b == [e] + (rest + b);
      Unfold(before, a, Render(b) + more);
      assert here + Render(rest) == before + Render(a);
      RenderJoin(here, rest, b, more);
      assert Render(rest + b) + more == Render(rest) + (Render(b) + more);
      LegibleOne(before, e, rest + b, more);
      RenderOne(e, rest + b);
      assert Text(e) + (Render(rest) + Render(b)) == Render(a) + Render(b);
      var t := if PieceOf(e) == Gap then [] else [Tok(PieceOf(e), 1 + Newlines(before))];
      assert t + (TokensOf(here, rest) + TokensOf(here + Render(rest), b))
        == (t + TokensOf(here, rest)) + TokensOf(here + Render(rest), b);
    }
  }

  lemma NoneRendered()
    ensures Render([]) == ""
  {
  }

  lemma LegibleWords(w1: string, w2: string, more: string)
    requires IsName(w1) && IsName(w2) && (more != "" ==> !IsIdent(more[0]))
    ensures Legible("", Name(w1), (" " + w2) + more) && Legible(w1, Blank(' '), w2 + more)
    ensures Legible(w1 + " ", Name(w2), "" + more)
    ensures PieceOf(Name(w1)) == Word(w1) && PieceOf(Name(w2)) == Word(w2) && PieceOf(Blank(' ')) == Gap
    ensures Text(Name(w1)) == w1 && Text(Name(w2)) == w2 && Text(Blank(' ')) == " "
  {
    hide IsIdent, IsLetter;
    NotIdent();
    assert "" + more == more && (" " + w2 + more)[0] == ' ';
    assert !IsLetter(' ') by { NotIdent(); IdentHasLetters(' '); }
  }

  lemma IdentHasLetters(c: char)
    ensures IsLetter(c) ==> IsIdent(c)
  {
  }

  /** Two words and a blank between them. */
  lemma TwoWords(w1: string, w2: string, more: string)
    requires IsName(w1) && IsName(w2) && (more != "" ==> !IsIdent(more[0]))
    ensures var es := [Name(w1)] + ([Blank(' ')] + [Name(w2)]);
      && AllLegible("", es, more) && Render(es) == w1 + " " + w2
      && TokensOf("", es) == [Tok(Word(w1), 1)] + [Tok(Word(w2), 1)]
  {
    hide *;
    LegibleWords(w1, w2, more);
    NamesHoldNoNewline(w1, w2);
    var none: seq<Tok> := [];
    NoText("");
    assert "" + w1 == w1 && [Name(w2)] + [] == [Name(w2)];
    LegibleNone(w1 + " " + w2, more);
    RenderOne(Name(w2), []);
    RenderOne(Blank(' '), [Name(w2)]);
    RenderOne(Name(w1), [Blank(' ')] + [Name(w2)]);
    LegibleOne(w1 + " ", Name(w2), [], more);
    LegibleOne(w1, Blank(' '), [Name(w2)], more);
    LegibleOne("", Name(w1), [Blank(' ')] + [Name(w2)], more);
  }

  /** Whatever a statement goes on with, and however it ends, its first two words decide: each control keyword is
      reported, START and PREPARE only with TRANSACTION. */
  lemma FirstWordsDecide(up: Upper, w1: string, w2: string, rest: seq<Element>, s2: string)
    requires IsName(w1) && IsName(w2) && AllLegible(w1 + " " + w2, rest, "") && Plain(up, rest)
    requires Render(rest) != "" ==> !IsIdent(Render(rest)[0])
    ensures Hits(up, w1 + " " + w2 + Render(rest) + ";" + s2)
      == OnLine(1, Control(up(w1), up(w2))) + ShiftedHits(Hits(up, s2), Newlines(Render(rest)))
  {
    hide *;
    var es := [Name(w1)] + ([Blank(' ')] + [Name(w2)]);
    var words, toks := [Tok(Word(w1), 1)] + [Tok(Word(w2), 1)], TokensOf(w1 + " " + w2, rest);
    assert Render(rest) + "" == Render(rest) && "" + (w1 + " " + w2) == w1 + " " + w2;
    TwoWords(w1, w2, Render(rest));
    RenderJoin("", es, rest, "");
    PlainIsRead(up, w1 + " " + w2, rest);
    NoBodyBegins(up, words, toks);
    NoStops(up, w1, w2, toks);
    StatementIsJudged(up, es + rest, words + toks, s2);
    JudgedByControl(up, words + toks);
    NamesHoldNoNewline(w1, w2);
    NewlinesAdd(w1 + " " + w2, Render(rest));
  }

  lemma NoStops(up: Upper, w1: string, w2: string, toks: seq<Tok>)
    requires PlainTokens(up, toks)
    ensures var all := [Tok(Word(w1), 1)] + [Tok(Word(w2), 1)] + toks;
      && NoStop(all) && all != [] && all[0] == Tok(Word(w1), 1) && all[0].Text() == w1 && WordAt(up, all, 1) == up(w2)
  {
  }

  lemma NamesHoldNoNewline(w1: string, w2: string)
    requires IsName(w1) && IsName(w2)
    ensures Newlines(w1 + " " + w2) == 0 && Newlines(w1 + " ") == 0
  {
    hide Newlines, IsIdent, IsLetter;
    NotIdent();
    NoNewlines(w1 + " " + w2);
    NoNewlines(w1 + " ");
  }

  /** A statement of two words. */
  lemma TwoWordsDecide(up: Upper, w1: string, w2: string, s2: string)
    requires IsName(w1) && IsName(w2)
    ensures Hits(up, w1 + " " + w2 + ";" + s2) == OnLine(1, Control(up(w1), up(w2))) + Hits(up, s2)
  {
    hide *;
    LegibleNone(w1 + " " + w2, "");
    NoneIsPlain(up);
    FirstWordsDecide(up, w1, w2, [], s2);
    assert w1 + " " + w2 + "" == w1 + " " + w2;
    NoShift(Hits(up, s2));
    NoText("");
  }

  lemma NoneIsPlain(up: Upper)
    ensures Plain(up, []) && Render([]) == ""
  {
  }

  lemma NoShift(hits: seq<Hit>)
    ensures ShiftedHits(hits, 0) == hits
  {
  }

  lemma OneWord(up: Upper, w: string)
    requires IsName(w)
    ensures AllLegible("", [Name(w)], "") && Render([Name(w)]) == w && TokensOf("", [Name(w)]) == [Tok(Word(w), 1)]
    ensures NoStop([Tok(Word(w), 1)]) && Depth(up, [Tok(Word(w), 1)]) == 0 && Newlines(w) == 0
  {
    assert Legible("", Name(w), "") && PieceOf(Name(w)) == Word(w) && Text(Name(w)) == w;
    NoNewlines(w);
    hide *;
    NoText("");
    OnlyElement("", Name(w));
    DepthOfThree(up, [Tok(Word(w), 1)]);
    OneNoStop(w);
  }

  lemma OneNoStop(w: string)
    ensures NoStop([Tok(Word(w), 1)])
  {
  }

  /** A statement of one word. */
  lemma OneWordDecides(up: Upper, w: string, s2: string)
    requires IsName(w)
    ensures Hits(up, w + ";" + s2) == OnLine(1, Control(up(w), "")) + Hits(up, s2)
  {
    hide *;
    OneWord(up, w);
    StatementIsJudged(up, [Name(w)], [Tok(Word(w), 1)], s2);
    JudgedByControl(up, [Tok(Word(w), 1)]);
    NoSecondWord(up, w);
    NoShift(Hits(up, s2));
  }

  lemma NoSecondWord(up: Upper, w: string)
    ensures var ts := [Tok(Word(w), 1)]; ts != [] && ts[0].Text() == w && ts[0].line == 1 && WordAt(up, ts, 1) == ""
  {
  }

  // ----- BEGIN ATOMIC ... END -----

  function Nests(up: Upper, e: Element): int {
    if !e.Name? then 0 else if up(e.word) == "CASE" then 1 else if up(e.word) == "END" then -1 else 0
  }

  /** The CASEs less the ENDs. */
  function Nesting(up: Upper, es: seq<Element>): int {
    if es == [] then 0 else Nests(up, es[0]) + Nesting(up, es[1..])
  }

  /** Every END closes a CASE, and every CASE is closed. */
  predicate Balanced(up: Upper, es: seq<Element>) {
    Nesting(up, es) == 0 && forall k :: 0 <= k <= |es| ==> Nesting(up, es[..k]) >= 0
  }

  /** Both readings go on in the same way from statement `words'`, which begins like `words`. */
  ghost predicate GoesOn(up: Upper, words: seq<Tok>, toks: seq<Tok>, words': seq<Tok>, after: seq<Tok>) {
    && HitsFrom(up, words, toks + after) == HitsFrom(up, words', after)
    && LastStatement(up, words, toks + after) == LastStatement(up, words', after)
    && words != [] && words' != [] && words'[0] == words[0]
  }

  lemma GoesNowhere(up: Upper, words: seq<Tok>, after: seq<Tok>)
    requires words != []
    ensures GoesOn(up, words, [], words, after)
  {
    assert [] + after == after;
  }

  /** One token inside an atomic body: a `;` is dropped, any other is kept. */
  lemma OneInside(up: Upper, words: seq<Tok>, t: Tok, rest: seq<Tok>, words': seq<Tok>, after: seq<Tok>)
    requires Depth(up, words) > 0 && words != []
    requires GoesOn(up, if t.piece == Semicolon then words else words + [t], rest, words', after)
    ensures GoesOn(up, words, [t] + rest, words', after)
  {
    hide Depth, HitsFrom, LastStatement;
    assert [t] + rest + after == [t] + (rest + after);
    HitsStep(up, words, t, rest + after);
    LastStep(up, words, t, rest + after);
  }

  lemma LastStep(up: Upper, words: seq<Tok>, t: Tok, after: seq<Tok>)
    ensures LastStatement(up, words, [t] + after) ==
      LastStatement(up, if t.piece != Semicolon then words + [t] else if Depth(up, words) > 0 then words else [], after)
  {
    hide Depth;
    assert ([t] + after)[1..] == after;
  }

  lemma DepthNests(up: Upper, words: seq<Tok>, e: Element, line: nat)
    requires Depth(up, words) > 0 && PieceOf(e) != Gap
    ensures Depth(up, words + [Tok(PieceOf(e), line)]) == Depth(up, words) + Nests(up, e)
  {
    hide Depth;
    DepthGrows(up, words, Tok(PieceOf(e), line));
  }

  lemma NestingFront(up: Upper, es: seq<Element>, d: int)
    requires es != [] && forall k :: 0 <= k <= |es| ==> d + Nesting(up, es[..k]) >= 1
    ensures d >= 1 && Nesting(up, es) == Nests(up, es[0]) + Nesting(up, es[1..])
    ensures forall k :: 0 <= k <= |es| - 1 ==> d + Nests(up, es[0]) + Nesting(up, es[1..][..k]) >= 1
  {
    assert es[..0] == [] && Nesting(up, es[..0]) == 0;
    forall k | 0 <= k <= |es| - 1 ensures d + Nests(up, es[0]) + Nesting(up, es[1..][..k]) >= 1 {
      assert es[..k + 1][1..] == es[1..][..k];
    }
  }

  /** The body of an atomic function is read inside one statement. */
  lemma {:induction false} BodyIsInside(up: Upper, words: seq<Tok>, before: string, es: seq<Element>, after: seq<Tok>)
    returns (words': seq<Tok>)
    requires words != [] && forall k :: 0 <= k <= |es| ==> Depth(up, words) + Nesting(up, es[..k]) >= 1
    ensures GoesOn(up, words, TokensOf(before, es), words', after)
    ensures Depth(up, words') == Depth(up, words) + Nesting(up, es)
    decreases |es|
  {
    hide Depth, HitsFrom, LastStatement, Newlines, GoesOn, Nesting, Nests, Text;
    if es == [] {
      words' := words;
      GoesNowhere(up, words, after);
      assert Nesting(up, es) == 0 by { NoNesting(up); }
    } else {
      var e, here, d := es[0], before + Text(es[0]), Depth(up, words);
      NestingFront(up, es, d);
      var t := Tok(PieceOf(e), 1 + Newlines(before));
      if PieceOf(e) == Gap {
        GapsDoNotNest(up, e);
        words' := BodyIsInside(up, words, here, es[1..], after);
        assert [] + TokensOf(here, es[1..]) == TokensOf(here, es[1..]);
      } else {
        DepthNests(up, words, e, t.line);
        if t.piece == Semicolon { GapsDoNotNest(up, e); }
        var words1 := if t.piece == Semicolon then words else words + [t];
        words' := BodyIsInside(up, words1, here, es[1..], after);
        OneInside(up, words, t, TokensOf(here, es[1..]), words', after);
      }
    }
  }

  lemma NoNesting(up: Upper)
    ensures Nesting(up, []) == 0
  {
  }

  lemma GapsDoNotNest(up: Upper, e: Element)
    ensures PieceOf(e) == Gap || PieceOf(e) == Semicolon ==> Nests(up, e) == 0
  {
  }

  lemma LegibleMarks(before: string, more: string)
    ensures Legible(before, Name("BEGIN"), " ATOMIC " + more) && Legible(before + "BEGIN", Blank(' '), "ATOMIC " + more)
    ensures Legible(before + "BEGIN ", Name("ATOMIC"), " " + more)
    ensures Legible(before + "BEGIN ATOMIC", Blank(' '), "" + more)
    ensures Legible(before, Blank(' '), "END" + "") && Legible(before + " ", Name("END"), "")
    ensures PieceOf(Blank(' ')) == Gap && Text(Blank(' ')) == " "
    ensures forall w :: PieceOf(Name(w)) == Word(w) && Text(Name(w)) == w
  {
    assert (" " + more)[0] == ' ' && (" ATOMIC " + more)[0] == ' ';
  }

  /** One more word or blank in front. */
  lemma InFront(before: string, e: Element, es: seq<Element>, text: string, toks: seq<Tok>, more: string)
    requires Legible(before, e, text + more) && AllLegible(before + Text(e), es, more)
    requires Render(es) == text && TokensOf(before + Text(e), es) == toks
    ensures AllLegible(before, [e] + es, more) && Render([e] + es) == Text(e) + text
    ensures TokensOf(before, [e] + es)
      == (if PieceOf(e) == Gap then [] else [Tok(PieceOf(e), 1 + Newlines(before))]) + toks
  {
    hide *;
    RenderOne(e, es);
    LegibleOne(before, e, es, more);
  }

  /** `BEGIN ATOMIC` with its blanks. */
  lemma BeginAtomic(before: string, more: string) returns (i: nat, j: nat)
    ensures var es := [Name("BEGIN")] + ([Blank(' ')] + ([Name("ATOMIC")] + [Blank(' ')]));
      && AllLegible(before, es, more) && Render(es) == "BEGIN ATOMIC "
      && TokensOf(before, es) == [Tok(Word("BEGIN"), i)] + [Tok(Word("ATOMIC"), j)]
  {
    hide *;
    var b, a, none: seq<Tok> := Blank(' '), [Tok(Word("ATOMIC"), 1 + Newlines(before + "BEGIN "))], [];
    i, j := 1 + Newlines(before), 1 + Newlines(before + "BEGIN ");
    LegibleMarks(before, more);
    MarkTexts(before, more);
    LegibleNone(before + "BEGIN ATOMIC ", more);
    NoneRendered();
    assert [b] + [] == [b] && none + none == none && a + none == a && none + a == a;
    InFront(before + "BEGIN ATOMIC", b, [], "", none, more);
    InFront(before + "BEGIN ", Name("ATOMIC"), [b], " ", none, more);
    InFront(before + "BEGIN", b, [Name("ATOMIC")] + [b], "ATOMIC ", a, more);
    InFront(before, Name("BEGIN"), [b] + ([Name("ATOMIC")] + [b]), " ATOMIC ", a, more);
  }

  lemma MarkTexts(before: string, more: string)
    ensures (before + "BEGIN") + " " == before + "BEGIN " && (before + "BEGIN ") + "ATOMIC" == before + "BEGIN ATOMIC"
    ensures (before + "BEGIN ATOMIC") + " " == before + "BEGIN ATOMIC "
    ensures " " + "" == " " && "ATOMIC" + " " == "ATOMIC " && " " + "ATOMIC " == " ATOMIC "
    ensures "BEGIN" + " ATOMIC " == "BEGIN ATOMIC "
  {
  }

  lemma AtomicEnd(before: string) returns (i: nat)
    ensures var es := [Blank(' ')] + [Name("END")];
      AllLegible(before, es, "") && Render(es) == " END" && TokensOf(before, es) == [Tok(Word("END"), i)]
  {
    hide *;
    i := 1 + Newlines(before + " ");
    LegibleMarks(before, "");
    OnlyElement(before + " ", Name("END"));
    RenderOne(Blank(' '), [Name("END")]);
    LegibleOne(before, Blank(' '), [Name("END")], "");
    assert [] + TokensOf(before + " ", [Name("END")]) == TokensOf(before + " ", [Name("END")]);
  }

  /** The keywords that matter here are upper case already. */
  predicate KeepsKeywords(up: Upper) { up("BEGIN") == "BEGIN" && up("ATOMIC") == "ATOMIC" && up("END") == "END" }

  lemma BodyOpens(up: Upper, w: string, toks: seq<Tok>, i: nat, j: nat)
    requires KeepsKeywords(up) && PlainTokens(up, toks)
    ensures var words := [Tok(Word(w), 1)] + toks + ([Tok(Word("BEGIN"), i)] + [Tok(Word("ATOMIC"), j)]);
      && Depth(up, words) == 1 && NoStop(words) && words != [] && words[0] == Tok(Word(w), 1)
  {
    hide Depth;
    var head, b, a := [Tok(Word(w), 1)] + toks, Tok(Word("BEGIN"), i), Tok(Word("ATOMIC"), j);
    NoBodyBegins(up, [Tok(Word(w), 1)], toks);
    DepthGrows(up, head, b);
    DepthGrows(up, head + [b], a);
    assert head + ([b] + [a]) == head + [b] + [a];
  }

  lemma {:induction false} WordsGoOn(up: Upper, words: seq<Tok>, toks: seq<Tok>, after: seq<Tok>)
    requires NoStop(toks)
    ensures HitsFrom(up, words, toks + after) == HitsFrom(up, words + toks, after)
    ensures LastStatement(up, words, toks + after) == LastStatement(up, words + toks, after)
    decreases |toks|
  {
    hide Depth, HitsFrom, LastStatement;
    if toks == [] {
      assert words + toks == words && toks + after == after;
    } else {
      assert toks + after == [toks[0]] + (toks[1..] + after);
      HitsStep(up, words, toks[0], toks[1..] + after);
      LastStep(up, words, toks[0], toks[1..] + after);
      WordsGoOn(up, words + [toks[0]], toks[1..], after);
      assert (words + [toks[0]]) + toks[1..] == words + toks;
    }
  }

  lemma NotControl(up: Upper, words: seq<Tok>, w: string)
    requires words != [] && words[0].piece == Word(w) && Control(up(w), "TRANSACTION") == []
    ensures Judge(up, words) == []
  {
    hide Judge;
    JudgedByControl(up, words);
  }

  lemma BodyCloses(up: Upper, words: seq<Tok>, i: nat, w: string)
    requires KeepsKeywords(up) && Depth(up, words) == 1 && words != [] && words[0].piece == Word(w)
    requires Control(up(w), "TRANSACTION") == []
    ensures HitsFrom(up, words, [Tok(Word("END"), i)]) == []
    ensures Depth(up, LastStatement(up, words, [Tok(Word("END"), i)])) == 0
  {
    hide Depth, Judge, HitsFrom, LastStatement;
    var e := Tok(Word("END"), i);
    DepthGrows(up, words, e);
    OneStatement(up, words, [e]);
    NotControl(up, words + [e], w);
  }

  lemma Deeper(up: Upper, body: seq<Element>)
    requires Balanced(up, body)
    ensures Nesting(up, body) == 0 && forall k :: 0 <= k <= |body| ==> 1 + Nesting(up, body[..k]) >= 1
  {
  }

  /** A statement with an atomic body is one statement. */
  lemma AtomicTokens(up: Upper, w: string, pre: seq<Tok>, i: nat, j: nat, before: string, body: seq<Element>, k: nat)
    requires KeepsKeywords(up) && PlainTokens(up, pre) && Balanced(up, body) && Control(up(w), "TRANSACTION") == []
    ensures var words := [Tok(Word(w), 1)] + pre + ([Tok(Word("BEGIN"), i)] + [Tok(Word("ATOMIC"), j)]);
      var toks := words + (TokensOf(before, body) + [Tok(Word("END"), k)]);
      HitsFrom(up, [], toks) == [] && Depth(up, LastStatement(up, [], toks)) == 0
  {
    hide *;
    var words := [Tok(Word(w), 1)] + pre + ([Tok(Word("BEGIN"), i)] + [Tok(Word("ATOMIC"), j)]);
    var e := Tok(Word("END"), k);
    BodyOpens(up, w, pre, i, j);
    WordsGoOn(up, [], words, TokensOf(before, body) + [e]);
    assert [] + words == words;
    Deeper(up, body);
    var words' := BodyIsInside(up, words, before, body, [e]);
    GoneOn(up, words, TokensOf(before, body), words', [e]);
    BodyCloses(up, words', k, w);
  }

  lemma GoneOn(up: Upper, words: seq<Tok>, toks: seq<Tok>, words': seq<Tok>, after: seq<Tok>)
    requires GoesOn(up, words, toks, words', after)
    ensures HitsFrom(up, words, toks + after) == HitsFrom(up, words', after)
    ensures LastStatement(up, words, toks + after) == LastStatement(up, words', after)
    ensures words != [] && words' != [] && words'[0] == words[0]
  {
  }

  /** BEGIN ATOMIC, the body and END, as elements. */
  function Marks(): seq<Element> { [Name("BEGIN")] + ([Blank(' ')] + ([Name("ATOMIC")] + [Blank(' ')])) }

  function AtomicTail(body: seq<Element>): seq<Element> { Marks() + (body + ([Blank(' ')] + [Name("END")])) }

  /** The text up to and with BEGIN ATOMIC. */
  function UpToBody(w: string, pre: seq<Element>): string { w + Render(pre) + "BEGIN ATOMIC " }

  ghost predicate LegibleAtomic(w: string, pre: seq<Element>, body: seq<Element>) {
    && AllLegible("", [Name(w)] + pre, "BEGIN ATOMIC " + (Render(body) + " END"))
    && AllLegible(UpToBody(w, pre), body, " END")
  }

  lemma BodyAndEnd(here: string, body: seq<Element>) returns (k: nat)
    requires AllLegible(here, body, " END")
    ensures var es := body + ([Blank(' ')] + [Name("END")]);
      && AllLegible(here, es, "") && Render(es) == Render(body) + " END"
      && TokensOf(here, es) == TokensOf(here, body) + [Tok(Word("END"), k)]
  {
    hide *;
    k := AtomicEnd(here + Render(body));
    assert " END" + "" == " END";
    RenderJoin(here, body, [Blank(' ')] + [Name("END")], "");
  }

  lemma TailIsRead(front: string, body: seq<Element>) returns (i: nat, j: nat, k: nat)
    requires AllLegible(front + "BEGIN ATOMIC ", body, " END")
    ensures var es, here := AtomicTail(body), front + "BEGIN ATOMIC ";
      && AllLegible(front, es, "") && Render(es) == "BEGIN ATOMIC " + (Render(body) + " END")
      && TokensOf(front, es) == [Tok(Word("BEGIN"), i)] + [Tok(Word("ATOMIC"), j)]
        + (TokensOf(here, body) + [Tok(Word("END"), k)])
  {
    hide Render, AllLegible, TokensOf, Newlines, Legible, Text;
    var rest := body + ([Blank(' ')] + [Name("END")]);
    k := BodyAndEnd(front + "BEGIN ATOMIC ", body);
    i, j := BeginAtomic(front, Render(rest) + "");
    RenderJoin(front, Marks(), rest, "");
  }

  lemma JoinTwo(a: seq<Element>, b: seq<Element>, front: string, tail: string)
    requires AllLegible("", a, tail) && Render(a) == front && AllLegible(front, b, "") && Render(b) == tail
    ensures AllLegible("", a + b, "") && Render(a + b) == front + tail
    ensures TokensOf("", a + b) == TokensOf("", a) + TokensOf(front, b)
  {
    hide *;
    assert "" + front == front && tail + "" == tail;
    RenderJoin("", a, b, "");
  }

  lemma HeadIsRead(w: string, pre: seq<Element>, body: seq<Element>)
    requires LegibleAtomic(w, pre, body)
    ensures var tail := "BEGIN ATOMIC " + (Render(body) + " END");
      && AllLegible("", [Name(w)] + pre, tail) && Render([Name(w)] + pre) == w + Render(pre)
      && AllLegible(w + Render(pre) + "BEGIN ATOMIC ", body, " END")
      && w + Render(pre) + tail == UpToBody(w, pre) + (Render(body) + " END")
      && UpToBody(w, pre) == w + Render(pre) + "BEGIN ATOMIC "
  {
    assert Text(Name(w)) == w;
    hide Render, AllLegible, Text;
    RenderOne(Name(w), pre);
    Regroup(w + Render(pre), "BEGIN ATOMIC ", Render(body) + " END");
  }

  lemma Regroup(a: string, b: string, c: string)
    ensures a + (b + c) == (a + b) + c
  {
  }

  lemma AtomicIsRead(w: string, pre: seq<Element>, body: seq<Element>) returns (i: nat, j: nat, k: nat)
    requires LegibleAtomic(w, pre, body)
    ensures var es := ([Name(w)] + pre) + AtomicTail(body);
      && AllLegible("", es, "") && Render(es) == UpToBody(w, pre) + (Render(body) + " END")
      && TokensOf("", es) == [Tok(Word(w), 1)] + TokensOf(w, pre) + ([Tok(Word("BEGIN"), i)] + [Tok(Word("ATOMIC"), j)]
        + (TokensOf(UpToBody(w, pre), body) + [Tok(Word("END"), k)]))
  {
    hide *;
    HeadIsRead(w, pre, body);
    HeadTokens(w, pre, "BEGIN ATOMIC " + (Render(body) + " END"));
    i, j, k := TailIsRead(w + Render(pre), body);
    JoinTwo([Name(w)] + pre, AtomicTail(body), w + Render(pre), "BEGIN ATOMIC " + (Render(body) + " END"));
  }

  lemma HeadTokens(w: string, pre: seq<Element>, more: string)
    requires AllLegible("", [Name(w)] + pre, more)
    ensures TokensOf("", [Name(w)] + pre) == [Tok(Word(w), 1)] + TokensOf(w, pre)
  {
    hide *;
    NoText("");
    Unfold("", [Name(w)] + pre, more);
    NameIs(w);
    assert ([Name(w)] + pre)[1..] == pre && "" + w == w;
  }

  lemma NameIs(w: string)
    ensures PieceOf(Name(w)) == Word(w) && Text(Name(w)) == w
  {
  }

  lemma AtomicEndsAtTopLevel(up: Upper, w: string, pre: seq<Element>, body: seq<Element>)
    requires KeepsKeywords(up) && LegibleAtomic(w, pre, body) && Plain(up, pre) && Balanced(up, body)
    requires Control(up(w), "TRANSACTION") == []
    ensures var s := UpToBody(w, pre) + (Render(body) + " END"); EndsAtTopLevel(up, s) && Hits(up, s) == []
  {
    hide *;
    var i, j, k := AtomicIsRead(w, pre, body);
    PlainIsRead(up, w, pre);
    AtomicTokens(up, w, TokensOf(w, pre), i, j, UpToBody(w, pre), body, k);
    var es := ([Name(w)] + pre) + AtomicTail(body);
    TokensRegroup([Tok(Word(w), 1)] + TokensOf(w, pre), [Tok(Word("BEGIN"), i)] + [Tok(Word("ATOMIC"), j)],
      TokensOf(UpToBody(w, pre), body) + [Tok(Word("END"), k)]);
    HitsOfElements(up, es);
    TextIsRead("", es, "");
    assert Render(es) + "" == Render(es) && TokensOf("", es) + [] == TokensOf("", es);
    NoText("" + Render(es));
    AtTopLevel(up, Render(es));
  }

  lemma TokensRegroup(a: seq<Tok>, b: seq<Tok>, c: seq<Tok>)
    ensures a + (b + c) == (a + b) + c
  {
  }

  lemma AtTopLevel(up: Upper, s: string)
    requires AllClosed("", s) && Depth(up, LastStatement(up, [], Tokens("", s))) == 0
    ensures EndsAtTopLevel(up, s)
  {
  }

  /** The body of an atomic function is hidden: whatever statements it holds, none is reported, and the scan goes on
      behind its END as at the start of a text. */
  lemma AtomicBodiesAreHidden(up: Upper, w: string, pre: seq<Element>, body: seq<Element>, s2: string)
    requires KeepsKeywords(up) && LegibleAtomic(w, pre, body) && Plain(up, pre) && Balanced(up, body)
    requires Control(up(w), "TRANSACTION") == []
    ensures var s := w + Render(pre) + "BEGIN ATOMIC " + (Render(body) + " END");
      Hits(up, s + ";" + s2) == ShiftedHits(Hits(up, s2), Newlines(s))
  {
    hide Hits, EndsAtTopLevel, LegibleAtomic, Balanced, Plain, Render, Newlines, Control, KeepsKeywords;
    AtomicEndsAtTopLevel(up, w, pre, body);
    ScanIsCompositional(up, UpToBody(w, pre) + (Render(body) + " END"), s2);
  }
}
