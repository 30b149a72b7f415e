/**
 * Texts written as a list of lexical pieces (identifiers, punctuators,
 * blanks, quoted literals, comments, regular expression literals). When
 * every piece is well formed and no two neighbours run into each other, the
 * scanner's tokens are those of the pieces, each moved to where the piece
 * starts.
 */
module Pieces {
  import opened Lexer
  import opened Composition

  datatype Piece =
    | Ident(name: string)
    | Mark(ch: char)
    | Blank(sp: string)
    | Literal(quote: char, body: string)
    | LineNote(body: string)      // `//` ... up to and including the line break
    | BlockNote(body: string)     // `/*` ... `*/`
    | Pattern(pre: string, cls: string, post: string)   // a regular expression literal `/pre[cls]post/`

  function PieceText(p: Piece): string {
    match p
    case Ident(n) => n
    case Mark(c) => [c]
    case Blank(sp) => sp
    case Literal(q, body) => [q] + body + [q]
    case LineNote(body) => "//" + body + "\n"
    case BlockNote(body) => "/*" + body + "*/"
    case Pattern(pre, cls, post) => "/" + pre + "[" + cls + "]" + post + "/"
  }

  /** The tokens a piece yields when it starts at offset `d`. */
  function PieceTokens(p: Piece, d: nat): seq<Token> {
    match p
    case Ident(n) => [Word(n, d)]
    case Mark(c) => [Punct(c, d)]
    case Literal(q, body) => [Str(q, body, d, d + |body| + 2)]
    case _ => []
  }

  /** Whether a `/` met after the piece would start a regular expression. */
  function After(p: Piece, ok: bool): bool {
    match p
    case Ident(_) => false
    case Mark(c) => c != ')' && c != ']'
    case Literal(_, _) => false
    case Pattern(_, _, _) => false
    case _ => ok
  }

  predicate IdentChars(n: string) {
    forall k :: 0 <= k < |n| ==> IsIdentChar(n[k])
  }

  /** An identifier: a letter, `_` or `$`, then letters, digits, `_` or `$`. */
  predicate IsName(n: string) {
    n != [] && IsIdentStart(n[0]) && IdentChars(n)
  }

  predicate Blanks(sp: string) {
    forall k :: 0 <= k < |sp| ==> IsSpace(sp[k])
  }

  /** Characters with no backslash, none of `stop`, and no line break. */
  predicate Plain(s: string, stop: char) {
    forall k :: 0 <= k < |s| ==> s[k] != '\\' && s[k] != '\n' && s[k] != stop
  }

  /** No `*` `/` pair and no backslash. */
  predicate NoClose(s: string) {
    && (forall k :: 0 <= k < |s| ==> s[k] != '\\')
    && (forall k :: 0 <= k < |s| - 1 ==> !(s[k] == '*' && s[k + 1] == '/'))
  }

  /** Characters that stay inside a regular expression literal, in or out of a class. */
  predicate RegexChars(s: string, inClass: bool) {
    forall k :: 0 <= k < |s| ==>
      s[k] != '\\' && s[k] != '\n' && (if inClass then s[k] != ']' else s[k] != '/' && s[k] != '[')
  }

  /** A piece that scans as itself when met in code mode with `ok` as the regex flag. */
  predicate PieceOk(p: Piece, ok: bool) {
    match p
    case Ident(n) => IsName(n)
    case Mark(c) => !IsSpace(c) && !IsIdentChar(c) && c != '/' && c != '\'' && c != '"' && c != '`' && c != '\\'
    case Blank(sp) => sp != [] && Blanks(sp)
    case Literal(q, body) => (q == '\'' || q == '"') && Plain(body, q)
    case LineNote(body) => Plain(body, '\n')
    case BlockNote(body) => NoClose(body)
    case Pattern(pre, cls, post) =>
      ok && (pre == [] || pre[0] != '*') && RegexChars(pre, false) && RegexChars(cls, true) && RegexChars(post, false)
  }

  /** Two neighbouring texts do not run into each other. */
  predicate Seam(a: string, b: string) {
    a == [] || b == [] || Closed(a[|a| - 1]) || Opens(b[0])
  }

  /** A line comment together with the line break that ends it. */
  lemma LineNotePiece(body: string, ok: bool)
    requires Plain(body, '\n')
    ensures Lexes("//" + body + "\n", ScanState(0, Code, [], ok), [], ScanState(|body| + 3, Code, [], ok))
  {
    LineCommentPiece(body, [], ok);
    LineBreakAfterComment([], ok);
    var a := "//" + body;
    assert a[|a| - 1] != '\\' by {
      if body != [] { assert a[|a| - 1] == body[|body| - 1]; }
    }
    Glue(a, "\n", ScanState(0, Code, [], ok), [], ScanState(|body| + 2, LineComment, [], ok), [], ScanState(1, Code, [], ok));
  }

  /** Inside a regular expression literal, ordinary characters only advance the scanner. */
  lemma {:induction false} RegexSpan(text: string, s: ScanState, j: nat)
    requires s.mode.Regex? && s.pos <= j <= |text|
    requires forall k :: s.pos <= k < j ==>
      text[k] != '\\' && text[k] != '\n' && (if s.mode.inClass then text[k] != ']' else text[k] != '/' && text[k] != '[')
    ensures LexFrom(text, s) == LexFrom(text, s.(pos := j)) && End(text, s) == End(text, s.(pos := j))
    decreases j - s.pos
  {
    if s.pos < j {
      assert Step(text, s) == ([], s.(pos := s.pos + 1));
      RegexSpan(text, s.(pos := s.pos + 1), j);
    }
  }

  /** The text of a regular expression literal, character by character. */
  lemma PatternChars(pre: string, cls: string, post: string)
    ensures var text := "/" + pre + "[" + cls + "]" + post + "/";
      var i1, i2 := 1 + |pre|, 2 + |pre| + |cls|;
      && |text| == |pre| + |cls| + |post| + 4
      && text[0] == '/' && text[i1] == '[' && text[i2] == ']' && text[|text| - 1] == '/'
      && (forall k :: 1 <= k < i1 ==> text[k] == pre[k - 1])
      && (forall k :: i1 < k < i2 ==> text[k] == cls[k - i1 - 1])
      && (forall k :: i2 < k < |text| - 1 ==> text[k] == post[k - i2 - 1])
  {
  }

  /** A regular expression literal where one may start yields no token and leaves a `/` dividing. */
  lemma PatternPiece(pre: string, cls: string, post: string)
    requires (pre == [] || pre[0] != '*') && RegexChars(pre, false) && RegexChars(cls, true) && RegexChars(post, false)
    ensures var text := "/" + pre + "[" + cls + "]" + post + "/";
      Lexes(text, ScanState(0, Code, [], true), [], ScanState(|text|, Code, [], false))
  {
    var text := "/" + pre + "[" + cls + "]" + post + "/";
    var i1, i2, i3 := 1 + |pre|, 2 + |pre| + |cls|, |text| - 1;
    PatternChars(pre, cls, post);
    var s0 := ScanState(0, Code, [], true);
    assert At(text, 1) != '/' && At(text, 1) != '*' by {
      if pre == [] { assert text[1] == '['; } else { assert text[1] == pre[0]; }
    }
    assert Step(text, s0) == ([], ScanState(1, Regex(false), [], true));
    RegexSpan(text, ScanState(1, Regex(false), [], true), i1);
    assert Step(text, ScanState(i1, Regex(false), [], true)) == ([], ScanState(i1 + 1, Regex(true), [], true));
    RegexSpan(text, ScanState(i1 + 1, Regex(true), [], true), i2);
    assert Step(text, ScanState(i2, Regex(true), [], true)) == ([], ScanState(i2 + 1, Regex(false), [], true));
    RegexSpan(text, ScanState(i2 + 1, Regex(false), [], true), i3);
    assert Step(text, ScanState(i3, Regex(false), [], true)) == ([], ScanState(|text|, Code, [], false));
  }

  /** A piece scanned on its own from code mode: its tokens, and code mode after it. */
  predicate Scans(p: Piece, ok: bool) {
    Lexes(PieceText(p), ScanState(0, Code, [], ok), PieceTokens(p, 0), ScanState(|PieceText(p)|, Code, [], After(p, ok)))
  }

  /** A well-formed piece is not empty and does not end in a backslash. */
  lemma PieceEnds(p: Piece, ok: bool)
    requires PieceOk(p, ok)
    ensures var t := PieceText(p); t != [] && t[|t| - 1] != '\\'
  {
    match p
    case Ident(n) => assert IsIdentChar(n[|n| - 1]);
    case Blank(sp) => assert IsSpace(sp[|sp| - 1]);
    case _ =>
  }

  lemma LiteralScans(q: char, body: string, ok: bool)
    requires PieceOk(Literal(q, body), ok)
    ensures Scans(Literal(q, body), ok)
  {
    QuotedPiece(q, body, [], ok);
  }

  lemma LineNoteScans(body: string, ok: bool)
    requires PieceOk(LineNote(body), ok)
    ensures Scans(LineNote(body), ok)
  {
    LineNotePiece(body, ok);
  }

  lemma BlockNoteScans(body: string, ok: bool)
    requires PieceOk(BlockNote(body), ok)
    ensures Scans(BlockNote(body), ok)
  {
    BlockCommentPiece(body, [], ok);
  }

  /** Every well-formed piece scans as itself. */
  lemma PieceScans(p: Piece, ok: bool)
    requires PieceOk(p, ok)
    ensures Scans(p, ok)
  {
    match p
    case Ident(n) => WordPiece(n, [], ok);
    case Mark(c) => PunctPiece(c, ok);
    case Blank(sp) => BlankPiece(sp, [], ok);
    case Literal(q, body) => LiteralScans(q, body, ok);
    case LineNote(body) => LineNoteScans(body, ok);
    case BlockNote(body) => BlockNoteScans(body, ok);
    case Pattern(pre, cls, post) => PatternPiece(pre, cls, post);
  }

  lemma ShiftPieceTokens(p: Piece, d: nat, e: nat)
    ensures ShiftTokens(PieceTokens(p, d), e) == PieceTokens(p, d + e)
  {
    match p
    case Ident(n) => ShiftOne(Word(n, d), e);
    case Mark(c) => ShiftOne(Punct(c, d), e);
    case Literal(q, b) => ShiftOne(Str(q, b, d, d + |b| + 2), e);
    case _ =>
  }

  /** Two texts that each scan from code mode to code mode, outside template substitutions, scan as their concatenation. */
  lemma CodeConcat(a: string, b: string, c: string, ok: bool, m: bool, f: bool, t1: seq<Token>, t2: seq<Token>, t: seq<Token>)
    requires Lexes(a, ScanState(0, Code, [], ok), t1, ScanState(|a|, Code, [], m))
    requires Lexes(b, ScanState(0, Code, [], m), t2, ScanState(|b|, Code, [], f))
    requires SafeSplit(a, b) && c == a + b && t == t1 + ShiftTokens(t2, |a|)
    ensures Lexes(c, ScanState(0, Code, [], ok), t, ScanState(|c|, Code, [], f))
  {
    Glue(a, b, ScanState(0, Code, [], ok), t1, ScanState(|a|, Code, [], m), t2, ScanState(|b|, Code, [], f));
  }

  /** A well-formed piece put before a text that scans from where the piece leaves off. */
  lemma Prepend(p: Piece, b: string, ok: bool, f: bool, t2: seq<Token>)
    requires Scans(p, ok) && SafeSplit(PieceText(p), b)
    requires Lexes(b, ScanState(0, Code, [], After(p, ok)), t2, ScanState(|b|, Code, [], f))
    ensures Lexes(PieceText(p) + b, ScanState(0, Code, [], ok), PieceTokens(p, 0) + ShiftTokens(t2, |PieceText(p)|),
                  ScanState(|PieceText(p) + b|, Code, [], f))
  {
    var a := PieceText(p);
    CodeConcat(a, b, a + b, ok, After(p, ok), f, PieceTokens(p, 0), t2, PieceTokens(p, 0) + ShiftTokens(t2, |a|));
  }

  // ---- Chains of pieces

  /** A text written as pieces, first to last. */
  datatype Chain = Stop | Then(head: Piece, tail: Chain)

  function Text(c: Chain): string {
    if c.Stop? then "" else PieceText(c.head) + Text(c.tail)
  }

  /** The tokens of the pieces when the first starts at offset `d`. */
  function ChainTokens(c: Chain, d: nat): seq<Token> {
    if c.Stop? then [] else PieceTokens(c.head, d) + ChainTokens(c.tail, d + |PieceText(c.head)|)
  }

  /** Blanks and comments add no token; they only move the rest on. */
  lemma {:induction false} SilentTokens(p: Piece, r: Chain, d: nat)
    requires p.Blank? || p.LineNote? || p.BlockNote?
    ensures ChainTokens(Then(p, r), d) == ChainTokens(r, d + |PieceText(p)|)
  {
    assert PieceTokens(p, d) == [];
  }

  /** Whether a `/` met after the whole chain would start a regular expression. */
  function AfterAll(c: Chain, ok: bool): bool {
    if c.Stop? then ok else AfterAll(c.tail, After(c.head, ok))
  }

  /** `p` does not run into the chain that follows it. */
  predicate Fits(p: Piece, r: Chain) {
    r.Stop? || Seam(PieceText(p), PieceText(r.head))
  }

  /** Every piece is well formed for the regex flag it meets, and no two neighbours run into each other. */
  predicate ChainOk(c: Chain, ok: bool) {
    if c.Stop? then true
    else PieceOk(c.head, ok) && Fits(c.head, c.tail) && ChainOk(c.tail, After(c.head, ok))
  }

  /** Moving a chain's tokens is starting the chain further on. */
  lemma {:induction false} ShiftChainTokens(c: Chain, d: nat, e: nat)
    ensures ShiftTokens(ChainTokens(c, d), e) == ChainTokens(c, d + e)
  {
    if c.Then? {
      var p, r := c.head, c.tail;
      var k := |PieceText(p)|;
      ShiftChainTokens(r, d + k, e);
      ShiftTokensAppend(PieceTokens(p, d), ChainTokens(r, d + k), e);
      ShiftPieceTokens(p, d, e);
      assert ChainTokens(c, d + e) == PieceTokens(p, d + e) + ChainTokens(r, d + e + k);
    }
  }

  /** The first piece of a well-formed chain never runs into the rest. */
  lemma {:induction false} HeadSplits(p: Piece, r: Chain, ok: bool)
    requires ChainOk(Then(p, r), ok)
    ensures SafeSplit(PieceText(p), Text(r))
  {
    PieceEnds(p, ok);
    if r.Then? {
      PieceEnds(r.head, After(p, ok));
      assert Text(r)[0] == PieceText(r.head)[0];
    }
  }

  /** The tokens of a text made of well-formed, well-separated pieces are the pieces' own tokens. */
  lemma {:induction false} ChainLex(c: Chain, ok: bool)
    requires ChainOk(c, ok)
    ensures Lexes(Text(c), ScanState(0, Code, [], ok), ChainTokens(c, 0), ScanState(|Text(c)|, Code, [], AfterAll(c, ok)))
  {
    match c
    case Stop =>
      assert LexFrom("", ScanState(0, Code, [], ok)) == [];
    case Then(p, r) =>
      ChainLex(r, After(p, ok));
      ChainLexCons(p, r, ok);
  }

  lemma {:induction false} ChainLexCons(p: Piece, r: Chain, ok: bool)
    requires ChainOk(Then(p, r), ok)
    requires var m := After(p, ok);
      Lexes(Text(r), ScanState(0, Code, [], m), ChainTokens(r, 0), ScanState(|Text(r)|, Code, [], AfterAll(r, m)))
    ensures var c := Then(p, r);
      Lexes(Text(c), ScanState(0, Code, [], ok), ChainTokens(c, 0), ScanState(|Text(c)|, Code, [], AfterAll(c, ok)))
  {
    HeadFacts(p, r, ok);
    ChainUnfolds(p, r, ok);
    Prepend(p, Text(r), ok, AfterAll(r, After(p, ok)), ChainTokens(r, 0));
  }

  /** A chain is its first piece followed by the rest. */
  lemma {:induction false} ChainUnfolds(p: Piece, r: Chain, ok: bool)
    ensures Text(Then(p, r)) == PieceText(p) + Text(r)
    ensures ChainTokens(Then(p, r), 0) == PieceTokens(p, 0) + ShiftTokens(ChainTokens(r, 0), |PieceText(p)|)
    ensures AfterAll(Then(p, r), ok) == AfterAll(r, After(p, ok))
  {
    ShiftChainTokens(r, 0, |PieceText(p)|);
  }

  /** The first piece of a well-formed chain scans as itself and does not run into the rest. */
  lemma {:induction false} HeadFacts(p: Piece, r: Chain, ok: bool)
    requires ChainOk(Then(p, r), ok)
    ensures Scans(p, ok) && SafeSplit(PieceText(p), Text(r))
  {
    PieceScans(p, ok);
    HeadSplits(p, r, ok);
  }

  /** The scanner's tokens of a text written as a well-formed chain. */
  lemma {:induction false} TokensOfChain(text: string, c: Chain)
    requires ChainOk(c, true) && text == Text(c)
    ensures Tokens(text) == ChainTokens(c, 0)
  {
    ChainLex(c, true);
  }

  // ---- Joining chains

  function Concat(x: Chain, y: Chain): Chain {
    if x.Stop? then y else Then(x.head, Concat(x.tail, y))
  }

  /** The end of `x` does not run into the start of `y`. */
  predicate Meets(x: Chain, y: Chain) {
    Seam(Text(x), Text(y))
  }

  lemma {:induction false} TextConcat(x: Chain, y: Chain)
    ensures Text(Concat(x, y)) == Text(x) + Text(y)
  {
    match x
    case Stop =>
    case Then(p, r) => TextConcat(r, y);
  }

  lemma {:induction false} TokensConcat(x: Chain, y: Chain, d: nat)
    ensures ChainTokens(Concat(x, y), d) == ChainTokens(x, d) + ChainTokens(y, d + |Text(x)|)
  {
    TokensConcatAt(x, y, d, d + |Text(x)|);
  }

  /** `TokensConcat`, with the offset where `y` starts named `e`. */
  lemma {:induction false} TokensConcatAt(x: Chain, y: Chain, d: nat, e: nat)
    requires e == d + |Text(x)|
    ensures ChainTokens(Concat(x, y), d) == ChainTokens(x, d) + ChainTokens(y, e)
  {
    match x
    case Stop =>
    case Then(p, r) =>
      assert Concat(x, y) == Then(p, Concat(r, y));
      assert ChainTokens(Then(p, Concat(r, y)), d) == PieceTokens(p, d) + ChainTokens(Concat(r, y), d + |PieceText(p)|);
      TokensConcatAt(r, y, d + |PieceText(p)|, e);
      TokenListAssoc(PieceTokens(p, d), ChainTokens(r, d + |PieceText(p)|), ChainTokens(y, e));
  }

  lemma TokenListAssoc(a: seq<Token>, b: seq<Token>, c: seq<Token>)
    ensures a + (b + c) == (a + b) + c
  {
  }

  /** Well-formed chains that meet without running into each other form a well-formed chain. */
  lemma {:induction false} OkConcat(x: Chain, y: Chain, ok: bool)
    requires ChainOk(x, ok) && ChainOk(y, AfterAll(x, ok)) && Meets(x, y)
    ensures ChainOk(Concat(x, y), ok) && AfterAll(Concat(x, y), ok) == AfterAll(y, AfterAll(x, ok))
  {
    match x
    case Stop =>
    case Then(p, r) =>
      var m := After(p, ok);
      if r.Then? {
        PieceEnds(r.head, m);
        MeetsTail(p, r, y);
        OkConcat(r, y, m);
      } else {
        assert AfterAll(x, ok) == AfterAll(Stop, m) == m;
        MeetsLast(p, y, ok);
      }
  }

  lemma {:induction false} MeetsLast(p: Piece, y: Chain, ok: bool)
    requires ChainOk(Then(p, Stop), ok) && ChainOk(y, After(p, ok)) && Meets(Then(p, Stop), y)
    ensures ChainOk(Then(p, y), ok)
  {
    assert Text(Then(p, Stop)) == PieceText(p);
    if y.Then? {
      PieceEnds(y.head, After(p, ok));
      assert Text(y)[0] == PieceText(y.head)[0];
    }
  }

  lemma {:induction false} MeetsTail(p: Piece, r: Chain, y: Chain)
    requires Meets(Then(p, r), y) && Text(r) != []
    ensures Meets(r, y)
  {
    var a := Text(Then(p, r));
    assert a[|a| - 1] == Text(r)[|Text(r)| - 1];
  }
}
