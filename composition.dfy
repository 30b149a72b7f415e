/**
 * How the scanner composes. Scanning is translation-invariant (scanning a
 * text that follows a prefix yields the same tokens, moved by the prefix's
 * length), and scanning a concatenation split where no step looks across the
 * seam is scanning the two parts one after the other. Together with the
 * lemmas about single pieces (a word, a punctuator, blanks, a quoted literal,
 * a comment) this gives the tokens of a whole text from those of its parts.
 */
module Composition {
  import opened Lexer

  function ShiftToken(t: Token, d: nat): Token {
    match t
    case Word(n, st) => Word(n, st + d)
    case Punct(c, at) => Punct(c, at + d)
    case Str(q, body, st, en) => Str(q, body, st + d, en + d)
  }

  /** Tokens moved `d` characters to the right. */
  function ShiftTokens(ts: seq<Token>, d: nat): (r: seq<Token>)
    ensures |r| == |ts| && forall i :: 0 <= i < |ts| ==> r[i] == ShiftToken(ts[i], d)
  {
    if ts == [] then [] else [ShiftToken(ts[0], d)] + ShiftTokens(ts[1..], d)
  }

  /** A scanner state moved `d` characters to the right. */
  function Moved(s: ScanState, d: nat): (r: ScanState)
    ensures r.pos == s.pos + d && r.holes == s.holes && r.regexOk == s.regexOk
  {
    var mode := if s.mode.Quoted? then Quoted(s.mode.quote, s.mode.start + d) else s.mode;
    s.(pos := s.pos + d, mode := mode)
  }

  /** The state the scanner is in once it has consumed the whole text. */
  function End(text: string, s: ScanState): (r: ScanState)
    requires WellFormed(text, s)
    ensures WellFormed(text, r) && r.pos == |text|
    decreases |text| - s.pos
  {
    if s.pos == |text| then s else End(text, Step(text, s).1)
  }

  // ---- Translation invariance

  lemma {:induction false} WordEndShift(p: string, b: string, i: nat)
    requires i <= |b|
    ensures WordEnd(p + b, |p| + i) == |p| + WordEnd(b, i)
    decreases |b| - i
  {
    if i < |b| {
      assert (p + b)[|p| + i] == b[i];
      if IsIdentChar(b[i]) {
        WordEndShift(p, b, i + 1);
      }
    }
  }

  lemma ShiftOne(t: Token, d: nat)
    ensures ShiftTokens([t], d) == [ShiftToken(t, d)]
  {
    assert [t][1..] == [];
  }

  /** The code-mode step at `s` commutes with moving the text behind `p`. */
  predicate CodeShifts(p: string, b: string, s: ScanState)
    requires WellFormed(b, s) && s.pos < |b| && s.mode == Code
  {
    CodeStep(p + b, Moved(s, |p|)) == (ShiftTokens(CodeStep(b, s).0, |p|), Moved(CodeStep(b, s).1, |p|))
  }

  lemma CodeShiftBlank(p: string, b: string, s: ScanState)
    requires WellFormed(b, s) && s.pos < |b| && s.mode == Code && IsSpace(b[s.pos])
    ensures CodeShifts(p, b, s)
  {
    assert (p + b)[|p| + s.pos] == b[s.pos];
  }

  lemma CodeShiftSlash(p: string, b: string, s: ScanState)
    requires WellFormed(b, s) && s.pos < |b| && s.mode == Code && b[s.pos] == '/'
    ensures CodeShifts(p, b, s)
  {
    ShiftOne(Punct(b[s.pos], s.pos), |p|);
    assert (p + b)[|p| + s.pos] == b[s.pos];
    assert At(p + b, |p| + s.pos + 1) == At(b, s.pos + 1);
  }

  lemma CodeShiftQuote(p: string, b: string, s: ScanState)
    requires WellFormed(b, s) && s.pos < |b| && s.mode == Code
    requires b[s.pos] == '\'' || b[s.pos] == '"' || b[s.pos] == '`'
    ensures CodeShifts(p, b, s)
  {
    assert (p + b)[|p| + s.pos] == b[s.pos];
  }

  /** The code-mode step on an identifier character reads the whole word. */
  lemma CodeStepWord(text: string, s: ScanState)
    requires s.pos < |text| && s.mode == Code && IsIdentChar(text[s.pos])
    ensures CodeStep(text, s).1 == s.(pos := WordEnd(text, s.pos), regexOk := false)
    ensures IsDigit(text[s.pos]) ==> CodeStep(text, s).0 == []
    ensures !IsDigit(text[s.pos]) ==> CodeStep(text, s).0 == [Word(text[s.pos..WordEnd(text, s.pos)], s.pos)]
  {
  }

  /** A slice of `b` read behind the prefix `p`. */
  lemma SliceBehind(p: string, b: string, i: nat, e: nat)
    requires i <= e <= |b|
    ensures (p + b)[|p| + i..|p| + e] == b[i..e]
  {
    assert (p + b)[|p|..] == b;
  }

  lemma CodeShiftWord(p: string, b: string, s: ScanState)
    requires WellFormed(b, s) && s.pos < |b| && s.mode == Code && IsIdentChar(b[s.pos])
    ensures CodeShifts(p, b, s)
  {
    assert (p + b)[|p| + s.pos] == b[s.pos];
    CodeStepWord(b, s);
    CodeStepWord(p + b, Moved(s, |p|));
    WordEndShift(p, b, s.pos);
    SliceBehind(p, b, s.pos, WordEnd(b, s.pos));
    ShiftOne(Word(b[s.pos..WordEnd(b, s.pos)], s.pos), |p|);
  }

  lemma CodeShiftPunct(p: string, b: string, s: ScanState)
    requires WellFormed(b, s) && s.pos < |b| && s.mode == Code
    requires var c := b[s.pos]; !IsSpace(c) && c != '/' && c != '\'' && c != '"' && c != '`' && !IsIdentChar(c)
    ensures CodeShifts(p, b, s)
  {
    ShiftOne(Punct(b[s.pos], s.pos), |p|);
    assert (p + b)[|p| + s.pos] == b[s.pos];
  }

  lemma CodeStepShift(p: string, b: string, s: ScanState)
    requires WellFormed(b, s) && s.pos < |b| && s.mode == Code
    ensures CodeShifts(p, b, s)
  {
    var c := b[s.pos];
    if IsSpace(c) {
      CodeShiftBlank(p, b, s);
    } else if c == '/' {
      CodeShiftSlash(p, b, s);
    } else if c == '\'' || c == '"' || c == '`' {
      CodeShiftQuote(p, b, s);
    } else if IsIdentChar(c) {
      CodeShiftWord(p, b, s);
    } else {
      CodeShiftPunct(p, b, s);
    }
  }

  /** The quoted-mode step at `s` commutes with moving the text behind `p`. */
  predicate QuotedShifts(p: string, b: string, s: ScanState)
    requires WellFormed(b, s) && s.pos < |b| && s.mode.Quoted?
  {
    QuotedStep(p + b, Moved(s, |p|)) == (ShiftTokens(QuotedStep(b, s).0, |p|), Moved(QuotedStep(b, s).1, |p|))
  }

  lemma QuotedShiftClose(p: string, b: string, s: ScanState)
    requires WellFormed(b, s) && s.pos < |b| && s.mode.Quoted? && b[s.pos] == s.mode.quote
    ensures QuotedShifts(p, b, s)
  {
    var i, st, t, d := s.pos, s.mode.start, p + b, |p|;
    var tok := Str(b[i], b[st + 1..i], st, i + 1);
    var e := s.(pos := i + 1, mode := Code, regexOk := false);
    assert QuotedStep(b, s) == ([tok], e);
    assert t[d + i] == b[i];
    assert t[d..][st + 1..i] == b[st + 1..i];
    assert t[d + st + 1..d + i] == b[st + 1..i];
    assert QuotedStep(t, Moved(s, d)) == ([ShiftToken(tok, d)], Moved(e, d));
    ShiftOne(tok, d);
  }

  lemma QuotedShiftOther(p: string, b: string, s: ScanState)
    requires WellFormed(b, s) && s.pos < |b| && s.mode.Quoted? && b[s.pos] != s.mode.quote
    ensures QuotedShifts(p, b, s)
  {
    assert (p + b)[|p| + s.pos] == b[s.pos];
  }

  /** The regex-mode step at `s` commutes with moving the text behind `p`. */
  predicate RegexShifts(p: string, b: string, s: ScanState)
    requires WellFormed(b, s) && s.pos < |b| && s.mode.Regex?
  {
    RegexStep(p + b, Moved(s, |p|)) == (ShiftTokens(RegexStep(b, s).0, |p|), Moved(RegexStep(b, s).1, |p|))
  }

  lemma RegexShiftClose(p: string, b: string, s: ScanState)
    requires WellFormed(b, s) && s.pos < |b| && s.mode == Regex(false) && b[s.pos] == '/'
    ensures RegexShifts(p, b, s)
  {
    var i := s.pos;
    assert (p + b)[|p| + i] == b[i];
    WordEndShift(p, b, i + 1);
  }

  lemma RegexShiftOther(p: string, b: string, s: ScanState)
    requires WellFormed(b, s) && s.pos < |b| && s.mode.Regex? && (s.mode.inClass || b[s.pos] != '/')
    ensures RegexShifts(p, b, s)
  {
    assert (p + b)[|p| + s.pos] == b[s.pos];
  }

  /** One step on a text behind a prefix is the same step, moved. */
  predicate StepShifts(p: string, b: string, s: ScanState)
    requires WellFormed(b, s) && s.pos < |b|
  {
    && WellFormed(p + b, Moved(s, |p|))
    && Step(p + b, Moved(s, |p|)) == (ShiftTokens(Step(b, s).0, |p|), Moved(Step(b, s).1, |p|))
  }

  lemma CommentShift(p: string, b: string, s: ScanState)
    requires WellFormed(b, s) && s.pos < |b| && (s.mode == LineComment || s.mode == BlockComment || s.mode == Template)
    ensures StepShifts(p, b, s)
  {
    var i := s.pos;
    assert (p + b)[|p| + i] == b[i];
    assert At(p + b, |p| + i + 1) == At(b, i + 1);
  }

  lemma StepShift(p: string, b: string, s: ScanState)
    requires WellFormed(b, s) && s.pos < |b|
    ensures StepShifts(p, b, s)
  {
    match s.mode
    case Code => CodeStepShift(p, b, s);
    case Quoted(q, st) =>
      if b[s.pos] == q { QuotedShiftClose(p, b, s); } else { QuotedShiftOther(p, b, s); }
    case Regex(c) =>
      if !c && b[s.pos] == '/' { RegexShiftClose(p, b, s); } else { RegexShiftOther(p, b, s); }
    case _ => CommentShift(p, b, s);
  }

  lemma ShiftTokensAppend(a: seq<Token>, b: seq<Token>, d: nat)
    ensures ShiftTokens(a + b, d) == ShiftTokens(a, d) + ShiftTokens(b, d)
  {
  }

  /** Scanning is translation-invariant: a prefix only moves the tokens and the final state. */
  lemma {:induction false} LexShift(p: string, b: string, s: ScanState)
    requires WellFormed(b, s)
    ensures WellFormed(p + b, Moved(s, |p|))
    ensures LexFrom(p + b, Moved(s, |p|)) == ShiftTokens(LexFrom(b, s), |p|)
    ensures End(p + b, Moved(s, |p|)) == Moved(End(b, s), |p|)
    decreases |b| - s.pos
  {
    if s.pos < |b| {
      StepShift(p, b, s);
      var r := Step(b, s);
      LexShift(p, b, r.1);
      ShiftTokensAppend(r.0, LexFrom(b, r.1), |p|);
    }
  }

  // ---- Splitting

  /** A character whose step never looks at the next one. */
  predicate Closed(c: char) {
    !IsIdentChar(c) && c != '/' && c != '*' && c != '$'
  }

  /** A character that no step treats as continuing the one before it. */
  predicate Opens(c: char) {
    !IsIdentChar(c) && c != '/' && c != '*' && c != '{'
  }

  /** No step taken inside `a` looks past its end into `b`. */
  predicate SafeSplit(a: string, b: string) {
    a == [] || b == [] || (a[|a| - 1] != '\\' && (Closed(a[|a| - 1]) || Opens(b[0])))
  }

  lemma {:induction false} WordEndSplit(a: string, b: string, i: nat)
    requires i <= |a| && SafeSplit(a, b)
    requires i == |a| ==> b == [] || !IsIdentChar(b[0])
    ensures WordEnd(a + b, i) == WordEnd(a, i)
    decreases |a| - i
  {
    if i < |a| {
      assert (a + b)[i] == a[i];
      if IsIdentChar(a[i]) {
        WordEndSplit(a, b, i + 1);
      }
    } else if b != [] {
      assert (a + b)[i] == b[0];
    }
  }

  lemma CodeStepSplit(a: string, b: string, s: ScanState)
    requires WellFormed(a, s) && s.pos < |a| && s.mode == Code && SafeSplit(a, b)
    ensures CodeStep(a + b, s) == CodeStep(a, s)
  {
    var i := s.pos;
    assert (a + b)[i] == a[i];
    if i + 1 < |a| {
      assert At(a + b, i + 1) == At(a, i + 1);
    }
    if IsIdentChar(a[i]) {
      WordEndSplit(a, b, i);
      assert (a + b)[i..WordEnd(a, i)] == a[i..WordEnd(a, i)];
    }
  }

  lemma RegexStepSplit(a: string, b: string, s: ScanState)
    requires WellFormed(a, s) && s.pos < |a| && s.mode.Regex? && SafeSplit(a, b)
    ensures RegexStep(a + b, s) == RegexStep(a, s)
  {
    var i := s.pos;
    assert (a + b)[i] == a[i];
    if a[i] == '/' && !s.mode.inClass {
      WordEndSplit(a, b, i + 1);
    }
  }

  /** Before the seam, a step on the concatenation is the step on the first part. */
  lemma StepSplit(a: string, b: string, s: ScanState)
    requires WellFormed(a, s) && s.pos < |a| && SafeSplit(a, b)
    ensures WellFormed(a + b, s)
    ensures Step(a + b, s) == Step(a, s)
  {
    var i := s.pos;
    assert (a + b)[i] == a[i];
    if i + 1 < |a| {
      assert At(a + b, i + 1) == At(a, i + 1);
    }
    match s.mode
    case Code => CodeStepSplit(a, b, s);
    case Quoted(q, st) =>
      assert (a + b)[st + 1..i] == a[st + 1..i];
    case Regex(c) => RegexStepSplit(a, b, s);
    case LineComment =>
    case BlockComment =>
    case Template =>
  }

  /** Scanning a concatenation split safely: first the first part, then the rest from where it ended. */
  lemma {:induction false} LexSplit(a: string, b: string, s: ScanState)
    requires WellFormed(a, s) && SafeSplit(a, b)
    ensures WellFormed(a + b, s) && WellFormed(a + b, End(a, s))
    ensures LexFrom(a + b, s) == LexFrom(a, s) + LexFrom(a + b, End(a, s))
    ensures End(a + b, s) == End(a + b, End(a, s))
    decreases |a| - s.pos
  {
    if s.pos < |a| {
      StepSplit(a, b, s);
      LexSplit(a, b, Step(a, s).1);
    }
  }

  // ---- Pieces

  /** Scanning `text` from `s` (at offset 0) yields `toks` and ends in `e`. */
  predicate Lexes(text: string, s: ScanState, toks: seq<Token>, e: ScanState) {
    && s.pos == 0
    && WellFormed(text, s)
    && LexFrom(text, s) == toks
    && End(text, s) == e
  }

  /** The tokens of a safely split text are those of its parts, the second part's moved. */
  lemma Glue(a: string, b: string, s: ScanState, t1: seq<Token>, m: ScanState, t2: seq<Token>, e: ScanState)
    requires Lexes(a, s, t1, m) && !m.mode.Quoted? && Lexes(b, m.(pos := 0), t2, e) && SafeSplit(a, b)
    ensures Lexes(a + b, s, t1 + ShiftTokens(t2, |a|), Moved(e, |a|))
  {
    LexSplit(a, b, s);
    LexShift(a, b, m.(pos := 0));
    assert Moved(m.(pos := 0), |a|) == m;
  }

  /** An identifier yields one word. */
  lemma {:induction false} WordPiece(w: string, holes: seq<nat>, ok: bool)
    requires w != [] && IsIdentStart(w[0]) && forall k :: 0 <= k < |w| ==> IsIdentChar(w[k])
    ensures Lexes(w, ScanState(0, Code, holes, ok), [Word(w, 0)], ScanState(|w|, Code, holes, false))
  {
    var s := ScanState(0, Code, holes, ok);
    assert w[0..|w|] == w;
    assert Step(w, s) == ([Word(w, 0)], ScanState(|w|, Code, holes, false));
  }

  /** A punctuator outside template substitutions yields itself; after `)` or `]` a `/` divides. */
  lemma PunctPiece(c: char, ok: bool)
    requires !IsSpace(c) && !IsIdentChar(c) && c != '/' && c != '\'' && c != '"' && c != '`'
    ensures Lexes([c], ScanState(0, Code, [], ok), [Punct(c, 0)], ScanState(1, Code, [], c != ')' && c != ']'))
  {
    var s := ScanState(0, Code, [], ok);
    assert Step([c], s) == ([Punct(c, 0)], ScanState(1, Code, [], c != ')' && c != ']'));
  }

  /** Blanks yield nothing and change nothing but the offset. */
  lemma {:induction false} BlankPiece(sp: string, holes: seq<nat>, ok: bool)
    requires forall k :: 0 <= k < |sp| ==> IsSpace(sp[k])
    ensures Lexes(sp, ScanState(0, Code, holes, ok), [], ScanState(|sp|, Code, holes, ok))
  {
    BlankRun(sp, ScanState(0, Code, holes, ok));
  }

  lemma {:induction false} BlankRun(sp: string, s: ScanState)
    requires s.mode == Code && s.pos <= |sp|
    requires forall k :: s.pos <= k < |sp| ==> IsSpace(sp[k])
    ensures LexFrom(sp, s) == [] && End(sp, s) == s.(pos := |sp|)
    decreases |sp| - s.pos
  {
    if s.pos < |sp| {
      BlankRun(sp, s.(pos := s.pos + 1));
    }
  }

  /** A quoted literal without escapes or line breaks yields one string token. */
  lemma QuotedPiece(q: char, body: string, holes: seq<nat>, ok: bool)
    requires q == '\'' || q == '"'
    requires forall k :: 0 <= k < |body| ==> body[k] != q && body[k] != '\\' && body[k] != '\n'
    ensures Lexes([q] + body + [q], ScanState(0, Code, holes, ok),
                  [Str(q, body, 0, |body| + 2)], ScanState(|body| + 2, Code, holes, false))
  {
    var text := [q] + body + [q];
    var s := ScanState(0, Code, holes, ok);
    assert text[0] == q;
    assert Step(text, s) == ([], ScanState(1, Quoted(q, 0), holes, ok));
    QuotedRun(text, ScanState(1, Quoted(q, 0), holes, ok));
    assert text[1..|body| + 1] == body;
  }

  lemma {:induction false} QuotedRun(text: string, s: ScanState)
    requires WellFormed(text, s) && s.mode.Quoted? && s.mode.start == 0 && 0 < |text|
    requires text[|text| - 1] == s.mode.quote && s.pos < |text|
    requires forall k :: s.pos <= k < |text| - 1 ==> text[k] != s.mode.quote && text[k] != '\\' && text[k] != '\n'
    ensures LexFrom(text, s) == [Str(s.mode.quote, text[1..|text| - 1], 0, |text|)]
    ensures End(text, s) == ScanState(|text|, Code, s.holes, false)
    decreases |text| - s.pos
  {
    if s.pos < |text| - 1 {
      QuotedRun(text, s.(pos := s.pos + 1));
    }
  }

  /** A line comment yields nothing; the scanner stays in the comment until the line break. */
  lemma LineCommentPiece(body: string, holes: seq<nat>, ok: bool)
    requires forall k :: 0 <= k < |body| ==> body[k] != '\n'
    ensures Lexes("//" + body, ScanState(0, Code, holes, ok), [], ScanState(|body| + 2, LineComment, holes, ok))
  {
    var text := "//" + body;
    assert text[0] == '/' && text[1] == '/';
    assert Step(text, ScanState(0, Code, holes, ok)) == ([], ScanState(2, LineComment, holes, ok));
    LineCommentRun(text, ScanState(2, LineComment, holes, ok));
  }

  lemma {:induction false} LineCommentRun(text: string, s: ScanState)
    requires s.mode == LineComment && s.pos <= |text|
    requires forall k :: s.pos <= k < |text| ==> text[k] != '\n'
    ensures LexFrom(text, s) == [] && End(text, s) == s.(pos := |text|)
    decreases |text| - s.pos
  {
    if s.pos < |text| {
      LineCommentRun(text, s.(pos := s.pos + 1));
    }
  }

  /** The line break that ends a line comment returns to code. */
  lemma LineBreakAfterComment(holes: seq<nat>, ok: bool)
    ensures Lexes("\n", ScanState(0, LineComment, holes, ok), [], ScanState(1, Code, holes, ok))
  {
    assert Step("\n", ScanState(0, LineComment, holes, ok)) == ([], ScanState(1, Code, holes, ok));
  }

  /** A block comment, line breaks and all, yields nothing. */
  lemma BlockCommentPiece(body: string, holes: seq<nat>, ok: bool)
    requires forall k :: 0 <= k < |body| - 1 ==> !(body[k] == '*' && body[k + 1] == '/')
    ensures Lexes("/*" + body + "*/", ScanState(0, Code, holes, ok), [], ScanState(|body| + 4, Code, holes, ok))
  {
    var text := "/*" + body + "*/";
    assert text[0] == '/' && text[1] == '*';
    assert Step(text, ScanState(0, Code, holes, ok)) == ([], ScanState(2, BlockComment, holes, ok));
    BlockCommentRun(text, ScanState(2, BlockComment, holes, ok));
  }

  lemma {:induction false} BlockCommentRun(text: string, s: ScanState)
    requires s.mode == BlockComment && 2 <= s.pos <= |text| - 2
    requires text[|text| - 2] == '*' && text[|text| - 1] == '/'
    requires forall k :: s.pos <= k < |text| - 3 ==> !(text[k] == '*' && text[k + 1] == '/')
    requires s.pos < |text| - 2 ==> !(text[|text| - 3] == '*' && text[|text| - 2] == '/')
    ensures LexFrom(text, s) == [] && End(text, s) == s.(pos := |text|, mode := Code)
    decreases |text| - s.pos
  {
    if s.pos < |text| - 2 {
      assert !(text[s.pos] == '*' && At(text, s.pos + 1) == '/');
      BlockCommentRun(text, s.(pos := s.pos + 1));
    } else {
      var e := s.(pos := |text|, mode := Code);
      assert Step(text, s) == ([], e);
    }
  }
}
