/**
 * The lexical scanner: one left-to-right pass over the source text with an
 * explicit mode (code, line comment, block comment, quoted string, template
 * literal, regular-expression literal). It reports the tokens that lie in code
 * mode: identifier words, punctuation, and completed quoted string literals.
 * Comments, template text and regex bodies produce nothing.
 */
module Lexer {

  predicate IsIdentStart(c: char) {
    ('a' <= c <= 'z') || ('A' <= c <= 'Z') || c == '_' || c == '$'
  }

  predicate IsDigit(c: char) {
    '0' <= c <= '9'
  }

  predicate IsIdentChar(c: char) {
    IsIdentStart(c) || IsDigit(c)
  }

  predicate IsSpace(c: char) {
    c == ' ' || c == '\t' || c == '\n' || c == '\r'
  }

  /** The character at `i`, or NUL past the end (NUL is never compared against). */
  function At(text: string, i: nat): char {
    if i < |text| then text[i] else '\0'
  }

  /** End of the run of identifier characters that starts at `i`. */
  function WordEnd(text: string, i: nat): (e: nat)
    requires i <= |text|
    ensures i <= e <= |text|
    ensures forall k :: i <= k < e ==> IsIdentChar(text[k])
    ensures e == |text| || !IsIdentChar(text[e])
    decreases |text| - i
  {
    if i < |text| && IsIdentChar(text[i]) then WordEnd(text, i + 1) else i
  }

  datatype Mode =
    | Code
    | LineComment
    | BlockComment
    | Quoted(quote: char, start: nat)   // `start` is the offset of the opening quote
    | Template
    | Regex(inClass: bool)

  datatype Token =
    | Word(name: string, start: nat)
    | Punct(ch: char, at: nat)
    | Str(quote: char, body: string, start: nat, end: nat)

  /**
   * The scanner's state: the offset, the mode, one open-brace counter per
   * enclosing template substitution `${ ... }`, and whether a `/` met in code
   * mode would start a regular expression (true unless the last significant
   * token was an identifier, a number, `)`, `]` or a completed literal).
   */
  datatype ScanState = ScanState(pos: nat, mode: Mode, holes: seq<nat>, regexOk: bool)

  const Start := ScanState(0, Code, [], true)

  predicate WellFormed(text: string, s: ScanState) {
    && s.pos <= |text|
    && (s.mode.Quoted? ==> s.mode.start < s.pos && (s.mode.quote == '\'' || s.mode.quote == '"'))
  }

  function Skip2(text: string, i: nat): nat {
    if i + 2 <= |text| then i + 2 else |text|
  }

  /** One transition of the scanner: the tokens emitted and the next state. */
  function Step(text: string, s: ScanState): (r: (seq<Token>, ScanState))
    requires WellFormed(text, s) && s.pos < |text|
    ensures WellFormed(text, r.1) && s.pos < r.1.pos
  {
    match s.mode
    case Code => CodeStep(text, s)
    case LineComment =>
      if text[s.pos] == '\n' then ([], s.(pos := s.pos + 1, mode := Code)) else ([], s.(pos := s.pos + 1))
    case BlockComment =>
      if text[s.pos] == '*' && At(text, s.pos + 1) == '/' then ([], s.(pos := s.pos + 2, mode := Code))
      else ([], s.(pos := s.pos + 1))
    case Quoted(q, st) => QuotedStep(text, s)
    case Template => TemplateStep(text, s)
    case Regex(inClass) => RegexStep(text, s)
  }

  function CodeStep(text: string, s: ScanState): (r: (seq<Token>, ScanState))
    requires s.pos < |text| && s.mode == Code
    ensures WellFormed(text, r.1) && s.pos < r.1.pos
  {
    var i, c, next := s.pos, text[s.pos], At(text, s.pos + 1);
    if IsSpace(c) then ([], s.(pos := i + 1))
    else if c == '/' && next == '/' then ([], s.(pos := i + 2, mode := LineComment))
    else if c == '/' && next == '*' then ([], s.(pos := i + 2, mode := BlockComment))
    else if c == '/' && s.regexOk then ([], s.(pos := i + 1, mode := Regex(false)))
    else if c == '\'' || c == '"' then ([], s.(pos := i + 1, mode := Quoted(c, i)))
    else if c == '`' then ([], s.(pos := i + 1, mode := Template))
    else if IsIdentChar(c) then
      var e := WordEnd(text, i);
      (if IsDigit(c) then [] else [Word(text[i..e], i)], s.(pos := e, regexOk := false))
    else if c == '{' && s.holes != [] then
      ([Punct(c, i)], s.(pos := i + 1, holes := Bump(s.holes, 1), regexOk := true))
    else if c == '}' && s.holes != [] && Last(s.holes) == 0 then
      ([], s.(pos := i + 1, mode := Template, holes := s.holes[..|s.holes| - 1]))
    else if c == '}' && s.holes != [] then
      ([Punct(c, i)], s.(pos := i + 1, holes := Bump(s.holes, -1), regexOk := true))
    else ([Punct(c, i)], s.(pos := i + 1, regexOk := c != ')' && c != ']'))
  }

  function Last(holes: seq<nat>): nat
    requires holes != []
  {
    holes[|holes| - 1]
  }

  /** Adds `d` to the innermost brace counter. */
  function Bump(holes: seq<nat>, d: int): (r: seq<nat>)
    requires holes != [] && Last(holes) + d >= 0
    ensures |r| == |holes|
  {
    holes[..|holes| - 1] + [Last(holes) + d]
  }

  function QuotedStep(text: string, s: ScanState): (r: (seq<Token>, ScanState))
    requires WellFormed(text, s) && s.pos < |text| && s.mode.Quoted?
    ensures WellFormed(text, r.1) && s.pos < r.1.pos
  {
    var i, c := s.pos, text[s.pos];
    if c == '\\' then ([], s.(pos := Skip2(text, i)))
    else if c == s.mode.quote then
      ([Str(c, text[s.mode.start + 1..i], s.mode.start, i + 1)], s.(pos := i + 1, mode := Code, regexOk := false))
    else if c == '\n' then ([], s.(pos := i + 1, mode := Code))
    else ([], s.(pos := i + 1))
  }

  function TemplateStep(text: string, s: ScanState): (r: (seq<Token>, ScanState))
    requires s.pos < |text| && s.mode == Template
    ensures WellFormed(text, r.1) && s.pos < r.1.pos
  {
    var i, c := s.pos, text[s.pos];
    if c == '\\' then ([], s.(pos := Skip2(text, i)))
    else if c == '`' then ([], s.(pos := i + 1, mode := Code, regexOk := false))
    else if c == '$' && At(text, i + 1) == '{' then ([], s.(pos := i + 2, mode := Code, holes := s.holes + [0], regexOk := true))
    else ([], s.(pos := i + 1))
  }

  function RegexStep(text: string, s: ScanState): (r: (seq<Token>, ScanState))
    requires s.pos < |text| && s.mode.Regex?
    ensures WellFormed(text, r.1) && s.pos < r.1.pos
  {
    var i, c, inClass := s.pos, text[s.pos], s.mode.inClass;
    if c == '\\' then ([], s.(pos := Skip2(text, i)))
    else if c == '\n' then ([], s.(pos := i + 1, mode := Code))
    else if inClass && c == ']' then ([], s.(pos := i + 1, mode := Regex(false)))
    else if !inClass && c == '[' then ([], s.(pos := i + 1, mode := Regex(true)))
    else if !inClass && c == '/' then ([], s.(pos := WordEnd(text, i + 1), mode := Code, regexOk := false))
    else ([], s.(pos := i + 1))
  }

  /** The tokens reported from state `s` to the end of the text. */
  function LexFrom(text: string, s: ScanState): seq<Token>
    requires WellFormed(text, s)
    decreases |text| - s.pos
  {
    if s.pos == |text| then []
    else
      var r := Step(text, s);
      r.0 + LexFrom(text, r.1)
  }

  function Tokens(text: string): seq<Token> {
    LexFrom(text, Start)
  }

  /** The offset at which a token starts. */
  function Pos(t: Token): nat {
    match t
    case Word(_, start) => start
    case Punct(_, at) => at
    case Str(_, _, start, _) => start
  }

  /** The offset just after a token. */
  function Reach(t: Token): nat {
    match t
    case Word(name, start) => start + |name|
    case Punct(_, at) => at + 1
    case Str(_, _, _, end) => end
  }

  /** `name` occurs at `start` in `text` as a whole identifier, not as part of a longer one. */
  predicate IsWholeWord(text: string, name: string, start: nat) {
    && name != [] && IsIdentStart(name[0])
    && (forall k :: 0 <= k < |name| ==> IsIdentChar(name[k]))
    && start + |name| <= |text| && text[start..start + |name|] == name
    && (start == 0 || !IsIdentChar(text[start - 1]))
    && (start + |name| == |text| || !IsIdentChar(text[start + |name|]))
  }

  /** Code mode never resumes in the middle of an identifier. */
  predicate AtBoundary(text: string, s: ScanState) {
    s.mode == Code && 0 < s.pos < |text| && IsIdentChar(text[s.pos]) ==> !IsIdentChar(text[s.pos - 1])
  }

  /** The lowest offset a token still to be reported from `s` can have. */
  function Floor(s: ScanState): nat {
    if s.mode.Quoted? then s.mode.start else s.pos
  }

  /** What one step from `s` to `r.1` reporting `r.0` must satisfy. */
  predicate StepSound(text: string, s: ScanState, r: (seq<Token>, ScanState)) {
    && AtBoundary(text, r.1)
    && Floor(s) <= Floor(r.1) && |r.0| <= 1
    && (forall t :: t in r.0 ==> Pos(t) == Floor(s) < Reach(t) <= Floor(r.1))
    && (forall t :: t in r.0 && t.Word? ==> IsWholeWord(text, t.name, t.start))
    && (forall t :: t in r.0 && t.Str? ==> t.start < t.end <= |text|)
    && (forall t :: t in r.0 && t.Punct? ==> t.at < |text| && text[t.at] == t.ch)
  }

  /** One step reports at most one token, at the floor, and never lowers the floor. */
  lemma StepFacts(text: string, s: ScanState)
    requires WellFormed(text, s) && s.pos < |text| && AtBoundary(text, s)
    ensures StepSound(text, s, Step(text, s))
  {
    if s.mode.Code? {
      CodeStepFacts(text, s);
    } else {
      OtherStepFacts(text, s);
    }
  }

  lemma CodeStepFacts(text: string, s: ScanState)
    requires WellFormed(text, s) && s.pos < |text| && AtBoundary(text, s) && s.mode.Code?
    ensures StepSound(text, s, Step(text, s))
  {
    var c := text[s.pos];
    if IsIdentChar(c) && !IsSpace(c) && c != '/' && c != '\'' && c != '"' && c != '`' {
      WordStepFacts(text, s);
    }
  }

  /** An identifier or number is consumed whole; only an identifier is reported. */
  lemma WordStepFacts(text: string, s: ScanState)
    requires WellFormed(text, s) && s.pos < |text| && AtBoundary(text, s) && s.mode.Code?
    requires IsIdentChar(text[s.pos]) && !IsSpace(text[s.pos])
    requires text[s.pos] !in "/'\"`"
    ensures StepSound(text, s, Step(text, s))
  {
    var r := Step(text, s);
    var c := text[s.pos];
    var e := WordEnd(text, s.pos);
    assert r == (if IsDigit(c) then [] else [Word(text[s.pos..e], s.pos)], s.(pos := e, regexOk := false));
    if !IsDigit(c) {
      assert text[s.pos..e][0] == c;
    }
  }

  lemma OtherStepFacts(text: string, s: ScanState)
    requires WellFormed(text, s) && s.pos < |text| && AtBoundary(text, s) && !s.mode.Code?
    ensures StepSound(text, s, Step(text, s))
  {
    var r := Step(text, s);
    var c := text[s.pos];
    match s.mode
    case LineComment =>
    case BlockComment =>
      if c == '*' && At(text, s.pos + 1) == '/' {
        assert text[r.1.pos - 1] == '/';
      }
    case Quoted(q, st) =>
    case Template =>
      if c == '$' && At(text, s.pos + 1) == '{' {
        assert text[r.1.pos - 1] == '{';
      }
    case Regex(_) =>
  }

  /**
   * Every reported identifier is a whole word of the text at its offset, and
   * the tokens come in strictly increasing order of offset.
   */
  lemma {:induction false} LexFromWellOrdered(text: string, s: ScanState)
    requires WellFormed(text, s) && AtBoundary(text, s)
    ensures forall t :: t in LexFrom(text, s) ==> Floor(s) <= Pos(t) < |text|
    ensures forall t :: t in LexFrom(text, s) && t.Word? ==> IsWholeWord(text, t.name, t.start)
    ensures forall t :: t in LexFrom(text, s) && t.Str? ==> t.start < t.end <= |text|
    ensures forall t :: t in LexFrom(text, s) && t.Punct? ==> t.at < |text| && text[t.at] == t.ch
    ensures forall i, j :: 0 <= i < j < |LexFrom(text, s)| ==> Pos(LexFrom(text, s)[i]) < Pos(LexFrom(text, s)[j])
    ensures forall i, j :: 0 <= i < j < |LexFrom(text, s)| ==> Reach(LexFrom(text, s)[i]) <= Pos(LexFrom(text, s)[j])
    decreases |text| - s.pos
  {
    if s.pos < |text| {
      var r := Step(text, s);
      StepFacts(text, s);
      LexFromWellOrdered(text, r.1);
      assert LexFrom(text, s) == r.0 + LexFrom(text, r.1);
    }
  }

  /** The scanner's whole-word and ordering guarantee for a complete text. */
  lemma TokensWellOrdered(text: string)
    ensures forall t :: t in Tokens(text) ==> Pos(t) < |text|
    ensures forall t :: t in Tokens(text) && t.Word? ==> IsWholeWord(text, t.name, t.start)
    ensures forall t :: t in Tokens(text) && t.Str? ==> t.start < t.end <= |text|
    ensures forall t :: t in Tokens(text) && t.Punct? ==> t.at < |text| && text[t.at] == t.ch
    ensures forall i, j :: 0 <= i < j < |Tokens(text)| ==> Pos(Tokens(text)[i]) < Pos(Tokens(text)[j])
    ensures forall i, j :: 0 <= i < j < |Tokens(text)| ==> Reach(Tokens(text)[i]) <= Pos(Tokens(text)[j])
  {
    LexFromWellOrdered(text, Start);
  }

  /** One step in code mode, as the scanner loop performs it. */
  method ScanCode(text: string, pos: nat, holes: seq<nat>, regexOk: bool)
    returns (emitted: seq<Token>, pos': nat, mode': Mode, holes': seq<nat>, regexOk': bool)
    requires pos < |text|
    ensures (emitted, ScanState(pos', mode', holes', regexOk')) == CodeStep(text, ScanState(pos, Code, holes, regexOk))
  {
    var c, next := text[pos], At(text, pos + 1);
    emitted, pos', mode', holes', regexOk' := [], pos + 1, Code, holes, regexOk;
    if IsSpace(c) {
    } else if c == '/' && next == '/' {
      pos', mode' := pos + 2, LineComment;
    } else if c == '/' && next == '*' {
      pos', mode' := pos + 2, BlockComment;
    } else if c == '/' && regexOk {
      mode' := Regex(false);
    } else if c == '\'' || c == '"' {
      mode' := Quoted(c, pos);
    } else if c == '`' {
      mode' := Template;
    } else if IsIdentChar(c) {
      var e := WordEnd(text, pos);
      if !IsDigit(c) {
        emitted := [Word(text[pos..e], pos)];
      }
      pos', regexOk' := e, false;
    } else if c == '{' && holes != [] {
      emitted, holes', regexOk' := [Punct(c, pos)], Bump(holes, 1), true;
    } else if c == '}' && holes != [] && Last(holes) == 0 {
      mode', holes' := Template, holes[..|holes| - 1];
    } else if c == '}' && holes != [] {
      emitted, holes', regexOk' := [Punct(c, pos)], Bump(holes, -1), true;
    } else {
      emitted, regexOk' := [Punct(c, pos)], c != ')' && c != ']';
    }
  }

  /** One step inside a quoted string literal opened at `st`. */
  method ScanQuoted(text: string, pos: nat, q: char, st: nat, holes: seq<nat>, regexOk: bool)
    returns (emitted: seq<Token>, pos': nat, mode': Mode, regexOk': bool)
    requires st < pos < |text| && (q == '\'' || q == '"')
    ensures (emitted, ScanState(pos', mode', holes, regexOk')) == QuotedStep(text, ScanState(pos, Quoted(q, st), holes, regexOk))
  {
    var c := text[pos];
    emitted, pos', mode', regexOk' := [], pos + 1, Quoted(q, st), regexOk;
    if c == '\\' {
      pos' := Skip2(text, pos);
    } else if c == q {
      emitted := [Str(q, text[st + 1..pos], st, pos + 1)];
      mode', regexOk' := Code, false;
    } else if c == '\n' {
      mode' := Code;
    }
  }

  /** One step inside the text of a template literal. */
  method ScanTemplate(text: string, pos: nat, holes: seq<nat>, regexOk: bool)
    returns (emitted: seq<Token>, pos': nat, mode': Mode, holes': seq<nat>, regexOk': bool)
    requires pos < |text|
    ensures (emitted, ScanState(pos', mode', holes', regexOk')) == TemplateStep(text, ScanState(pos, Template, holes, regexOk))
  {
    var c := text[pos];
    emitted, pos', mode', holes', regexOk' := [], pos + 1, Template, holes, regexOk;
    if c == '\\' {
      pos' := Skip2(text, pos);
    } else if c == '`' {
      mode', regexOk' := Code, false;
    } else if c == '$' && At(text, pos + 1) == '{' {
      pos', mode', holes', regexOk' := pos + 2, Code, holes + [0], true;
    }
  }

  /** One step inside a regular-expression literal. */
  method ScanRegex(text: string, pos: nat, inClass: bool, holes: seq<nat>, regexOk: bool)
    returns (pos': nat, mode': Mode, regexOk': bool)
    requires pos < |text|
    ensures ([], ScanState(pos', mode', holes, regexOk')) == RegexStep(text, ScanState(pos, Regex(inClass), holes, regexOk))
  {
    var c := text[pos];
    pos', mode', regexOk' := pos + 1, Regex(inClass), regexOk;
    if c == '\\' {
      pos' := Skip2(text, pos);
    } else if c == '\n' {
      mode' := Code;
    } else if inClass && c == ']' {
      mode' := Regex(false);
    } else if !inClass && c == '[' {
      mode' := Regex(true);
    } else if !inClass && c == '/' {
      pos', mode', regexOk' := WordEnd(text, pos + 1), Code, false;
    }
  }

  /** One transition of the scanner loop, dispatched on the mode. */
  method Advance(text: string, pos: nat, mode: Mode, holes: seq<nat>, regexOk: bool)
    returns (emitted: seq<Token>, pos': nat, mode': Mode, holes': seq<nat>, regexOk': bool)
    requires WellFormed(text, ScanState(pos, mode, holes, regexOk)) && pos < |text|
    ensures (emitted, ScanState(pos', mode', holes', regexOk')) == Step(text, ScanState(pos, mode, holes, regexOk))
  {
    var c := text[pos];
    emitted, pos', mode', holes', regexOk' := [], pos + 1, mode, holes, regexOk;
    match mode {
      case Code =>
        emitted, pos', mode', holes', regexOk' := ScanCode(text, pos, holes, regexOk);
      case LineComment =>
        if c == '\n' {
          mode' := Code;
        }
      case BlockComment =>
        if c == '*' && At(text, pos + 1) == '/' {
          pos', mode' := pos + 2, Code;
        }
      case Quoted(q, st) =>
        emitted, pos', mode', regexOk' := ScanQuoted(text, pos, q, st, holes, regexOk);
      case Template =>
        emitted, pos', mode', holes', regexOk' := ScanTemplate(text, pos, holes, regexOk);
      case Regex(inClass) =>
        pos', mode', regexOk' := ScanRegex(text, pos, inClass, holes, regexOk);
    }
  }

  /**
   * The scanner proper: a loop over the characters carrying the offset, the
   * mode, the template-substitution brace counters and the regex flag.
   */
  method Scan(text: string) returns (toks: seq<Token>)
    ensures toks == Tokens(text)
  {
    var pos: nat, mode, holes: seq<nat>, regexOk := 0, Code, [], true;
    toks := [];
    while pos < |text|
      invariant WellFormed(text, ScanState(pos, mode, holes, regexOk))
      invariant toks + LexFrom(text, ScanState(pos, mode, holes, regexOk)) == Tokens(text)
      decreases |text| - pos
    {
      var emitted;
      ghost var before := ScanState(pos, mode, holes, regexOk);
      emitted, pos, mode, holes, regexOk := Advance(text, pos, mode, holes, regexOk);
      assert (toks + emitted) + LexFrom(text, ScanState(pos, mode, holes, regexOk)) == toks + LexFrom(text, before);
      toks := toks + emitted;
    }
  }
}
