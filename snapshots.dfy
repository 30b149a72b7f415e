module Snapshots {
  import opened Lexer
  import opened Composition
  import opened Pieces
  import opened Shapes
  import opened Declarations
  import opened Resolver
  import opened Injector
  import opened Unimport
  import opened SnapshotText

  predicate Keyword(n: string) {
    n == "import" || n == "export"
  }

  /** The tokens of `kw { l } from 'm'` written at offset `d`. */
  function ClauseToks(kw: string, l: string, q: char, m: string, d: nat): seq<Token> {
    [Word(kw, d), Punct('{', d + |kw| + 1), Word(l, d + |kw| + 3), Punct('}', d + |kw| + |l| + 4),
     Word("from", d + |kw| + |l| + 6), Str(q, m, d + |kw| + |l| + 11, d + |kw| + |l| + |m| + 13)]
  }

  /** The tokens of `o.f(g())` written at offset `d`. */
  function CallToks(o: string, f: string, g: string, d: nat): seq<Token> {
    [Word(o, d), Punct('.', d + |o|), Word(f, d + |o| + 1), Punct('(', d + |o| + |f| + 1),
     Word(g, d + |o| + |f| + 2), Punct('(', d + |o| + |f| + |g| + 2), Punct(')', d + |o| + |f| + |g| + 3), Punct(')', d + |o| + |f| + |g| + 4)]
  }

  lemma ClauseTokenList(kw: string, l: string, q: char, m: string, d: nat)
    ensures ChainTokens(Clause(kw, l, q, m), d) == ClauseToks(kw, l, q, m, d)
  {
    ClauseTokens(kw, l, q, m, d);
    ClosingTokens(q, m, d + |kw| + |l| + 3);
  }

  lemma CallTokenList(o: string, f: string, g: string, d: nat)
    ensures ChainTokens(Call(o, f, g), d) == CallToks(o, f, g, d)
  {
    CallTokens(o, f, g, d);
  }

  /** `g())` at token `k`: one occurrence of `g`. */
  lemma ArgumentUses(toks: seq<Token>, k: nat, g: string, d: nat)
    requires k + 4 <= |toks| && !Keyword(g)
    requires toks[k] == Word(g, d) && toks[k + 1].Punct? && toks[k + 2].Punct? && toks[k + 3].Punct?
    requires k > 0 && !IsPunct(toks[k - 1], '.')
    ensures var rest := AnalyzeFrom(toks, k + 4);
      AnalyzeFrom(toks, k) == Analysis(rest.imports, [Occurrence(g, d)] + rest.uses)
  {
    OtherAt(toks, k + 3);
    OtherAt(toks, k + 2);
    OtherAt(toks, k + 1);
    OtherAt(toks, k);
  }

  /** `o.f(` at token `k`: one occurrence of `o`; the member name `f` is none. */
  lemma ReceiverUses(toks: seq<Token>, k: nat, o: string, f: string, d: nat)
    requires k + 4 <= |toks| && !Keyword(o) && !Keyword(f)
    requires toks[k] == Word(o, d) && IsPunct(toks[k + 1], '.') && toks[k + 2].Word? && toks[k + 2].name == f && toks[k + 3].Punct?
    requires k == 0 || !IsPunct(toks[k - 1], '.')
    ensures var rest := AnalyzeFrom(toks, k + 4);
      AnalyzeFrom(toks, k) == Analysis(rest.imports, [Occurrence(o, d)] + rest.uses)
  {
    OtherAt(toks, k + 3);
    OtherAt(toks, k + 2);
    OtherAt(toks, k + 1);
    OtherAt(toks, k);
  }

  /** `o.f(g())` at token `k`: the object and the argument are occurrences, the member name is not. */
  lemma CallUses(toks: seq<Token>, k: nat, o: string, f: string, g: string, d: nat)
    requires k + 8 <= |toks| && toks[k..k + 8] == CallToks(o, f, g, d)
    requires k == 0 || !IsPunct(toks[k - 1], '.')
    requires !Keyword(o) && !Keyword(f) && !Keyword(g)
    ensures var rest := AnalyzeFrom(toks, k + 8);
      AnalyzeFrom(toks, k) == Analysis(rest.imports, [Occurrence(o, d), Occurrence(g, d + |o| + |f| + 2)] + rest.uses)
  {
    var t := toks[k..k + 8];
    assert toks[k] == t[0] && toks[k + 1] == t[1] && toks[k + 2] == t[2] && toks[k + 3] == t[3];
    assert toks[k + 4] == t[4] && toks[k + 5] == t[5] && toks[k + 6] == t[6] && toks[k + 7] == t[7];
    ArgumentUses(toks, k + 4, g, d + |o| + |f| + 2);
    ReceiverUses(toks, k, o, f, d);
  }

  /** The six tokens of a clause `kw { l } from 'm'` starting at token `k`. */
  lemma ClauseAt(toks: seq<Token>, k: nat, kw: string, l: string, q: char, m: string, d: nat)
    requires k + 6 <= |toks| && toks[k..k + 6] == ClauseToks(kw, l, q, m, d)
    ensures ClauseTokensAt(toks, k) && toks[k] == Word(kw, d) && toks[k + 1].at == d + |kw| + 1
    ensures toks[k + 2].name == l && toks[k + 5] == Str(q, m, d + |kw| + |l| + 11, d + |kw| + |l| + |m| + 13)
  {
    var t := toks[k..k + 6];
    assert toks[k] == t[0] && toks[k + 1] == t[1] && toks[k + 2] == t[2];
    assert toks[k + 3] == t[3] && toks[k + 4] == t[4] && toks[k + 5] == t[5];
  }

  /** `import { l } from 'm'` at token `k` is one named import declaration and no occurrence. */
  lemma ImportUses(toks: seq<Token>, k: nat, l: string, q: char, m: string, d: nat)
    requires k + 6 <= |toks| && toks[k..k + 6] == ClauseToks("import", l, q, m, d)
    requires k == 0 || !IsPunct(toks[k - 1], '.')
    ensures var rest := AnalyzeFrom(toks, k + 6);
      AnalyzeFrom(toks, k) == Analysis([ImportDecl(m, q, [l], true, d + 8, d, d + |l| + |m| + 19)] + rest.imports, rest.uses)
  {
    ClauseAt(toks, k, "import", l, q, m, d);
    ImportClauseAt(toks, k);
  }

  /** `export { l } from 'm'` at token `k` neither imports nor uses anything. */
  lemma ExportSkips(toks: seq<Token>, k: nat, l: string, q: char, m: string, d: nat)
    requires k + 6 <= |toks| && toks[k..k + 6] == ClauseToks("export", l, q, m, d)
    requires k == 0 || !IsPunct(toks[k - 1], '.')
    ensures AnalyzeFrom(toks, k) == AnalyzeFrom(toks, k + 6)
  {
    ClauseAt(toks, k, "export", l, q, m, d);
    ReExportAt(toks, k);
  }

  /** The length of `import { l } from 'm'`. */
  lemma ClauseLength(kw: string, l: string, q: char, m: string)
    ensures |Text(Clause(kw, l, q, m))| == |kw| + |l| + |m| + 13
  {
    ClauseText(kw, l, q, m);
    ClosingText(q, m);
  }

  /**
   * A text made of a silent prefix `p` (blanks and comments), then
   * `import { l } from 'm'` on one line and `o.f(g())` on the next.
   */
  function ImportThenCall(p: Chain, l: string, q: char, m: string, o: string, f: string, g: string): Chain {
    Concat(p, Lines(Clause("import", l, q, m), Call(o, f, g)))
  }

  /** A prefix that yields no token only moves the tokens after it. */
  lemma {:induction false} SilentConcat(p: Chain, y: Chain)
    requires ChainTokens(p, 0) == []
    ensures ChainTokens(Concat(p, y), 0) == ChainTokens(y, |Text(p)|)
  {
    TokensConcat(p, y, 0);
  }

  /** A silent prefix: well formed, no token, and ending where a word may start. */
  predicate Silent(p: Chain) {
    ChainOk(p, true) && ChainTokens(p, 0) == [] && (Text(p) == [] || Closed(Text(p)[|Text(p)| - 1]))
  }

  lemma {:induction false} ImportThenCallOk(p: Chain, l: string, q: char, m: string, o: string, f: string, g: string)
    requires IsName(l) && Quotable(q, m) && IsName(o) && IsName(f) && IsName(g) && Silent(p)
    ensures ChainOk(ImportThenCall(p, l, q, m, o, f, g), true)
  {
    ImportCallLinesOk(l, q, m, o, f, g);
    OkConcat(p, Lines(Clause("import", l, q, m), Call(o, f, g)), true);
  }

  /** An import line then a call line is well formed, and it starts with `i`. */
  lemma ImportCallLinesOk(l: string, q: char, m: string, o: string, f: string, g: string)
    requires IsName(l) && Quotable(q, m) && IsName(o) && IsName(f) && IsName(g)
    ensures ChainOk(Lines(Clause("import", l, q, m), Call(o, f, g)), true)
    ensures |Text(Lines(Clause("import", l, q, m), Call(o, f, g)))| > 0
    ensures Text(Lines(Clause("import", l, q, m), Call(o, f, g)))[0] == 'i'
  {
    var x, y := Clause("import", l, q, m), Call(o, f, g);
    LinesText(x, y);
    ClauseText("import", l, q, m);
    ClauseOk("import", l, q, m, true);
    CallOk(o, f, g, false);
    LinesOk(x, y, true);
  }

  /** The tokens of two lines after a silent prefix. */
  lemma {:induction false} PrefixLinesTokens(p: Chain, x: Chain, y: Chain)
    requires ChainTokens(p, 0) == []
    ensures ChainTokens(Concat(p, Lines(x, y)), 0)
      == ChainTokens(x, |Text(p)|) + ChainTokens(y, |Text(p)| + |Text(x)| + 1)
  {
    LinesTokens(x, y, |Text(p)|);
    SilentConcat(p, Lines(x, y));
  }

  lemma {:induction false} ImportThenCallChainTokens(p: Chain, l: string, q: char, m: string, o: string, f: string, g: string, h: nat)
    requires ChainTokens(p, 0) == [] && h == |Text(p)|
    ensures ChainTokens(ImportThenCall(p, l, q, m, o, f, g), 0)
      == ClauseToks("import", l, q, m, h) + CallToks(o, f, g, h + |l| + |m| + 20)
  {
    PrefixLinesTokens(p, Clause("import", l, q, m), Call(o, f, g));
    ClauseLength("import", l, q, m);
    ClauseTokenList("import", l, q, m, h);
    CallTokenList(o, f, g, h + |l| + |m| + 20);
  }

  lemma {:induction false} ImportThenCallTokens(p: Chain, l: string, q: char, m: string, o: string, f: string, g: string, code: string, h: nat)
    requires IsName(l) && Quotable(q, m) && IsName(o) && IsName(f) && IsName(g)
    requires Silent(p) && code == Text(ImportThenCall(p, l, q, m, o, f, g)) && h == |Text(p)|
    ensures Tokens(code) == ClauseToks("import", l, q, m, h) + CallToks(o, f, g, h + |l| + |m| + 20)
  {
    var c := ImportThenCall(p, l, q, m, o, f, g);
    ImportThenCallOk(p, l, q, m, o, f, g);
    TokensOfChain(code, c);
    ImportThenCallChainTokens(p, l, q, m, o, f, g, h);
  }

  lemma ImportCallCode(code: string, l: string, q: char, m: string, o: string, f: string, g: string, h: nat)
    requires !Keyword(o) && !Keyword(f) && !Keyword(g)
    requires Tokens(code) == ClauseToks("import", l, q, m, h) + CallToks(o, f, g, h + |l| + |m| + 20)
    ensures Analyze(code) == Analysis(
        [ImportDecl(m, q, [l], true, h + 8, h, h + |l| + |m| + 19)],
        [Occurrence(o, h + |l| + |m| + 20), Occurrence(g, h + |l| + |m| + 20 + |o| + |f| + 2)])
  {
    ImportCallAnalysis(Tokens(code), l, q, m, o, f, g, h, h + |l| + |m| + 20);
  }

  /** The analysis of the tokens of `import { l } from 'm'` followed by those of `o.f(g())`. */
  lemma ImportCallAnalysis(toks: seq<Token>, l: string, q: char, m: string, o: string, f: string, g: string, h: nat, d: nat)
    requires !Keyword(o) && !Keyword(f) && !Keyword(g)
    requires toks == ClauseToks("import", l, q, m, h) + CallToks(o, f, g, d)
    ensures AnalyzeFrom(toks, 0) == Analysis(
      [ImportDecl(m, q, [l], true, h + 8, h, h + |l| + |m| + 19)],
      [Occurrence(o, d), Occurrence(g, d + |o| + |f| + 2)])
  {
    assert toks[0..6] == ClauseToks("import", l, q, m, h);
    assert toks[6..14] == CallToks(o, f, g, d);
    CallUses(toks, 6, o, f, g, d);
    ImportUses(toks, 0, l, q, m, h);
  }

  // ---- Placement, in terms of the analysis of a text

  /** Entries `{ name, from: m }` with no `as`. */
  predicate PlainFrom(catalog: seq<Binding>, m: string) {
    forall b :: b in catalog ==> b.from == m && b.alias.None?
  }

  lemma {:induction false} PlainSpecifiers(bs: seq<Binding>, m: string)
    requires PlainFrom(bs, m)
    ensures SpecifierTexts(bs) == FinalNames(bs)
    decreases |bs|
  {
    if bs != [] {
      assert bs[0] in bs;
      PlainSpecifiers(bs[1..], m);
    }
  }

  /** The one statement for entries all from `m`. */
  lemma OneModuleBlock(catalog: seq<Binding>, m: string)
    requires catalog != [] && PlainFrom(catalog, m)
    ensures Block(catalog, Modules(catalog)) == "import { " + Join(FinalNames(catalog), ", ") + " } from '" + m + "';\n"
  {
    ModulesOfOne(catalog, m);
    MembersAll(catalog, m);
    PlainSpecifiers(catalog, m);
  }

  /**
   * A text with no import declaration that uses every name of a catalog whose
   * entries all come from `m`: one statement naming them all, in catalog
   * order, opens the text, with or without at-end placement.
   */
  lemma AddedAtTop(code: string, catalog: seq<Binding>, m: string, atEnd: bool)
    requires catalog != [] && DistinctNames(catalog) && PlainFrom(catalog, m)
    requires Analyze(code).imports == []
    requires forall b :: b in catalog ==> FinalName(b) in UsedNames(Analyze(code).uses)
    ensures Transform(Config(catalog, false, atEnd, false), code).code
      == "import { " + Join(FinalNames(catalog), ", ") + " } from '" + m + "';\n" + code
  {
    var a := Analyze(code);
    RegisterDistinctCatalog(catalog);
    PendingAll(catalog, a);
    if atEnd {
      InjectAfterImports(code, a, catalog, false);
    } else {
      InjectAtTop(code, a, catalog, false);
    }
    OneModuleBlock(catalog, m);
  }

  /** A text without occurrences comes back unchanged, whatever the options, and nothing is injected. */
  lemma NothingAdded(code: string, cfg: Config)
    requires Analyze(code).uses == []
    ensures Transform(cfg, code) == Injection(code, [])
  {
    var registry := Register(cfg.imports);
    PendingNone(registry, Analyze(code));
    InjectNothing(code, Analyze(code), cfg.mergeExisting, cfg.injectAtEnd);
  }

  /** Analysed declarations always lie inside their text. */
  lemma AnalysisBounded(code: string)
    ensures Bounded(code, Analyze(code))
  {
    ImportBounds(code);
  }

  /** A catalog of one binding whose name is used and not imported leaves that binding pending. */
  lemma PendingSingle(a: Analysis, g: string, m: string)
    requires g in UsedNames(a.uses) && g !in ProvidedNames(a.imports)
    ensures Pending(Register([Binding(g, m, None)]), a) == [Binding(g, m, None)]
  {
    var b := Binding(g, m, None);
    RegisterDistinctCatalog([b]);
    PendingAll([b], a);
  }

  /** The merge splice, for any analysis whose only declaration is the target. */
  lemma MergeInto(code: string, a: Analysis, g: string, m: string, d: ImportDecl, atEnd: bool)
    requires a.imports == [d] && Bounded(code, a)
    requires d.specifier == m && d.named && g !in d.locals
    requires g in UsedNames(a.uses)
    ensures d.braceEnd <= |code|
    ensures Inject(code, a, Pending(Register([Binding(g, m, None)]), a), true, atEnd)
      == code[..d.braceEnd] + " " + g + "," + code[d.braceEnd..]
  {
    var b := Binding(g, m, None);
    assert ProvidedNames(a.imports) == set n | n in d.locals;
    PendingSingle(a, g, m);
    assert MergeTarget(a.imports, m) == Some(d);
    InjectMerge(code, a, [b], m, atEnd);
    assert SpecifierTexts([b]) == [g];
    SpliceMergeText(code[..d.braceEnd], g, code[d.braceEnd..]);
  }

  lemma SpliceMergeText(x: string, g: string, y: string)
    ensures x + MergeText([g]) + y == x + " " + g + "," + y
  {
  }

  /**
   * Merging: a used name `g` from `m`, where the text's only import
   * declaration is a `{ ... }` import of `m` not binding `g`, is spliced
   * right after that declaration's `{`.
   */
  lemma MergedIntoExisting(code: string, g: string, m: string, d: ImportDecl, uses: seq<Occurrence>, atEnd: bool)
    requires Analyze(code) == Analysis([d], uses)
    requires d.specifier == m && d.named && g !in d.locals
    requires g in UsedNames(uses)
    ensures d.braceEnd <= |code|
    ensures Transform(Config([Binding(g, m, None)], true, atEnd, false), code).code
      == code[..d.braceEnd] + " " + g + "," + code[d.braceEnd..]
  {
    AnalysisBounded(code);
    MergeInto(code, Analysis([d], uses), g, m, d, atEnd);
  }

  /** The statement for `g` from `m`, spliced between `x` and `y` after a line break. */
  lemma SpliceStatement(x: string, y: string, g: string, m: string)
    ensures x + "\n" + ("import { " + g + " } from '" + m + "';\n") + y
      == x + "\n" + "import { " + g + " } from '" + m + "';\n" + y
  {
  }

  /** The at-end placement of a pending list whose block is one statement for `g` from `m`. */
  lemma AfterImportsBlock(code: string, a: Analysis, pending: seq<Binding>, g: string, m: string, p: nat)
    requires Bounded(code, a) && pending != [] && PendingNames(pending) == {g}
    requires Block(pending, Modules(pending)) == "import { " + g + " } from '" + m + "';\n"
    requires FirstUse(a.uses, {g}).Some? && LastImportBefore(code, a.imports, FirstUse(a.uses, {g}).value) == Some(p)
    ensures p <= |code|
    ensures Inject(code, a, pending, false, true)
      == code[..p] + "\n" + "import { " + g + " } from '" + m + "';\n" + code[p..]
  {
    InjectAfterImports(code, a, pending, false);
    SpliceStatement(code[..p], code[p..], g, m);
  }

  /** The at-end placement, for any analysis. */
  lemma AfterImports(code: string, a: Analysis, g: string, m: string, p: nat)
    requires Bounded(code, a)
    requires g in UsedNames(a.uses) && g !in ProvidedNames(a.imports)
    requires FirstUse(a.uses, {g}).Some? && LastImportBefore(code, a.imports, FirstUse(a.uses, {g}).value) == Some(p)
    ensures p <= |code|
    ensures Inject(code, a, Pending(Register([Binding(g, m, None)]), a), false, true)
      == code[..p] + "\n" + "import { " + g + " } from '" + m + "';\n" + code[p..]
  {
    var b := Binding(g, m, None);
    assert Pending(Register([b]), a) == [b] by {
      PendingSingle(a, g, m);
    }
    assert Block([b], Modules([b])) == "import { " + g + " } from '" + m + "';\n" by {
      OneModuleBlock([b], m);
      assert Join(FinalNames([b]), ", ") == g;
    }
    assert PendingNames([b]) == {g};
    AfterImportsBlock(code, a, [b], g, m, p);
  }

  /**
   * At-end placement: a used name `g` with no import gets its statement,
   * after a line break, at offset `p`, the end of the last import declaration
   * that ends before the first occurrence of `g`.
   */
  lemma AddedAfterImports(code: string, g: string, m: string, p: nat)
    requires g in UsedNames(Analyze(code).uses) && g !in ProvidedNames(Analyze(code).imports)
    requires FirstUse(Analyze(code).uses, {g}).Some?
    requires LastImportBefore(code, Analyze(code).imports, FirstUse(Analyze(code).uses, {g}).value) == Some(p)
    ensures p <= |code|
    ensures Transform(Config([Binding(g, m, None)], false, true, false), code).code
      == code[..p] + "\n" + "import { " + g + " } from '" + m + "';\n" + code[p..]
  {
    AnalysisBounded(code);
    AfterImports(code, Analyze(code), g, m, p);
  }

  // ---- A call on its own line

  lemma CallCode(o: string, f: string, g: string)
    requires IsName(o) && IsName(f) && IsName(g)
    ensures Tokens(Text(Call(o, f, g))) == CallToks(o, f, g, 0)
  {
    CallOk(o, f, g, true);
    TokensOfChain(Text(Call(o, f, g)), Call(o, f, g));
    CallTokenList(o, f, g, 0);
  }

  /** `o.f(g())` alone: no declaration; `o` and `g` occur, `f` does not. */
  lemma CallAnalysis(code: string, o: string, f: string, g: string)
    requires !Keyword(o) && !Keyword(f) && !Keyword(g)
    requires Tokens(code) == CallToks(o, f, g, 0)
    ensures Analyze(code) == Analysis([], [Occurrence(o, 0), Occurrence(g, |o| + |f| + 2)])
  {
    var toks := Tokens(code);
    assert toks[0..8] == toks;
    CallUses(toks, 0, o, f, g, 0);
  }

  /** A word that is not a member name is an occurrence. */
  lemma {:induction false} PlainWordAt(toks: seq<Token>, i: nat, k: nat)
    requires i <= k < |toks| && toks[k].Word? && !IsMemberName(toks, k)
    ensures Occurrence(toks[k].name, toks[k].start) in PlainWords(toks, i)
    decreases k - i
  {
    if i < k {
      PlainWordAt(toks, i + 1, k);
    }
  }

  // ---- The examples

  /** A call `o.f(g())` alone, with `g` in the catalog: the statement opens the text. */
  lemma CallAtTop(code: string, o: string, f: string, g: string, m: string)
    requires !Keyword(o) && !Keyword(f) && !Keyword(g)
    requires Tokens(code) == CallToks(o, f, g, 0)
    ensures Transform(Defaults([Binding(g, m, None)]), code).code == "import { " + g + " } from '" + m + "';\n" + code
  {
    var b := Binding(g, m, None);
    CallAnalysis(code, o, f, g);
    assert Occurrence(g, |o| + |f| + 2) in Analyze(code).uses;
    AddedAtTop(code, [b], m, false);
    assert Join(FinalNames([b]), ", ") == g;
  }

  lemma CallChainAtTop(o: string, f: string, g: string, m: string)
    requires IsName(o) && IsName(f) && IsName(g) && !Keyword(o) && !Keyword(f) && !Keyword(g)
    ensures var code := Text(Call(o, f, g));
      Transform(Defaults([Binding(g, m, None)]), code).code == "import { " + g + " } from '" + m + "';\n" + code
  {
    CallCode(o, f, g);
    CallAtTop(Text(Call(o, f, g)), o, f, g, m);
  }

  lemma ConsoleNames(g: string)
    requires g == "fooBar" || g == "import1" || g == "import2" || g == "nonAutoImport"
    ensures IsName("console") && IsName("log") && IsName(g)
    ensures !Keyword("console") && !Keyword("log") && !Keyword(g)
  {
  }

  /** The text of the `basic` example. */
  lemma BasicText()
    ensures Text(Call("console", "log", "fooBar")) == "console.log(fooBar())"
  {
    CallText("console", "log", "fooBar");
  }

  /** The `basic` example, as a rewrite: the statement for `fooBar` opens the text. */
  lemma BasicOutput()
    ensures Transform(Defaults([Binding("fooBar", "test-id", None)]), "console.log(fooBar())").code
      == "import { fooBar } from 'test-id';\nconsole.log(fooBar())"
  {
    ConsoleNames("fooBar");
    CallChainAtTop("console", "log", "fooBar", "test-id");
    BasicText();
    BasicStatement();
  }

  /** The `basic` example: a context over one entry, and one call. */
  method BasicExample() returns (out: string)
    ensures out == "import { fooBar } from 'test-id';\nconsole.log(fooBar())"
  {
    var ctx := new Context(Defaults([Binding("fooBar", "test-id", None)]));
    BasicOutput();
    out := ctx.InjectImports("console.log(fooBar())", None);
  }

  // ---- A re-export

  lemma ExportCode(l: string, q: char, m: string)
    requires IsName(l) && Quotable(q, m)
    ensures Tokens(Text(Clause("export", l, q, m))) == ClauseToks("export", l, q, m, 0)
  {
    ClauseOk("export", l, q, m, true);
    TokensOfChain(Text(Clause("export", l, q, m)), Clause("export", l, q, m));
    ClauseTokenList("export", l, q, m, 0);
  }

  /** `export { l } from 'm'` alone: neither a declaration nor an occurrence. */
  lemma ExportAnalysis(code: string, l: string, q: char, m: string)
    requires Tokens(code) == ClauseToks("export", l, q, m, 0)
    ensures Analyze(code) == Analysis([], [])
  {
    var toks := Tokens(code);
    assert toks[0..6] == toks;
    ExportSkips(toks, 0, l, q, m, 0);
  }

  /** A re-export is left as it is, whatever the catalog and options. */
  lemma ExportUnchanged(l: string, q: char, m: string, cfg: Config)
    requires IsName(l) && Quotable(q, m)
    ensures var code := Text(Clause("export", l, q, m));
      Transform(cfg, code) == Injection(code, [])
  {
    ExportCode(l, q, m);
    ExportAnalysis(Text(Clause("export", l, q, m)), l, q, m);
    NothingAdded(Text(Clause("export", l, q, m)), cfg);
  }

  lemma ExportText()
    ensures Text(Clause("export", "fooBar", '"', "test-id")) == "export { fooBar } from \"test-id\""
  {
    ClauseText("export", "fooBar", '"', "test-id");
    ClosingText('"', "test-id");
  }

  /** The `should not match export` example, as a rewrite. */
  lemma ExportOutput()
    ensures Transform(Defaults([Binding("fooBar", "test-id", None)]), "export { fooBar } from \"test-id\"").code
      == "export { fooBar } from \"test-id\""
  {
    assert IsName("fooBar") && Quotable('"', "test-id");
    ExportUnchanged("fooBar", '"', "test-id", Defaults([Binding("fooBar", "test-id", None)]));
    ExportText();
  }

  /** The `should not match export` example: the re-export of `fooBar` does not count as a use. */
  method ExportExample() returns (out: string)
    ensures out == "export { fooBar } from \"test-id\""
  {
    var ctx := new Context(Defaults([Binding("fooBar", "test-id", None)]));
    ExportOutput();
    out := ctx.InjectImports("export { fooBar } from \"test-id\"", None);
  }

  // ---- An import line, then a call line

  /** At-end placement for one declaration, then an occurrence of another name, then one of `g`. */
  lemma OneImportAtEnd(code: string, a: Analysis, d: ImportDecl, o: string, x: nat, g: string, at: nat, from: string)
    requires a == Analysis([d], [Occurrence(o, x), Occurrence(g, at)]) && o != g && g !in d.locals
    requires Bounded(code, a) && DeclEnd(code, d) <= at
    ensures var p := DeclEnd(code, d);
      && p <= |code|
      && Inject(code, a, Pending(Register([Binding(g, from, None)]), a), false, true)
        == code[..p] + "\n" + "import { " + g + " } from '" + from + "';\n" + code[p..]
  {
    assert a.uses[1..][0] == Occurrence(g, at);
    assert FirstUse(a.uses, {g}) == Some(at);
    assert a.imports[1..] == [];
    assert ProvidedNames(a.imports) == set n | n in d.locals;
    assert a.uses[1] in a.uses;
    AfterImports(code, a, g, from, DeclEnd(code, d));
  }

  /** At-end placement after one import declaration, when the second occurrence is `g`. */
  lemma DeclThenUseAtEnd(code: string, d: ImportDecl, o: string, x: nat, g: string, at: nat, from: string, p: nat)
    requires Analyze(code) == Analysis([d], [Occurrence(o, x), Occurrence(g, at)]) && o != g && g !in d.locals
    requires DeclEnd(code, d) == p && p <= at
    ensures p <= |code|
    ensures Transform(Config([Binding(g, from, None)], false, true, false), code).code
      == code[..p] + "\n" + "import { " + g + " } from '" + from + "';\n" + code[p..]
  {
    AnalysisBounded(code);
    OneImportAtEnd(code, Analyze(code), d, o, x, g, at, from);
  }

  /**
   * The analysis of `code`, written as a silent prefix of length `h`,
   * `import { l } from 'm'` and, on the next line, `o.f(g())`: one named
   * declaration, then the object and argument of the call as occurrences.
   */
  lemma {:induction false} ImportThenCallAnalysis(p: Chain, l: string, q: char, m: string, o: string, f: string, g: string, code: string, h: nat)
    requires IsName(l) && Quotable(q, m) && IsName(o) && IsName(f) && IsName(g)
    requires !Keyword(o) && !Keyword(f) && !Keyword(g)
    requires Silent(p) && code == Text(ImportThenCall(p, l, q, m, o, f, g)) && h == |Text(p)|
    ensures Analyze(code) == Analysis(
        [ImportDecl(m, q, [l], true, h + 8, h, h + |l| + |m| + 19)],
        [Occurrence(o, h + |l| + |m| + 20), Occurrence(g, h + |l| + |m| + 20 + |o| + |f| + 2)])
  {
    ImportThenCallTokens(p, l, q, m, o, f, g, code, h);
    ImportCallCode(code, l, q, m, o, f, g, h);
  }

  /** The text of an import line then a call line. */
  lemma {:induction false} ImportThenCallText(p: Chain, l: string, q: char, m: string, o: string, f: string, g: string)
    ensures Text(ImportThenCall(p, l, q, m, o, f, g))
      == Text(p) + (Text(Clause("import", l, q, m)) + ("\n" + Text(Call(o, f, g))))
  {
    TextConcat(p, Lines(Clause("import", l, q, m), Call(o, f, g)));
    LinesText(Clause("import", l, q, m), Call(o, f, g));
  }

  /** An import clause starts with `import {`. */
  lemma ClauseHead(l: string, q: char, m: string)
    ensures Text(Clause("import", l, q, m)) == "import {" + (" " + (l + Text(Closing(q, m))))
  {
    ClauseText("import", l, q, m);
  }

  /** The import line ends at its line break, and the call line starts right after it. */
  lemma ImportLineEnd(t: string, l: string, q: char, m: string, o: string, f: string, g: string, code: string)
    requires IsName(o) && code == t + (Text(Clause("import", l, q, m)) + ("\n" + Text(Call(o, f, g))))
    ensures SkipTrail(code, |t| + |l| + |m| + 19) == |t| + |l| + |m| + 20
  {
    var e := |t| + |l| + |m| + 19;
    ClauseLength("import", l, q, m);
    CallText(o, f, g);
    assert code[e] == '\n';
    assert code[e + 1] == o[0];
  }

  /** Splicing `g,` after the `{` of an import line that follows `t`. */
  lemma SpliceLine(t: string, l: string, c: string, y: string, g: string, code: string)
    requires code == t + (("import {" + (" " + (l + c))) + y)
    ensures |t| + 8 <= |code|
    ensures code[..|t| + 8] + " " + g + "," + code[|t| + 8..] == t + (("import {" + (" " + ((g + ", " + l) + c))) + y)
  {
    var rest := " " + (l + c) + y;
    assert code == (t + "import {") + rest;
    assert code[..|t| + 8] == t + "import {";
    assert code[|t| + 8..] == rest;
  }

  /** The `{` splice of `g` into the import line gives the import line of `g, l`. */
  lemma MergeString(t: string, l: string, q: char, m: string, o: string, f: string, g: string, code: string)
    requires code == t + (Text(Clause("import", l, q, m)) + ("\n" + Text(Call(o, f, g))))
    ensures |t| + 8 <= |code|
    ensures code[..|t| + 8] + " " + g + "," + code[|t| + 8..]
      == t + (Text(Clause("import", g + ", " + l, q, m)) + ("\n" + Text(Call(o, f, g))))
  {
    ClauseHead(l, q, m);
    ClauseHead(g + ", " + l, q, m);
    SpliceLine(t, l, Text(Closing(q, m)), "\n" + Text(Call(o, f, g)), g, code);
  }

  /** The statement for `g` between the two lines. */
  lemma AtEndString(t: string, l: string, q: char, m: string, o: string, f: string, g: string, from: string, code: string)
    requires code == t + (Text(Clause("import", l, q, m)) + ("\n" + Text(Call(o, f, g))))
    ensures |t| + |l| + |m| + 20 <= |code|
    ensures code[..|t| + |l| + |m| + 20] + "\n" + "import { " + g + " } from '" + from + "';\n" + code[|t| + |l| + |m| + 20..]
      == t + Text(Clause("import", l, q, m)) + "\n" + "\n" + "import { " + g + " } from '" + from + "';\n" + Text(Call(o, f, g))
  {
    ClauseLength("import", l, q, m);
    var head := t + Text(Clause("import", l, q, m)) + "\n";
    assert code == head + Text(Call(o, f, g));
    assert code[..|t| + |l| + |m| + 20] == head;
    assert code[|t| + |l| + |m| + 20..] == Text(Call(o, f, g));
  }

  /** Merging, once the analysis of an import line then a call line is known. */
  lemma MergeFromAnalysis(code: string, t: string, l: string, q: char, m: string, o: string, f: string, g: string, h: nat)
    requires g != l
    requires Analyze(code) == Analysis(
        [ImportDecl(m, q, [l], true, h + 8, h, h + |l| + |m| + 19)],
        [Occurrence(o, h + |l| + |m| + 20), Occurrence(g, h + |l| + |m| + 20 + |o| + |f| + 2)])
    requires h == |t| && code == t + (Text(Clause("import", l, q, m)) + ("\n" + Text(Call(o, f, g))))
    ensures Transform(Config([Binding(g, m, None)], true, false, false), code).code
      == t + (Text(Clause("import", g + ", " + l, q, m)) + ("\n" + Text(Call(o, f, g))))
  {
    var uses := [Occurrence(o, h + |l| + |m| + 20), Occurrence(g, h + |l| + |m| + 20 + |o| + |f| + 2)];
    assert uses[1] in uses;
    MergedIntoExisting(code, g, m, ImportDecl(m, q, [l], true, h + 8, h, h + |l| + |m| + 19), uses, false);
    MergeString(t, l, q, m, o, f, g, code);
  }

  /** Merging into the import line the name its call line uses: `g` lands right after the `{`. */
  lemma {:induction false} ImportThenCallMerge(p: Chain, l: string, q: char, m: string, o: string, f: string, g: string, code: string, h: nat)
    requires IsName(l) && Quotable(q, m) && IsName(o) && IsName(f) && IsName(g)
    requires !Keyword(o) && !Keyword(f) && !Keyword(g) && g != l
    requires Silent(p) && code == Text(ImportThenCall(p, l, q, m, o, f, g)) && h == |Text(p)|
    ensures Transform(Config([Binding(g, m, None)], true, false, false), code).code
      == Text(p) + (Text(Clause("import", g + ", " + l, q, m)) + ("\n" + Text(Call(o, f, g))))
  {
    ImportThenCallAnalysis(p, l, q, m, o, f, g, code, h);
    ImportThenCallText(p, l, q, m, o, f, g);
    MergeFromAnalysis(code, Text(p), l, q, m, o, f, g, h);
  }

  /** At-end placement after an import line whose line break is at `e`, then a call line using `g`. */
  lemma ImportLineAtEnd(code: string, l: string, q: char, m: string, o: string, f: string, g: string, from: string, h: nat)
    requires g != l && g != o
    requires Analyze(code) == Analysis(
        [ImportDecl(m, q, [l], true, h + 8, h, h + |l| + |m| + 19)],
        [Occurrence(o, h + |l| + |m| + 20), Occurrence(g, h + |l| + |m| + 20 + |o| + |f| + 2)])
    requires SkipTrail(code, h + |l| + |m| + 19) == h + |l| + |m| + 20
    ensures h + |l| + |m| + 20 <= |code|
    ensures Transform(Config([Binding(g, from, None)], false, true, false), code).code
      == code[..h + |l| + |m| + 20] + "\n" + "import { " + g + " } from '" + from + "';\n" + code[h + |l| + |m| + 20..]
  {
    var d := ImportDecl(m, q, [l], true, h + 8, h, h + |l| + |m| + 19);
    assert DeclEnd(code, d) == h + |l| + |m| + 20;
    DeclThenUseAtEnd(code, d, o, h + |l| + |m| + 20, g, h + |l| + |m| + 20 + |o| + |f| + 2, from, h + |l| + |m| + 20);
  }

  /** At-end placement, once the analysis of an import line then a call line is known. */
  lemma AtEndFromAnalysis(code: string, t: string, l: string, q: char, m: string, o: string, f: string, g: string, from: string, h: nat)
    requires IsName(o) && g != l && g != o
    requires Analyze(code) == Analysis(
        [ImportDecl(m, q, [l], true, h + 8, h, h + |l| + |m| + 19)],
        [Occurrence(o, h + |l| + |m| + 20), Occurrence(g, h + |l| + |m| + 20 + |o| + |f| + 2)])
    requires h == |t| && code == t + (Text(Clause("import", l, q, m)) + ("\n" + Text(Call(o, f, g))))
    ensures Transform(Config([Binding(g, from, None)], false, true, false), code).code
      == t + Text(Clause("import", l, q, m)) + "\n" + "\n" + "import { " + g + " } from '" + from + "';\n" + Text(Call(o, f, g))
  {
    ImportLineEnd(t, l, q, m, o, f, g, code);
    ImportLineAtEnd(code, l, q, m, o, f, g, from, h);
    AtEndString(t, l, q, m, o, f, g, from, code);
  }

  /** At-end placement: the statement for `g` goes after the import line's line break. */
  lemma {:induction false} ImportThenCallAtEnd(p: Chain, l: string, q: char, m: string, o: string, f: string, g: string, from: string, code: string, h: nat)
    requires IsName(l) && Quotable(q, m) && IsName(o) && IsName(f) && IsName(g)
    requires !Keyword(o) && !Keyword(f) && !Keyword(g) && g != l && g != o
    requires Silent(p) && code == Text(ImportThenCall(p, l, q, m, o, f, g)) && h == |Text(p)|
    ensures Transform(Config([Binding(g, from, None)], false, true, false), code).code
      == Text(p) + Text(Clause("import", l, q, m)) + "\n" + "\n" + "import { " + g + " } from '" + from + "';\n" + Text(Call(o, f, g))
  {
    ImportThenCallAnalysis(p, l, q, m, o, f, g, code, h);
    ImportThenCallText(p, l, q, m, o, f, g);
    AtEndFromAnalysis(code, Text(p), l, q, m, o, f, g, from, h);
  }

  /** Nothing before the first line. */
  lemma StopSilent()
    ensures Silent(Stop) && Text(Stop) == ""
  {
  }

  /** A comment header is silent. */
  lemma HeaderSilent(block: string, line: string)
    requires NoClose(block) && Plain(line, '\n')
    ensures Silent(Header(block, line))
  {
    HeaderOk(block, line, true);
    HeaderTokens(block, line, 0);
    HeaderText(block, line);
    var t := Text(Header(block, line));
    assert t[|t| - 1] == '\n';
  }


  // ---- The examples with an import line, then a call line

  /** A clause's text, left to right. */
  lemma ClauseFlat(kw: string, l: string, q: char, m: string)
    ensures Text(Clause(kw, l, q, m)) == kw + " { " + l + " } from " + [q] + m + [q]
  {
    ClauseText(kw, l, q, m);
    ClosingText(q, m);
  }

  lemma FooClause()
    ensures Text(Clause("import", "foo", '\'', "test-id")) == "import { foo } from 'test-id'"
  {
    ClauseFlat("import", "foo", '\'', "test-id");
    assert "import" + " { " == "import { ";
    assert "import { " + "foo" == "import { foo";
    assert "import { foo" + " } from " == "import { foo } from ";
    assert "import { foo } from " + ['\''] == "import { foo } from '";
    assert "import { foo } from '" + "test-id" == "import { foo } from 'test-id";
  }

  lemma FooBarFooClause()
    ensures Text(Clause("import", "fooBar, foo", '\'', "test-id")) == "import { fooBar, foo } from 'test-id'"
  {
    ClauseFlat("import", "fooBar, foo", '\'', "test-id");
    assert "import" + " { " == "import { ";
    assert "import { " + "fooBar, foo" == "import { fooBar, foo";
    assert "import { fooBar, foo" + " } from " == "import { fooBar, foo } from ";
    assert "import { fooBar, foo } from " + ['\''] == "import { fooBar, foo } from '";
    assert "import { fooBar, foo } from '" + "test-id" == "import { fooBar, foo } from 'test-id";
  }

  /** The input of the `mergeExisting` example. */
  lemma MergeInputText()
    ensures Text(ImportThenCall(Stop, "foo", '\'', "test-id", "console", "log", "fooBar"))
      == "import { foo } from 'test-id'\nconsole.log(fooBar())"
  {
    ImportThenCallText(Stop, "foo", '\'', "test-id", "console", "log", "fooBar");
    StopSilent();
    FooClause();
    BasicText();
    MergeInputLines();
  }

  /** The output of the `mergeExisting` example. */
  lemma MergeOutputText()
    ensures Text(Stop) + (Text(Clause("import", "fooBar, foo", '\'', "test-id")) + ("\n" + Text(Call("console", "log", "fooBar"))))
      == "import { fooBar, foo } from 'test-id'\nconsole.log(fooBar())"
  {
    StopSilent();
    FooBarFooClause();
    BasicText();
    MergeOutputLines();
  }

  lemma FooNames()
    ensures IsName("foo") && Quotable('\'', "test-id") && Quotable('\'', "foo") && "fooBar" != "foo" && "fooBar" != "console"
    ensures "fooBar" + ", " + "foo" == "fooBar, foo"
  {
  }

  lemma MergeCase(code: string)
    requires code == Text(ImportThenCall(Stop, "foo", '\'', "test-id", "console", "log", "fooBar"))
    ensures Transform(Config([Binding("fooBar", "test-id", None)], true, false, false), code).code
      == Text(Stop) + (Text(Clause("import", "fooBar, foo", '\'', "test-id")) + ("\n" + Text(Call("console", "log", "fooBar"))))
  {
    ConsoleNames("fooBar");
    FooNames();
    StopSilent();
    ImportThenCallMerge(Stop, "foo", '\'', "test-id", "console", "log", "fooBar", code, 0);
  }

  /** The `mergeExisting` example, as a rewrite: `fooBar` joins the existing import of `test-id`. */
  lemma MergeOutput()
    ensures Transform(Config([Binding("fooBar", "test-id", None)], true, false, false),
        "import { foo } from 'test-id'\nconsole.log(fooBar())").code
      == "import { fooBar, foo } from 'test-id'\nconsole.log(fooBar())"
  {
    MergeInputText();
    MergeCase("import { foo } from 'test-id'\nconsole.log(fooBar())");
    MergeOutputText();
  }

  /** The `mergeExisting` example: a context that merges into existing declarations. */
  method MergeExample() returns (out: string)
    ensures out == "import { fooBar, foo } from 'test-id'\nconsole.log(fooBar())"
  {
    var ctx := new Context(Config([Binding("fooBar", "test-id", None)], true, false, false));
    MergeOutput();
    out := ctx.InjectImports("import { foo } from 'test-id'\nconsole.log(fooBar())", None);
  }

  lemma FooFooClause()
    ensures Text(Clause("import", "foo", '\'', "foo")) == "import { foo } from 'foo'"
  {
    ClauseFlat("import", "foo", '\'', "foo");
    assert "import" + " { " == "import { ";
    assert "import { " + "foo" == "import { foo";
    assert "import { foo" + " } from " == "import { foo } from ";
    assert "import { foo } from " + ['\''] == "import { foo } from '";
    assert "import { foo } from '" + "foo" == "import { foo } from 'foo";
  }

  /** The input of the `injection at end` example. */
  lemma AtEndInputText()
    ensures Text(ImportThenCall(Stop, "foo", '\'', "foo", "console", "log", "fooBar"))
      == "import { foo } from 'foo'\nconsole.log(fooBar())"
  {
    ImportThenCallText(Stop, "foo", '\'', "foo", "console", "log", "fooBar");
    StopSilent();
    FooFooClause();
    BasicText();
    AtEndInputLines();
  }

  /** The output of the `injection at end` example. */
  lemma AtEndOutputText()
    ensures Text(Stop) + Text(Clause("import", "foo", '\'', "foo")) + "\n" + "\n"
        + "import { " + "fooBar" + " } from '" + "test-id" + "';\n" + Text(Call("console", "log", "fooBar"))
      == "import { foo } from 'foo'\n\nimport { fooBar } from 'test-id';\nconsole.log(fooBar())"
  {
    StopSilent();
    FooFooClause();
    BasicText();
    FooBarStatement("" + "import { foo } from 'foo'" + "\n" + "\n");
    AtEndOutputLines();
  }

  lemma AtEndCase(code: string)
    requires code == Text(ImportThenCall(Stop, "foo", '\'', "foo", "console", "log", "fooBar"))
    ensures Transform(Config([Binding("fooBar", "test-id", None)], false, true, false), code).code
      == Text(Stop) + Text(Clause("import", "foo", '\'', "foo")) + "\n" + "\n"
        + "import { " + "fooBar" + " } from '" + "test-id" + "';\n" + Text(Call("console", "log", "fooBar"))
  {
    ConsoleNames("fooBar");
    FooNames();
    StopSilent();
    ImportThenCallAtEnd(Stop, "foo", '\'', "foo", "console", "log", "fooBar", "test-id", code, 0);
  }

  /** The `injection at end` example, as a rewrite: the statement follows the existing import line. */
  lemma AtEndOutput()
    ensures Transform(Config([Binding("fooBar", "test-id", None)], false, true, false),
        "import { foo } from 'foo'\nconsole.log(fooBar())").code
      == "import { foo } from 'foo'\n\nimport { fooBar } from 'test-id';\nconsole.log(fooBar())"
  {
    AtEndInputText();
    AtEndCase("import { foo } from 'foo'\nconsole.log(fooBar())");
    AtEndOutputText();
  }

  /** The `injection at end` example: a context that places statements after the imports. */
  method AtEndExample() returns (out: string)
    ensures out == "import { foo } from 'foo'\n\nimport { fooBar } from 'test-id';\nconsole.log(fooBar())"
  {
    var ctx := new Context(Config([Binding("fooBar", "test-id", None)], false, true, false));
    AtEndOutput();
    out := ctx.InjectImports("import { foo } from 'foo'\nconsole.log(fooBar())", None);
  }

  // ---- The comment example

  lemma CommentHeaderSilent()
    ensures Silent(Header("*\n* import { foo } from './foo'\n", " import { foo1 } from './foo'")) && |Text(Header("*\n* import { foo } from './foo'\n", " import { foo1 } from './foo'"))| == 70
  {
    assert NoClose("*\n* import { foo } from './foo'\n");
    assert Plain(" import { foo1 } from './foo'", '\n');
    HeaderSilent("*\n* import { foo } from './foo'\n", " import { foo1 } from './foo'");
    HeaderText("*\n* import { foo } from './foo'\n", " import { foo1 } from './foo'");
  }

  /** The comment header's text. */
  lemma CommentHeaderText()
    ensures Text(Header("*\n* import { foo } from './foo'\n", " import { foo1 } from './foo'")) == "/**\n" + "* import { foo } from './foo'\n" + "*/\n" + "\n" + "// import { foo1 } from './foo'\n"
  {
    HeaderText("*\n* import { foo } from './foo'\n", " import { foo1 } from './foo'");
    CommentHeaderLines();
  }

  /** The input of the `injection at end with comment` example. */
  lemma CommentInputText()
    ensures Text(ImportThenCall(Header("*\n* import { foo } from './foo'\n", " import { foo1 } from './foo'"), "foo", '\'', "foo", "console", "log", "fooBar"))
      == "/**\n" + "* import { foo } from './foo'\n" + "*/\n" + "\n" + "// import { foo1 } from './foo'\n" + "import { foo } from 'foo'\n" + "console.log(fooBar())"
  {
    ImportThenCallText(Header("*\n* import { foo } from './foo'\n", " import { foo1 } from './foo'"), "foo", '\'', "foo", "console", "log", "fooBar");
    CommentHeaderText();
    FooFooClause();
    BasicText();
    CommentInputLines();
  }

  /** The output of the `injection at end with comment` example. */
  lemma CommentOutputText()
    ensures Text(Header("*\n* import { foo } from './foo'\n", " import { foo1 } from './foo'")) + Text(Clause("import", "foo", '\'', "foo")) + "\n" + "\n"
        + "import { " + "fooBar" + " } from '" + "test-id" + "';\n" + Text(Call("console", "log", "fooBar"))
      == "/**\n" + "* import { foo } from './foo'\n" + "*/\n" + "\n" + "// import { foo1 } from './foo'\n" + "import { foo } from 'foo'\n" + "\n" + "import { fooBar } from 'test-id';\n" + "console.log(fooBar())"
  {
    CommentHeaderText();
    FooFooClause();
    BasicText();
    CommentOutputLines();
  }

  lemma CommentCase(code: string)
    requires code == Text(ImportThenCall(Header("*\n* import { foo } from './foo'\n", " import { foo1 } from './foo'"), "foo", '\'', "foo", "console", "log", "fooBar"))
    ensures Transform(Config([Binding("fooBar", "test-id", None)], false, true, false), code).code
      == Text(Header("*\n* import { foo } from './foo'\n", " import { foo1 } from './foo'")) + Text(Clause("import", "foo", '\'', "foo")) + "\n" + "\n"
        + "import { " + "fooBar" + " } from '" + "test-id" + "';\n" + Text(Call("console", "log", "fooBar"))
  {
    ConsoleNames("fooBar");
    FooNames();
    CommentHeaderSilent();
    ImportThenCallAtEnd(Header("*\n* import { foo } from './foo'\n", " import { foo1 } from './foo'"), "foo", '\'', "foo", "console", "log", "fooBar", "test-id", code, 70);
  }

  /**
   * The `injection at end with comment` example, as a rewrite: an import
   * inside a block comment or a line comment is no declaration, so the
   * statement follows the real import line.
   */
  lemma CommentOutput()
    ensures Transform(Config([Binding("fooBar", "test-id", None)], false, true, false),
        "/**\n" + "* import { foo } from './foo'\n" + "*/\n" + "\n" + "// import { foo1 } from './foo'\n" + "import { foo } from 'foo'\n" + "console.log(fooBar())").code
      == "/**\n" + "* import { foo } from './foo'\n" + "*/\n" + "\n" + "// import { foo1 } from './foo'\n" + "import { foo } from 'foo'\n" + "\n" + "import { fooBar } from 'test-id';\n" + "console.log(fooBar())"
  {
    CommentInputText();
    CommentCase("/**\n" + "* import { foo } from './foo'\n" + "*/\n" + "\n" + "// import { foo1 } from './foo'\n" + "import { foo } from 'foo'\n" + "console.log(fooBar())");
    CommentOutputText();
  }

  /** The `injection at end with comment` example. */
  method CommentExample() returns (out: string)
    ensures out == "/**\n" + "* import { foo } from './foo'\n" + "*/\n" + "\n" + "// import { foo1 } from './foo'\n" + "import { foo } from 'foo'\n" + "\n" + "import { fooBar } from 'test-id';\n" + "console.log(fooBar())"
  {
    var ctx := new Context(Config([Binding("fooBar", "test-id", None)], false, true, false));
    CommentOutput();
    out := ctx.InjectImports("/**\n" + "* import { foo } from './foo'\n" + "*/\n" + "\n" + "// import { foo1 } from './foo'\n" + "import { foo } from 'foo'\n" + "console.log(fooBar())", None);
  }

  // ---- Metadata

  /**
   * A call `o.f(g())` alone injects exactly the catalog entry whose final
   * name is `g`, when the final names are distinct and none of them is `o`.
   */
  lemma CallInjectsOne(code: string, o: string, f: string, g: string, cfg: Config, i: nat)
    requires !Keyword(o) && !Keyword(f) && !Keyword(g)
    requires Tokens(code) == CallToks(o, f, g, 0)
    requires DistinctNames(cfg.imports) && i < |cfg.imports| && FinalName(cfg.imports[i]) == g
    requires forall j :: 0 <= j < |cfg.imports| ==> FinalName(cfg.imports[j]) != o
    ensures Transform(cfg, code).injected == [cfg.imports[i]]
  {
    var catalog := cfg.imports;
    CallAnalysis(code, o, f, g);
    var a := Analyze(code);
    assert UsedNames(a.uses) == {o, g};
    assert ProvidedNames(a.imports) == {};
    RegisterDistinctCatalog(catalog);
    PendingOne(catalog, a, i);
  }

  /** The catalog of the `metadata` example; `foo` is imported as `import5`. */
  const MetaCatalog: seq<Binding> := [
    Binding("import1", "specifier1", None),
    Binding("import2", "specifier2", None),
    Binding("import3", "specifier3", None),
    Binding("import4", "specifier4", None),
    Binding("foo", "specifier5", Some("import5")),
    Binding("import10", "specifier10", None)]

  lemma MetaCatalogNames()
    ensures DistinctNames(MetaCatalog)
    ensures forall j :: 0 <= j < |MetaCatalog| ==> FinalName(MetaCatalog[j]) != "console"
    ensures FinalName(MetaCatalog[0]) == "import1" && FinalName(MetaCatalog[1]) == "import2"
  {
  }

  lemma MetaCase(code: string, g: string, i: nat)
    requires (g == "import1" && i == 0) || (g == "import2" && i == 1)
    requires code == Text(Call("console", "log", g))
    ensures Transform(Config(MetaCatalog, false, false, true), code).injected == [MetaCatalog[i]]
  {
    ConsoleNames(g);
    CallCode("console", "log", g);
    MetaCatalogNames();
    CallInjectsOne(code, "console", "log", g, Config(MetaCatalog, false, false, true), i);
  }

  lemma Import1Text()
    ensures Text(Call("console", "log", "import1")) == "console.log(import1())"
  {
    CallText("console", "log", "import1");
  }

  lemma Import2Text()
    ensures Text(Call("console", "log", "import2")) == "console.log(import2())"
  {
    CallText("console", "log", "import2");
  }

  /** `console.log(import1())` injects `import1`. */
  lemma MetaInjects1()
    ensures Transform(Config(MetaCatalog, false, false, true), "console.log(import1())").injected
      == [Binding("import1", "specifier1", None)]
  {
    Import1Text();
    MetaCase("console.log(import1())", "import1", 0);
  }

  /** `console.log(import2())` injects `import2`. */
  lemma MetaInjects2()
    ensures Transform(Config(MetaCatalog, false, false, true), "console.log(import2())").injected
      == [Binding("import2", "specifier2", None)]
  {
    Import2Text();
    MetaCase("console.log(import2())", "import2", 1);
  }

  lemma RecordSingle(usage: Ledger, b: Binding, id: Option<string>)
    ensures Record(usage, [b], id) == RecordOne(usage, b, id)
  {
    assert [b][..0] == [];
  }

  /** The ledger after the four calls of the `metadata` example. */
  lemma MetaLedger()
    ensures
      var b1, b2 := Binding("import1", "specifier1", None), Binding("import2", "specifier2", None);
      Record(Record(Record(Record(map[], [b1], Some("foo")), [b1], Some("foo")), [b2], Some("bar")), [b1], Some("gar"))
      == map[
        "import1" := Usage(Binding("import1", "specifier1", Some("import1")), 3, ["foo", "gar"]),
        "import2" := Usage(Binding("import2", "specifier2", Some("import2")), 1, ["bar"])]
  {
    var b1, b2 := Binding("import1", "specifier1", None), Binding("import2", "specifier2", None);
    var w1, w2 := Binding("import1", "specifier1", Some("import1")), Binding("import2", "specifier2", Some("import2"));
    var u0: Ledger := map[];
    RecordSingle(u0, b1, Some("foo"));
    assert WithAlias(b1) == w1 && WithAlias(b2) == w2;
    var none: seq<string> := [];
    assert none + ["foo"] == ["foo"] && none + ["bar"] == ["bar"];
    var u1 := Record(u0, [b1], Some("foo"));
    assert u1 == map["import1" := Usage(w1, 1, ["foo"])];
    RecordSingle(u1, b1, Some("foo"));
    var u2 := Record(u1, [b1], Some("foo"));
    assert u2 == map["import1" := Usage(w1, 2, ["foo"])];
    RecordSingle(u2, b2, Some("bar"));
    var u3 := Record(u2, [b2], Some("bar"));
    assert u3 == map["import1" := Usage(w1, 2, ["foo"]), "import2" := Usage(w2, 1, ["bar"])];
    RecordSingle(u3, b1, Some("gar"));
    assert ["foo"] + ["gar"] == ["foo", "gar"];
  }

  /**
   * The `metadata` example: four calls, from modules `foo`, `foo`, `bar` and
   * `gar`; `import1` is counted three times with each module listed once.
   */
  method MetadataExample() returns (r: Option<Ledger>)
    ensures r == Some(map[
      "import1" := Usage(Binding("import1", "specifier1", Some("import1")), 3, ["foo", "gar"]),
      "import2" := Usage(Binding("import2", "specifier2", Some("import2")), 1, ["bar"])])
  {
    var ctx := new Context(Config(MetaCatalog, false, false, true));
    MetaInjects1();
    MetaInjects2();
    var out := ctx.InjectImports("console.log(import1())", Some("foo"));
    out := ctx.InjectImports("console.log(import1())", Some("foo"));
    out := ctx.InjectImports("console.log(import2())", Some("bar"));
    out := ctx.InjectImports("console.log(import1())", Some("gar"));
    MetaLedger();
    r := ctx.GetMetadata();
  }

  // ---- Two declarations of regular expression values, then a call

  /** `const n1 = //c` (a line comment), `const n2 = /pre[cls]post/` and, on the next line, `g()`. */
  function RegexProgram(n1: string, c: string, n2: string, pre: string, cls: string, post: string, g: string): Chain {
    Concat(Declare(n1), Then(LineNote(c), Concat(Declare(n2), Then(Pattern(pre, cls, post), Then(LineBreak, Invoke(g))))))
  }

  /** Its tokens: two declaration heads and the call; the comment and the pattern yield none. */
  function RegexToks(n1: string, c: string, n2: string, pre: string, cls: string, post: string, g: string): seq<Token> {
    var h2 := |n1| + |c| + 12;
    var h3 := h2 + |n2| + |pre| + |cls| + |post| + 14;
    [Word("const", 0), Word(n1, 6), Punct('=', |n1| + 7),
     Word("const", h2), Word(n2, h2 + 6), Punct('=', h2 + |n2| + 7),
     Word(g, h3), Punct('(', h3 + |g|), Punct(')', h3 + |g| + 1)]
  }

  /** The pattern sits where `/` starts a regular expression; the comment and the pattern end cleanly. */
  predicate RegexParts(n1: string, c: string, n2: string, pre: string, cls: string, post: string, g: string) {
    && IsName(n1) && IsName(n2) && IsName(g) && Plain(c, '\n')
    && PieceOk(Pattern(pre, cls, post), true)
  }

  lemma RegexOk(n1: string, c: string, n2: string, pre: string, cls: string, post: string, g: string)
    requires RegexParts(n1, c, n2, pre, cls, post, g)
    ensures ChainOk(RegexProgram(n1, c, n2, pre, cls, post, g), true)
  {
    var tail := Then(Pattern(pre, cls, post), Then(LineBreak, Invoke(g)));
    InvokeOk(g, false);
    InvokeText(g);
    assert ChainOk(Then(LineBreak, Invoke(g)), false);
    assert ChainOk(tail, true);
    DeclareOk(n2, false);
    DeclareText(n2);
    OkConcat(Declare(n2), tail, false);
    var second := Concat(Declare(n2), tail);
    TextConcat(Declare(n2), tail);
    assert Text(second)[0] == 'c';
    assert ChainOk(Then(LineNote(c), second), true);
    DeclareOk(n1, true);
    DeclareText(n1);
    OkConcat(Declare(n1), Then(LineNote(c), second), true);
  }

  /** The tokens of `const n2 = /pre[cls]post/`, a line break and `g()`, starting at `d`. */
  lemma RegexSecondTokens(n2: string, pre: string, cls: string, post: string, g: string, d: nat)
    ensures var h3 := d + |n2| + |pre| + |cls| + |post| + 14;
      ChainTokens(Concat(Declare(n2), Then(Pattern(pre, cls, post), Then(LineBreak, Invoke(g)))), d)
        == [Word("const", d), Word(n2, d + 6), Punct('=', d + |n2| + 7),
            Word(g, h3), Punct('(', h3 + |g|), Punct(')', h3 + |g| + 1)]
  {
    var h3 := d + |n2| + |pre| + |cls| + |post| + 14;
    var tail := Then(Pattern(pre, cls, post), Then(LineBreak, Invoke(g)));
    InvokeTokens(g, h3);
    SilentTokens(LineBreak, Invoke(g), h3 - 1);
    assert ChainTokens(tail, d + |n2| + 9) == ChainTokens(Invoke(g), h3);
    TokensConcat(Declare(n2), tail, d);
    DeclareTokens(n2, d);
    DeclareLength(n2);
  }

  lemma DeclareLength(n: string)
    ensures |Text(Declare(n))| == |n| + 9
  {
    DeclareText(n);
  }

  lemma RegexTokensOfChain(n1: string, c: string, n2: string, pre: string, cls: string, post: string, g: string)
    ensures ChainTokens(RegexProgram(n1, c, n2, pre, cls, post, g), 0) == RegexToks(n1, c, n2, pre, cls, post, g)
  {
    var h2 := |n1| + |c| + 12;
    var h3 := h2 + |n2| + |pre| + |cls| + |post| + 14;
    var second := Concat(Declare(n2), Then(Pattern(pre, cls, post), Then(LineBreak, Invoke(g))));
    var rest := Then(LineNote(c), second);
    var tail := [Word("const", h2), Word(n2, h2 + 6), Punct('=', h2 + |n2| + 7),
      Word(g, h3), Punct('(', h3 + |g|), Punct(')', h3 + |g| + 1)];
    assert ChainTokens(rest, |n1| + 9) == tail by {
      RegexSecondTokens(n2, pre, cls, post, g, h2);
      SilentTokens(LineNote(c), second, |n1| + 9);
    }
    assert ChainTokens(RegexProgram(n1, c, n2, pre, cls, post, g), 0)
      == [Word("const", 0), Word(n1, 6), Punct('=', |n1| + 7)] + ChainTokens(rest, |n1| + 9) by {
      DeclareLength(n1);
      TokensConcat(Declare(n1), rest, 0);
      DeclareTokens(n1, 0);
    }
  }

  /**
   * A text with the regex example's tokens and `g` in the catalog: with
   * at-end placement and no import declaration, the statement opens the text.
   */
  lemma RegexAtTop(code: string, n1: string, c: string, n2: string, pre: string, cls: string, post: string, g: string, m: string)
    requires !Keyword(n1) && !Keyword(n2) && !Keyword(g)
    requires Tokens(code) == RegexToks(n1, c, n2, pre, cls, post, g)
    ensures Transform(Config([Binding(g, m, None)], false, true, false), code).code
      == "import { " + g + " } from '" + m + "';\n" + code
  {
    var toks := Tokens(code);
    NoDeclarations(toks);
    PlainWordAt(toks, 0, 6);
    var b := Binding(g, m, None);
    assert Occurrence(g, toks[6].start) in Analyze(code).uses;
    AddedAtTop(code, [b], m, true);
    assert Join(FinalNames([b]), ", ") == g;
  }

  lemma RegexChainAtTop(n1: string, c: string, n2: string, pre: string, cls: string, post: string, g: string, m: string, code: string)
    requires RegexParts(n1, c, n2, pre, cls, post, g) && !Keyword(n1) && !Keyword(n2) && !Keyword(g)
    requires code == Text(RegexProgram(n1, c, n2, pre, cls, post, g))
    ensures Transform(Config([Binding(g, m, None)], false, true, false), code).code
      == "import { " + g + " } from '" + m + "';\n" + code
  {
    var r := RegexProgram(n1, c, n2, pre, cls, post, g);
    RegexOk(n1, c, n2, pre, cls, post, g);
    TokensOfChain(code, r);
    RegexTokensOfChain(n1, c, n2, pre, cls, post, g);
    RegexAtTop(code, n1, c, n2, pre, cls, post, g, m);
  }

  lemma RegexText(n1: string, c: string, n2: string, pre: string, cls: string, post: string, g: string)
    ensures Text(RegexProgram(n1, c, n2, pre, cls, post, g))
      == Text(Declare(n1)) + (("//" + c + "\n") + (Text(Declare(n2)) + (("/" + pre + "[" + cls + "]" + post + "/") + ("\n" + Text(Invoke(g))))))
  {
    var tail := Then(Pattern(pre, cls, post), Then(LineBreak, Invoke(g)));
    TextConcat(Declare(n2), tail);
    TextConcat(Declare(n1), Then(LineNote(c), Concat(Declare(n2), tail)));
  }

  /** The text of the `injection at end with regex` example. */
  lemma RegexInputText()
    ensures Text(RegexProgram("regex", "/", "regex1", "a", "/", "bcd", "fooBar"))
      == "const regex = ///\n" + "const regex1 = /a[/]bcd/\n" + "fooBar()"
  {
    RegexText("regex", "/", "regex1", "a", "/", "bcd", "fooBar");
    DeclareText("regex");
    DeclareText("regex1");
    InvokeText("fooBar");
    RegexInputLines();
  }

  lemma RegexOutputText()
    ensures "import { " + "fooBar" + " } from '" + "test-id" + "';\n" + ("const regex = ///\n" + "const regex1 = /a[/]bcd/\n" + "fooBar()")
      == "import { fooBar } from 'test-id';\n" + "const regex = ///\n" + "const regex1 = /a[/]bcd/\n" + "fooBar()"
  {
    FooBarStatement("");
    assert "" + "import { fooBar } from 'test-id';\n" == "import { fooBar } from 'test-id';\n";
  }

  lemma RegexCase(code: string)
    requires code == Text(RegexProgram("regex", "/", "regex1", "a", "/", "bcd", "fooBar"))
    ensures Transform(Config([Binding("fooBar", "test-id", None)], false, true, false), code).code
      == "import { " + "fooBar" + " } from '" + "test-id" + "';\n" + code
  {
    ConsoleNames("fooBar");
    assert IsName("regex") && IsName("regex1") && Plain("/", '\n');
    assert PieceOk(Pattern("a", "/", "bcd"), true);
    RegexChainAtTop("regex", "/", "regex1", "a", "/", "bcd", "fooBar", "test-id", code);
  }

  lemma RegexOutput()
    ensures Transform(Config([Binding("fooBar", "test-id", None)], false, true, false),
        "const regex = ///\n" + "const regex1 = /a[/]bcd/\n" + "fooBar()").code
      == "import { fooBar } from 'test-id';\n" + "const regex = ///\n" + "const regex1 = /a[/]bcd/\n" + "fooBar()"
  {
    RegexInputText();
    RegexCase("const regex = ///\n" + "const regex1 = /a[/]bcd/\n" + "fooBar()");
    RegexOutputText();
  }

  /**
   * The `injection at end with regex` example: `///` is a line comment and
   * the `/` inside `[/]` does not end the pattern, so no import is seen and
   * the statement opens the text.
   */
  method RegexExample() returns (out: string)
    ensures out == "import { fooBar } from 'test-id';\n" + "const regex = ///\n" + "const regex1 = /a[/]bcd/\n" + "fooBar()"
  {
    var ctx := new Context(Config([Binding("fooBar", "test-id", None)], false, true, false));
    RegexOutput();
    out := ctx.InjectImports("const regex = ///\n" + "const regex1 = /a[/]bcd/\n" + "fooBar()", None);
  }

  // ---- A declaration whose value is a nested conditional

  /** `const n = x ? y ? a : b : c`. */
  function TernaryProgram(n: string, x: string, y: string, a: string, b: string, c: string): Chain {
    Concat(Declare(n), Ternary(x, y, a, b, c))
  }

  function TernaryToks(n: string, x: string, y: string, a: string, b: string, c: string): seq<Token> {
    var d := |n| + 9;
    var e := d + |x| + |y| + 6;
    [Word("const", 0), Word(n, 6), Punct('=', |n| + 7),
     Word(x, d), Punct('?', d + |x| + 1), Word(y, d + |x| + 3), Punct('?', d + |x| + |y| + 4),
     Word(a, e), Punct(':', e + |a| + 1), Word(b, e + |a| + 3), Punct(':', e + |a| + |b| + 4), Word(c, e + |a| + |b| + 6)]
  }

  lemma TernaryProgramOk(n: string, x: string, y: string, a: string, b: string, c: string)
    requires IsName(n) && IsName(x) && IsName(y) && IsName(a) && IsName(b) && IsName(c)
    ensures ChainOk(TernaryProgram(n, x, y, a, b, c), true)
  {
    DeclareOk(n, true);
    DeclareText(n);
    TernaryOk(x, y, a, b, c, true);
    OkConcat(Declare(n), Ternary(x, y, a, b, c), true);
  }

  /** The twelve tokens, as the declaration's, the condition's and the branches'. */
  lemma TernaryToksParts(n: string, x: string, y: string, a: string, b: string, c: string)
    ensures TernaryToks(n, x, y, a, b, c)
      == [Word("const", 0), Word(n, 6), Punct('=', |n| + 7)]
        + ([Word(x, |n| + 9), Punct('?', |n| + 9 + |x| + 1), Word(y, |n| + 9 + |x| + 3), Punct('?', |n| + 9 + |x| + |y| + 4)]
          + [Word(a, |n| + 9 + |x| + |y| + 6), Punct(':', |n| + 9 + |x| + |y| + 6 + |a| + 1), Word(b, |n| + 9 + |x| + |y| + 6 + |a| + 3), Punct(':', |n| + 9 + |x| + |y| + 6 + |a| + |b| + 4), Word(c, |n| + 9 + |x| + |y| + 6 + |a| + |b| + 6)])
  {
  }

  lemma TernaryTokensOfChain(n: string, x: string, y: string, a: string, b: string, c: string)
    ensures ChainTokens(TernaryProgram(n, x, y, a, b, c), 0) == TernaryToks(n, x, y, a, b, c)
  {
    assert ChainTokens(TernaryProgram(n, x, y, a, b, c), 0)
      == [Word("const", 0), Word(n, 6), Punct('=', |n| + 7)] + ChainTokens(Ternary(x, y, a, b, c), |n| + 9) by {
      DeclareLength(n);
      TokensConcat(Declare(n), Ternary(x, y, a, b, c), 0);
      DeclareTokens(n, 0);
    }
    TernaryTokens(x, y, a, b, c, |n| + 9);
    BranchesTokens(a, b, c, |n| + 9 + |x| + |y| + 6);
    TernaryToksParts(n, x, y, a, b, c);
  }

  /** The catalog `{ a, from: m }`, `{ b, from: m }`, `{ c, from: m }`. */
  function Three(a: string, b: string, c: string, m: string): seq<Binding> {
    [Binding(a, m, None), Binding(b, m, None), Binding(c, m, None)]
  }

  /** The conditional declares nothing, and its branch names occur. */
  lemma TernaryAnalysis(code: string, n: string, x: string, y: string, a: string, b: string, c: string)
    requires !Keyword(n) && !Keyword(x) && !Keyword(y) && !Keyword(a) && !Keyword(b) && !Keyword(c)
    requires Tokens(code) == TernaryToks(n, x, y, a, b, c)
    ensures Analyze(code).imports == [] && a in UsedNames(Analyze(code).uses)
    ensures b in UsedNames(Analyze(code).uses) && c in UsedNames(Analyze(code).uses)
  {
    var toks := Tokens(code);
    NoDeclarations(toks);
    PlainWordAt(toks, 0, 7);
    PlainWordAt(toks, 0, 9);
    PlainWordAt(toks, 0, 11);
    assert Occurrence(a, toks[7].start) in Analyze(code).uses;
    assert Occurrence(b, toks[9].start) in Analyze(code).uses;
    assert Occurrence(c, toks[11].start) in Analyze(code).uses;
  }

  /**
   * A text with the conditional's tokens and its three branch names in the
   * catalog: one statement naming all three, in catalog order, opens the text.
   */
  lemma TernaryAtTop(code: string, n: string, x: string, y: string, a: string, b: string, c: string, m: string)
    requires !Keyword(n) && !Keyword(x) && !Keyword(y) && !Keyword(a) && !Keyword(b) && !Keyword(c)
    requires a != b && a != c && b != c
    requires Tokens(code) == TernaryToks(n, x, y, a, b, c)
    ensures Transform(Defaults(Three(a, b, c, m)), code).code
      == "import { " + Join([a, b, c], ", ") + " } from '" + m + "';\n" + code
  {
    var catalog := Three(a, b, c, m);
    TernaryAnalysis(code, n, x, y, a, b, c);
    assert FinalNames(catalog) == [a, b, c];
    AddedAtTop(code, catalog, m, false);
  }

  lemma TernaryChainAtTop(n: string, x: string, y: string, a: string, b: string, c: string, m: string, code: string)
    requires IsName(n) && IsName(x) && IsName(y) && IsName(a) && IsName(b) && IsName(c)
    requires !Keyword(n) && !Keyword(x) && !Keyword(y) && !Keyword(a) && !Keyword(b) && !Keyword(c)
    requires a != b && a != c && b != c
    requires code == Text(TernaryProgram(n, x, y, a, b, c))
    ensures Transform(Defaults(Three(a, b, c, m)), code).code
      == "import { " + Join([a, b, c], ", ") + " } from '" + m + "';\n" + code
  {
    TernaryProgramOk(n, x, y, a, b, c);
    TokensOfChain(code, TernaryProgram(n, x, y, a, b, c));
    TernaryTokensOfChain(n, x, y, a, b, c);
    TernaryAtTop(code, n, x, y, a, b, c, m);
  }

  /** The text of the `deep ternary inject` example. */
  lemma TernaryInputText()
    ensures Text(TernaryProgram("result", "true", "false", "A", "B", "C")) == "const result = true ? false ? A : B : C"
  {
    TextConcat(Declare("result"), Ternary("true", "false", "A", "B", "C"));
    DeclareText("result");
    TernaryText("true", "false", "A", "B", "C");
    BranchesText("A", "B", "C");
    TernaryInputLines();
  }

  lemma TernaryNames()
    ensures IsName("result") && IsName("true") && IsName("false") && IsName("A") && IsName("B") && IsName("C")
    ensures Join(["A", "B", "C"], ", ") == "A, B, C"
  {
    assert Join(["B", "C"], ", ") == "B, C";
  }

  lemma TernaryCase(code: string)
    requires code == Text(TernaryProgram("result", "true", "false", "A", "B", "C"))
    ensures Transform(Defaults(Three("A", "B", "C", "test-id")), code).code
      == "import { " + "A, B, C" + " } from '" + "test-id" + "';\n" + code
  {
    TernaryNames();
    TernaryChainAtTop("result", "true", "false", "A", "B", "C", "test-id", code);
  }

  lemma TernaryOutput()
    ensures Transform(Defaults(Three("A", "B", "C", "test-id")), "const result = true ? false ? A : B : C").code
      == "import { A, B, C } from 'test-id';\n" + "const result = true ? false ? A : B : C"
  {
    TernaryInputText();
    TernaryCase("const result = true ? false ? A : B : C");
    TernaryStatement();
  }

  /**
   * The `deep ternary inject` example: the three branch names of a nested
   * conditional are all occurrences, and one statement names them in
   * catalog order.
   */
  method TernaryExample() returns (out: string)
    ensures out == "import { A, B, C } from 'test-id';\n" + "const result = true ? false ? A : B : C"
  {
    var ctx := new Context(Defaults(Three("A", "B", "C", "test-id")));
    TernaryOutput();
    out := ctx.InjectImports("const result = true ? false ? A : B : C", None);
  }

  // ---- Import lines interleaved with call lines

  /** `import { l } from 'm'`, then `o.f(g())` on the next line. */
  function Pair(l: string, q: char, m: string, o: string, f: string, g: string): Chain {
    Lines(Clause("import", l, q, m), Call(o, f, g))
  }

  function PairToks(l: string, q: char, m: string, o: string, f: string, g: string, d: nat): seq<Token> {
    ClauseToks("import", l, q, m, d) + CallToks(o, f, g, d + |l| + |m| + 20)
  }

  lemma PairOk(l: string, q: char, m: string, o: string, f: string, g: string, ok: bool)
    requires IsName(l) && Quotable(q, m) && IsName(o) && IsName(f) && IsName(g)
    ensures ChainOk(Pair(l, q, m, o, f, g), ok) && AfterAll(Pair(l, q, m, o, f, g), ok) == false
  {
    ClauseOk("import", l, q, m, ok);
    CallOk(o, f, g, false);
    LinesOk(Clause("import", l, q, m), Call(o, f, g), ok);
  }

  lemma PairText(l: string, q: char, m: string, o: string, f: string, g: string)
    ensures Text(Pair(l, q, m, o, f, g)) == Text(Clause("import", l, q, m)) + ("\n" + Text(Call(o, f, g)))
    ensures |Text(Pair(l, q, m, o, f, g))| == |l| + |m| + |o| + |f| + |g| + 25
  {
    LinesText(Clause("import", l, q, m), Call(o, f, g));
    ClauseLength("import", l, q, m);
    CallText(o, f, g);
  }

  lemma PairSpan(l: string, m: string, o: string, f: string, g: string)
    ensures |Text(Pair(l, '\'', m, o, f, g))| + 1 == SecondAt(l, m, g, o, f)
  {
    PairLength(l, '\'', m, o, f, g);
  }

  lemma PairLength(l: string, q: char, m: string, o: string, f: string, g: string)
    ensures |Text(Pair(l, q, m, o, f, g))| == |l| + |m| + |o| + |f| + |g| + 25
  {
    PairText(l, q, m, o, f, g);
  }

  lemma PairTokens(l: string, q: char, m: string, o: string, f: string, g: string, d: nat)
    ensures ChainTokens(Pair(l, q, m, o, f, g), d) == PairToks(l, q, m, o, f, g, d)
  {
    LinesTokens(Clause("import", l, q, m), Call(o, f, g), d);
    ClauseLength("import", l, q, m);
    ClauseTokenList("import", l, q, m, d);
    CallTokenList(o, f, g, d + |l| + |m| + 20);
  }

  /** The declaration `import { l } from 'm'` written at offset `d`. */
  function ImportLine(l: string, q: char, m: string, d: nat): ImportDecl {
    ImportDecl(m, q, [l], true, d + 8, d, d + |l| + |m| + 19)
  }

  /** Where the call line after `import { l } from 'm'` at `d` starts. */
  function CallAt(l: string, m: string, d: nat): nat {
    d + |l| + |m| + 20
  }

  /** The occurrences in `o.f(g())` written at offset `d`. */
  function CallUsesAt(o: string, f: string, g: string, d: nat): seq<Occurrence> {
    [Occurrence(o, d), Occurrence(g, d + |o| + |f| + 2)]
  }

  lemma PairSlices(toks: seq<Token>, k: nat, next: nat, l: string, q: char, m: string, o: string, f: string, g: string, d: nat)
    requires next == k + 14 && next <= |toks| && toks[k..next] == PairToks(l, q, m, o, f, g, d)
    ensures toks[k..k + 6] == ClauseToks("import", l, q, m, d)
    ensures toks[k + 6..k + 14] == CallToks(o, f, g, CallAt(l, m, d)) && !IsPunct(toks[k + 5], '.')
  {
    var t := toks[k..k + 14];
    assert toks[k..k + 6] == t[..6];
    assert toks[k + 6..k + 14] == t[6..];
    assert toks[k + 5] == t[5];
  }

  /** An import line then a call line at token `k`: one declaration, then the call's object and argument. */
  lemma PairUses(toks: seq<Token>, k: nat, next: nat, l: string, q: char, m: string, o: string, f: string, g: string, d: nat)
    requires next == k + 14 && next <= |toks| && toks[k..next] == PairToks(l, q, m, o, f, g, d)
    requires k == 0 || !IsPunct(toks[k - 1], '.')
    requires !Keyword(o) && !Keyword(f) && !Keyword(g)
    ensures var rest := AnalyzeFrom(toks, next);
      AnalyzeFrom(toks, k) == Analysis([ImportLine(l, q, m, d)] + rest.imports, CallUsesAt(o, f, g, CallAt(l, m, d)) + rest.uses)
  {
    var e := CallAt(l, m, d);
    PairSlices(toks, k, next, l, q, m, o, f, g, d);
    CallUses(toks, k + 6, o, f, g, e);
    ImportUses(toks, k, l, q, m, d);
    assert [Occurrence(o, e), Occurrence(g, e + |o| + |f| + 2)] == CallUsesAt(o, f, g, e);
  }

  /**
   * Five lines: an import, a call using `g1`, an import, a call using `g2`,
   * an import.
   */
  function Mixed(l1: string, m1: string, g1: string, l2: string, m2: string, g2: string, l3: string, m3: string, o: string, f: string): Chain {
    Lines(Pair(l1, '\'', m1, o, f, g1), Lines(Pair(l2, '\'', m2, o, f, g2), Clause("import", l3, '\'', m3)))
  }

  /** Where the second pair starts. */
  function SecondAt(l1: string, m1: string, g1: string, o: string, f: string): nat {
    |l1| + |m1| + |o| + |f| + |g1| + 26
  }

  function MixedToks(l1: string, m1: string, g1: string, l2: string, m2: string, g2: string, l3: string, m3: string, o: string, f: string): seq<Token> {
    var d2 := SecondAt(l1, m1, g1, o, f);
    PairToks(l1, '\'', m1, o, f, g1, 0) + PairToks(l2, '\'', m2, o, f, g2, d2)
      + ClauseToks("import", l3, '\'', m3, SecondAt(l2, m2, g2, o, f) + d2)
  }

  /** The names of the five lines are well formed. */
  predicate MixedParts(l1: string, m1: string, g1: string, l2: string, m2: string, g2: string, l3: string, m3: string, o: string, f: string) {
    && IsName(l1) && IsName(l2) && IsName(l3) && IsName(g1) && IsName(g2) && IsName(o) && IsName(f)
    && Quotable('\'', m1) && Quotable('\'', m2) && Quotable('\'', m3)
  }

  lemma MixedOk(l1: string, m1: string, g1: string, l2: string, m2: string, g2: string, l3: string, m3: string, o: string, f: string)
    requires MixedParts(l1, m1, g1, l2, m2, g2, l3, m3, o, f)
    ensures ChainOk(Mixed(l1, m1, g1, l2, m2, g2, l3, m3, o, f), true)
  {
    var p1, p2, c3 := Pair(l1, '\'', m1, o, f, g1), Pair(l2, '\'', m2, o, f, g2), Clause("import", l3, '\'', m3);
    PairOk(l1, '\'', m1, o, f, g1, true);
    PairOk(l2, '\'', m2, o, f, g2, false);
    ClauseOk("import", l3, '\'', m3, false);
    LinesOk(p2, c3, false);
    LinesOk(p1, Lines(p2, c3), true);
  }

  /** The tokens of two lines, with the second line's offset named. */
  lemma {:induction false} LinesTokensAt(x: Chain, y: Chain, d: nat, e: nat)
    requires e == d + |Text(x)| + 1
    ensures ChainTokens(Lines(x, y), d) == ChainTokens(x, d) + ChainTokens(y, e)
  {
    LinesTokens(x, y, d);
  }

  /** A pair of lines at `d`, then a line break and more lines, which start at `e`. */
  lemma {:induction false} PairThen(l: string, m: string, o: string, f: string, g: string, rest: Chain, d: nat, e: nat, t: seq<Token>)
    requires e == SecondAt(l, m, g, o, f) + d && ChainTokens(rest, e) == t
    ensures ChainTokens(Lines(Pair(l, '\'', m, o, f, g), rest), d) == PairToks(l, '\'', m, o, f, g, d) + t
  {
    PairSpan(l, m, o, f, g);
    LinesTokensAt(Pair(l, '\'', m, o, f, g), rest, d, e);
    PairTokens(l, '\'', m, o, f, g, d);
  }

  lemma MixedLinesTokens(l1: string, m1: string, g1: string, l2: string, m2: string, g2: string, l3: string, m3: string, o: string, f: string)
    ensures ChainTokens(Lines(Pair(l1, '\'', m1, o, f, g1), Lines(Pair(l2, '\'', m2, o, f, g2), Clause("import", l3, '\'', m3))), 0)
      == PairToks(l1, '\'', m1, o, f, g1, 0) + (PairToks(l2, '\'', m2, o, f, g2, SecondAt(l1, m1, g1, o, f))
        + ClauseToks("import", l3, '\'', m3, SecondAt(l2, m2, g2, o, f) + SecondAt(l1, m1, g1, o, f)))
  {
    ClauseTokenList("import", l3, '\'', m3, SecondAt(l2, m2, g2, o, f) + SecondAt(l1, m1, g1, o, f));
    PairThen(l2, m2, o, f, g2, Clause("import", l3, '\'', m3), SecondAt(l1, m1, g1, o, f), SecondAt(l2, m2, g2, o, f) + SecondAt(l1, m1, g1, o, f),
      ClauseToks("import", l3, '\'', m3, SecondAt(l2, m2, g2, o, f) + SecondAt(l1, m1, g1, o, f)));
    PairThen(l1, m1, o, f, g1, Lines(Pair(l2, '\'', m2, o, f, g2), Clause("import", l3, '\'', m3)), 0, SecondAt(l1, m1, g1, o, f),
      PairToks(l2, '\'', m2, o, f, g2, SecondAt(l1, m1, g1, o, f))
        + ClauseToks("import", l3, '\'', m3, SecondAt(l2, m2, g2, o, f) + SecondAt(l1, m1, g1, o, f)));
  }

  lemma MixedTokensOfChain(l1: string, m1: string, g1: string, l2: string, m2: string, g2: string, l3: string, m3: string, o: string, f: string)
    ensures ChainTokens(Mixed(l1, m1, g1, l2, m2, g2, l3, m3, o, f), 0) == MixedToks(l1, m1, g1, l2, m2, g2, l3, m3, o, f)
  {
    MixedLinesTokens(l1, m1, g1, l2, m2, g2, l3, m3, o, f);
    TokenListAssoc(PairToks(l1, '\'', m1, o, f, g1, 0), PairToks(l2, '\'', m2, o, f, g2, SecondAt(l1, m1, g1, o, f)),
      ClauseToks("import", l3, '\'', m3, SecondAt(l2, m2, g2, o, f) + SecondAt(l1, m1, g1, o, f)));
  }

  lemma MixedSlices(toks: seq<Token>, l1: string, m1: string, g1: string, l2: string, m2: string, g2: string, l3: string, m3: string, o: string, f: string)
    requires toks == MixedToks(l1, m1, g1, l2, m2, g2, l3, m3, o, f)
    ensures var d2 := SecondAt(l1, m1, g1, o, f);
      && |toks| == 34
      && toks[0..14] == PairToks(l1, '\'', m1, o, f, g1, 0)
      && toks[14..28] == PairToks(l2, '\'', m2, o, f, g2, d2)
      && toks[28..34] == ClauseToks("import", l3, '\'', m3, SecondAt(l2, m2, g2, o, f) + d2)
      && !IsPunct(toks[13], '.') && !IsPunct(toks[27], '.')
  {
  }

  /** The last two lines: an import, then a call using `g` with one more import after it. */
  lemma TailUses(toks: seq<Token>, l2: string, m2: string, g2: string, l3: string, m3: string, o: string, f: string, d2: nat, d3: nat)
    requires !Keyword(o) && !Keyword(f) && !Keyword(g2)
    requires |toks| == 34 && !IsPunct(toks[13], '.') && !IsPunct(toks[27], '.')
    requires toks[14..28] == PairToks(l2, '\'', m2, o, f, g2, d2)
    requires toks[28..34] == ClauseToks("import", l3, '\'', m3, d3)
    ensures AnalyzeFrom(toks, 14) == Analysis([ImportLine(l2, '\'', m2, d2), ImportLine(l3, '\'', m3, d3)], CallUsesAt(o, f, g2, CallAt(l2, m2, d2)))
  {
    ImportUses(toks, 28, l3, '\'', m3, d3);
    PairUses(toks, 14, 28, l2, '\'', m2, o, f, g2, d2);
  }

  /** The first two lines in front of a known analysis of the rest. */
  lemma HeadUses(toks: seq<Token>, l1: string, m1: string, g1: string, o: string, f: string, rest: Analysis)
    requires !Keyword(o) && !Keyword(f) && !Keyword(g1)
    requires 14 <= |toks| && toks[0..14] == PairToks(l1, '\'', m1, o, f, g1, 0)
    requires AnalyzeFrom(toks, 14) == rest
    ensures AnalyzeFrom(toks, 0) == Analysis([ImportLine(l1, '\'', m1, 0)] + rest.imports, CallUsesAt(o, f, g1, CallAt(l1, m1, 0)) + rest.uses)
  {
    PairUses(toks, 0, 14, l1, '\'', m1, o, f, g1, 0);
  }

  /** The analysis of the five lines: three declarations; the calls' objects and arguments occur. */
  lemma MixedAnalysis(toks: seq<Token>, l1: string, m1: string, g1: string, l2: string, m2: string, g2: string, l3: string, m3: string, o: string, f: string)
    requires !Keyword(o) && !Keyword(f) && !Keyword(g1) && !Keyword(g2)
    requires toks == MixedToks(l1, m1, g1, l2, m2, g2, l3, m3, o, f)
    ensures var d2 := SecondAt(l1, m1, g1, o, f);
      var d3 := SecondAt(l2, m2, g2, o, f) + d2;
      AnalyzeFrom(toks, 0) == Analysis(
        [ImportLine(l1, '\'', m1, 0), ImportLine(l2, '\'', m2, d2), ImportLine(l3, '\'', m3, d3)],
        CallUsesAt(o, f, g1, CallAt(l1, m1, 0)) + CallUsesAt(o, f, g2, CallAt(l2, m2, d2)))
  {
    var d2 := SecondAt(l1, m1, g1, o, f);
    var d3 := SecondAt(l2, m2, g2, o, f) + d2;
    MixedSlices(toks, l1, m1, g1, l2, m2, g2, l3, m3, o, f);
    TailUses(toks, l2, m2, g2, l3, m3, o, f, d2, d3);
    HeadUses(toks, l1, m1, g1, o, f, AnalyzeFrom(toks, 14));
    assert [ImportLine(l1, '\'', m1, 0)] + [ImportLine(l2, '\'', m2, d2), ImportLine(l3, '\'', m3, d3)]
      == [ImportLine(l1, '\'', m1, 0), ImportLine(l2, '\'', m2, d2), ImportLine(l3, '\'', m3, d3)];
  }

  /** The first three of the five lines, each with its line break. */
  function MixedHead(l1: string, m1: string, g1: string, l2: string, m2: string, o: string, f: string): string {
    Text(Clause("import", l1, '\'', m1)) + "\n" + Text(Call(o, f, g1)) + "\n" + Text(Clause("import", l2, '\'', m2)) + "\n"
  }

  /** The last two of the five lines. */
  function MixedTail(g2: string, l3: string, m3: string, o: string, f: string): string {
    Text(Call(o, f, g2)) + "\n" + Text(Clause("import", l3, '\'', m3))
  }

  /** Five lines joined pairwise are the first three then the last two. */
  lemma Regroup(x1: string, y1: string, x2: string, y2: string, z: string)
    ensures x1 + ("\n" + y1) + ("\n" + ((x2 + ("\n" + y2)) + ("\n" + z)))
      == (x1 + "\n" + y1 + "\n" + x2 + "\n") + (y2 + "\n" + z)
  {
  }

  lemma MixedText(l1: string, m1: string, g1: string, l2: string, m2: string, g2: string, l3: string, m3: string, o: string, f: string)
    ensures Text(Mixed(l1, m1, g1, l2, m2, g2, l3, m3, o, f)) == MixedHead(l1, m1, g1, l2, m2, o, f) + MixedTail(g2, l3, m3, o, f)
  {
    var p1, p2, c3 := Pair(l1, '\'', m1, o, f, g1), Pair(l2, '\'', m2, o, f, g2), Clause("import", l3, '\'', m3);
    LinesText(p1, Lines(p2, c3));
    LinesText(p2, c3);
    PairText(l1, '\'', m1, o, f, g1);
    PairText(l2, '\'', m2, o, f, g2);
    Regroup(Text(Clause("import", l1, '\'', m1)), Text(Call(o, f, g1)), Text(Clause("import", l2, '\'', m2)), Text(Call(o, f, g2)), Text(c3));
  }

  lemma MixedLengths(l1: string, m1: string, g1: string, l2: string, m2: string, g2: string, l3: string, m3: string, o: string, f: string)
    requires IsName(o)
    ensures |MixedHead(l1, m1, g1, l2, m2, o, f)| == CallAt(l2, m2, SecondAt(l1, m1, g1, o, f))
    ensures |MixedTail(g2, l3, m3, o, f)| == |o| + |f| + |g2| + |l3| + |m3| + 25
    ensures MixedTail(g2, l3, m3, o, f)[0] == o[0]
  {
    ClauseLength("import", l1, '\'', m1);
    ClauseLength("import", l2, '\'', m2);
    ClauseLength("import", l3, '\'', m3);
    CallText(o, f, g1);
    CallText(o, f, g2);
  }

  /** Where the second and third declarations end, trailing line break included. */
  lemma MixedEnds(code: string, l1: string, m1: string, g1: string, l2: string, m2: string, g2: string, l3: string, m3: string, o: string, f: string)
    requires IsName(o)
    requires code == Text(Mixed(l1, m1, g1, l2, m2, g2, l3, m3, o, f))
    ensures var d2 := SecondAt(l1, m1, g1, o, f);
      && DeclEnd(code, ImportLine(l2, '\'', m2, d2)) == CallAt(l2, m2, d2)
      && DeclEnd(code, ImportLine(l3, '\'', m3, SecondAt(l2, m2, g2, o, f) + d2)) == |code|
  {
    var d2 := SecondAt(l1, m1, g1, o, f);
    var p := CallAt(l2, m2, d2);
    MixedText(l1, m1, g1, l2, m2, g2, l3, m3, o, f);
    MixedLengths(l1, m1, g1, l2, m2, g2, l3, m3, o, f);
    var head, tail := MixedHead(l1, m1, g1, l2, m2, o, f), MixedTail(g2, l3, m3, o, f);
    assert code[p - 1] == head[p - 1] == '\n';
    assert code[p] == tail[0];
    assert SkipTrail(code, p) == p;
    assert SkipTrail(code, p - 1) == p;
    assert SecondAt(l2, m2, g2, o, f) + d2 + |l3| + |m3| + 19 == |code|;
  }

  lemma NotProvided(i1: ImportDecl, i2: ImportDecl, i3: ImportDecl, g: string)
    requires g !in i1.locals && g !in i2.locals && g !in i3.locals
    ensures g !in ProvidedNames([i1, i2, i3])
  {
    forall d | d in [i1, i2, i3] ensures g !in d.locals {
    }
  }

  lemma FourthFirst(uses: seq<Occurrence>, g: string)
    requires |uses| == 4 && uses[0].name != g && uses[1].name != g && uses[2].name != g && uses[3].name == g
    ensures FirstUse(uses, {g}) == Some(uses[3].at)
  {
    assert FirstUse(uses[3..], {g}) == Some(uses[3].at);
    assert uses[2..][1..] == uses[3..];
    assert FirstUse(uses[2..], {g}) == Some(uses[3].at);
    assert uses[1..][1..] == uses[2..];
    assert FirstUse(uses[1..], {g}) == Some(uses[3].at);
  }

  /** Of three declarations, the last that ends by `limit` is the second. */
  lemma SecondOfThree(code: string, i1: ImportDecl, i2: ImportDecl, i3: ImportDecl, limit: nat, p: nat)
    requires DeclEnd(code, i2) == p <= limit < DeclEnd(code, i3)
    ensures LastImportBefore(code, [i1, i2, i3], limit) == Some(p)
  {
    assert LastImportBefore(code, [i3], limit) == None;
    assert [i2, i3][1..] == [i3];
    assert LastImportBefore(code, [i2, i3], limit) == Some(p);
    assert [i1, i2, i3][1..] == [i2, i3];
  }

  /**
   * At-end placement among interleaved imports: the statement for `g2` goes
   * after the line break of the last import that ends before `g2`'s first
   * occurrence, the second one, although a third import follows.
   */
  lemma MixedPlacement(code: string, l1: string, m1: string, g1: string, l2: string, m2: string, g2: string, l3: string, m3: string, o: string, f: string, from: string)
    requires g2 != o && g2 != g1 && g2 != l1 && g2 != l2 && g2 != l3
    requires var d2 := SecondAt(l1, m1, g1, o, f);
      var d3 := SecondAt(l2, m2, g2, o, f) + d2;
      && Analyze(code) == Analysis(
        [ImportLine(l1, '\'', m1, 0), ImportLine(l2, '\'', m2, d2), ImportLine(l3, '\'', m3, d3)],
        CallUsesAt(o, f, g1, CallAt(l1, m1, 0)) + CallUsesAt(o, f, g2, CallAt(l2, m2, d2)))
      && DeclEnd(code, ImportLine(l2, '\'', m2, d2)) == CallAt(l2, m2, d2)
      && DeclEnd(code, ImportLine(l3, '\'', m3, d3)) == |code| && |code| == d3 + |l3| + |m3| + 19
    ensures var p := CallAt(l2, m2, SecondAt(l1, m1, g1, o, f));
      && p <= |code|
      && Transform(Config([Binding(g2, from, None)], false, true, false), code).code
        == code[..p] + "\n" + "import { " + g2 + " } from '" + from + "';\n" + code[p..]
  {
    var d2 := SecondAt(l1, m1, g1, o, f);
    var d3 := SecondAt(l2, m2, g2, o, f) + d2;
    var p := CallAt(l2, m2, d2);
    var a := Analyze(code);
    var i1, i2, i3 := ImportLine(l1, '\'', m1, 0), ImportLine(l2, '\'', m2, d2), ImportLine(l3, '\'', m3, d3);
    var first := p + |o| + |f| + 2;
    var uses := [Occurrence(o, CallAt(l1, m1, 0)), Occurrence(g1, CallAt(l1, m1, 0) + |o| + |f| + 2), Occurrence(o, p), Occurrence(g2, first)];
    assert a.uses == uses;
    assert uses[3] in uses;
    FourthFirst(uses, g2);
    NotProvided(i1, i2, i3, g2);
    SecondOfThree(code, i1, i2, i3, first, p);
    AnalysisBounded(code);
    AfterImports(code, a, g2, from, p);
  }

  /** The at-end rewrite of the five lines, in terms of offsets. */
  lemma MixedRewrite(l1: string, m1: string, g1: string, l2: string, m2: string, g2: string, l3: string, m3: string, o: string, f: string, from: string, code: string)
    requires MixedParts(l1, m1, g1, l2, m2, g2, l3, m3, o, f)
    requires !Keyword(o) && !Keyword(f) && !Keyword(g1) && !Keyword(g2)
    requires g2 != o && g2 != g1 && g2 != l1 && g2 != l2 && g2 != l3
    requires code == Text(Mixed(l1, m1, g1, l2, m2, g2, l3, m3, o, f))
    ensures var p := CallAt(l2, m2, SecondAt(l1, m1, g1, o, f));
      && p <= |code|
      && Transform(Config([Binding(g2, from, None)], false, true, false), code).code
        == code[..p] + "\n" + "import { " + g2 + " } from '" + from + "';\n" + code[p..]
  {
    MixedOk(l1, m1, g1, l2, m2, g2, l3, m3, o, f);
    TokensOfChain(code, Mixed(l1, m1, g1, l2, m2, g2, l3, m3, o, f));
    MixedTokensOfChain(l1, m1, g1, l2, m2, g2, l3, m3, o, f);
    MixedAnalysis(Tokens(code), l1, m1, g1, l2, m2, g2, l3, m3, o, f);
    MixedEnds(code, l1, m1, g1, l2, m2, g2, l3, m3, o, f);
    MixedText(l1, m1, g1, l2, m2, g2, l3, m3, o, f);
    MixedLengths(l1, m1, g1, l2, m2, g2, l3, m3, o, f);
    MixedPlacement(code, l1, m1, g1, l2, m2, g2, l3, m3, o, f, from);
  }

  /**
   * At-end placement among interleaved imports: the statement for `g2`
   * follows, after a blank line, the second import, the last one before the
   * first occurrence of `g2`; the third import, further down, does not count.
   */
  lemma MixedAtEnd(l1: string, m1: string, g1: string, l2: string, m2: string, g2: string, l3: string, m3: string, o: string, f: string, from: string, code: string)
    requires MixedParts(l1, m1, g1, l2, m2, g2, l3, m3, o, f)
    requires !Keyword(o) && !Keyword(f) && !Keyword(g1) && !Keyword(g2)
    requires g2 != o && g2 != g1 && g2 != l1 && g2 != l2 && g2 != l3
    requires code == Text(Mixed(l1, m1, g1, l2, m2, g2, l3, m3, o, f))
    ensures Transform(Config([Binding(g2, from, None)], false, true, false), code).code
      == MixedHead(l1, m1, g1, l2, m2, o, f) + "\n" + "import { " + g2 + " } from '" + from + "';\n" + MixedTail(g2, l3, m3, o, f)
  {
    var p := CallAt(l2, m2, SecondAt(l1, m1, g1, o, f));
    var head, tail := MixedHead(l1, m1, g1, l2, m2, o, f), MixedTail(g2, l3, m3, o, f);
    MixedRewrite(l1, m1, g1, l2, m2, g2, l3, m3, o, f, from, code);
    MixedText(l1, m1, g1, l2, m2, g2, l3, m3, o, f);
    MixedLengths(l1, m1, g1, l2, m2, g2, l3, m3, o, f);
    assert code[..p] == head && code[p..] == tail;
  }

  lemma BarClause()
    ensures Text(Clause("import", "bar", '\'', "bar")) == "import { bar } from 'bar'"
  {
    ClauseFlat("import", "bar", '\'', "bar");
    assert "import" + " { " == "import { ";
    assert "import { " + "bar" == "import { bar";
    assert "import { bar" + " } from " == "import { bar } from ";
    assert "import { bar } from " + ['\''] == "import { bar } from '";
    assert "import { bar } from '" + "bar" == "import { bar } from 'bar";
  }

  lemma BazClause()
    ensures Text(Clause("import", "baz", '\'', "baz")) == "import { baz } from 'baz'"
  {
    ClauseFlat("import", "baz", '\'', "baz");
    assert "import" + " { " == "import { ";
    assert "import { " + "baz" == "import { baz";
    assert "import { baz" + " } from " == "import { baz } from ";
    assert "import { baz } from " + ['\''] == "import { baz } from '";
    assert "import { baz } from '" + "baz" == "import { baz } from 'baz";
  }

  lemma NonAutoCall()
    ensures Text(Call("console", "log", "nonAutoImport")) == "console.log(nonAutoImport())"
  {
    CallText("console", "log", "nonAutoImport");
  }

  /** The first three lines of the mixed example. */
  lemma MixedHeadText()
    ensures MixedHead("foo", "foo", "nonAutoImport", "bar", "bar", "console", "log") == "import { foo } from 'foo'\n" + "console.log(nonAutoImport())\n" + "import { bar } from 'bar'\n"
  {
    FooFooClause();
    NonAutoCall();
    BarClause();
    MixedHeadLines();
  }

  /** The last two lines of the mixed example. */
  lemma MixedTailText()
    ensures MixedTail("fooBar", "baz", "baz", "console", "log") == "console.log(fooBar())\n" + "import { baz } from 'baz'"
  {
    BasicText();
    BazClause();
    MixedTailLines();
  }

  /** The input of the `injection at end with mixed imports` example. */
  lemma MixedInputText()
    ensures Text(Mixed("foo", "foo", "nonAutoImport", "bar", "bar", "fooBar", "baz", "baz", "console", "log")) == "import { foo } from 'foo'\n" + "console.log(nonAutoImport())\n" + "import { bar } from 'bar'\n"
      + ("console.log(fooBar())\n" + "import { baz } from 'baz'")
  {
    MixedText("foo", "foo", "nonAutoImport", "bar", "bar", "fooBar", "baz", "baz", "console", "log");
    MixedHeadText();
    MixedTailText();
  }

  lemma MixedNames()
    ensures MixedParts("foo", "foo", "nonAutoImport", "bar", "bar", "fooBar", "baz", "baz", "console", "log")
    ensures "fooBar" != "console" && "fooBar" != "nonAutoImport" && "fooBar" != "foo" && "fooBar" != "bar" && "fooBar" != "baz"
  {
    ConsoleNames("fooBar");
    ConsoleNames("nonAutoImport");
    assert IsName("foo") && IsName("bar") && IsName("baz");
    assert Quotable('\'', "foo") && Quotable('\'', "bar") && Quotable('\'', "baz");
  }

  lemma MixedCase(code: string)
    requires code == Text(Mixed("foo", "foo", "nonAutoImport", "bar", "bar", "fooBar", "baz", "baz", "console", "log"))
    ensures Transform(Config([Binding("fooBar", "test-id", None)], false, true, false), code).code
      == MixedHead("foo", "foo", "nonAutoImport", "bar", "bar", "console", "log") + "\n" + "import { " + "fooBar" + " } from '" + "test-id" + "';\n" + MixedTail("fooBar", "baz", "baz", "console", "log")
  {
    MixedNames();
    ConsoleNames("fooBar");
    ConsoleNames("nonAutoImport");
    MixedAtEnd("foo", "foo", "nonAutoImport", "bar", "bar", "fooBar", "baz", "baz", "console", "log", "test-id", code);
  }

  /** The output of the mixed example. */
  lemma MixedOutputText()
    ensures MixedHead("foo", "foo", "nonAutoImport", "bar", "bar", "console", "log") + "\n" + "import { " + "fooBar" + " } from '" + "test-id" + "';\n" + MixedTail("fooBar", "baz", "baz", "console", "log")
      == "import { foo } from 'foo'\n" + "console.log(nonAutoImport())\n" + "import { bar } from 'bar'\n" + "\n"
        + "import { fooBar } from 'test-id';\n" + "console.log(fooBar())\n" + "import { baz } from 'baz'"
  {
    MixedHeadText();
    MixedTailText();
    FooBarStatement(MixedHead("foo", "foo", "nonAutoImport", "bar", "bar", "console", "log") + "\n");
    MixedOutputLines(MixedHead("foo", "foo", "nonAutoImport", "bar", "bar", "console", "log") + "\n" + "import { fooBar } from 'test-id';\n");
  }

  /** The `injection at end with mixed imports` example, as a rewrite. */
  lemma MixedOutput()
    ensures Transform(Config([Binding("fooBar", "test-id", None)], false, true, false),
        "import { foo } from 'foo'\n" + "console.log(nonAutoImport())\n" + "import { bar } from 'bar'\n"
        + ("console.log(fooBar())\n" + "import { baz } from 'baz'")).code
      == "import { foo } from 'foo'\n" + "console.log(nonAutoImport())\n" + "import { bar } from 'bar'\n" + "\n"
        + "import { fooBar } from 'test-id';\n" + "console.log(fooBar())\n" + "import { baz } from 'baz'"
  {
    MixedInputText();
    MixedCase("import { foo } from 'foo'\n" + "console.log(nonAutoImport())\n" + "import { bar } from 'bar'\n"
      + ("console.log(fooBar())\n" + "import { baz } from 'baz'"));
    MixedOutputText();
  }

  /**
   * The `injection at end with mixed imports` example: the statement for
   * `fooBar` goes after `bar`'s import, the last one before `fooBar` is
   * first used, and not after `baz`'s, which comes later.
   */
  method MixedExample() returns (out: string)
    ensures out == "import { foo } from 'foo'\n" + "console.log(nonAutoImport())\n" + "import { bar } from 'bar'\n" + "\n"
      + "import { fooBar } from 'test-id';\n" + "console.log(fooBar())\n" + "import { baz } from 'baz'"
  {
    var ctx := new Context(Config([Binding("fooBar", "test-id", None)], false, true, false));
    MixedOutput();
    out := ctx.InjectImports("import { foo } from 'foo'\n" + "console.log(nonAutoImport())\n" + "import { bar } from 'bar'\n"
      + ("console.log(fooBar())\n" + "import { baz } from 'baz'"), None);
  }
}
