/**
 * Recognition of the two statement shapes the engine cares about, over the
 * scanner's code-mode tokens: import declarations (ECMA-262 section 16.2.2)
 * and re-export declarations `export { ... } from '...'` / `export * from '...'`
 * (section 16.2.3). Every other identifier word, unless it is the target of a
 * member access `a.b`, is an occurrence: a candidate usage of a binding.
 */
module Declarations {
  import opened Lexer

  datatype Option<T> = None | Some(value: T)

  /** An import declaration already present in the code. */
  datatype ImportDecl = ImportDecl(
    specifier: string,      // the module specifier, as written between the quotes
    quote: char,            // the quote character used around it
    locals: seq<string>,    // the local names it binds
    named: bool,            // whether it has a `{ ... }` list that names can be merged into
    braceEnd: nat,          // the offset just after that `{`
    start: nat,             // the offset of the `import` keyword
    literalEnd: nat)        // the offset just after the specifier's closing quote

  datatype Occurrence = Occurrence(name: string, at: nat)

  /** A declaration found at a token index, and the token index just after it. */
  datatype Found = ImportFound(decl: ImportDecl, next: nat) | ReExportFound(next: nat)

  /** What the scan of one text yields. */
  datatype Analysis = Analysis(imports: seq<ImportDecl>, uses: seq<Occurrence>)

  predicate IsWord(t: Token, name: string) {
    t.Word? && t.name == name
  }

  predicate IsPunct(t: Token, c: char) {
    t.Punct? && t.ch == c
  }

  /** Tokens that may stand between `import`/`export` and `from`. */
  predicate InClause(t: Token) {
    t.Word? || IsPunct(t, '{') || IsPunct(t, '}') || IsPunct(t, ',') || IsPunct(t, '*')
  }

  /**
   * The index of the `from` keyword that closes a clause starting at `i`:
   * every token in between is a clause token and a string literal follows.
   */
  function FromIndex(toks: seq<Token>, i: nat): (r: Option<nat>)
    ensures r.Some? ==> i <= r.value && r.value + 1 < |toks|
    ensures r.Some? ==> IsWord(toks[r.value], "from") && toks[r.value + 1].Str?
    ensures r.Some? ==> forall k :: i <= k < r.value ==> InClause(toks[k])
    decreases |toks| - i
  {
    if i + 1 >= |toks| then None
    else if IsWord(toks[i], "from") && toks[i + 1].Str? then Some(i)
    else if InClause(toks[i]) then FromIndex(toks, i + 1)
    else None
  }

  /**
   * The names a clause `toks[i..j]` binds locally: a word directly followed by
   * `,`, `}` or the closing `from` (so `b` in `b as c` is skipped and `c` kept).
   */
  function Locals(toks: seq<Token>, i: nat, j: nat): (r: seq<string>)
    requires i <= j < |toks|
    ensures forall n :: n in r ==> exists k :: i <= k < j && toks[k].Word? && toks[k].name == n
    decreases j - i
  {
    if i == j then []
    else
      var rest := Locals(toks, i + 1, j);
      if toks[i].Word? && (i + 1 == j || IsPunct(toks[i + 1], ',') || IsPunct(toks[i + 1], '}'))
      then [toks[i].name] + rest
      else rest
  }

  /** The index of the first `{` in `toks[i..j]`, if any. */
  function BraceIndex(toks: seq<Token>, i: nat, j: nat): (r: Option<nat>)
    requires i <= j <= |toks|
    ensures r.Some? ==> i <= r.value < j && IsPunct(toks[r.value], '{')
    ensures r.None? ==> forall k :: i <= k < j ==> !IsPunct(toks[k], '{')
    decreases j - i
  {
    if i == j then None
    else if IsPunct(toks[i], '{') then Some(i)
    else BraceIndex(toks, i + 1, j)
  }

  /** The token at `k` is the property name of a member access `a.b` (but not a spread `...b`). */
  predicate IsMemberName(toks: seq<Token>, k: nat)
    requires k < |toks|
  {
    k > 0 && IsPunct(toks[k - 1], '.') && !(k > 1 && IsPunct(toks[k - 2], '.'))
  }

  /** The declaration that starts at token `k`, if one does. */
  function DeclAt(toks: seq<Token>, k: nat): (r: Option<Found>)
    requires k < |toks|
    ensures r.Some? ==> k < r.value.next <= |toks|
  {
    if IsMemberName(toks, k) then None
    else if IsWord(toks[k], "import") && k + 1 < |toks| && toks[k + 1].Str? then
      var lit := toks[k + 1];
      Some(ImportFound(ImportDecl(lit.body, lit.quote, [], false, 0, toks[k].start, lit.end), k + 2))
    else if IsWord(toks[k], "import") then
      match FromIndex(toks, k + 1)
      case None => None
      case Some(j) =>
        if j == k + 1 then None
        else
          var lit := toks[j + 1];
          var brace := BraceIndex(toks, k + 1, j);
          var braceEnd := if brace.Some? then toks[brace.value].at + 1 else 0;
          Some(ImportFound(ImportDecl(lit.body, lit.quote, Locals(toks, k + 1, j), brace.Some?, braceEnd, toks[k].start, lit.end), j + 2))
    else if IsWord(toks[k], "export") && k + 1 < |toks| && (IsPunct(toks[k + 1], '{') || IsPunct(toks[k + 1], '*')) then
      match FromIndex(toks, k + 1)
      case None => None
      case Some(j) => Some(ReExportFound(j + 2))
    else None
  }

  /** The analysis of the tokens from index `i` on. */
  function AnalyzeFrom(toks: seq<Token>, i: nat): Analysis
    requires i <= |toks|
    decreases |toks| - i
  {
    if i == |toks| then Analysis([], [])
    else
      var found := DeclAt(toks, i);
      if found.Some? && found.value.ImportFound? then
        var rest := AnalyzeFrom(toks, found.value.next);
        Analysis([found.value.decl] + rest.imports, rest.uses)
      else if found.Some? then AnalyzeFrom(toks, found.value.next)
      else
        var rest := AnalyzeFrom(toks, i + 1);
        if toks[i].Word? && !IsMemberName(toks, i)
        then Analysis(rest.imports, [Occurrence(toks[i].name, toks[i].start)] + rest.uses)
        else rest
  }

  function Analyze(code: string): Analysis {
    AnalyzeFrom(Tokens(code), 0)
  }

  /** Every occurrence is an identifier token at or after `i` that is not a member name. */
  lemma {:induction false} UsesFrom(toks: seq<Token>, i: nat)
    requires i <= |toks|
    ensures forall u :: u in AnalyzeFrom(toks, i).uses ==>
      exists k :: i <= k < |toks| && toks[k] == Word(u.name, u.at) && !IsMemberName(toks, k)
    decreases |toks| - i
  {
    if i < |toks| {
      match DeclAt(toks, i)
      case Some(f) => UsesFrom(toks, f.next);
      case None => UsesFrom(toks, i + 1);
    }
  }

  /**
   * The tokens of a recognized declaration (an import or a re-export) never
   * yield an occurrence: every occurrence lies after the declaration's end.
   */
  lemma DeclarationNamesAreNotUses(toks: seq<Token>, i: nat)
    requires i < |toks| && DeclAt(toks, i).Some?
    ensures forall u :: u in AnalyzeFrom(toks, i).uses ==>
      exists k :: DeclAt(toks, i).value.next <= k < |toks| && toks[k] == Word(u.name, u.at)
  {
    UsesFrom(toks, DeclAt(toks, i).value.next);
  }

  /** The identifier words from `i` on that are not member names: a reference for declaration-free code. */
  function PlainWords(toks: seq<Token>, i: nat): seq<Occurrence>
    requires i <= |toks|
    decreases |toks| - i
  {
    if i == |toks| then []
    else if toks[i].Word? && !IsMemberName(toks, i) then [Occurrence(toks[i].name, toks[i].start)] + PlainWords(toks, i + 1)
    else PlainWords(toks, i + 1)
  }

  /** Where no declaration starts, the occurrences are exactly the plain words, in order. */
  lemma {:induction false} UsesWithoutDeclarations(toks: seq<Token>, i: nat)
    requires i <= |toks|
    requires forall k :: i <= k < |toks| ==> DeclAt(toks, k).None?
    ensures AnalyzeFrom(toks, i) == Analysis([], PlainWords(toks, i))
    decreases |toks| - i
  {
    if i < |toks| {
      UsesWithoutDeclarations(toks, i + 1);
    }
  }

  /** With no `import` or `export` word anywhere, the occurrences are the plain words and no import is found. */
  lemma NoDeclarations(toks: seq<Token>)
    requires forall k :: 0 <= k < |toks| ==> !IsWord(toks[k], "import") && !IsWord(toks[k], "export")
    ensures AnalyzeFrom(toks, 0) == Analysis([], PlainWords(toks, 0))
  {
    forall k | 0 <= k < |toks| ensures DeclAt(toks, k).None? {
    }
    UsesWithoutDeclarations(toks, 0);
  }

  /** A token that is neither `import` nor `export` yields an occurrence exactly when it is a plain word. */
  lemma OtherAt(toks: seq<Token>, k: nat)
    requires k < |toks| && !IsWord(toks[k], "import") && !IsWord(toks[k], "export")
    ensures var rest := AnalyzeFrom(toks, k + 1);
      AnalyzeFrom(toks, k) ==
        if toks[k].Word? && !IsMemberName(toks, k)
        then Analysis(rest.imports, [Occurrence(toks[k].name, toks[k].start)] + rest.uses)
        else rest
  {
    assert DeclAt(toks, k).None?;
  }

  /** The tokens of `{ l } from 'm'` from index `k + 1` on. */
  predicate ClauseTokensAt(toks: seq<Token>, k: nat) {
    && k + 6 <= |toks|
    && IsPunct(toks[k + 1], '{') && toks[k + 2].Word? && IsPunct(toks[k + 3], '}')
    && IsWord(toks[k + 4], "from") && toks[k + 5].Str?
  }

  /** In `{ l } from 'm'` the `from` is found, the brace is the first token, and `l` is the one local name. */
  lemma ClauseParts(toks: seq<Token>, k: nat)
    requires ClauseTokensAt(toks, k)
    ensures FromIndex(toks, k + 1) == Some(k + 4)
    ensures BraceIndex(toks, k + 1, k + 4) == Some(k + 1)
    ensures Locals(toks, k + 1, k + 4) == [toks[k + 2].name]
  {
    assert FromIndex(toks, k + 4) == Some(k + 4);
    assert FromIndex(toks, k + 3) == Some(k + 4);
    assert FromIndex(toks, k + 2) == Some(k + 4);
    assert Locals(toks, k + 3, k + 4) == [];
    assert Locals(toks, k + 2, k + 4) == [toks[k + 2].name];
  }

  /**
   * `import { l } from 'm'` starting at token `k` is recorded with its
   * specifier, its one local name, the offset after its `{` and the offset
   * after its literal; none of its six tokens is an occurrence.
   */
  lemma ImportClauseAt(toks: seq<Token>, k: nat)
    requires ClauseTokensAt(toks, k) && IsWord(toks[k], "import") && !IsMemberName(toks, k)
    ensures var lit, rest := toks[k + 5], AnalyzeFrom(toks, k + 6);
      AnalyzeFrom(toks, k) == Analysis(
        [ImportDecl(lit.body, lit.quote, [toks[k + 2].name], true, toks[k + 1].at + 1, toks[k].start, lit.end)] + rest.imports,
        rest.uses)
  {
    ClauseParts(toks, k);
    var lit := toks[k + 5];
    var d := ImportDecl(lit.body, lit.quote, [toks[k + 2].name], true, toks[k + 1].at + 1, toks[k].start, lit.end);
    assert DeclAt(toks, k) == Some(ImportFound(d, k + 6));
  }

  /** `export { l } from 'm'` starting at token `k` is skipped whole: it neither imports nor uses. */
  lemma ReExportAt(toks: seq<Token>, k: nat)
    requires ClauseTokensAt(toks, k) && IsWord(toks[k], "export") && !IsMemberName(toks, k)
    ensures AnalyzeFrom(toks, k) == AnalyzeFrom(toks, k + 6)
  {
    ClauseParts(toks, k);
    assert DeclAt(toks, k) == Some(ReExportFound(k + 6));
  }

  /** Each listed import declaration was recognized at some token at or after `i`. */
  lemma {:induction false} ImportsFrom(toks: seq<Token>, i: nat)
    requires i <= |toks|
    ensures forall d :: d in AnalyzeFrom(toks, i).imports ==>
      exists k, next :: i <= k < |toks| && DeclAt(toks, k) == Some(ImportFound(d, next))
    decreases |toks| - i
  {
    if i < |toks| {
      match DeclAt(toks, i)
      case Some(f) => ImportsFrom(toks, f.next);
      case None => ImportsFrom(toks, i + 1);
    }
  }

  /** The offsets an import declaration records lie inside the text it was found in. */
  lemma ImportBounds(code: string)
    ensures forall d :: d in Analyze(code).imports ==>
      && d.literalEnd <= |code| && d.braceEnd <= |code|
      && (d.named ==> 0 < d.braceEnd <= |code| && code[d.braceEnd - 1] == '{')
  {
    var toks := Tokens(code);
    TokensWellOrdered(code);
    ImportsFrom(toks, 0);
    forall d | d in Analyze(code).imports
      ensures d.literalEnd <= |code| && d.braceEnd <= |code|
      ensures d.named ==> 0 < d.braceEnd <= |code| && code[d.braceEnd - 1] == '{'
    {
      var k, next :| 0 <= k < |toks| && DeclAt(toks, k) == Some(ImportFound(d, next));
      DeclBounds(code, toks, k, d, next);
    }
  }

  lemma DeclBounds(code: string, toks: seq<Token>, k: nat, d: ImportDecl, next: nat)
    requires k < |toks| && DeclAt(toks, k) == Some(ImportFound(d, next))
    requires forall t :: t in toks && t.Str? ==> t.end <= |code|
    requires forall t :: t in toks && t.Punct? ==> t.at < |code| && code[t.at] == t.ch
    ensures d.literalEnd <= |code| && d.braceEnd <= |code|
    ensures d.named ==> 0 < d.braceEnd <= |code| && code[d.braceEnd - 1] == '{'
  {
    if k + 1 < |toks| && toks[k + 1].Str? {
      assert toks[k + 1] in toks;
    } else {
      var j := FromIndex(toks, k + 1).value;
      assert toks[j + 1] in toks;
      var brace := BraceIndex(toks, k + 1, j);
      if brace.Some? {
        assert toks[brace.value] in toks;
      }
    }
  }

  /** Tokens that do not overlap: each one ends at or before the start of every later one. */
  predicate Disjoint(toks: seq<Token>) {
    && (forall t :: t in toks ==> Pos(t) < Reach(t))
    && (forall x, y :: 0 <= x < y < |toks| ==> Reach(toks[x]) <= Pos(toks[y]))
  }

  /**
   * A recognized import starts at its `import` keyword; its `{` (when it has
   * one) lies between that keyword and its literal; and it ends before the
   * token scanning resumes at.
   */
  lemma DeclOrder(toks: seq<Token>, k: nat, d: ImportDecl, next: nat)
    requires Disjoint(toks)
    requires k < |toks| && DeclAt(toks, k) == Some(ImportFound(d, next))
    ensures IsWord(toks[k], "import") && d.start == toks[k].start
    ensures d.start < d.literalEnd && (d.named ==> d.start < d.braceEnd < d.literalEnd)
    ensures next < |toks| ==> d.literalEnd <= Pos(toks[next])
  {
    assert toks[k] in toks;
    if k + 1 < |toks| && toks[k + 1].Str? {
      assert toks[k + 1] in toks;
    } else {
      var j := FromIndex(toks, k + 1).value;
      assert toks[j + 1] in toks;
      var brace := BraceIndex(toks, k + 1, j);
      if brace.Some? {
        assert toks[brace.value] in toks;
      }
    }
  }

  /** The imports found from token `i` on start no earlier than that token. */
  lemma ImportsAfter(toks: seq<Token>, i: nat)
    requires Disjoint(toks) && i <= |toks|
    ensures forall d :: d in AnalyzeFrom(toks, i).imports ==> i < |toks| && Pos(toks[i]) <= d.start
  {
    ImportsFrom(toks, i);
    forall d | d in AnalyzeFrom(toks, i).imports
      ensures i < |toks| && Pos(toks[i]) <= d.start
    {
      var k, next :| i <= k < |toks| && DeclAt(toks, k) == Some(ImportFound(d, next));
      DeclOrder(toks, k, d, next);
      if i < k {
        assert Reach(toks[i]) <= Pos(toks[k]);
        assert toks[i] in toks;
      }
    }
  }

  /** Each declaration ends before any later one starts. */
  predicate InSourceOrder(ds: seq<ImportDecl>) {
    forall x, y :: 0 <= x < y < |ds| ==> ds[x].literalEnd <= ds[y].start
  }

  /** The imports come in source order, each ending before the next one starts. */
  lemma {:induction false} ImportsSorted(toks: seq<Token>, i: nat)
    requires Disjoint(toks) && i <= |toks|
    ensures InSourceOrder(AnalyzeFrom(toks, i).imports)
    decreases |toks| - i
  {
    if i < |toks| {
      match DeclAt(toks, i)
      case Some(f) =>
        ImportsSorted(toks, f.next);
        if f.ImportFound? {
          DeclOrder(toks, i, f.decl, f.next);
          ImportsAfter(toks, f.next);
          var rest := AnalyzeFrom(toks, f.next).imports;
          assert AnalyzeFrom(toks, i).imports == [f.decl] + rest;
          assert forall y :: 0 <= y < |rest| ==> rest[y] in rest;
        }
      case None =>
        ImportsSorted(toks, i + 1);
        assert AnalyzeFrom(toks, i).imports == AnalyzeFrom(toks, i + 1).imports;
    }
  }

  /**
   * The imports of a text lie one after another: each starts at an `import`
   * keyword, has its `{` between that keyword and its literal, and ends
   * before the next one starts.
   */
  lemma ImportsApart(code: string)
    ensures var ds := Analyze(code).imports;
      && InSourceOrder(ds)
      && (forall d :: d in ds ==> d.start < d.literalEnd && (d.named ==> d.start < d.braceEnd < d.literalEnd))
      && (forall d :: d in ds ==> d.start < |code| && code[d.start] == 'i')
  {
    var toks := Tokens(code);
    TokensDisjoint(code);
    ImportsSorted(toks, 0);
    ImportsFrom(toks, 0);
    forall d | d in Analyze(code).imports
      ensures d.start < d.literalEnd && (d.named ==> d.start < d.braceEnd < d.literalEnd)
      ensures d.start < |code| && code[d.start] == 'i'
    {
      var k, next :| 0 <= k < |toks| && DeclAt(toks, k) == Some(ImportFound(d, next));
      DeclOrder(toks, k, d, next);
      KeywordStart(code, toks[k]);
    }
  }

  lemma TokensDisjoint(code: string)
    ensures Disjoint(Tokens(code))
    ensures forall t :: t in Tokens(code) && t.Word? ==> IsWholeWord(code, t.name, t.start)
  {
    TokensWellOrdered(code);
    forall t | t in Tokens(code) ensures Pos(t) < Reach(t) {
      if t.Word? {
        assert IsWholeWord(code, t.name, t.start);
      }
    }
  }

  lemma KeywordStart(code: string, t: Token)
    requires IsWord(t, "import") && IsWholeWord(code, t.name, t.start)
    ensures t.start < |code| && code[t.start] == 'i'
  {
    assert code[t.start..t.start + 6][0] == 'i';
  }
}
