/**
 * Running the injection a second time over its own output. With the default
 * placement the new statements open the text; they scan as statements of
 * their own, the old tokens follow moved along, and the analysis binds every
 * injected name. A second run therefore finds nothing pending and returns
 * the text unchanged.
 */
module Rescan {
  import opened Lexer
  import opened Composition
  import opened Pieces
  import opened Shapes
  import opened Declarations
  import opened Resolver
  import opened Injector
  import opened Unimport

  // ---- The analysis after a prefix of tokens

  function Plus(r: Option<nat>, d: nat): Option<nat> {
    if r.Some? then Some(r.value + d) else None
  }

  /** `z` is `y` after `n` tokens of some prefix. */
  predicate Behind(z: seq<Token>, n: nat, y: seq<Token>) {
    |z| == n + |y| && forall i :: 0 <= i < |y| ==> z[n + i] == y[i]
  }

  lemma {:induction false} FromPrefix(z: seq<Token>, n: nat, y: seq<Token>, i: nat)
    requires Behind(z, n, y)
    ensures FromIndex(z, n + i) == Plus(FromIndex(y, i), n)
    decreases |y| - i
  {
    if i + 1 < |y| {
      assert z[n + i] == y[i] && z[n + i + 1] == y[i + 1];
      if !(IsWord(y[i], "from") && y[i + 1].Str?) && InClause(y[i]) {
        FromPrefix(z, n, y, i + 1);
      }
    }
  }

  lemma {:induction false} LocalsPrefix(z: seq<Token>, n: nat, y: seq<Token>, i: nat, j: nat)
    requires Behind(z, n, y) && i <= j < |y|
    ensures Locals(z, n + i, n + j) == Locals(y, i, j)
    decreases j - i
  {
    if i < j {
      assert z[n + i] == y[i] && z[n + i + 1] == y[i + 1];
      LocalsPrefix(z, n, y, i + 1, j);
    }
  }

  lemma {:induction false} BracePrefix(z: seq<Token>, n: nat, y: seq<Token>, i: nat, j: nat)
    requires Behind(z, n, y) && i <= j <= |y|
    ensures BraceIndex(z, n + i, n + j) == Plus(BraceIndex(y, i, j), n)
    decreases j - i
  {
    if i < j {
      assert z[n + i] == y[i];
      BracePrefix(z, n, y, i + 1, j);
    }
  }

  /** `y` follows `n` tokens of `z`, the last of which (if any) is not `.`. */
  predicate OpenAfter(z: seq<Token>, n: nat, y: seq<Token>) {
    Behind(z, n, y) && (n == 0 || !IsPunct(z[n - 1], '.'))
  }

  lemma MemberPrefix(z: seq<Token>, n: nat, y: seq<Token>, k: nat)
    requires k < |y| && OpenAfter(z, n, y)
    ensures IsMemberName(z, n + k) == IsMemberName(y, k)
  {
    assert z[n + k] == y[k];
    if k > 0 {
      assert z[n + k - 1] == y[k - 1];
    }
    if k > 1 {
      assert z[n + k - 2] == y[k - 2];
    }
  }

  function NextPlus(r: Option<Found>, d: nat): Option<Found> {
    if r.None? then None
    else if r.value.ImportFound? then Some(ImportFound(r.value.decl, r.value.next + d))
    else Some(ReExportFound(r.value.next + d))
  }

  lemma DeclPrefix(z: seq<Token>, n: nat, y: seq<Token>, k: nat)
    requires k < |y| && OpenAfter(z, n, y)
    ensures DeclAt(z, n + k) == NextPlus(DeclAt(y, k), n)
  {
    MemberPrefix(z, n, y, k);
    assert z[n + k] == y[k];
    if k + 1 < |y| {
      assert z[n + k + 1] == y[k + 1];
    }
    if IsMemberName(y, k) {
      assert DeclAt(y, k) == None && DeclAt(z, n + k) == None;
    } else if IsWord(y[k], "import") && k + 1 < |y| && y[k + 1].Str? {
      BarePrefix(z, n, y, k);
    } else if IsWord(y[k], "import") {
      ImportFromPrefix(z, n, y, k);
    } else if IsWord(y[k], "export") && k + 1 < |y| && (IsPunct(y[k + 1], '{') || IsPunct(y[k + 1], '*')) {
      ExportPrefix(z, n, y, k);
    } else {
      assert DeclAt(y, k) == None && DeclAt(z, n + k) == None;
    }
  }

  lemma BarePrefix(z: seq<Token>, n: nat, y: seq<Token>, k: nat)
    requires k + 1 < |y| && OpenAfter(z, n, y) && z[n + k] == y[k] && z[n + k + 1] == y[k + 1]
    requires !IsMemberName(y, k) && !IsMemberName(z, n + k) && IsWord(y[k], "import") && y[k + 1].Str?
    ensures DeclAt(z, n + k) == NextPlus(DeclAt(y, k), n)
  {
    var lit := y[k + 1];
    var d := ImportDecl(lit.body, lit.quote, [], false, 0, y[k].start, lit.end);
    assert DeclAt(y, k) == Some(ImportFound(d, k + 2));
    assert DeclAt(z, n + k) == Some(ImportFound(d, n + k + 2));
  }

  lemma ExportPrefix(z: seq<Token>, n: nat, y: seq<Token>, k: nat)
    requires k + 1 < |y| && OpenAfter(z, n, y) && z[n + k] == y[k] && z[n + k + 1] == y[k + 1]
    requires !IsMemberName(y, k) && !IsMemberName(z, n + k) && IsWord(y[k], "export")
    requires IsPunct(y[k + 1], '{') || IsPunct(y[k + 1], '*')
    ensures DeclAt(z, n + k) == NextPlus(DeclAt(y, k), n)
  {
    FromPrefix(z, n, y, k + 1);
    var r := FromIndex(y, k + 1);
    if r.Some? {
      assert DeclAt(y, k) == Some(ReExportFound(r.value + 2));
      assert DeclAt(z, n + k) == Some(ReExportFound(n + r.value + 2));
    } else {
      assert DeclAt(y, k) == None && DeclAt(z, n + k) == None;
    }
  }

  lemma ImportFromPrefix(z: seq<Token>, n: nat, y: seq<Token>, k: nat)
    requires k < |y| && OpenAfter(z, n, y)
    requires !IsMemberName(y, k) && IsWord(y[k], "import") && !(k + 1 < |y| && y[k + 1].Str?)
    ensures DeclAt(z, n + k) == NextPlus(DeclAt(y, k), n)
  {
    MemberPrefix(z, n, y, k);
    assert z[n + k] == y[k];
    if k + 1 < |y| {
      assert z[n + k + 1] == y[k + 1];
    }
    assert !IsMemberName(z, n + k) && IsWord(z[n + k], "import") && !(n + k + 1 < |z| && z[n + k + 1].Str?);
    FromPrefix(z, n, y, k + 1);
    var r := FromIndex(y, k + 1);
    if r.Some? && r.value != k + 1 {
      ImportFromFound(z, n, y, k, r.value);
    } else {
      assert DeclAt(y, k) == None;
      assert DeclAt(z, n + k) == None;
    }
  }

  lemma ImportFromFound(z: seq<Token>, n: nat, y: seq<Token>, k: nat, j: nat)
    requires k < |y| && OpenAfter(z, n, y)
    requires !IsMemberName(z, n + k) && IsWord(y[k], "import") && !(n + k + 1 < |z| && z[n + k + 1].Str?)
    requires !IsMemberName(y, k) && !(k + 1 < |y| && y[k + 1].Str?) && z[n + k] == y[k]
    requires FromIndex(y, k + 1) == Some(j) && FromIndex(z, n + k + 1) == Some(n + j) && j != k + 1
    ensures DeclAt(z, n + k) == NextPlus(DeclAt(y, k), n)
  {
    var d := ImportParts(z, n, y, k, j);
    assert DeclAt(y, k) == Some(ImportFound(d, j + 2));
    assert DeclAt(z, n + k) == Some(ImportFound(d, n + j + 2));
  }

  /** The declaration both token lists record for an `import ... from` at `k` whose `from` is at `j`. */
  lemma ImportParts(z: seq<Token>, n: nat, y: seq<Token>, k: nat, j: nat) returns (d: ImportDecl)
    requires Behind(z, n, y) && k + 1 < j && j + 1 < |y| && y[k].Word? && y[j + 1].Str?
    ensures z[n + k] == y[k] && z[n + j + 1] == y[j + 1]
    ensures var lit, brace := y[j + 1], BraceIndex(y, k + 1, j);
      d == ImportDecl(lit.body, lit.quote, Locals(y, k + 1, j), brace.Some?,
        if brace.Some? then y[brace.value].at + 1 else 0, y[k].start, lit.end)
    ensures var lit, brace := z[n + j + 1], BraceIndex(z, n + k + 1, n + j);
      d == ImportDecl(lit.body, lit.quote, Locals(z, n + k + 1, n + j), brace.Some?,
        if brace.Some? then z[brace.value].at + 1 else 0, z[n + k].start, lit.end)
  {
    assert z[n + k] == y[k] && z[n + j + 1] == y[j + 1];
    LocalsPrefix(z, n, y, k + 1, j);
    BracePrefix(z, n, y, k + 1, j);
    var lit, brace := y[j + 1], BraceIndex(y, k + 1, j);
    if brace.Some? {
      assert z[n + brace.value] == y[brace.value];
    }
    d := ImportDecl(lit.body, lit.quote, Locals(y, k + 1, j), brace.Some?,
      if brace.Some? then y[brace.value].at + 1 else 0, y[k].start, lit.end);
  }

  /** Tokens after a prefix that does not end in `.` are analysed as if the prefix were not there. */
  lemma {:induction false} AnalyzePrefix(z: seq<Token>, n: nat, y: seq<Token>, i: nat)
    requires i <= |y| && OpenAfter(z, n, y)
    ensures AnalyzeFrom(z, n + i) == AnalyzeFrom(y, i)
    decreases |y| - i
  {
    if i < |y| {
      var next := PrefixStep(z, n, y, i);
      AnalyzePrefix(z, n, y, next);
    }
  }

  /** Where the analysis goes on after index `i`, and that agreeing from there on is agreeing from `i`. */
  lemma PrefixStep(z: seq<Token>, n: nat, y: seq<Token>, i: nat) returns (next: nat)
    requires i < |y| && OpenAfter(z, n, y)
    ensures i < next <= |y|
    ensures AnalyzeFrom(z, n + next) == AnalyzeFrom(y, next) ==> AnalyzeFrom(z, n + i) == AnalyzeFrom(y, i)
  {
    DeclPrefix(z, n, y, i);
    var f := DeclAt(y, i);
    if f.Some? {
      next := f.value.next;
      if AnalyzeFrom(z, n + next) == AnalyzeFrom(y, next) {
        PrefixFound(z, n, y, i);
      }
    } else {
      next := i + 1;
      if AnalyzeFrom(z, n + next) == AnalyzeFrom(y, next) {
        PrefixNone(z, n, y, i);
      }
    }
  }

  /** One step of `AnalyzePrefix` where a declaration starts. */
  lemma PrefixFound(z: seq<Token>, n: nat, y: seq<Token>, i: nat)
    requires i < |y| && OpenAfter(z, n, y) && DeclAt(y, i).Some?
    requires DeclAt(z, n + i) == NextPlus(DeclAt(y, i), n)
    requires AnalyzeFrom(z, n + DeclAt(y, i).value.next) == AnalyzeFrom(y, DeclAt(y, i).value.next)
    ensures AnalyzeFrom(z, n + i) == AnalyzeFrom(y, i)
  {
  }

  /** One step of `AnalyzePrefix` where no declaration starts. */
  lemma PrefixNone(z: seq<Token>, n: nat, y: seq<Token>, i: nat)
    requires i < |y| && OpenAfter(z, n, y) && DeclAt(y, i).None? && DeclAt(z, n + i).None?
    requires AnalyzeFrom(z, n + i + 1) == AnalyzeFrom(y, i + 1)
    ensures AnalyzeFrom(z, n + i) == AnalyzeFrom(y, i)
  {
    MemberPrefix(z, n, y, i);
    assert z[n + i] == y[i];
  }

  // ---- The analysis of tokens moved along

  function ShiftDecl(d: ImportDecl, n: nat): ImportDecl {
    d.(braceEnd := if d.named then d.braceEnd + n else d.braceEnd, start := d.start + n, literalEnd := d.literalEnd + n)
  }

  function ShiftDecls(ds: seq<ImportDecl>, n: nat): (r: seq<ImportDecl>)
    ensures |r| == |ds| && forall i :: 0 <= i < |ds| ==> r[i] == ShiftDecl(ds[i], n)
  {
    if ds == [] then [] else [ShiftDecl(ds[0], n)] + ShiftDecls(ds[1..], n)
  }

  function ShiftUses(us: seq<Occurrence>, n: nat): (r: seq<Occurrence>)
    ensures |r| == |us| && forall i :: 0 <= i < |us| ==> r[i] == Occurrence(us[i].name, us[i].at + n)
  {
    if us == [] then [] else [Occurrence(us[0].name, us[0].at + n)] + ShiftUses(us[1..], n)
  }

  /** An analysis with every recorded offset moved `n` characters on. */
  function ShiftAnalysis(a: Analysis, n: nat): Analysis {
    Analysis(ShiftDecls(a.imports, n), ShiftUses(a.uses, n))
  }

  function ShiftFound(r: Option<Found>, n: nat): Option<Found> {
    if r.Some? && r.value.ImportFound? then Some(ImportFound(ShiftDecl(r.value.decl, n), r.value.next)) else r
  }

  /** Moving a token keeps its kind, its name, its character and its literal. */
  lemma KindShift(t: Token, n: nat)
    ensures var u := ShiftToken(t, n);
      && u.Word? == t.Word? && u.Punct? == t.Punct? && u.Str? == t.Str?
      && (t.Word? ==> u.name == t.name && u.start == t.start + n)
      && (t.Punct? ==> u.ch == t.ch && u.at == t.at + n)
      && (t.Str? ==> u.quote == t.quote && u.body == t.body && u.end == t.end + n)
  {
  }

  /** `us` is `ts` with every token moved `n` characters on. */
  predicate ShiftedBy(us: seq<Token>, ts: seq<Token>, n: nat) {
    |us| == |ts| && forall k :: 0 <= k < |ts| ==> us[k] == ShiftToken(ts[k], n)
  }

  lemma {:induction false} FromShift(us: seq<Token>, ts: seq<Token>, n: nat, i: nat)
    requires ShiftedBy(us, ts, n)
    ensures FromIndex(us, i) == FromIndex(ts, i)
    decreases |ts| - i
  {
    if i + 1 < |ts| {
      KindShift(ts[i], n);
      KindShift(ts[i + 1], n);
      FromShift(us, ts, n, i + 1);
    }
  }

  lemma {:induction false} LocalsShift(us: seq<Token>, ts: seq<Token>, n: nat, i: nat, j: nat)
    requires ShiftedBy(us, ts, n) && i <= j < |ts|
    ensures Locals(us, i, j) == Locals(ts, i, j)
    decreases j - i
  {
    if i < j {
      KindShift(ts[i], n);
      KindShift(ts[i + 1], n);
      LocalsShift(us, ts, n, i + 1, j);
    }
  }

  lemma {:induction false} BraceShift(us: seq<Token>, ts: seq<Token>, n: nat, i: nat, j: nat)
    requires ShiftedBy(us, ts, n) && i <= j <= |ts|
    ensures BraceIndex(us, i, j) == BraceIndex(ts, i, j)
    decreases j - i
  {
    if i < j {
      KindShift(ts[i], n);
      BraceShift(us, ts, n, i + 1, j);
    }
  }

  lemma MemberShift(us: seq<Token>, ts: seq<Token>, n: nat, k: nat)
    requires ShiftedBy(us, ts, n) && k < |ts|
    ensures IsMemberName(us, k) == IsMemberName(ts, k)
  {
    if k > 0 {
      KindShift(ts[k - 1], n);
    }
    if k > 1 {
      KindShift(ts[k - 2], n);
    }
  }

  lemma DeclShift(us: seq<Token>, ts: seq<Token>, n: nat, k: nat)
    requires ShiftedBy(us, ts, n) && k < |ts|
    ensures DeclAt(us, k) == ShiftFound(DeclAt(ts, k), n)
  {
    KindShift(ts[k], n);
    if k + 1 < |ts| {
      KindShift(ts[k + 1], n);
    }
    MemberShift(us, ts, n, k);
    if IsMemberName(ts, k) {
      assert DeclAt(ts, k) == None && DeclAt(us, k) == None;
    } else if IsWord(ts[k], "import") && k + 1 < |ts| && ts[k + 1].Str? {
      BareShift(us, ts, n, k);
    } else if IsWord(ts[k], "import") {
      FromShift(us, ts, n, k + 1);
      var r := FromIndex(ts, k + 1);
      if r.Some? && r.value != k + 1 {
        DeclShiftFrom(us, ts, n, k, r.value);
      } else {
        assert DeclAt(ts, k) == None && DeclAt(us, k) == None;
      }
    } else if IsWord(ts[k], "export") && k + 1 < |ts| && (IsPunct(ts[k + 1], '{') || IsPunct(ts[k + 1], '*')) {
      ExportShift(us, ts, n, k);
    } else {
      assert DeclAt(ts, k) == None && DeclAt(us, k) == None;
    }
  }

  lemma BareShift(us: seq<Token>, ts: seq<Token>, n: nat, k: nat)
    requires ShiftedBy(us, ts, n) && k + 1 < |ts| && !IsMemberName(ts, k) && !IsMemberName(us, k)
    requires IsWord(ts[k], "import") && IsWord(us[k], "import") && ts[k + 1].Str?
    ensures DeclAt(us, k) == ShiftFound(DeclAt(ts, k), n)
  {
    KindShift(ts[k], n);
    KindShift(ts[k + 1], n);
    var lit := ts[k + 1];
    var d := ImportDecl(lit.body, lit.quote, [], false, 0, ts[k].start, lit.end);
    assert DeclAt(ts, k) == Some(ImportFound(d, k + 2));
    assert DeclAt(us, k) == Some(ImportFound(ShiftDecl(d, n), k + 2));
  }

  lemma ExportShift(us: seq<Token>, ts: seq<Token>, n: nat, k: nat)
    requires ShiftedBy(us, ts, n) && k + 1 < |ts| && !IsMemberName(ts, k) && !IsMemberName(us, k)
    requires IsWord(ts[k], "export") && IsWord(us[k], "export")
    requires (IsPunct(ts[k + 1], '{') || IsPunct(ts[k + 1], '*')) && us[k + 1] == ShiftToken(ts[k + 1], n)
    ensures DeclAt(us, k) == ShiftFound(DeclAt(ts, k), n)
  {
    KindShift(ts[k + 1], n);
    FromShift(us, ts, n, k + 1);
    var r := FromIndex(ts, k + 1);
    if r.Some? {
      assert DeclAt(ts, k) == Some(ReExportFound(r.value + 2)) && DeclAt(us, k) == Some(ReExportFound(r.value + 2));
    } else {
      assert DeclAt(ts, k) == None && DeclAt(us, k) == None;
    }
  }

  lemma DeclShiftFrom(us: seq<Token>, ts: seq<Token>, n: nat, k: nat, j: nat)
    requires ShiftedBy(us, ts, n) && k < |ts| && !IsMemberName(ts, k) && !IsMemberName(us, k)
    requires IsWord(ts[k], "import") && IsWord(us[k], "import")
    requires !(k + 1 < |ts| && ts[k + 1].Str?) && !(k + 1 < |us| && us[k + 1].Str?)
    requires FromIndex(ts, k + 1) == Some(j) && FromIndex(us, k + 1) == Some(j) && j != k + 1
    ensures DeclAt(us, k) == ShiftFound(DeclAt(ts, k), n)
  {
    KindShift(ts[k], n);
    KindShift(ts[j + 1], n);
    LocalsShift(us, ts, n, k + 1, j);
    BraceShift(us, ts, n, k + 1, j);
    var b := BraceIndex(ts, k + 1, j);
    if b.Some? {
      KindShift(ts[b.value], n);
    }
    var lit := ts[j + 1];
    var d := ImportDecl(lit.body, lit.quote, Locals(ts, k + 1, j), b.Some?, if b.Some? then ts[b.value].at + 1 else 0, ts[k].start, lit.end);
    assert DeclAt(ts, k) == Some(ImportFound(d, j + 2));
    assert DeclAt(us, k) == Some(ImportFound(ShiftDecl(d, n), j + 2));
  }

  /** Moving every token `n` characters on moves every recorded offset and changes nothing else. */
  lemma {:induction false} AnalyzeShift(us: seq<Token>, ts: seq<Token>, n: nat, i: nat)
    requires ShiftedBy(us, ts, n) && i <= |ts|
    ensures AnalyzeFrom(us, i) == ShiftAnalysis(AnalyzeFrom(ts, i), n)
    decreases |ts| - i
  {
    if i < |ts| {
      var next := ShiftStep(us, ts, n, i);
      AnalyzeShift(us, ts, n, next);
    }
  }

  /** Where the analysis goes on after index `i`, and that agreeing from there on is agreeing from `i`. */
  lemma ShiftStep(us: seq<Token>, ts: seq<Token>, n: nat, i: nat) returns (next: nat)
    requires ShiftedBy(us, ts, n) && i < |ts|
    ensures i < next <= |ts|
    ensures AnalyzeFrom(us, next) == ShiftAnalysis(AnalyzeFrom(ts, next), n)
      ==> AnalyzeFrom(us, i) == ShiftAnalysis(AnalyzeFrom(ts, i), n)
  {
    DeclShift(us, ts, n, i);
    var f := DeclAt(ts, i);
    if f.Some? {
      next := f.value.next;
      if AnalyzeFrom(us, next) == ShiftAnalysis(AnalyzeFrom(ts, next), n) {
        ShiftFoundStep(us, ts, n, i);
      }
    } else {
      next := i + 1;
      if AnalyzeFrom(us, next) == ShiftAnalysis(AnalyzeFrom(ts, next), n) {
        ShiftNoneStep(us, ts, n, i);
      }
    }
  }

  /** One step of `AnalyzeShift` where a declaration starts. */
  lemma ShiftFoundStep(us: seq<Token>, ts: seq<Token>, n: nat, i: nat)
    requires ShiftedBy(us, ts, n) && i < |ts| && DeclAt(ts, i).Some?
    requires DeclAt(us, i) == ShiftFound(DeclAt(ts, i), n)
    requires AnalyzeFrom(us, DeclAt(ts, i).value.next) == ShiftAnalysis(AnalyzeFrom(ts, DeclAt(ts, i).value.next), n)
    ensures AnalyzeFrom(us, i) == ShiftAnalysis(AnalyzeFrom(ts, i), n)
  {
    var f := DeclAt(ts, i).value;
    if f.ImportFound? {
      var rest := AnalyzeFrom(ts, f.next);
      assert ShiftDecls([f.decl] + rest.imports, n) == [ShiftDecl(f.decl, n)] + ShiftDecls(rest.imports, n);
    }
  }

  /** One step of `AnalyzeShift` where no declaration starts. */
  lemma ShiftNoneStep(us: seq<Token>, ts: seq<Token>, n: nat, i: nat)
    requires ShiftedBy(us, ts, n) && i < |ts| && DeclAt(ts, i).None? && DeclAt(us, i).None?
    requires AnalyzeFrom(us, i + 1) == ShiftAnalysis(AnalyzeFrom(ts, i + 1), n)
    ensures AnalyzeFrom(us, i) == ShiftAnalysis(AnalyzeFrom(ts, i), n)
  {
    var rest := AnalyzeFrom(ts, i + 1);
    var t := ts[i];
    KindShift(t, n);
    MemberShift(us, ts, n, i);
    if t.Word? {
      assert ShiftUses([Occurrence(t.name, t.start)] + rest.uses, n) == [Occurrence(t.name, t.start + n)] + ShiftUses(rest.uses, n);
    }
  }

  // ---- The new statements as chains of pieces

  /** A binding that can be written into a statement: identifier names and a single-quotable module. */
  predicate Writable(b: Binding) {
    IsName(b.name) && IsName(FinalName(b)) && Quotable('\'', b.from)
  }

  /** How `SpecifierText` writes a binding, piece by piece. */
  function SpecChain(b: Binding): Chain {
    if FinalName(b) == b.name then Then(Ident(b.name), Stop)
    else Then(Ident(b.name), Then(Space, Then(Ident("as"), Then(Space, Then(Ident(FinalName(b)), Stop)))))
  }

  /** The specifiers separated by `, `. */
  function ListChain(bs: seq<Binding>): Chain
    decreases |bs|
  {
    if bs == [] then Stop
    else if |bs| == 1 then SpecChain(bs[0])
    else Concat(SpecChain(bs[0]), Then(Mark(','), Then(Space, ListChain(bs[1..]))))
  }

  /** `;` and the line break after a statement. */
  const Terminator: Chain := Then(Mark(';'), Then(LineBreak, Stop))

  /** `import { ... } from 'm';` and its line break. */
  function StatementChain(m: string, bs: seq<Binding>): Chain {
    Then(Ident("import"), Then(Space, Then(Mark('{'), Then(Space, Concat(ListChain(bs), Concat(Closing('\'', m), Terminator))))))
  }

  /** An identifier in front of a chain that is empty or opens with a blank. */
  lemma NameLink(n: string, r: Chain, ok: bool)
    requires IsName(n) && (r.Stop? || r.head == Space) && ChainOk(r, false)
    ensures ChainOk(Then(Ident(n), r), ok) && AfterAll(Then(Ident(n), r), ok) == AfterAll(r, false)
    ensures Text(Then(Ident(n), r)) == n + Text(r)
  {
    assert After(Ident(n), ok) == false;
  }

  /** A blank in front of a chain that opens with an identifier. */
  lemma SpaceLink(r: Chain, ok: bool)
    requires r.Then? && r.head.Ident? && ChainOk(r, ok)
    ensures ChainOk(Then(Space, r), ok) && AfterAll(Then(Space, r), ok) == AfterAll(r, ok)
    ensures Text(Then(Space, r)) == " " + Text(r)
  {
    assert After(Space, ok) == ok;
    assert PieceText(Space) == " ";
  }

  lemma SpecFacts(b: Binding, ok: bool)
    requires Writable(b)
    ensures ChainOk(SpecChain(b), ok) && AfterAll(SpecChain(b), ok) == false
    ensures Text(SpecChain(b)) == SpecifierText(b)
  {
    var n, a := b.name, FinalName(b);
    var c4 := Then(Ident(a), Stop);
    NameLink(a, Stop, false);
    if a != n {
      var c3 := Then(Space, c4);
      var c2 := Then(Ident("as"), c3);
      var c1 := Then(Space, c2);
      SpaceLink(c4, false);
      assert IsName("as");
      NameLink("as", c3, false);
      SpaceLink(c2, false);
      NameLink(n, c1, ok);
      assert Text(SpecChain(b)) == n + (" " + ("as" + (" " + (a + ""))));
    } else {
      NameLink(n, Stop, ok);
      assert Text(SpecChain(b)) == n + "";
    }
  }

  /** What follows a specifier when more come: `, ` and the rest. */
  function MoreChain(bs: seq<Binding>): Chain
    requires |bs| > 1
  {
    Then(Mark(','), Then(Space, ListChain(bs[1..])))
  }

  lemma MoreFacts(bs: seq<Binding>)
    requires |bs| > 1
    requires ChainOk(ListChain(bs[1..]), true) && AfterAll(ListChain(bs[1..]), true) == false
    ensures ChainOk(MoreChain(bs), false) && AfterAll(MoreChain(bs), false) == false
    ensures Text(MoreChain(bs)) == ", " + Text(ListChain(bs[1..])) && Text(MoreChain(bs))[0] == ','
  {
    var r := ListChain(bs[1..]);
    var tail := Then(Space, r);
    assert After(Space, true) && PieceText(Space) == " " && PieceText(Mark(',')) == ",";
    assert ChainOk(tail, true) && AfterAll(tail, true) == false && Text(tail) == " " + Text(r);
    assert After(Mark(','), false) && Text(MoreChain(bs)) == "," + Text(tail);
  }

  /** The specifier list is well formed, ends an identifier, and reads as `SpecifierTexts` joined by `, `. */
  lemma {:induction false} ListFacts(bs: seq<Binding>, ok: bool)
    requires bs != [] && forall b :: b in bs ==> Writable(b)
    ensures ChainOk(ListChain(bs), ok) && AfterAll(ListChain(bs), ok) == false
    ensures Text(ListChain(bs)) == Join(SpecifierTexts(bs), ", ")
    decreases |bs|
  {
    assert bs[0] in bs;
    SpecFacts(bs[0], ok);
    if |bs| > 1 {
      var rest := bs[1..];
      assert forall b :: b in rest ==> b in bs;
      ListFacts(rest, true);
      MoreFacts(bs);
      ListJoin(bs, ok);
    }
  }

  lemma ListJoin(bs: seq<Binding>, ok: bool)
    requires |bs| > 1 && Writable(bs[0])
    requires ChainOk(SpecChain(bs[0]), ok) && AfterAll(SpecChain(bs[0]), ok) == false
    requires ChainOk(MoreChain(bs), false) && AfterAll(MoreChain(bs), false) == false
    requires Text(MoreChain(bs)) == ", " + Text(ListChain(bs[1..])) && Text(MoreChain(bs))[0] == ','
    requires Text(ListChain(bs[1..])) == Join(SpecifierTexts(bs[1..]), ", ")
    ensures ChainOk(ListChain(bs), ok) && AfterAll(ListChain(bs), ok) == false
    ensures Text(ListChain(bs)) == Join(SpecifierTexts(bs), ", ")
  {
    SpecFacts(bs[0], ok);
    OkConcat(SpecChain(bs[0]), MoreChain(bs), ok);
    TextConcat(SpecChain(bs[0]), MoreChain(bs));
    assert SpecifierTexts(bs)[1..] == SpecifierTexts(bs[1..]);
  }

  lemma TerminatorFacts()
    ensures ChainOk(Terminator, false) && AfterAll(Terminator, false) == true
    ensures Text(Terminator) == ";\n"
  {
    var t := Then(LineBreak, Stop);
    assert ChainOk(t, true) && AfterAll(t, true) == true && Text(t) == "\n" + "";
  }

  /** ` } from 'm';` and the line break: well formed, and a `/` after it would start a regular expression. */
  lemma TailFacts(m: string)
    requires Quotable('\'', m)
    ensures var c := Concat(Closing('\'', m), Terminator);
      && ChainOk(c, false) && AfterAll(c, false) == true
      && Text(c) == " } from '" + m + "';\n" && Text(c)[0] == ' '
  {
    var c := Closing('\'', m);
    ClosingOk('\'', m);
    TerminatorFacts();
    OkConcat(c, Terminator, false);
    TextConcat(c, Terminator);
    ClosingQuoted(m);
    TailSpelled(m);
  }

  /** The text of ` } from 'm'`. */
  lemma ClosingQuoted(m: string)
    ensures Text(Closing('\'', m)) == " } from '" + m + "'"
  {
    ClosingText('\'', m);
    var q := "'";
    assert [('\'')] + m + [('\'')] == q + m + q;
  }

  lemma TailSpelled(m: string)
    ensures " } from '" + m + "'" + ";\n" == " } from '" + m + "';\n"
  {
  }

  /** The list and what closes the statement. */
  lemma BodyFacts(m: string, bs: seq<Binding>)
    requires bs != [] && (forall b :: b in bs ==> Writable(b)) && Quotable('\'', m)
    ensures var c := Concat(ListChain(bs), Concat(Closing('\'', m), Terminator));
      && ChainOk(c, true) && AfterAll(c, true) == true
      && Text(c) == Join(SpecifierTexts(bs), ", ") + (" } from '" + m + "';\n")
  {
    var tail := Concat(Closing('\'', m), Terminator);
    ListFacts(bs, true);
    TailFacts(m);
    OkConcat(ListChain(bs), tail, true);
    TextConcat(ListChain(bs), tail);
  }

  /** A statement chain is well formed, leaves a `/` starting a regular expression, and spells `Statement` and a line break. */
  lemma StatementFacts(m: string, bs: seq<Binding>, ok: bool)
    requires bs != [] && (forall b :: b in bs ==> Writable(b)) && Quotable('\'', m)
    ensures ChainOk(StatementChain(m, bs), ok) && AfterAll(StatementChain(m, bs), ok) == true
    ensures Text(StatementChain(m, bs)) == Statement(m, SpecifierTexts(bs)) + "\n"
  {
    var body := Concat(ListChain(bs), Concat(Closing('\'', m), Terminator));
    BodyFacts(m, bs);
    StatementOk(body, ok);
    StatementText(body, Join(SpecifierTexts(bs), ", "), m);
  }

  lemma StatementOk(body: Chain, ok: bool)
    requires ChainOk(body, true) && AfterAll(body, true) == true
    ensures var c := Then(Ident("import"), Then(Space, Then(Mark('{'), Then(Space, body))));
      ChainOk(c, ok) && AfterAll(c, ok) == true
  {
    var c3 := Then(Space, body);
    var c2 := Then(Mark('{'), c3);
    var c1 := Then(Space, c2);
    assert ChainOk(c3, true) && AfterAll(c3, true) == true;
    assert ChainOk(c2, false) && AfterAll(c2, false) == true;
    assert ChainOk(c1, false) && AfterAll(c1, false) == true;
  }

  lemma StatementText(body: Chain, j: string, m: string)
    requires Text(body) == j + (" } from '" + m + "';\n")
    ensures Text(Then(Ident("import"), Then(Space, Then(Mark('{'), Then(Space, body))))) == "import { " + j + " } from '" + m + "';" + "\n"
  {
    var c3 := Then(Space, body);
    var c2 := Then(Mark('{'), c3);
    var c1 := Then(Space, c2);
    assert Text(c3) == " " + Text(body);
    assert Text(c2) == "{" + Text(c3);
    assert Text(c1) == " " + Text(c2);
    OpeningSpelling(Text(body));
    ClosingSpelling("import { ", j, m);
  }

  lemma OpeningSpelling(y: string)
    ensures "import" + (" " + ("{" + (" " + y))) == "import { " + y
  {
  }

  lemma ClosingSpelling(x: string, j: string, m: string)
    ensures x + (j + (" } from '" + m + "';\n")) == x + j + " } from '" + m + "';" + "\n"
  {
    assert "';" + "\n" == "';\n";
  }

  // ---- The tokens of the new statements

  function SpecWidth(b: Binding): nat {
    if FinalName(b) == b.name then 1 else 3
  }

  /** The tokens of one specifier at index `i`: its name, then `as` and the alias when renamed. */
  predicate SpecAt(z: seq<Token>, i: nat, b: Binding) {
    && i + SpecWidth(b) <= |z| && IsWord(z[i], b.name)
    && (SpecWidth(b) == 3 ==> IsWord(z[i + 1], "as") && IsWord(z[i + 2], FinalName(b)))
  }

  /** The tokens `z[i..j]` of a specifier list: the specifiers' tokens separated by `,`. */
  predicate ListAt(z: seq<Token>, i: nat, j: nat, bs: seq<Binding>)
    decreases |bs|
  {
    && i <= j <= |z|
    && if bs == [] then i == j
       else
         var w := SpecWidth(bs[0]);
         && SpecAt(z, i, bs[0])
         && if |bs| == 1 then i + w == j
            else i + w < j && IsPunct(z[i + w], ',') && ListAt(z, i + w + 1, j, bs[1..])
  }

  /** The first `n` tokens of `z` are those of `import { ... } from '...';`. */
  predicate StatementAt(z: seq<Token>, n: nat, bs: seq<Binding>) {
    && 6 <= n <= |z| && IsWord(z[0], "import") && IsPunct(z[1], '{') && ListAt(z, 2, n - 4, bs)
    && IsPunct(z[n - 4], '}') && IsWord(z[n - 3], "from") && z[n - 2].Str? && IsPunct(z[n - 1], ';')
  }

  /** `z` holds `y` from index `n` on. */
  predicate Inside(z: seq<Token>, n: nat, y: seq<Token>) {
    n + |y| <= |z| && forall k :: 0 <= k < |y| ==> z[n + k] == y[k]
  }

  lemma {:induction false} ListMoved(y: seq<Token>, z: seq<Token>, n: nat, i: nat, j: nat, bs: seq<Binding>)
    requires ListAt(y, i, j, bs) && Inside(z, n, y)
    ensures ListAt(z, n + i, n + j, bs)
    decreases |bs|
  {
    if bs != [] {
      var w := SpecWidth(bs[0]);
      assert z[n + i] == y[i];
      if w == 3 {
        assert z[n + i + 1] == y[i + 1] && z[n + i + 2] == y[i + 2];
      }
      if |bs| > 1 {
        assert z[n + i + w] == y[i + w];
        ListMoved(y, z, n, i + w + 1, j, bs[1..]);
      }
    }
  }

  lemma SpecTokens(b: Binding, d: nat)
    ensures var ts := ChainTokens(SpecChain(b), d); |ts| == SpecWidth(b) && SpecAt(ts, 0, b)
  {
    if FinalName(b) != b.name {
      var n, a := b.name, FinalName(b);
      var c4 := Then(Ident(a), Stop);
      var c3 := Then(Space, c4);
      var c2 := Then(Ident("as"), c3);
      assert ChainTokens(c4, d + |n| + 4) == [Word(a, d + |n| + 4)];
      SilentTokens(Space, c4, d + |n| + 3);
      assert ChainTokens(c2, d + |n| + 1) == [Word("as", d + |n| + 1), Word(a, d + |n| + 4)];
      SilentTokens(Space, c2, d + |n|);
      assert ChainTokens(SpecChain(b), d) == [Word(n, d), Word("as", d + |n| + 1), Word(a, d + |n| + 4)];
    } else {
      assert ChainTokens(SpecChain(b), d) == [Word(b.name, d)];
    }
  }

  lemma MoreTokens(bs: seq<Binding>, e: nat)
    requires |bs| > 1
    ensures ChainTokens(MoreChain(bs), e) == [Punct(',', e)] + ChainTokens(ListChain(bs[1..]), e + 2)
  {
    SilentTokens(Space, ListChain(bs[1..]), e + 1);
  }

  lemma {:induction false} ListTokens(bs: seq<Binding>, d: nat)
    ensures var ts := ChainTokens(ListChain(bs), d); ListAt(ts, 0, |ts|, bs)
    decreases |bs|
  {
    if bs != [] {
      SpecTokens(bs[0], d);
      if |bs| > 1 {
        var sp := SpecChain(bs[0]);
        var e := d + |Text(sp)|;
        TokensConcat(sp, MoreChain(bs), d);
        MoreTokens(bs, e);
        ListTokens(bs[1..], e + 2);
        ListJoinAt(ChainTokens(sp, d), ChainTokens(ListChain(bs[1..]), e + 2), e, bs);
      }
    }
  }

  /** A specifier's tokens, a comma and the tokens of the rest of the list. */
  lemma {:induction false} ListJoinAt(a: seq<Token>, r: seq<Token>, e: nat, bs: seq<Binding>)
    requires |bs| > 1 && |a| == SpecWidth(bs[0]) && SpecAt(a, 0, bs[0]) && ListAt(r, 0, |r|, bs[1..])
    ensures var ts := a + ([Punct(',', e)] + r); ListAt(ts, 0, |ts|, bs)
  {
    var ts := a + ([Punct(',', e)] + r);
    ConcatInside(a, Punct(',', e), r);
    ListMoved(r, ts, |a| + 1, 0, |r|, bs[1..]);
    SpecMoved(a, ts, bs[0]);
    ListCons(ts, 0, |ts|, bs);
  }

  lemma ConcatInside(a: seq<Token>, x: Token, r: seq<Token>)
    ensures var ts := a + ([x] + r);
      && |ts| == |a| + 1 + |r| && Inside(ts, 0, a) && ts[|a|] == x && Inside(ts, |a| + 1, r)
  {
    var ts := a + ([x] + r);
    forall k | 0 <= k < |r| ensures ts[|a| + 1 + k] == r[k] {
      assert ([x] + r)[1 + k] == r[k];
    }
  }

  /** The list predicate, from its first specifier and the rest. */
  lemma ListCons(z: seq<Token>, i: nat, j: nat, bs: seq<Binding>)
    requires |bs| > 1 && j <= |z| && SpecAt(z, i, bs[0]) && i + SpecWidth(bs[0]) < j
    requires IsPunct(z[i + SpecWidth(bs[0])], ',') && ListAt(z, i + SpecWidth(bs[0]) + 1, j, bs[1..])
    ensures ListAt(z, i, j, bs)
  {
  }

  lemma SpecMoved(y: seq<Token>, z: seq<Token>, b0: Binding)
    requires SpecAt(y, 0, b0) && Inside(z, 0, y)
    ensures SpecAt(z, 0, b0)
  {
    assert z[0] == y[0];
    if SpecWidth(b0) == 3 {
      assert z[1] == y[1] && z[2] == y[2];
    }
  }

  lemma TailTokens(m: string, e: nat)
    ensures var ts := ChainTokens(Concat(Closing('\'', m), Terminator), e);
      |ts| == 4 && IsPunct(ts[0], '}') && IsWord(ts[1], "from") && ts[2].Str? && IsPunct(ts[3], ';')
  {
    var c := Closing('\'', m);
    var f := e + |Text(c)|;
    TokensConcat(c, Terminator, e);
    ClosingTokens('\'', m, e);
    SilentTokens(LineBreak, Stop, f + 1);
    assert ChainTokens(Terminator, f) == [Punct(';', f)];
  }

  lemma HeadTokens(body: Chain, d: nat)
    ensures ChainTokens(Then(Ident("import"), Then(Space, Then(Mark('{'), Then(Space, body)))), d)
      == [Word("import", d), Punct('{', d + 7)] + ChainTokens(body, d + 9)
  {
    var c3 := Then(Space, body);
    var c2 := Then(Mark('{'), c3);
    SilentTokens(Space, body, d + 8);
    SilentTokens(Space, c2, d + 6);
  }

  lemma StatementShape(d: nat, lt: seq<Token>, tt: seq<Token>, bs: seq<Binding>)
    requires ListAt(lt, 0, |lt|, bs)
    requires |tt| == 4 && IsPunct(tt[0], '}') && IsWord(tt[1], "from") && tt[2].Str? && IsPunct(tt[3], ';')
    ensures var st := [Word("import", d), Punct('{', d + 7)] + (lt + tt); StatementAt(st, |st|, bs)
  {
    var st := [Word("import", d), Punct('{', d + 7)] + (lt + tt);
    assert Inside(st, 2, lt);
    ListMoved(lt, st, 2, 0, |lt|, bs);
    assert st[|st| - 4..] == tt;
  }

  /** The tokens of a statement chain, wherever it starts. */
  lemma StatementTokens(m: string, bs: seq<Binding>, d: nat)
    ensures var st := ChainTokens(StatementChain(m, bs), d); StatementAt(st, |st|, bs)
  {
    var tail := Concat(Closing('\'', m), Terminator);
    var body := Concat(ListChain(bs), tail);
    var e := d + 9 + |Text(ListChain(bs))|;
    var lt, tt := ChainTokens(ListChain(bs), d + 9), ChainTokens(tail, e);
    HeadTokens(body, d);
    TokensConcat(ListChain(bs), tail, d + 9);
    assert ChainTokens(body, d + 9) == lt + tt;
    ListTokens(bs, d + 9);
    TailTokens(m, e);
    StatementShape(d, lt, tt, bs);
  }

  // ---- What the analysis finds in a new statement

  /** A specifier list holds only identifier words and commas. */
  lemma {:induction false} ListWords(z: seq<Token>, i: nat, j: nat, bs: seq<Binding>)
    requires ListAt(z, i, j, bs)
    ensures forall k :: i <= k < j ==> z[k].Word? || IsPunct(z[k], ',')
    decreases |bs|
  {
    if bs != [] && |bs| > 1 {
      ListWords(z, i + SpecWidth(bs[0]) + 1, j, bs[1..]);
    }
  }

  /** Clause tokens lead up to the `from` at `j`, which a literal follows. */
  lemma {:induction false} FromSkip(toks: seq<Token>, i: nat, j: nat)
    requires i <= j && j + 1 < |toks| && IsWord(toks[j], "from") && toks[j + 1].Str?
    requires forall k :: i <= k < j ==> InClause(toks[k])
    ensures FromIndex(toks, i) == Some(j)
    decreases j - i
  {
    if i < j {
      FromSkip(toks, i + 1, j);
    }
  }

  /** The names a specifier list binds, when a `}` closes it: the final names, in order. */
  lemma {:induction false} LocalsList(z: seq<Token>, i: nat, j: nat, bs: seq<Binding>)
    requires ListAt(z, i, j, bs) && j + 1 < |z| && IsPunct(z[j], '}')
    ensures Locals(z, i, j + 1) == FinalNames(bs)
    decreases |bs|
  {
    if bs != [] {
      var w := SpecWidth(bs[0]);
      if |bs| == 1 {
        assert Locals(z, j, j + 1) == [];
      } else {
        LocalsList(z, i + w + 1, j, bs[1..]);
        assert Locals(z, i + w, j + 1) == Locals(z, i + w + 1, j + 1);
      }
      SpecLocals(z, i, j, bs[0]);
      assert FinalNames(bs) == [FinalName(bs[0])] + FinalNames(bs[1..]);
    }
  }

  /** One specifier, followed by `,` or `}`, binds its final name. */
  lemma SpecLocals(z: seq<Token>, i: nat, j: nat, b: Binding)
    requires SpecAt(z, i, b) && i + SpecWidth(b) <= j < |z| - 1
    requires IsPunct(z[i + SpecWidth(b)], ',') || IsPunct(z[i + SpecWidth(b)], '}')
    ensures Locals(z, i, j + 1) == [FinalName(b)] + Locals(z, i + SpecWidth(b), j + 1)
  {
    if SpecWidth(b) == 3 {
      assert Locals(z, i + 2, j + 1) == [FinalName(b)] + Locals(z, i + 3, j + 1);
      assert Locals(z, i + 1, j + 1) == Locals(z, i + 2, j + 1);
    }
  }

  lemma StatementKindsAt(st: seq<Token>, bs: seq<Binding>, u: seq<Token>)
    requires StatementAt(st, |st|, bs)
    ensures StatementAt(st + u, |st|, bs) && Behind(st + u, |st|, u)
  {
    var z := st + u;
    assert Inside(z, 0, st);
    ListMoved(st, z, 0, 2, |st| - 4, bs);
  }

  /** The declaration a new statement is read as. */
  lemma StatementDecl(z: seq<Token>, n: nat, bs: seq<Binding>)
    requires StatementAt(z, n, bs)
    ensures var found := DeclAt(z, 0);
      && found.Some? && found.value.ImportFound? && found.value.next == n - 1
      && found.value.decl.locals == FinalNames(bs)
  {
    var f := n - 3;
    ListWords(z, 2, n - 4, bs);
    FromSkip(z, 1, f);
    LocalsList(z, 2, n - 4, bs);
    assert Locals(z, 1, f) == Locals(z, 2, f);
    assert BraceIndex(z, 1, f) == Some(1);
  }

  /** The analysis of tokens that open with a new statement: its declaration, then the analysis after it. */
  lemma StatementReads(z: seq<Token>, n: nat, bs: seq<Binding>) returns (d: ImportDecl)
    requires StatementAt(z, n, bs)
    ensures d.locals == FinalNames(bs)
    ensures AnalyzeFrom(z, 0) == Analysis([d] + AnalyzeFrom(z, n).imports, AnalyzeFrom(z, n).uses)
  {
    StatementDecl(z, n, bs);
    d := DeclAt(z, 0).value.decl;
    assert DeclAt(z, n - 1).None?;
    assert AnalyzeFrom(z, n - 1) == AnalyzeFrom(z, n);
  }

  /**
   * A new statement in front of any tokens is read as one import declaration
   * binding the statement's final names; the analysis of what follows is
   * unchanged.
   */
  lemma StatementAnalysis(st: seq<Token>, bs: seq<Binding>, u: seq<Token>)
    requires StatementAt(st, |st|, bs)
    ensures var a, r := AnalyzeFrom(st + u, 0), AnalyzeFrom(u, 0);
      && a.uses == r.uses && |a.imports| == |r.imports| + 1
      && a.imports[0].locals == FinalNames(bs) && a.imports[1..] == r.imports
  {
    var z := st + u;
    StatementKindsAt(st, bs, u);
    var d := StatementReads(z, |st|, bs);
    AnalyzePrefix(z, |st|, u, 0);
    var r := AnalyzeFrom(u, 0);
    assert AnalyzeFrom(z, 0) == Analysis([d] + r.imports, r.uses);
    assert ([d] + r.imports)[1..] == r.imports;
  }

  // ---- The analysis of the new statements in front of the old text

  /** Moving an analysis along keeps the names it uses and the names it finds bound. */
  lemma ShiftNames(a: Analysis, n: nat)
    ensures UsedNames(ShiftAnalysis(a, n).uses) == UsedNames(a.uses)
    ensures ProvidedNames(ShiftAnalysis(a, n).imports) == ProvidedNames(a.imports)
  {
    var b := ShiftAnalysis(a, n);
    forall x | x in UsedNames(a.uses) ensures x in UsedNames(b.uses) {
      var u :| u in a.uses && u.name == x;
      var i :| 0 <= i < |a.uses| && a.uses[i] == u;
      assert b.uses[i].name == x;
    }
    forall x | x in ProvidedNames(a.imports) ensures x in ProvidedNames(b.imports) {
      var d :| d in a.imports && x in d.locals;
      var i :| 0 <= i < |a.imports| && a.imports[i] == d;
      assert b.imports[i].locals == d.locals;
    }
    forall x | x in ProvidedNames(b.imports) ensures x in ProvidedNames(a.imports) {
      var d :| d in b.imports && x in d.locals;
      var i :| 0 <= i < |b.imports| && b.imports[i] == d;
      assert a.imports[i] in a.imports;
    }
  }

  lemma ProvidedCons(ds: seq<ImportDecl>)
    requires ds != []
    ensures ProvidedNames(ds) == (set x | x in ds[0].locals) + ProvidedNames(ds[1..])
  {
    forall x | x in ProvidedNames(ds) ensures x in ds[0].locals || x in ProvidedNames(ds[1..]) {
      var d :| d in ds && x in d.locals;
      var i :| 0 <= i < |ds| && ds[i] == d;
      if i > 0 {
        assert ds[1..][i - 1] == d;
      }
    }
    forall x | x in ProvidedNames(ds[1..]) ensures x in ProvidedNames(ds) {
      var d :| d in ds[1..] && x in d.locals;
      assert d in ds;
    }
    assert ds[0] in ds;
  }

  /** Text that opens with a whole chain is scanned as the chain, then as the rest moved along. */
  lemma FrontTokens(c: Chain, rest: string)
    requires ChainOk(c, true) && AfterAll(c, true) == true
    requires Text(c) != [] && Text(c)[|Text(c)| - 1] == '\n'
    ensures Tokens(Text(c) + rest) == ChainTokens(c, 0) + ShiftTokens(Tokens(rest), |Text(c)|)
  {
    ChainLex(c, true);
    assert WellFormed(rest, Start);
    assert Lexes(rest, Start, Tokens(rest), End(rest, Start));
    Glue(Text(c), rest, Start, ChainTokens(c, 0), ScanState(|Text(c)|, Code, [], true), Tokens(rest), End(rest, Start));
  }

  /**
   * One new statement in front of a text: the names used are those of the
   * text, and the names bound are the statement's final names and those the
   * text binds.
   */
  lemma StatementFront(m: string, bs: seq<Binding>, rest: string)
    requires bs != [] && (forall b :: b in bs ==> Writable(b)) && Quotable('\'', m)
    ensures var a, r := Analyze(Statement(m, SpecifierTexts(bs)) + "\n" + rest), Analyze(rest);
      && UsedNames(a.uses) == UsedNames(r.uses)
      && ProvidedNames(a.imports) == (set x | x in FinalNames(bs)) + ProvidedNames(r.imports)
  {
    var c := StatementChain(m, bs);
    StatementFacts(m, bs, true);
    var n := |Text(c)|;
    FrontTokens(c, rest);
    StatementTokens(m, bs, 0);
    var u := ShiftTokens(Tokens(rest), n);
    StatementAnalysis(ChainTokens(c, 0), bs, u);
    AnalyzeShift(u, Tokens(rest), n, 0);
    ShiftNames(Analyze(rest), n);
    ProvidedCons(AnalyzeFrom(ChainTokens(c, 0) + u, 0).imports);
  }

  /** Every module of `ms` gets a statement that can be written. */
  predicate WritableBlock(pending: seq<Binding>, ms: seq<string>) {
    forall m :: m in ms ==>
      && Members(pending, m) != [] && Quotable('\'', m)
      && forall b :: b in Members(pending, m) ==> Writable(b)
  }

  /** Every binding of `bs` has its final name in `names`. */
  predicate Binds(names: set<string>, bs: seq<Binding>) {
    forall b :: b in bs ==> FinalName(b) in names
  }

  lemma FinalNamesBind(bs: seq<Binding>, names: set<string>)
    requires (set x | x in FinalNames(bs)) <= names
    ensures Binds(names, bs)
  {
    forall b | b in bs ensures FinalName(b) in names {
      var i :| 0 <= i < |bs| && bs[i] == b;
      assert FinalNames(bs)[i] == FinalName(b);
    }
  }

  /** The first statement of a block, then the rest of the block. */
  lemma BlockSplit(pending: seq<Binding>, ms: seq<string>, code: string)
    requires ms != []
    ensures Block(pending, ms) + code
      == Statement(ms[0], SpecifierTexts(Members(pending, ms[0]))) + "\n" + (Block(pending, ms[1..]) + code)
  {
  }

  /**
   * The new statements in front of a text: the names used are those of the
   * text, the names the text binds stay bound, and every member of every
   * module in the block is bound.
   */
  lemma {:induction false} BlockAnalysis(pending: seq<Binding>, ms: seq<string>, code: string)
    requires WritableBlock(pending, ms)
    ensures var a, r := Analyze(Block(pending, ms) + code), Analyze(code);
      && UsedNames(a.uses) == UsedNames(r.uses)
      && ProvidedNames(r.imports) <= ProvidedNames(a.imports)
      && forall m :: m in ms ==> Binds(ProvidedNames(a.imports), Members(pending, m))
    decreases |ms|
  {
    if ms == [] {
      assert Block(pending, ms) + code == code;
    } else {
      var m := ms[0];
      var bs := Members(pending, m);
      var rest := Block(pending, ms[1..]) + code;
      BlockSplit(pending, ms, code);
      assert m in ms;
      StatementFront(m, bs, rest);
      BlockAnalysis(pending, ms[1..], code);
      var names := ProvidedNames(Analyze(Block(pending, ms) + code).imports);
      FinalNamesBind(bs, names);
      forall m' | m' in ms ensures Binds(names, Members(pending, m')) {
        if m' != m {
          assert m' in ms[1..];
        }
      }
    }
  }

  // ---- Running the injection twice

  /** Every pending binding's module gets a statement that can be written. */
  lemma PendingWritable(cfg: Config, a: Analysis)
    requires forall b :: b in cfg.imports ==> Writable(b)
    ensures var pending := Pending(Register(cfg.imports), a);
      && (forall b :: b in pending ==> b in Members(pending, b.from) && b.from in Modules(pending))
      && WritableBlock(pending, Modules(pending))
  {
    var pending := Pending(Register(cfg.imports), a);
    PendingExactly(Register(cfg.imports), a);
    RegisterDistinct(cfg.imports);
    ModulesExactly(pending);
    forall b | b in pending ensures b in Members(pending, b.from) {
      MembersExactly(pending, b.from);
    }
    forall m | m in Modules(pending)
      ensures Members(pending, m) != [] && Quotable('\'', m) && forall b :: b in Members(pending, m) ==> Writable(b)
    {
      MembersExactly(pending, m);
      var b :| b in pending && b.from == m;
      assert b in Members(pending, m);
    }
  }

  /**
   * With the default placement and no merging, a second run over the output
   * of a first finds nothing pending and leaves the text as it is: every
   * binding the first run injected is bound by its new statement, and the
   * new statements add no occurrence.
   */
  lemma TransformIdempotent(cfg: Config, code: string)
    requires !cfg.injectAtEnd && !cfg.mergeExisting
    requires forall b :: b in cfg.imports ==> Writable(b)
    ensures var once := Transform(cfg, code);
      Transform(cfg, once.code) == Injection(once.code, [])
  {
    var a := Analyze(code);
    var registry := Register(cfg.imports);
    var pending := Pending(registry, a);
    if pending == [] {
      InjectNothing(code, a, false, false);
    } else {
      ImportBounds(code);
      InjectAtTop(code, a, pending, false);
      var code2 := Block(pending, Modules(pending)) + code;
      assert Transform(cfg, code).code == code2;
      PendingWritable(cfg, a);
      BlockAnalysis(pending, Modules(pending), code);
      var a2 := Analyze(code2);
      PendingExactly(registry, a);
      forall j | 0 <= j < |registry| ensures !Wanted(registry[j], a2) {
        var b := registry[j];
        if FinalName(b) in UsedNames(a2.uses) && FinalName(b) !in ProvidedNames(a.imports) {
          assert b in pending;
          assert Binds(ProvidedNames(a2.imports), Members(pending, b.from));
        }
      }
      PendingNone(registry, a2);
      InjectNothing(code2, a2, false, false);
    }
  }
}
