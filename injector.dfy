/**
 * The injector: turns the pending bindings into text edits and applies them.
 * Pending bindings are grouped by module; a group either becomes one new
 * `import { ... } from '...';` statement or, with merging enabled, is spliced
 * into an existing `import { ... }` declaration of the same module. New
 * statements go at the top of the text or, with at-end placement, right after
 * the last import declaration that ends before the first use. All edits are
 * insertions keyed by offsets of the unmodified text.
 */
module Injector {
  import opened Lexer
  import opened Declarations
  import opened Resolver

  /** `items` separated by `sep`. */
  function Join(items: seq<string>, sep: string): string
    decreases |items|
  {
    if items == [] then ""
    else if |items| == 1 then items[0]
    else items[0] + sep + Join(items[1..], sep)
  }

  /** How one binding is written inside `{ ... }`: its name, or `name as alias` when renamed. */
  function SpecifierText(b: Binding): string {
    if FinalName(b) == b.name then b.name else b.name + " as " + FinalName(b)
  }

  function SpecifierTexts(bs: seq<Binding>): (r: seq<string>)
    ensures |r| == |bs| && forall i :: 0 <= i < |bs| ==> r[i] == SpecifierText(bs[i])
  {
    if bs == [] then [] else [SpecifierText(bs[0])] + SpecifierTexts(bs[1..])
  }

  /** A new statement: braces padded with spaces, single quotes, a terminating semicolon. */
  function Statement(from: string, names: seq<string>): string {
    "import { " + Join(names, ", ") + " } from '" + from + "';"
  }

  /** The modules of the pending bindings, each once, in order of first appearance. */
  function Modules(pending: seq<Binding>): seq<string>
  {
    if pending == [] then []
    else
      var earlier := Modules(pending[..|pending| - 1]);
      var m := pending[|pending| - 1].from;
      if m in earlier then earlier else earlier + [m]
  }

  /** The pending bindings from module `m`, in pending order. */
  function Members(pending: seq<Binding>, m: string): seq<Binding>
  {
    if pending == [] then []
    else (if pending[0].from == m then [pending[0]] else []) + Members(pending[1..], m)
  }

  /** The first existing import declaration of module `m` that has a `{ ... }` list. */
  function MergeTarget(imports: seq<ImportDecl>, m: string): (r: Option<ImportDecl>)
    ensures r.Some? ==> r.value in imports && r.value.specifier == m && r.value.named
    ensures r.None? ==> forall d :: d in imports ==> !(d.specifier == m && d.named)
  {
    if imports == [] then None
    else if imports[0].specifier == m && imports[0].named then Some(imports[0])
    else MergeTarget(imports[1..], m)
  }

  /** Whether module `m`'s group is spliced into an existing declaration. */
  predicate Merged(imports: seq<ImportDecl>, mergeExisting: bool, m: string) {
    mergeExisting && MergeTarget(imports, m).Some?
  }

  /** The modules that get a new statement, in order. */
  function FreshModules(modules: seq<string>, imports: seq<ImportDecl>, mergeExisting: bool): (r: seq<string>)
    ensures forall m :: m in r <==> m in modules && !Merged(imports, mergeExisting, m)
  {
    if modules == [] then []
    else
      (if Merged(imports, mergeExisting, modules[0]) then [] else [modules[0]])
      + FreshModules(modules[1..], imports, mergeExisting)
  }

  /** One new statement per module, each followed by a line break. */
  function Block(pending: seq<Binding>, modules: seq<string>): string
  {
    if modules == [] then ""
    else Statement(modules[0], SpecifierTexts(Members(pending, modules[0]))) + "\n" + Block(pending, modules[1..])
  }

  /** What is spliced right after the `{` of a merge target: ` a, b,`. */
  function MergeText(names: seq<string>): string {
    " " + Join(names, ", ") + ","
  }

  /** Insertions keyed by their offset in the unmodified text. */
  type Edits = map<nat, string>

  function Inserted(e: Edits, k: nat): string {
    if k in e then e[k] else ""
  }

  /** Adds an insertion at `at`, after any already recorded there. */
  function AddEdit(e: Edits, at: nat, t: string): Edits {
    if at in e then e[at := e[at] + t] else e[at := t]
  }

  /** The text from offset `k` on, with every insertion at an offset `>= k` in place. */
  function RenderFrom(text: string, e: Edits, k: nat): string
    requires k <= |text|
    decreases |text| - k
  {
    if k == |text| then Inserted(e, k)
    else Inserted(e, k) + [text[k]] + RenderFrom(text, e, k + 1)
  }

  /** All insertions applied at once, each at its offset in the unmodified text. */
  function Render(text: string, e: Edits): string {
    RenderFrom(text, e, 0)
  }

  /** The offset after the whitespace and semicolons that follow `i`. */
  function SkipTrail(text: string, i: nat): (r: nat)
    ensures i <= r && (i <= |text| ==> r <= |text|)
    decreases if i <= |text| then |text| - i else 0
  {
    if i < |text| && (IsSpace(text[i]) || text[i] == ';') then SkipTrail(text, i + 1) else i
  }

  /** Where an import declaration ends, trailing whitespace and semicolons included. */
  function DeclEnd(text: string, d: ImportDecl): nat {
    SkipTrail(text, d.literalEnd)
  }

  /** The offset of the first occurrence of any of `names`. */
  function FirstUse(uses: seq<Occurrence>, names: set<string>): Option<nat>
  {
    if uses == [] then None
    else if uses[0].name in names then Some(uses[0].at)
    else FirstUse(uses[1..], names)
  }

  /** The end of the last import declaration, in source order, that ends at or before `limit`. */
  function LastImportBefore(text: string, imports: seq<ImportDecl>, limit: nat): Option<nat>
  {
    if imports == [] then None
    else
      var later := LastImportBefore(text, imports[1..], limit);
      if later.Some? then later
      else if DeclEnd(text, imports[0]) <= limit then Some(DeclEnd(text, imports[0]))
      else None
  }

  /** The final names of the pending bindings. */
  function PendingNames(pending: seq<Binding>): set<string> {
    set b | b in pending :: FinalName(b)
  }

  /** `FirstUse` finds an occurrence exactly when one exists, and it is the earliest one. */
  lemma {:induction false} FirstUseFinds(uses: seq<Occurrence>, names: set<string>)
    ensures FirstUse(uses, names).Some? <==> exists u :: u in uses && u.name in names
    ensures FirstUse(uses, names).Some? ==> exists i :: (0 <= i < |uses| && uses[i].at == FirstUse(uses, names).value
      && uses[i].name in names && forall j :: 0 <= j < i ==> uses[j].name !in names)
    decreases |uses|
  {
    if uses != [] && uses[0].name !in names {
      FirstUseFinds(uses[1..], names);
      if FirstUse(uses, names).Some? {
        var i :| 0 <= i < |uses[1..]| && uses[1..][i].at == FirstUse(uses, names).value
          && uses[1..][i].name in names && forall j :: 0 <= j < i ==> uses[1..][j].name !in names;
        assert uses[i + 1].at == FirstUse(uses, names).value;
      }
      assert forall u :: u in uses <==> u == uses[0] || u in uses[1..];
    }
  }

  /**
   * `LastImportBefore` finds a declaration exactly when one ends at or before
   * the limit, and no later declaration in source order does.
   */
  lemma {:induction false} LastImportBeforeFinds(text: string, imports: seq<ImportDecl>, limit: nat)
    ensures LastImportBefore(text, imports, limit).None? <==> forall d :: d in imports ==> DeclEnd(text, d) > limit
    ensures LastImportBefore(text, imports, limit).Some? ==> exists i :: (0 <= i < |imports|
      && DeclEnd(text, imports[i]) == LastImportBefore(text, imports, limit).value <= limit
      && forall j :: i < j < |imports| ==> DeclEnd(text, imports[j]) > limit)
    decreases |imports|
  {
    if imports != [] {
      var r := LastImportBefore(text, imports, limit);
      LastImportBeforeFinds(text, imports[1..], limit);
      assert forall d :: d in imports <==> d == imports[0] || d in imports[1..];
      if LastImportBefore(text, imports[1..], limit).Some? {
        var i :| 0 <= i < |imports[1..]| && DeclEnd(text, imports[1..][i]) == r.value <= limit
          && forall j :: i < j < |imports[1..]| ==> DeclEnd(text, imports[1..][j]) > limit;
        assert DeclEnd(text, imports[i + 1]) == r.value;
        assert forall j :: i + 1 < j < |imports| ==> imports[j] == imports[1..][j - 1];
      }
    }
  }

  /** The splices of merged groups into their targets. */
  function MergeEdits(pending: seq<Binding>, modules: seq<string>, imports: seq<ImportDecl>): Edits
  {
    if modules == [] then map[]
    else
      var rest := MergeEdits(pending, modules[1..], imports);
      match MergeTarget(imports, modules[0])
      case None => rest
      case Some(d) => AddEdit(rest, d.braceEnd, MergeText(SpecifierTexts(Members(pending, modules[0]))))
  }

  /**
   * Where the new statements go and what is inserted there: at the top, or
   * with at-end placement after the last import declaration that ends before
   * the first use, set off by a blank line.
   */
  function Placement(text: string, a: Analysis, pending: seq<Binding>, injectAtEnd: bool, block: string): (nat, string)
  {
    if !injectAtEnd then (0, block)
    else match FirstUse(a.uses, PendingNames(pending))
      case None => (0, block)
      case Some(first) =>
        match LastImportBefore(text, a.imports, first)
        case None => (0, block)
        case Some(p) => (p, "\n" + block)
  }

  /** All edits for one call. */
  function EditsFor(text: string, a: Analysis, pending: seq<Binding>, mergeExisting: bool, injectAtEnd: bool): Edits
  {
    var modules := Modules(pending);
    var merges := if mergeExisting then MergeEdits(pending, modules, a.imports) else map[];
    var added := FreshModules(modules, a.imports, mergeExisting);
    if added == [] then merges
    else
      var place := Placement(text, a, pending, injectAtEnd, Block(pending, added));
      AddEdit(merges, place.0, place.1)
  }

  /** The rewritten text. */
  function Inject(text: string, a: Analysis, pending: seq<Binding>, mergeExisting: bool, injectAtEnd: bool): string
  {
    Render(text, EditsFor(text, a, pending, mergeExisting, injectAtEnd))
  }

  // ---- Grouping

  /** Module `m` has a pending binding before any binding of module `n`. */
  predicate SeenBefore(pending: seq<Binding>, m: string, n: string)
  {
    exists k :: 0 <= k < |pending| && pending[k].from == m && forall k' :: 0 <= k' <= k ==> pending[k'].from != n
  }

  /** Each module of a pending binding is listed exactly once, in the order of its first pending binding. */
  lemma ModulesExactly(pending: seq<Binding>)
    ensures Distinct(Modules(pending))
    ensures forall m :: m in Modules(pending) <==> exists b :: b in pending && b.from == m
    ensures forall i, j :: 0 <= i < j < |Modules(pending)| ==> SeenBefore(pending, Modules(pending)[i], Modules(pending)[j])
  {
    ModulesListed(pending);
    ModulesOrdered(pending);
  }

  lemma {:induction false} ModulesListed(pending: seq<Binding>)
    ensures Distinct(Modules(pending))
    ensures forall m :: m in Modules(pending) <==> exists b :: b in pending && b.from == m
    decreases |pending|
  {
    if pending != [] {
      var init := pending[..|pending| - 1];
      var last := pending[|pending| - 1];
      ModulesListed(init);
      assert pending == init + [last];
      assert forall b :: b in pending <==> b in init || b == last;
    }
  }

  lemma {:induction false} ModulesOrdered(pending: seq<Binding>)
    ensures forall i, j :: 0 <= i < j < |Modules(pending)| ==> SeenBefore(pending, Modules(pending)[i], Modules(pending)[j])
    decreases |pending|
  {
    if pending != [] {
      var init := pending[..|pending| - 1];
      var last := pending[|pending| - 1];
      ModulesOrdered(init);
      ModulesListed(init);
      var earlier := Modules(init);
      forall i, j | 0 <= i < j < |Modules(pending)|
        ensures SeenBefore(pending, Modules(pending)[i], Modules(pending)[j])
      {
        if j < |earlier| {
          SeenGrows(init, last, earlier[i], earlier[j]);
        } else {
          SeenBeforeNew(init, last, earlier[i]);
        }
        assert pending == init + [last];
      }
    }
  }

  /** An order between two modules survives a binding added at the end. */
  lemma SeenGrows(init: seq<Binding>, last: Binding, m: string, n: string)
    requires SeenBefore(init, m, n)
    ensures SeenBefore(init + [last], m, n)
  {
    var pending := init + [last];
    var k :| 0 <= k < |init| && init[k].from == m && forall k' :: 0 <= k' <= k ==> init[k'].from != n;
    assert pending[k] == init[k];
    forall k' | 0 <= k' <= k ensures pending[k'].from != n {
      assert pending[k'] == init[k'];
    }
  }

  /** A module already seen comes before the module of a binding added at the end that is new. */
  lemma SeenBeforeNew(init: seq<Binding>, last: Binding, m: string)
    requires forall x :: x in Modules(init) <==> exists b :: b in init && b.from == x
    requires m in Modules(init) && last.from !in Modules(init)
    ensures SeenBefore(init + [last], m, last.from)
  {
    var pending := init + [last];
    var b :| b in init && b.from == m;
    var k :| 0 <= k < |init| && init[k] == b;
    assert pending[k] == init[k];
    forall k' | 0 <= k' <= k ensures pending[k'].from != last.from {
      assert pending[k'] == init[k'];
      assert init[k'] in init;
    }
  }

  /** A module's group holds exactly the pending bindings from that module, in pending order. */
  lemma {:induction false} MembersExactly(pending: seq<Binding>, m: string)
    ensures Subsequence(Members(pending, m), pending)
    ensures forall b :: b in Members(pending, m) <==> b in pending && b.from == m
    decreases |pending|
  {
    if pending != [] {
      MembersExactly(pending[1..], m);
      var rest := Members(pending[1..], m);
      assert forall b :: b in pending <==> b == pending[0] || b in pending[1..];
      if pending[0].from == m {
        assert ([pending[0]] + rest)[1..] == rest;
      } else {
        assert Members(pending, m) == rest;
        SubsequenceSkip(rest, pending);
      }
    }
  }

  // ---- Rendering

  /** Offsets in `[k, p)` carry no insertion, so the text there is copied unchanged. */
  lemma {:induction false} RenderFromCopies(text: string, e: Edits, k: nat, p: nat)
    requires k <= p <= |text|
    requires forall j :: k <= j < p ==> j !in e
    ensures RenderFrom(text, e, k) == text[k..p] + RenderFrom(text, e, p)
    decreases p - k
  {
    if k < p {
      RenderFromCopies(text, e, k + 1, p);
      assert k !in e;
      assert RenderFrom(text, e, k) == [text[k]] + RenderFrom(text, e, k + 1);
      assert text[k..p] == [text[k]] + text[k + 1..p];
    }
  }

  /** With no insertions the text is unchanged. */
  lemma RenderNothing(text: string)
    ensures Render(text, map[]) == text
  {
    RenderFromCopies(text, map[], 0, |text|);
  }

  /** One insertion lands exactly at its offset. */
  lemma RenderOne(text: string, p: nat, t: string)
    requires p <= |text|
    ensures Render(text, map[p := t]) == text[..p] + t + text[p..]
  {
    var e := map[p := t];
    RenderFromCopies(text, e, 0, p);
    if p < |text| {
      RenderFromCopies(text, e, p + 1, |text|);
      assert text[p..] == [text[p]] + text[p + 1..];
    }
  }

  lemma {:induction false} SubsequencePrepend<T>(p: seq<T>, q: seq<T>, t: seq<T>)
    requires Subsequence(p, q)
    ensures Subsequence(p, t + q)
    decreases |t|
  {
    if t != [] {
      SubsequencePrepend(p, q, t[1..]);
      assert (t + q)[1..] == t[1..] + q;
      SubsequenceSkip(p, t + q);
    } else {
      assert t + q == q;
    }
  }

  /** Rendering only inserts: the unmodified text survives, in order, inside the result. */
  lemma {:induction false} RenderFromKeeps(text: string, e: Edits, k: nat)
    requires k <= |text|
    ensures Subsequence(text[k..], RenderFrom(text, e, k))
    decreases |text| - k
  {
    if k == |text| {
      assert text[k..] == [];
    } else {
      RenderFromKeeps(text, e, k + 1);
      var rest := RenderFrom(text, e, k + 1);
      assert ([text[k]] + rest)[1..] == rest;
      assert text[k..] == [text[k]] + text[k + 1..];
      assert Subsequence([text[k]] + text[k + 1..], [text[k]] + rest);
      SubsequencePrepend(text[k..], [text[k]] + rest, Inserted(e, k));
      assert RenderFrom(text, e, k) == Inserted(e, k) + ([text[k]] + rest);
    }
  }

  // ---- The rewritten text

  /** The recorded offsets of the analysed declarations lie inside `text`. */
  predicate Bounded(text: string, a: Analysis) {
    forall d :: d in a.imports ==> d.literalEnd <= |text| && d.braceEnd <= |text|
  }

  /** The injector never deletes or reorders the original text. */
  lemma InjectOnlyInserts(text: string, a: Analysis, pending: seq<Binding>, mergeExisting: bool, injectAtEnd: bool)
    ensures Subsequence(text, Inject(text, a, pending, mergeExisting, injectAtEnd))
  {
    RenderFromKeeps(text, EditsFor(text, a, pending, mergeExisting, injectAtEnd), 0);
    assert text[0..] == text;
  }

  /** Nothing pending: the text comes back unchanged. */
  lemma InjectNothing(text: string, a: Analysis, mergeExisting: bool, injectAtEnd: bool)
    ensures Inject(text, a, [], mergeExisting, injectAtEnd) == text
  {
    RenderNothing(text);
  }

  lemma {:induction false} FreshModulesAll(modules: seq<string>, imports: seq<ImportDecl>, mergeExisting: bool)
    requires forall m :: m in modules ==> !Merged(imports, mergeExisting, m)
    ensures FreshModules(modules, imports, mergeExisting) == modules
    decreases |modules|
  {
    if modules != [] {
      FreshModulesAll(modules[1..], imports, mergeExisting);
    }
  }

  lemma {:induction false} MergeEditsNone(pending: seq<Binding>, modules: seq<string>, imports: seq<ImportDecl>)
    requires forall m :: m in modules ==> MergeTarget(imports, m).None?
    ensures MergeEdits(pending, modules, imports) == map[]
    decreases |modules|
  {
    if modules != [] {
      MergeEditsNone(pending, modules[1..], imports);
    }
  }

  /** No group is merged: the statements go where the placement puts them and nothing else changes. */
  lemma InjectNew(text: string, a: Analysis, pending: seq<Binding>, mergeExisting: bool, injectAtEnd: bool)
    requires Bounded(text, a) && pending != []
    requires forall m :: m in Modules(pending) ==> !Merged(a.imports, mergeExisting, m)
    ensures var place := Placement(text, a, pending, injectAtEnd, Block(pending, Modules(pending)));
      && place.0 <= |text|
      && Inject(text, a, pending, mergeExisting, injectAtEnd) == text[..place.0] + place.1 + text[place.0..]
  {
    var modules := Modules(pending);
    ModulesExactly(pending);
    assert pending[0] in pending;
    assert modules != [];
    FreshModulesAll(modules, a.imports, mergeExisting);
    if mergeExisting {
      MergeEditsNone(pending, modules, a.imports);
    }
    var place := Placement(text, a, pending, injectAtEnd, Block(pending, modules));
    if place.0 != 0 {
      var first := FirstUse(a.uses, PendingNames(pending)).value;
      LastImportBeforeFinds(text, a.imports, first);
      var i :| 0 <= i < |a.imports| && DeclEnd(text, a.imports[i]) == LastImportBefore(text, a.imports, first).value;
      assert a.imports[i] in a.imports;
    }
    assert AddEdit(map[], place.0, place.1) == map[place.0 := place.1];
    RenderOne(text, place.0, place.1);
  }

  lemma InsertAtZero(text: string, t: string)
    ensures text[..0] + t + text[0..] == t + text
  {
    assert text[..0] == [] && text[0..] == text;
  }

  /** Default placement: the new statements open the text. */
  lemma InjectAtTop(text: string, a: Analysis, pending: seq<Binding>, mergeExisting: bool)
    requires Bounded(text, a) && pending != []
    requires forall m :: m in Modules(pending) ==> !Merged(a.imports, mergeExisting, m)
    ensures Inject(text, a, pending, mergeExisting, false) == Block(pending, Modules(pending)) + text
  {
    var block := Block(pending, Modules(pending));
    assert Placement(text, a, pending, false, block) == (0, block);
    InjectNew(text, a, pending, mergeExisting, false);
    InsertAtZero(text, block);
  }

  /**
   * At-end placement: the new statements follow, after a line break, the end
   * of the last import declaration that ends before the first occurrence of
   * any pending name; with no such declaration they open the text.
   */
  lemma InjectAfterImports(text: string, a: Analysis, pending: seq<Binding>, mergeExisting: bool)
    requires Bounded(text, a) && pending != []
    requires forall m :: m in Modules(pending) ==> !Merged(a.imports, mergeExisting, m)
    ensures var first := FirstUse(a.uses, PendingNames(pending));
      var out := Inject(text, a, pending, mergeExisting, true);
      var block := Block(pending, Modules(pending));
      if first.Some? && LastImportBefore(text, a.imports, first.value).Some? then
        var p := LastImportBefore(text, a.imports, first.value).value;
        p <= |text| && out == text[..p] + "\n" + block + text[p..]
      else out == block + text
  {
    InjectNew(text, a, pending, mergeExisting, true);
    var first := FirstUse(a.uses, PendingNames(pending));
    if first.Some? && LastImportBefore(text, a.imports, first.value).Some? {
      var p := LastImportBefore(text, a.imports, first.value).value;
      InsertAfterBreak(text[..p], Block(pending, Modules(pending)), text[p..]);
    } else {
      InsertAtZero(text, Block(pending, Modules(pending)));
    }
  }

  lemma InsertAfterBreak(x: string, t: string, y: string)
    ensures x + ("\n" + t) + y == x + "\n" + t + y
  {
  }

  lemma {:induction false} MembersAll(pending: seq<Binding>, m: string)
    requires forall b :: b in pending ==> b.from == m
    ensures Members(pending, m) == pending
    decreases |pending|
  {
    if pending != [] {
      MembersAll(pending[1..], m);
    }
  }

  lemma ModulesOfOne(pending: seq<Binding>, m: string)
    requires pending != [] && forall b :: b in pending ==> b.from == m
    ensures Modules(pending) == [m]
  {
    ModulesExactly(pending);
    assert pending[0] in pending;
    var modules := Modules(pending);
    assert m in modules;
  }

  lemma MergeOnlyEdits(text: string, a: Analysis, pending: seq<Binding>, m: string, injectAtEnd: bool)
    requires pending != [] && forall b :: b in pending ==> b.from == m
    requires MergeTarget(a.imports, m).Some?
    ensures EditsFor(text, a, pending, true, injectAtEnd)
         == map[MergeTarget(a.imports, m).value.braceEnd := MergeText(SpecifierTexts(pending))]
  {
    ModulesOfOne(pending, m);
    MembersAll(pending, m);
    var modules := Modules(pending);
    assert FreshModules(modules, a.imports, true) == [];
    assert MergeEdits(pending, modules[1..], a.imports) == map[];
  }

  /**
   * Merging: when every pending binding comes from one module that already has
   * a `{ ... }` import, the names are spliced right after its `{`, before the
   * names already there, and no statement is added.
   */
  lemma InjectMerge(text: string, a: Analysis, pending: seq<Binding>, m: string, injectAtEnd: bool)
    requires Bounded(text, a) && pending != []
    requires forall b :: b in pending ==> b.from == m
    requires MergeTarget(a.imports, m).Some?
    ensures var at := MergeTarget(a.imports, m).value.braceEnd;
      && at <= |text|
      && Inject(text, a, pending, true, injectAtEnd) == text[..at] + MergeText(SpecifierTexts(pending)) + text[at..]
  {
    MergeOnlyEdits(text, a, pending, m, injectAtEnd);
    RenderOne(text, MergeTarget(a.imports, m).value.braceEnd, MergeText(SpecifierTexts(pending)));
  }

  // ---- The edits in general

  /**
   * The analysed declarations lie apart in `text`: inside it, in source order,
   * each named one with its `{` after its keyword and before its literal, and
   * each starting at a character that is neither blank nor `;`.
   */
  predicate Apart(text: string, a: Analysis) {
    && Bounded(text, a)
    && InSourceOrder(a.imports)
    && (forall d :: d in a.imports ==> d.start < d.literalEnd && (d.named ==> d.start < d.braceEnd < d.literalEnd))
    && (forall d :: d in a.imports ==> d.start < |text| && !IsSpace(text[d.start]) && text[d.start] != ';')
  }

  /** The analysis of a text has its declarations apart. */
  lemma AnalysisApart(code: string)
    ensures Apart(code, Analyze(code))
  {
    ImportBounds(code);
    ImportsApart(code);
  }

  /** Skipping blanks and semicolons stops at the first other character. */
  lemma {:induction false} SkipTrailStops(text: string, i: nat, j: nat)
    requires i <= j < |text| && !IsSpace(text[j]) && text[j] != ';'
    ensures SkipTrail(text, i) <= j
    decreases j - i
  {
    if i < j && (IsSpace(text[i]) || text[i] == ';') {
      SkipTrailStops(text, i + 1, j);
    }
  }

  /** The `{` of a named declaration lies strictly before the end of every declaration from it on, and after the end of every earlier one. */
  lemma BraceApart(text: string, a: Analysis, x: nat, y: nat)
    requires Apart(text, a) && x < |a.imports| && y < |a.imports| && a.imports[y].named
    ensures 0 < a.imports[y].braceEnd
    ensures a.imports[y].braceEnd != DeclEnd(text, a.imports[x])
    ensures x != y && a.imports[x].named ==> a.imports[x].braceEnd != a.imports[y].braceEnd
  {
    var dx, dy := a.imports[x], a.imports[y];
    assert dx in a.imports && dy in a.imports;
    if x < y {
      SkipTrailStops(text, dx.literalEnd, dy.start);
    }
  }

  /** Different modules have different merge targets, at different offsets. */
  lemma MergeKeysDiffer(text: string, a: Analysis, m1: string, m2: string)
    requires Apart(text, a) && m1 != m2
    requires MergeTarget(a.imports, m1).Some? && MergeTarget(a.imports, m2).Some?
    ensures MergeTarget(a.imports, m1).value.braceEnd != MergeTarget(a.imports, m2).value.braceEnd
  {
    var d1, d2 := MergeTarget(a.imports, m1).value, MergeTarget(a.imports, m2).value;
    var x :| 0 <= x < |a.imports| && a.imports[x] == d1;
    var y :| 0 <= y < |a.imports| && a.imports[y] == d2;
    BraceApart(text, a, x, y);
  }

  /** The offset of a module's splice. */
  function MergeKey(imports: seq<ImportDecl>, m: string): nat
    requires MergeTarget(imports, m).Some?
  {
    MergeTarget(imports, m).value.braceEnd
  }

  /** Different modules of `modules` that have merge targets have them at different offsets. */
  predicate KeysApart(imports: seq<ImportDecl>, modules: seq<string>) {
    forall m1, m2 :: m1 in modules && m2 in modules && m1 != m2 && MergeTarget(imports, m1).Some? && MergeTarget(imports, m2).Some?
      ==> MergeKey(imports, m1) != MergeKey(imports, m2)
  }

  /** `e` splices each module of `modules` that has a merge target into it, and holds nothing else. */
  predicate SplicesExactly(e: Edits, pending: seq<Binding>, modules: seq<string>, imports: seq<ImportDecl>) {
    && (forall m :: m in modules && MergeTarget(imports, m).Some? ==>
          MergeKey(imports, m) in e && e[MergeKey(imports, m)] == MergeText(SpecifierTexts(Members(pending, m))))
    && (forall k :: k in e ==> exists m :: m in modules && MergeTarget(imports, m).Some? && k == MergeKey(imports, m))
  }

  /** With distinct modules and distinct targets, each merged module gets its own splice and there is no other. */
  lemma {:induction false} MergeEditsExactly(pending: seq<Binding>, modules: seq<string>, imports: seq<ImportDecl>)
    requires Distinct(modules) && KeysApart(imports, modules)
    ensures SplicesExactly(MergeEdits(pending, modules, imports), pending, modules, imports)
    decreases |modules|
  {
    if modules != [] {
      var m0, rest := modules[0], modules[1..];
      assert forall m :: m in modules <==> m == m0 || m in rest;
      assert Distinct(rest) by {
        forall i, j | 0 <= i < j < |rest| ensures rest[i] != rest[j] {
          assert rest[i] == modules[i + 1] && rest[j] == modules[j + 1];
        }
      }
      assert m0 !in rest by {
        forall j | 0 <= j < |rest| ensures rest[j] != m0 {
          assert rest[j] == modules[j + 1];
        }
      }
      MergeEditsExactly(pending, rest, imports);
      var re := MergeEdits(pending, rest, imports);
      if MergeTarget(imports, m0).Some? {
        var k0 := MergeKey(imports, m0);
        assert k0 !in re;
        assert MergeEdits(pending, modules, imports) == re[k0 := MergeText(SpecifierTexts(Members(pending, m0)))];
      }
    }
  }

  /** The offset of the new statements lies inside the text and is not the offset of any `{`. */
  lemma PlacementApart(text: string, a: Analysis, pending: seq<Binding>, injectAtEnd: bool, block: string)
    requires Apart(text, a)
    ensures var p := Placement(text, a, pending, injectAtEnd, block).0;
      && p <= |text|
      && forall d :: d in a.imports && d.named ==> d.braceEnd != p
  {
    var p := Placement(text, a, pending, injectAtEnd, block).0;
    forall d | d in a.imports && d.named
      ensures d.braceEnd != p
    {
      var y :| 0 <= y < |a.imports| && a.imports[y] == d;
      if p != 0 {
        var first := FirstUse(a.uses, PendingNames(pending)).value;
        LastImportBeforeFinds(text, a.imports, first);
        var x :| 0 <= x < |a.imports| && DeclEnd(text, a.imports[x]) == p;
        BraceApart(text, a, x, y);
      } else {
        BraceApart(text, a, y, y);
      }
    }
    if p != 0 {
      var first := FirstUse(a.uses, PendingNames(pending)).value;
      LastImportBeforeFinds(text, a.imports, first);
      var x :| 0 <= x < |a.imports| && DeclEnd(text, a.imports[x]) == p;
      assert a.imports[x] in a.imports;
    }
  }

  /**
   * The edits of one call, in general: each merged module's names are spliced
   * right after the `{` of its first `{ ... }` import; when some module is not
   * merged, the block of new statements goes at the placement offset; and
   * nothing else is inserted anywhere.
   */
  lemma EditsForExactly(text: string, a: Analysis, pending: seq<Binding>, mergeExisting: bool, injectAtEnd: bool)
    requires Apart(text, a)
    ensures var e := EditsFor(text, a, pending, mergeExisting, injectAtEnd);
      var modules := Modules(pending);
      var added := FreshModules(modules, a.imports, mergeExisting);
      var place := Placement(text, a, pending, injectAtEnd, Block(pending, added));
      && (forall m :: m in modules && Merged(a.imports, mergeExisting, m) ==>
            MergeKey(a.imports, m) in e && e[MergeKey(a.imports, m)] == MergeText(SpecifierTexts(Members(pending, m))))
      && (added != [] ==> place.0 <= |text| && place.0 in e && e[place.0] == place.1)
      && (forall k :: k in e ==>
            (added != [] && k == place.0) || exists m :: m in modules && Merged(a.imports, mergeExisting, m) && k == MergeKey(a.imports, m))
  {
    var modules := Modules(pending);
    var added := FreshModules(modules, a.imports, mergeExisting);
    var place := Placement(text, a, pending, injectAtEnd, Block(pending, added));
    var merges := if mergeExisting then MergeEdits(pending, modules, a.imports) else map[];
    ModulesExactly(pending);
    if mergeExisting {
      forall m1, m2 | m1 in modules && m2 in modules && m1 != m2 && MergeTarget(a.imports, m1).Some? && MergeTarget(a.imports, m2).Some?
        ensures MergeKey(a.imports, m1) != MergeKey(a.imports, m2)
      {
        MergeKeysDiffer(text, a, m1, m2);
      }
      MergeEditsExactly(pending, modules, a.imports);
    }
    assert SplicesExactly(merges, pending, modules, a.imports) || (merges == map[] && !mergeExisting);
    if added != [] {
      PlacementApart(text, a, pending, injectAtEnd, Block(pending, added));
      assert place.0 !in merges;
      assert EditsFor(text, a, pending, mergeExisting, injectAtEnd) == merges[place.0 := place.1];
    }
  }
}
