/**
 * The binding registry and the usage resolver. The registry keeps the
 * configured catalog in registration order, a later entry replacing an
 * earlier one with the same final name. The resolver keeps the registered
 * bindings whose final name occurs in code and is not already bound by an
 * existing import declaration, in registration order.
 */
module Resolver {
  import opened Declarations

  /** A catalog entry `{ name, from, as? }`. */
  datatype Binding = Binding(name: string, from: string, alias: Option<string>)

  /** The identifier that must appear in code, and that the import binds: `as` if given, else `name`. */
  function FinalName(b: Binding): string {
    if b.alias.Some? then b.alias.value else b.name
  }

  /** The entry with `as` filled in, as the metadata records it. */
  function WithAlias(b: Binding): (r: Binding)
    ensures r.name == b.name && r.from == b.from && r.alias == Some(FinalName(b))
    ensures FinalName(r) == FinalName(b)
  {
    b.(alias := Some(FinalName(b)))
  }

  function FinalNames(bs: seq<Binding>): (r: seq<string>)
    ensures |r| == |bs| && forall i :: 0 <= i < |bs| ==> r[i] == FinalName(bs[i])
  {
    if bs == [] then [] else [FinalName(bs[0])] + FinalNames(bs[1..])
  }

  predicate Distinct<T(==)>(s: seq<T>) {
    forall i, j :: 0 <= i < j < |s| ==> s[i] != s[j]
  }

  /** No two bindings share a final name. */
  predicate DistinctNames(bs: seq<Binding>) {
    forall i, j :: 0 <= i < j < |bs| ==> FinalName(bs[i]) != FinalName(bs[j])
  }

  /** `p` is `r` with some elements left out, the rest in the same order. */
  predicate Subsequence<T(==)>(p: seq<T>, r: seq<T>)
    decreases |r|
  {
    if p == [] then true
    else if r == [] then false
    else if p[0] == r[0] then Subsequence(p[1..], r[1..])
    else Subsequence(p, r[1..])
  }

  /** The registry: the catalog with every entry dropped that a later entry of the same final name replaces. */
  function Register(catalog: seq<Binding>): (r: seq<Binding>)
  {
    if catalog == [] then []
    else if FinalName(catalog[0]) in FinalNames(catalog[1..]) then Register(catalog[1..])
    else [catalog[0]] + Register(catalog[1..])
  }

  /** No catalog entry after index `i` has the final name of the entry at `i`. */
  predicate LastOfName(catalog: seq<Binding>, i: nat)
    requires i < |catalog|
  {
    forall j :: i < j < |catalog| ==> FinalName(catalog[j]) != FinalName(catalog[i])
  }

  lemma LastOfNameHead(catalog: seq<Binding>)
    requires catalog != []
    ensures LastOfName(catalog, 0) <==> FinalName(catalog[0]) !in FinalNames(catalog[1..])
  {
    var rest := catalog[1..];
    if FinalName(catalog[0]) in FinalNames(rest) {
      var k :| 0 <= k < |rest| && FinalNames(rest)[k] == FinalName(catalog[0]);
      assert FinalName(catalog[k + 1]) == FinalName(catalog[0]);
    }
  }

  /** An entry is registered exactly when no later catalog entry has its final name. */
  lemma {:induction false} RegisterLastWins(catalog: seq<Binding>, b: Binding)
    ensures b in Register(catalog) <==> exists i :: 0 <= i < |catalog| && catalog[i] == b && LastOfName(catalog, i)
    decreases |catalog|
  {
    if catalog != [] {
      var rest := catalog[1..];
      RegisterLastWins(rest, b);
      LastOfNameHead(catalog);
      assert forall i :: 0 <= i < |rest| ==> (LastOfName(rest, i) <==> LastOfName(catalog, i + 1));
      if exists i :: 0 <= i < |catalog| && catalog[i] == b && LastOfName(catalog, i) {
        var i :| 0 <= i < |catalog| && catalog[i] == b && LastOfName(catalog, i);
        if i > 0 {
          assert rest[i - 1] == b && LastOfName(rest, i - 1);
        }
      }
      if b in Register(rest) {
        var i :| 0 <= i < |rest| && rest[i] == b && LastOfName(rest, i);
        assert catalog[i + 1] == b && LastOfName(catalog, i + 1);
      }
    }
  }

  /** No two registered entries share a final name. */
  lemma {:induction false} RegisterDistinct(catalog: seq<Binding>)
    ensures DistinctNames(Register(catalog))
    ensures Subsequence(Register(catalog), catalog)
    ensures forall b :: b in Register(catalog) ==> b in catalog
    decreases |catalog|
  {
    if catalog != [] {
      RegisterDistinct(catalog[1..]);
      var rest := Register(catalog[1..]);
      if FinalName(catalog[0]) !in FinalNames(catalog[1..]) {
        assert Register(catalog) == [catalog[0]] + rest;
        forall k | 0 <= k < |rest| ensures FinalName(rest[k]) != FinalName(catalog[0]) {
          assert rest[k] in catalog[1..];
          var m :| 0 <= m < |catalog[1..]| && catalog[1..][m] == rest[k];
          assert FinalNames(catalog[1..])[m] == FinalName(rest[k]);
        }
      } else {
        SubsequenceSkip(rest, catalog);
      }
    }
  }

  /** A catalog whose final names are all different is registered as it is. */
  lemma {:induction false} RegisterDistinctCatalog(catalog: seq<Binding>)
    requires DistinctNames(catalog)
    ensures Register(catalog) == catalog
    decreases |catalog|
  {
    if catalog != [] {
      var rest := catalog[1..];
      assert forall k :: 0 <= k < |rest| ==> rest[k] == catalog[k + 1];
      RegisterDistinctCatalog(rest);
    }
  }

  lemma {:induction false} SubsequenceSkip<T>(p: seq<T>, r: seq<T>)
    requires r != [] && Subsequence(p, r[1..])
    ensures Subsequence(p, r)
    decreases |p| + |r|
  {
    if p != [] && p[0] == r[0] {
      SubsequenceTail(p, r[1..]);
    }
  }

  lemma {:induction false} SubsequenceTail<T>(p: seq<T>, r: seq<T>)
    requires p != [] && Subsequence(p, r)
    ensures Subsequence(p[1..], r)
    decreases |p| + |r|
  {
    if r != [] {
      if p[0] == r[0] {
        SubsequenceSkip(p[1..], r);
      } else {
        SubsequenceTail(p, r[1..]);
        SubsequenceSkip(p[1..], r);
      }
    }
  }

  /** The names occurring in code. */
  function UsedNames(uses: seq<Occurrence>): set<string> {
    set u | u in uses :: u.name
  }

  /** The names already bound by existing import declarations, from whatever module. */
  function ProvidedNames(imports: seq<ImportDecl>): set<string> {
    set d, n | d in imports && n in d.locals :: n
  }

  /** The registered bindings to inject for one analysed text, in registration order. */
  function Pending(registry: seq<Binding>, a: Analysis): seq<Binding>
  {
    if registry == [] then []
    else
      var b := registry[0];
      var rest := Pending(registry[1..], a);
      if FinalName(b) in UsedNames(a.uses) && FinalName(b) !in ProvidedNames(a.imports) then [b] + rest else rest
  }

  /**
   * A registered binding is pending exactly when its final name occurs in
   * code and no existing import binds that name; the pending list keeps
   * registration order.
   */
  lemma {:induction false} PendingExactly(registry: seq<Binding>, a: Analysis)
    ensures forall b :: b in Pending(registry, a) <==>
      b in registry && FinalName(b) in UsedNames(a.uses) && FinalName(b) !in ProvidedNames(a.imports)
    ensures Subsequence(Pending(registry, a), registry)
    decreases |registry|
  {
    if registry != [] {
      PendingExactly(registry[1..], a);
      var b := registry[0];
      if !(FinalName(b) in UsedNames(a.uses) && FinalName(b) !in ProvidedNames(a.imports)) {
        SubsequenceSkip(Pending(registry[1..], a), registry);
      }
    }
  }

  /** Whether one registered binding is pending for an analysed text. */
  predicate Wanted(b: Binding, a: Analysis) {
    FinalName(b) in UsedNames(a.uses) && FinalName(b) !in ProvidedNames(a.imports)
  }

  /** When every registered binding is wanted, all of them are pending, in order. */
  lemma {:induction false} PendingAll(registry: seq<Binding>, a: Analysis)
    requires forall b :: b in registry ==> Wanted(b, a)
    ensures Pending(registry, a) == registry
    decreases |registry|
  {
    if registry != [] {
      assert registry[0] in registry;
      PendingAll(registry[1..], a);
    }
  }

  /** When exactly the entry at `i` is wanted, it alone is pending. */
  lemma {:induction false} PendingOne(registry: seq<Binding>, a: Analysis, i: nat)
    requires i < |registry|
    requires forall j :: 0 <= j < |registry| ==> (Wanted(registry[j], a) <==> j == i)
    ensures Pending(registry, a) == [registry[i]]
    decreases |registry|
  {
    var rest := registry[1..];
    if i == 0 {
      PendingNone(rest, a);
    } else {
      assert forall j :: 0 <= j < |rest| ==> rest[j] == registry[j + 1];
      PendingOne(rest, a, i - 1);
    }
  }

  /** When no registered binding is wanted, none is pending. */
  lemma {:induction false} PendingNone(registry: seq<Binding>, a: Analysis)
    requires forall j :: 0 <= j < |registry| ==> !Wanted(registry[j], a)
    ensures Pending(registry, a) == []
    decreases |registry|
  {
    if registry != [] {
      assert forall j :: 0 <= j < |registry[1..]| ==> registry[1..][j] == registry[j + 1];
      PendingNone(registry[1..], a);
    }
  }

  /** Pending bindings inherit the registry's distinct final names. */
  lemma PendingDistinct(registry: seq<Binding>, a: Analysis)
    requires DistinctNames(registry)
    ensures DistinctNames(Pending(registry, a))
  {
    PendingExactly(registry, a);
    SubsequenceDistinct(Pending(registry, a), registry);
  }

  lemma {:induction false} SubsequenceDistinct(p: seq<Binding>, r: seq<Binding>)
    requires Subsequence(p, r) && DistinctNames(r)
    ensures DistinctNames(p)
    ensures forall b :: b in p ==> b in r
    decreases |r|
  {
    if p != [] && r != [] {
      if p[0] == r[0] {
        SubsequenceDistinct(p[1..], r[1..]);
        assert forall b :: b in p[1..] ==> b in r;
        forall k | 1 <= k < |p| ensures FinalName(p[k]) != FinalName(p[0]) {
          assert p[1..][k - 1] in r[1..];
          var m :| 0 <= m < |r[1..]| && r[1..][m] == p[k];
          assert FinalNames(r)[m + 1] == FinalName(p[k]);
        }
      } else {
        SubsequenceDistinct(p, r[1..]);
      }
    }
  }
}
