/**
 * The injection context: a configuration resolved once, the registry built
 * from its catalog, and the usage ledger that `injectImports` updates when
 * metadata collection is on. `Transform` is the rewrite as the caller sees
 * it, a pure function of the configuration and the text.
 */
module Unimport {
  import opened Lexer
  import opened Declarations
  import opened Resolver
  import opened Injector

  /** The options, with every default stated by the caller. */
  datatype Config = Config(
    imports: seq<Binding>,   // the catalog, in registration order
    mergeExisting: bool,     // splice into an existing `{ ... }` import of the same module
    injectAtEnd: bool,       // place new statements after the imports that precede the first use
    collectMeta: bool)       // keep the usage ledger

  /** The options' defaults: all switches off. */
  function Defaults(imports: seq<Binding>): (c: Config)
    ensures c.imports == imports && !c.mergeExisting && !c.injectAtEnd && !c.collectMeta
  {
    Config(imports, false, false, false)
  }

  /** The rewritten text and the bindings it was given imports for. */
  datatype Injection = Injection(code: string, injected: seq<Binding>)

  /** One `injectImports` call as a function of the configuration and the text. */
  function Transform(cfg: Config, code: string): Injection {
    var a := Analyze(code);
    var pending := Pending(Register(cfg.imports), a);
    Injection(Inject(code, a, pending, cfg.mergeExisting, cfg.injectAtEnd), pending)
  }

  /** A ledger entry: the binding with `as` filled in, how many calls injected it, and from which modules. */
  datatype Usage = Usage(binding: Binding, count: nat, moduleIds: seq<string>)

  type Ledger = map<string, Usage>

  /** Every entry is keyed by its binding's `as`, counts at least one call, and lists each module once. */
  predicate LedgerValid(usage: Ledger) {
    forall k :: k in usage ==>
      && usage[k].binding.alias == Some(k)
      && usage[k].count >= 1
      && Distinct(usage[k].moduleIds)
  }

  /** The entry for `b`'s final name after one more call injected `b` from module `id`. */
  function RecordOne(usage: Ledger, b: Binding, id: Option<string>): Ledger
  {
    var key := FinalName(b);
    var before := if key in usage then usage[key] else Usage(WithAlias(b), 0, []);
    var ids := if id.Some? && id.value !in before.moduleIds then before.moduleIds + [id.value] else before.moduleIds;
    usage[key := Usage(before.binding, before.count + 1, ids)]
  }

  /**
   * One more call for `b`: only its final name's entry changes; a new entry
   * gets `as` filled in, the count grows by one and a new module is appended.
   */
  lemma RecordOneSpec(usage: Ledger, b: Binding, id: Option<string>)
    ensures RecordOne(usage, b, id).Keys == usage.Keys + {FinalName(b)}
    ensures forall k :: k in usage && k != FinalName(b) ==> RecordOne(usage, b, id)[k] == usage[k]
    ensures FinalName(b) !in usage ==> RecordOne(usage, b, id)[FinalName(b)].binding == WithAlias(b)
    ensures FinalName(b) in usage ==> RecordOne(usage, b, id)[FinalName(b)].binding == usage[FinalName(b)].binding
    ensures var before := if FinalName(b) in usage then usage[FinalName(b)] else Usage(WithAlias(b), 0, []);
      && RecordOne(usage, b, id)[FinalName(b)].count == before.count + 1
      && RecordOne(usage, b, id)[FinalName(b)].moduleIds ==
           if id.Some? && id.value !in before.moduleIds then before.moduleIds + [id.value] else before.moduleIds
    ensures LedgerValid(usage) ==> LedgerValid(RecordOne(usage, b, id))
  {
  }

  /** The ledger after one call that injected `injected` from module `id`. */
  function Record(usage: Ledger, injected: seq<Binding>, id: Option<string>): Ledger
    decreases |injected|
  {
    if injected == [] then usage
    else RecordOne(Record(usage, injected[..|injected| - 1], id), injected[|injected| - 1], id)
  }

  /** A call adds an entry for each injected name and keeps every other. */
  lemma {:induction false} RecordKeys(usage: Ledger, injected: seq<Binding>, id: Option<string>)
    ensures Record(usage, injected, id).Keys == usage.Keys + (set b | b in injected :: FinalName(b))
    decreases |injected|
  {
    if injected != [] {
      var init := injected[..|injected| - 1];
      RecordKeys(usage, init, id);
      RecordOneSpec(Record(usage, init, id), injected[|injected| - 1], id);
      assert forall b :: b in injected <==> b in init || b == injected[|injected| - 1];
    }
  }

  /** Recording one more binding extends the ledger by one `RecordOne`. */
  lemma RecordStep(usage: Ledger, injected: seq<Binding>, id: Option<string>, i: nat)
    requires i < |injected|
    ensures Record(usage, injected[..i + 1], id) == RecordOne(Record(usage, injected[..i], id), injected[i], id)
  {
    assert injected[..i + 1][..i] == injected[..i];
  }

  /** The ledger entry of `k` after a call, when `k` was injected in that call. */
  function Bumped(before: Option<Usage>, b: Binding, id: Option<string>): Usage {
    var e := if before.Some? then before.value else Usage(WithAlias(b), 0, []);
    Usage(e.binding, e.count + 1,
      if id.Some? && id.value !in e.moduleIds then e.moduleIds + [id.value] else e.moduleIds)
  }

  /** A call leaves the entry of every name it did not inject untouched. */
  lemma {:induction false} RecordOthers(usage: Ledger, injected: seq<Binding>, id: Option<string>, k: string)
    requires k in usage && forall b :: b in injected ==> FinalName(b) != k
    ensures k in Record(usage, injected, id) && Record(usage, injected, id)[k] == usage[k]
    decreases |injected|
  {
    if injected != [] {
      RecordOthers(usage, injected[..|injected| - 1], id, k);
      RecordOneSpec(Record(usage, injected[..|injected| - 1], id), injected[|injected| - 1], id);
    }
  }

  /**
   * A call counts each injected name once more, creating its entry with `as`
   * filled in when absent, and appends the call's module if it is new.
   */
  lemma {:induction false} RecordInjected(usage: Ledger, injected: seq<Binding>, id: Option<string>, i: nat)
    requires DistinctNames(injected) && i < |injected|
    ensures var k := FinalName(injected[i]);
      k in Record(usage, injected, id) &&
      Record(usage, injected, id)[k] == Bumped(if k in usage then Some(usage[k]) else None, injected[i], id)
    decreases |injected|
  {
    var n := |injected|;
    var init := injected[..n - 1];
    var k := FinalName(injected[i]);
    if i < n - 1 {
      DistinctInit(injected, i);
      RecordInjected(usage, init, id, i);
      RecordOneSpec(Record(usage, init, id), injected[n - 1], id);
    } else {
      RecordInjectedLast(usage, injected, id);
    }
  }

  lemma DistinctInit(injected: seq<Binding>, i: nat)
    requires DistinctNames(injected) && i < |injected| - 1
    ensures DistinctNames(injected[..|injected| - 1])
    ensures injected[..|injected| - 1][i] == injected[i]
    ensures FinalName(injected[i]) != FinalName(injected[|injected| - 1])
  {
  }

  lemma RecordInjectedLast(usage: Ledger, injected: seq<Binding>, id: Option<string>)
    requires DistinctNames(injected) && injected != []
    ensures var b := injected[|injected| - 1];
      FinalName(b) in Record(usage, injected, id) &&
      Record(usage, injected, id)[FinalName(b)]
        == Bumped(if FinalName(b) in usage then Some(usage[FinalName(b)]) else None, b, id)
  {
    var n := |injected|;
    var init := injected[..n - 1];
    var k := FinalName(injected[n - 1]);
    forall b | b in init ensures FinalName(b) != k {
      var j :| 0 <= j < |init| && init[j] == b;
      assert injected[j] == b;
    }
    if k in usage {
      RecordOthers(usage, init, id, k);
    } else {
      RecordKeys(usage, init, id);
    }
    RecordOneSpec(Record(usage, init, id), injected[n - 1], id);
  }

  /** Calls keep the ledger valid. */
  lemma {:induction false} RecordValid(usage: Ledger, injected: seq<Binding>, id: Option<string>)
    requires LedgerValid(usage)
    ensures LedgerValid(Record(usage, injected, id))
    decreases |injected|
  {
    if injected != [] {
      RecordValid(usage, injected[..|injected| - 1], id);
      RecordOneSpec(Record(usage, injected[..|injected| - 1], id), injected[|injected| - 1], id);
    }
  }

  /** The metadata kept for one context. */
  class Context {
    const config: Config
    const registry: seq<Binding>
    var usage: Ledger

    predicate Valid()
      reads this
    {
      registry == Register(config.imports) && LedgerValid(usage)
    }

    constructor (cfg: Config)
      ensures config == cfg && registry == Register(cfg.imports)
      ensures usage == map[] && Valid()
    {
      config := cfg;
      registry := Register(cfg.imports);
      usage := map[];
    }

    /**
     * Rewrites `code`; with metadata collection on, every injected binding's
     * entry is counted once more and `id` is remembered for it.
     */
    method InjectImports(code: string, id: Option<string>) returns (out: string)
      requires Valid()
      modifies this
      ensures Valid()
      ensures out == Transform(config, code).code
      ensures config.collectMeta ==> usage == Record(old(usage), Transform(config, code).injected, id)
      ensures !config.collectMeta ==> usage == old(usage)
    {
      var toks := Scan(code);
      var a := AnalyzeFrom(toks, 0);
      var pending := Pending(registry, a);
      out := Inject(code, a, pending, config.mergeExisting, config.injectAtEnd);
      if config.collectMeta {
        Account(pending, id);
      }
    }

    /** Counts one call that injected `injected` from module `id`. */
    method Account(injected: seq<Binding>, id: Option<string>)
      requires Valid()
      modifies this
      ensures Valid()
      ensures usage == Record(old(usage), injected, id)
    {
      var i := 0;
      while i < |injected|
        invariant 0 <= i <= |injected|
        invariant usage == Record(old(usage), injected[..i], id)
      {
        RecordStep(old(usage), injected, id, i);
        usage := RecordOne(usage, injected[i], id);
        i := i + 1;
      }
      assert injected[..|injected|] == injected;
      RecordValid(old(usage), injected, id);
    }

    /** The ledger, when metadata collection is on. */
    method GetMetadata() returns (r: Option<Ledger>)
      ensures config.collectMeta ==> r == Some(usage)
      ensures !config.collectMeta ==> r == None
    {
      r := if config.collectMeta then Some(usage) else None;
    }
  }
}
