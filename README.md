# unimport: auto-import injection, modelled in Dafny

unimport keeps a catalog of bindings (`{ name, from, as? }`) and rewrites
JavaScript/TypeScript source so that every catalog name the code uses gets an
import. `createUnimport(options)` builds a context whose `injectImports(code,
moduleId?)` returns the rewritten code and, with `collectMeta`, records in a
usage ledger which bindings were injected and for which modules;
`getMetadata()` returns that ledger.

The model follows that pipeline:

- `Lexer` scans the text: identifiers, punctuation, string literals, and the
  spans that hide code (line and block comments, template literals with
  `${ }` substitutions, regular-expression literals, including `[...]`
  classes). `Lexer.Scan` is the scanner loop; it is proved equal to the
  function `Lexer.Tokens` that the rest of the model uses.
- `Declarations` finds import declarations (`import { a } from 'm'`,
  `import 'm'`, default and namespace forms) and re-exports
  (`export { a } from 'm'`, `export * from 'm'`), and lists every other
  identifier that is not a member name after `.` as an occurrence.
- `Resolver` registers the catalog (the last binding of a final name wins)
  and computes the pending bindings: those whose final name occurs and is
  not bound by an existing import, in registration order.
- `Injector` groups the pending bindings by module and renders one
  `import { a, b } from 'm';` statement per group. The statements go at the top
  of the text. With `injectAtEnd`, they go after the last import declaration
  that ends before the first occurrence of a pending name, set off by a line
  break. With `mergeExisting`, a group whose module already has a `{ ... }`
  import is spliced right after that `{` instead.
- `Unimport` holds the options (`Config`), the rewrite as a function
  (`Transform`), the ledger (`Usage` entries keyed by the binding's `as`,
  with a count and the distinct module ids in first-seen order) and the
  `Context` class whose methods update the ledger in place.
- `Composition`, `Pieces` and `Shapes` are proof tools: scanning is
  compositional over texts built from pieces (words, blanks, literals,
  comments, patterns). That makes the token list of each example text
  computable symbolically.
- `Snapshots` proves every inline snapshot of `test/inject.test.ts`. Each
  example has a lemma about `Transform` on the literal input and a method
  that builds a `Context` and calls `InjectImports`, with the snapshot as its
  postcondition. Each example also has a general lemma over all texts of the
  same shape.

## Model

| member | source | states |
|---|---|---|
| Lexer.Scan | test/inject.test.ts:138-148 | The scanner loop returns exactly `Tokens(text)`, the token list the analysis works on, in which comments, strings, templates and regex literals (including a `/` inside `[...]`) hide their contents |
| Lexer.StepFacts | test/inject.test.ts:138-148 | Every step reports at most one token, at the lowest offset still pending, and never moves backwards |
| Lexer.TokensWellOrdered | test/inject.test.ts:151-172 | Every reported identifier is a whole word of the text at its offset; every token lies inside the text; token offsets strictly increase, and each token ends before the next one starts |
| Composition.LexSplit | test/inject.test.ts:104-130 | Scanning a text cut at a safe point gives the tokens of the first part followed by those of the rest, scanned from the state where the first part ended |
| Pieces.TokensOfChain | test/inject.test.ts:104-130 | A text assembled from well-formed pieces scans to the concatenation of the pieces' tokens; blanks and comments contribute none |
| Declarations.UsesFrom | test/inject.test.ts:16-22 | Every occurrence is an identifier token of the text that is not a member name |
| Declarations.DeclarationNamesAreNotUses | test/inject.test.ts:16-22 | Names inside a recognized import or re-export are never occurrences: every occurrence lies after the declaration |
| Declarations.UsesWithoutDeclarations | test/inject.test.ts:174-187 | Without declarations, the occurrences are exactly the plain identifier words, in order |
| Declarations.ImportsFrom | test/inject.test.ts:72-85 | Every listed import declaration was recognized at a token of the text |
| Declarations.ImportBounds | test/inject.test.ts:72-85 | An import's recorded offsets lie inside the text, and the merge point of a `{ ... }` import is just after its `{` |
| Declarations.ImportsApart | test/inject.test.ts:151-172 | The imports are listed in source order, each one ending before the next starts; each starts at its `import` keyword, and its `{` lies between that keyword and the end of its specifier |
| Resolver.WithAlias | test/inject.test.ts:44-50 | Filling in `as` keeps the name and module and sets `as` to the final name |
| Resolver.RegisterLastWins | test/inject.test.ts:26-33 | A binding is registered exactly when it is the last catalog entry with its final name |
| Resolver.RegisterDistinct | test/inject.test.ts:26-33 | The registry has distinct final names, keeps catalog order and holds only catalog entries |
| Resolver.RegisterDistinctCatalog | test/inject.test.ts:176-180 | A catalog with distinct final names is registered unchanged |
| Resolver.PendingExactly | test/inject.test.ts:5-14 | A binding is pending if and only if it is registered, its final name occurs, and no existing import binds it; the pending list keeps registry order |
| Resolver.PendingAll | test/inject.test.ts:174-187 | When every registered binding is wanted, all are pending, in order |
| Resolver.PendingOne | test/inject.test.ts:36-39 | When exactly one registered binding is wanted, it alone is pending |
| Resolver.PendingNone | test/inject.test.ts:16-22 | When no registered binding is wanted, nothing is pending |
| Resolver.PendingDistinct | test/inject.test.ts:174-187 | Pending bindings have distinct final names |
| Injector.MergeTarget | test/inject.test.ts:72-85 | The merge target is an existing `{ ... }` import of the module; when there is none, no such import exists |
| Injector.FreshModules | test/inject.test.ts:72-85 | A module gets a new statement if and only if it is pending and not merged |
| Injector.ModulesExactly | test/inject.test.ts:174-187 | Each module of a pending binding is listed exactly once, and only those, in the order of each module's first pending binding |
| Injector.MembersExactly | test/inject.test.ts:174-187 | A module's group holds exactly its pending bindings, in pending order |
| Injector.FirstUseFinds | test/inject.test.ts:151-172 | The first use exists if and only if some pending name occurs, and it is the offset of the first such occurrence |
| Injector.LastImportBeforeFinds | test/inject.test.ts:151-172 | There is no anchor if and only if every import ends after the first use; otherwise the anchor is the end (trailing blanks and semicolons included) of an import that ends by the first use and is followed, in source order, by no other import that does |
| Injector.RenderFromKeeps | test/inject.test.ts:87-102 | Applying insertions keeps the original text as a subsequence of the result |
| Injector.InjectOnlyInserts | test/inject.test.ts:87-102 | The rewrite only inserts: the input is a subsequence of the output |
| Injector.InjectNothing | test/inject.test.ts:16-22 | With nothing pending the text is returned unchanged |
| Injector.InjectNew | test/inject.test.ts:5-14 | When no group is merged, the statements block is inserted at the placement offset and the rest of the text is unchanged |
| Injector.InjectAtTop | test/inject.test.ts:5-14 | Default placement: the block of statements opens the text |
| Injector.InjectAfterImports | test/inject.test.ts:87-102 | At-end placement: after a line break, the block follows the end of the last import that ends before the first use; with no such import, it opens the text |
| Injector.InjectMerge | test/inject.test.ts:72-85 | Merging: the names are spliced right after the target's `{`, ahead of the names already there, and no statement is added |
| Injector.AnalysisApart | test/inject.test.ts:72-102 | The analysis of any text has its imports apart: offsets inside the text, imports in source order, each import's `{` between its start and its end, and each import starting at a character that is neither blank nor `;` |
| Injector.MergeEditsExactly | test/inject.test.ts:72-85 | Over distinct modules whose merge targets are distinct imports, each merged module contributes exactly one splice, keyed at its target's `{`, holding its members' specifiers; there are no other splices |
| Injector.EditsForExactly | test/inject.test.ts:72-102 | For any mix of merged and new modules: each merged module's names are spliced after its target's `{`, the statements for the other modules are inserted once at the placement offset, and nothing else is edited |
| Unimport.Defaults | test/inject.test.ts:6-8 | Options left unset: no merging, no at-end placement, no metadata |
| Unimport.RecordOneSpec | test/inject.test.ts:24-70 | One recorded injection changes only its final name's entry: a new entry has `as` filled in, the count goes up by one, and the module id is appended only if absent; ledger validity is preserved |
| Unimport.RecordKeys | test/inject.test.ts:24-70 | The ledger's keys after recording are the old keys plus the injected final names |
| Unimport.RecordOthers | test/inject.test.ts:24-70 | Entries of names not injected are unchanged |
| Unimport.RecordInjected | test/inject.test.ts:24-70 | After a call with distinct injected names, each injected name's entry is its old entry bumped once for that call's module |
| Unimport.RecordValid | test/inject.test.ts:24-70 | Recording keeps every entry keyed by its `as`, counted at least once, with distinct module ids |
| Unimport.Context.constructor | test/inject.test.ts:25-35 | A new context keeps the options, registers the catalog, and starts with an empty ledger |
| Unimport.Context.InjectImports | test/inject.test.ts:36-39 | Returns the rewrite of the code; with metadata on, the ledger records the injected bindings for the module id, otherwise it is unchanged |
| Unimport.Context.Account | test/inject.test.ts:36-39 | The ledger becomes the old ledger with the injected bindings recorded |
| Unimport.Context.GetMetadata | test/inject.test.ts:41 | Returns the ledger when metadata is on, and nothing otherwise |
| Rescan.AnalyzePrefix | test/inject.test.ts:5-14 | Tokens behind a prefix that does not end in `.` are analysed exactly as they would be on their own |
| Rescan.AnalyzeShift | test/inject.test.ts:5-14 | Moving every token along by `n` characters moves every recorded offset by `n` and changes nothing else in the analysis |
| Rescan.StatementFacts | test/inject.test.ts:11-12 | A new statement over identifier names and a single-quotable module scans as a well-formed chain of pieces, leaves the scanner where a `/` may start a regex, as at the start of a text, and spells `Statement` followed by a line break |
| Rescan.StatementAnalysis | test/inject.test.ts:5-14 | A new statement in front of any tokens is read as one import declaration binding exactly the statement's final names, and the analysis of what follows is unchanged |
| Rescan.StatementFront | test/inject.test.ts:5-14 | A new statement in front of any text: the names used are those of the text, and the names bound are the statement's final names plus those the text binds |
| Rescan.BlockAnalysis | test/inject.test.ts:174-187 | The block of new statements in front of any text: the names used are those of the text, the text's bound names stay bound, and every member of every module in the block is bound |
| Rescan.TransformIdempotent | test/inject.test.ts:5-14 | With default placement and no merging, a second run over the output of a first injects nothing and returns that output unchanged |
| Snapshots.AddedAtTop | test/inject.test.ts:5-14 | For any text with no imports that uses every name of a one-module catalog, one statement naming them in catalog order opens the text, with or without at-end placement |
| Snapshots.BasicOutput | test/inject.test.ts:5-14 | `console.log(fooBar())` becomes `import { fooBar } from 'test-id';` followed by a line break and the code |
| Snapshots.BasicExample | test/inject.test.ts:5-14 | A context over `fooBar` returns that snapshot |
| Snapshots.NothingAdded | test/inject.test.ts:16-22 | A text without occurrences is returned unchanged, and nothing is injected, under any options |
| Snapshots.ExportUnchanged | test/inject.test.ts:16-22 | Any `export { l } from 'm'` is left as it is, whatever the catalog and options |
| Snapshots.ExportOutput | test/inject.test.ts:16-22 | `export { fooBar } from "test-id"` is returned unchanged |
| Snapshots.ExportExample | test/inject.test.ts:16-22 | A context over `fooBar` returns the re-export unchanged |
| Snapshots.MetaInjects1 | test/inject.test.ts:36-37 | `console.log(import1())` injects exactly `import1` from the six-entry catalog |
| Snapshots.MetaInjects2 | test/inject.test.ts:38 | `console.log(import2())` injects exactly `import2` |
| Snapshots.MetaLedger | test/inject.test.ts:41-69 | Recording the four calls gives `import1` with count 3 and modules `foo`, `gar`, and `import2` with count 1 and module `bar`, each with `as` filled in |
| Snapshots.MetadataExample | test/inject.test.ts:24-70 | Four calls on one context, then `GetMetadata`, return exactly that ledger |
| Snapshots.MergedIntoExisting | test/inject.test.ts:72-85 | For any text whose one import is a `{ ... }` import of the binding's module and which uses the name, ` g,` is spliced right after that `{` |
| Snapshots.MergeOutput | test/inject.test.ts:72-85 | `import { foo } from 'test-id'` followed by the call becomes `import { fooBar, foo } from 'test-id'` followed by the call |
| Snapshots.MergeExample | test/inject.test.ts:72-85 | A merging context returns that snapshot |
| Snapshots.AddedAfterImports | test/inject.test.ts:87-102 | For any text, the statement for a used, unimported name goes after a line break at the end of the last import that ends before its first use |
| Snapshots.AtEndOutput | test/inject.test.ts:87-102 | The statement follows `import { foo } from 'foo'` and a blank line, before the call |
| Snapshots.AtEndExample | test/inject.test.ts:87-102 | An at-end context returns that snapshot |
| Snapshots.CommentOutput | test/inject.test.ts:104-130 | Imports inside a block comment and a line comment are not anchors; the statement follows the real import |
| Snapshots.CommentExample | test/inject.test.ts:104-130 | An at-end context returns that snapshot |
| Snapshots.RegexOutput | test/inject.test.ts:132-149 | With no import before the use, the statement opens the text; the regex literals do not swallow the call |
| Snapshots.RegexExample | test/inject.test.ts:132-149 | An at-end context returns that snapshot |
| Snapshots.MixedAtEnd | test/inject.test.ts:151-172 | For any text of the same shape, the statement goes after the second import (the last one before the use), not after the final import |
| Snapshots.MixedOutput | test/inject.test.ts:151-172 | The statement follows `import { bar } from 'bar'` and a blank line; `nonAutoImport` is not injected, and `import { baz }` stays last |
| Snapshots.MixedExample | test/inject.test.ts:151-172 | An at-end context returns that snapshot |
| Snapshots.TernaryAtTop | test/inject.test.ts:174-187 | For any `const n = x ? y ? a : b : c` over three catalog names of one module, one statement naming them in catalog order opens the text |
| Snapshots.TernaryOutput | test/inject.test.ts:174-187 | `const result = true ? false ? A : B : C` gets `import { A, B, C } from 'test-id';` on top |
| Snapshots.TernaryExample | test/inject.test.ts:174-187 | A context over `A`, `B` and `C` returns that snapshot |

## Left out

- The test harness (vitest, `describe`/`it`, inline-snapshot formatting) and the
  asynchronous call style: `InjectImports` is an ordinary method returning the code.
- `src/` is not part of this model. The behaviour is taken from the snapshots
  of `test/inject.test.ts` and from the documented design of unimport. Where
  the snapshots settle a question, they are followed.
- Default placement puts new statements at the top of the text. The
  documented design places them after a leading block of imports. No snapshot
  exercises default placement with existing imports, so that variant is not modelled.
- Loading catalogs from presets or directories, the CLI, file-system access,
  source maps, the transform result's `s` (magic-string) object, and
  type declarations are not modelled.
- Scope analysis is not modelled. A local declaration of a catalog name still
  counts as an occurrence, and shadowing is ignored. Collisions between an injected
  final name and a local binding are not detected.
- Aliased bindings: an aliased binding is written `name as alias`
  (ECMAScript ImportSpecifier syntax). The documented design mentions only the final
  name, and no snapshot shows an alias in code.
- The scanner is a lexical approximation. A `/` starts a regex literal
  after punctuation other than `)` and `]`, or at the start of the text.
  It never does after an identifier, a number, or a completed string,
  template or regex literal. Keywords such as `return` are not special-cased.
- Identifiers are made of ASCII letters, digits, `_` and `$` only. A
  non-ASCII letter ends a word, so in `const éfooBar = 1` the scanner
  reports an occurrence of `fooBar`, which ECMAScript reads as part of the
  one identifier `éfooBar`. The whole-word guarantee of
  `Lexer.TokensWellOrdered` holds relative to that ASCII character class.
- Rescan.TransformIdempotent: proved only for default placement without
  merging, and for catalogs whose names and aliases are identifiers and
  whose modules fit between single quotes. With merging, the spliced names
  would have to be shown bound by their targets; that is not proved.
- At-end placement is not idempotent in this model. Take the text
  `import { foo } from 'foo'`, line break, `/'a/ baz '`, line break,
  `fooBar()`, with the catalog `fooBar` from `x` and `baz` from `y`. After
  the string literal, the `/` on the second line is division, so the first
  run injects only `fooBar`. It inserts its statement, ending in `;` and a
  line break, after the first import. On the output, that `/` follows the
  `;`, starts a regex literal, and leaves `baz` as an occurrence, so the
  second run also injects `baz` from `y`. Whether a binding the first run
  injected can be injected again under at-end placement is not proved
  either way.
- The test at lines 138-142 writes its input inside a template literal.
  There, the escape `\/` is just `/`, so the first line reaches
  `injectImports` as `const regex = ///`, which scans as a line comment.
  `RegexOutput` states the snapshot for that text.
- The symbolic example texts are built from a fixed set of shapes (an import
  clause, a call line, a declaration, a nested conditional, a comment header).
  The general Snapshots lemmas are stated for those shapes only.
- Snapshots.MixedAtEnd, Snapshots.TernaryAtTop, Snapshots.ExportUnchanged: each
  is stated for texts of its example's shape, not for arbitrary texts.
  For arbitrary texts, `Injector.InjectAfterImports` and `Injector.InjectAtTop` state the general placement.
