/**
 * The statement shapes the injection examples are written in, as chains of
 * pieces: a clause `kw { l } from 'm'`, a call `o.f(g())`, a bare call `g()`,
 * the head of a declaration `const n = `, a nested conditional
 * `x ? y ? a : b : c`, and a comment header. For each shape: it is well
 * formed, whether a `/` after it would start a regular expression, its text,
 * and its tokens. The proofs unfold a chain one piece at a time.
 */
module Shapes {
  import opened Lexer
  import opened Composition
  import opened Pieces

  const Space: Piece := Blank(" ")
  const LineBreak: Piece := Blank("\n")

  /** A quoted literal body that holds no escape, no line break and no closing quote. */
  predicate Quotable(q: char, m: string) {
    (q == '\'' || q == '"') && Plain(m, q)
  }

  // ---- Lines

  /** Two chains on consecutive lines. */
  function Lines(x: Chain, y: Chain): Chain {
    Concat(x, Then(LineBreak, y))
  }

  lemma {:induction false} LinesOk(x: Chain, y: Chain, ok: bool)
    requires ChainOk(x, ok) && ChainOk(y, AfterAll(x, ok))
    ensures ChainOk(Lines(x, y), ok) && AfterAll(Lines(x, y), ok) == AfterAll(y, AfterAll(x, ok))
  {
    var b := Then(LineBreak, y);
    assert ChainOk(b, AfterAll(x, ok)) && AfterAll(b, AfterAll(x, ok)) == AfterAll(y, AfterAll(x, ok));
    assert Text(b)[0] == '\n';
    OkConcat(x, b, ok);
  }

  lemma {:induction false} LinesText(x: Chain, y: Chain)
    ensures Text(Lines(x, y)) == Text(x) + ("\n" + Text(y))
  {
    TextConcat(x, Then(LineBreak, y));
  }

  lemma {:induction false} LinesTokens(x: Chain, y: Chain, d: nat)
    ensures ChainTokens(Lines(x, y), d) == ChainTokens(x, d) + ChainTokens(y, d + |Text(x)| + 1)
  {
    var e := d + |Text(x)|;
    var b := Then(LineBreak, y);
    TokensConcat(x, b, d);
    SilentTokens(LineBreak, y, e);
  }

  // ---- `kw { l } from 'm'`

  /** ` } from 'm'`, the end of a clause. */
  function Closing(q: char, m: string): Chain {
    Then(Space, Then(Mark('}'), Then(Space, Then(Ident("from"), Then(Space, Then(Literal(q, m), Stop))))))
  }

  /** `kw { l } from 'm'`: an import or re-export clause naming one binding. */
  function Clause(kw: string, l: string, q: char, m: string): Chain {
    Then(Ident(kw), Then(Space, Then(Mark('{'), Then(Space, Then(Ident(l), Closing(q, m))))))
  }

  lemma ClosingOk(q: char, m: string)
    requires Quotable(q, m)
    ensures ChainOk(Closing(q, m), false) && AfterAll(Closing(q, m), false) == false
  {
    var c5 := Then(Literal(q, m), Stop);
    var c4 := Then(Space, c5);
    var c3 := Then(Ident("from"), c4);
    var c2 := Then(Space, c3);
    var c1 := Then(Mark('}'), c2);
    assert ChainOk(Stop, false) && AfterAll(Stop, false) == false;
    assert ChainOk(c5, false) && AfterAll(c5, false) == false;
    assert ChainOk(c4, false) && AfterAll(c4, false) == false;
    assert ChainOk(c3, true) && AfterAll(c3, true) == false;
    assert ChainOk(c2, true) && AfterAll(c2, true) == false;
    assert ChainOk(c1, false) && AfterAll(c1, false) == false;
  }

  lemma ClosingText(q: char, m: string)
    ensures Text(Closing(q, m)) == " " + ("}" + (" " + ("from" + (" " + (([q] + m + [q]) + "")))))
  {
    var c5 := Then(Literal(q, m), Stop);
    var c4 := Then(Space, c5);
    var c3 := Then(Ident("from"), c4);
    var c2 := Then(Space, c3);
    var c1 := Then(Mark('}'), c2);
    assert Text(Stop) == "";
    assert Text(c5) == ([q] + m + [q]) + "";
    assert Text(c4) == " " + (([q] + m + [q]) + "");
    assert Text(c3) == "from" + (" " + (([q] + m + [q]) + ""));
    assert Text(c2) == " " + ("from" + (" " + (([q] + m + [q]) + "")));
    assert Text(c1) == "}" + (" " + ("from" + (" " + (([q] + m + [q]) + ""))));
  }

  lemma ClosingTokens(q: char, m: string, d: nat)
    ensures ChainTokens(Closing(q, m), d) == [Punct('}', d + 1), Word("from", d + 3), Str(q, m, d + 8, d + |m| + 10)]
  {
    var c5 := Then(Literal(q, m), Stop);
    var c4 := Then(Space, c5);
    var c3 := Then(Ident("from"), c4);
    var c2 := Then(Space, c3);
    var c1 := Then(Mark('}'), c2);
    assert ChainTokens(Stop, d + |m| + 10) == [];
    assert ChainTokens(c5, d + 8) == [Str(q, m, d + 8, d + |m| + 10)];
    SilentTokens(Space, c5, d + 7);
    assert ChainTokens(c4, d + 7) == [Str(q, m, d + 8, d + |m| + 10)];
    assert ChainTokens(c3, d + 3) == [Word("from", d + 3), Str(q, m, d + 8, d + |m| + 10)];
    SilentTokens(Space, c3, d + 2);
    assert ChainTokens(c2, d + 2) == [Word("from", d + 3), Str(q, m, d + 8, d + |m| + 10)];
    assert ChainTokens(c1, d + 1) == [Punct('}', d + 1), Word("from", d + 3), Str(q, m, d + 8, d + |m| + 10)];
    SilentTokens(Space, c1, d);
  }

  lemma ClauseOk(kw: string, l: string, q: char, m: string, ok: bool)
    requires IsName(kw) && IsName(l) && Quotable(q, m)
    ensures ChainOk(Clause(kw, l, q, m), ok) && AfterAll(Clause(kw, l, q, m), ok) == false
  {
    ClosingOk(q, m);
    var c4 := Then(Ident(l), Closing(q, m));
    var c3 := Then(Space, c4);
    var c2 := Then(Mark('{'), c3);
    var c1 := Then(Space, c2);
    assert ChainOk(c4, true) && AfterAll(c4, true) == false;
    assert ChainOk(c3, true) && AfterAll(c3, true) == false;
    assert ChainOk(c2, false) && AfterAll(c2, false) == false;
    assert ChainOk(c1, false) && AfterAll(c1, false) == false;
  }

  lemma ClauseText(kw: string, l: string, q: char, m: string)
    ensures Text(Clause(kw, l, q, m)) == kw + (" " + ("{" + (" " + (l + Text(Closing(q, m))))))
  {
    var c4 := Then(Ident(l), Closing(q, m));
    var c3 := Then(Space, c4);
    var c2 := Then(Mark('{'), c3);
    var c1 := Then(Space, c2);
    assert Text(c4) == l + Text(Closing(q, m));
    assert Text(c3) == " " + (l + Text(Closing(q, m)));
    assert Text(c2) == "{" + (" " + (l + Text(Closing(q, m))));
    assert Text(c1) == " " + ("{" + (" " + (l + Text(Closing(q, m)))));
  }

  lemma ClauseTokens(kw: string, l: string, q: char, m: string, d: nat)
    ensures ChainTokens(Clause(kw, l, q, m), d) == [Word(kw, d), Punct('{', d + |kw| + 1), Word(l, d + |kw| + 3)] + ChainTokens(Closing(q, m), d + |kw| + |l| + 3)
  {
    var c4 := Then(Ident(l), Closing(q, m));
    var c3 := Then(Space, c4);
    var c2 := Then(Mark('{'), c3);
    var c1 := Then(Space, c2);
    assert ChainTokens(c4, d + |kw| + 3) == [Word(l, d + |kw| + 3)] + ChainTokens(Closing(q, m), d + |kw| + |l| + 3);
    SilentTokens(Space, c4, d + |kw| + 2);
    assert ChainTokens(c3, d + |kw| + 2) == [Word(l, d + |kw| + 3)] + ChainTokens(Closing(q, m), d + |kw| + |l| + 3);
    assert ChainTokens(c2, d + |kw| + 1) == [Punct('{', d + |kw| + 1), Word(l, d + |kw| + 3)] + ChainTokens(Closing(q, m), d + |kw| + |l| + 3);
    SilentTokens(Space, c2, d + |kw|);
    assert ChainTokens(c1, d + |kw|) == [Punct('{', d + |kw| + 1), Word(l, d + |kw| + 3)] + ChainTokens(Closing(q, m), d + |kw| + |l| + 3);
  }

  // ---- `o.f(g())` and `g()`

  /** `o.f(g())`: a method call whose argument is a call. */
  function Call(o: string, f: string, g: string): Chain {
    Then(Ident(o), Then(Mark('.'), Then(Ident(f), Then(Mark('('),
      Then(Ident(g), Then(Mark('('), Then(Mark(')'), Then(Mark(')'), Stop))))))))
  }

  /** `g()`: a call without arguments. */
  function Invoke(g: string): Chain {
    Then(Ident(g), Then(Mark('('), Then(Mark(')'), Stop)))
  }

  lemma CallOk(o: string, f: string, g: string, ok: bool)
    requires IsName(o) && IsName(f) && IsName(g)
    ensures ChainOk(Call(o, f, g), ok) && AfterAll(Call(o, f, g), ok) == false
  {
    var c7 := Then(Mark(')'), Stop);
    var c6 := Then(Mark(')'), c7);
    var c5 := Then(Mark('('), c6);
    var c4 := Then(Ident(g), c5);
    var c3 := Then(Mark('('), c4);
    var c2 := Then(Ident(f), c3);
    var c1 := Then(Mark('.'), c2);
    assert ChainOk(Stop, false) && AfterAll(Stop, false) == false;
    assert ChainOk(c7, false) && AfterAll(c7, false) == false;
    assert ChainOk(c6, true) && AfterAll(c6, true) == false;
    assert ChainOk(c5, false) && AfterAll(c5, false) == false;
    assert ChainOk(c4, true) && AfterAll(c4, true) == false;
    assert ChainOk(c3, false) && AfterAll(c3, false) == false;
    assert ChainOk(c2, true) && AfterAll(c2, true) == false;
    assert ChainOk(c1, false) && AfterAll(c1, false) == false;
  }

  lemma CallText(o: string, f: string, g: string)
    ensures Text(Call(o, f, g)) == o + ("." + (f + ("(" + (g + ("(" + (")" + (")" + "")))))))
  {
    var c7 := Then(Mark(')'), Stop);
    var c6 := Then(Mark(')'), c7);
    var c5 := Then(Mark('('), c6);
    var c4 := Then(Ident(g), c5);
    var c3 := Then(Mark('('), c4);
    var c2 := Then(Ident(f), c3);
    var c1 := Then(Mark('.'), c2);
    assert Text(Stop) == "";
    assert Text(c7) == ")" + "";
    assert Text(c6) == ")" + (")" + "");
    assert Text(c5) == "(" + (")" + (")" + ""));
    assert Text(c4) == g + ("(" + (")" + (")" + "")));
    assert Text(c3) == "(" + (g + ("(" + (")" + (")" + ""))));
    assert Text(c2) == f + ("(" + (g + ("(" + (")" + (")" + "")))));
    assert Text(c1) == "." + (f + ("(" + (g + ("(" + (")" + (")" + ""))))));
  }

  lemma CallTokens(o: string, f: string, g: string, d: nat)
    ensures ChainTokens(Call(o, f, g), d) == [Word(o, d), Punct('.', d + |o|), Word(f, d + |o| + 1), Punct('(', d + |o| + |f| + 1), Word(g, d + |o| + |f| + 2), Punct('(', d + |o| + |f| + |g| + 2), Punct(')', d + |o| + |f| + |g| + 3), Punct(')', d + |o| + |f| + |g| + 4)]
  {
    var c7 := Then(Mark(')'), Stop);
    var c6 := Then(Mark(')'), c7);
    var c5 := Then(Mark('('), c6);
    var c4 := Then(Ident(g), c5);
    var c3 := Then(Mark('('), c4);
    var c2 := Then(Ident(f), c3);
    var c1 := Then(Mark('.'), c2);
    assert ChainTokens(Stop, d + |o| + |f| + |g| + 5) == [];
    assert ChainTokens(c7, d + |o| + |f| + |g| + 4) == [Punct(')', d + |o| + |f| + |g| + 4)];
    assert ChainTokens(c6, d + |o| + |f| + |g| + 3) == [Punct(')', d + |o| + |f| + |g| + 3), Punct(')', d + |o| + |f| + |g| + 4)];
    assert ChainTokens(c5, d + |o| + |f| + |g| + 2) == [Punct('(', d + |o| + |f| + |g| + 2), Punct(')', d + |o| + |f| + |g| + 3), Punct(')', d + |o| + |f| + |g| + 4)];
    assert ChainTokens(c4, d + |o| + |f| + 2) == [Word(g, d + |o| + |f| + 2), Punct('(', d + |o| + |f| + |g| + 2), Punct(')', d + |o| + |f| + |g| + 3), Punct(')', d + |o| + |f| + |g| + 4)];
    assert ChainTokens(c3, d + |o| + |f| + 1) == [Punct('(', d + |o| + |f| + 1), Word(g, d + |o| + |f| + 2), Punct('(', d + |o| + |f| + |g| + 2), Punct(')', d + |o| + |f| + |g| + 3), Punct(')', d + |o| + |f| + |g| + 4)];
    assert ChainTokens(c2, d + |o| + 1) == [Word(f, d + |o| + 1), Punct('(', d + |o| + |f| + 1), Word(g, d + |o| + |f| + 2), Punct('(', d + |o| + |f| + |g| + 2), Punct(')', d + |o| + |f| + |g| + 3), Punct(')', d + |o| + |f| + |g| + 4)];
    assert ChainTokens(c1, d + |o|) == [Punct('.', d + |o|), Word(f, d + |o| + 1), Punct('(', d + |o| + |f| + 1), Word(g, d + |o| + |f| + 2), Punct('(', d + |o| + |f| + |g| + 2), Punct(')', d + |o| + |f| + |g| + 3), Punct(')', d + |o| + |f| + |g| + 4)];
  }

  lemma InvokeOk(g: string, ok: bool)
    requires IsName(g)
    ensures ChainOk(Invoke(g), ok) && AfterAll(Invoke(g), ok) == false
  {
    var c1 := Then(Mark('('), Then(Mark(')'), Stop));
    ParensOk();
    assert Invoke(g) == Then(Ident(g), c1);
  }

  /** `()` is well formed after an identifier, and a `/` after it divides. */
  lemma ParensOk()
    ensures ChainOk(Then(Mark('('), Then(Mark(')'), Stop)), false)
    ensures AfterAll(Then(Mark('('), Then(Mark(')'), Stop)), false) == false
  {
  }

  lemma InvokeText(g: string)
    ensures Text(Invoke(g)) == g + ("(" + (")" + ""))
  {
    var c2 := Then(Mark(')'), Stop);
    var c1 := Then(Mark('('), c2);
    assert Text(Stop) == "";
    assert Text(c2) == ")" + "";
    assert Text(c1) == "(" + (")" + "");
  }

  lemma InvokeTokens(g: string, d: nat)
    ensures ChainTokens(Invoke(g), d) == [Word(g, d), Punct('(', d + |g|), Punct(')', d + |g| + 1)]
  {
    var c2 := Then(Mark(')'), Stop);
    var c1 := Then(Mark('('), c2);
    assert ChainTokens(Stop, d + |g| + 2) == [];
    assert ChainTokens(c2, d + |g| + 1) == [Punct(')', d + |g| + 1)];
    assert ChainTokens(c1, d + |g|) == [Punct('(', d + |g|), Punct(')', d + |g| + 1)];
  }

  // ---- `const n = `

  /** `const n = `: the head of a declaration, after which a `/` starts a regular expression. */
  function Declare(n: string): Chain {
    Then(Ident("const"), Then(Space, Then(Ident(n), Then(Space, Then(Mark('='), Then(Space, Stop))))))
  }

  lemma DeclareOk(n: string, ok: bool)
    requires IsName(n)
    ensures ChainOk(Declare(n), ok) && AfterAll(Declare(n), ok) == true
  {
    var c5 := Then(Space, Stop);
    var c4 := Then(Mark('='), c5);
    var c3 := Then(Space, c4);
    var c2 := Then(Ident(n), c3);
    var c1 := Then(Space, c2);
    assert ChainOk(Stop, true) && AfterAll(Stop, true) == true;
    assert ChainOk(c5, true) && AfterAll(c5, true) == true;
    assert ChainOk(c4, false) && AfterAll(c4, false) == true;
    assert ChainOk(c3, false) && AfterAll(c3, false) == true;
    assert ChainOk(c2, false) && AfterAll(c2, false) == true;
    assert ChainOk(c1, false) && AfterAll(c1, false) == true;
  }

  lemma DeclareText(n: string)
    ensures Text(Declare(n)) == "const" + (" " + (n + (" " + ("=" + (" " + "")))))
  {
    var c5 := Then(Space, Stop);
    var c4 := Then(Mark('='), c5);
    var c3 := Then(Space, c4);
    var c2 := Then(Ident(n), c3);
    var c1 := Then(Space, c2);
    assert Text(Stop) == "";
    assert Text(c5) == " " + "";
    assert Text(c4) == "=" + (" " + "");
    assert Text(c3) == " " + ("=" + (" " + ""));
    assert Text(c2) == n + (" " + ("=" + (" " + "")));
    assert Text(c1) == " " + (n + (" " + ("=" + (" " + ""))));
  }

  lemma DeclareTokens(n: string, d: nat)
    ensures ChainTokens(Declare(n), d) == [Word("const", d), Word(n, d + 6), Punct('=', d + |n| + 7)]
  {
    var c5 := Then(Space, Stop);
    var c4 := Then(Mark('='), c5);
    var c3 := Then(Space, c4);
    var c2 := Then(Ident(n), c3);
    var c1 := Then(Space, c2);
    assert ChainTokens(Stop, d + |n| + 9) == [];
    SilentTokens(Space, Stop, d + |n| + 8);
    assert ChainTokens(c5, d + |n| + 8) == [];
    assert ChainTokens(c4, d + |n| + 7) == [Punct('=', d + |n| + 7)];
    SilentTokens(Space, c4, d + |n| + 6);
    assert ChainTokens(c3, d + |n| + 6) == [Punct('=', d + |n| + 7)];
    assert ChainTokens(c2, d + 6) == [Word(n, d + 6), Punct('=', d + |n| + 7)];
    SilentTokens(Space, c2, d + 5);
    assert ChainTokens(c1, d + 5) == [Word(n, d + 6), Punct('=', d + |n| + 7)];
  }

  // ---- `x ? y ? a : b : c`

  /** `a : b : c`, the branches of a nested conditional. */
  function Branches(a: string, b: string, c: string): Chain {
    Then(Ident(a), Then(Space, Then(Mark(':'), Then(Space,
      Then(Ident(b), Then(Space, Then(Mark(':'), Then(Space, Then(Ident(c), Stop)))))))))
  }

  /** `x ? y ? a : b : c`: a conditional nested in the true branch of another. */
  function Ternary(x: string, y: string, a: string, b: string, c: string): Chain {
    Then(Ident(x), Then(Space, Then(Mark('?'), Then(Space,
      Then(Ident(y), Then(Space, Then(Mark('?'), Then(Space, Branches(a, b, c)))))))))
  }

  lemma BranchesOk(a: string, b: string, c: string)
    requires IsName(a) && IsName(b) && IsName(c)
    ensures ChainOk(Branches(a, b, c), true) && AfterAll(Branches(a, b, c), true) == false
  {
    var c8 := Then(Ident(c), Stop);
    var c7 := Then(Space, c8);
    var c6 := Then(Mark(':'), c7);
    var c5 := Then(Space, c6);
    var c4 := Then(Ident(b), c5);
    var c3 := Then(Space, c4);
    var c2 := Then(Mark(':'), c3);
    var c1 := Then(Space, c2);
    assert ChainOk(Stop, false) && AfterAll(Stop, false) == false;
    assert ChainOk(c8, true) && AfterAll(c8, true) == false;
    assert ChainOk(c7, true) && AfterAll(c7, true) == false;
    assert ChainOk(c6, false) && AfterAll(c6, false) == false;
    assert ChainOk(c5, false) && AfterAll(c5, false) == false;
    assert ChainOk(c4, true) && AfterAll(c4, true) == false;
    assert ChainOk(c3, true) && AfterAll(c3, true) == false;
    assert ChainOk(c2, false) && AfterAll(c2, false) == false;
    assert ChainOk(c1, false) && AfterAll(c1, false) == false;
  }

  lemma BranchesText(a: string, b: string, c: string)
    ensures Text(Branches(a, b, c)) == a + (" " + (":" + (" " + (b + (" " + (":" + (" " + (c + ""))))))))
  {
    var c8 := Then(Ident(c), Stop);
    var c7 := Then(Space, c8);
    var c6 := Then(Mark(':'), c7);
    var c5 := Then(Space, c6);
    var c4 := Then(Ident(b), c5);
    var c3 := Then(Space, c4);
    var c2 := Then(Mark(':'), c3);
    var c1 := Then(Space, c2);
    assert Text(Stop) == "";
    assert Text(c8) == c + "";
    assert Text(c7) == " " + (c + "");
    assert Text(c6) == ":" + (" " + (c + ""));
    assert Text(c5) == " " + (":" + (" " + (c + "")));
    assert Text(c4) == b + (" " + (":" + (" " + (c + ""))));
    assert Text(c3) == " " + (b + (" " + (":" + (" " + (c + "")))));
    assert Text(c2) == ":" + (" " + (b + (" " + (":" + (" " + (c + ""))))));
    assert Text(c1) == " " + (":" + (" " + (b + (" " + (":" + (" " + (c + "")))))));
  }

  lemma BranchesTokens(a: string, b: string, c: string, d: nat)
    ensures ChainTokens(Branches(a, b, c), d) == [Word(a, d), Punct(':', d + |a| + 1), Word(b, d + |a| + 3), Punct(':', d + |a| + |b| + 4), Word(c, d + |a| + |b| + 6)]
  {
    var c8 := Then(Ident(c), Stop);
    var c7 := Then(Space, c8);
    var c6 := Then(Mark(':'), c7);
    var c5 := Then(Space, c6);
    var c4 := Then(Ident(b), c5);
    var c3 := Then(Space, c4);
    var c2 := Then(Mark(':'), c3);
    var c1 := Then(Space, c2);
    assert ChainTokens(Stop, d + |a| + |b| + |c| + 6) == [];
    assert ChainTokens(c8, d + |a| + |b| + 6) == [Word(c, d + |a| + |b| + 6)];
    SilentTokens(Space, c8, d + |a| + |b| + 5);
    assert ChainTokens(c7, d + |a| + |b| + 5) == [Word(c, d + |a| + |b| + 6)];
    assert ChainTokens(c6, d + |a| + |b| + 4) == [Punct(':', d + |a| + |b| + 4), Word(c, d + |a| + |b| + 6)];
    SilentTokens(Space, c6, d + |a| + |b| + 3);
    assert ChainTokens(c5, d + |a| + |b| + 3) == [Punct(':', d + |a| + |b| + 4), Word(c, d + |a| + |b| + 6)];
    assert ChainTokens(c4, d + |a| + 3) == [Word(b, d + |a| + 3), Punct(':', d + |a| + |b| + 4), Word(c, d + |a| + |b| + 6)];
    SilentTokens(Space, c4, d + |a| + 2);
    assert ChainTokens(c3, d + |a| + 2) == [Word(b, d + |a| + 3), Punct(':', d + |a| + |b| + 4), Word(c, d + |a| + |b| + 6)];
    assert ChainTokens(c2, d + |a| + 1) == [Punct(':', d + |a| + 1), Word(b, d + |a| + 3), Punct(':', d + |a| + |b| + 4), Word(c, d + |a| + |b| + 6)];
    SilentTokens(Space, c2, d + |a|);
    assert ChainTokens(c1, d + |a|) == [Punct(':', d + |a| + 1), Word(b, d + |a| + 3), Punct(':', d + |a| + |b| + 4), Word(c, d + |a| + |b| + 6)];
  }

  lemma TernaryOk(x: string, y: string, a: string, b: string, c: string, ok: bool)
    requires IsName(x) && IsName(y) && IsName(a) && IsName(b) && IsName(c)
    ensures ChainOk(Ternary(x, y, a, b, c), ok) && AfterAll(Ternary(x, y, a, b, c), ok) == false
  {
    BranchesOk(a, b, c);
    var c7 := Then(Space, Branches(a, b, c));
    var c6 := Then(Mark('?'), c7);
    var c5 := Then(Space, c6);
    var c4 := Then(Ident(y), c5);
    var c3 := Then(Space, c4);
    var c2 := Then(Mark('?'), c3);
    var c1 := Then(Space, c2);
    assert ChainOk(c7, true) && AfterAll(c7, true) == false;
    assert ChainOk(c6, false) && AfterAll(c6, false) == false;
    assert ChainOk(c5, false) && AfterAll(c5, false) == false;
    assert ChainOk(c4, true) && AfterAll(c4, true) == false;
    assert ChainOk(c3, true) && AfterAll(c3, true) == false;
    assert ChainOk(c2, false) && AfterAll(c2, false) == false;
    assert ChainOk(c1, false) && AfterAll(c1, false) == false;
  }

  lemma TernaryText(x: string, y: string, a: string, b: string, c: string)
    ensures Text(Ternary(x, y, a, b, c)) == x + (" " + ("?" + (" " + (y + (" " + ("?" + (" " + Text(Branches(a, b, c)))))))))
  {
    var c7 := Then(Space, Branches(a, b, c));
    var c6 := Then(Mark('?'), c7);
    var c5 := Then(Space, c6);
    var c4 := Then(Ident(y), c5);
    var c3 := Then(Space, c4);
    var c2 := Then(Mark('?'), c3);
    var c1 := Then(Space, c2);
    assert Text(c7) == " " + Text(Branches(a, b, c));
    assert Text(c6) == "?" + (" " + Text(Branches(a, b, c)));
    assert Text(c5) == " " + ("?" + (" " + Text(Branches(a, b, c))));
    assert Text(c4) == y + (" " + ("?" + (" " + Text(Branches(a, b, c)))));
    assert Text(c3) == " " + (y + (" " + ("?" + (" " + Text(Branches(a, b, c))))));
    assert Text(c2) == "?" + (" " + (y + (" " + ("?" + (" " + Text(Branches(a, b, c)))))));
    assert Text(c1) == " " + ("?" + (" " + (y + (" " + ("?" + (" " + Text(Branches(a, b, c))))))));
  }

  lemma TernaryTokens(x: string, y: string, a: string, b: string, c: string, d: nat)
    ensures ChainTokens(Ternary(x, y, a, b, c), d) == [Word(x, d), Punct('?', d + |x| + 1), Word(y, d + |x| + 3), Punct('?', d + |x| + |y| + 4)] + ChainTokens(Branches(a, b, c), d + |x| + |y| + 6)
  {
    var c7 := Then(Space, Branches(a, b, c));
    var c6 := Then(Mark('?'), c7);
    var c5 := Then(Space, c6);
    var c4 := Then(Ident(y), c5);
    var c3 := Then(Space, c4);
    var c2 := Then(Mark('?'), c3);
    var c1 := Then(Space, c2);
    SilentTokens(Space, Branches(a, b, c), d + |x| + |y| + 5);
    assert ChainTokens(c7, d + |x| + |y| + 5) == ChainTokens(Branches(a, b, c), d + |x| + |y| + 6);
    assert ChainTokens(c6, d + |x| + |y| + 4) == [Punct('?', d + |x| + |y| + 4)] + ChainTokens(Branches(a, b, c), d + |x| + |y| + 6);
    SilentTokens(Space, c6, d + |x| + |y| + 3);
    assert ChainTokens(c5, d + |x| + |y| + 3) == [Punct('?', d + |x| + |y| + 4)] + ChainTokens(Branches(a, b, c), d + |x| + |y| + 6);
    assert ChainTokens(c4, d + |x| + 3) == [Word(y, d + |x| + 3), Punct('?', d + |x| + |y| + 4)] + ChainTokens(Branches(a, b, c), d + |x| + |y| + 6);
    SilentTokens(Space, c4, d + |x| + 2);
    assert ChainTokens(c3, d + |x| + 2) == [Word(y, d + |x| + 3), Punct('?', d + |x| + |y| + 4)] + ChainTokens(Branches(a, b, c), d + |x| + |y| + 6);
    assert ChainTokens(c2, d + |x| + 1) == [Punct('?', d + |x| + 1), Word(y, d + |x| + 3), Punct('?', d + |x| + |y| + 4)] + ChainTokens(Branches(a, b, c), d + |x| + |y| + 6);
    SilentTokens(Space, c2, d + |x|);
    assert ChainTokens(c1, d + |x|) == [Punct('?', d + |x| + 1), Word(y, d + |x| + 3), Punct('?', d + |x| + |y| + 4)] + ChainTokens(Branches(a, b, c), d + |x| + |y| + 6);
  }

  // ---- Comments

  /** A block comment, a blank line and a line comment: text that yields no token. */
  function Header(block: string, line: string): Chain {
    Then(BlockNote(block), Then(Blank("\n\n"), Then(LineNote(line), Stop)))
  }

  lemma HeaderOk(block: string, line: string, ok: bool)
    requires NoClose(block) && Plain(line, '\n')
    ensures ChainOk(Header(block, line), ok) && AfterAll(Header(block, line), ok) == ok
  {
    var c2 := Then(LineNote(line), Stop);
    var c1 := Then(Blank("\n\n"), c2);
    assert ChainOk(Stop, ok) && AfterAll(Stop, ok) == ok;
    assert ChainOk(c2, ok) && AfterAll(c2, ok) == ok;
    assert ChainOk(c1, ok) && AfterAll(c1, ok) == ok;
  }

  lemma HeaderText(block: string, line: string)
    ensures Text(Header(block, line)) == ("/*" + block + "*/") + ("\n\n" + (("//" + line + "\n") + ""))
  {
    var c2 := Then(LineNote(line), Stop);
    var c1 := Then(Blank("\n\n"), c2);
    assert Text(Stop) == "";
    assert Text(c2) == ("//" + line + "\n") + "";
    assert Text(c1) == "\n\n" + (("//" + line + "\n") + "");
  }

  lemma HeaderTokens(block: string, line: string, d: nat)
    ensures ChainTokens(Header(block, line), d) == []
  {
    var c2 := Then(LineNote(line), Stop);
    var c1 := Then(Blank("\n\n"), c2);
    assert ChainTokens(Stop, d + |block| + |line| + 9) == [];
    SilentTokens(LineNote(line), Stop, d + |block| + 6);
    assert ChainTokens(c2, d + |block| + 6) == [];
    SilentTokens(Blank("\n\n"), c2, d + |block| + 4);
    assert ChainTokens(c1, d + |block| + 4) == [];
    SilentTokens(BlockNote(block), c1, d);
  }
}
