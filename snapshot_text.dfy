/** Equalities between string literals that the examples' texts are assembled from. */
module SnapshotText {

  lemma BasicStatement()
    ensures "import { " + "fooBar" + " } from '" + "test-id" + "';\n" + "console.log(fooBar())"
      == "import { fooBar } from 'test-id';\nconsole.log(fooBar())"
  {
    assert "import { " + "fooBar" + " } from '" + "test-id" == "import { fooBar } from 'test-id";
  }

  lemma MergeInputLines()
    ensures "import { foo } from 'test-id'" + ("\n" + "console.log(fooBar())")
      == "import { foo } from 'test-id'\nconsole.log(fooBar())"
  {
    assert "import { foo } from 'test-id'" + "\n" == "import { foo } from 'test-id'\n";
  }

  lemma MergeOutputLines()
    ensures "import { fooBar, foo } from 'test-id'" + ("\n" + "console.log(fooBar())")
      == "import { fooBar, foo } from 'test-id'\nconsole.log(fooBar())"
  {
    assert "import { fooBar, foo } from 'test-id'" + "\n" == "import { fooBar, foo } from 'test-id'\n";
  }

  lemma AtEndInputLines()
    ensures "import { foo } from 'foo'" + ("\n" + "console.log(fooBar())")
      == "import { foo } from 'foo'\nconsole.log(fooBar())"
  {
    assert "import { foo } from 'foo'" + "\n" == "import { foo } from 'foo'\n";
  }

  /** The statement for `fooBar` from `test-id`, as the at-end placement spells it out. */
  lemma FooBarStatement(t: string)
    ensures t + "import { " + "fooBar" + " } from '" + "test-id" + "';\n" == t + "import { fooBar } from 'test-id';\n"
  {
    assert "import { " + "fooBar" + " } from '" + "test-id" + "';\n" == "import { fooBar } from 'test-id';\n";
  }

  lemma AtEndHeadLines()
    ensures "" + "import { foo } from 'foo'" + "\n" + "\n" == "import { foo } from 'foo'\n\n"
  {
  }

  lemma AtEndStatementLines()
    ensures "import { foo } from 'foo'\n\n" + "import { fooBar } from 'test-id';\n"
      == "import { foo } from 'foo'\n\nimport { fooBar } from 'test-id';\n"
  {
  }

  lemma AtEndCallLine()
    ensures "import { foo } from 'foo'\n\nimport { fooBar } from 'test-id';\n" + "console.log(fooBar())"
      == "import { foo } from 'foo'\n\nimport { fooBar } from 'test-id';\nconsole.log(fooBar())"
  {
  }

  lemma AtEndOutputLines()
    ensures "" + "import { foo } from 'foo'" + "\n" + "\n" + "import { fooBar } from 'test-id';\n" + "console.log(fooBar())"
      == "import { foo } from 'foo'\n\nimport { fooBar } from 'test-id';\nconsole.log(fooBar())"
  {
    AtEndHeadLines();
    AtEndStatementLines();
    AtEndCallLine();
  }

  /** The comment lines of the `injection at end with comment` example. */
  lemma CommentHeaderLines()
    ensures ("/*" + "*\n* import { foo } from './foo'\n" + "*/") + ("\n\n" + (("//" + " import { foo1 } from './foo'" + "\n") + ""))
      == "/**\n" + "* import { foo } from './foo'\n" + "*/\n" + "\n" + "// import { foo1 } from './foo'\n"
  {
  }

  lemma CommentInputLines()
    ensures ("/**\n" + "* import { foo } from './foo'\n" + "*/\n" + "\n" + "// import { foo1 } from './foo'\n") + ("import { foo } from 'foo'" + ("\n" + "console.log(fooBar())"))
      == "/**\n" + "* import { foo } from './foo'\n" + "*/\n" + "\n" + "// import { foo1 } from './foo'\n" + "import { foo } from 'foo'\n" + "console.log(fooBar())"
  {
  }

  lemma CommentOutputLines()
    ensures ("/**\n" + "* import { foo } from './foo'\n" + "*/\n" + "\n" + "// import { foo1 } from './foo'\n") + "import { foo } from 'foo'" + "\n" + "\n"
        + "import { " + "fooBar" + " } from '" + "test-id" + "';\n" + "console.log(fooBar())"
      == "/**\n" + "* import { foo } from './foo'\n" + "*/\n" + "\n" + "// import { foo1 } from './foo'\n" + "import { foo } from 'foo'\n" + "\n" + "import { fooBar } from 'test-id';\n" + "console.log(fooBar())"
  {
  }

  lemma RegexInputLines()
    ensures ("const" + (" " + ("regex" + (" " + ("=" + (" " + "")))))) + (("//" + "/" + "\n")
        + (("const" + (" " + ("regex1" + (" " + ("=" + (" " + "")))))) + (("/" + "a" + "[" + "/" + "]" + "bcd" + "/")
        + ("\n" + ("fooBar" + ("(" + (")" + "")))))))
      == "const regex = ///\n" + "const regex1 = /a[/]bcd/\n" + "fooBar()"
  {
    assert "const" + (" " + ("regex" + (" " + ("=" + (" " + ""))))) == "const regex = ";
    assert "const" + (" " + ("regex1" + (" " + ("=" + (" " + ""))))) == "const regex1 = ";
    assert "/" + "a" + "[" + "/" + "]" + "bcd" + "/" == "/a[/]bcd/";
  }

  lemma TernaryInputLines()
    ensures ("const" + (" " + ("result" + (" " + ("=" + (" " + "")))))) + ("true" + (" " + ("?" + (" " + ("false" + (" " + ("?" + (" " + ("A" + (" " + (":" + (" " + ("B" + (" " + (":" + (" " + ("C" + "")))))))))))))))))
      == "const result = true ? false ? A : B : C"
  {
    assert "const" + (" " + ("result" + (" " + ("=" + (" " + ""))))) == "const result = ";
    assert "A" + (" " + (":" + (" " + ("B" + (" " + (":" + (" " + ("C" + "")))))))) == "A : B : C";
  }

  lemma TernaryStatement()
    ensures "import { " + "A, B, C" + " } from '" + "test-id" + "';\n" + "const result = true ? false ? A : B : C"
      == "import { A, B, C } from 'test-id';\n" + "const result = true ? false ? A : B : C"
  {
    assert "import { " + "A, B, C" + " } from '" + "test-id" + "';\n" == "import { A, B, C } from 'test-id';\n";
  }

  lemma MixedHeadLines()
    ensures "import { foo } from 'foo'" + "\n" + "console.log(nonAutoImport())" + "\n" + "import { bar } from 'bar'" + "\n"
      == "import { foo } from 'foo'\n" + "console.log(nonAutoImport())\n" + "import { bar } from 'bar'\n"
  {
  }

  lemma MixedTailLines()
    ensures "console.log(fooBar())" + "\n" + "import { baz } from 'baz'" == "console.log(fooBar())\n" + "import { baz } from 'baz'"
  {
  }

  /** The statement, then the last two lines. */
  lemma MixedOutputLines(t: string)
    ensures t + ("console.log(fooBar())\n" + "import { baz } from 'baz'") == t + "console.log(fooBar())\n" + "import { baz } from 'baz'"
  {
  }
}

