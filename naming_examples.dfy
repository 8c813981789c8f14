/** Worked examples of the naming conventions, evaluated by the verifier. */
module NamingExamples {
  import opened PyStr
  import opened Naming

  lemma SpaceUpperRunsExample()
    ensures SpaceUpperRuns("MyOp", false) == " My Op"
  {
    assert SpaceUpperRuns("p", true) == "p";
    assert SpaceUpperRuns("Op", false) == " Op";
    assert SpaceUpperRuns("yOp", true) == "y Op";
  }
  lemma SpaceCapitalWordsTail()
    ensures SpaceCapitalWords(" Op") == "  Op"
  {
    assert SpaceCapitalWords("p") == "p";
    assert SpaceCapitalWords("Op") == " Op";
  }
  lemma SpaceCapitalWordsMid()
    ensures SpaceCapitalWords("y Op") == "y  Op"
  {
    SpaceCapitalWordsTail();
    var t := "y Op";
    assert t[1..] == " Op";
    assert SpaceCapitalWords(t) == [t[0]] + SpaceCapitalWords(t[1..]);
  }
  lemma SpaceCapitalWordsExample()
    ensures SpaceCapitalWords(" My Op") == "  My  Op"
  {
    SpaceCapitalWordsMid();
    var t := " My Op";
    assert t[1..] == "My Op" && t[1..][1..] == "y Op";
    assert SpaceCapitalWords(t[1..]) == " " + [t[1]] + SpaceCapitalWords(t[2..]);
    assert SpaceCapitalWords(t) == [t[0]] + SpaceCapitalWords(t[1..]);
  }
  lemma WordsExampleTail()
    ensures Words("  Op") == ["Op"]
  {
    assert WordLength("Op") == 2;
    assert "Op"[..2] == "Op" && "Op"[2..] == [];
    assert Words("Op") == ["Op"];
    assert Words(" Op") == ["Op"];
  }
  lemma WordsExample()
    ensures Words("  My  Op") == ["My", "Op"]
  {
    WordsExampleTail();
    assert WordLength("My  Op") == 2;
    assert "My  Op"[..2] == "My" && "My  Op"[2..] == "  Op";
    assert Words("My  Op") == ["My", "Op"];
    assert Words(" My  Op") == ["My", "Op"];
  }
  lemma LabelExample()
    ensures Label("MyOp") == "My Op"
  {
    SpaceUpperRunsExample(); SpaceCapitalWordsExample(); WordsExample();
    JoinExample();
  }
  lemma JoinExample()
    ensures Join(["My", "Op"]) == "My Op"
  {
    assert Join(["Op"]) == "Op";
    assert ["My", "Op"][1..] == ["Op"];
  }

  /** One step of `replace('OT_', '')` where the text does not start with `OT_`. */
  lemma KeepHead(s: string)
    requires |s| >= 3 && s[..3] != "OT_"
    ensures RemoveAll(s, "OT_") == [s[0]] + RemoveAll(s[1..], "OT_")
  {
  }
  /** One step of `replace('OT_', '')` where the text starts with `OT_`. */
  lemma DropHead(s: string)
    requires |s| >= 3 && s[..3] == "OT_"
    ensures RemoveAll(s, "OT_") == RemoveAll(s[3..], "OT_")
  {
  }
  /** `replace('OT_', '')` also deletes an `OT_` that starts inside a word:
      `OOT_…` keeps only its first `O`. */
  lemma RemoveOtFromOOT(x: string)
    requires 'T' !in x
    ensures NoOt("OOT_" + x) == "O" + x
  {
    var s := "OOT_" + x;
    assert s[1..] == "OT_" + x;
    assert s[1..][..3] == "OT_" && s[1..][3..] == x;
    RemoveOtWithoutT(x);
    DropHead(s[1..]);
    assert s[..3] != "OT_" by { assert s[1] != 'T'; }
    KeepHead(s);
  }
  /** So a class named `ROOT_…` loses the `OT_` of its own name. */
  lemma NoOtRemovesInside(x: string)
    requires 'T' !in x
    ensures NoOt("ROOT_" + x) == "RO" + x
  {
    var s := "ROOT_" + x;
    assert s[..3] != "OT_" by { assert s[0] != 'O'; }
    assert s[1..] == "OOT_" + x;
    KeepHead(s);
    RemoveOtFromOOT(x);
    assert [s[0]] + ("O" + x) == "RO" + x;
  }
  lemma NoOtCanLeaveOt()
    ensures NoOt("OOT_T_") == "OT_"
  {
    var s := "OOT_T_";
    assert RemoveAll("T_", "OT_") == "T_";
    assert "OT_T_"[..3] == "OT_" && "OT_T_"[3..] == "T_";
    DropHead("OT_T_");
    assert s[..3] != "OT_" by { assert s[1] != 'T'; }
    assert s[1..] == "OT_T_";
    KeepHead(s);
    assert [s[0]] + "T_" == "OT_";
  }

  lemma {:induction false} RemoveOtWithoutT(s: string)
    requires 'T' !in s
    ensures RemoveAll(s, "OT_") == s
    decreases |s|
  {
    if |s| >= 3 {
      assert s[..3] != "OT_" by { assert s[1] != 'T'; }
      RemoveOtWithoutT(s[1..]);
      assert s == [s[0]] + s[1..];
    }
  }
  lemma UnderscoredLowerExample()
    ensures Underscored("p") == "p"
  {
  }
  lemma UnderscoredUpperExample()
    ensures Underscored("Op") == "_Op"
  {
    UnderscoredLowerExample();
    var t := "Op";
    assert t[1..] == "p";
    assert Underscored(t) == "_" + [t[0]] + Underscored(t[1..]);
  }
  lemma UnderscoredExample()
    ensures Underscored("yOp") == "y_Op"
  {
    UnderscoredUpperExample();
    var t := "yOp";
    assert t[1..] == "Op";
    assert Underscored(t) == [t[0]] + Underscored(t[1..]);
  }
  lemma SnakeCaseExample()
    ensures SnakeCase("MyOp") == "my_op"
  {
    var s := "MyOp";
    UnderscoredExample();
    assert s[1..] == "yOp";
    assert [s[0]] + Underscored(s[1..]) == "My_Op";
    assert Lower("My_Op") == "my_op";
  }
  lemma NoOtExample()
    ensures NoOt("OT_Ab_MyOp") == "Ab_MyOp"
  {
    var s := "OT_Ab_MyOp";
    assert s[..3] == "OT_" && s[3..] == "Ab_MyOp";
    RemoveOtWithoutT("Ab_MyOp");
  }
  /** A stripped name `a_b` with no `_` in `a` splits into namespace `a` and body `b`. */
  lemma IdnameOfSplit(n: string, a: string, b: string)
    requires NoOt(n) == a + "_" + b && '_' !in a
    ensures IdAttr(n) == Lower(a) && IdEnd(n) == b
  {
    var s := NoOt(n);
    assert s[|a|] == '_';
    var k := IdEndIndex(n);
    assert k == |a|;
    assert s[..k] == a && s[k + 1..] == b;
  }
  lemma LowerExample()
    ensures Lower("Ab") == "ab"
  {
  }
  lemma IdPartsExample()
    ensures Lower("Ab") + "." + SnakeCase("MyOp") == "ab.my_op"
  {
    LowerExample();
    SnakeCaseExample();
  }
  lemma IdnameExample()
    ensures GeneratedIdname("OT_Ab_MyOp") == "ab.my_op"
    ensures IdAttr("OT_Ab_MyOp") == "ab" && IdEnd("OT_Ab_MyOp") == "MyOp"
  {
    NoOtExample();
    assert "Ab_MyOp" == "Ab" + "_" + "MyOp";
    IdnameOfSplit("OT_Ab_MyOp", "Ab", "MyOp");
    LowerExample();
    IdPartsExample();
  }
  lemma IdnameWithoutUnderscoreExample()
    ensures GeneratedIdname("OT_Op") == "o.op"
    ensures IdEnd("OT_Op") == "Op"
  {
    RemoveOtWithoutT("Op");
    assert "OT_Op"[..3] == "OT_" && "OT_Op"[3..] == "Op";
    assert NoOt("OT_Op") == "Op";
    assert Find("Op", '_') == -1;
    assert Slice("Op", 0, -1) == "O";
    assert Slice("Op", 0, 2) == "Op";
    assert Lower("O") == "o";
    assert Underscored("p") == "p";
    assert Lower("Op") == "op";
  }
}
