// The include lines of imported files: templates put together at run time, in
// which a '$' of the file's name is read as the printer reads it.
module ImportLines {
  import opened Emit
  import opened Tokens
  import opened VariableText
  import opened TemplatePieces

  // proto_name.substr(0, proto_name.size() - 6): a shorter name wraps around
  // and is taken whole.
  function ImportBase(name: string): string { if |name| < 6 then name else name[..|name| - 6] }

  const OPEN: string := "#include \""
  const KEY: string := "message_header_ext"
  const LINE_END: string := "\"\n"

  // ImportInludeFromProtoName
  function ImportTemplate(name: string): string {
    OPEN + (ImportBase(name) + ("$" + KEY + "$" + LINE_END))
  }

  // The variables that can be set while the lines are printed.
  predicate OnlyNames(m: Env) {
    forall v :: v in m ==> v in {VFilename, VFilenameIdentifier, VFilenameBase, VMessageHeaderExt, VServiceHeaderExt}
  }

  function Spelling(m: Env, v: Var, name: string): map<string, string> { if v in m then map[name := m[v]] else map[] }

  // The variable map under the names templates use.
  function SpelledVars(m: Env): map<string, string> {
    Spelling(m, VFilename, "filename") + Spelling(m, VFilenameIdentifier, "filename_identifier") +
    Spelling(m, VFilenameBase, "filename_base") + Spelling(m, VServiceHeaderExt, "service_header_ext") +
    Spelling(m, VMessageHeaderExt, KEY)
  }

  function ImportExpansion(name: string, m: Env): Expansion { Expand(ImportTemplate(name), SpelledVars(m)) }

  lemma ExtIsSpelled(m: Env)
    requires VMessageHeaderExt in m
    ensures KEY in SpelledVars(m) && SpelledVars(m)[KEY] == m[VMessageHeaderExt]
  {
  }

  lemma Quotes()
    ensures FreeOf(OPEN, "$") && FreeOf(LINE_END, "$") && FreeOf(KEY, "$")
  {
  }

  // ---- Which names can be printed, and which come out right ----

  // Each '$' has a partner, and between two of them stands nothing or the one
  // variable a header's import lines have.
  predicate DollarsPaired(s: string) {
    var ps := Pieces(s, "$");
    |ps| % 2 == 1 && forall i :: 0 <= i < |ps| && i % 2 == 1 ==> ps[i] == "" || ps[i] == "message_header_ext"
  }

  lemma {:induction false} JoinConcat(a: seq<string>, b: seq<string>, sep: string)
    requires a != [] && b != []
    ensures Join(a + b, sep) == Join(a, sep) + (sep + Join(b, sep))
  {
    assert a + b == [a[0]] + (a[1..] + b);
    JoinCons(a[0], a[1..] + b, sep);
    if |a| > 1 {
      JoinConcat(a[1..], b, sep);
      assert a == [a[0]] + a[1..];
      JoinCons(a[0], a[1..], sep);
      assert a[0] + (sep + (Join(a[1..], sep) + (sep + Join(b, sep)))) ==
        a[0] + (sep + Join(a[1..], sep)) + (sep + Join(b, sep));
    } else {
      assert a[1..] + b == b;
    }
  }

  lemma JoinHead(head: string, ps: seq<string>, sep: string)
    requires ps != []
    ensures Join([head + ps[0]] + ps[1..], sep) == head + Join(ps, sep)
  {
    if |ps| > 1 {
      assert ps == [ps[0]] + ps[1..];
      JoinCons(ps[0], ps[1..], sep);
      JoinCons(head + ps[0], ps[1..], sep);
    } else {
      assert [head + ps[0]] + ps[1..] == [head + ps[0]];
    }
  }

  // The pieces of a base, with what the template puts around it.
  function Framed(ps: seq<string>): seq<string>
    requires ps != []
  {
    [OPEN + ps[0]] + ps[1..] + [KEY, LINE_END]
  }

  lemma FramedIsFree(ps: seq<string>)
    requires ps != [] && AllFreeOf(ps, "$")
    ensures AllFreeOf(Framed(ps), "$")
  {
    Quotes();
    hide OPEN, KEY, LINE_END;
    forall p | p in Framed(ps) ensures FreeOf(p, "$") {
      assert ps[0] in ps;
      if p in ps[1..] { assert p in ps; }
    }
  }

  lemma TemplateIsFramed(name: string)
    ensures Pieces(ImportTemplate(name), "$") == Framed(Pieces(ImportBase(name), "$"))
  {
    hide OPEN, KEY, LINE_END, ImportBase;
    var base := ImportBase(name);
    var ps := Pieces(base, "$");
    PiecesAreFree(base, "$");
    JoinPieces(base, '$');
    FramedIsFree(ps);
    JoinConcat([OPEN + ps[0]] + ps[1..], [KEY, LINE_END], "$");
    JoinHead(OPEN, ps, "$");
    JoinCons(KEY, [LINE_END], "$");
    assert [KEY, LINE_END] == [KEY] + [LINE_END];
    assert OPEN + base + ("$" + (KEY + ("$" + LINE_END))) == ImportTemplate(name);
    PiecesJoin(Framed(ps), '$');
  }

  lemma FramedPaired(ps: seq<string>, vars: map<string, string>)
    requires ps != [] && vars.Keys == {KEY}
    ensures Paired(Framed(ps), vars) <==>
            |ps| % 2 == 1 && forall i :: 0 <= i < |ps| && i % 2 == 1 ==> ps[i] == "" || ps[i] == KEY
  {
    hide OPEN, KEY, LINE_END;
    var fs := Framed(ps);
    assert forall i :: 0 < i < |ps| ==> fs[i] == ps[i];
    assert fs[|ps|] == KEY && |fs| == |ps| + 2;
  }

  lemma OneVariable(m: Env)
    requires m.Keys == {VMessageHeaderExt}
    ensures SpelledVars(m).Keys == {KEY} && SpelledVars(m)[KEY] == m[VMessageHeaderExt]
  {
    ExtIsSpelled(m);
  }

  // Exactly which import lines a header can print.
  lemma ImportExpandsIff(name: string, m: Env)
    requires m.Keys == {VMessageHeaderExt}
    ensures ImportExpansion(name, m).Expanded? <==> DollarsPaired(ImportBase(name))
  {
    OneVariable(m);
    hide Expand, SpelledVars, ImportBase, ImportTemplate, Paired, Pieces;
    var ps := Pieces(ImportBase(name), "$");
    TemplateIsFramed(name);
    ExpandsIff(ImportTemplate(name), SpelledVars(m));
    FramedPaired(ps, SpelledVars(m));
  }

  // The line that includes the import's own message header.
  function ImportLine(name: string, ext: string): string { OPEN + (ImportBase(name) + (ext + LINE_END)) }

  // Without a '$' in the part that is kept the line is what the name suggests,
  // whatever other variables there are.
  lemma PlainImport(name: string, m: Env)
    requires '$' !in ImportBase(name) && VMessageHeaderExt in m
    ensures ImportExpansion(name, m) == Expanded(ImportLine(name, m[VMessageHeaderExt]))
  {
    var vars, base := SpelledVars(m), ImportBase(name);
    Quotes();
    ExtIsSpelled(m);
    DollarFree(base);
    hide Expand, FreeOf, SpelledVars, ImportBase, OPEN, KEY, LINE_END;
    ExpandAllFree(LINE_END, vars);
    ExpandVariable(KEY, LINE_END, vars);
    ExpandFree(base, "$" + KEY + "$" + LINE_END, vars);
    ExpandFree(OPEN, base + ("$" + KEY + "$" + LINE_END), vars);
  }

  lemma LineDollars(name: string, ext: string)
    requires '$' !in ext
    ensures Dollars(ImportLine(name, ext)) == |Pieces(ImportBase(name), "$")| - 1
  {
    var base := ImportBase(name);
    Quotes();
    hide OPEN, LINE_END, ImportBase, Pieces;
    DollarFree(OPEN);
    DollarFree(ext);
    DollarFree(LINE_END);
    DollarsConcat(OPEN, base + (ext + LINE_END));
    DollarsConcat(base, ext + LINE_END);
    DollarsConcat(ext, LINE_END);
    PiecesAreFree(base, "$");
    JoinPieces(base, '$');
    DollarsJoined(Pieces(base, "$"));
  }

  // A line with a '$' in its name loses some.
  lemma DollarsLost(name: string, m: Env)
    requires m.Keys == {VMessageHeaderExt} && '$' !in m[VMessageHeaderExt]
    requires '$' in ImportBase(name) && ImportExpansion(name, m).Expanded?
    ensures Dollars(ImportExpansion(name, m).text) < Dollars(ImportLine(name, m[VMessageHeaderExt]))
  {
    var vars, ps := SpelledVars(m), Pieces(ImportBase(name), "$");
    OneVariable(m);
    Quotes();
    hide Expand, SpelledVars, ImportBase, ImportTemplate, ImportLine, OPEN, LINE_END, FreeOf, Paired;
    KeyIsNamed();
    var fs := Framed(ps);
    TemplateIsFramed(name);
    ExpandIsSubstituted(ImportTemplate(name), vars);
    SubstitutedIff(fs, vars);
    PairedIsOdd(fs, vars);
    PiecesAreFree(ImportTemplate(name), "$");
    DollarFree(m[VMessageHeaderExt]);
    DollarsPrinted(fs, vars);
    LastNameIsNotDoubled(fs);
    LineDollars(name, m[VMessageHeaderExt]);
    NotFreeHasPieces(ImportBase(name));
  }

  lemma KeyIsNamed()
    ensures KEY != ""
  {
  }

  lemma PairedIsOdd(ps: seq<string>, vars: map<string, string>)
    requires Paired(ps, vars)
    ensures |ps| % 2 == 1
  {
  }

  lemma NotFreeHasPieces(s: string)
    requires '$' in s
    ensures |Pieces(s, "$")| > 1
  {
    DollarFree(s);
    PiecesAreFree(s, "$");
    JoinPieces(s, '$');
    DollarsJoined(Pieces(s, "$"));
  }

  // Exactly which import lines include the import's own message header: those
  // of names that keep no '$'. Any other fails, or names a file with fewer.
  lemma ImportLineIff(name: string, m: Env)
    requires m.Keys == {VMessageHeaderExt} && '$' !in m[VMessageHeaderExt]
    ensures ImportExpansion(name, m) == Expanded(ImportLine(name, m[VMessageHeaderExt])) <==> '$' !in ImportBase(name)
    ensures '$' in ImportBase(name) && ImportExpansion(name, m).Expanded? ==>
            Dollars(ImportExpansion(name, m).text) < Dollars(ImportLine(name, m[VMessageHeaderExt]))
  {
    hide ImportExpansion, ImportLine, ImportBase, Dollars;
    if '$' !in ImportBase(name) {
      PlainImport(name, m);
    } else if ImportExpansion(name, m).Expanded? {
      DollarsLost(name, m);
    }
  }

  // More variables leave what could be printed as it was.
  lemma {:induction false} ExpandMore(t: string, vars: map<string, string>, more: map<string, string>)
    requires forall n :: n in vars ==> n in more && more[n] == vars[n]
    requires Expand(t, vars).Expanded?
    ensures Expand(t, more) == Expand(t, vars)
    decreases |t|
  {
    if t != "" {
      var rest := t[1..];
      if t[0] != '$' {
        ExpandMore(rest, vars, more);
      } else {
        var j := FirstOf(rest, "$");
        if j == 0 { ExpandMore(rest[1..], vars, more); } else { ExpandMore(rest[j + 1..], vars, more); }
      }
    }
  }

  // For instance "a$b.proto": the '$' of the name takes the one in front of
  // the extension for its partner.
  lemma DollarImportFails(m: Env)
    requires m.Keys == {VMessageHeaderExt}
    ensures ImportExpansion("a$b.proto", m) == Unbound
  {
    hide Expand, ImportTemplate, SpelledVars;
    ImportExpandsIff("a$b.proto", m);
    assert ImportBase("a$b.proto") == "a$b";
    PiecesJoin(["a", "b"], '$');
    assert Join(["a", "b"], "$") == "a$b" by { assert ["a", "b"][1..] == ["b"]; }
  }

  lemma ThreePieces(ps: seq<string>, vars: map<string, string>)
    requires |ps| == 3 && ps[1] == "" && KEY in vars
    ensures Substituted(Framed(ps), vars) == Expanded(OPEN + (ps[0] + "$" + ps[2] + (vars[KEY] + LINE_END)))
  {
    KeyIsNamed();
    hide OPEN, KEY, LINE_END;
    var fs := Framed(ps);
    assert fs[2..] == [ps[2], KEY, LINE_END] && fs[2..][2..] == [LINE_END];
    assert Substituted(fs[2..], vars) == Expanded(ps[2] + vars[KEY] + LINE_END);
    assert OPEN + ps[0] + "$" + (ps[2] + vars[KEY] + LINE_END) == OPEN + (ps[0] + "$" + ps[2] + (vars[KEY] + LINE_END));
  }

  lemma DoubleDollarPieces()
    ensures ImportBase("a$$b.proto") == "a$$b" && ImportBase("a$b.proto") == "a" + "$" + "b"
    ensures Pieces("a$$b", "$") == ["a", "", "b"]
  {
    var ps := ["a", "", "b"];
    PiecesJoin(ps, '$');
    assert ps[1..] == ["", "b"] && ps[1..][1..] == ["b"];
    assert Join(ps, "$") == "a$$b";
  }

  // And "a$$b.proto": the plugin succeeds, and its files include the header
  // that protoc writes for another name.
  lemma DoubleDollarImport(m: Env)
    requires m.Keys == {VMessageHeaderExt}
    ensures ImportExpansion("a$$b.proto", m) == Expanded(ImportLine("a$b.proto", m[VMessageHeaderExt]))
  {
    OneVariable(m);
    DoubleDollarPieces();
    hide Expand, SpelledVars, ImportBase, ImportTemplate, Substituted, OPEN, KEY, LINE_END, Pieces;
    TemplateIsFramed("a$$b.proto");
    ExpandIsSubstituted(ImportTemplate("a$$b.proto"), SpelledVars(m));
    ThreePieces(["a", "", "b"], SpelledVars(m));
  }
}
