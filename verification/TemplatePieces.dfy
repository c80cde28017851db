// A template read as its pieces between '$': every second one is a variable's
// name, or empty for a '$' of the text.
module TemplatePieces {
  import opened Tokens
  import opened VariableText

  // What the pieces stand for.
  function Substituted(ps: seq<string>, vars: map<string, string>): Expansion
    requires ps != []
  {
    if |ps| == 1 then Expanded(ps[0])
    else if |ps| == 2 || (ps[1] != "" && ps[1] !in vars) then Unbound
    else Prepend(ps[0] + (if ps[1] == "" then "$" else vars[ps[1]]), Substituted(ps[2..], vars))
  }

  // Each '$' has a partner, and what stands between two of them is a known
  // name or nothing.
  predicate Paired(ps: seq<string>, vars: map<string, string>) {
    |ps| % 2 == 1 && forall i :: 0 <= i < |ps| && i % 2 == 1 ==> ps[i] == "" || ps[i] in vars
  }

  lemma ExpandFree(s: string, t: string, vars: map<string, string>)
    requires FreeOf(s, "$")
    ensures Expand(s + t, vars) == Prepend(s, Expand(t, vars))
  {
    hide Expand, Prepend, Escaped;
    EscapedFree(s);
    ExpandEscaped(s, t, vars);
  }

  lemma ExpandAllFree(s: string, vars: map<string, string>)
    requires FreeOf(s, "$")
    ensures Expand(s, vars) == Expanded(s)
  {
    ExpandFree(s, "", vars);
    assert s + "" == s;
  }

  lemma ExpandUnpaired(s: string, vars: map<string, string>)
    requires FreeOf(s, "$")
    ensures Expand("$" + s, vars) == Unbound
  {
    assert ("$" + s)[1..] == s;
    FirstOfAt(s, "", "$");
  }

  lemma JoinCons(p: string, rest: seq<string>, sep: string)
    requires rest != []
    ensures Join([p] + rest, sep) == p + (sep + Join(rest, sep))
  {
    assert ([p] + rest)[1..] == rest;
  }

  lemma {:induction false} ExpandJoined(ps: seq<string>, vars: map<string, string>)
    requires ps != [] && AllFreeOf(ps, "$")
    ensures Expand(Join(ps, "$"), vars) == Substituted(ps, vars)
  {
    hide Expand, Prepend;
    assert FreeOf(ps[0], "$") by { assert ps[0] in ps; }
    if |ps| == 1 {
      ExpandAllFree(ps[0], vars);
    } else {
      assert FreeOf(ps[1], "$") by { assert ps[1] in ps; }
      assert ps == [ps[0]] + ps[1..];
      JoinCons(ps[0], ps[1..], "$");
      if |ps| == 2 {
        ExpandUnpaired(ps[1], vars);
        ExpandFree(ps[0], "$" + ps[1], vars);
        NothingPrepended(ps[0]);
      } else {
        forall p | p in ps[2..] ensures FreeOf(p, "$") { assert p in ps; }
        ExpandJoined(ps[2..], vars);
        ExpandTwo(ps, vars);
      }
    }
  }

  lemma NothingPrepended(s: string)
    ensures Prepend(s, Unbound) == Unbound
  {
  }

  // Two pieces and the rest.
  lemma ExpandTwo(ps: seq<string>, vars: map<string, string>)
    requires |ps| > 2 && AllFreeOf(ps, "$") && Expand(Join(ps[2..], "$"), vars) == Substituted(ps[2..], vars)
    ensures Expand(Join(ps, "$"), vars) == Substituted(ps, vars)
  {
    hide Expand, Prepend;
    var rest := Join(ps[2..], "$");
    assert FreeOf(ps[0], "$") && FreeOf(ps[1], "$") by { assert ps[0] in ps && ps[1] in ps; }
    assert ps == [ps[0]] + ([ps[1]] + ps[2..]);
    JoinCons(ps[1], ps[2..], "$");
    JoinCons(ps[0], [ps[1]] + ps[2..], "$");
    assert "$" + (ps[1] + ("$" + rest)) == "$" + ps[1] + "$" + rest;
    ExpandFree(ps[0], "$" + ps[1] + "$" + rest, vars);
    ExpandVariable(ps[1], rest, vars);
    NothingPrepended(ps[0]);
    if ps[1] == "" {
      Prepended(ps[0], "$", Expand(rest, vars));
    } else if ps[1] in vars {
      Prepended(ps[0], vars[ps[1]], Expand(rest, vars));
    }
  }

  // The printer reads any template as its pieces.
  lemma ExpandIsSubstituted(t: string, vars: map<string, string>)
    ensures Expand(t, vars) == Substituted(Pieces(t, "$"), vars)
  {
    PiecesAreFree(t, "$");
    JoinPieces(t, '$');
    ExpandJoined(Pieces(t, "$"), vars);
  }

  lemma {:induction false} SubstitutedIff(ps: seq<string>, vars: map<string, string>)
    requires ps != []
    ensures Substituted(ps, vars).Expanded? <==> Paired(ps, vars)
  {
    if |ps| > 2 {
      SubstitutedIff(ps[2..], vars);
      PairedRest(ps, vars);
    }
  }

  lemma PairedRest(ps: seq<string>, vars: map<string, string>)
    requires |ps| > 2
    ensures Paired(ps, vars) <==> (ps[1] == "" || ps[1] in vars) && Paired(ps[2..], vars)
  {
    if (ps[1] == "" || ps[1] in vars) && Paired(ps[2..], vars) {
      forall i | 0 <= i < |ps| && i % 2 == 1 ensures ps[i] == "" || ps[i] in vars {
        if i > 1 { assert ps[2..][i - 2] == ps[i]; }
      }
    }
    if Paired(ps, vars) {
      forall i | 0 <= i < |ps[2..]| && i % 2 == 1 ensures ps[2..][i] == "" || ps[2..][i] in vars {
        assert ps[i + 2] == ps[2..][i];
      }
    }
  }

  // Exactly which templates can be printed.
  lemma ExpandsIff(t: string, vars: map<string, string>)
    ensures Expand(t, vars).Expanded? <==> Paired(Pieces(t, "$"), vars)
  {
    ExpandIsSubstituted(t, vars);
    SubstitutedIff(Pieces(t, "$"), vars);
  }

  // ---- Counting '$' ----

  function Dollars(s: string): nat { if s == "" then 0 else (if s[0] == '$' then 1 else 0) + Dollars(s[1..]) }

  lemma {:induction false} DollarsConcat(a: string, b: string)
    ensures Dollars(a + b) == Dollars(a) + Dollars(b)
  {
    if a == "" {
      assert a + b == b;
    } else {
      assert (a + b)[1..] == a[1..] + b;
      DollarsConcat(a[1..], b);
    }
  }

  lemma {:induction false} DollarFree(s: string)
    ensures Dollars(s) == 0 <==> '$' !in s
    ensures FreeOf(s, "$") <==> '$' !in s
  {
    if s != "" {
      DollarFree(s[1..]);
      assert s == [s[0]] + s[1..];
    }
  }

  lemma {:induction false} DollarsJoined(ps: seq<string>)
    requires ps != [] && AllFreeOf(ps, "$")
    ensures Dollars(Join(ps, "$")) == |ps| - 1
  {
    DollarFree(ps[0]);
    assert FreeOf(ps[0], "$") by { assert ps[0] in ps; }
    if |ps| > 1 {
      assert ps == [ps[0]] + ps[1..];
      JoinCons(ps[0], ps[1..], "$");
      forall p | p in ps[1..] ensures FreeOf(p, "$") { assert p in ps; }
      DollarsJoined(ps[1..]);
      DollarsConcat(ps[0], "$" + Join(ps[1..], "$"));
      DollarsConcat("$", Join(ps[1..], "$"));
      assert Dollars("$") == 1;
    }
  }

  // Each '$' of the printed text took two of the template.
  function Doubled(ps: seq<string>): nat {
    if |ps| < 3 then 0 else (if ps[1] == "" then 1 else 0) + Doubled(ps[2..])
  }

  lemma {:induction false} DollarsPrinted(ps: seq<string>, vars: map<string, string>)
    requires ps != [] && AllFreeOf(ps, "$") && Substituted(ps, vars).Expanded?
    requires forall n :: n in vars ==> FreeOf(vars[n], "$")
    ensures Dollars(Substituted(ps, vars).text) == Doubled(ps)
  {
    DollarFree(ps[0]);
    assert FreeOf(ps[0], "$") by { assert ps[0] in ps; }
    if |ps| > 2 {
      var v := if ps[1] == "" then "$" else vars[ps[1]];
      forall p | p in ps[2..] ensures FreeOf(p, "$") { assert p in ps; }
      DollarsPrinted(ps[2..], vars);
      DollarsConcat(ps[0] + v, Substituted(ps[2..], vars).text);
      DollarsConcat(ps[0], v);
      DollarFree(v);
      assert Dollars("$") == 1;
    }
  }

  lemma {:induction false} LastNameIsNotDoubled(ps: seq<string>)
    requires |ps| > 2 && |ps| % 2 == 1 && ps[|ps| - 2] != ""
    ensures 2 * Doubled(ps) <= |ps| - 3
  {
    if |ps| > 3 {
      LastNameIsNotDoubled(ps[2..]);
    } else {
      assert ps[2..] == [ps[2]];
    }
  }
}
