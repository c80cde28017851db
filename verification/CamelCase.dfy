// Two ways to turn lower_underscore names into UpperCamel ones: the
// tokenize-based form of generator_helpers.h and the one-pass state machine of
// ruby_generator_string-inl.h, and exactly where they agree.
module CamelCase {
  import opened Tokens

  // toupper in the C locale
  function Upper(c: char): char { if 'a' <= c <= 'z' then c - 'a' + 'A' else c }

  function Capitalized(s: string): string { if s == "" then "" else [Upper(s[0])] + s[1..] }

  function Capitals(tokens: seq<string>): string {
    if tokens == [] then "" else Capitalized(tokens[0]) + Capitals(tokens[1..])
  }

  function UpperCamel(s: string): string { Capitals(Pieces(s, "_")) }

  lemma {:induction false} CapitalsSnoc(tokens: seq<string>, t: string)
    ensures Capitals(tokens + [t]) == Capitals(tokens) + Capitalized(t)
  {
    if tokens == [] {
      assert [t][1..] == [];
    } else {
      assert (tokens + [t])[1..] == tokens[1..] + [t];
      CapitalsSnoc(tokens[1..], t);
    }
  }

  // LowerUnderscoreToUpperCamel
  method LowerUnderscoreToUpperCamel(str: string) returns (result: string)
    ensures result == UpperCamel(str)
  {
    hide Pieces, Capitalized;
    var tokens := Tokenize(str, "_");
    result := "";
    for i := 0 to |tokens|
      invariant result == Capitals(tokens[..i])
    {
      hide Capitals;
      assert tokens[..i + 1] == tokens[..i] + [tokens[i]];
      CapitalsSnoc(tokens[..i], tokens[i]);
      result := result + Capitalized(tokens[i]);
    }
    assert tokens[..|tokens|] == tokens;
  }

  // What the state machine appends for the rest of the name, given whether the
  // character before it was an underscore.
  function Appended(s: string, wasLastUnderscore: bool): string {
    if s == "" then ""
    else if s[0] == '_' then Appended(s[1..], true)
    else [if wasLastUnderscore then Upper(s[0]) else s[0]] + Appended(s[1..], false)
  }

  function Modularized(s: string): string {
    if s == "" then "" else [Upper(s[0])] + Appended(s[1..], false)
  }

  lemma AppendedFrom(s: string, i: nat, wasLastUnderscore: bool)
    requires i < |s|
    ensures Appended(s[i..], wasLastUnderscore) ==
      (if s[i] == '_' then "" else [if wasLastUnderscore then Upper(s[i]) else s[i]]) +
        Appended(s[i + 1..], s[i] == '_')
  {
    assert s[i..][1..] == s[i + 1..];
  }

  lemma AppendedEmpty(wasLastUnderscore: bool)
    ensures Appended("", wasLastUnderscore) == ""
  {
  }

  lemma FirstAppended(s: string, newString: string)
    requires s != "" && newString == "" + [Upper(s[0])]
    ensures newString + Appended(s[1..], false) == Modularized(s)
  {
    hide Appended, Upper;
  }

  // What one round appends to what is there already.
  lemma AppendedStep(newString: string, s: string, i: nat, wasLastUnderscore: bool)
    requires i < |s|
    ensures var c := if wasLastUnderscore then Upper(s[i]) else s[i];
      newString + Appended(s[i..], wasLastUnderscore) ==
      (if s[i] == '_' then newString else newString + [c]) + Appended(s[i + 1..], s[i] == '_')
  {
    hide Appended, Upper;
    AppendedFrom(s, i, wasLastUnderscore);
  }

  // Modularize
  method Modularize(s: string) returns (r: string)
    ensures r == Modularized(s)
  {
    if s == "" {
      return s;
    }
    var newString := "";
    var wasLastUnderscore := false;
    newString := newString + [Upper(s[0])];
    FirstAppended(s, newString);
    hide Modularized, Appended, Upper;
    for i := 1 to |s|
      invariant newString + Appended(s[i..], wasLastUnderscore) == Modularized(s)
    {
      AppendedStep(newString, s, i, wasLastUnderscore);
      if wasLastUnderscore && s[i] != '_' {
        newString := newString + [Upper(s[i])];
      } else if s[i] != '_' {
        newString := newString + [s[i]];
      }
      wasLastUnderscore := s[i] == '_';
    }
    assert s[|s|..] == "";
    AppendedEmpty(wasLastUnderscore);
    return newString;
  }

  // The state machine reads a name piece by piece: the first piece is copied
  // or capitalised according to the state, every later one is capitalised.
  lemma {:induction false} AppendedPieces(s: string, wasLastUnderscore: bool)
    ensures var p := Pieces(s, "_");
      Appended(s, wasLastUnderscore) ==
        (if wasLastUnderscore then Capitalized(p[0]) else p[0]) + Capitals(p[1..])
  {
    if s != "" {
      var rest := s[1..];
      AppendedPieces(rest, s[0] == '_');
      PiecesCons(s);
    }
  }

  lemma PiecesCons(s: string)
    requires s != ""
    ensures var p, q := Pieces(s, "_"), Pieces(s[1..], "_");
      p == if s[0] == '_' then [""] + q else [[s[0]] + q[0]] + q[1..]
  {
    var rest := s[1..];
    var p := FirstOf(s, "_");
    assert s == [s[0]] + rest;
    if s[0] != '_' && p < |s| {
      assert s[..p] == [s[0]] + rest[..p - 1];
      assert s[p + 1..] == rest[p..];
    }
  }

  lemma CapitalizedFree(t: string)
    requires FreeOf(t, "_")
    ensures '_' !in Capitalized(t)
  {
    if t != "" {
      assert t[0] in t;
      assert Upper(t[0]) != '_';
      assert forall c :: c in t[1..] ==> c in t;
    }
  }

  lemma {:induction false} NoUnderscoreLeft(tokens: seq<string>)
    requires AllFreeOf(tokens, "_")
    ensures '_' !in Capitals(tokens)
  {
    if tokens != [] {
      assert FreeOf(tokens[0], "_") by { assert tokens[0] in tokens; }
      CapitalizedFree(tokens[0]);
      forall t | t in tokens[1..] ensures FreeOf(t, "_") { assert t in tokens; }
      NoUnderscoreLeft(tokens[1..]);
    }
  }

  lemma PlainStartAgrees(s: string)
    requires s != "" && s[0] != '_'
    ensures Modularized(s) == UpperCamel(s)
  {
    hide Capitals, Pieces;
    var rest := s[1..];
    PiecesCons(s);
    AppendedPieces(rest, false);
    var p, q := Pieces(s, "_"), Pieces(rest, "_");
    assert p[0] == [s[0]] + q[0] && p[1..] == q[1..];
    assert Capitalized(p[0]) == [Upper(s[0])] + q[0];
    CapitalsCons(p);
    assert [Upper(s[0])] + (q[0] + Capitals(q[1..])) == Capitalized(p[0]) + Capitals(p[1..]);
  }

  lemma CapitalsCons(tokens: seq<string>)
    requires tokens != []
    ensures Capitals(tokens) == Capitalized(tokens[0]) + Capitals(tokens[1..])
  {
  }

  // The two agree exactly on names that do not begin with an underscore,
  // whatever runs of underscores follow or end the name.
  lemma CamelFormsAgree(s: string)
    ensures Modularized(s) == UpperCamel(s) <==> (s == "" || s[0] != '_')
  {
    if s == "" {
      assert Capitals([""]) == "" by { assert [""][1..] == []; }
    } else if s[0] == '_' {
      PiecesAreFree(s, "_");
      NoUnderscoreLeft(Pieces(s, "_"));
      assert Modularized(s)[0] == '_';
    } else {
      PlainStartAgrees(s);
    }
  }

  // For instance "_a": the state machine keeps the underscore.
  lemma LeadingUnderscoreDiffers()
    ensures Modularized("_a") == "_a" && UpperCamel("_a") == "A"
  {
    assert "_a"[1..] == "a" && "a"[1..] == "";
    assert "_a"[..0] == "" && FirstOf("_a", "_") == 0;
    assert FirstOf("a", "_") == 1;
    assert Pieces("a", "_") == ["a"] && Pieces("_a", "_") == [""] + ["a"];
    assert ([""] + ["a"])[1..] == ["a"] && ["a"][1..] == [];
    assert Capitals(["a"]) == "A";
  }

  // ---- What both forms keep ----

  // A letter, whatever its case.
  function Folded(c: char): int { if 'a' <= c <= 'z' then c as int - 32 else c as int }

  // The characters of a name but for underscores, whatever their case.
  function Letters(s: string): seq<int> {
    if s == "" then [] else (if s[0] == '_' then [] else [Folded(s[0])]) + Letters(s[1..])
  }

  lemma {:induction false} LettersConcat(s: string, t: string)
    ensures Letters(s + t) == Letters(s) + Letters(t)
  {
    if s == "" {
      assert s + t == t;
    } else {
      assert (s + t)[1..] == s[1..] + t;
      LettersConcat(s[1..], t);
    }
  }

  // A capitalized word starts with no small letter and goes on as it was.
  lemma CapitalizedIs(t: string)
    requires t != ""
    ensures |Capitalized(t)| == |t| && Capitalized(t)[1..] == t[1..]
    ensures Folded(Capitalized(t)[0]) == Folded(t[0]) && !('a' <= Capitalized(t)[0] <= 'z')
  {
  }

  lemma {:induction false} CapitalsKeepLetters(tokens: seq<string>)
    ensures Letters(Capitals(tokens)) == Letters(Join(tokens, "_"))
  {
    if tokens != [] {
      hide Letters, Capitalized;
      var t, rest := tokens[0], tokens[1..];
      CapitalsKeepLetters(rest);
      LettersConcat(Capitalized(t), Capitals(rest));
      CapitalizedKeepsLetters(t);
      UnderscoreIsNoLetter();
      if |tokens| > 1 {
        LettersConcat(t + "_", Join(rest, "_"));
        LettersConcat(t, "_");
        assert Letters(t) + [] == Letters(t);
      } else {
        assert rest == [] && Join(rest, "_") == "" && Capitals(rest) == "";
        assert Capitalized(t) + "" == Capitalized(t);
      }
    }
  }

  lemma UnderscoreIsNoLetter()
    ensures Letters("_") == [] && Letters("") == []
  {
    assert "_"[1..] == "";
  }

  lemma CapitalizedKeepsLetters(t: string)
    ensures Letters(Capitalized(t)) == Letters(t)
  {
    if t != "" { CapitalizedIs(t); }
  }

  // The camel form of a name changes the case of letters and drops underscores,
  // and does nothing else.
  lemma CamelKeepsLetters(s: string)
    ensures Letters(UpperCamel(s)) == Letters(s)
  {
    JoinPieces(s, '_');
    CapitalsKeepLetters(Pieces(s, "_"));
    assert ['_'] == "_";
  }

  lemma {:induction false} AppendedKeepsLetters(s: string, wasLastUnderscore: bool)
    ensures Letters(Appended(s, wasLastUnderscore)) == Letters(s)
  {
    if s != "" { AppendedKeepsLetters(s[1..], s[0] == '_'); }
  }

  lemma ModularizeKeepsLetters(s: string)
    ensures Letters(Modularized(s)) == Letters(s)
  {
    if s != "" { AppendedKeepsLetters(s[1..], false); }
  }
}
