// The `$name$` language of the printer at the level of characters, the escape
// that protects comment text from it, and the prefixed comments.
module VariableText {
  import opened Tokens

  datatype Expansion = Expanded(text: string) | Unbound

  function Prepend(head: string, e: Expansion): Expansion {
    if e.Unbound? then Unbound else Expanded(head + e.text)
  }

  // What Printer::Print makes of a template: text outside '$' is copied, the
  // name between two '$' is looked up, and an empty name prints a '$'. A
  // missing closing '$' or an unknown name is the printer's fatal error.
  function Expand(t: string, vars: map<string, string>): Expansion
    decreases |t|
  {
    if t == "" then Expanded("")
    else if t[0] != '$' then Prepend([t[0]], Expand(t[1..], vars))
    else
      var rest := t[1..];
      var j := FirstOf(rest, "$");
      if j == |rest| then Unbound
      else if j == 0 then Prepend("$", Expand(rest[1..], vars))
      else if rest[..j] in vars then Prepend(vars[rest[..j]], Expand(rest[j + 1..], vars))
      else Unbound
  }

  // A template as the sequence of pieces it was written from.
  datatype Piece = Verbatim(text: string) | Variable(name: string)

  function Spelled(pieces: seq<Piece>): string {
    if pieces == [] then ""
    else (match pieces[0] case Verbatim(s) => Escaped(s) case Variable(n) => "$" + n + "$") + Spelled(pieces[1..])
  }

  function Values(pieces: seq<Piece>, vars: map<string, string>): Expansion {
    if pieces == [] then Expanded("")
    else match pieces[0]
      case Verbatim(s) => Prepend(s, Values(pieces[1..], vars))
      case Variable(n) => if n in vars then Prepend(vars[n], Values(pieces[1..], vars)) else Unbound
  }

  // Every '$' doubled.
  function Escaped(s: string): string {
    if s == "" then "" else (if s[0] == '$' then "$$" else [s[0]]) + Escaped(s[1..])
  }

  lemma ExpandPlain(c: char, t: string, vars: map<string, string>)
    requires c != '$'
    ensures Expand([c] + t, vars) == Prepend([c], Expand(t, vars))
  {
    assert ([c] + t)[1..] == t;
  }

  lemma ExpandVariable(name: string, t: string, vars: map<string, string>)
    requires FreeOf(name, "$")
    ensures Expand("$" + name + "$" + t, vars) ==
      if name == "" then Prepend("$", Expand(t, vars))
      else if name in vars then Prepend(vars[name], Expand(t, vars)) else Unbound
  {
    var rest := name + ("$" + t);
    var u := "$" + name + "$" + t;
    assert u[0] == '$' && u[1..] == rest;
    FirstOfAt(name, "$" + t, "$");
    assert rest[..|name|] == name && rest[|name| + 1..] == t;
  }

  lemma PrependEmpty(e: Expansion)
    ensures Prepend("", e) == e
  {
    if e.Expanded? { assert "" + e.text == e.text; }
  }

  lemma EscapedThen(s: string, t: string)
    requires s != ""
    ensures Escaped(s) + t ==
      if s[0] == '$' then "$" + "" + "$" + (Escaped(s[1..]) + t) else [s[0]] + (Escaped(s[1..]) + t)
  {
  }

  lemma {:induction false} ExpandEscaped(s: string, t: string, vars: map<string, string>)
    ensures Expand(Escaped(s) + t, vars) == Prepend(s, Expand(t, vars))
  {
    if s == "" {
      assert "" + t == t;
      PrependEmpty(Expand(t, vars));
    } else {
      hide Expand, Prepend, Escaped;
      ExpandEscaped(s[1..], t, vars);
      EscapedThen(s, t);
      Prepended([s[0]], s[1..], Expand(t, vars));
      assert s == [s[0]] + s[1..];
      if s[0] == '$' {
        ExpandVariable("", Escaped(s[1..]) + t, vars);
      } else {
        ExpandPlain(s[0], Escaped(s[1..]) + t, vars);
      }
    }
  }

  // The printer reads a template left to right into the pieces it was spelled
  // from, adjacent variables included.
  lemma {:induction false} ExpandSpelled(pieces: seq<Piece>, vars: map<string, string>)
    requires forall p :: p in pieces && p.Variable? ==> p.name != "" && FreeOf(p.name, "$")
    ensures Expand(Spelled(pieces), vars) == Values(pieces, vars)
  {
    if pieces != [] {
      assert pieces[0] in pieces;
      assert forall p :: p in pieces[1..] ==> p in pieces;
      ExpandSpelled(pieces[1..], vars);
      var rest := Spelled(pieces[1..]);
      match pieces[0]
      case Verbatim(s) => ExpandEscaped(s, rest, vars);
      case Variable(n) =>
        assert "$" + n + "$" + rest == ("$" + n + "$") + rest;
        ExpandVariable(n, rest, vars);
    }
  }

  lemma Prepended(a: string, b: string, e: Expansion)
    ensures Prepend(a, Prepend(b, e)) == Prepend(a + b, e)
  {
    if e.Expanded? { assert a + (b + e.text) == a + b + e.text; }
  }

  // Variables side by side stay apart: in `$l$$h$$r$` the inner pairs of '$'
  // close one name and open the next, they are not an escaped '$'.
  lemma AdjacentVariables(l: string, h: string, r: string, t: string, vars: map<string, string>)
    requires forall n :: n in [l, h, r] ==> n != "" && FreeOf(n, "$") && n in vars
    ensures Expand("$" + l + "$" + ("$" + h + "$" + ("$" + r + "$" + t)), vars) ==
            Prepend(vars[l] + vars[h] + vars[r], Expand(t, vars))
  {
    hide Expand, Prepend;
    assert l in [l, h, r] && h in [l, h, r] && r in [l, h, r];
    ExpandVariable(l, "$" + h + "$" + ("$" + r + "$" + t), vars);
    ExpandVariable(h, "$" + r + "$" + t, vars);
    ExpandVariable(r, t, vars);
    var e := Expand(t, vars);
    Prepended(vars[h], vars[r], e);
    Prepended(vars[l], vars[h] + vars[r], e);
    assert vars[l] + (vars[h] + vars[r]) == vars[l] + vars[h] + vars[r];
  }

  lemma {:induction false} EscapedFree(s: string)
    requires FreeOf(s, "$")
    ensures Escaped(s) == s
  {
    if s != "" {
      assert s[0] in s;
      assert forall c :: c in s[1..] ==> c in s;
      EscapedFree(s[1..]);
      assert s == [s[0]] + s[1..];
    }
  }

  lemma {:induction false} EscapedConcat(s: string, t: string)
    ensures Escaped(s + t) == Escaped(s) + Escaped(t)
  {
    if s == "" {
      assert s + t == t;
    } else {
      assert (s + t)[1..] == s[1..] + t;
      EscapedConcat(s[1..], t);
    }
  }

  lemma EscapedDollar(rest: string)
    ensures Escaped("$" + rest) == "$$" + Escaped(rest)
  {
    assert ("$" + rest)[1..] == rest;
  }

  lemma FreeUpTo(s: string, from: nat, to: nat)
    requires from <= to <= |s| && to <= from + FirstOf(s[from..], "$")
    ensures FreeOf(s[from..to], "$")
  {
    forall c | c in s[from..to] ensures c !in "$" {
      var k :| 0 <= k < to - from && s[from..to][k] == c;
      assert s[from..][k] == c;
    }
  }

  // One round of the escaping loop, which doubles a '$' in place and goes on
  // behind it.
  lemma EscapedAt(s: string, from: nat, index: nat)
    requires from <= index < |s| && index == from + FirstOf(s[from..], "$")
    ensures var s' := s[..index] + "$$" + s[index + 1..];
      s'[..index + 2] + Escaped(s'[index + 2..]) == s[..from] + Escaped(s[from..])
  {
    hide Escaped;
    var plain, rest := s[from..index], s[index + 1..];
    assert s[from..][index - from] == '$';
    assert s[from..] == plain + ("$" + rest);
    EscapedConcat(plain, "$" + rest);
    EscapedDollar(rest);
    FreeUpTo(s, from, index);
    EscapedFree(plain);
    var s' := s[..index] + "$$" + rest;
    assert s'[index + 2..] == rest;
    assert s'[..index + 2] == s[..from] + plain + "$$";
    var e := Escaped(rest);
    assert s[..from] + (plain + ("$$" + e)) == (s[..from] + plain + "$$") + e;
  }

  lemma EscapedNone(s: string, from: nat)
    requires from <= |s| && |s| == from + FirstOf(s[from..], "$")
    ensures s == s[..from] + Escaped(s[from..])
  {
    FreeUpTo(s, from, |s|);
    assert s[from..|s|] == s[from..];
    EscapedFree(s[from..]);
  }

  // EscapeVariableDelimiters
  method EscapeVariableDelimiters(original: string) returns (mutStr: string)
    ensures mutStr == Escaped(original)
  {
    mutStr := original;
    var index: nat := 0;
    assert original[0..] == original;
    while true
      invariant index <= |mutStr|
      invariant mutStr[..index] + Escaped(mutStr[index..]) == Escaped(original)
      decreases |mutStr| - index
    {
      hide Escaped;
      var from := index;
      index := from + FirstOf(mutStr[from..], "$");
      if index == |mutStr| {
        EscapedNone(mutStr, from);
        break;
      }
      EscapedAt(mutStr, from, index);
      mutStr := mutStr[..index] + "$$" + mutStr[index + 1..];
      index := index + 2;
    }
  }

  // One comment line behind its prefix; a space goes between them unless the
  // line is empty or begins with one.
  function Decorated(line: string, prefix: string): string {
    if line == "" then prefix
    else if line[0] == ' ' then prefix + line
    else prefix + " " + line
  }

  // The comment text a reader should see.
  function Commented(lines: seq<string>, prefix: string): string {
    if lines == [] then "" else Decorated(lines[0], prefix) + "\n" + Commented(lines[1..], prefix)
  }

  // The text GenerateCommentsWithPrefix returns: each line escaped.
  function CommentTemplate(lines: seq<string>, prefix: string): string {
    if lines == [] then "" else Decorated(Escaped(lines[0]), prefix) + "\n" + CommentTemplate(lines[1..], prefix)
  }

  lemma {:induction false} CommentTemplateSnoc(lines: seq<string>, line: string, prefix: string)
    ensures CommentTemplate(lines + [line], prefix) ==
            CommentTemplate(lines, prefix) + (Decorated(Escaped(line), prefix) + "\n")
  {
    if lines == [] {
      assert [line][1..] == [];
    } else {
      assert (lines + [line])[1..] == lines[1..] + [line];
      CommentTemplateSnoc(lines[1..], line, prefix);
    }
  }

  // GenerateCommentsWithPrefix
  method GenerateCommentsWithPrefix(input: seq<string>, prefix: string) returns (r: string)
    ensures r == CommentTemplate(input, prefix)
  {
    r := "";
    for i := 0 to |input|
      invariant r == CommentTemplate(input[..i], prefix)
    {
      hide CommentTemplate;
      var elem := input[i];
      assert input[..i + 1] == input[..i] + [elem];
      CommentTemplateSnoc(input[..i], elem, prefix);
      var escaped := EscapeVariableDelimiters(elem);
      EscapedStart(elem);
      if elem == "" {
        r := r + (prefix + "\n");
      } else if elem[0] == ' ' {
        r := r + (prefix + escaped + "\n");
      } else {
        r := r + (prefix + " " + escaped + "\n");
      }
    }
    assert input[..|input|] == input;
  }

  lemma EscapedStart(s: string)
    ensures Escaped(s) == "" <==> s == ""
    ensures s != "" ==> (Escaped(s)[0] == s[0])
  {
  }

  lemma EscapedDecorated(line: string, prefix: string)
    requires FreeOf(prefix, "$")
    ensures Decorated(Escaped(line), prefix) == Escaped(Decorated(line, prefix))
  {
    EscapedFree(prefix);
    EscapedStart(line);
    EscapedConcat(prefix, line);
    EscapedFree(" ");
    EscapedConcat(prefix + " ", line);
    EscapedConcat(prefix, " ");
  }

  lemma TemplateLine(lines: seq<string>, prefix: string)
    requires lines != [] && FreeOf(prefix, "$")
    ensures var d := Decorated(lines[0], prefix);
      CommentTemplate(lines, prefix) == Escaped(d) + ("\n" + CommentTemplate(lines[1..], prefix)) &&
      Commented(lines, prefix) == d + "\n" + Commented(lines[1..], prefix)
  {
    EscapedDecorated(lines[0], prefix);
  }

  lemma NoLines(prefix: string, vars: map<string, string>)
    ensures Expand(CommentTemplate([], prefix), vars) == Expanded(Commented([], prefix))
  {
  }

  // Escaped comments survive the printer: whatever the variables hold, what is
  // printed is the prefixed text with the characters of the .proto.
  lemma {:induction false} CommentsSurvivePrinting(lines: seq<string>, prefix: string, vars: map<string, string>)
    requires FreeOf(prefix, "$")
    ensures Expand(CommentTemplate(lines, prefix), vars) == Expanded(Commented(lines, prefix))
  {
    hide Expand, Decorated, CommentTemplate, Commented, Escaped, FreeOf;
    if lines == [] {
      NoLines(prefix, vars);
    } else {
      var d, rest := Decorated(lines[0], prefix), CommentTemplate(lines[1..], prefix);
      CommentsSurvivePrinting(lines[1..], prefix, vars);
      TemplateLine(lines, prefix);
      ExpandPlain('\n', rest, vars);
      ExpandEscaped(d, "\n" + rest, vars);
      assert d + ("\n" + Commented(lines[1..], prefix)) == d + "\n" + Commented(lines[1..], prefix);
    }
  }

  // ---- Comments that do not go through the printer ----

  lemma {:induction false} EscapedLength(s: string)
    ensures |Escaped(s)| >= |s|
    ensures |Escaped(s)| == |s| <==> '$' !in s
  {
    if s != "" {
      EscapedLength(s[1..]);
      assert s == [s[0]] + s[1..];
    }
  }

  lemma DecoratedLength(line: string, prefix: string)
    ensures |Decorated(Escaped(line), prefix)| - |Decorated(line, prefix)| == |Escaped(line)| - |line|
    ensures '$' !in line ==> Decorated(Escaped(line), prefix) == Decorated(line, prefix)
  {
    EscapedStart(line);
    if '$' !in line {
      EscapedFree(line);
    }
  }

  lemma {:induction false} TemplateLength(lines: seq<string>, prefix: string)
    ensures |CommentTemplate(lines, prefix)| >= |Commented(lines, prefix)|
    ensures |CommentTemplate(lines, prefix)| == |Commented(lines, prefix)| <==> forall l :: l in lines ==> '$' !in l
    ensures (forall l :: l in lines ==> '$' !in l) ==> CommentTemplate(lines, prefix) == Commented(lines, prefix)
  {
    if lines != [] {
      hide Decorated, Escaped;
      TemplateLength(lines[1..], prefix);
      EscapedLength(lines[0]);
      DecoratedLength(lines[0], prefix);
      assert forall l :: l in lines <==> l == lines[0] || l in lines[1..];
    }
  }

  // Printed raw, as the header does with the file's own comments, the text
  // keeps its doubled '$': it is the comment of the .proto exactly when no line
  // holds one.
  lemma RawCommentsIff(lines: seq<string>, prefix: string)
    ensures CommentTemplate(lines, prefix) == Commented(lines, prefix) <==> forall l :: l in lines ==> '$' !in l
  {
    hide CommentTemplate, Commented;
    TemplateLength(lines, prefix);
  }

  // For instance "a$b" in a file's leading comments.
  lemma RawDollarIsDoubled()
    ensures CommentTemplate(["a$b"], "//") == "// a$$b\n" && Commented(["a$b"], "//") == "// a$b\n"
  {
    assert "a$b"[1..] == "$b" && "$b"[1..] == "b" && "b"[1..] == "";
    assert Escaped("b") == "b" && Escaped("$b") == "$$b" && Escaped("a$b") == "a$$b";
    assert ["a$b"][1..] == [];
  }

  function AllDecorated(lines: seq<string>, prefix: string): seq<string> {
    if lines == [] then [] else [Decorated(lines[0], prefix)] + AllDecorated(lines[1..], prefix)
  }

  lemma FirstLine(d: string, rest: string)
    requires FreeOf(d, "\n")
    ensures Lines(d + ("\n" + rest), '\n') == [d] + Lines(rest, '\n')
  {
    var text := d + ("\n" + rest);
    FirstOfAt(d, "\n" + rest, "\n");
    assert text[..|d|] == d && text[|d| + 1..] == rest;
  }

  lemma DecoratedIsLine(line: string, prefix: string)
    requires FreeOf(line, "\n") && FreeOf(prefix, "\n")
    ensures FreeOf(Decorated(line, prefix), "\n") && prefix <= Decorated(line, prefix)
  {
  }

  lemma CommentedStep(lines: seq<string>, prefix: string)
    requires lines != []
    ensures Commented(lines, prefix) == Decorated(lines[0], prefix) + ("\n" + Commented(lines[1..], prefix))
  {
    hide Decorated;
  }

  // Read back line by line, the printed comment is exactly one prefixed line
  // for each line of the comment.
  lemma {:induction false} CommentLines(lines: seq<string>, prefix: string)
    requires FreeOf(prefix, "\n") && AllFreeOf(lines, "\n")
    ensures Lines(Commented(lines, prefix), '\n') == AllDecorated(lines, prefix)
    ensures forall l :: l in AllDecorated(lines, prefix) ==> prefix <= l
  {
    if lines != [] {
      hide Commented, Decorated, Lines, FreeOf;
      assert lines[0] in lines;
      assert forall l :: l in lines[1..] ==> l in lines;
      CommentLines(lines[1..], prefix);
      DecoratedIsLine(lines[0], prefix);
      CommentedStep(lines, prefix);
      FirstLine(Decorated(lines[0], prefix), Commented(lines[1..], prefix));
    }
  }
}
