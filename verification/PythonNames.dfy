// Module names and aliases of python_generator_helpers.h.
module PythonNames {
  import opened Replace
  import Tokens

  // `name` after the first of the prefixes it begins with, if there is one.
  function Unprefixed(name: string, prefixes: seq<string>): string {
    if prefixes == [] then name
    else if prefixes[0] <= name then name[|prefixes[0]|..]
    else Unprefixed(name, prefixes[1..])
  }

  // StripModulePrefixes
  method StripModulePrefixes(rawModuleName: string, prefixes: seq<string>) returns (r: string)
    ensures r == Unprefixed(rawModuleName, prefixes)
  {
    for i := 0 to |prefixes|
      invariant Unprefixed(rawModuleName, prefixes) == Unprefixed(rawModuleName, prefixes[i..])
    {
      var prefix := prefixes[i];
      if prefix <= rawModuleName {
        return rawModuleName[|prefix|..];
      }
      assert prefixes[i..][1..] == prefixes[i + 1..];
    }
    return rawModuleName;
  }

  function PathToModule(c: char): string { if c == '-' then "_" else if c == '/' then "." else [c] }

  function PathName(filename: string, importPrefix: string): string {
    importPrefix + Mapped(Stripped(filename), PathToModule) + "_pb2"
  }

  function Name(filename: string, importPrefix: string, prefixes: seq<string>): string {
    Unprefixed(PathName(filename, importPrefix), prefixes)
  }

  // A per-character substitution.
  function Mapped(s: string, f: char -> string): string {
    if s == "" then "" else f(s[0]) + Mapped(s[1..], f)
  }

  function Single(c: char, to: string): char -> string { x => if x == c then to else [x] }

  lemma FindCharCons(s: string, c: char)
    requires s != ""
    ensures var q := Find(s[1..], [c], 0);
      Find(s, [c], 0) == if s[0] == c then At(0) else if q.At? then At(q.pos + 1) else Npos
  {
    FindInSuffix(s, [c], 1, 0);
    assert s[0..1][0] == s[0];
  }

  lemma ReplacedCons(s: string, c: char, to: string)
    requires s != ""
    ensures Replaced(s, [c], to) == (if s[0] == c then to else [s[0]]) + Replaced(s[1..], [c], to)
  {
    hide Find, Replaced;
    var tail := s[1..];
    ReplacedStep(s, [c], to);
    ReplacedStep(tail, [c], to);
    FindCharCons(s, c);
    var q := Find(tail, [c], 0);
    if s[0] == c {
      assert s[..0] + to == to;
    } else if q.At? {
      assert s[..q.pos + 1] == [s[0]] + tail[..q.pos];
      assert s[q.pos + 1 + 1..] == tail[q.pos + 1..];
      var r := Replaced(tail[q.pos + 1..], [c], to);
      assert ([s[0]] + tail[..q.pos]) + to + r == [s[0]] + (tail[..q.pos] + to + r);
    } else {
      assert s == [s[0]] + tail;
    }
  }

  // Replacing a one-character string is a per-character substitution, even
  // when `to` contains the character again.
  lemma {:induction false} ReplacedChar(s: string, c: char, to: string)
    ensures Replaced(s, [c], to) == Mapped(s, Single(c, to))
    decreases |s|
  {
    if s == "" {
      ReplacedStep(s, [c], to);
    } else {
      ReplacedCons(s, c, to);
      ReplacedChar(s[1..], c, to);
    }
  }

  lemma {:induction false} MappedConcat(s: string, t: string, f: char -> string)
    ensures Mapped(s + t, f) == Mapped(s, f) + Mapped(t, f)
  {
    if s == "" {
      assert s + t == t;
    } else {
      assert (s + t)[1..] == s[1..] + t;
      MappedConcat(s[1..], t, f);
    }
  }

  // Two passes, one after the other, are one pass with the composed code.
  lemma {:induction false} MappedTwice(s: string, f: char -> string, g: char -> string, h: char -> string)
    requires forall c :: h(c) == Mapped(f(c), g)
    ensures Mapped(Mapped(s, f), g) == Mapped(s, h)
  {
    if s != "" {
      MappedConcat(f(s[0]), Mapped(s[1..], f), g);
      MappedTwice(s[1..], f, g, h);
    }
  }

  // ModuleName
  method ModuleName(filename: string, importPrefix: string, prefixes: seq<string>) returns (r: string)
    ensures r == Name(filename, importPrefix, prefixes)
  {
    var basename := StripProto(filename);
    basename := StringReplace(basename, "-", "_", true);
    ReplacedChar(Stripped(filename), '-', "_");
    ghost var once := basename;
    basename := StringReplace(basename, "/", ".", true);
    ReplacedChar(once, '/', ".");
    var f, g := Single('-', "_"), Single('/', ".");
    forall c ensures PathToModule(c) == Mapped(f(c), g) { Mapped1(f(c)[0], g); }
    MappedTwice(Stripped(filename), f, g, PathToModule);
    r := StripModulePrefixes(importPrefix + basename + "_pb2", prefixes);
  }

  lemma Mapped1(c: char, f: char -> string)
    ensures Mapped([c], f) == f(c)
  {
    assert [c][1..] == "" && f(c) + "" == f(c);
  }

  // The code the two in-place passes of ModuleAlias amount to.
  function AliasCode(c: char): string { if c == '_' then "__" else if c == '.' then "_dot_" else [c] }

  function Alias(name: string): string { Mapped(name, AliasCode) }

  // ModuleAlias
  method ModuleAlias(filename: string, importPrefix: string, prefixes: seq<string>) returns (r: string)
    ensures r == Alias(Name(filename, importPrefix, prefixes))
  {
    var moduleName := ModuleName(filename, importPrefix, prefixes);
    ghost var name := moduleName;
    moduleName := StringReplace(moduleName, "_", "__", true);
    ReplacedChar(name, '_', "__");
    ghost var doubled := moduleName;
    moduleName := StringReplace(moduleName, ".", "_dot_", true);
    ReplacedChar(doubled, '.', "_dot_");
    TwoPasses(name);
    return moduleName;
  }

  lemma TwoPasses(name: string)
    ensures Mapped(Mapped(name, Single('_', "__")), Single('.', "_dot_")) == Alias(name)
  {
    var f, g := Single('_', "__"), Single('.', "_dot_");
    forall c ensures AliasCode(c) == Mapped(f(c), g) {
      Mapped1(c, g);
      assert "__" == "_" + "_";
      MappedConcat("_", "_", g);
      Mapped1('_', g);
    }
    MappedTwice(name, f, g, AliasCode);
  }

  // Reads an alias back: "__" is an underscore, "_dot_" a dot.
  function Unalias(t: string): string
    decreases |t|
  {
    if t == "" then ""
    else if t[0] != '_' then [t[0]] + Unalias(t[1..])
    else if "__" <= t then "_" + Unalias(t[2..])
    else if "_dot_" <= t then "." + Unalias(t[5..])
    else ""
  }

  lemma {:induction false} UnaliasAlias(name: string)
    ensures Unalias(Alias(name)) == name
  {
    if name != "" {
      var rest := Alias(name[1..]);
      var t := AliasCode(name[0]) + rest;
      UnaliasAlias(name[1..]);
      if name[0] == '_' {
        assert t[2..] == rest;
      } else if name[0] == '.' {
        assert t[1] == 'd';
        assert t[5..] == rest;
      } else {
        assert t[1..] == rest;
      }
      assert name == [name[0]] + name[1..];
    }
  }

  lemma {:induction false} AliasHasNoDot(name: string)
    ensures '.' !in Alias(name)
  {
    if name != "" {
      AliasHasNoDot(name[1..]);
      assert '.' !in AliasCode(name[0]);
    }
  }

  // Two files get the same alias exactly when they get the same module name.
  lemma AliasesCollide(f: string, g: string, importPrefix: string, prefixes: seq<string>)
    ensures Alias(Name(f, importPrefix, prefixes)) == Alias(Name(g, importPrefix, prefixes)) <==>
            Name(f, importPrefix, prefixes) == Name(g, importPrefix, prefixes)
  {
    UnaliasAlias(Name(f, importPrefix, prefixes));
    UnaliasAlias(Name(g, importPrefix, prefixes));
  }

  // std::string::find_last_of(chars)
  function LastOf(s: string, chars: string): (r: Position)
    ensures r.At? ==> r.pos < |s| && s[r.pos] in chars
    ensures forall i :: (if r.At? then r.pos < i else 0 <= i) && i < |s| ==> s[i] !in chars
  {
    if s == "" then Npos
    else if s[|s| - 1] in chars then At(|s| - 1)
    else LastOf(s[..|s| - 1], chars)
  }

  function Reversed(parts: seq<string>): seq<string> {
    if parts == [] then [] else Reversed(parts[1..]) + [parts[0]]
  }

  // GetModuleAndMessagePath. `names` are the message names from the type
  // itself outwards. The path is qualified by the module's alias for a type of
  // another file, and always in the _pb2_grpc module. The file name is refused
  // by its last character alone: any of '.', 'p', 'r', 'o', 't' passes.
  method GetModuleAndMessagePath(names: seq<string>, fileName: string, generatorFileName: string,
                                 inPb2Grpc: bool, importPrefix: string, prefixes: seq<string>)
    returns (ok: bool, out: string)
    requires names != []
    ensures ok <==> |fileName| > 6 && fileName[|fileName| - 1] in ".proto"
    ensures ok && fileName == generatorFileName && !inPb2Grpc ==> out == Tokens.Join(Reversed(names), ".")
    ensures ok && (fileName != generatorFileName || inPb2Grpc) ==>
      out == Alias(Name(fileName, importPrefix, prefixes)) + "." + Tokens.Join(Reversed(names), ".")
  {
    if !(|fileName| > 6 && LastOf(fileName, ".proto") == At(|fileName| - 1)) {
      return false, "";
    }
    var moduleName := "";
    if generatorFileName != fileName || inPb2Grpc {
      moduleName := ModuleAlias(fileName, importPrefix, prefixes);
      moduleName := moduleName + ".";
    }
    var messageType := "";
    var i := |names|;
    while i > 0
      invariant 0 <= i <= |names|
      invariant messageType == Dotted(Reversed(names[i..]))
    {
      i := i - 1;
      messageType := messageType + names[i] + ".";
      assert names[i..][1..] == names[i + 1..];
      DottedSnoc(Reversed(names[i + 1..]), names[i]);
    }
    assert names[0..] == names;
    ReversedLength(names);
    DottedIsJoin(Reversed(names));
    messageType := messageType[..|messageType| - 1];
    return true, moduleName + messageType;
  }

  function Dotted(parts: seq<string>): string {
    if parts == [] then "" else parts[0] + "." + Dotted(parts[1..])
  }

  lemma ReversedLength(parts: seq<string>)
    ensures |Reversed(parts)| == |parts|
  {
  }

  lemma {:induction false} DottedSnoc(parts: seq<string>, name: string)
    ensures Dotted(parts + [name]) == Dotted(parts) + name + "."
  {
    if parts == [] {
      assert [name][1..] == [];
    } else {
      assert (parts + [name])[1..] == parts[1..] + [name];
      DottedSnoc(parts[1..], name);
    }
  }

  lemma {:induction false} DottedIsJoin(parts: seq<string>)
    requires parts != []
    ensures Dotted(parts) == Tokens.Join(parts, ".") + "."
  {
    if |parts| > 1 {
      DottedIsJoin(parts[1..]);
    } else {
      assert Dotted(parts[1..]) == "";
    }
  }
}
