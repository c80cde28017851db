// The planned command as protoc reads it: which directories it searches, which
// generators it runs, with which parameters and into which directory, and which
// executables it binds to them.
module ProtocWords {
  import opened Tokens
  import opened BuildPlanner

  datatype Directive =
    | Include(dir: string)                               // -I<dir>
    | Out(name: string, params: string, dir: string)     // --<name>_out=<params>:<dir>
    | Binding(name: string, binary: string)              // --plugin=protoc-gen-<name>=<binary>
    | Other(word: string)                                // another flag, or a file

  predicate EndsWith(s: string, t: string) { |t| <= |s| && s[|s| - |t|..] == t }

  // The value of --<name>_out: parameters up to the first colon, if there is
  // one, and a directory.
  function ReadOut(name: string, value: string): Directive {
    var colon := FirstOf(value, ":");
    if colon == |value| then Out(name, "", value) else Out(name, value[..colon], value[colon + 1..])
  }

  // The value of --plugin: a name and an executable.
  function ReadPlugin(word: string, value: string): Directive {
    var equals := FirstOf(value, "=");
    if "protoc-gen-" <= value[..equals] && equals < |value|
    then Binding(value[|"protoc-gen-"|..equals], value[equals + 1..])
    else Other(word)
  }

  // One word of a command line. A flag's name ends at the first '='.
  function ReadWord(word: string): Directive {
    if "-I" <= word then Include(word[2..])
    else
      var equals := FirstOf(word, "=");
      if !("--" <= word) || equals < 2 || equals == |word| then Other(word)
      else
        var flag, value := word[2..equals], word[equals + 1..];
        if flag == "plugin" then ReadPlugin(word, value)
        else if EndsWith(flag, "_out") then ReadOut(flag[..|flag| - 4], value)
        else Other(word)
  }

  function Directives(words: seq<string>): seq<Directive> {
    seq(|words|, i requires 0 <= i < |words| => ReadWord(words[i]))
  }

  lemma DirectivesConcat(a: seq<string>, b: seq<string>)
    ensures Directives(a + b) == Directives(a) + Directives(b)
  {
  }

  // ---- What the words of a plan are meant to say ----

  // Directories protoc looks for imports in.
  function Searched(roots: seq<string>): seq<Directive> {
    seq(|roots|, i requires 0 <= i < |roots| => Include(roots[i]))
  }

  // Each plugin's generator runs into the output directory and is bound to the
  // plugin's executable.
  function PluginDirectives(ps: seq<Plugin>, out: string): seq<Directive> {
    if ps == [] then []
    else
      var p := ps[|ps| - 1];
      PluginDirectives(ps[..|ps| - 1], out) + [Out(p.name, Spec(p.params), out), Binding(p.name, p.binary)]
  }

  function Absolutes(h: Host, dirs: seq<string>): seq<string> {
    seq(|dirs|, i requires 0 <= i < |dirs| => h.absolute(dirs[i]))
  }

  // The plugins asked for: the author's list, or the built-in plugin unless it is
  // switched off.
  function PluginsOf(h: Host, opt: Options): seq<Plugin> {
    if |opt.plugins| > 0 then opt.plugins
    else if opt.grpc then
      [Plugin("grpc", h.grpcPlugin, if opt.mock then ["generate_mock_code=true"] else [],
         [".grpc.pb.cc", ".grpc.pb.h"] + if opt.mock then ["_mock.grpc.pb.h"] else [])]
    else []
  }

  lemma PluginsAre(h: Host, opt: Options)
    ensures ResolvePlugins(h, opt) == PluginsOf(h, opt)
  {
    if opt.plugins == [] && opt.grpc {
      assert ResolvePlugins(h, opt) == [Cpp(h, opt.mock)];
      assert Cpp(h, opt.mock).params == if opt.mock then ["generate_mock_code=true"] else [];
      assert Cpp(h, opt.mock).suffixes ==
        [".grpc.pb.cc", ".grpc.pb.h"] + if opt.mock then ["_mock.grpc.pb.h"] else [];
    }
  }

  // The generation roots first, then the roots that are only searched, then the
  // well-known types; protoc's own generator without parameters; the plugins.
  function Intended(h: Host, opt: Options): seq<Directive> {
    Searched(Absolutes(h, [opt.protoDir] + opt.extraDirs + opt.imports) + [h.wellKnownTypes]) +
    [Out("cpp", "", h.outDir)] + PluginDirectives(PluginsOf(h, opt), h.outDir)
  }

  // A plugin protoc can be told about.
  predicate Speakable(p: Plugin) { '=' !in p.name && forall q :: q in p.params ==> ':' !in q }

  // ---- Word by word ----

  lemma IncludeRead(dir: string)
    ensures ReadWord("-I" + dir) == Include(dir)
  {
  }

  // A text without the character, the character, and the rest.
  lemma SplitAt(a: string, c: char, b: string)
    requires c !in a
    ensures var s := a + [c] + b;
      FirstOf(s, [c]) == |a| && s[..|a|] == a && s[|a| + 1..] == b
  {
    FirstOfAt(a, [c] + b, [c]);
    assert a + ([c] + b) == a + [c] + b;
  }

  lemma HeadIsFree(s: string, c: char)
    ensures FirstOf(s, [c]) <= |s| && c !in s[..FirstOf(s, [c])]
  {
    assert forall i :: 0 <= i < FirstOf(s, [c]) ==> s[i] !in [c];
  }

  lemma NoneToSplit(s: string, c: char)
    requires c !in s
    ensures FirstOf(s, [c]) == |s|
  {
    FirstOfAt(s, "", [c]);
  }

  lemma OutWord(name: string, value: string)
    requires '=' !in name
    ensures ReadWord("--" + name + "_out=" + value) == ReadOut(name, value)
  {
    hide FirstOf, ReadOut;
    assert ['='] == "=";
    var word, head := "--" + name + "_out=" + value, "--" + name + "_out";
    SplitAt(head, '=', value);
    assert word == head + ['='] + value;
    assert word[1] == '-' && "-I"[1] == 'I';
    assert "--" <= word;
    var flag := word[2..|head|];
    assert flag == name + "_out";
    assert flag[|flag| - 4..] == "_out" && flag[..|flag| - 4] == name;
    assert flag[|flag| - 1] == 't' && "plugin"[5] == 'n';
  }

  // With an '=' in the name the flag ends before it, and the name read has
  // none.
  lemma NamesReadAreFree(word: string)
    ensures ReadWord(word).Out? || ReadWord(word).Binding? ==> '=' !in ReadWord(word).name
  {
    hide FirstOf;
    assert ['='] == "=";
    var equals := FirstOf(word, "=");
    HeadIsFree(word, '=');
    if "--" <= word && 2 <= equals < |word| {
      var flag, value := word[2..equals], word[equals + 1..];
      assert forall c :: c in flag ==> c in word[..equals];
      HeadIsFree(value, '=');
      var head := value[..FirstOf(value, "=")];
      assert "protoc-gen-" <= head ==> forall c :: c in head[|"protoc-gen-"|..] ==> c in head;
      assert EndsWith(flag, "_out") ==> forall c :: c in flag[..|flag| - 4] ==> c in flag;
    }
  }

  lemma OutReadIff(name: string, params: string, out: string)
    ensures ReadWord("--" + name + "_out=" + (if params == "" then out else params + ":" + out)) ==
            Out(name, params, out) <==>
            '=' !in name && ':' !in (if params == "" then out else params)
  {
    hide ReadWord;
    var value := if params == "" then out else params + ":" + out;
    NamesReadAreFree("--" + name + "_out=" + value);
    if '=' !in name {
      OutWord(name, value);
      HeadIsFree(value, ':');
      if params != "" && ':' !in params {
        SplitAt(params, ':', out);
      }
      if params == "" && ':' !in out {
        NoneToSplit(out, ':');
      }
    }
  }

  lemma PluginWord(value: string)
    ensures ReadWord("--plugin=" + value) == ReadPlugin("--plugin=" + value, value)
  {
    hide FirstOf, ReadPlugin, EndsWith;
    assert ['='] == "=" && '=' !in "--plugin";
    var word := "--plugin=" + value;
    SplitAt("--plugin", '=', value);
    assert word == "--plugin" + ['='] + value;
    assert word[1] == '-' && "-I"[1] == 'I';
    assert "--" <= word && word[2..8] == "plugin";
  }

  lemma PluginValue(word: string, value: string, name: string, binary: string)
    requires '=' !in name && value == "protoc-gen-" + name + "=" + binary
    ensures ReadPlugin(word, value) == Binding(name, binary)
  {
    hide FirstOf;
    assert ['='] == "=" && '=' !in "protoc-gen-";
    var head := "protoc-gen-" + name;
    SplitAt(head, '=', binary);
    assert value == head + ['='] + binary;
    assert "protoc-gen-" <= value[..|head|] && value[|"protoc-gen-"|..|head|] == name;
  }

  lemma BindingReadIff(name: string, binary: string)
    ensures ReadWord("--plugin=protoc-gen-" + name + "=" + binary) == Binding(name, binary) <==> '=' !in name
  {
    hide ReadWord, ReadPlugin;
    var word, value := "--plugin=protoc-gen-" + name + "=" + binary, "protoc-gen-" + name + "=" + binary;
    NamesReadAreFree(word);
    assert "--plugin=protoc-gen-" == "--plugin=" + "protoc-gen-";
    assert word == "--plugin=" + value;
    if '=' !in name {
      PluginWord(value);
      PluginValue(word, value, name, binary);
    }
  }

  lemma {:induction false} JoinHas(params: seq<string>, c: char)
    requires c != ','
    ensures c in Join(params, ",") <==> exists q :: q in params && c in q
  {
    if |params| > 1 {
      JoinHas(params[1..], c);
      assert params == [params[0]] + params[1..];
    }
  }

  lemma {:induction false} SpecHas(params: seq<string>, c: char)
    requires c != ','
    ensures c in Spec(params) <==> exists q :: q in params && c in q
  {
    if params != [] && params[0] == "" {
      SpecHas(params[1..], c);
      assert params == [params[0]] + params[1..];
    } else {
      JoinHas(params, c);
    }
  }

  // ---- The command ----

  lemma {:induction false} PluginArgsCount(ps: seq<Plugin>, out: string)
    ensures |AllPluginArgs(ps, out)| == |PluginDirectives(ps, out)|
  {
    if ps != [] { PluginArgsCount(ps[..|ps| - 1], out); }
  }

  lemma {:induction false} PluginsReadIff(ps: seq<Plugin>, out: string)
    requires ':' !in out
    ensures Directives(AllPluginArgs(ps, out)) == PluginDirectives(ps, out) <==> forall p :: p in ps ==> Speakable(p)
  {
    hide ReadWord, Spec, Speakable;
    if ps != [] {
      var n := |ps| - 1;
      var p, before, args := ps[n], AllPluginArgs(ps[..n], out), PluginArgs(ps[n], out);
      PluginsReadIff(ps[..n], out);
      PluginArgsCount(ps[..n], out);
      PluginReadIff(p, out);
      DirectivesConcat(before, args);
      SameHalves(Directives(before), Directives(args), PluginDirectives(ps[..n], out),
                 [Out(p.name, Spec(p.params), out), Binding(p.name, p.binary)]);
      assert ps == ps[..n] + [p];
    }
  }

  lemma PluginReadIff(p: Plugin, out: string)
    requires ':' !in out
    ensures Directives(PluginArgs(p, out)) == [Out(p.name, Spec(p.params), out), Binding(p.name, p.binary)] <==>
            Speakable(p)
  {
    hide ReadWord, Spec;
    OutReadIff(p.name, Spec(p.params), out);
    BindingReadIff(p.name, p.binary);
    SpecHas(p.params, ':');
    var words := PluginArgs(p, out);
    assert Directives(words) == [ReadWord(words[0]), ReadWord(words[1])];
  }

  // Sequences that are equal half by half.
  lemma SameHalves(a: seq<Directive>, b: seq<Directive>, c: seq<Directive>, d: seq<Directive>)
    requires |a| == |c|
    ensures a + b == c + d <==> a == c && b == d
  {
    if a + b == c + d {
      assert (a + b)[..|a|] == a && (c + d)[..|c|] == c;
      assert (a + b)[|a|..] == b && (c + d)[|c|..] == d;
    }
  }

  lemma RootsRead(h: Host, opt: Options)
    ensures Directives(Prefixed("-I", IncludeRoots(h, opt))) ==
            Searched(Absolutes(h, [opt.protoDir] + opt.extraDirs + opt.imports) + [h.wellKnownTypes])
  {
    hide ReadWord;
    var roots := IncludeRoots(h, opt);
    assert roots == Absolutes(h, [opt.protoDir] + opt.extraDirs + opt.imports) + [h.wellKnownTypes];
    forall i | 0 <= i < |roots| ensures ReadWord("-I" + roots[i]) == Include(roots[i]) { IncludeRead(roots[i]); }
  }

  lemma CppReadIff(out: string)
    ensures Directives(["--cpp_out=" + out]) == [Out("cpp", "", out)] <==> ':' !in out
  {
    hide ReadWord;
    OutReadIff("cpp", "", out);
    assert "--" + "cpp" + "_out=" + out == "--cpp_out=" + out;
    assert Directives(["--cpp_out=" + out]) == [ReadWord("--cpp_out=" + out)];
  }

  // The words a plan is made of before the author's own.
  function PlannedWords(h: Host, opt: Options): seq<string> {
    Prefixed("-I", IncludeRoots(h, opt)) + ["--cpp_out=" + h.outDir] + AllPluginArgs(ResolvePlugins(h, opt), h.outDir)
  }

  // No colon in the output directory and nothing that ends a plugin's name or
  // its parameters early.
  predicate AllSpeakable(h: Host, opt: Options) {
    ':' !in h.outDir && forall p :: p in PluginsOf(h, opt) ==> Speakable(p)
  }

  lemma PlannedReadIff(h: Host, opt: Options)
    ensures |PlannedWords(h, opt)| == |Intended(h, opt)|
    ensures Directives(PlannedWords(h, opt)) == Intended(h, opt) <==> AllSpeakable(h, opt)
  {
    hide ReadWord, ResolvePlugins, AllPluginArgs, PluginDirectives, Prefixed, IncludeRoots, Absolutes, Searched,
      Speakable, PluginsOf;
    PluginsAre(h, opt);
    var roots, ps := Prefixed("-I", IncludeRoots(h, opt)), ResolvePlugins(h, opt);
    var meant := Searched(Absolutes(h, [opt.protoDir] + opt.extraDirs + opt.imports) + [h.wellKnownTypes]);
    var cpp, rest := ["--cpp_out=" + h.outDir], AllPluginArgs(ps, h.outDir);
    RootsRead(h, opt);
    CppReadIff(h.outDir);
    DirectivesConcat(roots, cpp);
    DirectivesConcat(roots + cpp, rest);
    PluginArgsCount(ps, h.outDir);
    SameHalves(Directives(roots), Directives(cpp), meant, [Out("cpp", "", h.outDir)]);
    SameHalves(Directives(roots) + Directives(cpp), Directives(rest), meant + [Out("cpp", "", h.outDir)],
               PluginDirectives(ps, h.outDir));
    if ':' !in h.outDir { PluginsReadIff(ps, h.outDir); }
  }

  // protoc, reading the command of any planned edge, searches the generation
  // roots, the imports and the well-known types in this order, runs its own
  // generator and every plugin's into the output directory, with each plugin's
  // parameters and bound to its executable, and then sees the author's words
  // and the source: exactly if no name holds an '=' and neither a parameter nor
  // the output directory holds a colon.
  lemma CommandReadIff(h: Host, opt: Options, es: seq<Entry>, e: Entry)
    ensures EdgeFor(h, opt, es, e).command[0] == h.protoc
    ensures Directives(EdgeFor(h, opt, es, e).command[1..]) ==
              Intended(h, opt) + Directives(opt.protocArgs + [e.root + "/" + e.name + ".proto"]) <==>
            AllSpeakable(h, opt)
  {
    hide ReadWord, ResolvePlugins, AllPluginArgs, Prefixed, IncludeRoots, Intended, AllSpeakable, Description, Suffixes;
    var words, own := EdgeFor(h, opt, es, e).command[1..], opt.protocArgs + [Source(e)];
    assert words == PlannedWords(h, opt) + own;
    PlannedReadIff(h, opt);
    DirectivesConcat(PlannedWords(h, opt), own);
    SameHalves(Directives(PlannedWords(h, opt)), Directives(own), Intended(h, opt), Directives(own));
  }

  // For instance: with the output directory c:/out, protoc's own generator is
  // told to write to /out with the parameter c.
  lemma ColonIsMisread()
    ensures ReadWord("--cpp_out=" + "c:/out") == Out("cpp", "c", "/out")
  {
    hide ReadWord;
    assert "--" + "cpp" + "_out=" + "c:/out" == "--cpp_out=" + "c:/out";
    OutWord("cpp", "c:/out");
    SplitAt("c", ':', "/out");
    assert "c" + [':'] + "/out" == "c:/out" && [':'] == ":";
  }
}
