// How the files the plugin writes meet the edges the build planner declares for
// it.
module PlannedPlugin {
  import opened Schema
  import opened Structure
  import opened Queries
  import opened Replace
  import opened PluginParameters
  import opened ParameterKeys
  import opened Outputs
  import opened Plugin
  import BuildPlanner
  import PlanProperties
  import opened ProtocWords

  // What the built-in plugin is given says exactly whether mocks are wanted.
  lemma BuiltInParameters(mock: bool)
    ensures var parameter := if mock then "generate_mock_code=true" else "";
      AllFine(ParameterTokens(parameter)) &&
      Settled(ParameterTokens(parameter)) == Defaults().(generateMockCode := mock)
  {
    hide Settled, AllFine, ParameterTokens;
    NothingYieldsDefaults();
    assert "true"[0] == 't';
    TrueIsUnsplit();
    BooleanKeys("true");
    assert "generate_mock_code" + "=" + "true" == "generate_mock_code=true";
  }

  lemma TrueIsUnsplit()
    ensures ParameterKeys.Unsplit("true")
  {
  }

  lemma OtherEnd(s: string, suffix: string)
    requires s != "" && suffix != ""
    requires ToLower(s)[|s| - 1] != ToLower(suffix)[|suffix| - 1]
    ensures !EndsIn(s, suffix)
  {
    if |suffix| <= |s| {
      var tail := s[|s| - |suffix|..];
      assert ToLower(tail)[|suffix| - 1] != ToLower(suffix)[|suffix| - 1];
    }
  }

  lemma ProtoStripped(name: string)
    ensures Stripped(name + ".proto") == name
  {
    var s := name + ".proto";
    assert s[|s| - 6..] == ".proto" && s[..|s| - 6] == name;
    assert s[|s| - 1] == 'o' && ".protodevel"[10] == 'l';
    OtherEnd(s, ".protodevel");
  }

  // The names of the generated files, in the plugin's output directory.
  function Written(dir: string, files: seq<OutputFile>): seq<string> {
    seq(|files|, i requires 0 <= i < |files| => dir + "/" + files[i].name)
  }

  // The first time a generator of this name is run, or bound to an executable.
  function FirstOut(ds: seq<Directive>, name: string): seq<Directive> {
    if ds == [] then [] else if ds[0].Out? && ds[0].name == name then [ds[0]] else FirstOut(ds[1..], name)
  }

  function FirstBinding(ds: seq<Directive>, name: string): seq<Directive> {
    if ds == [] then [] else if ds[0].Binding? && ds[0].name == name then [ds[0]] else FirstBinding(ds[1..], name)
  }

  lemma {:induction false} FirstsBehind(a: seq<Directive>, b: seq<Directive>, name: string)
    ensures FirstOut(a, name) == [] ==> FirstOut(a + b, name) == FirstOut(b, name)
    ensures FirstBinding(a, name) == [] ==> FirstBinding(a + b, name) == FirstBinding(b, name)
    ensures FirstOut(a, name) != [] ==> FirstOut(a + b, name) == FirstOut(a, name)
    ensures FirstBinding(a, name) != [] ==> FirstBinding(a + b, name) == FirstBinding(a, name)
  {
    if a == [] {
      assert a + b == b;
    } else {
      FirstsBehind(a[1..], b, name);
      assert (a + b)[1..] == a[1..] + b;
    }
  }

  lemma {:induction false} NoneInIncludes(ds: seq<Directive>, name: string)
    requires forall d :: d in ds ==> d.Include?
    ensures FirstOut(ds, name) == [] && FirstBinding(ds, name) == []
  {
    if ds != [] {
      assert ds[0] in ds;
      NoneInIncludes(ds[1..], name);
    }
  }

  // The edge of a .proto file, read as protoc reads it: protoc's own generator
  // writes into the output directory without parameters; the generator "grpc"
  // is the plugin's executable, and takes its parameters; and the outputs the
  // edge declares are protoc's two files in the one directory and exactly the
  // files the plugin writes, run with those parameters, in the other.
  predicate MeetsPlugin(h: BuildPlanner.Host, edge: BuildPlanner.Edge, name: string, f: File)
    requires edge.command != []
  {
    var ds := Directives(edge.command[1..]);
    var own, outs, bound := FirstOut(ds, "cpp"), FirstOut(ds, "grpc"), FirstBinding(ds, "grpc");
    own == [Out("cpp", "", h.outDir)] && bound == [Binding("grpc", h.grpcPlugin)] && |outs| == 1 && outs[0].Out? &&
    AllFine(ParameterTokens(outs[0].params)) &&
    multiset(edge.outputs) ==
      multiset([own[0].dir + "/" + name + ".pb.cc", own[0].dir + "/" + name + ".pb.h"]) +
      multiset(Written(outs[0].dir, FilesOf(f, Settled(ParameterTokens(outs[0].params)))))
  }

  // What is read of any edge of the built-in plugin, whatever words the author
  // adds.
  lemma BuiltInRead(h: BuildPlanner.Host, opt: BuildPlanner.Options, es: seq<BuildPlanner.Entry>, e: BuildPlanner.Entry)
    requires opt.plugins == [] && opt.grpc && ':' !in h.outDir
    ensures var ds := Directives(BuildPlanner.EdgeFor(h, opt, es, e).command[1..]);
      FirstOut(ds, "cpp") == [Out("cpp", "", h.outDir)] &&
      FirstOut(ds, "grpc") == [Out("grpc", if opt.mock then "generate_mock_code=true" else "", h.outDir)] &&
      FirstBinding(ds, "grpc") == [Binding("grpc", h.grpcPlugin)]
  {
    hide Directives, Searched, Absolutes;
    CommandReadIff(h, opt, es, e);
    var p := BuildPlanner.Cpp(h, opt.mock);
    BuiltInIsSpeakable(h, opt);
    var roots := Searched(Absolutes(h, [opt.protoDir] + opt.extraDirs + opt.imports) + [h.wellKnownTypes]);
    var outs := [Out("cpp", "", h.outDir), Out("grpc", BuildPlanner.Spec(p.params), h.outDir),
      Binding("grpc", p.binary)];
    assert Intended(h, opt) == roots + outs;
    var rest := Directives(opt.protocArgs + [e.root + "/" + e.name + ".proto"]);
    assert roots + outs + rest == roots + (outs + rest);
    RootsAreIncludes(Absolutes(h, [opt.protoDir] + opt.extraDirs + opt.imports) + [h.wellKnownTypes]);
    NoneInIncludes(roots, "cpp");
    NoneInIncludes(roots, "grpc");
    FirstsBehind(roots, outs + rest, "cpp");
    FirstsBehind(roots, outs + rest, "grpc");
    ThreeDirectives(Out("cpp", "", h.outDir), outs[1], outs[2], rest);
  }

  lemma ThreeDirectives(a: Directive, b: Directive, c: Directive, rest: seq<Directive>)
    requires a.Out? && a.name == "cpp" && b.Out? && b.name == "grpc" && c.Binding? && c.name == "grpc"
    ensures FirstOut([a, b, c] + rest, "cpp") == [a] && FirstOut([a, b, c] + rest, "grpc") == [b]
    ensures FirstBinding([a, b, c] + rest, "grpc") == [c]
  {
    var ds := [a, b, c] + rest;
    assert |"cpp"| != |"grpc"|;
    assert ds[0] == a && ds[1..] == [b, c] + rest && ds[1..][0] == b && ds[1..][1..] == [c] + rest;
    assert FirstBinding(ds, "grpc") == FirstBinding(ds[1..], "grpc") == FirstBinding(ds[1..][1..], "grpc");
  }

  lemma RootsAreIncludes(roots: seq<string>)
    ensures forall d :: d in Searched(roots) ==> d.Include?
  {
  }

  lemma BuiltInIsSpeakable(h: BuildPlanner.Host, opt: BuildPlanner.Options)
    requires opt.plugins == [] && opt.grpc && ':' !in h.outDir
    ensures var p := BuildPlanner.Cpp(h, opt.mock);
      AllSpeakable(h, opt) && PluginDirectives(BuildPlanner.ResolvePlugins(h, opt), h.outDir) ==
      [Out("grpc", BuildPlanner.Spec(p.params), h.outDir), Binding("grpc", h.grpcPlugin)] &&
      BuildPlanner.Spec(p.params) == if opt.mock then "generate_mock_code=true" else ""
  {
    var p := BuildPlanner.Cpp(h, opt.mock);
    assert BuildPlanner.ResolvePlugins(h, opt) == [p] && [p][..0] == [];
    assert ':' !in "generate_mock_code=true" && '=' !in "grpc";
  }

  // With the built-in plugin every planned edge meets it: no file is left
  // undeclared, and none is declared that is not written. It does so exactly if
  // there is no colon in the output directory.
  lemma PlannerMeetsPlugin(h: BuildPlanner.Host, opt: BuildPlanner.Options, es: seq<BuildPlanner.Entry>,
      e: BuildPlanner.Entry, f: File)
    requires opt.plugins == [] && opt.grpc && f.filename == e.name + ".proto"
    ensures MeetsPlugin(h, BuildPlanner.EdgeFor(h, opt, es, e), e.name, f) <==> ':' !in h.outDir
  {
    hide ParameterTokens, Settled, AllFine, FilesOf, Directives;
    if ':' in h.outDir {
      ColonsEndParameters(h, opt, es, e);
    } else {
      BuiltInRead(h, opt, es, e);
      var parameter := if opt.mock then "generate_mock_code=true" else "";
      BuiltInParameters(opt.mock);
      ProtoStripped(e.name);
      PlanProperties.BuiltInSuffixes(h, opt);
      OutputsMeet(h.outDir, e.name, opt.mock, f, Settled(ParameterTokens(parameter)));
    }
  }

  // The header an include names.
  function Included(f: Fact): string { if f.MessageIncluded? || f.ServiceIncluded? then Spelled(f.spelled) else "" }

  // A text starts with n includes, each of a file that is one of the outputs.
  predicate StartsInside(fs: seq<Fact>, n: nat, dir: string, outputs: seq<string>) {
    |fs| >= n && forall i :: 0 <= i < n ==> dir + "/" + Included(fs[i]) in outputs
  }

  predicate TextsStartInside(f: File, ps: Parameters, dir: string, outputs: seq<string>) {
    StartsInside(GuardedFacts(HeaderFile(f, ps)), 1, dir, outputs) &&
    StartsInside(Facts(SourceOfFile(f, ps)), 2, dir, outputs) &&
    StartsInside(GuardedFacts(MockFile(f, ps)), 2, dir, outputs)
  }

  // The generated files include the messages' header, and the source and the
  // mock the service's: under the parameters of the edge these are files that
  // the edge itself declares.
  lemma IncludesAreDeclared(h: BuildPlanner.Host, opt: BuildPlanner.Options, es: seq<BuildPlanner.Entry>,
      e: BuildPlanner.Entry, f: File)
    requires opt.plugins == [] && opt.grpc && f.filename == e.name + ".proto"
    ensures TextsStartInside(f, Defaults().(generateMockCode := opt.mock), h.outDir,
                             BuildPlanner.EdgeFor(h, opt, es, e).outputs)
  {
    hide HeaderFile, SourceOfFile, MockFile, Facts, Spelled, GuardedFacts, Stripped, FilesOf;
    var ps := Defaults().(generateMockCode := opt.mock);
    GeneratedHeaderIsIncluded(f, ps);
    ProtoStripped(e.name);
    PlanProperties.BuiltInSuffixes(h, opt);
    var suffixes := PlanProperties.BuiltIn(true, opt.mock);
    assert suffixes[1] == ".pb.h" && suffixes[3] == ".grpc.pb.h";
    var edge := BuildPlanner.EdgeFor(h, opt, es, e);
    assert edge.outputs == BuildPlanner.Prefixed(h.outDir + "/" + e.name, suffixes);
    assert edge.outputs[1] == h.outDir + "/" + e.name + ".pb.h";
    assert edge.outputs[3] == h.outDir + "/" + e.name + ".grpc.pb.h";
    Assoc(h.outDir + "/", e.name, ".pb.h");
    Assoc(h.outDir + "/", e.name, ".grpc.pb.h");
  }

  // A directory with a colon is not read as one.
  lemma ColonsEndParameters(h: BuildPlanner.Host, opt: BuildPlanner.Options, es: seq<BuildPlanner.Entry>,
      e: BuildPlanner.Entry)
    requires ':' in h.outDir
    ensures FirstOut(Directives(BuildPlanner.EdgeFor(h, opt, es, e).command[1..]), "cpp") !=
            [Out("cpp", "", h.outDir)]
  {
    hide Directives, Searched, BuildPlanner.AllPluginArgs, ReadWord, BuildPlanner.Prefixed;
    var words := BuildPlanner.EdgeFor(h, opt, es, e).command[1..];
    var roots, cpp := BuildPlanner.Prefixed("-I", BuildPlanner.IncludeRoots(h, opt)), ["--cpp_out=" + h.outDir];
    var rest := BuildPlanner.AllPluginArgs(BuildPlanner.ResolvePlugins(h, opt), h.outDir) + opt.protocArgs +
      [BuildPlanner.Source(e)];
    assert words == roots + (cpp + rest);
    RootsRead(h, opt);
    DirectivesConcat(roots, cpp + rest);
    DirectivesConcat(cpp, rest);
    RootsAreIncludes(Absolutes(h, [opt.protoDir] + opt.extraDirs + opt.imports) + [h.wellKnownTypes]);
    NoneInIncludes(Directives(roots), "cpp");
    FirstsBehind(Directives(roots), Directives(cpp) + Directives(rest), "cpp");
    CppRead(h.outDir);
    FirstsBehind(Directives(cpp), Directives(rest), "cpp");
  }

  lemma CppRead(out: string)
    requires ':' in out
    ensures FirstOut(Directives(["--cpp_out=" + out]), "cpp") != [] &&
            FirstOut(Directives(["--cpp_out=" + out]), "cpp") != [Out("cpp", "", out)]
  {
    hide ReadWord;
    assert "--" + "cpp" + "_out=" + out == "--cpp_out=" + out;
    OutWord("cpp", out);
    CppReadIff(out);
    assert Directives(["--cpp_out=" + out]) == [ReadWord("--cpp_out=" + out)];
  }

  lemma OutputsMeet(dir: string, name: string, mock: bool, f: File, ps: Parameters)
    requires Stripped(f.filename) == name && ps.generateMockCode == mock
    ensures multiset(BuildPlanner.Prefixed(dir + "/" + name, PlanProperties.BuiltIn(true, mock))) ==
            multiset([dir + "/" + name + ".pb.cc", dir + "/" + name + ".pb.h"]) + multiset(Written(dir, FilesOf(f, ps)))
  {
    hide HeaderFile, SourceOfFile, MockFile, Stripped;
    var p, q := dir + "/" + name, dir + "/";
    var a, b, c, d, e := p + ".pb.cc", p + ".pb.h", p + ".grpc.pb.cc", p + ".grpc.pb.h", p + "_mock.grpc.pb.h";
    Assoc(q, name, ".grpc.pb.cc");
    Assoc(q, name, ".grpc.pb.h");
    Assoc(q, name, "_mock.grpc.pb.h");
    if mock {
      assert BuildPlanner.Prefixed(p, PlanProperties.BuiltIn(true, true)) == [a, b, c, d, e];
      assert Written(dir, FilesOf(f, ps)) == [d, c, e];
      Reordered3(a, b, c, d, e);
    } else {
      assert BuildPlanner.Prefixed(p, PlanProperties.BuiltIn(true, false)) == [a, b, c, d];
      assert Written(dir, FilesOf(f, ps)) == [d, c];
      Reordered2(a, b, c, d);
    }
  }

  lemma Assoc(a: string, b: string, c: string)
    ensures a + b + c == a + (b + c)
  {
  }

  lemma Reordered3(a: string, b: string, c: string, d: string, e: string)
    ensures multiset([a, b, c, d, e]) == multiset([a, b]) + multiset([d, c, e])
  {
    assert multiset([a, b, c, d, e]) == multiset{a, b, c, d, e};
  }

  lemma Reordered2(a: string, b: string, c: string, d: string)
    ensures multiset([a, b, c, d]) == multiset([a, b]) + multiset([d, c])
  {
    assert multiset([a, b, c, d]) == multiset{a, b, c, d};
  }
}
