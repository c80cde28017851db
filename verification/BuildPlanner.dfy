// The build planner of grpcgen.cppm: options and directory listings in,
// protoc edges out.
module BuildPlanner {
  import opened Tokens
  import opened NameOrder

  datatype Plugin = Plugin(name: string, binary: string, params: seq<string>, suffixes: seq<string>)

  datatype Options = Options(
    protoDir: string,
    grpc: bool,
    extraDirs: seq<string>,
    imports: seq<string>,
    mock: bool,
    protocArgs: seq<string>,
    plugins: seq<Plugin>)

  datatype Entry = Entry(root: string, name: string)

  datatype Edge = Edge(id: string, description: string, command: seq<string>, inputs: seq<string>, outputs: seq<string>)

  // What is_regular_file answers; Unreadable is an error of its own, as for a
  // link that leads nowhere.
  datatype Status = Regular | NotRegular | Unreadable

  // One file the directory iterator reports below a root.
  datatype Listed = Listed(status: Status, extension: string, stem: string)

  // What the build tool and the file system answer. An empty string is the
  // tool's way to say that it has no answer; `absolute` is the path
  // normalisation under the manifest directory and `relative` a path as seen
  // from there, empty if there is no such form.
  datatype Host = Host(
    manifestDir: string,
    outDir: string,
    protoc: string,
    grpcPlugin: string,
    wellKnownTypes: string,
    absolute: string -> string,
    relative: string -> string)

  datatype Refusal =
    | NoContext | NoDirectory(root: string) | NoFiles | NoProtoc | NoExecutable(plugin: string) | NoWellKnownTypes

  datatype Planned = Edges(edges: seq<Edge>) | Refused(why: Refusal)

  function Cpp(h: Host, mock: bool): Plugin {
    var p := Plugin("grpc", h.grpcPlugin, [], [".grpc.pb.cc", ".grpc.pb.h"]);
    if mock then p.(params := p.params + ["generate_mock_code=true"], suffixes := p.suffixes + ["_mock.grpc.pb.h"])
    else p
  }

  function ResolvePlugins(h: Host, opt: Options): seq<Plugin> {
    if opt.plugins != [] then opt.plugins
    else if !opt.grpc then []
    else [Cpp(h, opt.mock)]
  }

  // A planned edge while it is being filled in.
  class OpenEdge {
    const id: string
    const description: string
    var command: seq<string>
    var inputs: seq<string>
    var outputs: seq<string>

    constructor (id: string, description: string)
      ensures this.id == id && this.description == description && command == [] && inputs == [] && outputs == []
    {
      this.id, this.description := id, description;
      command, inputs, outputs := [], [], [];
    }

    method Arg(a: string)
      modifies this`command
      ensures command == old(command) + [a]
    {
      command := command + [a];
    }

    method Input(p: string)
      modifies this`inputs
      ensures inputs == old(inputs) + [p]
    {
      inputs := inputs + [p];
    }

    method Output(p: string)
      modifies this`outputs
      ensures outputs == old(outputs) + [p]
    {
      outputs := outputs + [p];
    }
  }

  function WithoutLeadingEmpty(params: seq<string>): seq<string> {
    if params != [] && params[0] == "" then WithoutLeadingEmpty(params[1..]) else params
  }

  // A plugin's parameters in protoc's spelling. A comma goes in front of a
  // parameter only when something precedes it, so leading empty ones vanish.
  function Spec(params: seq<string>): string { Join(WithoutLeadingEmpty(params), ",") }

  function Extended(spec: string, params: seq<string>): string
    decreases params
  {
    if params == [] then spec
    else Extended((if spec != "" then spec + "," else spec) + params[0], params[1..])
  }

  lemma {:induction false} ExtendedIsJoin(spec: string, params: seq<string>)
    ensures spec != "" ==> Extended(spec, params) == Join([spec] + params, ",")
    ensures spec == "" ==> Extended(spec, params) == Spec(params)
    decreases params
  {
    if params == [] {
      assert [spec] + params == [spec];
    } else if spec != "" {
      var next := spec + "," + params[0];
      ExtendedIsJoin(next, params[1..]);
      assert ([spec] + params)[1..] == params;
      assert ([next] + params[1..])[1..] == params[1..];
      if |params| > 1 {
        assert next + "," + Join(params[1..], ",") == spec + "," + (params[0] + "," + Join(params[1..], ","));
      }
    } else {
      assert spec + params[0] == params[0];
      ExtendedIsJoin(params[0], params[1..]);
      assert [params[0]] + params[1..] == params;
    }
  }

  method JoinParams(params: seq<string>) returns (spec: string)
    ensures spec == Spec(params)
  {
    spec := "";
    ExtendedIsJoin("", params);
    assert params[0..] == params;
    for i := 0 to |params|
      invariant Extended(spec, params[i..]) == Spec(params)
    {
      assert params[i..][1..] == params[i + 1..];
      if spec != "" {
        spec := spec + ",";
      }
      spec := spec + params[i];
    }
  }

  function Prefixed(prefix: string, parts: seq<string>): seq<string> {
    seq(|parts|, i requires 0 <= i < |parts| => prefix + parts[i])
  }

  function PluginArgs(p: Plugin, out: string): seq<string> {
    ["--" + p.name + "_out=" + (if Spec(p.params) == "" then out else Spec(p.params) + ":" + out),
     "--plugin=protoc-gen-" + p.name + "=" + p.binary]
  }

  function AllPluginArgs(ps: seq<Plugin>, out: string): seq<string> {
    if ps == [] then [] else AllPluginArgs(ps[..|ps| - 1], out) + PluginArgs(ps[|ps| - 1], out)
  }

  // The roots the author chose.
  function UserRoots(h: Host, opt: Options): seq<string> {
    [h.absolute(opt.protoDir)] +
    seq(|opt.extraDirs|, i requires 0 <= i < |opt.extraDirs| => h.absolute(opt.extraDirs[i])) +
    seq(|opt.imports|, i requires 0 <= i < |opt.imports| => h.absolute(opt.imports[i]))
  }

  function IncludeRoots(h: Host, opt: Options): seq<string> { UserRoots(h, opt) + [h.wellKnownTypes] }

  // ---- Descriptions ----

  function MockWords(params: seq<string>): string {
    if params == [] then ""
    else MockWords(params[..|params| - 1]) + if params[|params| - 1] == "generate_mock_code=true" then " +mock" else ""
  }

  function PluginWords(ps: seq<Plugin>): string {
    if ps == [] then ""
    else
      var n := |ps| - 1;
      PluginWords(ps[..n]) + (if n > 0 then " " else "") + "+" + ps[n].name + MockWords(ps[n].params)
  }

  // A root as the author wrote it, unless that form climbs out of the manifest
  // directory by two levels or more.
  function Shown(h: Host, root: string): string {
    if h.relative(root) == "" || "../.." <= h.relative(root) then root else h.relative(root)
  }

  // A comma goes in front of every root that is spelled like the first.
  function RootWords(h: Host, roots: seq<string>, first: string): string {
    if roots == [] then ""
    else
      var r := roots[|roots| - 1];
      RootWords(h, roots[..|roots| - 1], first) + (if r == first then ", -I" else " -I") + Shown(h, r)
  }

  function Description(h: Host, name: string, ps: seq<Plugin>, roots: seq<string>): string
    requires roots != []
  {
    "protoc:" + name + " (" + (if ps == [] then "messages-only" else PluginWords(ps)) + RootWords(h, roots, roots[0]) +
      ")"
  }

  method DescribePlugins(start: string, ps: seq<Plugin>) returns (s: string)
    ensures s == start + PluginWords(ps)
  {
    s := start;
    var first := true;
    for i := 0 to |ps|
      invariant s == start + PluginWords(ps[..i]) && first == (i == 0)
    {
      ghost var before := s;
      assert ps[..i + 1][..i] == ps[..i];
      if !first {
        s := s + " ";
      }
      first := false;
      s := s + ("+" + ps[i].name);
      ghost var named := s;
      assert named == before + ((if i > 0 then " " else "") + "+" + ps[i].name);
      var params := ps[i].params;
      for j := 0 to |params|
        invariant s == named + MockWords(params[..j])
      {
        assert params[..j + 1][..j] == params[..j];
        if params[j] == "generate_mock_code=true" {
          s := s + " +mock";
        }
      }
      assert params[..|params|] == params;
      PluginsSnoc(start, ps, i);
    }
    assert ps[..|ps|] == ps;
  }

  lemma PluginsSnoc(start: string, ps: seq<Plugin>, i: nat)
    requires i < |ps|
    ensures start + PluginWords(ps[..i + 1]) ==
            start + PluginWords(ps[..i]) + ((if i > 0 then " " else "") + "+" + ps[i].name) + MockWords(ps[i].params)
  {
    assert ps[..i + 1][..i] == ps[..i];
  }

  // describe
  method Describe(h: Host, name: string, ps: seq<Plugin>, roots: seq<string>) returns (s: string)
    requires roots != []
    ensures s == Description(h, name, ps, roots)
  {
    s := "protoc:" + name + " (";
    if ps == [] {
      s := s + "messages-only";
    } else {
      s := DescribePlugins(s, ps);
    }
    s := DescribeRoots(h, s, roots);
    s := s + ")";
  }

  method DescribeRoots(h: Host, start: string, roots: seq<string>) returns (s: string)
    requires roots != []
    ensures s == start + RootWords(h, roots, roots[0])
  {
    s := start;
    for i := 0 to |roots|
      invariant s == start + RootWords(h, roots[..i], roots[0])
    {
      hide RootWords;
      RootsSnoc(h, start, roots, i);
      var r := h.relative(roots[i]);
      var shown := if r == "" || "../.." <= r then roots[i] else r;
      s := s + ((if roots[i] == roots[0] then ", -I" else " -I") + shown);
    }
    assert roots[..|roots|] == roots;
  }

  lemma RootsSnoc(h: Host, start: string, roots: seq<string>, i: nat)
    requires i < |roots|
    ensures start + RootWords(h, roots[..i + 1], roots[0]) ==
            start + RootWords(h, roots[..i], roots[0]) +
            ((if roots[i] == roots[0] then ", -I" else " -I") + Shown(h, roots[i]))
  {
    assert roots[..i + 1][..i] == roots[..i];
  }

  function Source(e: Entry): string { e.root + "/" + e.name + ".proto" }

  function Sources(es: seq<Entry>): seq<string> { seq(|es|, i requires 0 <= i < |es| => Source(es[i])) }

  function Suffixes(ps: seq<Plugin>): seq<string> {
    if ps == [] then [".pb.cc", ".pb.h"] else Suffixes(ps[..|ps| - 1]) + ps[|ps| - 1].suffixes
  }

  function EdgeFor(h: Host, opt: Options, es: seq<Entry>, e: Entry): Edge {
    var ps := ResolvePlugins(h, opt);
    Edge("protoc:" + e.name,
         Description(h, e.name, ps, UserRoots(h, opt)),
         [h.protoc] + Prefixed("-I", IncludeRoots(h, opt)) + ["--cpp_out=" + h.outDir] +
         AllPluginArgs(ps, h.outDir) + opt.protocArgs + [Source(e)],
         Sources(es),
         Prefixed(h.outDir + "/" + e.name, Suffixes(ps)))
  }

  function EdgesFor(h: Host, opt: Options, es: seq<Entry>): seq<Edge> {
    seq(|es|, i requires 0 <= i < |es| => EdgeFor(h, opt, es, es[i]))
  }

  function FirstWithoutBinary(ps: seq<Plugin>): seq<Plugin> {
    if ps == [] then [] else if ps[0].binary == "" then [ps[0]] else FirstWithoutBinary(ps[1..])
  }

  // The edges for explicit (root, name) pairs, or the first reason there are
  // none.
  function PlanEntries(h: Host, opt: Options, es: seq<Entry>): Planned {
    if h.manifestDir == "" || h.outDir == "" then Refused(NoContext)
    else if es == [] then Refused(NoFiles)
    else if h.protoc == "" then Refused(NoProtoc)
    else if FirstWithoutBinary(ResolvePlugins(h, opt)) != [] then
      Refused(NoExecutable(FirstWithoutBinary(ResolvePlugins(h, opt))[0].name))
    else if h.wellKnownTypes == "" then Refused(NoWellKnownTypes)
    else Edges(EdgesFor(h, opt, es))
  }

  lemma PrefixedSnoc(prefix: string, parts: seq<string>, i: nat)
    requires i < |parts|
    ensures Prefixed(prefix, parts[..i + 1]) == Prefixed(prefix, parts[..i]) + [prefix + parts[i]]
  {
  }

  lemma PrefixedConcat(prefix: string, a: seq<string>, b: seq<string>)
    ensures Prefixed(prefix, a + b) == Prefixed(prefix, a) + Prefixed(prefix, b)
  {
  }

  // The include arguments, the outputs of protoc and its plugins, the extra
  // arguments and the source, in the order protoc sees them.
  method FillCommand(e: OpenEdge, h: Host, opt: Options, plugins: seq<Plugin>, incs: seq<string>, source: string)
    requires e.command == []
    modifies e`command
    ensures e.command == [h.protoc] + Prefixed("-I", incs) + ["--cpp_out=" + h.outDir] +
                         AllPluginArgs(plugins, h.outDir) + opt.protocArgs + [source]
  {
    e.Arg(h.protoc);
    for i := 0 to |incs|
      invariant e.command == [h.protoc] + Prefixed("-I", incs[..i])
    {
      PrefixedSnoc("-I", incs, i);
      e.Arg("-I" + incs[i]);
    }
    assert incs[..|incs|] == incs;
    e.Arg("--cpp_out=" + h.outDir);
    ghost var head := e.command;
    for i := 0 to |plugins|
      invariant e.command == head + AllPluginArgs(plugins[..i], h.outDir)
    {
      var p := plugins[i];
      assert plugins[..i + 1][..i] == plugins[..i];
      var spec := JoinParams(p.params);
      e.Arg("--" + p.name + "_out=" + (if spec == "" then h.outDir else spec + ":" + h.outDir));
      e.Arg("--plugin=protoc-gen-" + p.name + "=" + p.binary);
    }
    assert plugins[..|plugins|] == plugins;
    head := e.command;
    for i := 0 to |opt.protocArgs|
      invariant e.command == head + opt.protocArgs[..i]
    {
      e.Arg(opt.protocArgs[i]);
    }
    assert opt.protocArgs[..|opt.protocArgs|] == opt.protocArgs;
    e.Arg(source);
  }

  method FillOutputs(e: OpenEdge, plugins: seq<Plugin>, base: string)
    requires e.outputs == []
    modifies e`outputs
    ensures e.outputs == Prefixed(base, Suffixes(plugins))
  {
    e.Output(base + ".pb.cc");
    e.Output(base + ".pb.h");
    for i := 0 to |plugins|
      invariant e.outputs == Prefixed(base, Suffixes(plugins[..i]))
    {
      var suffixes := plugins[i].suffixes;
      ghost var head := e.outputs;
      for j := 0 to |suffixes|
        invariant e.outputs == head + Prefixed(base, suffixes[..j])
      {
        PrefixedSnoc(base, suffixes, j);
        e.Output(base + suffixes[j]);
      }
      assert suffixes[..|suffixes|] == suffixes && plugins[..i + 1][..i] == plugins[..i];
      PrefixedConcat(base, Suffixes(plugins[..i]), suffixes);
    }
    assert plugins[..|plugins|] == plugins;
  }

  method FillInputs(e: OpenEdge, inputs: seq<string>)
    requires e.inputs == []
    modifies e`inputs
    ensures e.inputs == inputs
  {
    for i := 0 to |inputs|
      invariant e.inputs == inputs[..i]
    {
      e.Input(inputs[i]);
    }
  }

  // plan_entries
  method PlanEntriesInto(protos: seq<Entry>, opt: Options, h: Host) returns (r: Planned)
    ensures r == PlanEntries(h, opt, protos)
  {
    if h.manifestDir == "" || h.outDir == "" {
      return Refused(NoContext);
    }
    if protos == [] {
      return Refused(NoFiles);
    }
    if h.protoc == "" {
      return Refused(NoProtoc);
    }
    var plugins := ResolvePlugins(h, opt);
    assert plugins[0..] == plugins;
    for i := 0 to |plugins|
      invariant FirstWithoutBinary(plugins) == FirstWithoutBinary(plugins[i..])
    {
      assert plugins[i..][1..] == plugins[i + 1..];
      if plugins[i].binary == "" {
        return Refused(NoExecutable(plugins[i].name));
      }
    }
    if h.wellKnownTypes == "" {
      return Refused(NoWellKnownTypes);
    }
    var edges := PlanEdges(protos, opt, h, plugins);
    return Edges(edges);
  }

  // The part of plan_entries behind its checks.
  method PlanEdges(protos: seq<Entry>, opt: Options, h: Host, plugins: seq<Plugin>) returns (edges: seq<Edge>)
    requires plugins == ResolvePlugins(h, opt)
    ensures edges == EdgesFor(h, opt, protos)
  {
    hide ResolvePlugins, Description, Suffixes, AllPluginArgs, Prefixed;
    var incs := BuildIncludeRoots(h, opt);
    assert incs[..|incs| - 1] == UserRoots(h, opt);
    var inputs: seq<string> := [];
    for i := 0 to |protos|
      invariant inputs == Sources(protos[..i])
    {
      inputs := inputs + [Source(protos[i])];
    }
    assert protos[..|protos|] == protos;
    edges := [];
    for i := 0 to |protos|
      invariant edges == EdgesFor(h, opt, protos)[..i]
    {
      var ent := protos[i];
      var description := Describe(h, ent.name, plugins, incs[..|incs| - 1]);
      var e := new OpenEdge("protoc:" + ent.name, description);
      FillCommand(e, h, opt, plugins, incs, Source(ent));
      FillInputs(e, inputs);
      FillOutputs(e, plugins, h.outDir + "/" + ent.name);
      edges := edges + [Edge(e.id, e.description, e.command, e.inputs, e.outputs)];
      assert edges[i] == EdgesFor(h, opt, protos)[i];
    }
  }

  method BuildIncludeRoots(h: Host, opt: Options) returns (incs: seq<string>)
    ensures incs == IncludeRoots(h, opt)
  {
    incs := [h.absolute(opt.protoDir)];
    for i := 0 to |opt.extraDirs|
      invariant incs == [h.absolute(opt.protoDir)] + seq(i, k requires 0 <= k < i => h.absolute(opt.extraDirs[k]))
    {
      incs := incs + [h.absolute(opt.extraDirs[i])];
    }
    ghost var head := incs;
    for i := 0 to |opt.imports|
      invariant incs == head + seq(i, k requires 0 <= k < i => h.absolute(opt.imports[k]))
    {
      incs := incs + [h.absolute(opt.imports[i])];
    }
    incs := incs + [h.wellKnownTypes];
  }

  predicate IsProto(f: Listed) { f.status.Regular? && f.extension == ".proto" }

  // The .proto names among some files, in their order.
  function Names(files: seq<Listed>): seq<string> {
    if files == [] then []
    else Names(files[..|files| - 1]) + if IsProto(files[|files| - 1]) then [files[|files| - 1].stem] else []
  }

  // The files the scan of a root gets to: an unreadable one sets the error
  // code that ends the loop in front of the next.
  function Reached(files: seq<Listed>): seq<Listed> {
    if files == [] then [] else if files[0].status.Unreadable? then [files[0]] else [files[0]] + Reached(files[1..])
  }

  // A generation root as the file system shows it.
  datatype Directory = Absent | Listing(files: seq<Listed>)

  function Roots(opt: Options): seq<string> { [opt.protoDir] + opt.extraDirs }

  function Group(h: Host, root: string, d: Directory): seq<Entry> {
    if d.Absent? then []
    else
      var names := Sort(Names(Reached(d.files)));
      seq(|names|, i requires 0 <= i < |names| => Entry(h.absolute(root), names[i]))
  }

  function Entries(h: Host, roots: seq<string>, dirs: seq<Directory>): seq<Entry>
    requires |roots| == |dirs|
  {
    if roots == [] then []
    else
      var n := |roots| - 1;
      Entries(h, roots[..n], dirs[..n]) + Group(h, roots[n], dirs[n])
  }

  function FirstAbsent(roots: seq<string>, dirs: seq<Directory>): seq<string>
    requires |roots| == |dirs|
  {
    if roots == [] then [] else if dirs[0].Absent? then [roots[0]] else FirstAbsent(roots[1..], dirs[1..])
  }

  // One pattern for every root up to the first that is absent.
  function Globs(roots: seq<string>, dirs: seq<Directory>): seq<string>
    requires |roots| == |dirs|
  {
    if roots == [] then []
    else [roots[0] + "/**/*.proto"] + if dirs[0].Absent? then [] else Globs(roots[1..], dirs[1..])
  }

  function PlanAll(h: Host, opt: Options, dirs: seq<Directory>): Planned
    requires |dirs| == |Roots(opt)|
  {
    if h.manifestDir == "" then Refused(NoContext)
    else if FirstAbsent(Roots(opt), dirs) != [] then Refused(NoDirectory(FirstAbsent(Roots(opt), dirs)[0]))
    else if Entries(h, Roots(opt), dirs) == [] then Refused(NoFiles)
    else PlanEntries(h, opt, Entries(h, Roots(opt), dirs))
  }

  // The scan has looked at the first i files, and failed on the last of them.
  ghost predicate ReachedBy(files: seq<Listed>, i: nat, failed: bool)
    requires i <= |files|
  {
    Reached(files) == files[..i] + if failed then [] else Reached(files[i..])
  }

  lemma ReachedNext(files: seq<Listed>, i: nat)
    requires i < |files| && ReachedBy(files, i, false)
    ensures ReachedBy(files, i + 1, files[i].status.Unreadable?)
  {
    assert files[i..][1..] == files[i + 1..] && files[..i + 1] == files[..i] + [files[i]];
  }

  lemma ReachedEnd(files: seq<Listed>, i: nat, failed: bool)
    requires i <= |files| && ReachedBy(files, i, failed) && (failed || i == |files|)
    ensures Reached(files) == files[..i]
  {
    assert Reached([]) == [] && files[|files|..] == [];
  }

  method CollectNames(files: seq<Listed>) returns (names: seq<string>)
    ensures names == Sort(Names(Reached(files)))
  {
    names := [];
    var failed := false;
    ghost var seen := 0;
    for i := 0 to |files|
      invariant seen == i && names == Names(files[..i])
      invariant ReachedBy(files, i, failed)
    {
      hide ReachedBy;
      if failed { break; }
      ReachedNext(files, i);
      seen := i + 1;
      assert files[..i + 1][..i] == files[..i];
      failed := files[i].status.Unreadable?;
      if !files[i].status.Regular? { continue; }
      if files[i].extension != ".proto" { continue; }
      names := names + [files[i].stem];
    }
    ReachedEnd(files, seen, failed);
    names := Sort(names);
  }

  // plan_all. `globs` records the patterns handed to the build tool: one for
  // every root that was looked at.
  method PlanAllFrom(opt: Options, h: Host, dirs: seq<Directory>) returns (r: Planned, globs: seq<string>)
    requires |dirs| == |Roots(opt)|
    ensures r == PlanAll(h, opt, dirs)
    ensures globs == if h.manifestDir == "" then [] else Globs(Roots(opt), dirs)
  {
    hide PlanEntries, Entries, FirstAbsent, Globs;
    if h.manifestDir == "" {
      return Refused(NoContext), [];
    }
    var roots := Roots(opt);
    var entries, missing;
    entries, missing, globs := ScanRoots(roots, h, dirs);
    if missing != [] {
      return Refused(NoDirectory(missing[0])), globs;
    }
    if entries == [] {
      return Refused(NoFiles), globs;
    }
    r := PlanEntriesInto(entries, opt, h);
  }

  // The loop of plan_all over the roots; it ends at one that does not exist.
  method ScanRoots(roots: seq<string>, h: Host, dirs: seq<Directory>)
    returns (entries: seq<Entry>, missing: seq<string>, globs: seq<string>)
    requires |roots| == |dirs|
    ensures missing == FirstAbsent(roots, dirs) && globs == Globs(roots, dirs)
    ensures missing == [] ==> entries == Entries(h, roots, dirs)
  {
    hide Entries, FirstAbsent, Globs, Group;
    entries, missing, globs := [], [], [];
    NothingScanned(h, roots, dirs);
    for i := 0 to |roots|
      invariant globs + Globs(roots[i..], dirs[i..]) == Globs(roots, dirs)
      invariant entries == Entries(h, roots[..i], dirs[..i])
      invariant FirstAbsent(roots, dirs) == FirstAbsent(roots[i..], dirs[i..])
    {
      ScannedOne(h, roots, dirs, i);
      GlobTaken(globs, roots[i], if dirs[i].Absent? then [] else Globs(roots[i + 1..], dirs[i + 1..]));
      globs := globs + [roots[i] + "/**/*.proto"];
      if dirs[i].Absent? {
        missing := [roots[i]];
        return;
      }
      entries := AddGroup(entries, h, roots[i], dirs[i]);
    }
    AllScanned(h, roots, dirs);
  }

  lemma GlobTaken(globs: seq<string>, root: string, rest: seq<string>)
    ensures globs + ([root + "/**/*.proto"] + rest) == (globs + [root + "/**/*.proto"]) + rest
  {
  }

  lemma NothingScanned(h: Host, roots: seq<string>, dirs: seq<Directory>)
    requires |roots| == |dirs|
    ensures Entries(h, roots[..0], dirs[..0]) == [] && roots[0..] == roots && dirs[0..] == dirs
  {
  }

  lemma ScannedOne(h: Host, roots: seq<string>, dirs: seq<Directory>, i: nat)
    requires |roots| == |dirs| && i < |roots|
    ensures Entries(h, roots[..i + 1], dirs[..i + 1]) == Entries(h, roots[..i], dirs[..i]) + Group(h, roots[i], dirs[i])
    ensures FirstAbsent(roots[i..], dirs[i..]) ==
      if dirs[i].Absent? then [roots[i]] else FirstAbsent(roots[i + 1..], dirs[i + 1..])
    ensures Globs(roots[i..], dirs[i..]) ==
      [roots[i] + "/**/*.proto"] + if dirs[i].Absent? then [] else Globs(roots[i + 1..], dirs[i + 1..])
  {
    hide Group;
    assert roots[i..][1..] == roots[i + 1..] && dirs[i..][1..] == dirs[i + 1..];
    assert roots[..i + 1][..i] == roots[..i] && dirs[..i + 1][..i] == dirs[..i];
  }

  lemma AllScanned(h: Host, roots: seq<string>, dirs: seq<Directory>)
    requires |roots| == |dirs|
    ensures roots[..|roots|] == roots && dirs[..|dirs|] == dirs
    ensures FirstAbsent(roots[|roots|..], dirs[|dirs|..]) == [] && Globs(roots[|roots|..], dirs[|dirs|..]) == []
  {
  }

  method AddGroup(before: seq<Entry>, h: Host, root: string, d: Directory) returns (entries: seq<Entry>)
    requires d.Listing?
    ensures entries == before + Group(h, root, d)
  {
    entries := before;
    var names := CollectNames(d.files);
    for i := 0 to |names|
      invariant entries == before + Group(h, root, d)[..i]
    {
      entries := entries + [Entry(h.absolute(root), names[i])];
    }
  }

  // submit: what the build tool is told, one record per edge.
  datatype Action = Action(id: string, role: string, description: string, command: seq<string>, inputs: seq<string>,
    outputs: seq<string>)

  // One source action per edge, field for field, and the output directory among
  // the include directories; nothing at all without edges.
  method Submit(edges: seq<Edge>, outDir: string) returns (ok: bool, actions: seq<Action>, includeDirs: seq<string>)
    ensures ok <==> edges != []
    ensures |actions| == |edges|
    ensures forall i :: 0 <= i < |edges| ==>
      actions[i].id == edges[i].id && actions[i].role == "source" && actions[i].description == edges[i].description &&
      actions[i].command == edges[i].command && actions[i].inputs == edges[i].inputs &&
      actions[i].outputs == edges[i].outputs
    ensures includeDirs == if ok then [outDir] else []
  {
    actions, includeDirs := [], [];
    if edges == [] {
      return false, actions, includeDirs;
    }
    for i := 0 to |edges|
      invariant |actions| == i
      invariant forall k :: 0 <= k < i ==>
        actions[k] == Action(edges[k].id, "source", edges[k].description, edges[k].command, edges[k].inputs,
                             edges[k].outputs)
    {
      var e := edges[i];
      actions := actions + [Action(e.id, "source", e.description, e.command, e.inputs, e.outputs)];
    }
    includeDirs := includeDirs + [outDir];
    return true, actions, includeDirs;
  }
}
