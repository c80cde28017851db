// The parts of the three generated files: prologues, includes, services and
// epilogues. Each part has a printer and a variable map of its own; the printer
// starts where the part before it ended, which is the join of the parts.
module Outputs {
  import opened Schema
  import opened Emit
  import opened Tokens
  import opened Replace
  import opened Guards
  import opened VariableText
  import opened ImportLines
  import opened HeaderService
  import opened SourceTemplates
  import opened SourceService
  import opened MockService

  // ---- PrintIncludes ----

  function LeftOf(useSystem: bool, path: string): string {
    (if useSystem then "<" else "\"") + (if path == "" then "" else path + if path[|path| - 1] != '/' then "/" else "")
  }

  function RightOf(useSystem: bool): string { if useSystem then ">" else "\"" }

  function IncludeForm(): Form { Include(V(VLeft), V(VHeader), V(VRight)) }

  function IncludeEnv(l: string, h: string, r: string): Env { map[VLeft := l, VHeader := h, VRight := r] }

  function Includes(o: seq<Item>, headers: seq<string>, useSystem: bool, path: string, n: nat): seq<Item>
    requires n <= |headers|
  {
    if n == 0 then o
    else
      Put(Includes(o, headers, useSystem, path, n - 1), 0, IncludeForm(),
          IncludeEnv(LeftOf(useSystem, path), headers[n - 1], RightOf(useSystem)))
  }

  function AllIncludes(o: seq<Item>, headers: seq<string>, useSystem: bool, path: string): seq<Item> {
    Includes(o, headers, useSystem, path, |headers|)
  }

  // One include line: the header behind the search path, if there is one, in
  // angle brackets or in quotes.
  function IncludeLine(h: string, useSystem: bool, path: string): Item {
    var directory := if path == "" || path[|path| - 1] == '/' then path else path + "/";
    if useSystem then Line(0, Include(S("<" + directory), S(h), S(">")))
    else Line(0, Include(S("\"" + directory), S(h), S("\"")))
  }

  lemma IncludeRendered(h: string, useSystem: bool, path: string)
    ensures Line(0, Render(IncludeForm(), IncludeEnv(LeftOf(useSystem, path), h, RightOf(useSystem)))) ==
            IncludeLine(h, useSystem, path)
  {
    assert "<" + "" == "<" && "\"" + "" == "\"";
    assert LeftOf(useSystem, path) == (if useSystem then "<" else "\"") +
      if path == "" || path[|path| - 1] == '/' then path else path + "/";
  }

  // The headers come out one line each, in their order.
  lemma {:induction false} IncludesAre(o: seq<Item>, headers: seq<string>, useSystem: bool, path: string, n: nat)
    requires n <= |headers|
    ensures Includes(o, headers, useSystem, path, n) ==
            o + seq(n, k requires 0 <= k < n => IncludeLine(headers[k], useSystem, path))
  {
    hide LeftOf, RightOf, IncludeLine, Render;
    if n > 0 {
      IncludesAre(o, headers, useSystem, path, n - 1);
      IncludeRendered(headers[n - 1], useSystem, path);
    }
  }

  predicate Delimited(m: Env, useSystem: bool, path: string) {
    VLeft in m && m[VLeft] == LeftOf(useSystem, path) && VRight in m && m[VRight] == RightOf(useSystem)
  }

  method SetDelimiters(vars: Vars, useSystem: bool, path: string)
    modifies vars
    ensures Delimited(vars.m, useSystem, path)
  {
    vars.m := vars.m[VLeft := if useSystem then "<" else "\""];
    vars.m := vars.m[VRight := if useSystem then ">" else "\""];
    if path != "" {
      vars.m := vars.m[VLeft := vars.m[VLeft] + path];
      if path[|path| - 1] != '/' {
        vars.m := vars.m[VLeft := vars.m[VLeft] + "/"];
      }
    }
  }

  method SetHeader(vars: Vars, h: string, useSystem: bool, path: string)
    requires Delimited(vars.m, useSystem, path)
    modifies vars
    ensures Delimited(vars.m, useSystem, path)
    ensures Agrees(vars.m, IncludeEnv(LeftOf(useSystem, path), h, RightOf(useSystem)))
  {
    hide LeftOf, RightOf;
    vars.m := vars.m[VHeader := h];
  }

  method PrintIncludes(p: Printer, headers: seq<string>, useSystem: bool, path: string)
    requires p.indent == 0
    modifies p
    ensures p.out == AllIncludes(old(p.out), headers, useSystem, path) && p.indent == 0
  {
    hide LeftOf, RightOf, Put, Agrees, Delimited;
    var vars := new Vars();
    SetDelimiters(vars, useSystem, path);
    for i := 0 to |headers|
      invariant p.out == Includes(old(p.out), headers, useSystem, path, i) && p.indent == 0
      invariant Delimited(vars.m, useSystem, path)
    {
      SetHeader(vars, headers[i], useSystem, path);
      p.Print(vars, IncludeForm(), IncludeEnv(LeftOf(useSystem, path), headers[i], RightOf(useSystem)));
    }
  }

  // The standard headers, in runs of a few names; ports_def.inc comes last.
  function GenericHeaders(): seq<string> {
    ["functional", "grpcpp/generic/async_generic_service.h", "grpcpp/support/async_stream.h",
      "grpcpp/support/async_unary_call.h"]
  }

  function ClientHeaders(): seq<string> {
    ["grpcpp/support/client_callback.h", "grpcpp/client_context.h", "grpcpp/completion_queue.h",
     "grpcpp/support/message_allocator.h"]
  }

  function MethodHeaders(): seq<string> {
    ["grpcpp/support/method_handler.h", "grpcpp/impl/proto_utils.h", "grpcpp/impl/rpc_method.h",
     "grpcpp/support/server_callback.h"]
  }

  function ServerHeaders(): seq<string> {
    ["grpcpp/impl/server_callback_handlers.h", "grpcpp/server_context.h", "grpcpp/impl/service_type.h"]
  }

  function SupportHeaders(): seq<string> {
    ["grpcpp/support/status.h", "grpcpp/support/stub_options.h", "grpcpp/support/sync_stream.h"]
  }

  function HeaderList(): seq<string> {
    GenericHeaders() + ClientHeaders() + MethodHeaders() + ServerHeaders() + SupportHeaders() + ["grpcpp/ports_def.inc"]
  }

  function StreamHeaders(): seq<string> {
    ["functional", "grpcpp/support/async_stream.h", "grpcpp/support/async_unary_call.h",
      "grpcpp/impl/channel_interface.h"]
  }

  function CallHeaders(): seq<string> {
    ["grpcpp/impl/client_unary_call.h", "grpcpp/support/client_callback.h", "grpcpp/support/message_allocator.h"]
  }

  function HandlerHeaders(): seq<string> {
    ["grpcpp/support/method_handler.h", "grpcpp/impl/rpc_service_method.h", "grpcpp/support/server_callback.h"]
  }

  function LastHeaders(): seq<string> { ["grpcpp/support/sync_stream.h"] }

  function SourceList(): seq<string> {
    StreamHeaders() + CallHeaders() + HandlerHeaders() + ServerHeaders() + LastHeaders() + ["grpcpp/ports_def.inc"]
  }

  function MockList(): seq<string> { ["grpcpp/support/async_stream.h", "grpcpp/support/sync_stream.h"] }

  // headers_strs of GetHeaderIncludes and of GetSourceIncludes, printed.
  method PrintHeaderList(p: Printer, ps: Parameters)
    requires p.indent == 0
    modifies p
    ensures p.out == AllIncludes(old(p.out), HeaderList(), ps.useSystemHeaders, ps.grpcSearchPath) && p.indent == 0
  {
    hide AllIncludes;
    var headers :=
      ["functional", "grpcpp/generic/async_generic_service.h", "grpcpp/support/async_stream.h",
       "grpcpp/support/async_unary_call.h", "grpcpp/support/client_callback.h", "grpcpp/client_context.h",
       "grpcpp/completion_queue.h", "grpcpp/support/message_allocator.h", "grpcpp/support/method_handler.h",
       "grpcpp/impl/proto_utils.h", "grpcpp/impl/rpc_method.h", "grpcpp/support/server_callback.h",
       "grpcpp/impl/server_callback_handlers.h", "grpcpp/server_context.h", "grpcpp/impl/service_type.h",
       "grpcpp/support/status.h", "grpcpp/support/stub_options.h", "grpcpp/support/sync_stream.h",
       "grpcpp/ports_def.inc"];
    assert headers == HeaderList();
    PrintIncludes(p, headers, ps.useSystemHeaders, ps.grpcSearchPath);
  }

  method PrintSourceList(p: Printer, ps: Parameters)
    requires p.indent == 0
    modifies p
    ensures p.out == AllIncludes(old(p.out), SourceList(), ps.useSystemHeaders, ps.grpcSearchPath) && p.indent == 0
  {
    hide AllIncludes;
    var headers :=
      ["functional", "grpcpp/support/async_stream.h", "grpcpp/support/async_unary_call.h",
       "grpcpp/impl/channel_interface.h", "grpcpp/impl/client_unary_call.h", "grpcpp/support/client_callback.h",
       "grpcpp/support/message_allocator.h", "grpcpp/support/method_handler.h", "grpcpp/impl/rpc_service_method.h",
       "grpcpp/support/server_callback.h", "grpcpp/impl/server_callback_handlers.h", "grpcpp/server_context.h",
       "grpcpp/impl/service_type.h", "grpcpp/support/sync_stream.h", "grpcpp/ports_def.inc"];
    assert headers == SourceList();
    PrintIncludes(p, headers, ps.useSystemHeaders, ps.grpcSearchPath);
  }

  // ---- Namespaces of the package ----

  function PartEnv(part: string): Env { map[VPart := part] }

  function Opened(o: seq<Item>, parts: seq<string>, n: nat): seq<Item>
    requires n <= |parts|
  {
    if n == 0 then o else Put(Opened(o, parts, n - 1), 0, NsOpen(V(VPart)), PartEnv(parts[n - 1]))
  }

  // Closing from the last of the first n parts to the first.
  function ClosedBack(o: seq<Item>, parts: seq<string>, n: nat): seq<Item>
    requires n <= |parts|
    decreases n
  {
    if n == 0 then o else ClosedBack(Put(o, 0, NsClose(V(VPart)), PartEnv(parts[n - 1])), parts, n - 1)
  }

  method PrintOpened(p: Printer, parts: seq<string>, vars: Vars)
    requires p.indent == 0
    modifies p, vars
    ensures p.out == Opened(old(p.out), parts, |parts|) && p.indent == 0
    ensures forall v :: v != VPart && v in old(vars.m) ==> v in vars.m && vars.m[v] == old(vars.m[v])
  {
    hide Put;
    for i := 0 to |parts|
      invariant p.out == Opened(old(p.out), parts, i) && p.indent == 0
      invariant forall v :: v != VPart && v in old(vars.m) ==> v in vars.m && vars.m[v] == old(vars.m[v])
    {
      vars.m := vars.m[VPart := parts[i]];
      p.Print(vars, NsOpen(V(VPart)), PartEnv(parts[i]));
    }
  }

  method PrintClosedBack(p: Printer, parts: seq<string>, vars: Vars)
    requires p.indent == 0
    modifies p, vars
    ensures p.out == ClosedBack(old(p.out), parts, |parts|) && p.indent == 0
    ensures forall v :: v != VPart && v in old(vars.m) ==> v in vars.m && vars.m[v] == old(vars.m[v])
  {
    hide Put;
    var i := |parts|;
    while i > 0
      invariant 0 <= i <= |parts|
      invariant ClosedBack(p.out, parts, i) == ClosedBack(old(p.out), parts, |parts|) && p.indent == 0
      invariant forall v :: v != VPart && v in old(vars.m) ==> v in vars.m && vars.m[v] == old(vars.m[v])
    {
      i := i - 1;
      vars.m := vars.m[VPart := parts[i]];
      p.Print(vars, NsClose(V(VPart)), PartEnv(parts[i]));
    }
  }

  // ---- Names ----

  function MessageHeaderExt(ps: Parameters): string {
    if ps.messageHeaderExtension == "" then ".pb.h" else ps.messageHeaderExtension
  }

  function ServiceHeaderExt(): string { ".grpc.pb.h" }

  function PackageParts(f: File): seq<string> { Pieces(f.package, ".") }

  // The line of one import, as the printer expands it.
  function ImportForm(name: string, env: Env): Form {
    var e := ImportExpansion(name, env);
    Stmt(ImportInclude, [S(if e.Expanded? then e.text else "")])
  }

  // Every import line can be printed: it has no unknown variable and no '$'
  // without a partner, which are fatal errors of the printer.
  predicate ImportsExpand(f: File, ps: Parameters, env: Env) {
    ps.includeImportHeaders ==> forall n :: n in f.importNames ==> ImportExpansion(n, env).Expanded?
  }

  function ExtEnv(ps: Parameters): Env { map[VMessageHeaderExt := MessageHeaderExt(ps)] }

  // No kept part of an import's name holds a '$' without a partner, or a pair
  // of them around anything but nothing or the extension's variable.
  predicate ImportsPaired(f: File, ps: Parameters) {
    ps.includeImportHeaders ==> forall n :: n in f.importNames ==> DollarsPaired(ImportBase(n))
  }

  // Which is exactly when a header's import lines can be printed.
  lemma ImportsExpandIff(f: File, ps: Parameters)
    ensures ImportsExpand(f, ps, ExtEnv(ps)) <==> ImportsPaired(f, ps)
  {
    hide ImportExpansion, DollarsPaired, ImportBase, MessageHeaderExt;
    assert ExtEnv(ps).Keys == {VMessageHeaderExt};
    forall n | n in f.importNames
      ensures ImportExpansion(n, ExtEnv(ps)).Expanded? <==> DollarsPaired(ImportBase(n))
    {
      ImportExpandsIff(n, ExtEnv(ps));
    }
  }

  // Every import line of the header includes its import's own message header.
  predicate ImportsRight(f: File, ps: Parameters) {
    ps.includeImportHeaders ==>
      forall n :: n in f.importNames ==> ImportExpansion(n, ExtEnv(ps)) == Expanded(ImportLine(n, MessageHeaderExt(ps)))
  }

  // Which they do exactly when no kept part of a name holds a '$' at all.
  lemma ImportsRightIff(f: File, ps: Parameters)
    requires '$' !in ps.messageHeaderExtension
    ensures ImportsRight(f, ps) <==>
            (ps.includeImportHeaders ==> forall n :: n in f.importNames ==> '$' !in ImportBase(n))
  {
    assert '$' !in MessageHeaderExt(ps);
    hide ImportExpansion, ImportLine, ImportBase, MessageHeaderExt;
    assert ExtEnv(ps).Keys == {VMessageHeaderExt};
    forall n | n in f.importNames
      ensures ImportExpansion(n, ExtEnv(ps)) == Expanded(ImportLine(n, MessageHeaderExt(ps))) <==> '$' !in ImportBase(n)
    {
      ImportLineIff(n, ExtEnv(ps));
    }
  }

  function Imports(o: seq<Item>, names: seq<string>, env: Env, n: nat): seq<Item>
    requires n <= |names|
  {
    if n == 0 then o else Put(Imports(o, names, env, n - 1), 0, ImportForm(names[n - 1], env), map[])
  }

  function ImportHeaders(o: seq<Item>, f: File, ps: Parameters, env: Env): seq<Item> {
    if ps.includeImportHeaders then Imports(o, f.importNames, env, |f.importNames|) + [Raw("\n")] else o
  }

  // The include of an import's own header, spelled out.
  function ImportSpelled(name: string, ps: Parameters): Item {
    var stem := if |name| < 6 then name else name[..|name| - 6];
    var ext := if ps.messageHeaderExtension == "" then ".pb.h" else ps.messageHeaderExtension;
    Line(0, Stmt(ImportInclude, [S("#include \"" + stem + ext + "\"\n")]))
  }

  // Where they are right, the import lines of a header come out one each, in the
  // order of the imports.
  lemma {:induction false} ImportsAre(o: seq<Item>, f: File, ps: Parameters, n: nat)
    requires ps.includeImportHeaders && ImportsRight(f, ps) && n <= |f.importNames|
    ensures Imports(o, f.importNames, ExtEnv(ps), n) ==
            o + seq(n, k requires 0 <= k < n => ImportSpelled(f.importNames[k], ps))
  {
    hide ImportExpansion, ImportSpelled, Render, ImportForm, ImportLine, ExtEnv, MessageHeaderExt;
    if n > 0 {
      ImportsAre(o, f, ps, n - 1);
      var name := f.importNames[n - 1];
      assert name in f.importNames;
      ImportIs(name, ps);
    }
  }

  lemma ImportIs(name: string, ps: Parameters)
    requires ImportExpansion(name, ExtEnv(ps)) == Expanded(ImportLine(name, MessageHeaderExt(ps)))
    ensures Line(0, Render(ImportForm(name, ExtEnv(ps)), map[])) == ImportSpelled(name, ps)
  {
    hide ImportExpansion;
    var stem := if |name| < 6 then name else name[..|name| - 6];
    assert ImportLine(name, MessageHeaderExt(ps)) == "#include \"" + stem + MessageHeaderExt(ps) + "\"\n";
    assert forall t {:trigger RRefs([S(t)], map[])} :: RRefs([S(t)], map[]) == [S(t)];
  }

  method PrintImportHeaders(p: Printer, f: File, ps: Parameters, vars: Vars) returns (ok: bool)
    requires p.indent == 0 && OnlyNames(vars.m)
    modifies p
    ensures p.indent == 0 && (ok <==> ImportsExpand(f, ps, vars.m))
    ensures ok ==> p.out == ImportHeaders(old(p.out), f, ps, vars.m)
  {
    hide Put, ImportExpansion;
    if ps.includeImportHeaders {
      for i := 0 to |f.importNames|
        invariant p.out == Imports(old(p.out), f.importNames, vars.m, i) && p.indent == 0
        invariant forall k :: 0 <= k < i ==> ImportExpansion(f.importNames[k], vars.m).Expanded?
      {
        if ImportExpansion(f.importNames[i], vars.m).Unbound? {
          return false;
        }
        p.PrintForm(ImportForm(f.importNames[i], vars.m));
      }
      p.PrintRaw("\n");
    }
    return true;
  }

  // A header's import lines use the extension alone; with the mock's further
  // names they expand to the same.
  lemma MockImportsExpand(f: File, ps: Parameters)
    requires ImportsPaired(f, ps)
    ensures ImportsExpand(f, ps, NamesEnv(f, ps))
  {
    ImportsExpandIff(f, ps);
    hide Identifier, Stripped, MessageHeaderExt, ServiceHeaderExt, Expand, ImportTemplate;
    MoreNames(f, ps);
    hide SpelledVars;
    if ps.includeImportHeaders {
      forall n | n in f.importNames
        ensures ImportExpansion(n, NamesEnv(f, ps)).Expanded?
      {
        assert ImportExpansion(n, ExtEnv(ps)).Expanded?;
        ExpandMore(ImportTemplate(n), SpelledVars(ExtEnv(ps)), SpelledVars(NamesEnv(f, ps)));
      }
    }
  }

  lemma MoreNames(f: File, ps: Parameters)
    ensures var few, more := SpelledVars(ExtEnv(ps)), SpelledVars(NamesEnv(f, ps));
      forall n :: n in few ==> n in more && more[n] == few[n]
  {
    hide Identifier, Stripped, MessageHeaderExt, ServiceHeaderExt;
    ExtIsSpelled(NamesEnv(f, ps));
    ExtIsSpelled(ExtEnv(ps));
    var few := SpelledVars(ExtEnv(ps));
    assert few.Keys == {KEY};
  }

  // ---- What the prologues set ----

  function NamesEnv(f: File, ps: Parameters): Env {
    map[VFilename := f.filename, VFilenameIdentifier := Identifier(f.filename), VFilenameBase := Stripped(f.filename),
        VMessageHeaderExt := MessageHeaderExt(ps), VServiceHeaderExt := ServiceHeaderExt()]
  }

  function HeaderGuardId(): seq<Ref> { [S("GRPC_"), V(VFilenameIdentifier), S("__INCLUDED")] }

  function MockGuardId(): seq<Ref> { [S("GRPC_MOCK_"), V(VFilenameIdentifier), S("__INCLUDED")] }

  function SourceLine(): Form { Stmt(SourceFile, [V(VFilename)]) }

  function MessageIncludeForm(): Form { Stmt(MessageInclude, [V(VFilenameBase), V(VMessageHeaderExt)]) }

  function ServiceIncludeForm(): Form { Stmt(ServiceInclude, [V(VFilenameBase), V(VServiceHeaderExt)]) }

  lemma PrologueBound(f: File, ps: Parameters)
    ensures Bound(SourceLine(), NamesEnv(f, ps)) && Bound(MessageIncludeForm(), NamesEnv(f, ps))
    ensures Bound(ServiceIncludeForm(), NamesEnv(f, ps))
    ensures forall how ::
      Bound(Guard(how, HeaderGuardId()), NamesEnv(f, ps)) && Bound(Guard(how, MockGuardId()), NamesEnv(f, ps))
  {
    hide Identifier, Stripped, MessageHeaderExt, ServiceHeaderExt;
  }

  method SetNames(vars: Vars, f: File, ps: Parameters)
    requires vars.m == map[]
    modifies vars
    ensures vars.m == NamesEnv(f, ps) && Agrees(vars.m, NamesEnv(f, ps)) && OnlyNames(vars.m)
  {
    hide Identifier, Stripped, MessageHeaderExt;
    vars.m := vars.m[VFilename := f.filename];
    var identifier := FilenameIdentifier(f.filename);
    vars.m := vars.m[VFilenameIdentifier := identifier];
    var base := StripProto(f.filename);
    vars.m := vars.m[VFilenameBase := base];
    vars.m := vars.m[VMessageHeaderExt := MessageHeaderExt(ps)];
    vars.m := vars.m[VServiceHeaderExt := ServiceHeaderExt()];
  }

  function Banner(o: seq<Item>, f: File, ps: Parameters): seq<Item> {
    Put(PutText(PutText(o, 0, GeneratedBy), 0, LocalChanges), 0, SourceLine(), NamesEnv(f, ps))
  }

  method PrintBanner(p: Printer, f: File, ps: Parameters, vars: Vars)
    requires p.indent == 0 && Agrees(vars.m, NamesEnv(f, ps))
    modifies p
    ensures p.out == Banner(old(p.out), f, ps) && p.indent == 0
  {
    hide Put, PutText, Agrees, Bound, NamesEnv, SourceLine;
    PrologueBound(f, ps);
    p.PrintText(GeneratedBy);
    p.PrintText(LocalChanges);
    p.Print(vars, SourceLine(), NamesEnv(f, ps));
  }

  function GuardStart(o: seq<Item>, id: seq<Ref>, env: Env): seq<Item> {
    PutText(Put(Put(o, 0, Guard(Ifndef, id), env), 0, Guard(Define, id), env), 0, Blank)
  }

  method PrintGuardStart(p: Printer, id: seq<Ref>, vars: Vars, ghost env: Env)
    requires p.indent == 0 && Agrees(vars.m, env) && Bound(Guard(Ifndef, id), env) && Bound(Guard(Define, id), env)
    modifies p
    ensures p.out == GuardStart(old(p.out), id, env) && p.indent == 0
  {
    hide Put, PutText, Agrees, Bound;
    p.Print(vars, Guard(Ifndef, id), env);
    p.Print(vars, Guard(Define, id), env);
    p.PrintText(Blank);
  }

  // ---- Header ----

  // File-level comments are printed raw, so their escaped '$' stays doubled.
  function OriginalHeaderComments(o: seq<Item>, f: File): seq<Item> {
    var comments := CommentTemplate(f.leading, "//");
    if comments != "" then PutText(o, 0, OriginalComments) + [Raw(comments)] else o
  }

  function HeaderPrologue(o: seq<Item>, f: File, ps: Parameters): seq<Item> {
    var o1 := OriginalHeaderComments(Banner(o, f, ps), f);
    var o2 := GuardStart(o1, HeaderGuardId(), NamesEnv(f, ps));
    PutText(Put(o2, 0, MessageIncludeForm(), NamesEnv(f, ps)), 0, Blank)
  }

  method PrintOriginalComments(p: Printer, f: File)
    requires p.indent == 0
    modifies p
    ensures p.out == OriginalHeaderComments(old(p.out), f) && p.indent == 0
  {
    hide PutText;
    var comments := GenerateCommentsWithPrefix(f.leading, "//");
    if comments != "" {
      p.PrintText(OriginalComments);
      p.PrintRaw(comments);
    }
  }

  // additional_headers() is empty for protobuf files and prints nothing.
  method GetHeaderPrologue(f: File, ps: Parameters, output: seq<Item>) returns (r: seq<Item>)
    ensures r == HeaderPrologue(output, f, ps)
  {
    hide Put, PutText, Banner, OriginalHeaderComments, GuardStart, Agrees, Bound, NamesEnv, HeaderGuardId,
      MessageIncludeForm;
    var p := new Printer(output);
    var vars := new Vars();
    SetNames(vars, f, ps);
    PrologueBound(f, ps);
    PrintBanner(p, f, ps, vars);
    PrintOriginalComments(p, f);
    PrintGuardStart(p, HeaderGuardId(), vars, NamesEnv(f, ps));
    p.Print(vars, MessageIncludeForm(), NamesEnv(f, ps));
    p.PrintText(Blank);
    return p.out;
  }

  function NamespacesStart(o: seq<Item>, f: File): seq<Item> {
    if f.package == "" then o else Opened(o, PackageParts(f), |PackageParts(f)|)
  }

  function HeaderIncludes(o: seq<Item>, f: File, ps: Parameters): seq<Item> {
    var o1 := if ps.additionalHeaderIncludes != [] then AllIncludes(o, ps.additionalHeaderIncludes, false, "") else o;
    var o2 := PutText(AllIncludes(o1, HeaderList(), ps.useSystemHeaders, ps.grpcSearchPath), 0, Blank);
    var o3 := ImportHeaders(o2, f, ps, ExtEnv(ps));
    if f.package == "" then o3 else PutText(NamespacesStart(o3, f), 0, Blank)
  }

  method SetExt(vars: Vars, ps: Parameters)
    requires vars.m == map[]
    modifies vars
    ensures vars.m == ExtEnv(ps) && OnlyNames(vars.m)
  {
    vars.m := vars.m[VMessageHeaderExt := MessageHeaderExt(ps)];
  }

  // Fails exactly when the printer does, on an import line.
  method GetHeaderIncludes(f: File, ps: Parameters, output: seq<Item>) returns (ok: bool, r: seq<Item>)
    ensures ok <==> ImportsPaired(f, ps)
    ensures ok ==> r == HeaderIncludes(output, f, ps)
  {
    ImportsExpandIff(f, ps);
    hide Put, PutText, AllIncludes, ImportHeaders, ImportsExpand, ImportsPaired, ExtEnv, OnlyNames, Opened, HeaderList,
      Pieces;
    var p := new Printer(output);
    var vars := new Vars();
    if ps.additionalHeaderIncludes != [] {
      PrintIncludes(p, ps.additionalHeaderIncludes, false, "");
    }
    PrintHeaderList(p, ps);
    p.PrintText(Blank);
    SetExt(vars, ps);
    ok := PrintImportHeaders(p, f, ps, vars);
    if !ok {
      return false, p.out;
    }
    if f.package != "" {
      var parts := Tokenize(f.package, ".");
      PrintOpened(p, parts, vars);
      p.PrintText(Blank);
    }
    return true, p.out;
  }

  // "\nnamespace $services_namespace$ {\n\n", if there is one
  function ServicesStart(o: seq<Item>, ps: Parameters): seq<Item> {
    if ps.servicesNamespace == "" then o
    else Put(o, 0, NsOpen(V(VServicesNamespace)), map[VServicesNamespace := ps.servicesNamespace])
  }

  function ServicesEnd(o: seq<Item>, ps: Parameters): seq<Item> {
    if ps.servicesNamespace == "" then o
    else Put(o, 0, NsClose(V(VServicesNamespace)), map[VServicesNamespace := ps.servicesNamespace])
  }

  // Empty, or ends with a dot.
  function PackagePrefix(f: File): string { if f.package == "" then "" else f.package + "." }

  function HeaderServicesUpTo(o: seq<Item>, f: File, ps: Parameters, n: nat): seq<Item>
    requires n <= |f.services|
  {
    if n == 0 then o
    else PutText(HeaderServiceOutput(HeaderServicesUpTo(o, f, ps, n - 1), 0, f.services[n - 1], PackagePrefix(f), ps),
      0, Blank)
  }

  function HeaderServices(o: seq<Item>, f: File, ps: Parameters): seq<Item> {
    ServicesEnd(HeaderServicesUpTo(ServicesStart(o, ps), f, ps, |f.services|), ps)
  }

  // The variables a services part starts with.
  predicate ServicesVars(m: Env, f: File, ps: Parameters) {
    VPackage in m && m[VPackage] == PackagePrefix(f) &&
    (ps.servicesNamespace != "" ==> VServicesNamespace in m && m[VServicesNamespace] == ps.servicesNamespace)
  }

  lemma ServicesVarsKept(m: Env, m': Env, f: File, ps: Parameters)
    requires ServicesVars(m, f, ps) && OnlyService(m, m')
    ensures ServicesVars(m', f, ps)
  {
  }

  method SetServicesVars(vars: Vars, f: File, ps: Parameters)
    modifies vars
    ensures ServicesVars(vars.m, f, ps)
  {
    vars.m := vars.m[VPackage := f.package];
    if f.package != "" {
      vars.m := vars.m[VPackage := vars.m[VPackage] + "."];
    }
    if ps.servicesNamespace != "" {
      vars.m := vars.m[VServicesNamespace := ps.servicesNamespace];
    }
  }

  method PrintServicesStart(p: Printer, f: File, ps: Parameters, vars: Vars)
    requires p.indent == 0 && ServicesVars(vars.m, f, ps)
    modifies p
    ensures p.out == ServicesStart(old(p.out), ps) && p.indent == 0
  {
    hide Put;
    if ps.servicesNamespace != "" {
      p.Print(vars, NsOpen(V(VServicesNamespace)), map[VServicesNamespace := ps.servicesNamespace]);
    }
  }

  method PrintServicesEnd(p: Printer, f: File, ps: Parameters, vars: Vars)
    requires p.indent == 0 && ServicesVars(vars.m, f, ps)
    modifies p
    ensures p.out == ServicesEnd(old(p.out), ps) && p.indent == 0
  {
    hide Put;
    if ps.servicesNamespace != "" {
      p.Print(vars, NsClose(V(VServicesNamespace)), map[VServicesNamespace := ps.servicesNamespace]);
    }
  }

  method GetHeaderServices(f: File, ps: Parameters, output: seq<Item>) returns (r: seq<Item>)
    ensures r == HeaderServices(output, f, ps)
  {
    hide Put, PutText, HeaderServiceOutput, ServicesStart, ServicesEnd, ServicesVars, OnlyService, PackagePrefix;
    var p := new Printer(output);
    var vars := new Vars();
    SetServicesVars(vars, f, ps);
    PrintServicesStart(p, f, ps, vars);
    for i := 0 to |f.services|
      invariant p.out == HeaderServicesUpTo(ServicesStart(output, ps), f, ps, i) && p.indent == 0
      invariant ServicesVars(vars.m, f, ps)
    {
      ghost var before := vars.m;
      PackageIsSet(vars.m, f, ps);
      PrintHeaderService(p, f.services[i], ps, vars, PackagePrefix(f));
      ServicesVarsKept(before, vars.m, f, ps);
      p.PrintText(Blank);
    }
    PrintServicesEnd(p, f, ps, vars);
    return p.out;
  }

  lemma PackageIsSet(m: Env, f: File, ps: Parameters)
    requires ServicesVars(m, f, ps)
    ensures Agrees(m, map[VPackage := PackagePrefix(f)])
  {
  }

  function NamespacesEnd(o: seq<Item>, f: File): seq<Item> {
    if f.package == "" then o else PutText(ClosedBack(o, PackageParts(f), |PackageParts(f)|), 0, Blank)
  }

  function IdentifierEnv(f: File): Env { map[VFilenameIdentifier := Identifier(f.filename)] }

  function HeaderEpilogue(o: seq<Item>, f: File): seq<Item> {
    var o1 := PutText(PutText(NamespacesEnd(o, f), 0, Blank), 0, PortsUndef);
    PutComments(Put(o1, 0, Guard(Endif, HeaderGuardId()), IdentifierEnv(f)), 0, f.trailing)
  }

  lemma EndifBound(f: File)
    ensures Bound(Guard(Endif, HeaderGuardId()), IdentifierEnv(f)) &&
            Bound(Guard(Endif, MockGuardId()), IdentifierEnv(f))
  {
    hide Identifier;
  }

  method SetIdentifier(vars: Vars, f: File)
    modifies vars
    ensures VFilenameIdentifier in vars.m && vars.m[VFilenameIdentifier] == Identifier(f.filename)
  {
    hide Identifier;
    vars.m := vars.m[VFilename := f.filename];
    var identifier := FilenameIdentifier(f.filename);
    vars.m := vars.m[VFilenameIdentifier := identifier];
  }

  method PrintNamespacesEnd(p: Printer, f: File, vars: Vars)
    requires p.indent == 0
    modifies p, vars
    ensures p.out == NamespacesEnd(old(p.out), f) && p.indent == 0
    ensures forall v :: v != VPart && v in old(vars.m) ==> v in vars.m && vars.m[v] == old(vars.m[v])
  {
    hide PutText, ClosedBack, Pieces;
    if f.package != "" {
      var parts := Tokenize(f.package, ".");
      PrintClosedBack(p, parts, vars);
      p.PrintText(Blank);
    }
  }

  method GetHeaderEpilogue(f: File, ps: Parameters, output: seq<Item>) returns (r: seq<Item>)
    ensures r == HeaderEpilogue(output, f)
  {
    hide Put, PutText, PutComments, NamespacesEnd, Bound, HeaderGuardId, Identifier;
    var p := new Printer(output);
    var vars := new Vars();
    SetIdentifier(vars, f);
    EndifBound(f);
    PrintNamespacesEnd(p, f, vars);
    p.PrintText(Blank);
    p.PrintText(PortsUndef);
    p.Print(vars, Guard(Endif, HeaderGuardId()), IdentifierEnv(f));
    p.PrintComments(f.trailing);
    return p.out;
  }

  // ---- Source ----

  function SourcePrologue(o: seq<Item>, f: File, ps: Parameters): seq<Item> {
    var env := NamesEnv(f, ps);
    PutText(Put(Put(Banner(o, f, ps), 0, MessageIncludeForm(), env), 0, ServiceIncludeForm(), env), 0, Blank)
  }

  method GetSourcePrologue(f: File, ps: Parameters, output: seq<Item>) returns (r: seq<Item>)
    ensures r == SourcePrologue(output, f, ps)
  {
    hide Put, PutText, Banner, Agrees, Bound, NamesEnv, MessageIncludeForm, ServiceIncludeForm;
    var p := new Printer(output);
    var vars := new Vars();
    SetNames(vars, f, ps);
    PrologueBound(f, ps);
    PrintBanner(p, f, ps, vars);
    p.Print(vars, MessageIncludeForm(), NamesEnv(f, ps));
    p.Print(vars, ServiceIncludeForm(), NamesEnv(f, ps));
    p.PrintText(Blank);
    return p.out;
  }

  function SourceIncludes(o: seq<Item>, f: File, ps: Parameters): seq<Item> {
    PutText(NamespacesStart(AllIncludes(o, SourceList(), ps.useSystemHeaders, ps.grpcSearchPath), f), 0, Blank)
  }

  method PrintNamespacesStart(p: Printer, f: File, vars: Vars)
    requires p.indent == 0
    modifies p, vars
    ensures p.out == NamespacesStart(old(p.out), f) && p.indent == 0
  {
    hide Opened, Pieces;
    if f.package != "" {
      var parts := Tokenize(f.package, ".");
      PrintOpened(p, parts, vars);
    }
  }

  method GetSourceIncludes(f: File, ps: Parameters, output: seq<Item>) returns (r: seq<Item>)
    ensures r == SourceIncludes(output, f, ps)
  {
    hide Put, PutText, AllIncludes, NamespacesStart, SourceList;
    var p := new Printer(output);
    var vars := new Vars();
    PrintSourceList(p, ps);
    PrintNamespacesStart(p, f, vars);
    p.PrintText(Blank);
    return p.out;
  }

  function SourceServicesUpTo(o: seq<Item>, f: File, ps: Parameters, n: nat): seq<Item>
    requires n <= |f.services|
  {
    if n == 0 then o
    else
      PutText(SourceServiceOutput(SourceServicesUpTo(o, f, ps, n - 1), 0,
                                  SourceEnv(f.services[n - 1], PackagePrefix(f), ps.servicesNamespace),
                                  f.services[n - 1].methods, ps), 0, Blank)
  }

  function SourceServices(o: seq<Item>, f: File, ps: Parameters): seq<Item> {
    SourceServicesUpTo(o, f, ps, |f.services|)
  }

  method SetSourceVars(vars: Vars, f: File, ps: Parameters)
    modifies vars
    ensures Agrees(vars.m, FileEnv(PackagePrefix(f), ps.servicesNamespace))
  {
    vars.m := vars.m[VPackage := f.package];
    if f.package != "" {
      vars.m := vars.m[VPackage := vars.m[VPackage] + "."];
    }
    if ps.servicesNamespace != "" {
      vars.m := vars.m[VNs := ps.servicesNamespace + "::"];
      vars.m := vars.m[VPrefix := ps.servicesNamespace];
    } else {
      vars.m := vars.m[VNs := ""];
      vars.m := vars.m[VPrefix := ""];
    }
  }

  lemma SourceVarsKept(m: Env, m': Env, pkg: string, sn: string)
    requires Agrees(m, FileEnv(pkg, sn)) && OnlyService(m, m')
    ensures Agrees(m', FileEnv(pkg, sn))
  {
  }

  method GetSourceServices(f: File, ps: Parameters, output: seq<Item>) returns (r: seq<Item>)
    ensures r == SourceServices(output, f, ps)
  {
    hide Put, PutText, SourceServiceOutput, Agrees, OnlyService, PackagePrefix, FileEnv, SourceEnv;
    var p := new Printer(output);
    var vars := new Vars();
    SetSourceVars(vars, f, ps);
    for i := 0 to |f.services|
      invariant p.out == SourceServicesUpTo(output, f, ps, i) && p.indent == 0
      invariant Agrees(vars.m, FileEnv(PackagePrefix(f), ps.servicesNamespace))
    {
      ghost var before := vars.m;
      PrintSourceService(p, f.services[i], ps, vars, PackagePrefix(f), ps.servicesNamespace);
      SourceVarsKept(before, vars.m, PackagePrefix(f), ps.servicesNamespace);
      p.PrintText(Blank);
    }
    return p.out;
  }

  // Closing in the order of the names, as the source's epilogue spells them.
  function ClosedForward(o: seq<Item>, parts: seq<string>, n: nat): seq<Item>
    requires n <= |parts|
  {
    if n == 0 then o else Put(ClosedForward(o, parts, n - 1), 0, NsClose(S(parts[n - 1])), map[])
  }

  // A plain string, put together without a printer. Only a file with a package
  // gets it, ports_undef.inc included.
  function SourceEpilogue(o: seq<Item>, f: File): seq<Item> {
    if f.package == "" then o
    else PutText(PutText(ClosedForward(o, PackageParts(f), |PackageParts(f)|), 0, PortsUndef), 0, Blank)
  }

  method GetSourceEpilogue(f: File, ps: Parameters, output: seq<Item>) returns (temp: seq<Item>)
    ensures temp == SourceEpilogue(output, f)
  {
    hide PutText, Pieces;
    temp := output;
    if f.package != "" {
      var parts := Tokenize(f.package, ".");
      for i := 0 to |parts|
        invariant temp == ClosedForward(output, parts, i)
      {
        temp := temp + [Line(0, NsClose(S(parts[i])))];
      }
      temp := PutText(temp, 0, PortsUndef);
      temp := PutText(temp, 0, Blank);
    }
  }

  // ---- Mock ----

  function MockPrologue(o: seq<Item>, f: File, ps: Parameters): seq<Item> {
    var env := NamesEnv(f, ps);
    var o1 := GuardStart(Banner(o, f, ps), MockGuardId(), env);
    var o2 := Put(Put(o1, 0, MessageIncludeForm(), env), 0, ServiceIncludeForm(), env);
    PutText(ImportHeaders(o2, f, ps, env), 0, Blank)
  }

  method GetMockPrologue(f: File, ps: Parameters, output: seq<Item>) returns (ok: bool, r: seq<Item>)
    ensures ok <==> ImportsExpand(f, ps, NamesEnv(f, ps))
    ensures ok ==> r == MockPrologue(output, f, ps)
  {
    hide Put, PutText, Banner, GuardStart, ImportHeaders, ImportsExpand, OnlyNames, Agrees, Bound, NamesEnv,
      MockGuardId, MessageIncludeForm, ServiceIncludeForm;
    var p := new Printer(output);
    var vars := new Vars();
    SetNames(vars, f, ps);
    PrologueBound(f, ps);
    PrintBanner(p, f, ps, vars);
    PrintGuardStart(p, MockGuardId(), vars, NamesEnv(f, ps));
    p.Print(vars, MessageIncludeForm(), NamesEnv(f, ps));
    p.Print(vars, ServiceIncludeForm(), NamesEnv(f, ps));
    ok := PrintImportHeaders(p, f, ps, vars);
    p.PrintText(Blank);
    return ok, p.out;
  }

  function MockIncludes(o: seq<Item>, f: File, ps: Parameters): seq<Item> {
    var o1 := AllIncludes(o, MockList(), ps.useSystemHeaders, ps.grpcSearchPath);
    var o2 := if ps.gmockSearchPath == ""
      then AllIncludes(o1, ["gmock/gmock.h"], ps.useSystemHeaders, ps.grpcSearchPath)
              else AllIncludes(o1, ["gmock.h"], false, ps.gmockSearchPath);
    PutText(NamespacesStart(o2, f), 0, Blank)
  }

  method GetMockIncludes(f: File, ps: Parameters, output: seq<Item>) returns (r: seq<Item>)
    ensures r == MockIncludes(output, f, ps)
  {
    hide Put, PutText, AllIncludes, NamespacesStart;
    var p := new Printer(output);
    var vars := new Vars();
    PrintIncludes(p, ["grpcpp/support/async_stream.h", "grpcpp/support/sync_stream.h"], ps.useSystemHeaders,
      ps.grpcSearchPath);
    if ps.gmockSearchPath == "" {
      PrintIncludes(p, ["gmock/gmock.h"], ps.useSystemHeaders, ps.grpcSearchPath);
    } else {
      PrintIncludes(p, ["gmock.h"], false, ps.gmockSearchPath);
    }
    PrintNamespacesStart(p, f, vars);
    p.PrintText(Blank);
    return p.out;
  }

  function MockServicesUpTo(o: seq<Item>, f: File, ps: Parameters, n: nat): seq<Item>
    requires n <= |f.services|
  {
    if n == 0 then o
    else PutText(MockServiceOutput(MockServicesUpTo(o, f, ps, n - 1), 0, f.services[n - 1], ps), 0, Blank)
  }

  function MockServices(o: seq<Item>, f: File, ps: Parameters): seq<Item> {
    ServicesEnd(MockServicesUpTo(ServicesStart(o, ps), f, ps, |f.services|), ps)
  }

  method GetMockServices(f: File, ps: Parameters, output: seq<Item>) returns (r: seq<Item>)
    ensures r == MockServices(output, f, ps)
  {
    hide Put, PutText, MockServiceOutput, ServicesStart, ServicesEnd, ServicesVars, OnlyService;
    var p := new Printer(output);
    var vars := new Vars();
    SetServicesVars(vars, f, ps);
    PrintServicesStart(p, f, ps, vars);
    for i := 0 to |f.services|
      invariant p.out == MockServicesUpTo(ServicesStart(output, ps), f, ps, i) && p.indent == 0
      invariant ServicesVars(vars.m, f, ps)
    {
      ghost var before := vars.m;
      PrintMockService(p, f.services[i], ps, vars);
      ServicesVarsKept(before, vars.m, f, ps);
      p.PrintText(Blank);
    }
    PrintServicesEnd(p, f, ps, vars);
    return p.out;
  }

  function MockEpilogue(o: seq<Item>, f: File): seq<Item> {
    Put(PutText(NamespacesEnd(o, f), 0, Blank), 0, Guard(Endif, MockGuardId()), IdentifierEnv(f))
  }

  method GetMockEpilogue(f: File, ps: Parameters, output: seq<Item>) returns (r: seq<Item>)
    ensures r == MockEpilogue(output, f)
  {
    hide Put, PutText, NamespacesEnd, Bound, MockGuardId, Identifier;
    var p := new Printer(output);
    var vars := new Vars();
    SetIdentifier(vars, f);
    EndifBound(f);
    PrintNamespacesEnd(p, f, vars);
    p.PrintText(Blank);
    p.Print(vars, Guard(Endif, MockGuardId()), IdentifierEnv(f));
    return p.out;
  }

  // ---- The three files ----

  function HeaderFile(f: File, ps: Parameters): seq<Item> {
    HeaderEpilogue(HeaderServices(HeaderIncludes(HeaderPrologue([], f, ps), f, ps), f, ps), f)
  }

  function SourceOfFile(f: File, ps: Parameters): seq<Item> {
    SourceEpilogue(SourceServices(SourceIncludes(SourcePrologue([], f, ps), f, ps), f, ps), f)
  }

  function MockFile(f: File, ps: Parameters): seq<Item> {
    MockEpilogue(MockServices(MockIncludes(MockPrologue([], f, ps), f, ps), f, ps), f)
  }
}
