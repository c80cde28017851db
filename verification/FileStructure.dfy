// The three generated files as wholes: braces, namespaces and include guards
// match from the first line to the last, and what ports_def.inc defines is
// undefined again, exactly when it is.
module FileStructure {
  import opened Schema
  import opened Emit
  import opened Structure
  import opened Tokens
  import opened Guards
  import opened Replace
  import VariableText
  import opened HeaderService
  import opened SourceTemplates
  import opened SourceService
  import opened MockService
  import opened HeaderFacts
  import opened SourceFacts
  import opened MockFacts
  import opened Signatures
  import opened Queries
  import opened PortsIncludes
  import opened ImportLines
  import opened HeaderClasses
  import opened Outputs

  // ---- Includes and the ports macros ----

  lemma IncludeRead(o: seq<Item>, l: string, h: string, r: string)
    requires Ready(After(o))
    ensures After(Put(o, 0, IncludeForm(), IncludeEnv(l, h, r))) == After(o).(ports := PortsStep(After(o).ports, h))
  {
    hide After, Put, PortsStep;
    AfterPut(o, 0, IncludeForm(), IncludeEnv(l, h, r));
  }

  lemma {:induction false} IncludesRead(o: seq<Item>, headers: seq<string>, useSystem: bool, path: string, n: nat)
    requires Ready(After(o)) && n <= |headers|
    ensures After(Includes(o, headers, useSystem, path, n)) ==
            After(o).(ports := PortsOver(After(o).ports, headers[..n]))
  {
    hide After, Put, PortsStep, LeftOf, RightOf, IncludeEnv;
    if n > 0 {
      IncludesRead(o, headers, useSystem, path, n - 1);
      IncludeRead(Includes(o, headers, useSystem, path, n - 1), LeftOf(useSystem, path), headers[n - 1],
        RightOf(useSystem));
      assert headers[..n][..n - 1] == headers[..n - 1];
    }
  }

  lemma AllIncludesRead(o: seq<Item>, headers: seq<string>, useSystem: bool, path: string)
    requires Ready(After(o))
    ensures After(AllIncludes(o, headers, useSystem, path)) == After(o).(ports := PortsOver(After(o).ports, headers))
  {
    hide After, Includes, PortsOver;
    IncludesRead(o, headers, useSystem, path, |headers|);
    assert headers[..|headers|] == headers;
  }

  lemma GenericHeadersPortless()
    ensures Portless(GenericHeaders())
  {
  }

  lemma ClientHeadersPortless()
    ensures Portless(ClientHeaders())
  {
  }

  lemma MethodHeadersPortless()
    ensures Portless(MethodHeaders())
  {
  }

  lemma ServerHeadersPortless()
    ensures Portless(ServerHeaders())
  {
  }

  lemma SupportHeadersPortless()
    ensures Portless(SupportHeaders())
  {
  }

  lemma LastHeadersPortless()
    ensures Portless(LastHeaders())
  {
  }

  lemma CallHeadersPortless()
    ensures Portless(CallHeaders())
  {
  }

  lemma HandlerHeadersPortless()
    ensures Portless(HandlerHeaders())
  {
  }

  lemma StreamHeadersPortless()
    ensures Portless(StreamHeaders())
  {
  }

  lemma MockListPortless()
    ensures Portless(MockList())
  {
  }

  lemma DefLast(p: Ports, a: seq<string>, b: seq<string>, c: seq<string>, d: seq<string>, e: seq<string>)
    requires Portless(a) && Portless(b) && Portless(c) && Portless(d) && Portless(e)
    ensures PortsOver(p, a + b + c + d + e + [PORTS_DEF]) == Redefine(p)
  {
    hide Portless;
    PortsConcat(p, a + b + c + d + e, [PORTS_DEF]);
    PortsConcat(p, a + b + c + d, e);
    PortsConcat(p, a + b + c, d);
    PortsConcat(p, a + b, c);
    PortsConcat(p, a, b);
    PortlessIncludes(p, a);
    PortlessIncludes(p, b);
    PortlessIncludes(p, c);
    PortlessIncludes(p, d);
    PortlessIncludes(p, e);
    OneInclude(p, PORTS_DEF);
  }

  // ports_def.inc comes last in the lists of the header and of the source.
  lemma StandardListPorts(p: Ports)
    ensures PortsOver(p, HeaderList()) == Redefine(p) && PortsOver(p, SourceList()) == Redefine(p)
    ensures PortsOver(p, MockList()) == p
  {
    hide PortsOver, Portless, GenericHeaders, ClientHeaders, MethodHeaders, ServerHeaders, SupportHeaders,
      StreamHeaders, CallHeaders, HandlerHeaders, LastHeaders, MockList;
    GenericHeadersPortless();
    ClientHeadersPortless();
    MethodHeadersPortless();
    ServerHeadersPortless();
    SupportHeadersPortless();
    LastHeadersPortless();
    CallHeadersPortless();
    HandlerHeadersPortless();
    StreamHeadersPortless();
    MockListPortless();
    DefLast(p, GenericHeaders(), ClientHeaders(), MethodHeaders(), ServerHeaders(), SupportHeaders());
    DefLast(p, StreamHeaders(), CallHeaders(), HandlerHeaders(), ServerHeaders(), LastHeaders());
    PortlessIncludes(p, MockList());
  }

  // ---- Namespaces ----

  function Entered(s: State, parts: seq<string>): State
    requires s.Scanning?
  {
    if parts == [] then s else Enter(Entered(s, parts[..|parts| - 1]), Namespace(S(parts[|parts| - 1])))
  }

  // namespace parts[0] { namespace parts[1] { ... fs ... } }
  function Wrapped(parts: seq<string>, fs: seq<Fact>): seq<Fact> {
    if parts == [] then fs else Wrapped(parts[..|parts| - 1], [NamespaceBody(S(parts[|parts| - 1]), fs)])
  }

  function Relabeled(s: State, fits: bool): State
    requires s.Scanning?
  {
    s.(labelsMatch := s.labelsMatch && fits)
  }

  lemma OpenRead(o: seq<Item>, part: string)
    requires Ready(After(o))
    ensures After(Put(o, 0, NsOpen(V(VPart)), PartEnv(part))) == Enter(After(o), Namespace(S(part)))
  {
    hide After, Put;
    AfterPut(o, 0, NsOpen(V(VPart)), PartEnv(part));
  }

  lemma {:induction false} EnteredIsReady(s: State, parts: seq<string>)
    requires Ready(s)
    ensures Ready(Entered(s, parts)) && Entered(s, parts).ports == s.ports &&
            Entered(s, parts).labelsMatch == s.labelsMatch
  {
    if parts != [] {
      EnteredIsReady(s, parts[..|parts| - 1]);
    }
  }

  lemma {:induction false} OpenedRead(o: seq<Item>, parts: seq<string>, n: nat)
    requires Ready(After(o)) && n <= |parts|
    ensures After(Opened(o, parts, n)) == Entered(After(o), parts[..n])
  {
    hide After, Put;
    if n > 0 {
      OpenedRead(o, parts, n - 1);
      EnteredIsReady(After(o), parts[..n - 1]);
      OpenRead(Opened(o, parts, n - 1), parts[n - 1]);
      assert parts[..n][..n - 1] == parts[..n - 1];
    }
  }

  // One closing line, with its label.
  lemma CloseRead(o: seq<Item>, s: State, outer: seq<string>, part: string, fs: seq<Fact>, f: Form, env: Env,
      spelled: string)
    requires Ready(s) && After(o) == Plus(Entered(s, outer + [part]), fs)
    requires f.NsClose? && Render(f, env) == NsClose(S(spelled))
    ensures After(Put(o, 0, f, env)) ==
            Relabeled(Plus(Entered(s, outer), [NamespaceBody(S(part), fs)]), part == spelled)
  {
    hide After, Put, Render;
    AfterPut(o, 0, f, env);
    EnteredIsReady(s, outer);
    assert (outer + [part])[..|outer|] == outer;
    assert [] + fs == fs;
  }

  lemma {:induction false} ClosedBackRead(o: seq<Item>, s: State, parts: seq<string>, n: nat, fs: seq<Fact>)
    requires Ready(s) && n <= |parts| && After(o) == Plus(Entered(s, parts[..n]), fs)
    ensures After(ClosedBack(o, parts, n)) == Plus(s, Wrapped(parts[..n], fs))
    decreases n
  {
    hide After, Put;
    if n > 0 {
      assert parts[..n] == parts[..n - 1] + [parts[n - 1]];
      assert parts[..n][..n - 1] == parts[..n - 1];
      CloseRead(o, s, parts[..n - 1], parts[n - 1], fs, NsClose(V(VPart)), PartEnv(parts[n - 1]), parts[n - 1]);
      EnteredIsReady(s, parts[..n - 1]);
      ClosedBackRead(Put(o, 0, NsClose(V(VPart)), PartEnv(parts[n - 1])), s, parts, n - 1,
                     [NamespaceBody(S(parts[n - 1]), fs)]);
    }
  }

  // The first n names, read forward, are the last n, read backward.
  predicate MirroredUpTo(parts: seq<string>, n: nat)
    requires n <= |parts|
  {
    forall j :: 0 <= j < n ==> parts[j] == parts[|parts| - 1 - j]
  }

  function WrappedFrom(parts: seq<string>, n: nat, fs: seq<Fact>): seq<Fact>
    requires n <= |parts|
  {
    if n == 0 then fs else [NamespaceBody(S(parts[|parts| - n]), WrappedFrom(parts, n - 1, fs))]
  }

  // Closing in the order of opening puts each label on the brace of the name
  // at the same distance from the other end.
  lemma {:induction false} ClosedForwardRead(o: seq<Item>, s: State, parts: seq<string>, n: nat, fs: seq<Fact>)
    requires Ready(s) && n <= |parts| && After(o) == Plus(Entered(s, parts), fs)
    ensures After(ClosedForward(o, parts, n)) ==
            Relabeled(Plus(Entered(s, parts[..|parts| - n]), WrappedFrom(parts, n, fs)), MirroredUpTo(parts, n))
  {
    hide After, Put;
    var m := |parts|;
    if n == 0 {
      assert parts[..m] == parts;
    } else {
      ClosedForwardRead(o, s, parts, n - 1, fs);
      ForwardStep(ClosedForward(o, parts, n - 1), s, parts, n, WrappedFrom(parts, n - 1, fs));
    }
  }

  lemma MirroredStep(parts: seq<string>, n: nat)
    requires 0 < n <= |parts|
    ensures MirroredUpTo(parts, n) <==> MirroredUpTo(parts, n - 1) && parts[|parts| - n] == parts[n - 1]
  {
  }

  lemma ForwardStep(o: seq<Item>, s: State, parts: seq<string>, n: nat, fs: seq<Fact>)
    requires Ready(s) && 0 < n <= |parts|
    requires After(o) == Relabeled(Plus(Entered(s, parts[..|parts| - (n - 1)]), fs), MirroredUpTo(parts, n - 1))
    ensures After(Put(o, 0, NsClose(S(parts[n - 1])), map[])) ==
            Relabeled(Plus(Entered(s, parts[..|parts| - n]), [NamespaceBody(S(parts[|parts| - n]), fs)]),
              MirroredUpTo(parts, n))
  {
    hide After, Put, Entered, MirroredUpTo;
    var m := |parts|;
    var fits := MirroredUpTo(parts, n - 1);
    MirroredStep(parts, n);
    EnteredIsReady(s, parts[..m - (n - 1)]);
    EnteredIsReady(s, parts[..m - n]);
    RelabelEntered(s, parts[..m - (n - 1)], fits);
    RelabelEntered(s, parts[..m - n], fits);
    assert parts[..m - (n - 1)] == parts[..m - n] + [parts[m - n]];
    EnteredIsReady(Relabeled(s, fits), parts[..m - n]);
    CloseRead(o, Relabeled(s, fits), parts[..m - n], parts[m - n], fs, NsClose(S(parts[n - 1])), map[], parts[n - 1]);
  }

  lemma {:induction false} RelabelEntered(s: State, parts: seq<string>, b: bool)
    requires Ready(s)
    ensures Relabeled(Entered(s, parts), b) == Entered(Relabeled(s, b), parts)
  {
    EnteredIsReady(s, parts);
    EnteredIsReady(Relabeled(s, b), parts);
    if parts != [] {
      RelabelEntered(s, parts[..|parts| - 1], b);
    }
  }

  // ---- Parts of a file ----

  lemma NeutralRead(o: seq<Item>, text: Text, args: seq<Ref>, env: Env)
    requires Ready(After(o)) && Neutral(text)
    ensures After(Put(o, 0, Stmt(text, args), env)) == After(o)
  {
    hide After, Put, RRefs;
    AfterPut(o, 0, Stmt(text, args), env);
  }

  lemma BannerRead(o: seq<Item>, f: File, ps: Parameters)
    requires Ready(After(o))
    ensures After(Banner(o, f, ps)) == After(o)
  {
    hide After, Put, PutText, NamesEnv;
    TextRead(o, 0, GeneratedBy);
    TextRead(PutText(o, 0, GeneratedBy), 0, LocalChanges);
    NeutralRead(PutText(PutText(o, 0, GeneratedBy), 0, LocalChanges), SourceFile, [V(VFilename)], NamesEnv(f, ps));
  }

  lemma GuardStartRead(o: seq<Item>, id: seq<Ref>, env: Env)
    requires Ready(After(o))
    ensures After(GuardStart(o, id, env)) == Enter(After(o), Guarded(RRefs(id, env)))
  {
    hide After, Put, PutText, RRefs;
    AfterPut(o, 0, Guard(Ifndef, id), env);
    var o1 := Put(o, 0, Guard(Ifndef, id), env);
    AfterPut(o1, 0, Guard(Define, id), env);
    TextRead(Put(o1, 0, Guard(Define, id), env), 0, Blank);
  }

  function GuardRefs(start: string, f: File): seq<Ref> { [S(start), S(Identifier(f.filename)), S("__INCLUDED")] }

  lemma GuardIds(f: File, ps: Parameters)
    ensures RRefs(HeaderGuardId(), NamesEnv(f, ps)) == GuardRefs("GRPC_", f) == RRefs(HeaderGuardId(), IdentifierEnv(f))
    ensures RRefs(MockGuardId(), NamesEnv(f, ps)) == GuardRefs("GRPC_MOCK_", f) ==
            RRefs(MockGuardId(), IdentifierEnv(f))
  {
    RenderedRefs();
    hide RRefs, Identifier, Stripped, MessageHeaderExt, ServiceHeaderExt;
  }

  lemma OriginalCommentsRead(o: seq<Item>, f: File)
    requires Ready(After(o))
    ensures After(OriginalHeaderComments(o, f)) == After(o)
  {
    hide After, PutText;
    TextRead(o, 0, OriginalComments);
    AfterRaw(PutText(o, 0, OriginalComments), CommentTemplateOf(f));
  }

  function CommentTemplateOf(f: File): string { VariableText.CommentTemplate(f.leading, "//") }

  // The include of the messages' header.
  function IncludedMessages(f: File, ps: Parameters): Fact {
    MessageIncluded([S(Stripped(f.filename)), S(MessageHeaderExt(ps))])
  }

  lemma MessageIncludeRead(o: seq<Item>, f: File, ps: Parameters)
    requires Ready(After(o))
    ensures After(Put(o, 0, MessageIncludeForm(), NamesEnv(f, ps))) == Plus(After(o), [IncludedMessages(f, ps)])
  {
    RenderedRefs();
    hide After, Put, RRefs, Identifier, Stripped, MessageHeaderExt, ServiceHeaderExt;
    AfterPut(o, 0, MessageIncludeForm(), NamesEnv(f, ps));
  }

  lemma HeaderPrologueRead(o: seq<Item>, f: File, ps: Parameters)
    requires Ready(After(o))
    ensures After(HeaderPrologue(o, f, ps)) ==
            Plus(Enter(After(o), Guarded(GuardRefs("GRPC_", f))), [IncludedMessages(f, ps)])
  {
    hide After, Put, PutText, Banner, OriginalHeaderComments, GuardStart, NamesEnv, GuardRefs, HeaderGuardId,
      MessageIncludeForm, IncludedMessages;
    BannerRead(o, f, ps);
    OriginalCommentsRead(Banner(o, f, ps), f);
    var o1 := OriginalHeaderComments(Banner(o, f, ps), f);
    GuardIds(f, ps);
    GuardStartRead(o1, HeaderGuardId(), NamesEnv(f, ps));
    var o2 := GuardStart(o1, HeaderGuardId(), NamesEnv(f, ps));
    MessageIncludeRead(o2, f, ps);
    TextRead(Put(o2, 0, MessageIncludeForm(), NamesEnv(f, ps)), 0, Blank);
  }

  lemma {:induction false} ImportsRead(o: seq<Item>, names: seq<string>, env: Env, n: nat)
    requires Ready(After(o)) && n <= |names|
    ensures After(Imports(o, names, env, n)) == After(o)
  {
    hide After, Put, ImportExpansion;
    if n > 0 {
      ImportsRead(o, names, env, n - 1);
      NeutralRead(Imports(o, names, env, n - 1), ImportInclude, ImportForm(names[n - 1], env).args, map[]);
    }
  }

  lemma ImportHeadersRead(o: seq<Item>, f: File, ps: Parameters, env: Env)
    requires Ready(After(o))
    ensures After(ImportHeaders(o, f, ps, env)) == After(o)
  {
    hide After, Imports;
    ImportsRead(o, f.importNames, env, |f.importNames|);
    AfterRaw(Imports(o, f.importNames, env, |f.importNames|), "\n");
  }

  function NamespaceParts(f: File): seq<string> { if f.package == "" then [] else PackageParts(f) }

  // Every part is free of dots, and joined with them they are the package.
  lemma PartsSpellPackage(f: File)
    ensures Join(PackageParts(f), ".") == f.package && forall part :: part in PackageParts(f) ==> '.' !in part
  {
    JoinPieces(f.package, '.');
    PiecesAreFree(f.package, ".");
    assert ['.'] == ".";
    hide Pieces, Join;
    forall part | part in PackageParts(f) ensures '.' !in part { assert FreeOf(part, "."); }
  }

  lemma NamespacesStartRead(o: seq<Item>, f: File)
    requires Ready(After(o))
    ensures After(NamespacesStart(o, f)) == Entered(After(o), NamespaceParts(f)) && Ready(After(NamespacesStart(o, f)))
  {
    hide After, Opened, Pieces;
    OpenedRead(o, PackageParts(f), |PackageParts(f)|);
    assert PackageParts(f)[..|PackageParts(f)|] == PackageParts(f);
    EnteredIsReady(After(o), NamespaceParts(f));
  }

  // What the includes of a header leave the ports macros in.
  function HeaderPorts(p: Ports, ps: Parameters): Ports { Redefine(PortsOver(p, ps.additionalHeaderIncludes)) }

  lemma AdditionalRead(o: seq<Item>, ps: Parameters)
    requires Ready(After(o))
    ensures After(if ps.additionalHeaderIncludes != [] then AllIncludes(o, ps.additionalHeaderIncludes, false, "")
            else o) ==
            After(o).(ports := PortsOver(After(o).ports, ps.additionalHeaderIncludes))
  {
    hide After, AllIncludes;
    AllIncludesRead(o, ps.additionalHeaderIncludes, false, "");
  }

  lemma HeaderIncludesRead(o: seq<Item>, f: File, ps: Parameters)
    requires Ready(After(o))
    ensures After(HeaderIncludes(o, f, ps)) ==
            Entered(After(o).(ports := HeaderPorts(After(o).ports, ps)), NamespaceParts(f))
    ensures Ready(After(HeaderIncludes(o, f, ps)))
  {
    hide After, PutText, AllIncludes, ImportHeaders, Opened, HeaderList, PortsOver, Pieces, NamespacesStart;
    AdditionalRead(o, ps);
    var o1 := if ps.additionalHeaderIncludes != [] then AllIncludes(o, ps.additionalHeaderIncludes, false, "") else o;
    AllIncludesRead(o1, HeaderList(), ps.useSystemHeaders, ps.grpcSearchPath);
    StandardListPorts(After(o1).ports);
    var o2 := AllIncludes(o1, HeaderList(), ps.useSystemHeaders, ps.grpcSearchPath);
    TextRead(o2, 0, Blank);
    ImportHeadersRead(PutText(o2, 0, Blank), f, ps, ExtEnv(ps));
    var o3 := ImportHeaders(PutText(o2, 0, Blank), f, ps, ExtEnv(ps));
    NamespacesStartRead(o3, f);
    TextRead(NamespacesStart(o3, f), 0, Blank);
  }

  // ---- Services ----

  // Inside the services namespace, if there is one.
  function Named(ps: Parameters, fs: seq<Fact>): seq<Fact> {
    if ps.servicesNamespace == "" then fs else [NamespaceBody(S(ps.servicesNamespace), fs)]
  }

  function HeaderServicesFacts(f: File, ps: Parameters, n: nat): seq<Fact>
    requires n <= |f.services|
  {
    if n == 0 then []
    else HeaderServicesFacts(f, ps, n - 1) + HeaderServiceFacts(f.services[n - 1], PackagePrefix(f), ps)
  }

  lemma {:induction false} HeaderServicesUpToRead(o: seq<Item>, f: File, ps: Parameters, n: nat)
    requires Ready(After(o)) && n <= |f.services|
    ensures After(HeaderServicesUpTo(o, f, ps, n)) == Plus(After(o), HeaderServicesFacts(f, ps, n))
  {
    hide After, PutText, HeaderServiceOutput, HeaderServiceFacts;
    if n == 0 {
      PlusNothing(After(o));
    } else {
      HeaderServicesUpToRead(o, f, ps, n - 1);
      var o1 := HeaderServicesUpTo(o, f, ps, n - 1);
      HeaderServiceRead(o1, 0, f.services[n - 1], PackagePrefix(f), ps);
      PlusPlus(After(o), HeaderServicesFacts(f, ps, n - 1),
        HeaderServiceFacts(f.services[n - 1], PackagePrefix(f), ps));
      TextRead(HeaderServiceOutput(o1, 0, f.services[n - 1], PackagePrefix(f), ps), 0, Blank);
    }
  }

  lemma ServicesStartRead(o: seq<Item>, ps: Parameters)
    requires Ready(After(o))
    ensures After(ServicesStart(o, ps)) ==
            if ps.servicesNamespace == "" then After(o) else Enter(After(o), Namespace(S(ps.servicesNamespace)))
  {
    hide After, Put;
    AfterPut(o, 0, NsOpen(V(VServicesNamespace)), map[VServicesNamespace := ps.servicesNamespace]);
  }

  lemma ServicesEndRead(o: seq<Item>, ps: Parameters, t: State, fs: seq<Fact>)
    requires Ready(t)
    requires After(o) == Plus(if ps.servicesNamespace == "" then t
             else Enter(t, Namespace(S(ps.servicesNamespace))), fs)
    ensures After(ServicesEnd(o, ps)) == Plus(t, Named(ps, fs))
  {
    hide After, Put;
    AfterPut(o, 0, NsClose(V(VServicesNamespace)), map[VServicesNamespace := ps.servicesNamespace]);
    assert [] + fs == fs;
  }

  lemma HeaderServicesRead(o: seq<Item>, f: File, ps: Parameters)
    requires Ready(After(o))
    ensures After(HeaderServices(o, f, ps)) == Plus(After(o), Named(ps, HeaderServicesFacts(f, ps, |f.services|)))
  {
    hide After, ServicesStart, ServicesEnd, HeaderServicesUpTo, HeaderServicesFacts, Named;
    ServicesStartRead(o, ps);
    HeaderServicesUpToRead(ServicesStart(o, ps), f, ps, |f.services|);
    ServicesEndRead(HeaderServicesUpTo(ServicesStart(o, ps), f, ps, |f.services|), ps, After(o),
                    HeaderServicesFacts(f, ps, |f.services|));
  }

  lemma NamespacesEndRead(o: seq<Item>, f: File, s: State, fs: seq<Fact>)
    requires Ready(s) && After(o) == Plus(Entered(s, NamespaceParts(f)), fs)
    ensures After(NamespacesEnd(o, f)) == Plus(s, Wrapped(NamespaceParts(f), fs))
  {
    hide After, PutText, ClosedBack, Pieces;
    if f.package != "" {
      assert PackageParts(f)[..|PackageParts(f)|] == PackageParts(f);
      ClosedBackRead(o, s, PackageParts(f), |PackageParts(f)|, fs);
      TextRead(ClosedBack(o, PackageParts(f), |PackageParts(f)|), 0, Blank);
    }
  }

  lemma EndifRead(o: seq<Item>, id: seq<Ref>, env: Env, t: State, fs: seq<Fact>)
    requires Ready(t) && After(o) == Plus(Enter(t, Guarded(RRefs(id, env))), fs)
    ensures After(Put(o, 0, Guard(Endif, id), env)) == Plus(t, [GuardedText(RRefs(id, env), fs)])
  {
    hide After, Put, RRefs;
    AfterPut(o, 0, Guard(Endif, id), env);
    assert [] + fs == fs;
  }

  lemma PortsUndefRead(o: seq<Item>)
    requires Ready(After(o))
    ensures After(PutText(o, 0, PortsUndef)) == After(o).(ports := Undefine(After(o).ports))
  {
    hide After, PutText;
    AfterText(o, 0, PortsUndef);
  }

  // ---- The header ----

  function HeaderInner(f: File, ps: Parameters): seq<Fact> {
    [IncludedMessages(f, ps)] + Wrapped(NamespaceParts(f), Named(ps, HeaderServicesFacts(f, ps, |f.services|)))
  }

  // The reader at the end of a well-formed text, every label right.
  function Finished(fs: seq<Fact>, ports: Ports): State { Scanning(Root, fs, Plain, ports, true) }

  lemma HeaderFileRead(f: File, ps: Parameters)
    ensures After(HeaderFile(f, ps)) ==
            Finished([GuardedText(GuardRefs("GRPC_", f), HeaderInner(f, ps))],
              Undefine(HeaderPorts(PortsUndefined, ps)))
  {
    hide After, Put, PutText, PutComments, HeaderPrologue, HeaderIncludes, HeaderServices, NamespacesEnd,
      HeaderServicesFacts, Named, Wrapped, Entered, HeaderPorts, GuardRefs, HeaderGuardId, IdentifierEnv,
      NamespaceParts, NamesEnv, Identifier, IncludedMessages;
    StartIsReady();
    var s := Plus(Enter(Start(), Guarded(GuardRefs("GRPC_", f))), [IncludedMessages(f, ps)]);
    HeaderPrologueRead([], f, ps);
    var o1 := HeaderPrologue([], f, ps);
    HeaderIncludesRead(o1, f, ps);
    var o2 := HeaderIncludes(o1, f, ps);
    var t := s.(ports := HeaderPorts(PortsUndefined, ps));
    HeaderServicesRead(o2, f, ps);
    var fs := Named(ps, HeaderServicesFacts(f, ps, |f.services|));
    NamespacesEndRead(HeaderServices(o2, f, ps), f, t, fs);
    var o3 := NamespacesEnd(HeaderServices(o2, f, ps), f);
    TextRead(o3, 0, Blank);
    PortsUndefRead(PutText(o3, 0, Blank));
    var o4 := PutText(PutText(o3, 0, Blank), 0, PortsUndef);
    GuardIds(f, ps);
    PlusPlus(Enter(Start().(ports := After(o4).ports), Guarded(GuardRefs("GRPC_", f))), [IncludedMessages(f, ps)],
             Wrapped(NamespaceParts(f), fs));
    EndifRead(o4, HeaderGuardId(), IdentifierEnv(f), Start().(ports := After(o4).ports), HeaderInner(f, ps));
    assert [] + [GuardedText(GuardRefs("GRPC_", f), HeaderInner(f, ps))] ==
      [GuardedText(GuardRefs("GRPC_", f), HeaderInner(f, ps))];
    AfterComments(Put(o4, 0, Guard(Endif, HeaderGuardId()), IdentifierEnv(f)), 0, f.trailing);
  }

  // ---- The source ----

  function IncludedService(f: File): Fact { ServiceIncluded([S(Stripped(f.filename)), S(ServiceHeaderExt())]) }

  lemma ServiceIncludeRead(o: seq<Item>, f: File, ps: Parameters)
    requires Ready(After(o))
    ensures After(Put(o, 0, ServiceIncludeForm(), NamesEnv(f, ps))) == Plus(After(o), [IncludedService(f)])
  {
    RenderedRefs();
    hide After, Put, RRefs, Identifier, Stripped, MessageHeaderExt, ServiceHeaderExt;
    AfterPut(o, 0, ServiceIncludeForm(), NamesEnv(f, ps));
  }

  // The two headers a source and a mock start with.
  function OwnHeaders(f: File, ps: Parameters): seq<Fact> { [IncludedMessages(f, ps), IncludedService(f)] }

  lemma OwnHeadersRead(o: seq<Item>, f: File, ps: Parameters)
    requires Ready(After(o))
    ensures After(Put(Put(o, 0, MessageIncludeForm(), NamesEnv(f, ps)), 0, ServiceIncludeForm(), NamesEnv(f, ps))) ==
            Plus(After(o), OwnHeaders(f, ps))
  {
    hide After, Put, NamesEnv, IncludedService, ServiceIncludeForm, IncludedMessages, MessageIncludeForm;
    MessageIncludeRead(o, f, ps);
    ServiceIncludeRead(Put(o, 0, MessageIncludeForm(), NamesEnv(f, ps)), f, ps);
    PlusPlus(After(o), [IncludedMessages(f, ps)], [IncludedService(f)]);
    assert [IncludedMessages(f, ps)] + [IncludedService(f)] == OwnHeaders(f, ps);
  }

  lemma SourcePrologueRead(o: seq<Item>, f: File, ps: Parameters)
    requires Ready(After(o))
    ensures After(SourcePrologue(o, f, ps)) == Plus(After(o), OwnHeaders(f, ps))
  {
    hide After, Put, PutText, Banner, NamesEnv, OwnHeaders, ServiceIncludeForm, MessageIncludeForm;
    BannerRead(o, f, ps);
    var o1 := Banner(o, f, ps);
    OwnHeadersRead(o1, f, ps);
    var o2 := Put(o1, 0, MessageIncludeForm(), NamesEnv(f, ps));
    TextRead(Put(o2, 0, ServiceIncludeForm(), NamesEnv(f, ps)), 0, Blank);
  }

  lemma SourceIncludesRead(o: seq<Item>, f: File, ps: Parameters)
    requires Ready(After(o))
    ensures After(SourceIncludes(o, f, ps)) == Entered(After(o).(ports := Redefine(After(o).ports)), NamespaceParts(f))
    ensures Ready(After(SourceIncludes(o, f, ps)))
  {
    hide After, PutText, AllIncludes, SourceList, NamespacesStart, Entered, NamespaceParts;
    AllIncludesRead(o, SourceList(), ps.useSystemHeaders, ps.grpcSearchPath);
    StandardListPorts(After(o).ports);
    var o1 := AllIncludes(o, SourceList(), ps.useSystemHeaders, ps.grpcSearchPath);
    NamespacesStartRead(o1, f);
    TextRead(NamespacesStart(o1, f), 0, Blank);
  }

  function SourceServicesFacts(f: File, ps: Parameters, n: nat): seq<Fact>
    requires n <= |f.services|
  {
    if n == 0 then []
    else
      SourceServicesFacts(f, ps, n - 1) +
      SourceServiceFacts(SourceEnv(f.services[n - 1], PackagePrefix(f), ps.servicesNamespace),
        f.services[n - 1].methods, ps)
  }

  lemma {:induction false} SourceServicesRead(o: seq<Item>, f: File, ps: Parameters, n: nat)
    requires Ready(After(o)) && n <= |f.services|
    ensures After(SourceServicesUpTo(o, f, ps, n)) == Plus(After(o), SourceServicesFacts(f, ps, n))
  {
    hide After, PutText, SourceServiceOutput, SourceServiceFacts, SourceEnv;
    if n == 0 {
      PlusNothing(After(o));
    } else {
      SourceServicesRead(o, f, ps, n - 1);
      var o1 := SourceServicesUpTo(o, f, ps, n - 1);
      var svc := f.services[n - 1];
      var outer := SourceEnv(svc, PackagePrefix(f), ps.servicesNamespace);
      SourceServiceRead(o1, 0, outer, svc.methods, ps);
      PlusPlus(After(o), SourceServicesFacts(f, ps, n - 1), SourceServiceFacts(outer, svc.methods, ps));
      TextRead(SourceServiceOutput(o1, 0, outer, svc.methods, ps), 0, Blank);
    }
  }

  // What stands in the source's namespaces.
  function SourceInner(f: File, ps: Parameters): seq<Fact> { SourceServicesFacts(f, ps, |f.services|) }

  lemma SourceEpilogueRead(o: seq<Item>, f: File, s: State, fs: seq<Fact>)
    requires Ready(s) && f.package != "" && After(o) == Plus(Entered(s, PackageParts(f)), fs)
    ensures var parts := PackageParts(f);
      After(SourceEpilogue(o, f)) ==
      Relabeled(Plus(s, WrappedFrom(parts, |parts|, fs)), MirroredUpTo(parts, |parts|)).(ports := Undefine(s.ports))
  {
    hide After, PutText, ClosedForward, WrappedFrom, MirroredUpTo, Pieces;
    var parts := PackageParts(f);
    ClosedForwardRead(o, s, parts, |parts|, fs);
    assert parts[..0] == [] && Entered(s, []) == s;
    PortsUndefRead(ClosedForward(o, parts, |parts|));
    TextRead(PutText(ClosedForward(o, parts, |parts|), 0, PortsUndef), 0, Blank);
  }

  lemma SourceBodyRead(f: File, ps: Parameters)
    ensures var s := Finished(OwnHeaders(f, ps), PortsDefined);
      After(SourceServices(SourceIncludes(SourcePrologue([], f, ps), f, ps), f, ps)) ==
      Plus(Entered(s, NamespaceParts(f)), SourceInner(f, ps))
  {
    hide After, SourcePrologue, SourceIncludes, SourceServicesUpTo, SourceServicesFacts, Entered, OwnHeaders,
      NamespaceParts;
    StartIsReady();
    SourcePrologueRead([], f, ps);
    assert [] + OwnHeaders(f, ps) == OwnHeaders(f, ps);
    SourceIncludesRead(SourcePrologue([], f, ps), f, ps);
    SourceServicesRead(SourceIncludes(SourcePrologue([], f, ps), f, ps), f, ps, |f.services|);
  }

  lemma SourceFileRead(f: File, ps: Parameters)
    ensures var s := After(SourceOfFile(f, ps));
      s == if f.package == "" then Finished(OwnHeaders(f, ps) + SourceInner(f, ps), PortsDefined)
           else
             var parts := PackageParts(f);
             Relabeled(Finished(OwnHeaders(f, ps) + WrappedFrom(parts, |parts|, SourceInner(f, ps)), PortsUndefined),
                       MirroredUpTo(parts, |parts|))
  {
    hide After, SourcePrologue, SourceIncludes, SourceServices, ClosedForward, WrappedFrom, MirroredUpTo,
      OwnHeaders, SourceInner, Pieces;
    SourceBodyRead(f, ps);
    if f.package != "" {
      SourceEpilogueRead(SourceServices(SourceIncludes(SourcePrologue([], f, ps), f, ps), f, ps), f,
                         Finished(OwnHeaders(f, ps), PortsDefined), SourceInner(f, ps));
    }
  }

  // ---- The mock ----

  lemma MockPrologueRead(o: seq<Item>, f: File, ps: Parameters)
    requires Ready(After(o))
    ensures After(MockPrologue(o, f, ps)) ==
            Plus(Enter(After(o), Guarded(GuardRefs("GRPC_MOCK_", f))), OwnHeaders(f, ps))
  {
    hide After, Put, PutText, Banner, GuardStart, ImportHeaders, NamesEnv, OwnHeaders, ServiceIncludeForm,
      MessageIncludeForm, GuardRefs, MockGuardId;
    BannerRead(o, f, ps);
    GuardIds(f, ps);
    GuardStartRead(Banner(o, f, ps), MockGuardId(), NamesEnv(f, ps));
    var o1 := GuardStart(Banner(o, f, ps), MockGuardId(), NamesEnv(f, ps));
    OwnHeadersRead(o1, f, ps);
    var o2 := Put(o1, 0, MessageIncludeForm(), NamesEnv(f, ps));
    var o3 := Put(o2, 0, ServiceIncludeForm(), NamesEnv(f, ps));
    ImportHeadersRead(o3, f, ps, NamesEnv(f, ps));
    TextRead(ImportHeaders(o3, f, ps, NamesEnv(f, ps)), 0, Blank);
  }

  lemma GmockPortless()
    ensures Portless(["gmock/gmock.h"]) && Portless(["gmock.h"])
  {
  }

  lemma MockIncludesRead(o: seq<Item>, f: File, ps: Parameters)
    requires Ready(After(o))
    ensures After(MockIncludes(o, f, ps)) == Entered(After(o), NamespaceParts(f)) &&
            Ready(After(MockIncludes(o, f, ps)))
  {
    hide After, PutText, AllIncludes, MockList, NamespacesStart, Entered, NamespaceParts, PortsOver, Portless;
    var p := After(o).ports;
    AllIncludesRead(o, MockList(), ps.useSystemHeaders, ps.grpcSearchPath);
    StandardListPorts(p);
    var o1 := AllIncludes(o, MockList(), ps.useSystemHeaders, ps.grpcSearchPath);
    GmockPortless();
    PortlessIncludes(p, ["gmock/gmock.h"]);
    PortlessIncludes(p, ["gmock.h"]);
    AllIncludesRead(o1, ["gmock/gmock.h"], ps.useSystemHeaders, ps.grpcSearchPath);
    AllIncludesRead(o1, ["gmock.h"], false, ps.gmockSearchPath);
    var o2 := if ps.gmockSearchPath == ""
      then AllIncludes(o1, ["gmock/gmock.h"], ps.useSystemHeaders, ps.grpcSearchPath)
              else AllIncludes(o1, ["gmock.h"], false, ps.gmockSearchPath);
    NamespacesStartRead(o2, f);
    TextRead(NamespacesStart(o2, f), 0, Blank);
  }

  function MockServicesFacts(f: File, ps: Parameters, n: nat): seq<Fact>
    requires n <= |f.services|
  {
    if n == 0 then [] else MockServicesFacts(f, ps, n - 1) + MockServiceFacts(f.services[n - 1], ps)
  }

  lemma {:induction false} MockServicesUpToRead(o: seq<Item>, f: File, ps: Parameters, n: nat)
    requires Ready(After(o)) && n <= |f.services|
    ensures After(MockServicesUpTo(o, f, ps, n)) == Plus(After(o), MockServicesFacts(f, ps, n))
  {
    hide After, PutText, MockServiceOutput, MockServiceFacts;
    if n == 0 {
      PlusNothing(After(o));
    } else {
      MockServicesUpToRead(o, f, ps, n - 1);
      var o1 := MockServicesUpTo(o, f, ps, n - 1);
      MockServiceRead(o1, 0, f.services[n - 1], ps);
      PlusPlus(After(o), MockServicesFacts(f, ps, n - 1), MockServiceFacts(f.services[n - 1], ps));
      TextRead(MockServiceOutput(o1, 0, f.services[n - 1], ps), 0, Blank);
    }
  }

  lemma MockServicesRead(o: seq<Item>, f: File, ps: Parameters)
    requires Ready(After(o))
    ensures After(MockServices(o, f, ps)) == Plus(After(o), Named(ps, MockServicesFacts(f, ps, |f.services|)))
  {
    hide After, ServicesStart, ServicesEnd, MockServicesUpTo, MockServicesFacts, Named;
    ServicesStartRead(o, ps);
    MockServicesUpToRead(ServicesStart(o, ps), f, ps, |f.services|);
    ServicesEndRead(MockServicesUpTo(ServicesStart(o, ps), f, ps, |f.services|), ps, After(o),
      MockServicesFacts(f, ps, |f.services|));
  }

  function MockInner(f: File, ps: Parameters): seq<Fact> {
    OwnHeaders(f, ps) + Wrapped(NamespaceParts(f), Named(ps, MockServicesFacts(f, ps, |f.services|)))
  }

  lemma MockFileRead(f: File, ps: Parameters)
    ensures After(MockFile(f, ps)) ==
            Finished([GuardedText(GuardRefs("GRPC_MOCK_", f), MockInner(f, ps))], PortsUndefined)
  {
    hide After, Put, PutText, MockPrologue, MockIncludes, MockServices, NamespacesEnd, MockServicesFacts, Named,
      Wrapped, Entered, GuardRefs, MockGuardId, IdentifierEnv, NamespaceParts, NamesEnv, Identifier, OwnHeaders;
    StartIsReady();
    var s := Plus(Enter(Start(), Guarded(GuardRefs("GRPC_MOCK_", f))), OwnHeaders(f, ps));
    MockPrologueRead([], f, ps);
    var o1 := MockPrologue([], f, ps);
    MockIncludesRead(o1, f, ps);
    var o2 := MockIncludes(o1, f, ps);
    MockServicesRead(o2, f, ps);
    var fs := Named(ps, MockServicesFacts(f, ps, |f.services|));
    NamespacesEndRead(MockServices(o2, f, ps), f, s, fs);
    var o3 := NamespacesEnd(MockServices(o2, f, ps), f);
    TextRead(o3, 0, Blank);
    GuardIds(f, ps);
    PlusPlus(Enter(Start(), Guarded(GuardRefs("GRPC_MOCK_", f))), OwnHeaders(f, ps), Wrapped(NamespaceParts(f), fs));
    EndifRead(PutText(o3, 0, Blank), MockGuardId(), IdentifierEnv(f), Start(), MockInner(f, ps));
    assert [] + [GuardedText(GuardRefs("GRPC_MOCK_", f), MockInner(f, ps))] ==
      [GuardedText(GuardRefs("GRPC_MOCK_", f), MockInner(f, ps))];
  }

  // ---- The theorems ----

  // The text is well formed: the reader got to its end with no scope open, no
  // brace, class, typedef or guard left over.
  predicate Balanced(o: seq<Item>) { Ready(After(o)) && After(o).context == Root }

  // All of the text stands inside one include guard.
  predicate GuardedBy(o: seq<Item>, start: string, f: File) {
    |Facts(o)| == 1 && Facts(o)[0].GuardedText? && Facts(o)[0].id == GuardRefs(start, f)
  }

  // Braces, classes, namespaces, typedefs and guards match in the whole header
  // and in the whole mock, and every closing comment names what it closes.
  lemma HeaderAndMockAreBalanced(f: File, ps: Parameters)
    ensures Balanced(HeaderFile(f, ps)) && After(HeaderFile(f, ps)).labelsMatch &&
            GuardedBy(HeaderFile(f, ps), "GRPC_", f)
    ensures Balanced(MockFile(f, ps)) && After(MockFile(f, ps)).labelsMatch &&
            GuardedBy(MockFile(f, ps), "GRPC_MOCK_", f)
  {
    hide After, HeaderFile, MockFile, HeaderInner, MockInner, GuardRefs;
    HeaderFileRead(f, ps);
    MockFileRead(f, ps);
  }

  // The source is balanced as well. Its epilogue names the namespaces in the
  // order they were opened, so its closing comments are right exactly when the
  // package reads the same from both ends.
  lemma SourceIsBalanced(f: File, ps: Parameters)
    ensures Balanced(SourceOfFile(f, ps))
    ensures After(SourceOfFile(f, ps)).labelsMatch <==> MirroredUpTo(PackageParts(f), |PackageParts(f)|)
  {
    hide After, SourceOfFile, SourceInner, WrappedFrom, OwnHeaders;
    SourceFileRead(f, ps);
    if f.package == "" {
      assert Pieces("", ".") == [""];
    }
  }

  // For instance package a.b: its two closing comments are swapped.
  lemma TwoPartsAreMislabeled(f: File, ps: Parameters)
    requires f.package == "a.b"
    ensures After(SourceOfFile(f, ps)).Scanning? && !After(SourceOfFile(f, ps)).labelsMatch
  {
    hide After, SourceOfFile;
    SourceIsBalanced(f, ps);
    PiecesJoin(["a", "b"], '.');
    assert Join(["a", "b"], ".") == "a.b" by { assert ["a", "b"][1..] == ["b"]; }
    assert PackageParts(f) == ["a", "b"];
  }

  // A header leaves the macros of ports_def.inc undefined, and never defines
  // them twice, exactly when the additional includes asked for undefine what
  // they define before they define it again; in particular when they do not
  // include ports_def.inc.
  lemma HeaderPortsAreUndefined(f: File, ps: Parameters)
    ensures After(HeaderFile(f, ps)).Scanning?
    ensures After(HeaderFile(f, ps)).ports == PortsUndefined <==> AllUndone(ps.additionalHeaderIncludes)
    ensures (forall h :: h in ps.additionalHeaderIncludes ==> !Defines(h)) ==>
            After(HeaderFile(f, ps)).ports == PortsUndefined
  {
    hide After, HeaderFile, HeaderInner, GuardRefs, AllUndone;
    HeaderFileRead(f, ps);
    PortsOverIff(ps.additionalHeaderIncludes);
    if forall h :: h in ps.additionalHeaderIncludes ==> !Defines(h) {
      NothingToUndo(ps.additionalHeaderIncludes);
    }
  }

  // For instance: a user asks for ports_def.inc, and the macros are defined
  // twice.
  lemma AdditionalPortsDef(f: File, ps: Parameters)
    requires ps.additionalHeaderIncludes == [PORTS_DEF]
    ensures After(HeaderFile(f, ps)).Scanning? && After(HeaderFile(f, ps)).ports == PortsRedefined
  {
    hide After, HeaderFile, HeaderInner, GuardRefs;
    HeaderFileRead(f, ps);
    OneInclude(PortsUndefined, PORTS_DEF);
  }

  // A source undefines them exactly when its package is not empty; a mock
  // never defines them.
  lemma SourcePortsAreUndefined(f: File, ps: Parameters)
    ensures After(SourceOfFile(f, ps)).Scanning? && After(MockFile(f, ps)).Scanning?
    ensures After(SourceOfFile(f, ps)).ports == PortsUndefined <==> f.package != ""
    ensures After(MockFile(f, ps)).ports == PortsUndefined
  {
    hide After, SourceOfFile, MockFile, SourceInner, MockInner, WrappedFrom, MirroredUpTo, OwnHeaders, GuardRefs,
      Pieces;
    SourceFileRead(f, ps);
    MockFileRead(f, ps);
  }

  lemma GuardSpelled(start: string, f: File)
    ensures Spelled(GuardRefs(start, f)) == start + Identifier(f.filename) + "__INCLUDED"
  {
    hide Identifier;
    var refs := GuardRefs(start, f);
    assert refs[..2] == [S(start), S(Identifier(f.filename))] && refs[..2][..1] == [S(start)] && refs[..1][..0] == [];
    assert Spelled(refs[..1]) == start;
    assert Spelled(refs[..2]) == start + Identifier(f.filename);
  }

  // The macro the reader finds around a header, or around a mock, names its
  // .proto file and no other.
  lemma DistinctFilesHaveDistinctGuards(f: File, g: File, ps: Parameters)
    requires Bytes(f.filename) && Bytes(g.filename)
    ensures GuardedBy(HeaderFile(f, ps), "GRPC_", f) && GuardedBy(MockFile(f, ps), "GRPC_MOCK_", f)
    ensures Spelled(GuardRefs("GRPC_", f)) == Spelled(GuardRefs("GRPC_", g)) <==> f.filename == g.filename
    ensures Spelled(GuardRefs("GRPC_MOCK_", f)) == Spelled(GuardRefs("GRPC_MOCK_", g)) <==> f.filename == g.filename
  {
    hide HeaderFile, MockFile, After, Facts, Identifier, Bytes, Spelled, GuardRefs;
    HeaderAndMockAreBalanced(f, ps);
    GuardSpelled("GRPC_", f);
    GuardSpelled("GRPC_", g);
    GuardSpelled("GRPC_MOCK_", f);
    GuardSpelled("GRPC_MOCK_", g);
    GuardsAreInjective(f.filename, g.filename);
  }
}
