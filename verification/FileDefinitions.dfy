// Declarations and definitions over whole files: the header of a .proto file
// declares what its source defines, under the package's namespaces, for any
// number of services.
module FileDefinitions {
  import opened Schema
  import opened Emit
  import opened Structure
  import opened HeaderService
  import opened SourceTemplates
  import opened SourceService
  import opened HeaderFacts
  import opened SourceFacts
  import opened Queries
  import opened ClientPasses
  import opened HeaderDeclarations
  import opened DefinitionAgreement
  import opened TableAgreement
  import opened Outputs
  import opened FileStructure

  // The functions a file defines out of line: the namespaces around a
  // definition, then the qualified name it carries.
  function DefinedUnder(fs: seq<Fact>, path: string): seq<Placed>
    decreases fs
  {
    if fs == [] then [] else DefinedUnder(fs[..|fs| - 1], path) + DefinedBy(fs[|fs| - 1], path)
  }

  function DefinedBy(f: Fact, path: string): seq<Placed>
    decreases f
  {
    match f
    case Definition(qual, sig) => [Placed(path + Spelled(qual), sig)]
    case NamespaceBody(part, members) => DefinedUnder(members, path + RefText(part) + "::")
    case GuardedText(_, members) => DefinedUnder(members, path)
    case _ => []
  }

  lemma UnderSnoc(fs: seq<Fact>, f: Fact, path: string)
    ensures DefinedUnder(fs + [f], path) == DefinedUnder(fs, path) + DefinedBy(f, path)
  {
    hide DefinedBy;
    assert (fs + [f])[..|fs|] == fs;
  }

  lemma {:induction false} UnderConcat(a: seq<Fact>, b: seq<Fact>, path: string)
    ensures DefinedUnder(a + b, path) == DefinedUnder(a, path) + DefinedUnder(b, path)
  {
    if b == [] {
      assert a + b == a;
    } else {
      hide DefinedUnder, DefinedBy;
      var c, f := b[..|b| - 1], b[|b| - 1];
      UnderConcat(a, c, path);
      UnderSnoc(c, f, path);
      UnderSnoc(a + c, f, path);
      LastOff(a, b);
      Regrouped(DefinedUnder(a, path), DefinedUnder(c, path), DefinedBy(f, path));
    }
  }

  lemma UnderOne(f: Fact, path: string)
    ensures DefinedUnder([f], path) == DefinedBy(f, path) && DefinedUnder([], path) == []
  {
    hide DefinedBy;
    assert [f][..0] == [];
  }

  // ---- Moving definitions into a namespace ----

  function Moved(path: string, ps: seq<Placed>): seq<Placed> {
    seq(|ps|, i requires 0 <= i < |ps| => Placed(path + ps[i].path, ps[i].sig))
  }

  lemma MovedConcat(path: string, a: seq<Placed>, b: seq<Placed>)
    ensures Moved(path, a + b) == Moved(path, a) + Moved(path, b)
  {
  }

  lemma MovedPlace(path: string, q: string, ss: seq<Sig>)
    ensures Moved(path, Place(q, ss)) == Place(path + q, ss)
  {
  }

  lemma Found(b: seq<Placed>, x: Placed) returns (k: nat)
    requires x in multiset(b)
    ensures k < |b| && b[k] == x
  {
    k :| k < |b| && b[k] == x;
  }

  lemma TakenOut(b: seq<Placed>, k: nat)
    requires k < |b|
    ensures multiset(b) == multiset([b[k]]) + multiset(b[..k] + b[k + 1..])
  {
    assert b == b[..k] + ([b[k]] + b[k + 1..]);
  }

  lemma Cancelled(x: multiset<Placed>, a: multiset<Placed>, b: multiset<Placed>)
    requires x + a == x + b
    ensures a == b
  {
    assert x + a - x == a && x + b - x == b;
  }

  // Moving keeps permutations permutations.
  lemma {:induction false} MovedPermutes(path: string, a: seq<Placed>, b: seq<Placed>)
    requires multiset(a) == multiset(b)
    ensures multiset(Moved(path, a)) == multiset(Moved(path, b))
    decreases |a|
  {
    if a == [] {
      assert |multiset(b)| == 0;
      assert b == [];
    } else {
      var x := a[0];
      assert a == [x] + a[1..];
      assert x in multiset(a);
      var k := Found(b, x);
      var rest := b[..k] + b[k + 1..];
      TakenOut(b, k);
      assert multiset(a) == multiset([x]) + multiset(a[1..]);
      Cancelled(multiset([x]), multiset(a[1..]), multiset(rest));
      MovedPermutes(path, a[1..], rest);
      MovedStep(path, a, b, k);
    }
  }

  lemma MovedStep(path: string, a: seq<Placed>, b: seq<Placed>, k: nat)
    requires a != [] && k < |b| && b[k] == a[0]
    requires multiset(Moved(path, a[1..])) == multiset(Moved(path, b[..k] + b[k + 1..]))
    ensures multiset(Moved(path, a)) == multiset(Moved(path, b))
  {
    assert a == [a[0]] + a[1..] && b == b[..k] + ([b[k]] + b[k + 1..]);
    MovedConcat(path, [a[0]], a[1..]);
    MovedConcat(path, b[..k], b[k + 1..]);
    MovedConcat(path, b[..k], [b[k]] + b[k + 1..]);
    MovedConcat(path, [b[k]], b[k + 1..]);
    hide Moved;
    assert multiset(Moved(path, a)) == multiset(Moved(path, [a[0]])) + multiset(Moved(path, a[1..]));
    assert multiset(Moved(path, b)) ==
      multiset(Moved(path, b[..k])) + (multiset(Moved(path, [b[k]])) + multiset(Moved(path, b[k + 1..])));
  }

  // Definitions with no namespace of their own.
  predicate NoScopes(fs: seq<Fact>) { forall f :: f in fs ==> !f.NamespaceBody? && !f.GuardedText? }

  lemma {:induction false} DefinedMoved(fs: seq<Fact>, path: string)
    requires NoScopes(fs)
    ensures DefinedUnder(fs, path) == Moved(path, DefinedIn(fs))
  {
    hide Spelled;
    if fs != [] {
      var b, f := fs[..|fs| - 1], fs[|fs| - 1];
      assert f in fs;
      DefinedMoved(b, path);
      MovedConcat(path, DefinedIn(b), if f.Definition? then [Placed(Spelled(f.qual), f.sig)] else []);
    }
  }

  // ---- One service ----

  // What a service needs, as a list.
  function NeedsList(ms: seq<Method>, ps: Parameters, path: string): seq<Placed> {
    Place(path + "Stub::", [StubCtorSig()]) + Place(path + "Stub::", RoundsSigs(StubPublic, Overriding, ms, ps, |ms|)) +
    Place(path + "Stub::async::", RoundsSigs(Callbacks, Overriding, ms, ps, |ms|)) +
    Place(path + "Stub::", RoundsSigs(StubPrivate, Overriding, ms, ps, |ms|)) + Place(path, [NewStubSig()]) +
    (Place(path + "Service::", [ServiceCtorSig()]) + Place(path + "Service::", [ServiceDtorSig()]) +
     Place(path + "Service::", ServiceSigsOf(ms, |ms|)))
  }

  lemma NeedsAreListed(ms: seq<Method>, ps: Parameters, path: string)
    ensures multiset(NeedsList(ms, ps, path)) == Needs(ms, ps, path)
  {
    hide Place, RoundsSigs, ServiceSigsOf, StubCtorSig, NewStubSig, ServiceCtorSig, ServiceDtorSig;
  }

  lemma NeedsMoved(ms: seq<Method>, ps: Parameters, p: string, q: string)
    ensures Moved(p, NeedsList(ms, ps, q)) == NeedsList(ms, ps, p + q)
  {
    hide Moved, Place, RoundsSigs, ServiceSigsOf, StubCtorSig, NewStubSig, ServiceCtorSig, ServiceDtorSig;
    var stub, async, service := q + "Stub::", q + "Stub::async::", q + "Service::";
    assert p + stub == p + q + "Stub::" && p + async == p + q + "Stub::async::" && p + service == p + q + "Service::";
    var a, b, c, d, e := Place(stub, [StubCtorSig()]), Place(stub, RoundsSigs(StubPublic, Overriding, ms, ps, |ms|)),
      Place(async, RoundsSigs(Callbacks, Overriding, ms, ps, |ms|)),
        Place(stub, RoundsSigs(StubPrivate, Overriding, ms, ps, |ms|)),
      Place(q, [NewStubSig()]);
    var x, y, z := Place(service, [ServiceCtorSig()]), Place(service, [ServiceDtorSig()]),
      Place(service, ServiceSigsOf(ms, |ms|));
    MovedConcat(p, a, b);
    MovedConcat(p, a + b, c);
    MovedConcat(p, a + b + c, d);
    MovedConcat(p, a + b + c + d, e);
    MovedConcat(p, x, y);
    MovedConcat(p, x + y, z);
    MovedConcat(p, a + b + c + d + e, x + y + z);
    MovedPlace(p, stub, [StubCtorSig()]);
    MovedPlace(p, stub, RoundsSigs(StubPublic, Overriding, ms, ps, |ms|));
    MovedPlace(p, async, RoundsSigs(Callbacks, Overriding, ms, ps, |ms|));
    MovedPlace(p, stub, RoundsSigs(StubPrivate, Overriding, ms, ps, |ms|));
    MovedPlace(p, q, [NewStubSig()]);
    MovedPlace(p, service, [ServiceCtorSig()]);
    MovedPlace(p, service, [ServiceDtorSig()]);
    MovedPlace(p, service, ServiceSigsOf(ms, |ms|));
  }

  // The source text of a service opens no namespace.
  lemma SourceHasNoScopes(svc: Service, pkg: string, ps: Parameters)
    ensures NoScopes(SourceServiceFacts(SourceEnv(svc, pkg, ps.servicesNamespace), svc.methods, ps))
  {
    hide SourceRoundsFacts, SourceEnv, DeclFacts, RRefs, NoScopes, Defining;
    var outer, ms := SourceEnv(svc, pkg, ps.servicesNamespace), svc.methods;
    EntriesHaveNoScopes(StubInits, outer, ms, ps, |ms|);
    EntriesHaveNoScopes(AddMethods, outer, ms, ps, |ms|);
    PassIsDefining(ClientMethods, outer, ms, ps, |ms|);
    PassIsDefining(ServerMethods, outer, ms, ps, |ms|);
    DefiningHasNoScopes(SourceEveryFacts(ClientMethods, outer, ms, ps));
    DefiningHasNoScopes(SourceEveryFacts(ServerMethods, outer, ms, ps));
    HeadHasNoScopes(NewStubDefinition(), outer);
    HeadHasNoScopes(StubCtorDefinition(), outer);
    HeadHasNoScopes(ServiceCtorDefinition(), outer);
    HeadHasNoScopes(ServiceDtorDefinition(), outer);
    TableHasNoScopes(outer, ms, ps);
    var t, a, b := TableFacts(outer, ms, ps), StubCreationFacts(outer, ms, ps),
      SourceEveryFacts(ClientMethods, outer, ms, ps);
    var c, d := ServiceCreationFacts(outer, ms, ps), SourceEveryFacts(ServerMethods, outer, ms, ps);
    var n, s, v, w := DeclFacts(NewStubDefinition(), outer), DeclFacts(StubCtorDefinition(), outer),
      DeclFacts(ServiceCtorDefinition(), outer), DeclFacts(ServiceDtorDefinition(), outer);
    NoScopesConcat(n, s);
    NoScopesConcat(n + s, SourceEveryFacts(StubInits, outer, ms, ps));
    NoScopesConcat(v, SourceEveryFacts(AddMethods, outer, ms, ps));
    NoScopesConcat(v + SourceEveryFacts(AddMethods, outer, ms, ps), w);
    NoScopesConcat(t, a);
    NoScopesConcat(t + a, b);
    NoScopesConcat(t + a + b, c);
    NoScopesConcat(t + a + b + c, d);
  }

  lemma NoScopesConcat(a: seq<Fact>, b: seq<Fact>)
    requires NoScopes(a) && NoScopes(b)
    ensures NoScopes(a + b)
  {
  }

  lemma TableHasNoScopes(outer: Env, ms: seq<Method>, ps: Parameters)
    ensures NoScopes(TableFacts(outer, ms, ps)) && NoScopes([])
  {
    hide RRefs, SourceRoundsFacts;
  }

  lemma HeadHasNoScopes(decl: Form, env: Env)
    requires decl.Decl?
    ensures NoScopes(DeclFacts(decl, env))
  {
    hide RRefs, RTys, RTy;
  }

  lemma DefiningHasNoScopes(fs: seq<Fact>)
    requires Defining(fs)
    ensures NoScopes(fs)
  {
  }

  lemma EntryHasNoScopes(pass: SourcePass, outer: Env, m: Method, i: nat, ps: Parameters)
    requires pass in {TableEntries, StubInits, AddMethods}
    ensures NoScopes(SourceRoundFacts(pass, outer, m, i, ps))
  {
    hide RRefs, EntryEnv, InitEnv, AddEnv;
  }

  lemma {:induction false} EntriesHaveNoScopes(pass: SourcePass, outer: Env, ms: seq<Method>, ps: Parameters, n: nat)
    requires pass in {TableEntries, StubInits, AddMethods} && n <= |ms|
    ensures NoScopes(SourceRoundsFacts(pass, outer, ms, ps, n))
  {
    hide SourceRoundFacts;
    if n > 0 {
      EntriesHaveNoScopes(pass, outer, ms, ps, n - 1);
      EntryHasNoScopes(pass, outer, ms[n - 1], n - 1, ps);
    }
  }

  // One service, its source standing in some namespace.
  lemma ServiceDefines(svc: Service, pkg: string, ps: Parameters, path: string)
    ensures var outer := SourceEnv(svc, pkg, ps.servicesNamespace);
      multiset(DefinedUnder(SourceServiceFacts(outer, svc.methods, ps), path)) ==
      multiset(DeclaredIn(HeaderServiceFacts(svc, pkg, ps), path + NamespacePath(ps)))
  {
    hide DefinedUnder, DefinedIn, DeclaredIn, SourceServiceFacts, HeaderServiceFacts, NeedsList, Needs, Moved,
      SourceEnv, NoScopes, NamespacePath, ForService;
    var outer, ms := SourceEnv(svc, pkg, ps.servicesNamespace), svc.methods;
    var fs, own := SourceServiceFacts(outer, ms, ps), ClassPath(NamespacePath(ps), svc);
    SourceHasNoScopes(svc, pkg, ps);
    DefinedMoved(fs, path);
    SourceEnvNames(svc, pkg, ps);
    SourceDefines(outer, ms, ps, NamespacePath(ps), svc);
    NeedsAreListed(ms, ps, own);
    MovedPermutes(path, DefinedIn(fs), NeedsList(ms, ps, own));
    NeedsMoved(ms, ps, path, own);
    NeedsAreListed(ms, ps, path + own);
    HeaderDeclares(svc, pkg, ps, path + NamespacePath(ps));
    assert path + own == ClassPath(path + NamespacePath(ps), svc);
  }

  // ---- Whole files ----

  lemma {:induction false} ServicesDefine(f: File, ps: Parameters, n: nat, path: string)
    requires n <= |f.services|
    ensures multiset(DefinedUnder(SourceServicesFacts(f, ps, n), path)) ==
            multiset(DeclaredIn(HeaderServicesFacts(f, ps, n), path + NamespacePath(ps)))
  {
    hide DefinedUnder, DeclaredIn, SourceServiceFacts, HeaderServiceFacts, NamespacePath, SourceEnv;
    if n == 0 {
      UnderOne(Alias("", Base), path);
      NothingIn(path + NamespacePath(ps));
    } else {
      var svc := f.services[n - 1];
      ServicesDefine(f, ps, n - 1, path);
      ServiceDefines(svc, PackagePrefix(f), ps, path);
      UnderConcat(SourceServicesFacts(f, ps, n - 1),
                  SourceServiceFacts(SourceEnv(svc, PackagePrefix(f), ps.servicesNamespace), svc.methods, ps), path);
      DeclaredConcat(HeaderServicesFacts(f, ps, n - 1), HeaderServiceFacts(svc, PackagePrefix(f), ps),
        path + NamespacePath(ps));
    }
  }

  // The namespaces of a package, as a qualified name.
  function PathOf(parts: seq<string>): string {
    if parts == [] then "" else PathOf(parts[..|parts| - 1]) + parts[|parts| - 1] + "::"
  }

  lemma {:induction false} WrappedDeclares(parts: seq<string>, fs: seq<Fact>)
    ensures DeclaredIn(Wrapped(parts, fs), "") == DeclaredIn(fs, PathOf(parts))
  {
    hide DeclaredIn;
    if parts != [] {
      var last := NamespaceBody(S(parts[|parts| - 1]), fs);
      WrappedDeclares(parts[..|parts| - 1], [last]);
      DeclaredOne(last, PathOf(parts[..|parts| - 1]));
    }
  }

  lemma {:induction false} WrappedFromDefines(parts: seq<string>, n: nat, fs: seq<Fact>)
    requires n <= |parts|
    ensures DefinedUnder(WrappedFrom(parts, n, fs), PathOf(parts[..|parts| - n])) == DefinedUnder(fs, PathOf(parts))
  {
    hide DefinedUnder;
    var m := |parts|;
    if n == 0 {
      assert parts[..m] == parts;
    } else {
      WrappedFromDefines(parts, n - 1, fs);
      UnderOne(WrappedFrom(parts, n, fs)[0], PathOf(parts[..m - n]));
      assert parts[..m - (n - 1)][..m - n] == parts[..m - n];
    }
  }

  lemma NamedDeclares(ps: Parameters, fs: seq<Fact>, path: string)
    ensures DeclaredIn(Named(ps, fs), path) == DeclaredIn(fs, path + NamespacePath(ps))
  {
    hide DeclaredIn;
    if ps.servicesNamespace == "" {
      assert path + "" == path;
    } else {
      DeclaredOne(NamespaceBody(S(ps.servicesNamespace), fs), path);
      assert path + ps.servicesNamespace + "::" == path + (ps.servicesNamespace + "::");
    }
  }

  lemma HeaderFileDeclares(f: File, ps: Parameters)
    ensures DeclaredIn(Facts(HeaderFile(f, ps)), "") ==
            DeclaredIn(HeaderServicesFacts(f, ps, |f.services|), PathOf(NamespaceParts(f)) + NamespacePath(ps))
  {
    hide After, HeaderFile, DeclaredIn, HeaderServicesFacts, Wrapped, Named, NamespaceParts, GuardRefs, PathOf,
      NamespacePath;
    HeaderFileRead(f, ps);
    DeclaredOne(GuardedText(GuardRefs("GRPC_", f), HeaderInner(f, ps)), "");
    IncludeDeclaresNothing(f, ps);
    DeclaredConcat([IncludedMessages(f, ps)],
                   Wrapped(NamespaceParts(f), Named(ps, HeaderServicesFacts(f, ps, |f.services|))), "");
    WrappedDeclares(NamespaceParts(f), Named(ps, HeaderServicesFacts(f, ps, |f.services|)));
    NamedDeclares(ps, HeaderServicesFacts(f, ps, |f.services|), PathOf(NamespaceParts(f)));
  }

  lemma IncludeDeclaresNothing(f: File, ps: Parameters)
    ensures DeclaredIn([IncludedMessages(f, ps)], "") == []
  {
    DeclaredOne(IncludedMessages(f, ps), "");
  }

  lemma SourceFileDefines(f: File, ps: Parameters)
    ensures DefinedUnder(Facts(SourceOfFile(f, ps)), "") ==
            DefinedUnder(SourceServicesFacts(f, ps, |f.services|), PathOf(NamespaceParts(f)))
  {
    hide After, SourceOfFile, DefinedUnder, SourceServicesFacts, WrappedFrom, MirroredUpTo, OwnHeaders,
      PackageParts;
    SourceFileRead(f, ps);
    var fs := SourceServicesFacts(f, ps, |f.services|);
    OwnHeadersDefineNothing(f, ps);
    if f.package == "" {
      UnderConcat(OwnHeaders(f, ps), fs, "");
    } else {
      var parts := PackageParts(f);
      UnderConcat(OwnHeaders(f, ps), WrappedFrom(parts, |parts|, fs), "");
      WrappedFromDefines(parts, |parts|, fs);
      assert parts[..0] == [];
    }
  }

  lemma OwnHeadersDefineNothing(f: File, ps: Parameters)
    ensures DefinedUnder(OwnHeaders(f, ps), "") == []
  {
    UnderConcat([IncludedMessages(f, ps)], [IncludedService(f)], "");
    UnderOne(IncludedMessages(f, ps), "");
    UnderOne(IncludedService(f), "");
    assert OwnHeaders(f, ps) == [IncludedMessages(f, ps)] + [IncludedService(f)];
  }

  // For any .proto file and options: every function the header declares and
  // neither defines inline nor leaves pure is defined in the source exactly
  // once, in the same namespaces and classes and with the same types; and the
  // source defines nothing else.
  lemma EveryFileIsDefined(f: File, ps: Parameters)
    ensures multiset(DeclaredIn(Facts(HeaderFile(f, ps)), "")) == multiset(DefinedUnder(Facts(SourceOfFile(f, ps)), ""))
  {
    hide HeaderFile, SourceOfFile, DeclaredIn, DefinedUnder, HeaderServicesFacts, SourceServicesFacts, PathOf,
      NamespacePath, Facts;
    HeaderFileDeclares(f, ps);
    SourceFileDefines(f, ps);
    ServicesDefine(f, ps, |f.services|, PathOf(NamespaceParts(f)));
  }
}
