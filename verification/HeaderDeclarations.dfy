// What a header declares and leaves for the source to define: the functions
// without a body, each with the qualified name of the scope it stands in.
module HeaderDeclarations {
  import opened Schema
  import opened Emit
  import opened Structure
  import opened HeaderService
  import opened ServerFacts
  import opened HeaderFacts
  import opened Signatures
  import opened Queries
  import opened ClientPasses
  import opened HeaderClasses
  import opened MixinLists
  import opened Decimal

  // A function and the scope it belongs to, spelled like a qualified name.
  datatype Placed = Placed(path: string, sig: Sig)

  // The functions declared without a body and not pure, with the classes and
  // namespaces around them.
  function DeclaredIn(fs: seq<Fact>, path: string): seq<Placed>
    decreases fs
  {
    if fs == [] then [] else DeclaredIn(fs[..|fs| - 1], path) + DeclaredBy(fs[|fs| - 1], path)
  }

  function DeclaredBy(f: Fact, path: string): seq<Placed>
    decreases f
  {
    match f
    case PlainDecl(sig, _) => [Placed(path, sig)]
    case OverrideDecl(sig) => [Placed(path, sig)]
    case ClassBody(_, name, _, members) => DeclaredIn(members, path + Spelled(name) + "::")
    case NamespaceBody(part, members) => DeclaredIn(members, path + RefText(part) + "::")
    case GuardedText(_, members) => DeclaredIn(members, path)
    case _ => []
  }

  lemma DeclaredSnoc(fs: seq<Fact>, f: Fact, path: string)
    ensures DeclaredIn(fs + [f], path) == DeclaredIn(fs, path) + DeclaredBy(f, path)
  {
    hide DeclaredBy;
    assert (fs + [f])[..|fs|] == fs;
  }

  lemma {:induction false} DeclaredConcat(a: seq<Fact>, b: seq<Fact>, path: string)
    ensures DeclaredIn(a + b, path) == DeclaredIn(a, path) + DeclaredIn(b, path)
  {
    if b == [] {
      assert a + b == a;
    } else {
      hide DeclaredIn, DeclaredBy;
      var c, f := b[..|b| - 1], b[|b| - 1];
      DeclaredConcat(a, c, path);
      DeclaredSnoc(c, f, path);
      DeclaredSnoc(a + c, f, path);
      LastOff(a, b);
      Regrouped(DeclaredIn(a, path), DeclaredIn(c, path), DeclaredBy(f, path));
    }
  }

  function Place(path: string, ss: seq<Sig>): seq<Placed> { seq(|ss|, i requires 0 <= i < |ss| => Placed(path, ss[i])) }

  lemma PlaceConcat(path: string, a: seq<Sig>, b: seq<Sig>)
    ensures Place(path, a + b) == Place(path, a) + Place(path, b)
  {
  }

  lemma PlaceOne(path: string, s: Sig)
    ensures Place(path, [s]) == [Placed(path, s)] && Place(path, []) == []
  {
  }

  lemma DeclaredOne(f: Fact, path: string)
    ensures DeclaredIn([f], path) == DeclaredBy(f, path)
  {
    hide DeclaredBy;
    assert [f][..0] == [];
    assert DeclaredIn([], path) == [];
  }

  // ---- Scopes without scopes inside ----

  predicate DeclaredByRole(fs: seq<Fact>, path: string) {
    multiset(DeclaredIn(fs, path)) ==
      multiset(Place(path, Sigs(Plainly, fs))) + multiset(Place(path, Sigs(Overriding, fs)))
  }

  lemma {:induction false} FlatDeclares(fs: seq<Fact>, path: string)
    requires Flat(fs)
    ensures DeclaredByRole(fs, path)
  {
    if fs == [] {
      NothingByRole(path);
    } else {
      hide DeclaredByRole;
      var b, f := fs[..|fs| - 1], fs[|fs| - 1];
      FlatDeclares(b, path);
      FlatDeclaresStep(b, f, path);
      assert fs == b + [f];
    }
  }

  lemma NothingByRole(path: string)
    ensures DeclaredByRole([], path)
  {
  }

  lemma FlatDeclaresStep(b: seq<Fact>, f: Fact, path: string)
    requires !f.ClassBody? && !f.NamespaceBody? && !f.GuardedText?
    requires DeclaredByRole(b, path)
    ensures DeclaredByRole(b + [f], path)
  {
    hide Place, Sigs, SigIn, DeclaredIn, DeclaredBy;
    DeclaredConcat(b, [f], path);
    DeclaredOne(f, path);
    SigsConcat(Plainly, b, [f]);
    SigsConcat(Overriding, b, [f]);
    SigsOne(Plainly, f);
    SigsOne(Overriding, f);
    PlaceConcat(path, Sigs(Plainly, b), SigIn(Plainly, f));
    PlaceConcat(path, Sigs(Overriding, b), SigIn(Overriding, f));
    ByRole(f, path);
  }

  lemma ByRole(f: Fact, path: string)
    requires !f.ClassBody? && !f.NamespaceBody? && !f.GuardedText?
    ensures DeclaredBy(f, path) == Place(path, SigIn(Plainly, f)) + Place(path, SigIn(Overriding, f))
  {
  }

  // ---- Mixins declare nothing that needs a definition. ----

  predicate NeedsNothing(fs: seq<Fact>) {
    forall f :: f in fs ==> f.IndexUsed? || f.Said? || f.InlineOverrideDecl? || f.InlineDecl? || f.PureDecl?
  }

  lemma {:induction false} NothingDeclared(fs: seq<Fact>, path: string)
    requires NeedsNothing(fs)
    ensures DeclaredIn(fs, path) == []
  {
    if fs != [] {
      assert fs[|fs| - 1] in fs;
      NothingDeclared(fs[..|fs| - 1], path);
    }
  }

  lemma MixinNeedsNothing(pass: Pass, m: Method, i: nat, ps: Parameters)
    requires MixinPass(pass)
    ensures NeedsNothing(MixinMembers(pass, m, i, ps))
  {
    hide RequestAs, ResponseAs, OwnName, ServiceSig, RequestSig, ReactionSig, StreamedUnarySig, SplitSig, Dec;
    assert NeedsNothing(Marks(pass, m, i) + Offers(pass, m, i));
  }

  lemma MixinDeclaresNothing(pass: Pass, m: Method, i: nat, ps: Parameters, path: string)
    requires MixinPass(pass)
    ensures DeclaredIn(RoundFacts(pass, m, i, ps), path) == []
  {
    hide DeclaredIn, RoundFacts, MixinMembers, Spelled, OwnName, Applies, NeedsNothing;
    RoundIsMixin(pass, m, i, ps);
    NothingIn(path);
    if Applies(pass, m) {
      MixinNeedsNothing(pass, m, i, ps);
      NothingDeclared(MixinMembers(pass, m, i, ps), path + Spelled(OwnName(pass, m)) + "::");
      DeclaredOne(MixinFor(pass, m, i, ps), path);
    }
  }

  lemma {:induction false} MixinRoundsDeclareNothing(pass: Pass, ms: seq<Method>, ps: Parameters, n: nat, path: string)
    requires MixinPass(pass) && n <= |ms|
    ensures DeclaredIn(RoundsFacts(pass, ms, ps, n), path) == []
  {
    hide RoundFacts, DeclaredBy;
    if n > 0 {
      MixinRoundsDeclareNothing(pass, ms, ps, n - 1, path);
      MixinDeclaresNothing(pass, ms[n - 1], n - 1, ps, path);
      DeclaredConcat(RoundsFacts(pass, ms, ps, n - 1), RoundFacts(pass, ms[n - 1], n - 1, ps), path);
    }
  }

  // ---- What the header declares ----

  function StubCtorSig(): Sig { Sig(T0(NoType), [S("Stub")], [T0(ChannelRef), T0(StubOptionsRef)], []) }

  function NewStubSig(): Sig { Sig(T0(StubUniquePtr), [S("NewStub")], [T0(ChannelRef), T0(StubOptionsRef)], []) }

  function ServiceCtorSig(): Sig { Sig(T0(NoType), [S("Service")], [], []) }

  function ServiceDtorSig(): Sig { Sig(T0(NoType), [S("~Service")], [], []) }

  function ServiceSigsOf(ms: seq<Method>, n: nat): seq<Sig>
    requires n <= |ms|
  {
    if n == 0 then [] else ServiceSigsOf(ms, n - 1) + [ServiceSig(ms[n - 1])]
  }

  // Everything a service with these methods needs a definition for, `path`
  // being the service's class.
  function StubNeeds(ms: seq<Method>, ps: Parameters, path: string): multiset<Placed> {
    multiset(Place(path + "Stub::", [StubCtorSig()])) +
    multiset(Place(path + "Stub::", RoundsSigs(StubPublic, Overriding, ms, ps, |ms|))) +
    multiset(Place(path + "Stub::async::", RoundsSigs(Callbacks, Overriding, ms, ps, |ms|))) +
    multiset(Place(path + "Stub::", RoundsSigs(StubPrivate, Overriding, ms, ps, |ms|)))
  }

  function ServiceNeeds(ms: seq<Method>, path: string): multiset<Placed> {
    multiset(Place(path + "Service::", [ServiceCtorSig()])) + multiset(Place(path + "Service::", [ServiceDtorSig()])) +
    multiset(Place(path + "Service::", ServiceSigsOf(ms, |ms|)))
  }

  function Needs(ms: seq<Method>, ps: Parameters, path: string): multiset<Placed> {
    StubNeeds(ms, ps, path) + multiset(Place(path, [NewStubSig()])) + ServiceNeeds(ms, path)
  }

  lemma FixedSigs()
    ensures DeclFacts(StubCtor(), map[]) == [PlainDecl(StubCtorSig(), false)]
    ensures DeclFacts(NewStub(), map[]) == [PlainDecl(NewStubSig(), false)]
    ensures DeclFacts(ServiceCtor(), map[]) == [PlainDecl(ServiceCtorSig(), false)]
    ensures DeclFacts(ServiceDtor(), map[]) == [PlainDecl(ServiceDtorSig(), false)]
  {
    RenderedRefs();
    RenderedTys();
    hide RRefs, RTys;
  }

  lemma {:induction false} NothingPlain(pass: Pass, ms: seq<Method>, ps: Parameters, n: nat)
    requires n <= |ms|
    ensures RoundsSigs(pass, Plainly, ms, ps, n) == []
  {
    if n > 0 {
      NothingPlain(pass, ms, ps, n - 1);
    }
  }

  lemma {:induction false} NothingOverridden(pass: Pass, ms: seq<Method>, ps: Parameters, n: nat)
    requires n <= |ms| && pass in {InterfacePublic, InterfacePrivate, CallbackInterfaces, StubMembers}
    ensures RoundsSigs(pass, Overriding, ms, ps, n) == []
  {
    if n > 0 {
      NothingOverridden(pass, ms, ps, n - 1);
    }
  }

  lemma PassDeclares(pass: Pass, ms: seq<Method>, ps: Parameters, path: string)
    requires ClientPass(pass)
    ensures multiset(DeclaredIn(EveryFacts(pass, ms, ps), path)) ==
            multiset(Place(path, RoundsSigs(pass, Overriding, ms, ps, |ms|)))
  {
    hide DeclaredIn, Sigs, RoundsSigs, RoundsFacts, Flat;
    FlatRounds(pass, ms, ps, |ms|);
    FlatDeclares(EveryFacts(pass, ms, ps), path);
    RoundsSigsFound(pass, Plainly, ms, ps, |ms|);
    RoundsSigsFound(pass, Overriding, ms, ps, |ms|);
    NothingPlain(pass, ms, ps, |ms|);
    PlaceOne(path, StubCtorSig());
  }

  lemma PlainDeclares(sig: Sig, isVirtual: bool, path: string)
    ensures DeclaredIn([PlainDecl(sig, isVirtual)], path) == Place(path, [sig])
  {
    hide DeclaredIn;
    DeclaredOne(PlainDecl(sig, isVirtual), path);
  }

  lemma NestedDeclares(scope: Scope, fs: seq<Fact>, name: string, path: string)
    requires scope.ClassScope? && scope.name == [S(name)]
    ensures DeclaredIn(Closed(scope, fs), path) == DeclaredIn(fs, path + name + "::")
  {
    hide DeclaredIn, Spelled;
    DeclaredOne(Closed(scope, fs)[0], path);
    SpelledOne(name);
  }

  lemma NamesEmpty(ss: seq<Sig>, path: string)
    requires ss == []
    ensures Place(path, ss) == []
  {
  }

  // Access labels declare nothing.
  lemma LabelsDeclareNothing(path: string)
    ensures DeclaredIn(Publicly(), path) == [] && DeclaredIn(Privately(), path) == []
  {
    hide DeclaredIn;
    DeclaredOne(Publicly()[0], path);
    DeclaredOne(Privately()[0], path);
  }

  lemma InterfaceDeclaresNothing(ms: seq<Method>, ps: Parameters, path: string)
    ensures DeclaredIn(InterfaceMembers(ms, ps), path) == []
  {
    hide DeclaredIn, RoundsSigs, RoundsFacts, Place, Publicly, Privately;
    var pub, callbacks := EveryFacts(InterfacePublic, ms, ps), EveryFacts(CallbackInterfaces, ms, ps);
    var nested, inner := Closed(AsyncInterfaceScope(), Publicly() + callbacks), path + "async_interface" + "::";
    DeclaredConcat(pub, nested, path);
    DeclaredConcat(pub + nested, Privately(), path);
    DeclaredConcat(pub + nested + Privately(), EveryFacts(InterfacePrivate, ms, ps), path);
    NestedDeclares(AsyncInterfaceScope(), Publicly() + callbacks, "async_interface", path);
    LabelsDeclareNothing(path);
    LabelsDeclareNothing(inner);
    DeclaredConcat(Publicly(), callbacks, inner);
    NothingFrom(InterfacePublic, ms, ps, path);
    NothingFrom(InterfacePrivate, ms, ps, path);
    NothingFrom(CallbackInterfaces, ms, ps, inner);
  }

  lemma NothingFrom(pass: Pass, ms: seq<Method>, ps: Parameters, path: string)
    requires pass in {InterfacePublic, InterfacePrivate, CallbackInterfaces, StubMembers}
    ensures DeclaredIn(EveryFacts(pass, ms, ps), path) == []
  {
    hide DeclaredIn, RoundsSigs, RoundsFacts;
    PassDeclares(pass, ms, ps, path);
    NothingOverridden(pass, ms, ps, |ms|);
    NamesEmpty(RoundsSigs(pass, Overriding, ms, ps, |ms|), path);
    assert |multiset(DeclaredIn(EveryFacts(pass, ms, ps), path))| == 0;
  }

  lemma AsyncStubDeclares(ms: seq<Method>, ps: Parameters, path: string)
    ensures multiset(DeclaredIn(AsyncStubMembers(ms, ps), path)) ==
            multiset(Place(path, RoundsSigs(Callbacks, Overriding, ms, ps, |ms|)))
  {
    hide DeclaredIn, RoundsSigs, RoundsFacts, Place, Publicly, Privately;
    var callbacks := EveryFacts(Callbacks, ms, ps);
    LabelsDeclareNothing(path);
    DeclaredConcat(Publicly(), callbacks, path);
    DeclaredConcat(Publicly() + callbacks, Privately(), path);
    PassDeclares(Callbacks, ms, ps, path);
    assert DeclaredIn(AsyncStubMembers(ms, ps), path) == [] + DeclaredIn(callbacks, path) + [];
  }

  lemma StubDeclares(ms: seq<Method>, ps: Parameters, path: string)
    ensures multiset(DeclaredIn(StubMembersFacts(ms, ps), path + "Stub::")) == StubNeeds(ms, ps, path)
  {
    hide DeclaredIn, RoundsSigs, RoundsFacts, Place, StubCtorSig, AsyncStubMembers, Privately;
    var p := path + "Stub::";
    var ctor := DeclFacts(StubCtor(), map[]);
    FixedSigs();
    PlainDeclares(StubCtorSig(), false, p);
    var pub, priv, data := EveryFacts(StubPublic, ms, ps), EveryFacts(StubPrivate, ms, ps),
      EveryFacts(StubMembers, ms, ps);
    var nested := Closed(AsyncScope(), AsyncStubMembers(ms, ps));
    LabelsDeclareNothing(p);
    DeclaredConcat(ctor, pub, p);
    DeclaredConcat(ctor + pub, nested, p);
    DeclaredConcat(ctor + pub + nested, Privately(), p);
    DeclaredConcat(ctor + pub + nested + Privately(), priv, p);
    DeclaredConcat(ctor + pub + nested + Privately() + priv, data, p);
    NestedDeclares(AsyncScope(), AsyncStubMembers(ms, ps), "async", p);
    assert p + "async" + "::" == path + "Stub::async::";
    PassDeclares(StubPublic, ms, ps, p);
    AsyncStubDeclares(ms, ps, path + "Stub::async::");
    PassDeclares(StubPrivate, ms, ps, p);
    NothingFrom(StubMembers, ms, ps, p);
    assert DeclaredIn(StubMembersFacts(ms, ps), p) ==
      DeclaredIn(ctor, p) + DeclaredIn(pub, p) + DeclaredIn(nested, p) + [] + DeclaredIn(priv, p) + [];
  }

  lemma {:induction false} ServiceMethodsDeclare(ms: seq<Method>, ps: Parameters, n: nat, path: string)
    requires n <= |ms|
    ensures DeclaredIn(RoundsFacts(ServiceMethods, ms, ps, n), path) == Place(path, ServiceSigsOf(ms, n))
  {
    hide DeclaredIn, ServiceSig, ServiceSyncFacts, Place;
    if n == 0 {
      NothingIn(path);
      NamesEmpty([], path);
    } else {
      var m := ms[n - 1];
      ServiceMethodsDeclare(ms, ps, n - 1, path);
      ServiceSyncIs(m, ps);
      PlainDeclares(ServiceSig(m), ps.allowSyncServerApi, path);
      DeclaredConcat(RoundsFacts(ServiceMethods, ms, ps, n - 1), ServiceSyncFacts(m, ps), path);
      PlaceConcat(path, ServiceSigsOf(ms, n - 1), [ServiceSig(m)]);
    }
  }

  lemma ServiceSyncIs(m: Method, ps: Parameters)
    ensures ServiceSyncFacts(m, ps) == [PlainDecl(ServiceSig(m), ps.allowSyncServerApi)]
  {
    hide RRefs, RTys, RTy, MethodEnv, AsyncEnv;
    EnvsFit(m, 0);
    ServiceSigs(m, MethodEnv(m));
  }

  lemma ServiceDeclares(ms: seq<Method>, ps: Parameters, path: string)
    ensures multiset(DeclaredIn(ServiceMembers(ms, ps), path + "Service::")) == ServiceNeeds(ms, path)
  {
    hide DeclaredIn, RoundsFacts, ServiceSigsOf, Place, ServiceCtorSig, ServiceDtorSig;
    var p := path + "Service::";
    var ctor, dtor := DeclFacts(ServiceCtor(), map[]), DeclFacts(ServiceDtor(), map[]);
    FixedSigs();
    PlainDeclares(ServiceCtorSig(), false, p);
    PlainDeclares(ServiceDtorSig(), false, p);
    ServiceMethodsDeclare(ms, ps, |ms|, p);
    DeclaredConcat(ctor, dtor, p);
    DeclaredConcat(ctor + dtor, EveryFacts(ServiceMethods, ms, ps), p);
  }

  lemma AliasDeclaresNothing(ms: seq<Method>, f: Filter, alias: string, path: string)
    ensures DeclaredIn(TypedefFacts(ms, f, alias), path) == []
  {
    hide DeclaredIn;
    DeclaredOne(TypedefFacts(ms, f, alias)[0], path);
  }

  lemma ApisDeclareNothing(ms: seq<Method>, ps: Parameters, path: string)
    ensures DeclaredIn(AsyncApiFacts(ms, ps), path) == [] && DeclaredIn(CallbackApiFacts(ms, ps), path) == []
    ensures DeclaredIn(RawApiFacts(ms, ps), path) == []
  {
    hide DeclaredIn, RoundsFacts, TypedefFacts;
    NothingIn(path);
    MixinRoundsDeclareNothing(AsyncMixins, ms, ps, |ms|, path);
    AliasDeclaresNothing(ms, EveryAsync, "AsyncService", path);
    DeclaredConcat(EveryFacts(AsyncMixins, ms, ps), TypedefFacts(ms, EveryAsync, "AsyncService"), path);
    MixinRoundsDeclareNothing(CallbackMixins, ms, ps, |ms|, path);
    AliasDeclaresNothing(ms, EveryCallback, "CallbackService", path);
    DeclaredConcat(EveryFacts(CallbackMixins, ms, ps), TypedefFacts(ms, EveryCallback, "CallbackService"), path);
    MixinRoundsDeclareNothing(GenericMixins, ms, ps, |ms|, path);
    MixinRoundsDeclareNothing(RawMixins, ms, ps, |ms|, path);
    MixinRoundsDeclareNothing(RawCallbackMixins, ms, ps, |ms|, path);
    var raw := if ps.allowCqApi then EveryFacts(RawMixins, ms, ps) else [];
    DeclaredConcat(EveryFacts(GenericMixins, ms, ps), raw, path);
    DeclaredConcat(EveryFacts(GenericMixins, ms, ps) + raw, EveryFacts(RawCallbackMixins, ms, ps), path);
  }

  lemma NothingIn(path: string)
    ensures DeclaredIn([], path) == []
  {
  }

  lemma StreamedApiDeclaresNothing(ms: seq<Method>, ps: Parameters, path: string)
    ensures DeclaredIn(StreamedApiFacts(ms, ps), path) == []
  {
    hide DeclaredIn, RoundsFacts, TypedefFacts;
    NothingIn(path);
    MixinRoundsDeclareNothing(StreamedUnaryMixins, ms, ps, |ms|, path);
    MixinRoundsDeclareNothing(SplitMixins, ms, ps, |ms|, path);
    var u, s := EveryFacts(StreamedUnaryMixins, ms, ps), EveryFacts(SplitMixins, ms, ps);
    var a, b := TypedefFacts(ms, UnaryOnly, "StreamedUnaryService"),
      TypedefFacts(ms, SplitOnly, "SplitStreamedService");
    var c := TypedefFacts(ms, UnaryOrSplit, "StreamedService");
    AliasDeclaresNothing(ms, UnaryOnly, "StreamedUnaryService", path);
    AliasDeclaresNothing(ms, SplitOnly, "SplitStreamedService", path);
    AliasDeclaresNothing(ms, UnaryOrSplit, "StreamedService", path);
    DeclaredConcat(u, a, path);
    DeclaredConcat(s, b, path);
    DeclaredConcat(u + a, s + b, path);
    DeclaredConcat(u + a + (s + b), c, path);
  }

  // The scope of a service's class, with the services namespace in front.
  function ClassPath(ns: string, svc: Service): string { ns + svc.name + "::" }

  lemma ClientSideDeclares(ms: seq<Method>, ps: Parameters, path: string)
    ensures multiset(DeclaredIn(ClientSideFacts(ms, ps), path)) ==
            StubNeeds(ms, ps, path) + multiset(Place(path, [NewStubSig()]))
  {
    hide DeclaredIn, InterfaceMembers, StubMembersFacts, StubNeeds, Place, NewStubSig;
    var i, s, n := Closed(InterfaceScope(), InterfaceMembers(ms, ps)), Closed(StubScope(), StubMembersFacts(ms, ps)),
      DeclFacts(NewStub(), map[]);
    FixedSigs();
    PlainDeclares(NewStubSig(), false, path);
    DeclaredConcat(s, n, path);
    DeclaredConcat(i, s + n, path);
    NestedDeclares(InterfaceScope(), InterfaceMembers(ms, ps), "StubInterface", path);
    InterfaceDeclaresNothing(ms, ps, path + "StubInterface" + "::");
    NestedDeclares(StubScope(), StubMembersFacts(ms, ps), "Stub", path);
    assert path + "Stub" + "::" == path + "Stub::";
    StubDeclares(ms, ps, path);
  }

  lemma ServerSideDeclares(ms: seq<Method>, ps: Parameters, path: string)
    ensures multiset(DeclaredIn(ServerSideFacts(ms, ps), path)) == ServiceNeeds(ms, path)
  {
    hide DeclaredIn, ServiceMembers, AsyncApiFacts, CallbackApiFacts, RawApiFacts, StreamedApiFacts, ServiceNeeds;
    var v := Closed(ServiceScope(), ServiceMembers(ms, ps));
    NestedDeclares(ServiceScope(), ServiceMembers(ms, ps), "Service", path);
    assert path + "Service" + "::" == path + "Service::";
    ServiceDeclares(ms, ps, path);
    ApisDeclareNothing(ms, ps, path);
    StreamedApiDeclaresNothing(ms, ps, path);
    DeclaredConcat(v, AsyncApiFacts(ms, ps), path);
    DeclaredConcat(v + AsyncApiFacts(ms, ps), CallbackApiFacts(ms, ps), path);
    DeclaredConcat(v + AsyncApiFacts(ms, ps) + CallbackApiFacts(ms, ps), RawApiFacts(ms, ps), path);
    DeclaredConcat(v + AsyncApiFacts(ms, ps) + CallbackApiFacts(ms, ps) + RawApiFacts(ms, ps),
      StreamedApiFacts(ms, ps), path);
    assert DeclaredIn(v, path) + [] + [] + [] + [] == DeclaredIn(v, path);
  }

  lemma HeaderDeclares(svc: Service, pkg: string, ps: Parameters, ns: string)
    ensures multiset(DeclaredIn(HeaderServiceFacts(svc, pkg, ps), ns)) == Needs(svc.methods, ps, ClassPath(ns, svc))
  {
    hide DeclaredIn, ClientSideFacts, ServerSideFacts, StubNeeds, ServiceNeeds, Place, NewStubSig;
    var p := ClassPath(ns, svc);
    NestedDeclares(OuterScope(svc, ps), ServiceFacts(svc, pkg, ps), svc.name, ns);
    var name := [FullName([S(pkg), S(svc.name)])];
    DeclaredOne(name[0], p);
    DeclaredConcat(name, ClientSideFacts(svc.methods, ps), p);
    DeclaredConcat(name + ClientSideFacts(svc.methods, ps), ServerSideFacts(svc.methods, ps), p);
    ClientSideDeclares(svc.methods, ps, p);
    ServerSideDeclares(svc.methods, ps, p);
  }
}
