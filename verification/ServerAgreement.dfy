// The mixins of a header fit the methods they are generated for: each is the
// one its family has for its method, and overrides only what Service declares
// virtual.
module ServerAgreement {
  import opened Schema
  import opened Emit
  import opened Structure
  import opened HeaderService
  import opened ServerFacts
  import opened HeaderFacts
  import opened Signatures
  import opened HeaderClasses
  import opened HeaderDeclarations
  import opened MixinLists
  import opened Decimal

  // The streamed families come with the synchronous server API only.
  predicate Enabled(pass: Pass, ps: Parameters) {
    pass == StreamedUnaryMixins || pass == SplitMixins ==> ps.allowSyncServerApi
  }

  // A class is the mixin of one family for method number i.
  predicate IsMixinFor(c: Fact, pass: Pass, m: Method, i: nat, ps: Parameters) {
    MixinPass(pass) && Applies(pass, m) && c == MixinFor(pass, m, i, ps)
  }

  ghost predicate FitsSome(c: Fact, ms: seq<Method>, ps: Parameters) {
    exists pass, i :: 0 <= i < |ms| && Enabled(pass, ps) && IsMixinFor(c, pass, ms[i], i, ps)
  }

  ghost predicate MixinsFit(fs: seq<Fact>, ms: seq<Method>, ps: Parameters) {
    forall c :: c in fs && c.ClassBody? && c.head == MixinClass ==> FitsSome(c, ms, ps)
  }

  lemma MixinsFitConcat(a: seq<Fact>, b: seq<Fact>, ms: seq<Method>, ps: Parameters)
    requires MixinsFit(a, ms, ps) && MixinsFit(b, ms, ps)
    ensures MixinsFit(a + b, ms, ps)
  {
    hide FitsSome;
  }

  lemma RoundFits(pass: Pass, ms: seq<Method>, i: nat, ps: Parameters)
    requires MixinPass(pass) && i < |ms| && Enabled(pass, ps)
    ensures MixinsFit(RoundFacts(pass, ms[i], i, ps), ms, ps)
  {
    hide RoundFacts, MixinMembers, OwnName;
    RoundIsMixin(pass, ms[i], i, ps);
    if Applies(pass, ms[i]) {
      assert IsMixinFor(MixinFor(pass, ms[i], i, ps), pass, ms[i], i, ps);
    }
  }

  lemma {:induction false} RoundsFit(pass: Pass, ms: seq<Method>, ps: Parameters, n: nat)
    requires MixinPass(pass) && n <= |ms| && Enabled(pass, ps)
    ensures MixinsFit(RoundsFacts(pass, ms, ps, n), ms, ps)
  {
    hide RoundFacts, FitsSome;
    if n > 0 {
      RoundsFit(pass, ms, ps, n - 1);
      RoundFits(pass, ms, n - 1, ps);
      MixinsFitConcat(RoundsFacts(pass, ms, ps, n - 1), RoundFacts(pass, ms[n - 1], n - 1, ps), ms, ps);
    }
  }

  // Parts of a service's class that hold no mixin.
  lemma OthersFit(svc: Service, pkg: string, ps: Parameters)
    ensures MixinsFit([FullName([S(pkg), S(svc.name)])] + ClientSideFacts(svc.methods, ps), svc.methods, ps)
    ensures MixinsFit(Closed(ServiceScope(), ServiceMembers(svc.methods, ps)), svc.methods, ps) &&
            MixinsFit([], svc.methods, ps)
  {
    hide InterfaceMembers, StubMembersFacts, ServiceMembers, FitsSome;
    FixedSigs();
  }

  lemma TypedefsFit(ms: seq<Method>, f: Filter, alias: string, ps: Parameters)
    ensures MixinsFit(TypedefFacts(ms, f, alias), ms, ps)
  {
    hide FitsSome, Nest;
  }

  lemma ApisFit(ms: seq<Method>, ps: Parameters)
    ensures MixinsFit(AsyncApiFacts(ms, ps), ms, ps) && MixinsFit(CallbackApiFacts(ms, ps), ms, ps)
    ensures MixinsFit(RawApiFacts(ms, ps), ms, ps) && MixinsFit(StreamedApiFacts(ms, ps), ms, ps)
  {
    hide MixinsFit, RoundsFacts, TypedefFacts;
    NoneFits(ms, ps);
    RoundsFit(AsyncMixins, ms, ps, |ms|);
    RoundsFit(CallbackMixins, ms, ps, |ms|);
    RoundsFit(GenericMixins, ms, ps, |ms|);
    RoundsFit(RawMixins, ms, ps, |ms|);
    RoundsFit(RawCallbackMixins, ms, ps, |ms|);
    TypedefsFit(ms, EveryAsync, "AsyncService", ps);
    TypedefsFit(ms, EveryCallback, "CallbackService", ps);
    MixinsFitConcat(EveryFacts(AsyncMixins, ms, ps), TypedefFacts(ms, EveryAsync, "AsyncService"), ms, ps);
    MixinsFitConcat(EveryFacts(CallbackMixins, ms, ps), TypedefFacts(ms, EveryCallback, "CallbackService"), ms, ps);
    var raw := if ps.allowCqApi then EveryFacts(RawMixins, ms, ps) else [];
    MixinsFitConcat(EveryFacts(GenericMixins, ms, ps), raw, ms, ps);
    MixinsFitConcat(EveryFacts(GenericMixins, ms, ps) + raw, EveryFacts(RawCallbackMixins, ms, ps), ms, ps);
    StreamedFits(ms, ps);
  }

  lemma NoneFits(ms: seq<Method>, ps: Parameters)
    ensures MixinsFit([], ms, ps)
  {
  }

  lemma StreamedFits(ms: seq<Method>, ps: Parameters)
    ensures MixinsFit(StreamedApiFacts(ms, ps), ms, ps)
  {
    hide MixinsFit, RoundsFacts, TypedefFacts;
    NoneFits(ms, ps);
    if ps.allowSyncServerApi {
      RoundsFit(StreamedUnaryMixins, ms, ps, |ms|);
      RoundsFit(SplitMixins, ms, ps, |ms|);
      TypedefsFit(ms, UnaryOnly, "StreamedUnaryService", ps);
      TypedefsFit(ms, SplitOnly, "SplitStreamedService", ps);
      TypedefsFit(ms, UnaryOrSplit, "StreamedService", ps);
      var u := EveryFacts(StreamedUnaryMixins, ms, ps) + TypedefFacts(ms, UnaryOnly, "StreamedUnaryService");
      var s := EveryFacts(SplitMixins, ms, ps) + TypedefFacts(ms, SplitOnly, "SplitStreamedService");
      MixinsFitConcat(EveryFacts(StreamedUnaryMixins, ms, ps), TypedefFacts(ms, UnaryOnly, "StreamedUnaryService"), ms,
        ps);
      MixinsFitConcat(EveryFacts(SplitMixins, ms, ps), TypedefFacts(ms, SplitOnly, "SplitStreamedService"), ms, ps);
      MixinsFitConcat(u, s, ms, ps);
      MixinsFitConcat(u + s, TypedefFacts(ms, UnaryOrSplit, "StreamedService"), ms, ps);
    }
  }

  // Every mixin class in a service's header belongs to one family and one of
  // the service's methods, and holds member for member what that family has for
  // that method: it marks the method's own index in the family's way and with
  // the handler for its streaming kind, disables the method's function of
  // Service, and offers the family's functions over the method's request and
  // response types, or over bytes in the raw families.
  lemma EveryMixinFitsItsMethod(svc: Service, pkg: string, ps: Parameters)
    ensures MixinsFit(ClassOf(svc, pkg, ps), svc.methods, ps)
  {
    hide MixinsFit, ClientSideFacts, ServiceMembers, AsyncApiFacts, CallbackApiFacts, RawApiFacts, StreamedApiFacts,
      ClassOf;
    var ms := svc.methods;
    ServiceClassIs(svc, pkg, ps);
    OthersFit(svc, pkg, ps);
    ApisFit(ms, ps);
    var v := Closed(ServiceScope(), ServiceMembers(ms, ps));
    MixinsFitConcat(v, AsyncApiFacts(ms, ps), ms, ps);
    MixinsFitConcat(v + AsyncApiFacts(ms, ps), CallbackApiFacts(ms, ps), ms, ps);
    MixinsFitConcat(v + AsyncApiFacts(ms, ps) + CallbackApiFacts(ms, ps), RawApiFacts(ms, ps), ms, ps);
    MixinsFitConcat(v + AsyncApiFacts(ms, ps) + CallbackApiFacts(ms, ps) + RawApiFacts(ms, ps),
      StreamedApiFacts(ms, ps), ms, ps);
    MixinsFitConcat([FullName([S(pkg), S(svc.name)])] + ClientSideFacts(ms, ps), ServerSideFacts(ms, ps), ms, ps);
  }

  // ---- What the mixins override ----

  lemma {:induction false} ServiceHas(ms: seq<Method>, ps: Parameters, n: nat, i: nat)
    requires i < n <= |ms|
    ensures PlainDecl(ServiceSig(ms[i]), ps.allowSyncServerApi) in RoundsFacts(ServiceMethods, ms, ps, n)
  {
    hide ServiceSig, ServiceSyncFacts;
    ServiceSyncIs(ms[n - 1], ps);
    if i < n - 1 {
      ServiceHas(ms, ps, n - 1, i);
    }
  }

  // A mixin disables a synchronous method by overriding it, and there is always
  // one to override: a function of Service with that signature, declared
  // virtual. Without the synchronous API no mixin overrides anything.
  lemma MixinsOverrideVirtuals(svc: Service, pkg: string, ps: Parameters, c: Fact, f: Fact)
    requires c in ClassOf(svc, pkg, ps) && c.ClassBody? && c.head == MixinClass
    requires f in c.members && f.InlineOverrideDecl?
    ensures PlainDecl(f.sig, true) in ServiceBaseOf(svc, pkg, ps)
  {
    EveryMixinFitsItsMethod(svc, pkg, ps);
    hide ClassOf, ServiceBaseOf, ServiceSig, MixinMembers, OwnName, RoundsFacts, Applies;
    var pass, i :| 0 <= i < |svc.methods| && Enabled(pass, ps) && IsMixinFor(c, pass, svc.methods[i], i, ps);
    MixinOverrides(pass, svc.methods[i], i, ps, f);
    ServiceHas(svc.methods, ps, |svc.methods|, i);
    ClassMembers(svc, pkg, ps);
  }

  // What a mixin overrides is its method's function, under that option only.
  lemma MixinOverrides(pass: Pass, m: Method, i: nat, ps: Parameters, f: Fact)
    requires MixinPass(pass) && Enabled(pass, ps) && f in MixinMembers(pass, m, i, ps) && f.InlineOverrideDecl?
    ensures ps.allowSyncServerApi && f.sig == ServiceSig(m)
  {
    hide RequestAs, ResponseAs, OwnName, ServiceSig, RequestSig, ReactionSig, StreamedUnarySig, SplitSig, Dec;
    assert f !in Marks(pass, m, i) && f !in Offers(pass, m, i);
  }
}
