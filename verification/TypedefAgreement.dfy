// The service typedefs nest exactly the mixins that were declared: one for each
// matching method, in declaration order.
module TypedefAgreement {
  import opened Schema
  import opened Emit
  import opened Structure
  import opened HeaderService
  import opened HeaderFacts
  import opened Queries
  import opened HeaderClasses
  import opened HeaderDeclarations
  import opened MixinLists
  import opened ServerAgreement
  import opened MixinFamilies

  // The names of a family's mixin classes, in the order they are declared.
  function NamesOf(cs: seq<Fact>): seq<seq<Ref>> {
    seq(|cs|, i requires 0 <= i < |cs| => if cs[i].ClassBody? then cs[i].name else [])
  }

  function MixinNames(fs: seq<Fact>, pass: Pass): seq<seq<Ref>> { NamesOf(Mixins(fs, pass)) }

  // One name for each method the family has a mixin for.
  function NameFor(pass: Pass, m: Method): seq<seq<Ref>> {
    if Applies(pass, m) then [[S(PassPrefix(pass)), S(m.name)]] else []
  }

  function NamesFor(pass: Pass, ms: seq<Method>, n: nat): seq<seq<Ref>>
    requires n <= |ms|
  {
    if n == 0 then [] else NamesFor(pass, ms, n - 1) + NameFor(pass, ms[n - 1])
  }

  // The mixins of unary and server-streaming methods, in the methods' order.
  function StreamedNames(ms: seq<Method>, n: nat): seq<seq<Ref>>
    requires n <= |ms|
  {
    if n == 0 then []
    else StreamedNames(ms, n - 1) + (NameFor(StreamedUnaryMixins, ms[n - 1]) + NameFor(SplitMixins, ms[n - 1]))
  }

  lemma {:induction false} RoundsNames(pass: Pass, ms: seq<Method>, ps: Parameters, n: nat)
    requires MixinPass(pass) && n <= |ms|
    ensures NamesOf(RoundsFacts(pass, ms, ps, n)) == NamesFor(pass, ms, n)
  {
    hide NamesOf, NameFor, RoundFacts;
    if n == 0 {
      NoNames();
    } else {
      RoundsNames(pass, ms, ps, n - 1);
      RoundName(pass, ms[n - 1], n - 1, ps);
      NamesOfConcat(RoundsFacts(pass, ms, ps, n - 1), RoundFacts(pass, ms[n - 1], n - 1, ps));
    }
  }

  lemma RoundName(pass: Pass, m: Method, i: nat, ps: Parameters)
    requires MixinPass(pass)
    ensures NamesOf(RoundFacts(pass, m, i, ps)) == NameFor(pass, m)
  {
    hide RoundFacts, MixinMembers, PassPrefix, Applies;
    RoundIsMixin(pass, m, i, ps);
  }

  lemma NoNames()
    ensures NamesOf([]) == []
  {
  }

  lemma NamesOfConcat(a: seq<Fact>, b: seq<Fact>)
    ensures NamesOf(a + b) == NamesOf(a) + NamesOf(b)
  {
  }

  // ---- The filters of the typedef loops pick the mixins' methods. ----

  lemma FilterNames(m: Method)
    ensures MixinsOf(m, EveryAsync) == NameFor(AsyncMixins, m)
    ensures MixinsOf(m, EveryCallback) == NameFor(CallbackMixins, m)
    ensures MixinsOf(m, UnaryOnly) == NameFor(StreamedUnaryMixins, m)
    ensures MixinsOf(m, SplitOnly) == NameFor(SplitMixins, m)
    ensures MixinsOf(m, UnaryOrSplit) == NameFor(StreamedUnaryMixins, m) + NameFor(SplitMixins, m)
  {
  }

  lemma {:induction false} FiltersPickMixins(ms: seq<Method>, n: nat)
    requires n <= |ms|
    ensures MixinsUpTo(ms, EveryAsync, n) == NamesFor(AsyncMixins, ms, n)
    ensures MixinsUpTo(ms, EveryCallback, n) == NamesFor(CallbackMixins, ms, n)
    ensures MixinsUpTo(ms, UnaryOnly, n) == NamesFor(StreamedUnaryMixins, ms, n)
    ensures MixinsUpTo(ms, SplitOnly, n) == NamesFor(SplitMixins, ms, n)
    ensures MixinsUpTo(ms, UnaryOrSplit, n) == StreamedNames(ms, n)
  {
    hide MixinsOf, NameFor;
    if n > 0 {
      FiltersPickMixins(ms, n - 1);
      FilterNames(ms[n - 1]);
    }
  }

  // ---- The whole class ----

  // What is asked of a part of a service's class: the mixins of one family, and
  // the typedefs.
  predicate Part(fs: seq<Fact>, pass: Pass, mixins: seq<Fact>, aliases: seq<Fact>) {
    Mixins(fs, pass) == mixins && Select(Aliases, fs) == aliases
  }

  lemma PartConcat(a: seq<Fact>, b: seq<Fact>, pass: Pass, na: seq<Fact>, nb: seq<Fact>, aa: seq<Fact>, ab: seq<Fact>)
    requires Part(a, pass, na, aa) && Part(b, pass, nb, ab)
    ensures Part(a + b, pass, na + nb, aa + ab)
  {
    MixinsConcat(a, b, pass);
    SelectConcat(Aliases, a, b);
  }

  lemma TypedefPart(ms: seq<Method>, f: Filter, alias: string, pass: Pass)
    ensures Part(TypedefFacts(ms, f, alias), pass, [], TypedefFacts(ms, f, alias)) && Part([], pass, [], [])
  {
    hide Nest;
    MixinsOne(TypedefFacts(ms, f, alias)[0], pass);
    SelectOne(Aliases, TypedefFacts(ms, f, alias)[0]);
  }

  lemma NoAliasInRound(p: Pass, m: Method, i: nat, ps: Parameters)
    requires MixinPass(p)
    ensures Select(Aliases, RoundFacts(p, m, i, ps)) == []
  {
    hide RoundFacts, MixinMembers, PassPrefix;
    RoundIsMixin(p, m, i, ps);
    SelectOne(Aliases, MixinFor(p, m, i, ps));
  }

  lemma {:induction false} NoAliasInRounds(p: Pass, ms: seq<Method>, ps: Parameters, n: nat)
    requires MixinPass(p) && n <= |ms|
    ensures Select(Aliases, RoundsFacts(p, ms, ps, n)) == []
  {
    hide RoundFacts, Is;
    if n > 0 {
      NoAliasInRounds(p, ms, ps, n - 1);
      NoAliasInRound(p, ms[n - 1], n - 1, ps);
      SelectConcat(Aliases, RoundsFacts(p, ms, ps, n - 1), RoundFacts(p, ms[n - 1], n - 1, ps));
    }
  }

  function FamilyIf(p: Pass, q: Pass, ms: seq<Method>, ps: Parameters): seq<Fact>
    requires MixinPass(p)
  {
    if p == q then EveryFacts(p, ms, ps) else []
  }

  lemma PassPart(p: Pass, ms: seq<Method>, ps: Parameters, q: Pass)
    requires MixinPass(p) && MixinPass(q)
    ensures Part(EveryFacts(p, ms, ps), q, FamilyIf(p, q, ms, ps), [])
  {
    hide RoundsFacts;
    RoundsMixins(p, ms, ps, |ms|, q);
    NoAliasInRounds(p, ms, ps, |ms|);
  }

  // A pass and its typedef.
  lemma ApiPart(p: Pass, ms: seq<Method>, ps: Parameters, f: Filter, alias: string, q: Pass)
    requires MixinPass(p) && MixinPass(q)
    ensures Part(EveryFacts(p, ms, ps) + TypedefFacts(ms, f, alias), q, FamilyIf(p, q, ms, ps),
            TypedefFacts(ms, f, alias))
  {
    hide Part, RoundsFacts, TypedefFacts, FamilyIf;
    PassPart(p, ms, ps, q);
    TypedefPart(ms, f, alias, q);
    PartConcat(EveryFacts(p, ms, ps), TypedefFacts(ms, f, alias), q, FamilyIf(p, q, ms, ps), [], [],
      TypedefFacts(ms, f, alias));
    assert FamilyIf(p, q, ms, ps) + [] == FamilyIf(p, q, ms, ps);
    assert [] + TypedefFacts(ms, f, alias) == TypedefFacts(ms, f, alias);
  }

  lemma RawPart(ms: seq<Method>, ps: Parameters, q: Pass)
    requires MixinPass(q)
    ensures Part(RawApiFacts(ms, ps), q,
                 FamilyIf(GenericMixins, q, ms, ps) + (if ps.allowCqApi then FamilyIf(RawMixins, q, ms, ps) else []) +
                 FamilyIf(RawCallbackMixins, q, ms, ps), [])
  {
    hide Part, RoundsFacts, FamilyIf, Nest;
    PassPart(GenericMixins, ms, ps, q);
    PassPart(RawMixins, ms, ps, q);
    PassPart(RawCallbackMixins, ms, ps, q);
    TypedefPart(ms, EveryAsync, "", q);
    var a, b, c := EveryFacts(GenericMixins, ms, ps), if ps.allowCqApi then EveryFacts(RawMixins, ms, ps) else [],
      EveryFacts(RawCallbackMixins, ms, ps);
    var nb := if ps.allowCqApi then FamilyIf(RawMixins, q, ms, ps) else [];
    PartConcat(a, b, q, FamilyIf(GenericMixins, q, ms, ps), nb, [], []);
    var none: seq<Fact> := [];
    assert none + none == none;
    PartConcat(a + b, c, q, FamilyIf(GenericMixins, q, ms, ps) + nb, FamilyIf(RawCallbackMixins, q, ms, ps), [], []);
  }

  function StreamedAliases(ms: seq<Method>): seq<Fact> {
    TypedefFacts(ms, UnaryOnly, "StreamedUnaryService") + TypedefFacts(ms, SplitOnly, "SplitStreamedService") +
    TypedefFacts(ms, UnaryOrSplit, "StreamedService")
  }

  lemma StreamedPart(ms: seq<Method>, ps: Parameters, q: Pass)
    requires MixinPass(q)
    ensures ps.allowSyncServerApi ==>
      Part(StreamedApiFacts(ms, ps), q, FamilyIf(StreamedUnaryMixins, q, ms, ps) + FamilyIf(SplitMixins, q, ms, ps),
        StreamedAliases(ms))
    ensures !ps.allowSyncServerApi ==> Part(StreamedApiFacts(ms, ps), q, [], [])
  {
    hide Part, RoundsFacts, FamilyIf, TypedefFacts;
    ApiPart(StreamedUnaryMixins, ms, ps, UnaryOnly, "StreamedUnaryService", q);
    ApiPart(SplitMixins, ms, ps, SplitOnly, "SplitStreamedService", q);
    TypedefPart(ms, UnaryOrSplit, "StreamedService", q);
    var nu, ns := FamilyIf(StreamedUnaryMixins, q, ms, ps), FamilyIf(SplitMixins, q, ms, ps);
    var au, sp, ab := TypedefFacts(ms, UnaryOnly, "StreamedUnaryService"),
      TypedefFacts(ms, SplitOnly, "SplitStreamedService"),
      TypedefFacts(ms, UnaryOrSplit, "StreamedService");
    var u, s := EveryFacts(StreamedUnaryMixins, ms, ps) + au, EveryFacts(SplitMixins, ms, ps) + sp;
    PartConcat(u, s, q, nu, ns, au, sp);
    PartConcat(u + s, ab, q, nu + ns, [], au + sp, ab);
    assert nu + ns + [] == nu + ns;
  }

  // Neither mixins nor typedefs.
  lemma {:induction false} EmptyPart(fs: seq<Fact>, q: Pass)
    requires forall f :: f in fs ==> !f.Alias? && !(f.ClassBody? && f.head == MixinClass)
    ensures Part(fs, q, [], [])
  {
    if fs != [] {
      EmptyPart(fs[..|fs| - 1], q);
      assert fs[|fs| - 1] in fs;
    }
  }

  lemma LeadingPart(svc: Service, pkg: string, ps: Parameters, q: Pass)
    ensures Part([FullName([S(pkg), S(svc.name)])] + ClientSideFacts(svc.methods, ps), q, [], [])
    ensures Part(Closed(ServiceScope(), ServiceMembers(svc.methods, ps)), q, [], [])
  {
    hide Part, InterfaceMembers, StubMembersFacts, ServiceMembers;
    FixedSigs();
    EmptyPart([FullName([S(pkg), S(svc.name)])] + ClientSideFacts(svc.methods, ps), q);
    EmptyPart(Closed(ServiceScope(), ServiceMembers(svc.methods, ps)), q);
  }

  function AsyncAliases(ms: seq<Method>, ps: Parameters): seq<Fact> {
    if ps.allowCqApi then TypedefFacts(ms, EveryAsync, "AsyncService") else []
  }

  lemma AsyncPart(ms: seq<Method>, ps: Parameters, q: Pass)
    requires MixinPass(q)
    ensures Part(AsyncApiFacts(ms, ps), q,
            if ps.allowCqApi then FamilyIf(AsyncMixins, q, ms, ps) else [], AsyncAliases(ms, ps))
  {
    hide Part, RoundsFacts, FamilyIf, TypedefFacts;
    ApiPart(AsyncMixins, ms, ps, EveryAsync, "AsyncService", q);
    TypedefPart(ms, EveryAsync, "AsyncService", q);
  }

  // The mixins of a family over all parts of the class.
  function Gathered(ms: seq<Method>, ps: Parameters, q: Pass): seq<Fact> {
    (if ps.allowCqApi then FamilyIf(AsyncMixins, q, ms, ps) else []) + FamilyIf(CallbackMixins, q, ms, ps) +
    (FamilyIf(GenericMixins, q, ms, ps) + (if ps.allowCqApi then FamilyIf(RawMixins, q, ms, ps) else []) +
     FamilyIf(RawCallbackMixins, q, ms, ps)) +
    (if ps.allowSyncServerApi then FamilyIf(StreamedUnaryMixins, q, ms, ps) + FamilyIf(SplitMixins, q, ms, ps) else [])
  }

  // Everything in a service's class.
  lemma WholePart(svc: Service, pkg: string, ps: Parameters, q: Pass)
    requires MixinPass(q)
    ensures var ms := svc.methods;
      Part(ServiceFacts(svc, pkg, ps), q, Gathered(ms, ps, q),
           AsyncAliases(ms, ps) + TypedefFacts(ms, EveryCallback, "CallbackService") +
           (if ps.allowSyncServerApi then StreamedAliases(ms) else []))
  {
    hide Part, ClientSideFacts, ServiceMembers, AsyncApiFacts, RawApiFacts, StreamedApiFacts, RoundsFacts, FamilyIf,
      TypedefFacts, StreamedAliases, AsyncAliases;
    var ms := svc.methods;
    LeadingPart(svc, pkg, ps, q);
    AsyncPart(ms, ps, q);
    ApiPart(CallbackMixins, ms, ps, EveryCallback, "CallbackService", q);
    RawPart(ms, ps, q);
    StreamedPart(ms, ps, q);
    var c, v := [FullName([S(pkg), S(svc.name)])] + ClientSideFacts(ms, ps),
      Closed(ServiceScope(), ServiceMembers(ms, ps));
    var na := if ps.allowCqApi then FamilyIf(AsyncMixins, q, ms, ps) else [];
    var nr := FamilyIf(GenericMixins, q, ms, ps) + (if ps.allowCqApi then FamilyIf(RawMixins, q, ms, ps) else []) +
      FamilyIf(RawCallbackMixins, q, ms, ps);
    var nst := if ps.allowSyncServerApi
      then FamilyIf(StreamedUnaryMixins, q, ms, ps) + FamilyIf(SplitMixins, q, ms, ps) else [];
    var ac := TypedefFacts(ms, EveryCallback, "CallbackService");
    var ast := if ps.allowSyncServerApi then StreamedAliases(ms) else [];
    PartConcat(v, AsyncApiFacts(ms, ps), q, [], na, [], AsyncAliases(ms, ps));
    PartConcat(v + AsyncApiFacts(ms, ps), CallbackApiFacts(ms, ps), q, [] + na, FamilyIf(CallbackMixins, q, ms, ps),
      [] + AsyncAliases(ms, ps), ac);
    PartConcat(v + AsyncApiFacts(ms, ps) + CallbackApiFacts(ms, ps), RawApiFacts(ms, ps), q,
               [] + na + FamilyIf(CallbackMixins, q, ms, ps), nr, [] + AsyncAliases(ms, ps) + ac, []);
    PartConcat(v + AsyncApiFacts(ms, ps) + CallbackApiFacts(ms, ps) + RawApiFacts(ms, ps), StreamedApiFacts(ms, ps), q,
               [] + na + FamilyIf(CallbackMixins, q, ms, ps) + nr, nst, [] + AsyncAliases(ms, ps) + ac + [], ast);
    PartConcat(c, ServerSideFacts(ms, ps), q, [], [] + na + FamilyIf(CallbackMixins, q, ms, ps) + nr + nst, [],
      [] + AsyncAliases(ms, ps) + ac + [] + ast);
    assert [] + ([] + na + FamilyIf(CallbackMixins, q, ms, ps) + nr + nst) ==
      na + FamilyIf(CallbackMixins, q, ms, ps) + nr + nst;
    assert [] + ([] + AsyncAliases(ms, ps) + ac + [] + ast) == AsyncAliases(ms, ps) + ac + ast;
  }

  // A family is generated under the options that ask for it.
  predicate Generated(pass: Pass, ps: Parameters) {
    (pass == AsyncMixins || pass == RawMixins ==> ps.allowCqApi) && Enabled(pass, ps)
  }

  lemma OneFamily(ms: seq<Method>, ps: Parameters, q: Pass)
    requires MixinPass(q)
    ensures Gathered(ms, ps, q) == if Generated(q, ps) then EveryFacts(q, ms, ps) else []
  {
    hide RoundsFacts;
    var x := EveryFacts(q, ms, ps);
    var none: seq<Fact> := [];
    assert x + none == x && none + x == x && none + none == none;
    var a := if ps.allowCqApi then FamilyIf(AsyncMixins, q, ms, ps) else [];
    var b := FamilyIf(CallbackMixins, q, ms, ps);
    var c := FamilyIf(GenericMixins, q, ms, ps);
    var d := if ps.allowCqApi then FamilyIf(RawMixins, q, ms, ps) else [];
    var e := FamilyIf(RawCallbackMixins, q, ms, ps);
    var f := if ps.allowSyncServerApi then FamilyIf(StreamedUnaryMixins, q, ms, ps) + FamilyIf(SplitMixins, q, ms, ps)
      else [];
    assert Gathered(ms, ps, q) == a + b + (c + d + e) + f;
    match q
    case AsyncMixins => assert b == none && c == none && d == none && e == none && f == none;
    case CallbackMixins => assert a == none && c == none && d == none && e == none && f == none;
    case GenericMixins => assert a == none && b == none && d == none && e == none && f == none;
    case RawMixins => assert a == none && b == none && c == none && e == none && f == none;
    case RawCallbackMixins => assert a == none && b == none && c == none && d == none && f == none;
    case StreamedUnaryMixins => assert a == none && b == none && c == none && d == none && e == none;
    case SplitMixins => assert a == none && b == none && c == none && d == none && e == none;
  }

  // The mixins of one family, all of them.
  lemma FamilyIs(svc: Service, pkg: string, ps: Parameters, pass: Pass)
    requires MixinPass(pass)
    ensures Mixins(ClassOf(svc, pkg, ps), pass) == if Generated(pass, ps) then EveryFacts(pass, svc.methods, ps) else []
  {
    hide ClassOf, ServiceFacts, Mixins, RoundsFacts, Generated, Gathered, Select, MixinPass, AsyncAliases,
      TypedefFacts, StreamedAliases;
    ServiceClassIs(svc, pkg, ps);
    WholePart(svc, pkg, ps, pass);
    OneFamily(svc.methods, ps, pass);
  }

  // Each family has one mixin class for each matching method, in the order of
  // the methods, and none when its API is off.
  lemma OneMixinPerMethod(svc: Service, pkg: string, ps: Parameters, pass: Pass)
    requires MixinPass(pass)
    ensures MixinNames(ClassOf(svc, pkg, ps), pass) ==
            if Generated(pass, ps) then NamesFor(pass, svc.methods, |svc.methods|) else []
  {
    hide ClassOf, Mixins, RoundsFacts, NamesFor, Generated, MixinPass;
    FamilyIs(svc, pkg, ps, pass);
    RoundsNames(pass, svc.methods, ps, |svc.methods|);
  }

  // Place by place: the k-th mixin class of a family is, member for member, the
  // one for the k-th method the family has mixins for. Its index, its handler,
  // its override and every type in its functions are that method's.
  lemma MixinsFitInOrder(svc: Service, pkg: string, ps: Parameters, pass: Pass)
    requires MixinPass(pass)
    ensures var ms, cs := svc.methods, Mixins(ClassOf(svc, pkg, ps), pass);
      if Generated(pass, ps) then FitInOrder(cs, Matching(pass, ms, |ms|), pass, ms, ps) else cs == []
  {
    hide ClassOf, Mixins, RoundsFacts, MixinPass, Matching, FitInOrder;
    FamilyIs(svc, pkg, ps, pass);
    if Generated(pass, ps) {
      RoundsFitInOrder(pass, svc.methods, ps, |svc.methods|);
    }
  }

  // And there are no other mixin classes: each stands at some place of one of
  // the generated families.
  lemma EveryMixinHasItsPlace(svc: Service, pkg: string, ps: Parameters, c: Fact) returns (pass: Pass, k: nat)
    requires c in ClassOf(svc, pkg, ps) && c.ClassBody? && c.head == MixinClass
    ensures MixinPass(pass) && Generated(pass, ps)
    ensures var ms, cs := svc.methods, Mixins(ClassOf(svc, pkg, ps), pass);
      var indices := Matching(pass, ms, |ms|);
      k < |cs| == |indices| && cs[k] == c && FitsAt(c, indices[k], pass, ms, ps)
  {
    hide ClassOf, Mixins, PassPrefix, MixinPass, MixinMembers, Generated, Matching, FitsAt;
    EveryMixinFitsItsMethod(svc, pkg, ps);
    var p, i :| 0 <= i < |svc.methods| && Enabled(p, ps) && IsMixinFor(c, p, svc.methods[i], i, ps);
    MixinsHave(ClassOf(svc, pkg, ps), p, c);
    MixinsFitInOrder(svc, pkg, ps, p);
    pass := p;
    k :| k < |Mixins(ClassOf(svc, pkg, ps), p)| && Mixins(ClassOf(svc, pkg, ps), p)[k] == c;
  }

  lemma AllAliases(svc: Service, pkg: string, ps: Parameters)
    ensures Select(Aliases, ClassOf(svc, pkg, ps)) ==
            AsyncAliases(svc.methods, ps) + TypedefFacts(svc.methods, EveryCallback, "CallbackService") +
            (if ps.allowSyncServerApi then StreamedAliases(svc.methods) else [])
  {
    hide ClassOf, ServiceFacts, Mixins, Gathered, Select, AsyncAliases, TypedefFacts, StreamedAliases;
    ServiceClassIs(svc, pkg, ps);
    WholePart(svc, pkg, ps, AsyncMixins);
  }

  // The typedefs of a service's class, read as nested template applications:
  // each applies exactly the mixins of its family that were declared, in their
  // order, and StreamedService those of both streamed families in the order of
  // the methods.
  lemma TypedefsNestDeclaredMixins(svc: Service, pkg: string, ps: Parameters)
    ensures var fs := ClassOf(svc, pkg, ps);
      Select(Aliases, fs) ==
        (if ps.allowCqApi then [Alias("AsyncService", Nest(MixinNames(fs, AsyncMixins)))] else []) +
        [Alias("CallbackService", Nest(MixinNames(fs, CallbackMixins)))] +
        (if ps.allowSyncServerApi then
           [Alias("StreamedUnaryService", Nest(MixinNames(fs, StreamedUnaryMixins)))] +
           [Alias("SplitStreamedService", Nest(MixinNames(fs, SplitMixins)))] +
           [Alias("StreamedService", Nest(StreamedNames(svc.methods, |svc.methods|)))]
         else [])
  {
    hide ClassOf, ServiceFacts, MixinNames, NamesFor, Nest, MixinsUpTo, StreamedNames, Select;
    AllAliases(svc, pkg, ps);
    FiltersPickMixins(svc.methods, |svc.methods|);
    OneMixinPerMethod(svc, pkg, ps, AsyncMixins);
    OneMixinPerMethod(svc, pkg, ps, CallbackMixins);
    OneMixinPerMethod(svc, pkg, ps, StreamedUnaryMixins);
    OneMixinPerMethod(svc, pkg, ps, SplitMixins);
  }

  // What StreamedService nests are mixins of the two streamed families.
  lemma {:induction false} StreamedNamesAreDeclared(ms: seq<Method>, n: nat, name: seq<Ref>)
    requires n <= |ms|
    ensures name in StreamedNames(ms, n) <==>
            name in NamesFor(StreamedUnaryMixins, ms, n) || name in NamesFor(SplitMixins, ms, n)
  {
    hide NameFor;
    if n > 0 {
      StreamedNamesAreDeclared(ms, n - 1, name);
    }
  }
}
