// What the reader finds in a whole header service: the passes over the methods,
// the service typedefs and the class around them.
module HeaderFacts {
  import opened Schema
  import opened Emit
  import opened Structure
  import opened ClientHeader
  import opened ServerHeader
  import opened HeaderService
  import opened ClientFacts
  import opened ServerFacts

  // ---- Passes ----

  // The passes that declare something; the others print pieces of a typedef.
  predicate Declaring(pass: Pass) { !pass.Openers? && !pass.Closers? }

  function RoundFacts(pass: Pass, m: Method, i: nat, ps: Parameters): seq<Fact>
    requires Declaring(pass)
  {
    match pass
    case InterfacePublic => InterfacePublicFacts(m, ps)
    case CallbackInterfaces => CallbackInterfaceFacts(m)
    case InterfacePrivate => InterfacePrivateFacts(m, ps)
    case StubPublic => StubPublicFacts(m, ps)
    case Callbacks => CallbackStubFacts(m)
    case StubPrivate => StubPrivateFacts(m, ps)
    case StubMembers => StubDataFacts(m)
    case ServiceMethods => ServiceSyncFacts(m, ps)
    case AsyncMixins => AsyncMixinFacts(m, i, ps)
    case CallbackMixins => CallbackMixinFacts(m, i, ps)
    case GenericMixins => GenericMixinFacts(m, i, ps)
    case RawMixins => RawMixinFacts(m, i, ps)
    case RawCallbackMixins => RawCallbackMixinFacts(m, i, ps)
    case StreamedUnaryMixins => StreamedUnaryFacts(m, i)
    case SplitMixins => SplitFacts(m, i)
  }

  function RoundsFacts(pass: Pass, ms: seq<Method>, ps: Parameters, n: nat): seq<Fact>
    requires Declaring(pass) && n <= |ms|
  {
    if n == 0 then [] else RoundsFacts(pass, ms, ps, n - 1) + RoundFacts(pass, ms[n - 1], n - 1, ps)
  }

  function EveryFacts(pass: Pass, ms: seq<Method>, ps: Parameters): seq<Fact>
    requires Declaring(pass)
  {
    RoundsFacts(pass, ms, ps, |ms|)
  }

  lemma RoundRead(pass: Pass, o: seq<Item>, ind: nat, m: Method, i: nat, ps: Parameters)
    requires Ready(After(o)) && Declaring(pass)
    ensures After(Round(pass, o, ind, m, i, ps)) == Plus(After(o), RoundFacts(pass, m, i, ps))
  {
    hide After, PutComments, InterfaceOutput, CallbackInterfaceOutput, StubOutput, CallbackStubOutput, StubDataOutput,
      ServiceSyncOutput, AsyncMixin, CallbackMixin, GenericMixin, RawMixin, RawCallbackMixin, StreamedUnaryMixin,
      SplitStreamingMixin, InterfacePublicFacts, CallbackInterfaceFacts, InterfacePrivateFacts, StubPublicFacts,
      CallbackStubFacts, StubPrivateFacts, StubDataFacts, ServiceSyncFacts, AsyncMixinFacts, CallbackMixinFacts,
      GenericMixinFacts, RawMixinFacts, RawCallbackMixinFacts, StreamedUnaryFacts, SplitFacts;
    match pass
    case InterfacePublic =>
      AfterComments(o, ind, m.leading);
      var o1 := PutComments(o, ind, m.leading);
      InterfacePublicRead(o1, ind, m, ps);
      AfterComments(InterfaceOutput(o1, ind, m, ps, true), ind, m.trailing);
    case CallbackInterfaces =>
      AfterComments(o, ind, m.leading);
      var o1 := PutComments(o, ind, m.leading);
      CallbackInterfaceRead(o1, ind, m);
      AfterComments(CallbackInterfaceOutput(o1, ind, m), ind, m.trailing);
    case InterfacePrivate => InterfacePrivateRead(o, ind, m, ps);
    case StubPublic => StubPublicRead(o, ind, m, ps);
    case Callbacks => CallbackStubRead(o, ind, m);
    case StubPrivate => StubPrivateRead(o, ind, m, ps);
    case StubMembers => StubDataRead(o, ind, m);
    case ServiceMethods => ServiceSyncRead(o, ind, m, ps);
    case AsyncMixins => AsyncMixinRead(o, ind, m, i, ps);
    case CallbackMixins => CallbackMixinRead(o, ind, m, i, ps);
    case GenericMixins => GenericMixinRead(o, ind, m, i, ps);
    case RawMixins => RawMixinRead(o, ind, m, i, ps);
    case RawCallbackMixins => RawCallbackMixinRead(o, ind, m, i, ps);
    case StreamedUnaryMixins => StreamedUnaryRead(o, ind, m, i);
    case SplitMixins => SplitRead(o, ind, m, i);
  }

  lemma {:induction false} RoundsRead(pass: Pass, o: seq<Item>, ind: nat, ms: seq<Method>, ps: Parameters, n: nat)
    requires Ready(After(o)) && Declaring(pass) && n <= |ms|
    ensures After(Rounds(pass, o, ind, ms, ps, n)) == Plus(After(o), RoundsFacts(pass, ms, ps, n))
  {
    hide After, Round, RoundFacts;
    if n == 0 {
      PlusNothing(After(o));
    } else {
      RoundsRead(pass, o, ind, ms, ps, n - 1);
      RoundRead(pass, Rounds(pass, o, ind, ms, ps, n - 1), ind, ms[n - 1], n - 1, ps);
      PlusPlus(After(o), RoundsFacts(pass, ms, ps, n - 1), RoundFacts(pass, ms[n - 1], n - 1, ps));
    }
  }

  // A pass inside a scope in which `before` has been found already.
  lemma PassRead(pass: Pass, o: seq<Item>, ind: nat, ms: seq<Method>, ps: Parameters, t: State, before: seq<Fact>)
    requires Ready(t) && After(o) == Plus(t, before) && Declaring(pass)
    ensures After(Every(pass, o, ind, ms, ps)) == Plus(t, before + EveryFacts(pass, ms, ps))
  {
    hide After, Rounds, RoundsFacts;
    RoundsRead(pass, o, ind, ms, ps, |ms|);
    PlusPlus(t, before, EveryFacts(pass, ms, ps));
  }

  // ---- Typedefs ----

  // names[0]<names[1]<...Service > >
  function Nest(names: seq<seq<Ref>>): Nested { if names == [] then Base else Apply(names[0], Nest(names[1..])) }

  function MixinsOf(m: Method, f: Filter): seq<seq<Ref>> {
    match f
    case EveryAsync => [[S("WithAsyncMethod_"), S(m.name)]]
    case EveryCallback => [[S("WithCallbackMethod_"), S(m.name)]]
    case UnaryOnly => if m.NoStreaming() then [[S("WithStreamedUnaryMethod_"), S(m.name)]] else []
    case SplitOnly => if m.ServerOnlyStreaming() then [[S("WithSplitStreamingMethod_"), S(m.name)]] else []
    case UnaryOrSplit =>
      if m.ServerOnlyStreaming() then [[S("WithSplitStreamingMethod_"), S(m.name)]]
      else if m.NoStreaming() then [[S("WithStreamedUnaryMethod_"), S(m.name)]] else []
  }

  function MixinsUpTo(ms: seq<Method>, f: Filter, n: nat): seq<seq<Ref>>
    requires n <= |ms|
  {
    if n == 0 then [] else MixinsUpTo(ms, f, n - 1) + MixinsOf(ms[n - 1], f)
  }

  lemma OneOpenerRead(o: seq<Item>, ind: nat, prefix: string, m: Method, mixins: seq<seq<Ref>>)
    requires After(o).Scanning? && After(o).mode == Opening(mixins)
    ensures After(Put(o, ind, OpenerForm(prefix), NameEnv(m))) ==
            After(o).(mode := Opening(mixins + [[S(prefix), S(m.name)]]))
  {
    hide After, Put;
    AfterPut(o, ind, OpenerForm(prefix), NameEnv(m));
    assert RRefs([S(prefix), V(VMethodName)], NameEnv(m)) == [S(prefix), S(m.name)];
  }

  lemma OpenerRead(o: seq<Item>, ind: nat, m: Method, f: Filter, mixins: seq<seq<Ref>>)
    requires After(o).Scanning? && After(o).mode == Opening(mixins)
    ensures After(PutOpener(o, ind, m, f)) == After(o).(mode := Opening(mixins + MixinsOf(m, f)))
  {
    hide After, Put, OpenerForm, NameEnv;
    assert mixins + [] == mixins;
    match f
    case EveryAsync => OneOpenerRead(o, ind, "WithAsyncMethod_", m, mixins);
    case EveryCallback => OneOpenerRead(o, ind, "WithCallbackMethod_", m, mixins);
    case UnaryOnly => OneOpenerRead(o, ind, "WithStreamedUnaryMethod_", m, mixins);
    case SplitOnly => OneOpenerRead(o, ind, "WithSplitStreamingMethod_", m, mixins);
    case UnaryOrSplit =>
      OneOpenerRead(o, ind, "WithStreamedUnaryMethod_", m, mixins);
      OneOpenerRead(o, ind, "WithSplitStreamingMethod_", m, mixins);
  }

  lemma {:induction false} OpenersRead(o: seq<Item>, ind: nat, ms: seq<Method>, ps: Parameters, f: Filter, n: nat)
    requires After(o).Scanning? && After(o).mode == Opening([]) && n <= |ms|
    ensures After(Rounds(Openers(f), o, ind, ms, ps, n)) == After(o).(mode := Opening(MixinsUpTo(ms, f, n)))
  {
    hide After, PutOpener, MixinsOf;
    if n > 0 {
      OpenersRead(o, ind, ms, ps, f, n - 1);
      OpenerRead(Rounds(Openers(f), o, ind, ms, ps, n - 1), ind, ms[n - 1], f, MixinsUpTo(ms, f, n - 1));
    }
  }

  // How many closers the first n rounds print.
  function ClosersUpTo(ms: seq<Method>, f: Filter, n: nat): nat
    requires n <= |ms|
  {
    if n == 0 then 0 else ClosersUpTo(ms, f, n - 1) + if PrintsCloser(ms[n - 1], f) then 1 else 0
  }

  lemma {:induction false} OneCloserPerOpener(ms: seq<Method>, f: Filter, n: nat)
    requires n <= |ms|
    ensures ClosersUpTo(ms, f, n) == |MixinsUpTo(ms, f, n)|
  {
    if n > 0 {
      OneCloserPerOpener(ms, f, n - 1);
    }
  }

  // Closers close from the end: c of them leave the last c names nested.
  function ClosingAfter(all: seq<seq<Ref>>, c: nat): Mode
    requires c <= |all|
  {
    Closing(all[..|all| - c], Nest(all[|all| - c..]))
  }

  lemma CloserRead(o: seq<Item>, ind: nat, all: seq<seq<Ref>>, c: nat)
    requires 0 < c <= |all| && After(o).Scanning? && After(o).mode == ClosingAfter(all, c - 1)
    ensures After(Put(o, ind, MixinClose, map[])) == After(o).(mode := ClosingAfter(all, c))
  {
    hide After, Put;
    AfterPut(o, ind, MixinClose, map[]);
    assert all[..|all| - (c - 1)][..|all| - c] == all[..|all| - c];
    assert all[|all| - c..][1..] == all[|all| - (c - 1)..];
  }

  lemma {:induction false} ClosersRead(o: seq<Item>, ind: nat, ms: seq<Method>, ps: Parameters, f: Filter,
      all: seq<seq<Ref>>, n: nat)
    requires After(o).Scanning? && After(o).mode == ClosingAfter(all, 0) && n <= |ms| && ClosersUpTo(ms, f, n) <= |all|
    ensures After(Rounds(Closers(f), o, ind, ms, ps, n)) == After(o).(mode := ClosingAfter(all, ClosersUpTo(ms, f, n)))
  {
    hide After, Put, PrintsCloser, ClosingAfter;
    if n > 0 {
      ClosersRead(o, ind, ms, ps, f, all, n - 1);
      if PrintsCloser(ms[n - 1], f) {
        CloserRead(Rounds(Closers(f), o, ind, ms, ps, n - 1), ind, all, ClosersUpTo(ms, f, n));
      }
    }
  }

  lemma ClosingEnds(all: seq<seq<Ref>>)
    ensures ClosingAfter(all, 0) == Closing(all, Base) && ClosingAfter(all, |all|) == Closing([], Nest(all))
  {
    assert all[..|all|] == all && all[|all|..] == [] && all[..0] == [] && all[0..] == all;
  }

  lemma TypedefRead(o: seq<Item>, ind: nat, ms: seq<Method>, ps: Parameters, f: Filter, alias: string)
    requires Ready(After(o))
    ensures After(TypedefOutput(o, ind, ms, ps, f, alias)) ==
            Plus(After(o), [Alias(alias, Nest(MixinsUpTo(ms, f, |ms|)))])
  {
    hide After, Put, Rounds, MixinsUpTo, ClosersUpTo, ClosingAfter, Nest;
    var all := MixinsUpTo(ms, f, |ms|);
    OneCloserPerOpener(ms, f, |ms|);
    AfterPut(o, ind, TypedefBegin, map[]);
    var o1 := Put(o, ind, TypedefBegin, map[]);
    OpenersRead(o1, ind, ms, ps, f, |ms|);
    var o2 := Every(Openers(f), o1, ind, ms, ps);
    AfterPut(o2, ind, TypedefBase, map[]);
    var o3 := Put(o2, ind, TypedefBase, map[]);
    ClosingEnds(all);
    ClosersRead(o3, ind, ms, ps, f, all, |ms|);
    AfterPut(Every(Closers(f), o3, ind, ms, ps), ind, TypedefEnd(alias), map[]);
  }

  // ---- Classes ----

  // The access labels, as facts of the class they stand in.
  function Publicly(): seq<Fact> { [Said(PublicLabel, [])] }

  function Privately(): seq<Fact> { [Said(PrivateLabel, [])] }

  function InterfaceScope(): Scope { ClassScope(PlainClass, [S("StubInterface")], []) }

  function AsyncInterfaceScope(): Scope { ClassScope(PlainClass, [S("async_interface")], []) }

  function StubScope(): Scope { ClassScope(StubClass, [S("Stub")], [S("StubInterface")]) }

  function AsyncScope(): Scope { ClassScope(AsyncClass, [S("async")], []) }

  function ServiceScope(): Scope { ClassScope(ServiceClass, [S("Service")], [S("::grpc::Service")]) }

  lemma FixedRefs(a: Ref)
    requires a.S?
    ensures RRefs([a], map[]) == [a] && RRefs([], map[]) == []
  {
  }

  lemma ClassHeadRead(o: seq<Item>, ind: nat, head: ClassHead, name: seq<Ref>, base: seq<Ref>, env: Env)
    requires Ready(After(o)) && head != AsyncClass
    ensures After(Put(o, ind, Class(head, name, base), env)) ==
            Enter(After(o), ClassScope(head, RRefs(name, env), RRefs(base, env)))
  {
    hide After, Put, RRefs;
    AfterPut(o, ind, Class(head, name, base), env);
  }

  lemma HeadsRead(o: seq<Item>, ind: nat)
    requires Ready(After(o))
    ensures After(Put(o, ind, StubInterfaceHead(), map[])) == Enter(After(o), InterfaceScope())
    ensures After(Put(o, ind, StubHead(), map[])) == Enter(After(o), StubScope())
    ensures After(Put(o, ind, ServiceHead(), map[])) == Enter(After(o), ServiceScope())
    ensures After(Put(o, ind, Class(PlainClass, [S("async_interface")], []), map[])) ==
            Enter(After(o), AsyncInterfaceScope())
  {
    hide After, Put, RRefs, Enter;
    FixedRefs(S("StubInterface"));
    FixedRefs(S("Stub"));
    FixedRefs(S("Service"));
    FixedRefs(S("::grpc::Service"));
    FixedRefs(S("async_interface"));
    ClassHeadRead(o, ind, PlainClass, [S("StubInterface")], [], map[]);
    ClassHeadRead(o, ind, StubClass, [S("Stub")], [S("StubInterface")], map[]);
    ClassHeadRead(o, ind, ServiceClass, [S("Service")], [S("::grpc::Service")], map[]);
    ClassHeadRead(o, ind, PlainClass, [S("async_interface")], [], map[]);
  }

  lemma CallbackInterfacesStartRead(o: seq<Item>, ind: nat)
    requires Ready(After(o))
    ensures After(CallbackInterfacesStart(o, ind)) == Plus(Enter(After(o), AsyncInterfaceScope()), Publicly())
  {
    hide After, Put, PutText, AsyncInterfaceScope;
    HeadsRead(o, ind);
    var o1 := Put(o, ind, Class(PlainClass, [S("async_interface")], []), map[]);
    LabelRead(o1, ind, PublicLabel);
    TextRead(PutText(o1, ind, PublicLabel), ind + 1, AsyncInterfaceDtor);
  }

  lemma CallbackInterfacesEndRead(o: seq<Item>, ind: nat, t: State, fs: seq<Fact>)
    requires Ready(t) && After(o) == Plus(Enter(t, AsyncInterfaceScope()), fs)
    ensures After(CallbackInterfacesEnd(o, ind)) == Plus(t, Closed(AsyncInterfaceScope(), fs))
  {
    hide After, PutText, Closed;
    ClassEndRead(o, ind, t, AsyncInterfaceScope(), fs);
    var o1 := PutText(o, ind, CloseClass);
    TextRead(o1, ind, ExperimentalAsyncTypedef);
    var o2 := PutText(o1, ind, ExperimentalAsyncTypedef);
    TextRead(o2, ind, AsyncAccessor);
    TextRead(PutText(o2, ind, AsyncAccessor), ind, ExperimentalAsyncAccessor);
  }

  lemma CallbackStartRead(o: seq<Item>, ind: nat)
    requires Ready(After(o))
    ensures After(CallbackStart(o, ind)) == Plus(Enter(After(o), AsyncScope()), Publicly())
  {
    hide After, Put, RRefs;
    FixedRefs(S("async"));
    var head := Class(AsyncClass, [S("async")], []);
    AfterPut(o, ind, head, map[]);
    var o1 := Put(o, ind, head, map[]);
    AfterText(o1, ind, AsyncBase);
    LabelRead(PutText(o1, ind, AsyncBase), ind, PublicLabel);
  }

  lemma CallbackEndRead(o: seq<Item>, ind: nat, t: State, fs: seq<Fact>)
    requires Ready(t) && After(o) == Plus(Enter(t, AsyncScope()), fs)
    ensures After(CallbackEnd(o, ind)) == Plus(t, Closed(AsyncScope(), fs + Privately()))
  {
    hide After, PutText, Closed;
    LabelRead(o, ind, PrivateLabel);
    PlusPlus(Enter(t, AsyncScope()), fs, Privately());
    var o1 := PutText(o, ind, PrivateLabel);
    TextRead(o1, ind + 1, FriendStub);
    var o2 := PutText(o1, ind + 1, FriendStub);
    TextRead(o2, ind + 1, AsyncCtor);
    var o3 := PutText(o2, ind + 1, AsyncCtor);
    TextRead(o3, ind + 1, StubAccessor);
    var o4 := PutText(o3, ind + 1, StubAccessor);
    TextRead(o4, ind + 1, StubField);
    var o5 := PutText(o4, ind + 1, StubField);
    ClassEndRead(o5, ind, t, AsyncScope(), fs + Privately());
    TextRead(PutText(o5, ind, CloseClass), ind, StubAsyncAccessor);
  }

  function AsyncInterfaceMembers(ms: seq<Method>, ps: Parameters): seq<Fact> {
    Publicly() + EveryFacts(CallbackInterfaces, ms, ps)
  }

  function AsyncStubMembers(ms: seq<Method>, ps: Parameters): seq<Fact> {
    Publicly() + EveryFacts(Callbacks, ms, ps) + Privately()
  }

  function InterfaceMembers(ms: seq<Method>, ps: Parameters): seq<Fact> {
    EveryFacts(InterfacePublic, ms, ps) + Closed(AsyncInterfaceScope(), AsyncInterfaceMembers(ms, ps)) + Privately() +
    EveryFacts(InterfacePrivate, ms, ps)
  }

  function StubMembersFacts(ms: seq<Method>, ps: Parameters): seq<Fact> {
    DeclFacts(StubCtor(), map[]) + EveryFacts(StubPublic, ms, ps) + Closed(AsyncScope(), AsyncStubMembers(ms, ps)) +
    Privately() + EveryFacts(StubPrivate, ms, ps) + EveryFacts(StubMembers, ms, ps)
  }

  function ServiceMembers(ms: seq<Method>, ps: Parameters): seq<Fact> {
    DeclFacts(ServiceCtor(), map[]) + DeclFacts(ServiceDtor(), map[]) + EveryFacts(ServiceMethods, ms, ps)
  }

  // What has been found so far in a scope, after one more part.
  lemma Then(t: State, before: seq<Fact>, more: seq<Fact>)
    requires t.Scanning?
    ensures Plus(Plus(t, before), more) == Plus(t, before + more)
  {
    PlusPlus(t, before, more);
  }

  lemma InterfaceClassRead(o: seq<Item>, ind: nat, ms: seq<Method>, ps: Parameters)
    requires Ready(After(o))
    ensures After(InterfaceClass(o, ind, ms, ps)) == Plus(After(o), Closed(InterfaceScope(), InterfaceMembers(ms, ps)))
  {
    hide After, Put, PutText, Every, EveryFacts, Closed, CallbackInterfacesStart, CallbackInterfacesEnd, InterfaceScope,
      AsyncInterfaceScope, StubInterfaceHead;
    HeadsRead(o, ind);
    var t := Enter(After(o), InterfaceScope());
    var o0 := Put(o, ind, StubInterfaceHead(), map[]);
    TextRead(o0, ind + 1, StubInterfaceDtor);
    var o1 := PutText(o0, ind + 1, StubInterfaceDtor);
    PlusNothing(t);
    PassRead(InterfacePublic, o1, ind + 1, ms, ps, t, []);
    var f1 := [] + EveryFacts(InterfacePublic, ms, ps);
    var o2 := Every(InterfacePublic, o1, ind + 1, ms, ps);
    CallbackInterfacesStartRead(o2, ind + 1);
    var o3 := CallbackInterfacesStart(o2, ind + 1);
    PassRead(CallbackInterfaces, o3, ind + 2, ms, ps, Enter(Plus(t, f1), AsyncInterfaceScope()), Publicly());
    var f2 := AsyncInterfaceMembers(ms, ps);
    var o4 := Every(CallbackInterfaces, o3, ind + 2, ms, ps);
    CallbackInterfacesEndRead(o4, ind + 1, Plus(t, f1), f2);
    Then(t, f1, Closed(AsyncInterfaceScope(), f2));
    var o5 := CallbackInterfacesEnd(o4, ind + 1);
    LabelRead(o5, ind, PrivateLabel);
    Then(t, f1 + Closed(AsyncInterfaceScope(), f2), Privately());
    var o6 := PutText(o5, ind, PrivateLabel);
    PassRead(InterfacePrivate, o6, ind + 1, ms, ps, t, f1 + Closed(AsyncInterfaceScope(), f2) + Privately());
    var o7 := Every(InterfacePrivate, o6, ind + 1, ms, ps);
    assert f1 == EveryFacts(InterfacePublic, ms, ps);
    InterfaceIsClass();
    ClassEndRead(o7, ind, After(o), InterfaceScope(), InterfaceMembers(ms, ps));
  }

  lemma InterfaceIsClass()
    ensures InterfaceScope().ClassScope? && StubScope().ClassScope? && ServiceScope().ClassScope?
  {
  }

  lemma StubClassRead(o: seq<Item>, ind: nat, ms: seq<Method>, ps: Parameters)
    requires Ready(After(o))
    ensures After(StubClassOutput(o, ind, ms, ps)) ==
            Plus(After(o), Closed(StubScope(), StubMembersFacts(ms, ps)) + DeclFacts(NewStub(), map[]))
  {
    hide After, Put, PutText, Every, EveryFacts, Closed, DeclFacts, CallbackStart, CallbackEnd, StubPrivates, StubScope,
      AsyncScope, StubHead;
    HeadsRead(o, ind);
    var t := Enter(After(o), StubScope());
    var o0 := Put(o, ind, StubHead(), map[]);
    DeclRead(o0, ind + 1, StubCtor(), map[]);
    var ctor := DeclFacts(StubCtor(), map[]);
    var o1 := Put(o0, ind + 1, StubCtor(), map[]);
    PassRead(StubPublic, o1, ind + 1, ms, ps, t, ctor);
    var f1 := ctor + EveryFacts(StubPublic, ms, ps);
    var o2 := Every(StubPublic, o1, ind + 1, ms, ps);
    CallbackStartRead(o2, ind + 1);
    var o3 := CallbackStart(o2, ind + 1);
    PassRead(Callbacks, o3, ind + 2, ms, ps, Enter(Plus(t, f1), AsyncScope()), Publicly());
    var o4 := Every(Callbacks, o3, ind + 2, ms, ps);
    CallbackEndRead(o4, ind + 1, Plus(t, f1), Publicly() + EveryFacts(Callbacks, ms, ps));
    var f2 := AsyncStubMembers(ms, ps);
    Then(t, f1, Closed(AsyncScope(), f2));
    var o5 := CallbackEnd(o4, ind + 1);
    StubPrivatesRead(o5, ind, ms, ps, t, f1 + Closed(AsyncScope(), f2));
    var o6 := StubPrivates(o5, ind, ms, ps);
    InterfaceIsClass();
    ClassEndRead(o6, ind, After(o), StubScope(), StubMembersFacts(ms, ps));
    NewStubRead(PutText(o6, ind, CloseClass), ind, After(o), Closed(StubScope(), StubMembersFacts(ms, ps)));
  }

  lemma StubPrivatesRead(o: seq<Item>, ind: nat, ms: seq<Method>, ps: Parameters, t: State, before: seq<Fact>)
    requires Ready(t) && After(o) == Plus(t, before)
    ensures After(StubPrivates(o, ind, ms, ps)) ==
            Plus(t, before + Privately() + EveryFacts(StubPrivate, ms, ps) + EveryFacts(StubMembers, ms, ps))
  {
    hide After, PutText, Every, EveryFacts;
    LabelRead(o, ind, PrivateLabel);
    Then(t, before, Privately());
    var o1 := PutText(o, ind, PrivateLabel);
    TextRead(o1, ind + 1, ChannelField);
    var o2 := PutText(o1, ind + 1, ChannelField);
    TextRead(o2, ind + 1, AsyncStubField);
    var o3 := PutText(o2, ind + 1, AsyncStubField);
    PassRead(StubPrivate, o3, ind + 1, ms, ps, t, before + Privately());
    PassRead(StubMembers, Every(StubPrivate, o3, ind + 1, ms, ps), ind + 1, ms, ps, t,
      before + Privately() + EveryFacts(StubPrivate, ms, ps));
  }

  lemma NewStubRead(o: seq<Item>, ind: nat, t: State, before: seq<Fact>)
    requires Ready(t) && After(o) == Plus(t, before)
    ensures After(PutText(Put(o, ind, NewStub(), map[]), ind, Blank)) == Plus(t, before + DeclFacts(NewStub(), map[]))
  {
    hide After, Put, PutText, DeclFacts;
    DeclRead(o, ind, NewStub(), map[]);
    Then(t, before, DeclFacts(NewStub(), map[]));
    TextRead(Put(o, ind, NewStub(), map[]), ind, Blank);
  }

  lemma ServiceClassRead(o: seq<Item>, ind: nat, ms: seq<Method>, ps: Parameters)
    requires Ready(After(o))
    ensures After(ServiceClassOutput(o, ind, ms, ps)) == Plus(After(o), Closed(ServiceScope(), ServiceMembers(ms, ps)))
  {
    hide After, Put, PutText, Every, EveryFacts, Closed, DeclFacts, ServiceScope, ServiceHead;
    HeadsRead(o, ind);
    var t := Enter(After(o), ServiceScope());
    var o0 := Put(o, ind, ServiceHead(), map[]);
    DeclRead(o0, ind + 1, ServiceCtor(), map[]);
    var o1 := Put(o0, ind + 1, ServiceCtor(), map[]);
    DeclRead(o1, ind + 1, ServiceDtor(), map[]);
    var o2 := Put(o1, ind + 1, ServiceDtor(), map[]);
    Then(t, DeclFacts(ServiceCtor(), map[]), DeclFacts(ServiceDtor(), map[]));
    PassRead(ServiceMethods, o2, ind + 1, ms, ps, t, DeclFacts(ServiceCtor(), map[]) + DeclFacts(ServiceDtor(), map[]));
    InterfaceIsClass();
    ClassEndRead(Every(ServiceMethods, o2, ind + 1, ms, ps), ind, After(o), ServiceScope(), ServiceMembers(ms, ps));
  }

  // ---- The APIs behind the Service class ----

  function TypedefFacts(ms: seq<Method>, f: Filter, alias: string): seq<Fact> {
    [Alias(alias, Nest(MixinsUpTo(ms, f, |ms|)))]
  }

  function AsyncApiFacts(ms: seq<Method>, ps: Parameters): seq<Fact> {
    if ps.allowCqApi then EveryFacts(AsyncMixins, ms, ps) + TypedefFacts(ms, EveryAsync, "AsyncService") else []
  }

  function CallbackApiFacts(ms: seq<Method>, ps: Parameters): seq<Fact> {
    EveryFacts(CallbackMixins, ms, ps) + TypedefFacts(ms, EveryCallback, "CallbackService")
  }

  function RawApiFacts(ms: seq<Method>, ps: Parameters): seq<Fact> {
    EveryFacts(GenericMixins, ms, ps) + (if ps.allowCqApi then EveryFacts(RawMixins, ms, ps) else []) +
    EveryFacts(RawCallbackMixins, ms, ps)
  }

  function StreamedApiFacts(ms: seq<Method>, ps: Parameters): seq<Fact> {
    if ps.allowSyncServerApi then
      EveryFacts(StreamedUnaryMixins, ms, ps) + TypedefFacts(ms, UnaryOnly, "StreamedUnaryService") +
      (EveryFacts(SplitMixins, ms, ps) + TypedefFacts(ms, SplitOnly, "SplitStreamedService")) +
      TypedefFacts(ms, UnaryOrSplit, "StreamedService")
    else []
  }

  // A mixin pass and the typedef behind it.
  lemma MixinsAndTypedefRead(pass: Pass, o: seq<Item>, ind: nat, ms: seq<Method>, ps: Parameters, f: Filter,
      alias: string)
    requires Ready(After(o)) && Declaring(pass)
    ensures After(TypedefOutput(Every(pass, o, ind, ms, ps), ind, ms, ps, f, alias)) ==
            Plus(After(o), EveryFacts(pass, ms, ps) + TypedefFacts(ms, f, alias))
  {
    hide After, Every, EveryFacts, TypedefOutput, TypedefFacts;
    PlusNothing(After(o));
    PassRead(pass, o, ind, ms, ps, After(o), []);
    assert [] + EveryFacts(pass, ms, ps) == EveryFacts(pass, ms, ps);
    TypedefFactsRead(Every(pass, o, ind, ms, ps), ind, ms, ps, f, alias);
    PlusPlus(After(o), EveryFacts(pass, ms, ps), TypedefFacts(ms, f, alias));
  }

  lemma TypedefFactsRead(o: seq<Item>, ind: nat, ms: seq<Method>, ps: Parameters, f: Filter, alias: string)
    requires Ready(After(o))
    ensures After(TypedefOutput(o, ind, ms, ps, f, alias)) == Plus(After(o), TypedefFacts(ms, f, alias))
  {
    TypedefRead(o, ind, ms, ps, f, alias);
  }

  lemma AsyncApiRead(o: seq<Item>, ind: nat, ms: seq<Method>, ps: Parameters)
    requires Ready(After(o))
    ensures After(AsyncApi(o, ind, ms, ps)) == Plus(After(o), AsyncApiFacts(ms, ps))
  {
    hide After, Every, EveryFacts, TypedefOutput, TypedefFacts;
    if ps.allowCqApi {
      MixinsAndTypedefRead(AsyncMixins, o, ind, ms, ps, EveryAsync, "AsyncService");
    } else {
      PlusNothing(After(o));
    }
  }

  lemma CallbackApiRead(o: seq<Item>, ind: nat, ms: seq<Method>, ps: Parameters)
    requires Ready(After(o))
    ensures After(CallbackApi(o, ind, ms, ps)) == Plus(After(o), CallbackApiFacts(ms, ps))
  {
    hide After, PutText, Every, EveryFacts, TypedefOutput, TypedefFacts;
    MixinsAndTypedefRead(CallbackMixins, o, ind, ms, ps, EveryCallback, "CallbackService");
    TextRead(TypedefOutput(Every(CallbackMixins, o, ind, ms, ps), ind, ms, ps, EveryCallback, "CallbackService"), ind,
             ExperimentalCallbackTypedef);
  }

  lemma RawApiRead(o: seq<Item>, ind: nat, ms: seq<Method>, ps: Parameters)
    requires Ready(After(o))
    ensures After(RawApi(o, ind, ms, ps)) == Plus(After(o), RawApiFacts(ms, ps))
  {
    hide After, Every, EveryFacts;
    var t := After(o);
    PlusNothing(t);
    PassRead(GenericMixins, o, ind, ms, ps, t, []);
    var f1 := EveryFacts(GenericMixins, ms, ps);
    assert [] + f1 == f1;
    var o1 := Every(GenericMixins, o, ind, ms, ps);
    if ps.allowCqApi {
      PassRead(RawMixins, o1, ind, ms, ps, t, f1);
      PassRead(RawCallbackMixins, Every(RawMixins, o1, ind, ms, ps), ind, ms, ps, t,
        f1 + EveryFacts(RawMixins, ms, ps));
    } else {
      assert f1 + [] == f1;
      PassRead(RawCallbackMixins, o1, ind, ms, ps, t, f1);
    }
  }

  lemma StreamedApiRead(o: seq<Item>, ind: nat, ms: seq<Method>, ps: Parameters)
    requires Ready(After(o))
    ensures After(StreamedApi(o, ind, ms, ps)) == Plus(After(o), StreamedApiFacts(ms, ps))
  {
    hide After, Every, EveryFacts, TypedefOutput, TypedefFacts;
    if ps.allowSyncServerApi {
      MixinsAndTypedefRead(StreamedUnaryMixins, o, ind, ms, ps, UnaryOnly, "StreamedUnaryService");
      var f1 := EveryFacts(StreamedUnaryMixins, ms, ps) + TypedefFacts(ms, UnaryOnly, "StreamedUnaryService");
      var o1 := TypedefOutput(Every(StreamedUnaryMixins, o, ind, ms, ps), ind, ms, ps, UnaryOnly,
        "StreamedUnaryService");
      MixinsAndTypedefRead(SplitMixins, o1, ind, ms, ps, SplitOnly, "SplitStreamedService");
      var f2 := EveryFacts(SplitMixins, ms, ps) + TypedefFacts(ms, SplitOnly, "SplitStreamedService");
      var o2 := TypedefOutput(Every(SplitMixins, o1, ind, ms, ps), ind, ms, ps, SplitOnly, "SplitStreamedService");
      Then(After(o), f1, f2);
      TypedefFactsRead(o2, ind, ms, ps, UnaryOrSplit, "StreamedService");
      Then(After(o), f1 + f2, TypedefFacts(ms, UnaryOrSplit, "StreamedService"));
    } else {
      PlusNothing(After(o));
    }
  }

  // ---- The whole service ----

  function ServiceHeadKind(svc: Service, ps: Parameters): ClassHead {
    if ps.allowDeprecated && svc.deprecated then DeprecatedFinalClass else FinalClass
  }

  function OuterScope(svc: Service, ps: Parameters): Scope { ClassScope(ServiceHeadKind(svc, ps), [S(svc.name)], []) }

  function ClientSideFacts(ms: seq<Method>, ps: Parameters): seq<Fact> {
    Closed(InterfaceScope(), InterfaceMembers(ms, ps)) +
    (Closed(StubScope(), StubMembersFacts(ms, ps)) + DeclFacts(NewStub(), map[]))
  }

  function ServerSideFacts(ms: seq<Method>, ps: Parameters): seq<Fact> {
    Closed(ServiceScope(), ServiceMembers(ms, ps)) + AsyncApiFacts(ms, ps) + CallbackApiFacts(ms, ps) +
      RawApiFacts(ms, ps) +
    StreamedApiFacts(ms, ps)
  }

  function ServiceFacts(svc: Service, pkg: string, ps: Parameters): seq<Fact> {
    [FullName([S(pkg), S(svc.name)])] + ClientSideFacts(svc.methods, ps) + ServerSideFacts(svc.methods, ps)
  }

  function HeaderServiceFacts(svc: Service, pkg: string, ps: Parameters): seq<Fact> {
    Closed(OuterScope(svc, ps), ServiceFacts(svc, pkg, ps))
  }

  lemma ServiceStartRead(o: seq<Item>, ind: nat, svc: Service, pkg: string, ps: Parameters)
    requires Ready(After(o))
    ensures After(ServiceStart(o, ind, svc, pkg, ps)) ==
            Plus(Enter(After(o), OuterScope(svc, ps)), [FullName([S(pkg), S(svc.name)])])
  {
    hide After, Put, PutComments;
    AfterComments(o, ind, svc.leading);
    var o1 := PutComments(o, ind, svc.leading);
    var env := ServiceEnv(svc, pkg);
    ClassHeadRead(o1, ind, ServiceHeadKind(svc, ps), [V(VService)], [], env);
    assert RRefs([V(VService)], env) == [S(svc.name)] && RRefs([], env) == [];
    AfterPut(Put(o1, ind, ServiceClassHead(svc, ps), env), ind + 1, FullNameForm(), env);
    assert RRefs([V(VPackage), V(VService)], env) == [S(pkg), S(svc.name)];
  }

  lemma ClientSideRead(o: seq<Item>, ind: nat, ms: seq<Method>, ps: Parameters)
    requires Ready(After(o))
    ensures After(ClientSide(o, ind, ms, ps)) == Plus(After(o), ClientSideFacts(ms, ps))
  {
    hide After, InterfaceClass, StubClassOutput, Closed, InterfaceMembers, StubMembersFacts, DeclFacts, InterfaceScope,
      StubScope;
    InterfaceClassRead(o, ind, ms, ps);
    StubClassRead(InterfaceClass(o, ind, ms, ps), ind, ms, ps);
    Then(After(o), Closed(InterfaceScope(), InterfaceMembers(ms, ps)),
         Closed(StubScope(), StubMembersFacts(ms, ps)) + DeclFacts(NewStub(), map[]));
  }

  lemma ServerSideRead(o: seq<Item>, ind: nat, ms: seq<Method>, ps: Parameters)
    requires Ready(After(o))
    ensures After(ServerSide(o, ind, ms, ps)) == Plus(After(o), ServerSideFacts(ms, ps))
  {
    hide After, ServiceClassOutput, AsyncApi, CallbackApi, RawApi, StreamedApi, Closed, ServiceMembers, ServiceScope,
      AsyncApiFacts, CallbackApiFacts, RawApiFacts, StreamedApiFacts;
    var t := After(o);
    ServiceClassRead(o, ind, ms, ps);
    var o1 := ServiceClassOutput(o, ind, ms, ps);
    var f1 := Closed(ServiceScope(), ServiceMembers(ms, ps));
    AsyncApiRead(o1, ind, ms, ps);
    Then(t, f1, AsyncApiFacts(ms, ps));
    var o2 := AsyncApi(o1, ind, ms, ps);
    var f2 := f1 + AsyncApiFacts(ms, ps);
    CallbackApiRead(o2, ind, ms, ps);
    Then(t, f2, CallbackApiFacts(ms, ps));
    var o3 := CallbackApi(o2, ind, ms, ps);
    var f3 := f2 + CallbackApiFacts(ms, ps);
    RawApiRead(o3, ind, ms, ps);
    Then(t, f3, RawApiFacts(ms, ps));
    StreamedApiRead(RawApi(o3, ind, ms, ps), ind, ms, ps);
    Then(t, f3 + RawApiFacts(ms, ps), StreamedApiFacts(ms, ps));
  }

  // Whatever was printed before, a service's header text is one closed class,
  // and the reader is back in the scope it started from.
  lemma HeaderServiceRead(o: seq<Item>, ind: nat, svc: Service, pkg: string, ps: Parameters)
    requires Ready(After(o))
    ensures After(HeaderServiceOutput(o, ind, svc, pkg, ps)) == Plus(After(o), HeaderServiceFacts(svc, pkg, ps))
  {
    hide After, PutText, PutComments, ServiceStart, ClientSide, ServerSide, Closed, ClientSideFacts, ServerSideFacts,
      OuterScope;
    ServiceStartRead(o, ind, svc, pkg, ps);
    var t := Enter(After(o), OuterScope(svc, ps));
    var o1 := ServiceStart(o, ind, svc, pkg, ps);
    var f1 := [FullName([S(pkg), S(svc.name)])];
    ClientSideRead(o1, ind + 1, svc.methods, ps);
    Then(t, f1, ClientSideFacts(svc.methods, ps));
    var o2 := ClientSide(o1, ind + 1, svc.methods, ps);
    ServerSideRead(o2, ind + 1, svc.methods, ps);
    Then(t, f1 + ClientSideFacts(svc.methods, ps), ServerSideFacts(svc.methods, ps));
    var o3 := ServerSide(o2, ind + 1, svc.methods, ps);
    OuterIsClass(svc, ps);
    ClassEndRead(o3, ind, After(o), OuterScope(svc, ps), ServiceFacts(svc, pkg, ps));
    AfterComments(PutText(o3, ind, CloseClass), ind, svc.trailing);
  }

  lemma OuterIsClass(svc: Service, ps: Parameters)
    ensures OuterScope(svc, ps).ClassScope?
  {
  }
}
