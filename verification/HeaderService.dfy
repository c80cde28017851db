// PrintHeaderService and GetHeaderServices: the passes over a service's methods
// in the order the header generator runs them.
module HeaderService {
  import opened Schema
  import opened Emit
  import opened ClientHeader
  import opened ServerHeader
  import opened Decimal

  // Which methods a service typedef is nested over.
  datatype Filter = EveryAsync | EveryCallback | UnaryOnly | SplitOnly | UnaryOrSplit

  // The loops over a service's methods in the header generator.
  datatype Pass =
    | InterfacePublic | CallbackInterfaces | InterfacePrivate
    | StubPublic | Callbacks | StubPrivate | StubMembers
    | ServiceMethods
    | AsyncMixins | CallbackMixins | GenericMixins | RawMixins | RawCallbackMixins | StreamedUnaryMixins | SplitMixins
    | Openers(filter: Filter) | Closers(filter: Filter)

  // ---- Output ----

  // "WithStreamedUnaryMethod_$method_name$<" and its siblings
  function OpenerForm(prefix: string): Form { MixinOpen([S(prefix), V(VMethodName)]) }

  function NameEnv(m: Method): Env { map[VMethodName := m.name] }

  function PutOpener(o: seq<Item>, ind: nat, m: Method, f: Filter): seq<Item> {
    match f
    case EveryAsync => Put(o, ind, OpenerForm("WithAsyncMethod_"), NameEnv(m))
    case EveryCallback => Put(o, ind, OpenerForm("WithCallbackMethod_"), NameEnv(m))
    case UnaryOnly =>
      if m.NoStreaming() then Put(o, ind, OpenerForm("WithStreamedUnaryMethod_"), NameEnv(m)) else o
    case SplitOnly =>
      if m.ServerOnlyStreaming() then Put(o, ind, OpenerForm("WithSplitStreamingMethod_"), NameEnv(m)) else o
    case UnaryOrSplit =>
      var o1 := if m.ServerOnlyStreaming() then Put(o, ind, OpenerForm("WithSplitStreamingMethod_"), NameEnv(m)) else o;
      if m.NoStreaming() then Put(o1, ind, OpenerForm("WithStreamedUnaryMethod_"), NameEnv(m)) else o1
  }

  predicate PrintsCloser(m: Method, f: Filter) {
    match f
    case EveryAsync => true
    case EveryCallback => true
    case UnaryOnly => m.NoStreaming()
    case SplitOnly => m.ServerOnlyStreaming()
    case UnaryOrSplit => m.NoStreaming() || m.ServerOnlyStreaming()
  }

  // What one round of a loop adds, for method number i.
  function Round(pass: Pass, o: seq<Item>, ind: nat, m: Method, i: nat, ps: Parameters): seq<Item> {
    match pass
    case InterfacePublic =>
      PutComments(InterfaceOutput(PutComments(o, ind, m.leading), ind, m, ps, true), ind, m.trailing)
    case CallbackInterfaces =>
      PutComments(CallbackInterfaceOutput(PutComments(o, ind, m.leading), ind, m), ind, m.trailing)
    case InterfacePrivate => InterfaceOutput(o, ind, m, ps, false)
    case StubPublic => StubOutput(o, ind, m, ps, true)
    case Callbacks => CallbackStubOutput(o, ind, m)
    case StubPrivate => StubOutput(o, ind, m, ps, false)
    case StubMembers => StubDataOutput(o, ind, m)
    case ServiceMethods => ServiceSyncOutput(o, ind, m, ps)
    case AsyncMixins => AsyncMixin(o, ind, m, i, ps)
    case CallbackMixins => CallbackMixin(o, ind, m, i, ps)
    case GenericMixins => GenericMixin(o, ind, m, i, ps)
    case RawMixins => RawMixin(o, ind, m, i, ps)
    case RawCallbackMixins => RawCallbackMixin(o, ind, m, i, ps)
    case StreamedUnaryMixins => StreamedUnaryMixin(o, ind, m, i)
    case SplitMixins => SplitStreamingMixin(o, ind, m, i)
    case Openers(f) => PutOpener(o, ind, m, f)
    case Closers(f) => if PrintsCloser(m, f) then Put(o, ind, MixinClose, map[]) else o
  }

  // The first n rounds.
  function Rounds(pass: Pass, o: seq<Item>, ind: nat, ms: seq<Method>, ps: Parameters, n: nat): seq<Item>
    requires n <= |ms|
  {
    if n == 0 then o else Round(pass, Rounds(pass, o, ind, ms, ps, n - 1), ind, ms[n - 1], n - 1, ps)
  }

  function Every(pass: Pass, o: seq<Item>, ind: nat, ms: seq<Method>, ps: Parameters): seq<Item> {
    Rounds(pass, o, ind, ms, ps, |ms|)
  }

  // "typedef A<B<Service > > alias;"
  function TypedefOutput(o: seq<Item>, ind: nat, ms: seq<Method>, ps: Parameters, f: Filter, alias: string): seq<Item> {
    var o1 := Every(Openers(f), Put(o, ind, TypedefBegin, map[]), ind, ms, ps);
    Put(Every(Closers(f), Put(o1, ind, TypedefBase, map[]), ind, ms, ps), ind, TypedefEnd(alias), map[])
  }

  function StubInterfaceHead(): Form { Class(PlainClass, [S("StubInterface")], []) }

  function StubHead(): Form { Class(StubClass, [S("Stub")], [S("StubInterface")]) }

  function StubCtor(): Form { Decl(T0(NoType), [], [S("Stub")], [T0(ChannelRef), T0(StubOptionsRef)], [], Semi) }

  function NewStub(): Form {
    Decl(T0(StubUniquePtr), [], [S("NewStub")], [T0(ChannelRef), T0(StubOptionsRef)], [], Semi)
  }

  function ServiceHead(): Form { Class(ServiceClass, [S("Service")], [S("::grpc::Service")]) }

  function ServiceCtor(): Form { Decl(T0(NoType), [], [S("Service")], [], [], Semi) }

  function ServiceDtor(): Form { Decl(T0(NoType), [], [S("~Service")], [], [], Semi) }

  function InterfaceClass(o: seq<Item>, ind: nat, ms: seq<Method>, ps: Parameters): seq<Item> {
    var o1 := PutText(Put(o, ind, StubInterfaceHead(), map[]), ind + 1, StubInterfaceDtor);
    var o2 := CallbackInterfacesStart(Every(InterfacePublic, o1, ind + 1, ms, ps), ind + 1);
    var o3 := CallbackInterfacesEnd(Every(CallbackInterfaces, o2, ind + 2, ms, ps), ind + 1);
    var o4 := Every(InterfacePrivate, PutText(o3, ind, PrivateLabel), ind + 1, ms, ps);
    PutText(o4, ind, CloseClass)
  }

  function StubClassOutput(o: seq<Item>, ind: nat, ms: seq<Method>, ps: Parameters): seq<Item> {
    var o1 := Put(Put(o, ind, StubHead(), map[]), ind + 1, StubCtor(), map[]);
    var o2 := CallbackStart(Every(StubPublic, o1, ind + 1, ms, ps), ind + 1);
    var o3 := CallbackEnd(Every(Callbacks, o2, ind + 2, ms, ps), ind + 1);
    PutText(Put(PutText(StubPrivates(o3, ind, ms, ps), ind, CloseClass), ind, NewStub(), map[]), ind, Blank)
  }

  function StubPrivates(o: seq<Item>, ind: nat, ms: seq<Method>, ps: Parameters): seq<Item> {
    var o1 := PutText(PutText(PutText(o, ind, PrivateLabel), ind + 1, ChannelField), ind + 1, AsyncStubField);
    Every(StubMembers, Every(StubPrivate, o1, ind + 1, ms, ps), ind + 1, ms, ps)
  }

  function ServiceClassOutput(o: seq<Item>, ind: nat, ms: seq<Method>, ps: Parameters): seq<Item> {
    var o1 := Put(o, ind, ServiceHead(), map[]);
    var o2 := Put(Put(o1, ind + 1, ServiceCtor(), map[]), ind + 1, ServiceDtor(), map[]);
    PutText(Every(ServiceMethods, o2, ind + 1, ms, ps), ind, CloseClass)
  }

  function AsyncApi(o: seq<Item>, ind: nat, ms: seq<Method>, ps: Parameters): seq<Item> {
    if ps.allowCqApi
    then TypedefOutput(Every(AsyncMixins, o, ind, ms, ps), ind, ms, ps, EveryAsync, "AsyncService")
    else o
  }

  function CallbackApi(o: seq<Item>, ind: nat, ms: seq<Method>, ps: Parameters): seq<Item> {
    var o1 := TypedefOutput(Every(CallbackMixins, o, ind, ms, ps), ind, ms, ps, EveryCallback, "CallbackService");
    PutText(o1, ind, ExperimentalCallbackTypedef)
  }

  function RawApi(o: seq<Item>, ind: nat, ms: seq<Method>, ps: Parameters): seq<Item> {
    var o1 := Every(GenericMixins, o, ind, ms, ps);
    var o2 := if ps.allowCqApi then Every(RawMixins, o1, ind, ms, ps) else o1;
    Every(RawCallbackMixins, o2, ind, ms, ps)
  }

  function StreamedApi(o: seq<Item>, ind: nat, ms: seq<Method>, ps: Parameters): seq<Item> {
    if ps.allowSyncServerApi then
      var o1 := TypedefOutput(Every(StreamedUnaryMixins, o, ind, ms, ps), ind, ms, ps, UnaryOnly,
        "StreamedUnaryService");
      var o2 := TypedefOutput(Every(SplitMixins, o1, ind, ms, ps), ind, ms, ps, SplitOnly, "SplitStreamedService");
      TypedefOutput(o2, ind, ms, ps, UnaryOrSplit, "StreamedService")
    else o
  }

  function ServiceEnv(svc: Service, pkg: string): Env { map[VService := svc.name, VPackage := pkg] }

  function ServiceClassHead(svc: Service, ps: Parameters): Form {
    Class(if ps.allowDeprecated && svc.deprecated then DeprecatedFinalClass else FinalClass, [V(VService)], [])
  }

  function FullNameForm(): Form { Stmt(ServiceFullName, [V(VPackage), V(VService)]) }

  function ServiceStart(o: seq<Item>, ind: nat, svc: Service, pkg: string, ps: Parameters): seq<Item> {
    var o1 := Put(PutComments(o, ind, svc.leading), ind, ServiceClassHead(svc, ps), ServiceEnv(svc, pkg));
    Put(o1, ind + 1, FullNameForm(), ServiceEnv(svc, pkg))
  }

  function ClientSide(o: seq<Item>, ind: nat, ms: seq<Method>, ps: Parameters): seq<Item> {
    StubClassOutput(InterfaceClass(o, ind, ms, ps), ind, ms, ps)
  }

  function ServerSide(o: seq<Item>, ind: nat, ms: seq<Method>, ps: Parameters): seq<Item> {
    StreamedApi(RawApi(CallbackApi(AsyncApi(ServiceClassOutput(o, ind, ms, ps), ind, ms, ps), ind, ms, ps), ind, ms,
      ps),
                ind, ms, ps)
  }

  function HeaderServiceOutput(o: seq<Item>, ind: nat, svc: Service, pkg: string, ps: Parameters): seq<Item> {
    var o1 := ClientSide(ServiceStart(o, ind, svc, pkg, ps), ind + 1, svc.methods, ps);
    PutComments(PutText(ServerSide(o1, ind + 1, svc.methods, ps), ind, CloseClass), ind, svc.trailing)
  }

  // ---- Emitters ----

  lemma OpenerBound(prefix: string, m: Method)
    ensures Bound(OpenerForm(prefix), NameEnv(m))
  {
  }

  method SetMethodName(vars: Vars, m: Method)
    modifies vars
    ensures Agrees(vars.m, NameEnv(m)) && OnlyLocals(old(vars.m), vars.m)
  {
    vars.m := vars.m[VMethodName := m.name];
  }

  method PrintOpener(p: Printer, m: Method, f: Filter, vars: Vars)
    modifies p, vars
    ensures p.out == PutOpener(old(p.out), old(p.indent), m, f) && p.indent == old(p.indent)
    ensures OnlyLocals(old(vars.m), vars.m)
  {
    hide Put, Agrees, Bound, OnlyLocals, NameEnv, OpenerForm;
    SetMethodName(vars, m);
    OpenerBound("WithAsyncMethod_", m);
    OpenerBound("WithCallbackMethod_", m);
    OpenerBound("WithStreamedUnaryMethod_", m);
    OpenerBound("WithSplitStreamingMethod_", m);
    match f
    case EveryAsync => p.Print(vars, OpenerForm("WithAsyncMethod_"), NameEnv(m));
    case EveryCallback => p.Print(vars, OpenerForm("WithCallbackMethod_"), NameEnv(m));
    case UnaryOnly =>
      if m.NoStreaming() {
        p.Print(vars, OpenerForm("WithStreamedUnaryMethod_"), NameEnv(m));
      }
    case SplitOnly =>
      if m.ServerOnlyStreaming() {
        p.Print(vars, OpenerForm("WithSplitStreamingMethod_"), NameEnv(m));
      }
    case UnaryOrSplit =>
      if m.ServerOnlyStreaming() {
        p.Print(vars, OpenerForm("WithSplitStreamingMethod_"), NameEnv(m));
      }
      if m.NoStreaming() {
        p.Print(vars, OpenerForm("WithStreamedUnaryMethod_"), NameEnv(m));
      }
  }

  // (*vars)["Idx"] = as_string(i)
  method SetIdx(vars: Vars, i: nat)
    modifies vars
    ensures HasIndex(vars.m, i) && OnlyLocals(old(vars.m), vars.m)
  {
    vars.m := vars.m[VIdx := Dec(i)];
  }

  // The passes that need the method's index.
  method PrintMixin(p: Printer, pass: Pass, m: Method, i: nat, ps: Parameters, vars: Vars)
    requires pass in {AsyncMixins, CallbackMixins, GenericMixins, RawMixins, RawCallbackMixins, StreamedUnaryMixins,
             SplitMixins}
    modifies p, vars
    ensures p.out == Round(pass, old(p.out), old(p.indent), m, i, ps) && p.indent == old(p.indent)
    ensures OnlyLocals(old(vars.m), vars.m)
  {
    hide AsyncMixin, CallbackMixin, GenericMixin, RawMixin, RawCallbackMixin, StreamedUnaryMixin, SplitStreamingMixin,
      Local;
    SetIdx(vars, i);
    match pass
    case AsyncMixins => PrintHeaderServerMethodAsync(p, m, ps, vars, i);
    case CallbackMixins => PrintHeaderServerMethodCallback(p, m, ps, vars, i);
    case GenericMixins => PrintHeaderServerMethodGeneric(p, m, ps, vars, i);
    case RawMixins => PrintHeaderServerMethodRaw(p, m, ps, vars, i);
    case RawCallbackMixins => PrintHeaderServerMethodRawCallback(p, m, ps, vars, i);
    case StreamedUnaryMixins => PrintHeaderServerMethodStreamedUnary(p, m, vars, i);
    case SplitMixins => PrintHeaderServerMethodSplitStreaming(p, m, vars, i);
  }

  // The body of the loop that runs `pass`.
  method PrintRound(p: Printer, pass: Pass, m: Method, i: nat, ps: Parameters, vars: Vars)
    modifies p, vars
    ensures p.out == Round(pass, old(p.out), old(p.indent), m, i, ps) && p.indent == old(p.indent)
    ensures OnlyLocals(old(vars.m), vars.m)
  {
    hide Put, PutComments, InterfaceOutput, CallbackInterfaceOutput, StubOutput, CallbackStubOutput, StubDataOutput,
      ServiceSyncOutput, PutOpener, AsyncMixin, CallbackMixin, GenericMixin, RawMixin, RawCallbackMixin,
      StreamedUnaryMixin, SplitStreamingMixin, OnlyLocals;
    NothingSet(vars.m);
    match pass
    case InterfacePublic =>
      p.PrintComments(m.leading);
      PrintHeaderClientMethodInterfaces(p, m, ps, vars, true);
      p.PrintComments(m.trailing);
    case CallbackInterfaces =>
      p.PrintComments(m.leading);
      PrintHeaderClientMethodCallbackInterfaces(p, m, vars);
      p.PrintComments(m.trailing);
    case InterfacePrivate => PrintHeaderClientMethodInterfaces(p, m, ps, vars, false);
    case StubPublic => PrintHeaderClientMethod(p, m, ps, vars, true);
    case Callbacks => PrintHeaderClientMethodCallback(p, m, vars);
    case StubPrivate => PrintHeaderClientMethod(p, m, ps, vars, false);
    case StubMembers => PrintHeaderClientMethodData(p, m, vars);
    case ServiceMethods => PrintHeaderServerMethodSync(p, m, ps, vars);
    case Openers(f) => PrintOpener(p, m, f, vars);
    case Closers(f) =>
      if PrintsCloser(m, f) {
        p.PrintForm(MixinClose);
      }
    case _ => PrintMixin(p, pass, m, i, ps, vars);
  }

  lemma RoundsStep(pass: Pass, o: seq<Item>, ind: nat, ms: seq<Method>, ps: Parameters, i: nat)
    requires i < |ms|
    ensures Rounds(pass, o, ind, ms, ps, 0) == o
    ensures Rounds(pass, o, ind, ms, ps, i + 1) == Round(pass, Rounds(pass, o, ind, ms, ps, i), ind, ms[i], i, ps)
  {
  }

  // for (int i = 0; i < service->method_count(); ++i)
  method PrintEvery(p: Printer, pass: Pass, ms: seq<Method>, ps: Parameters, vars: Vars)
    modifies p, vars
    ensures p.out == Every(pass, old(p.out), old(p.indent), ms, ps) && p.indent == old(p.indent)
    ensures OnlyLocals(old(vars.m), vars.m)
  {
    hide Round, OnlyLocals;
    NothingSet(vars.m);
    for i := 0 to |ms|
      invariant p.out == Rounds(pass, old(p.out), old(p.indent), ms, ps, i) && p.indent == old(p.indent)
      invariant OnlyLocals(old(vars.m), vars.m)
    {
      ghost var before := vars.m;
      RoundsStep(pass, old(p.out), old(p.indent), ms, ps, i);
      PrintRound(p, pass, ms[i], i, ps, vars);
      OnlyLocalsTrans(old(vars.m), before, vars.m);
    }
  }

  method PrintTypedef(p: Printer, ms: seq<Method>, ps: Parameters, f: Filter, alias: string, vars: Vars)
    modifies p, vars
    ensures p.out == TypedefOutput(old(p.out), old(p.indent), ms, ps, f, alias) && p.indent == old(p.indent)
    ensures OnlyLocals(old(vars.m), vars.m)
  {
    hide Put, Every, OnlyLocals;
    p.PrintForm(TypedefBegin);
    PrintEvery(p, Openers(f), ms, ps, vars);
    ghost var mid := vars.m;
    p.PrintForm(TypedefBase);
    PrintEvery(p, Closers(f), ms, ps, vars);
    OnlyLocalsTrans(old(vars.m), mid, vars.m);
    p.PrintForm(TypedefEnd(alias));
  }

  lemma OnlyLocalsTrans3(a: Env, b: Env, c: Env, d: Env)
    requires OnlyLocals(a, b) && OnlyLocals(b, c) && OnlyLocals(c, d)
    ensures OnlyLocals(a, d)
  {
  }

  // Text without variables needs no variable map.
  lemma HeadsBound()
    ensures Bound(StubInterfaceHead(), map[]) && Bound(StubHead(), map[]) && Bound(StubCtor(), map[]) &&
            Bound(NewStub(), map[])
    ensures Bound(ServiceHead(), map[]) && Bound(ServiceCtor(), map[]) && Bound(ServiceDtor(), map[])
  {
  }

  method PrintInterfaceClass(p: Printer, ms: seq<Method>, ps: Parameters, vars: Vars)
    modifies p, vars
    ensures p.out == InterfaceClass(old(p.out), old(p.indent), ms, ps) && p.indent == old(p.indent)
    ensures OnlyLocals(old(vars.m), vars.m)
  {
    hide Put, PutText, Bound, Every, OnlyLocals, CallbackInterfacesStart, CallbackInterfacesEnd, StubInterfaceHead;
    HeadsBound();
    p.PrintForm(StubInterfaceHead());
    p.Indent();
    p.PrintText(StubInterfaceDtor);
    PrintEvery(p, InterfacePublic, ms, ps, vars);
    ghost var b := vars.m;
    PrintHeaderClientMethodCallbackInterfacesStart(p);
    PrintEvery(p, CallbackInterfaces, ms, ps, vars);
    ghost var c := vars.m;
    PrintHeaderClientMethodCallbackInterfacesEnd(p);
    p.Outdent();
    p.PrintText(PrivateLabel);
    p.Indent();
    PrintEvery(p, InterfacePrivate, ms, ps, vars);
    p.Outdent();
    p.PrintText(CloseClass);
    OnlyLocalsTrans3(old(vars.m), b, c, vars.m);
  }

  method PrintStubPrivates(p: Printer, ms: seq<Method>, ps: Parameters, vars: Vars)
    modifies p, vars
    ensures p.out == StubPrivates(old(p.out), old(p.indent), ms, ps) && p.indent == old(p.indent)
    ensures OnlyLocals(old(vars.m), vars.m)
  {
    hide PutText, Every, OnlyLocals;
    p.PrintText(PrivateLabel);
    p.Indent();
    p.PrintText(ChannelField);
    p.PrintText(AsyncStubField);
    PrintEvery(p, StubPrivate, ms, ps, vars);
    ghost var b := vars.m;
    PrintEvery(p, StubMembers, ms, ps, vars);
    OnlyLocalsTrans(old(vars.m), b, vars.m);
    p.Outdent();
  }

  method PrintStubClass(p: Printer, ms: seq<Method>, ps: Parameters, vars: Vars)
    modifies p, vars
    ensures p.out == StubClassOutput(old(p.out), old(p.indent), ms, ps) && p.indent == old(p.indent)
    ensures OnlyLocals(old(vars.m), vars.m)
  {
    hide Put, PutText, Bound, Every, OnlyLocals, CallbackStart, CallbackEnd, StubHead, StubCtor, NewStub,
      StubPrivates;
    HeadsBound();
    p.PrintForm(StubHead());
    p.Indent();
    p.PrintForm(StubCtor());
    PrintEvery(p, StubPublic, ms, ps, vars);
    ghost var b := vars.m;
    PrintHeaderClientMethodCallbackStart(p);
    PrintEvery(p, Callbacks, ms, ps, vars);
    ghost var c := vars.m;
    PrintHeaderClientMethodCallbackEnd(p);
    p.Outdent();
    PrintStubPrivates(p, ms, ps, vars);
    OnlyLocalsTrans3(old(vars.m), b, c, vars.m);
    p.PrintText(CloseClass);
    p.PrintForm(NewStub());
    p.PrintText(Blank);
  }

  method PrintServiceClass(p: Printer, ms: seq<Method>, ps: Parameters, vars: Vars)
    modifies p, vars
    ensures p.out == ServiceClassOutput(old(p.out), old(p.indent), ms, ps) && p.indent == old(p.indent)
    ensures OnlyLocals(old(vars.m), vars.m)
  {
    hide Put, PutText, Bound, Every, OnlyLocals, ServiceHead, ServiceCtor, ServiceDtor;
    HeadsBound();
    p.PrintForm(ServiceHead());
    p.Indent();
    p.PrintForm(ServiceCtor());
    p.PrintForm(ServiceDtor());
    PrintEvery(p, ServiceMethods, ms, ps, vars);
    p.Outdent();
    p.PrintText(CloseClass);
  }

  method PrintAsyncAndCallbackApis(p: Printer, ms: seq<Method>, ps: Parameters, vars: Vars)
    modifies p, vars
    ensures p.out == CallbackApi(AsyncApi(old(p.out), old(p.indent), ms, ps), old(p.indent), ms, ps)
    ensures p.indent == old(p.indent) && OnlyLocals(old(vars.m), vars.m)
  {
    hide Put, PutText, Every, OnlyLocals, TypedefOutput;
    NothingSet(vars.m);
    if ps.allowCqApi {
      PrintEvery(p, AsyncMixins, ms, ps, vars);
      ghost var b := vars.m;
      PrintTypedef(p, ms, ps, EveryAsync, "AsyncService", vars);
      OnlyLocalsTrans(old(vars.m), b, vars.m);
    }
    ghost var c := vars.m;
    PrintEvery(p, CallbackMixins, ms, ps, vars);
    ghost var d := vars.m;
    PrintTypedef(p, ms, ps, EveryCallback, "CallbackService", vars);
    OnlyLocalsTrans3(old(vars.m), c, d, vars.m);
    p.PrintText(ExperimentalCallbackTypedef);
  }

  method PrintRawApi(p: Printer, ms: seq<Method>, ps: Parameters, vars: Vars)
    modifies p, vars
    ensures p.out == RawApi(old(p.out), old(p.indent), ms, ps)
    ensures p.indent == old(p.indent) && OnlyLocals(old(vars.m), vars.m)
  {
    hide Every, OnlyLocals;
    PrintEvery(p, GenericMixins, ms, ps, vars);
    if ps.allowCqApi {
      ghost var b := vars.m;
      PrintEvery(p, RawMixins, ms, ps, vars);
      OnlyLocalsTrans(old(vars.m), b, vars.m);
    }
    ghost var c := vars.m;
    PrintEvery(p, RawCallbackMixins, ms, ps, vars);
    OnlyLocalsTrans(old(vars.m), c, vars.m);
  }

  method PrintStreamedApi(p: Printer, ms: seq<Method>, ps: Parameters, vars: Vars)
    modifies p, vars
    ensures p.out == StreamedApi(old(p.out), old(p.indent), ms, ps)
    ensures p.indent == old(p.indent) && OnlyLocals(old(vars.m), vars.m)
  {
    hide Every, OnlyLocals, TypedefOutput;
    NothingSet(vars.m);
    if ps.allowSyncServerApi {
      PrintEvery(p, StreamedUnaryMixins, ms, ps, vars);
      ghost var b := vars.m;
      PrintTypedef(p, ms, ps, UnaryOnly, "StreamedUnaryService", vars);
      ghost var c := vars.m;
      PrintEvery(p, SplitMixins, ms, ps, vars);
      OnlyLocalsTrans3(old(vars.m), b, c, vars.m);
      ghost var d := vars.m;
      PrintTypedef(p, ms, ps, SplitOnly, "SplitStreamedService", vars);
      ghost var e := vars.m;
      PrintTypedef(p, ms, ps, UnaryOrSplit, "StreamedService", vars);
      OnlyLocalsTrans3(old(vars.m), d, e, vars.m);
    }
  }

  method SetService(vars: Vars, svc: Service, ghost pkg: string)
    requires Agrees(vars.m, map[VPackage := pkg])
    modifies vars
    ensures Agrees(vars.m, ServiceEnv(svc, pkg)) && OnlyService(old(vars.m), vars.m)
  {
    vars.m := vars.m[VService := svc.name];
  }

  lemma ServiceStartBound(svc: Service, pkg: string, ps: Parameters)
    ensures Bound(ServiceClassHead(svc, ps), ServiceEnv(svc, pkg)) && Bound(FullNameForm(), ServiceEnv(svc, pkg))
  {
  }

  method PrintServiceStart(p: Printer, svc: Service, ps: Parameters, vars: Vars, ghost pkg: string)
    requires Agrees(vars.m, map[VPackage := pkg])
    modifies p, vars
    ensures p.out == ServiceStart(old(p.out), old(p.indent), svc, pkg, ps) && p.indent == old(p.indent) + 1
    ensures OnlyService(old(vars.m), vars.m)
  {
    SetService(vars, svc, pkg);
    ServiceStartBound(svc, pkg, ps);
    hide Put, PutComments, Agrees, Bound, OnlyService, ServiceEnv, FullNameForm;
    p.PrintComments(svc.leading);
    if ps.allowDeprecated && svc.deprecated {
      p.Print(vars, Class(DeprecatedFinalClass, [V(VService)], []), ServiceEnv(svc, pkg));
    } else {
      p.Print(vars, Class(FinalClass, [V(VService)], []), ServiceEnv(svc, pkg));
    }
    p.Indent();
    p.Print(vars, FullNameForm(), ServiceEnv(svc, pkg));
  }

  method PrintHeaderService(p: Printer, svc: Service, ps: Parameters, vars: Vars, ghost pkg: string)
    requires Agrees(vars.m, map[VPackage := pkg])
    modifies p, vars
    ensures p.out == HeaderServiceOutput(old(p.out), old(p.indent), svc, pkg, ps) && p.indent == old(p.indent)
    ensures OnlyService(old(vars.m), vars.m)
  {
    hide Put, PutText, PutComments, Agrees, OnlyLocals, OnlyService, ServiceStart, InterfaceClass, StubClassOutput,
      ServiceClassOutput, CallbackApi, AsyncApi, RawApi, StreamedApi;
    PrintServiceStart(p, svc, ps, vars, pkg);
    ghost var a := vars.m;
    PrintInterfaceClass(p, svc.methods, ps, vars);
    OnlyServiceThen(old(vars.m), a, vars.m);
    ghost var b := vars.m;
    PrintStubClass(p, svc.methods, ps, vars);
    OnlyServiceThen(old(vars.m), b, vars.m);
    ghost var c := vars.m;
    PrintServiceClass(p, svc.methods, ps, vars);
    OnlyServiceThen(old(vars.m), c, vars.m);
    ghost var d := vars.m;
    PrintAsyncAndCallbackApis(p, svc.methods, ps, vars);
    OnlyServiceThen(old(vars.m), d, vars.m);
    ghost var e := vars.m;
    PrintRawApi(p, svc.methods, ps, vars);
    OnlyServiceThen(old(vars.m), e, vars.m);
    ghost var f := vars.m;
    PrintStreamedApi(p, svc.methods, ps, vars);
    OnlyServiceThen(old(vars.m), f, vars.m);
    p.Outdent();
    p.PrintText(CloseClass);
    p.PrintComments(svc.trailing);
  }
}
