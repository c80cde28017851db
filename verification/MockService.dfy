// PrintMockService: the mock of a service's StubInterface.
module MockService {
  import opened Schema
  import opened Emit
  import opened Decimal

  // ---- Templates ----

  function MockSync(k: Kind): Form {
    match k
    case Unary =>
      MockMethod([S("3")], [V(VMethod)], T0(Status),
                 [T0(ClientContextPtr), T1(ConstRef, V(VRequest)), T1(Ptr, V(VResponse))], [])
    case ClientStreaming =>
      MockMethod([S("2")], [V(VMethod), S("Raw")], T1(Client(Writer, true, false), V(VRequest)),
                 [T0(ClientContextPtr), T1(Ptr, V(VResponse))], [])
    case ServerStreaming =>
      MockMethod([S("2")], [V(VMethod), S("Raw")], T1(Client(Reader, true, false), V(VResponse)),
                 [T0(ClientContextPtr), T1(ConstRef, V(VRequest))], [])
    case BidiStreaming =>
      MockMethod([S("1")], [V(VMethod), S("Raw")], T2(Client(ReaderWriter, true, false), V(VRequest), V(VResponse)),
                 [T0(ClientContextPtr)], [])
  }

  function MockAsync(k: Kind): Form {
    match k
    case Unary =>
      MockMethod([S("3")], [V(VAsyncPrefix), V(VMethod), S("Raw")],
                 T1(Client(AsyncResponseReader, true, false), V(VResponse)),
                 [T0(ClientContextPtr), T1(ConstRef, V(VRequest)), T0(CompletionQueuePtr)], [])
    case ClientStreaming =>
      MockMethod([V(VMockArgs)], [V(VAsyncPrefix), V(VMethod), S("Raw")],
                 T1(Client(AsyncWriter, true, false), V(VRequest)),
                 [T0(ClientContextPtr), T1(Ptr, V(VResponse)), T0(CompletionQueuePtr)], [V(VAsyncMethodParams)])
    case ServerStreaming =>
      MockMethod([V(VMockArgs)], [V(VAsyncPrefix), V(VMethod), S("Raw")],
                 T1(Client(AsyncReader, true, false), V(VResponse)),
                 [T0(ClientContextPtr), T1(ConstRef, V(VRequest)), T0(CompletionQueuePtr)], [V(VAsyncMethodParams)])
    case BidiStreaming =>
      MockMethod([V(VMockArgs)], [V(VAsyncPrefix), V(VMethod), S("Raw")],
                 T2(Client(AsyncReaderWriter, true, false), V(VRequest), V(VResponse)),
                 [T0(ClientContextPtr), T0(CompletionQueuePtr)], [V(VAsyncMethodParams)])
  }

  function MockHead(): Form {
    Class(MockClass, [S("Mock"), V(VService), S("Stub")], [V(VService), S("::StubInterface")])
  }

  // The entries of PrintMockClientMethods' async_prefixes table.
  datatype MockPrefix = MockPrefix(prefix: string, methodParams: string, extraCount: nat)

  function MockPrefixAt(i: nat): MockPrefix {
    if i == 0 then MockPrefix("Async", ", void* tag", 1) else MockPrefix("PrepareAsync", "", 0)
  }

  // Parameters in front of the extra one, as the emitter counts them.
  function BaseCount(k: Kind): nat { if k == BidiStreaming then 2 else 3 }

  function MockEnv(m: Method, a: MockPrefix): Env {
    if m.Kind() == Unary then MethodEnv(m)[VAsyncPrefix := a.prefix]
    else
      MethodEnv(m)[VAsyncPrefix := a.prefix][VAsyncMethodParams := a.methodParams]
                  [VMockArgs := Dec(BaseCount(m.Kind()) + a.extraCount)]
  }

  lemma MockSyncBound(m: Method)
    ensures Bound(MockSync(m.Kind()), MethodEnv(m))
  {
  }

  lemma MockAsyncBound(m: Method, a: MockPrefix)
    ensures Bound(MockAsync(m.Kind()), MockEnv(m, a))
  {
    hide Dec;
  }

  // ---- Output ----

  function MockAsyncs(o: seq<Item>, ind: nat, m: Method, n: nat): seq<Item> {
    if n == 0 then o
    else Put(MockAsyncs(o, ind, m, n - 1), ind, MockAsync(m.Kind()), MockEnv(m, MockPrefixAt(n - 1)))
  }

  function MockMethods(o: seq<Item>, ind: nat, m: Method, ps: Parameters): seq<Item> {
    var o1 := Put(o, ind, MockSync(m.Kind()), MethodEnv(m));
    if ps.allowCqApi then MockAsyncs(o1, ind, m, 2) else o1
  }

  function MockRounds(o: seq<Item>, ind: nat, ms: seq<Method>, ps: Parameters, n: nat): seq<Item>
    requires n <= |ms|
  {
    if n == 0 then o else MockMethods(MockRounds(o, ind, ms, ps, n - 1), ind, ms[n - 1], ps)
  }

  function MockServiceOutput(o: seq<Item>, ind: nat, svc: Service, ps: Parameters): seq<Item> {
    var o1 := Put(o, ind, MockHead(), map[VService := svc.name]);
    PutText(MockRounds(o1, ind + 1, svc.methods, ps, |svc.methods|), ind, CloseClass)
  }

  // ---- Emitters ----

  method SetMockPrefix(vars: Vars, m: Method, a: MockPrefix)
    requires Agrees(vars.m, MethodEnv(m))
    modifies vars
    ensures Agrees(vars.m, MockEnv(m, a)) && Agrees(vars.m, MethodEnv(m)) && OnlyLocals(old(vars.m), vars.m)
  {
    hide Dec;
    vars.m := vars.m[VAsyncPrefix := a.prefix];
    if m.Kind() != Unary {
      vars.m := vars.m[VAsyncMethodParams := a.methodParams];
      vars.m := vars.m[VMockArgs := Dec(BaseCount(m.Kind()) + a.extraCount)];
    }
  }

  method PrintMockAsyncs(p: Printer, m: Method, f: Form, vars: Vars)
    requires f == MockAsync(m.Kind()) && Agrees(vars.m, MethodEnv(m))
    modifies p, vars
    ensures p.out == MockAsyncs(old(p.out), old(p.indent), m, 2) && p.indent == old(p.indent)
    ensures OnlyLocals(old(vars.m), vars.m)
  {
    hide Put, Agrees, Bound, OnlyLocals, MethodEnv, MockEnv, MockAsync, MockSync, MockPrefixAt;
    NothingSet(vars.m);
    for i := 0 to 2
      invariant p.out == MockAsyncs(old(p.out), old(p.indent), m, i) && p.indent == old(p.indent)
      invariant Agrees(vars.m, MethodEnv(m)) && OnlyLocals(old(vars.m), vars.m)
    {
      ghost var before := vars.m;
      SetMockPrefix(vars, m, MockPrefixAt(i));
      OnlyLocalsTrans(old(vars.m), before, vars.m);
      MockAsyncBound(m, MockPrefixAt(i));
      p.Print(vars, f, MockEnv(m, MockPrefixAt(i)));
    }
  }

  method PrintMockClientMethods(p: Printer, m: Method, ps: Parameters, vars: Vars)
    modifies p, vars
    ensures p.out == MockMethods(old(p.out), old(p.indent), m, ps) && p.indent == old(p.indent)
    ensures OnlyLocals(old(vars.m), vars.m)
  {
    hide Put, MockAsyncs, Agrees, Bound, OnlyLocals, MethodEnv, MockSync, MockAsync;
    SetMethod(vars, m);
    MockSyncBound(m);
    ghost var before := vars.m;
    if m.NoStreaming() {
      p.Print(vars, MockSync(Unary), MethodEnv(m));
      if ps.allowCqApi {
        PrintMockAsyncs(p, m, MockAsync(Unary), vars);
        OnlyLocalsTrans(old(vars.m), before, vars.m);
      }
    } else if m.ClientOnlyStreaming() {
      p.Print(vars, MockSync(ClientStreaming), MethodEnv(m));
      if ps.allowCqApi {
        PrintMockAsyncs(p, m, MockAsync(ClientStreaming), vars);
        OnlyLocalsTrans(old(vars.m), before, vars.m);
      }
    } else if m.ServerOnlyStreaming() {
      p.Print(vars, MockSync(ServerStreaming), MethodEnv(m));
      if ps.allowCqApi {
        PrintMockAsyncs(p, m, MockAsync(ServerStreaming), vars);
        OnlyLocalsTrans(old(vars.m), before, vars.m);
      }
    } else if m.IsBidiStreaming() {
      p.Print(vars, MockSync(BidiStreaming), MethodEnv(m));
      if ps.allowCqApi {
        PrintMockAsyncs(p, m, MockAsync(BidiStreaming), vars);
        OnlyLocalsTrans(old(vars.m), before, vars.m);
      }
    }
  }

  method SetMockService(vars: Vars, svc: Service)
    modifies vars
    ensures Agrees(vars.m, map[VService := svc.name]) && OnlyService(old(vars.m), vars.m)
  {
    vars.m := vars.m[VService := svc.name];
  }

  method PrintMockService(p: Printer, svc: Service, ps: Parameters, vars: Vars)
    modifies p, vars
    ensures p.out == MockServiceOutput(old(p.out), old(p.indent), svc, ps) && p.indent == old(p.indent)
    ensures OnlyService(old(vars.m), vars.m)
  {
    SetMockService(vars, svc);
    p.Print(vars, MockHead(), map[VService := svc.name]);
    hide Put, PutText, Agrees, MockHead, MockMethods, OnlyLocals, OnlyService;
    p.Indent();
    for i := 0 to |svc.methods|
      invariant p.out == MockRounds(Put(old(p.out), old(p.indent), MockHead(), map[VService := svc.name]),
                old(p.indent) + 1,
                                    svc.methods, ps, i)
      invariant p.indent == old(p.indent) + 1 && OnlyService(old(vars.m), vars.m)
    {
      ghost var before := vars.m;
      PrintMockClientMethods(p, svc.methods[i], ps, vars);
      OnlyServiceThen(old(vars.m), before, vars.m);
    }
    p.Outdent();
    p.PrintText(CloseClass);
  }
}
