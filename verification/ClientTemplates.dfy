// The templates of the client half of a header: StubInterface, its callback
// interface, Stub and Stub::async. Every pass spells its own templates out, one
// per streaming kind, as the source does.
module ClientTemplates {
  import opened Schema
  import opened Emit

  // ---- PrintHeaderClientMethodInterfaces: templates ----

  function InterfaceSync(k: Kind): Form {
    match k
    case Unary =>
      Decl(T0(Status), [], [V(VMethod)],
           [T0(ClientContextPtr), T1(ConstRef, V(VRequest)), T1(Ptr, V(VResponse))], [], Pure)
    case ClientStreaming =>
      Decl(T1(Client(Writer, true, true), V(VRequest)), [], [V(VMethod)],
           [T0(ClientContextPtr), T1(Ptr, V(VResponse))], [], Open)
    case ServerStreaming =>
      Decl(T1(Client(Reader, true, true), V(VResponse)), [], [V(VMethod)],
           [T0(ClientContextPtr), T1(ConstRef, V(VRequest))], [], Open)
    case BidiStreaming =>
      Decl(T2(Client(ReaderWriter, true, true), V(VRequest), V(VResponse)), [], [V(VMethod)],
           [T0(ClientContextPtr)], [], Open)
  }

  function InterfaceSyncForward(k: Kind): Form
    requires k != Unary
  {
    match k
    case ClientStreaming =>
      Forward(T1(Client(Writer, true, true), V(VRequest)), [V(VMethod), S("Raw")], 2, [])
    case ServerStreaming =>
      Forward(T1(Client(Reader, true, true), V(VResponse)), [V(VMethod), S("Raw")], 2, [])
    case BidiStreaming =>
      Forward(T2(Client(ReaderWriter, true, true), V(VRequest), V(VResponse)), [V(VMethod), S("Raw")], 1, [])
  }

  function InterfaceAsync(k: Kind): Form {
    match k
    case Unary =>
      Decl(T1(Client(AsyncResponseReader, true, true), V(VResponse)), [], [V(VAsyncPrefix), V(VMethod)],
           [T0(ClientContextPtr), T1(ConstRef, V(VRequest)), T0(CompletionQueuePtr)], [], Open)
    case ClientStreaming =>
      Decl(T1(Client(AsyncWriter, true, true), V(VRequest)), [], [V(VAsyncPrefix), V(VMethod)],
           [T0(ClientContextPtr), T1(Ptr, V(VResponse)), T0(CompletionQueuePtr)], [V(VAsyncMethodParams)], Open)
    case ServerStreaming =>
      Decl(T1(Client(AsyncReader, true, true), V(VResponse)), [], [V(VAsyncPrefix), V(VMethod)],
           [T0(ClientContextPtr), T1(ConstRef, V(VRequest)), T0(CompletionQueuePtr)], [V(VAsyncMethodParams)], Open)
    case BidiStreaming =>
      Decl(T2(Client(AsyncReaderWriter, true, true), V(VRequest), V(VResponse)), [], [V(VAsyncPrefix), V(VMethod)],
           [T0(ClientContextPtr), T0(CompletionQueuePtr)], [V(VAsyncMethodParams)], Open)
  }

  function InterfaceAsyncForward(k: Kind): Form {
    match k
    case Unary =>
      Forward(T1(Client(AsyncResponseReader, true, true), V(VResponse)),
              [V(VAsyncPrefix), V(VMethod), S("Raw")], 3, [])
    case ClientStreaming =>
      Forward(T1(Client(AsyncWriter, true, true), V(VRequest)),
              [V(VAsyncPrefix), V(VMethod), S("Raw")], 3, [V(VAsyncRawArgs)])
    case ServerStreaming =>
      Forward(T1(Client(AsyncReader, true, true), V(VResponse)),
              [V(VAsyncPrefix), V(VMethod), S("Raw")], 3, [V(VAsyncRawArgs)])
    case BidiStreaming =>
      Forward(T2(Client(AsyncReaderWriter, true, true), V(VRequest), V(VResponse)),
              [V(VAsyncPrefix), V(VMethod), S("Raw")], 2, [V(VAsyncRawArgs)])
  }

  function InterfaceRaw(k: Kind): Form
    requires k != Unary
  {
    match k
    case ClientStreaming =>
      Decl(T1(Client(Writer, true, false), V(VRequest)), [], [V(VMethod), S("Raw")],
           [T0(ClientContextPtr), T1(Ptr, V(VResponse))], [], Pure)
    case ServerStreaming =>
      Decl(T1(Client(Reader, true, false), V(VResponse)), [], [V(VMethod), S("Raw")],
           [T0(ClientContextPtr), T1(ConstRef, V(VRequest))], [], Pure)
    case BidiStreaming =>
      Decl(T2(Client(ReaderWriter, true, false), V(VRequest), V(VResponse)), [], [V(VMethod), S("Raw")],
           [T0(ClientContextPtr)], [], Pure)
  }

  function InterfaceAsyncRaw(k: Kind): Form {
    match k
    case Unary =>
      Decl(T1(Client(AsyncResponseReader, true, false), V(VResponse)), [], [V(VAsyncPrefix), V(VMethod), S("Raw")],
           [T0(ClientContextPtr), T1(ConstRef, V(VRequest)), T0(CompletionQueuePtr)], [], Pure)
    case ClientStreaming =>
      Decl(T1(Client(AsyncWriter, true, false), V(VRequest)), [], [V(VAsyncPrefix), V(VMethod), S("Raw")],
           [T0(ClientContextPtr), T1(Ptr, V(VResponse)), T0(CompletionQueuePtr)], [V(VAsyncMethodParams)], Pure)
    case ServerStreaming =>
      Decl(T1(Client(AsyncReader, true, false), V(VResponse)), [], [V(VAsyncPrefix), V(VMethod), S("Raw")],
           [T0(ClientContextPtr), T1(ConstRef, V(VRequest)), T0(CompletionQueuePtr)], [V(VAsyncMethodParams)], Pure)
    case BidiStreaming =>
      Decl(T2(Client(AsyncReaderWriter, true, false), V(VRequest), V(VResponse)), [],
           [V(VAsyncPrefix), V(VMethod), S("Raw")],
           [T0(ClientContextPtr), T0(CompletionQueuePtr)], [V(VAsyncMethodParams)], Pure)
  }

  // ---- PrintHeaderClientMethod: templates ----

  function StubSync(k: Kind): Form {
    match k
    case Unary =>
      Decl(T0(Status), [], [V(VMethod)],
           [T0(ClientContextPtr), T1(ConstRef, V(VRequest)), T1(Ptr, V(VResponse))], [], Override)
    case ClientStreaming =>
      Decl(T1(Client(Writer, false, true), V(VRequest)), [], [V(VMethod)],
           [T0(ClientContextPtr), T1(Ptr, V(VResponse))], [], Open)
    case ServerStreaming =>
      Decl(T1(Client(Reader, false, true), V(VResponse)), [], [V(VMethod)],
           [T0(ClientContextPtr), T1(ConstRef, V(VRequest))], [], Open)
    case BidiStreaming =>
      Decl(T2(Client(ReaderWriter, false, true), V(VRequest), V(VResponse)), [], [V(VMethod)],
           [T0(ClientContextPtr)], [], Open)
  }

  function StubSyncForward(k: Kind): Form
    requires k != Unary
  {
    match k
    case ClientStreaming =>
      Forward(T1(Client(Writer, false, true), V(VRequest)), [V(VMethod), S("Raw")], 2, [])
    case ServerStreaming =>
      Forward(T1(Client(Reader, false, true), V(VResponse)), [V(VMethod), S("Raw")], 2, [])
    case BidiStreaming =>
      Forward(T2(Client(ReaderWriter, false, true), V(VRequest), V(VResponse)), [V(VMethod), S("Raw")], 1, [])
  }

  function StubAsync(k: Kind): Form {
    match k
    case Unary =>
      Decl(T1(Client(AsyncResponseReader, false, true), V(VResponse)), [], [V(VAsyncPrefix), V(VMethod)],
           [T0(ClientContextPtr), T1(ConstRef, V(VRequest)), T0(CompletionQueuePtr)], [], Open)
    case ClientStreaming =>
      Decl(T1(Client(AsyncWriter, false, true), V(VRequest)), [], [V(VAsyncPrefix), V(VMethod)],
           [T0(ClientContextPtr), T1(Ptr, V(VResponse)), T0(CompletionQueuePtr)], [V(VAsyncMethodParams)], Open)
    case ServerStreaming =>
      Decl(T1(Client(AsyncReader, false, true), V(VResponse)), [], [V(VAsyncPrefix), V(VMethod)],
           [T0(ClientContextPtr), T1(ConstRef, V(VRequest)), T0(CompletionQueuePtr)], [V(VAsyncMethodParams)], Open)
    case BidiStreaming =>
      Decl(T2(Client(AsyncReaderWriter, false, true), V(VRequest), V(VResponse)), [], [V(VAsyncPrefix), V(VMethod)],
           [T0(ClientContextPtr), T0(CompletionQueuePtr)], [V(VAsyncMethodParams)], Open)
  }

  function StubAsyncForward(k: Kind): Form {
    match k
    case Unary =>
      Forward(T1(Client(AsyncResponseReader, false, true), V(VResponse)),
              [V(VAsyncPrefix), V(VMethod), S("Raw")], 3, [])
    case ClientStreaming =>
      Forward(T1(Client(AsyncWriter, false, true), V(VRequest)),
              [V(VAsyncPrefix), V(VMethod), S("Raw")], 3, [V(VAsyncRawArgs)])
    case ServerStreaming =>
      Forward(T1(Client(AsyncReader, false, true), V(VResponse)),
              [V(VAsyncPrefix), V(VMethod), S("Raw")], 3, [V(VAsyncRawArgs)])
    case BidiStreaming =>
      Forward(T2(Client(AsyncReaderWriter, false, true), V(VRequest), V(VResponse)),
              [V(VAsyncPrefix), V(VMethod), S("Raw")], 2, [V(VAsyncRawArgs)])
  }

  function StubRaw(k: Kind): Form
    requires k != Unary
  {
    match k
    case ClientStreaming =>
      Decl(T1(Client(Writer, false, false), V(VRequest)), [], [V(VMethod), S("Raw")],
           [T0(ClientContextPtr), T1(Ptr, V(VResponse))], [], Override)
    case ServerStreaming =>
      Decl(T1(Client(Reader, false, false), V(VResponse)), [], [V(VMethod), S("Raw")],
           [T0(ClientContextPtr), T1(ConstRef, V(VRequest))], [], Override)
    case BidiStreaming =>
      Decl(T2(Client(ReaderWriter, false, false), V(VRequest), V(VResponse)), [], [V(VMethod), S("Raw")],
           [T0(ClientContextPtr)], [], Override)
  }

  function StubAsyncRaw(k: Kind): Form {
    match k
    case Unary =>
      Decl(T1(Client(AsyncResponseReader, false, false), V(VResponse)), [], [V(VAsyncPrefix), V(VMethod), S("Raw")],
           [T0(ClientContextPtr), T1(ConstRef, V(VRequest)), T0(CompletionQueuePtr)], [], Override)
    case ClientStreaming =>
      Decl(T1(Client(AsyncWriter, false, false), V(VRequest)), [], [V(VAsyncPrefix), V(VMethod), S("Raw")],
           [T0(ClientContextPtr), T1(Ptr, V(VResponse)), T0(CompletionQueuePtr)], [V(VAsyncMethodParams)], Override)
    case ServerStreaming =>
      Decl(T1(Client(AsyncReader, false, false), V(VResponse)), [], [V(VAsyncPrefix), V(VMethod), S("Raw")],
           [T0(ClientContextPtr), T1(ConstRef, V(VRequest)), T0(CompletionQueuePtr)], [V(VAsyncMethodParams)], Override)
    case BidiStreaming =>
      Decl(T2(Client(AsyncReaderWriter, false, false), V(VRequest), V(VResponse)), [],
           [V(VAsyncPrefix), V(VMethod), S("Raw")],
           [T0(ClientContextPtr), T0(CompletionQueuePtr)], [V(VAsyncMethodParams)], Override)
  }

  // ---- The callback interface and its implementation: templates ----

  function CallbackInterface(k: Kind): Form {
    match k
    case Unary =>
      Decl(T0(Void), [], [V(VMethod)],
           [T0(ClientContextPtr), T1(ConstPtr, V(VRequest)), T1(Ptr, V(VResponse)), T0(StatusFunction)], [], Pure)
    case ClientStreaming =>
      Decl(T0(Void), [], [V(VMethod)],
           [T0(ClientContextPtr), T1(Ptr, V(VResponse)), T1(ClientWriteReactorPtr, V(VRequest))], [], Pure)
    case ServerStreaming =>
      Decl(T0(Void), [], [V(VMethod)],
           [T0(ClientContextPtr), T1(ConstPtr, V(VRequest)), T1(ClientReadReactorPtr, V(VResponse))], [], Pure)
    case BidiStreaming =>
      Decl(T0(Void), [], [V(VMethod)],
           [T0(ClientContextPtr), T2(ClientBidiReactorPtr, V(VRequest), V(VResponse))], [], Pure)
  }

  function CallbackInterfaceReactor(): Form {
    Decl(T0(Void), [], [V(VMethod)],
         [T0(ClientContextPtr), T1(ConstPtr, V(VRequest)), T1(Ptr, V(VResponse)), T0(ClientUnaryReactorPtr)], [], Pure)
  }

  function CallbackStub(k: Kind): Form {
    match k
    case Unary =>
      Decl(T0(Void), [], [V(VMethod)],
           [T0(ClientContextPtr), T1(ConstPtr, V(VRequest)), T1(Ptr, V(VResponse)), T0(StatusFunction)], [], Override)
    case ClientStreaming =>
      Decl(T0(Void), [], [V(VMethod)],
           [T0(ClientContextPtr), T1(Ptr, V(VResponse)), T1(ClientWriteReactorPtr, V(VRequest))], [], Override)
    case ServerStreaming =>
      Decl(T0(Void), [], [V(VMethod)],
           [T0(ClientContextPtr), T1(ConstPtr, V(VRequest)), T1(ClientReadReactorPtr, V(VResponse))], [], Override)
    case BidiStreaming =>
      Decl(T0(Void), [], [V(VMethod)],
           [T0(ClientContextPtr), T2(ClientBidiReactorPtr, V(VRequest), V(VResponse))], [], Override)
  }

  function CallbackStubReactor(): Form {
    Decl(T0(Void), [], [V(VMethod)],
         [T0(ClientContextPtr), T1(ConstPtr, V(VRequest)), T1(Ptr, V(VResponse)), T0(ClientUnaryReactorPtr)], [],
           Override)
  }

  function StubData(): Form { DataMember([S("rpcmethod_"), V(VMethod), S("_")]) }

  // The data pass sets the method's name and neither of its types.
  function DataEnv(m: Method): Env { map[VMethod := m.name] }

  // ---- Every variable of every template is set when it is printed. ----

  lemma InterfaceBound(k: Kind, m: Method)
    ensures Bound(InterfaceSync(k), MethodEnv(m))
    ensures k != Unary ==> Bound(InterfaceSyncForward(k), MethodEnv(m)) && Bound(InterfaceRaw(k), MethodEnv(m))
  {
  }

  // The async templates need only what their loop sets.
  function AsyncVarsOf(k: Kind): AsyncVars { if k == Unary then PrefixOnly else AllAsyncVars }

  function RawVarsOf(k: Kind): AsyncVars { if k == Unary then PrefixOnly else PrefixAndParams }

  predicate AsyncBound(f: Form, m: Method, av: AsyncVars) {
    Bound(f, AsyncEnv(m, Prefix(0), av)) && Bound(f, AsyncEnv(m, Prefix(1), av))
  }

  lemma AsyncBoundAt(f: Form, m: Method, av: AsyncVars, i: nat)
    requires AsyncBound(f, m, av) && i < 2
    ensures Bound(f, AsyncEnv(m, Prefix(i), av))
  {
    hide Bound, AsyncEnv, Prefix;
    assert i == 0 || i == 1;
  }

  // Boundness is a matter of keys.
  lemma BoundByKeys(f: Form, env: Env, env': Env)
    requires Bound(f, env) && env.Keys == env'.Keys
    ensures Bound(f, env')
  {
  }

  lemma AsyncBoundOnce(f: Form, m: Method, av: AsyncVars)
    requires Bound(f, AsyncEnv(m, Prefix(0), av))
    ensures AsyncBound(f, m, av)
  {
    hide Bound;
    BoundByKeys(f, AsyncEnv(m, Prefix(0), av), AsyncEnv(m, Prefix(1), av));
  }

  lemma InterfaceAsyncBound(k: Kind, m: Method)
    ensures AsyncBound(InterfaceAsync(k), m, AsyncVarsOf(k))
    ensures AsyncBound(InterfaceAsyncForward(k), m, AsyncVarsOf(k))
  {
    hide AsyncBound;
    assert Bound(InterfaceAsync(k), AsyncEnv(m, Prefix(0), AsyncVarsOf(k)));
    assert Bound(InterfaceAsyncForward(k), AsyncEnv(m, Prefix(0), AsyncVarsOf(k)));
    AsyncBoundOnce(InterfaceAsync(k), m, AsyncVarsOf(k));
    AsyncBoundOnce(InterfaceAsyncForward(k), m, AsyncVarsOf(k));
  }

  lemma InterfaceAsyncRawBound(k: Kind, m: Method)
    ensures AsyncBound(InterfaceAsyncRaw(k), m, RawVarsOf(k))
  {
    hide AsyncBound;
    assert Bound(InterfaceAsyncRaw(k), AsyncEnv(m, Prefix(0), RawVarsOf(k)));
    AsyncBoundOnce(InterfaceAsyncRaw(k), m, RawVarsOf(k));
  }

  lemma StubBound(k: Kind, m: Method)
    ensures Bound(StubSync(k), MethodEnv(m))
    ensures k != Unary ==> Bound(StubSyncForward(k), MethodEnv(m)) && Bound(StubRaw(k), MethodEnv(m))
  {
  }

  lemma StubAsyncBound(k: Kind, m: Method)
    ensures AsyncBound(StubAsync(k), m, AsyncVarsOf(k))
    ensures AsyncBound(StubAsyncForward(k), m, AsyncVarsOf(k))
  {
    hide AsyncBound;
    assert Bound(StubAsync(k), AsyncEnv(m, Prefix(0), AsyncVarsOf(k)));
    assert Bound(StubAsyncForward(k), AsyncEnv(m, Prefix(0), AsyncVarsOf(k)));
    AsyncBoundOnce(StubAsync(k), m, AsyncVarsOf(k));
    AsyncBoundOnce(StubAsyncForward(k), m, AsyncVarsOf(k));
  }

  lemma StubAsyncRawBound(k: Kind, m: Method)
    ensures AsyncBound(StubAsyncRaw(k), m, AsyncVarsOf(k))
  {
    hide AsyncBound;
    assert Bound(StubAsyncRaw(k), AsyncEnv(m, Prefix(0), AsyncVarsOf(k)));
    AsyncBoundOnce(StubAsyncRaw(k), m, AsyncVarsOf(k));
  }

  lemma CallbackBound(k: Kind, m: Method)
    ensures Bound(CallbackInterface(k), MethodEnv(m)) && Bound(CallbackInterfaceReactor(), MethodEnv(m))
    ensures Bound(CallbackStub(k), MethodEnv(m)) && Bound(CallbackStubReactor(), MethodEnv(m))
    ensures Bound(StubData(), DataEnv(m))
  {
  }
}
