// The signatures a method's streaming kind calls for, written down once and
// without variables, and the proof that every pass spells out these.
module Signatures {
  import opened Schema
  import opened Emit
  import opened Structure
  import opened ClientTemplates
  import opened ServerTemplates
  import opened SourceTemplates
  import opened MockService

  // ---- Client ----

  // Status Method(context, const Request&, Response*)
  function SyncSig(m: Method): Sig {
    Sig(T0(Status), [S(m.name)], [T0(ClientContextPtr), T1(ConstRef, S(m.inputType)), T1(Ptr, S(m.outputType))], [])
  }

  function StreamParams(m: Method): seq<Ty> {
    match m.Kind()
    case Unary => [T0(ClientContextPtr), T1(ConstRef, S(m.inputType))]
    case ClientStreaming => [T0(ClientContextPtr), T1(Ptr, S(m.outputType))]
    case ServerStreaming => [T0(ClientContextPtr), T1(ConstRef, S(m.inputType))]
    case BidiStreaming => [T0(ClientContextPtr)]
  }

  // The blocking stream of a streaming method.
  function StreamTy(m: Method, isInterface: bool, unique: bool): Ty {
    match m.Kind()
    case Unary => T0(Status)
    case ClientStreaming => T1(Client(Writer, isInterface, unique), S(m.inputType))
    case ServerStreaming => T1(Client(Reader, isInterface, unique), S(m.outputType))
    case BidiStreaming => T2(Client(ReaderWriter, isInterface, unique), S(m.inputType), S(m.outputType))
  }

  function AsyncTy(m: Method, isInterface: bool, unique: bool): Ty {
    match m.Kind()
    case Unary => T1(Client(AsyncResponseReader, isInterface, unique), S(m.outputType))
    case ClientStreaming => T1(Client(AsyncWriter, isInterface, unique), S(m.inputType))
    case ServerStreaming => T1(Client(AsyncReader, isInterface, unique), S(m.outputType))
    case BidiStreaming => T2(Client(AsyncReaderWriter, isInterface, unique), S(m.inputType), S(m.outputType))
  }

  function RawSig(m: Method, isInterface: bool): Sig {
    Sig(StreamTy(m, isInterface, false), [S(m.name), S("Raw")], StreamParams(m), [])
  }

  function AsyncRawSig(m: Method, i: nat, isInterface: bool): Sig {
    Sig(AsyncTy(m, isInterface, false), [S(Prefix(i).prefix), S(m.name), S("Raw")],
      StreamParams(m) + [T0(CompletionQueuePtr)],
        if m.Kind() == Unary then [] else [S(Prefix(i).methodParams)])
  }

  function WrapperSig(m: Method, isInterface: bool): Sig {
    Sig(StreamTy(m, isInterface, true), [S(m.name)], StreamParams(m), [])
  }

  function AsyncWrapperSig(m: Method, i: nat, isInterface: bool): Sig {
    Sig(AsyncTy(m, isInterface, true), [S(Prefix(i).prefix), S(m.name)], StreamParams(m) + [T0(CompletionQueuePtr)],
        if m.Kind() == Unary then [] else [S(Prefix(i).methodParams)])
  }

  // The call of MethodRaw from its wrapper.
  function WrapperCall(m: Method, isInterface: bool): Fact {
    Call(StreamTy(m, isInterface, true), [S(m.name), S("Raw")], |StreamParams(m)|, [])
  }

  function AsyncWrapperCall(m: Method, i: nat, isInterface: bool): Fact {
    Call(AsyncTy(m, isInterface, true), [S(Prefix(i).prefix), S(m.name), S("Raw")], |StreamParams(m)| + 1,
         if m.Kind() == Unary then [] else [S(Prefix(i).rawArgs)])
  }

  function CallbackSig(m: Method): Sig {
    Sig(T0(Void), [S(m.name)],
        match m.Kind()
        case Unary => [T0(ClientContextPtr), T1(ConstPtr, S(m.inputType)), T1(Ptr, S(m.outputType)), T0(StatusFunction)]
        case ClientStreaming => [T0(ClientContextPtr), T1(Ptr, S(m.outputType)),
          T1(ClientWriteReactorPtr, S(m.inputType))]
        case ServerStreaming => [T0(ClientContextPtr), T1(ConstPtr, S(m.inputType)),
          T1(ClientReadReactorPtr, S(m.outputType))]
        case BidiStreaming => [T0(ClientContextPtr), T2(ClientBidiReactorPtr, S(m.inputType), S(m.outputType))],
        [])
  }

  function ReactorSig(m: Method): Sig {
    Sig(T0(Void), [S(m.name)],
        [T0(ClientContextPtr), T1(ConstPtr, S(m.inputType)), T1(Ptr, S(m.outputType)), T0(ClientUnaryReactorPtr)], [])
  }

  // ---- Server ----

  function ServiceSig(m: Method): Sig {
    Sig(T0(Status), [S(m.name)],
        match m.Kind()
        case Unary => [T0(ServerContextPtr), T1(ConstPtr, S(m.inputType)), T1(Ptr, S(m.outputType))]
        case ClientStreaming => [T0(ServerContextPtr), T1(ServerReaderPtr, S(m.inputType)), T1(Ptr, S(m.outputType))]
        case ServerStreaming => [T0(ServerContextPtr), T1(ConstPtr, S(m.inputType)),
          T1(ServerWriterPtr, S(m.outputType))]
        case BidiStreaming => [T0(ServerContextPtr), T2(ServerReaderWriterPtr, S(m.outputType), S(m.inputType))],
        [])
  }

  // The asynchronous, reactor and streamed functions of the mixin classes, over
  // the types the messages travel as.
  function RequestSig(m: Method, request: string, response: string): Sig {
    Sig(T0(Void), [S("Request"), S(m.name)],
        (match m.Kind()
         case Unary =>
           [T0(ServerContextPtr), T1(Ptr, S(request)), T1(ServerAsyncResponseWriterPtr, S(response))]
         case ClientStreaming => [T0(ServerContextPtr), T2(ServerAsyncReaderPtr, S(response), S(request))]
         case ServerStreaming => [T0(ServerContextPtr), T1(Ptr, S(request)), T1(ServerAsyncWriterPtr, S(response))]
         case BidiStreaming => [T0(ServerContextPtr), T2(ServerAsyncReaderWriterPtr, S(response), S(request))]) +
        [T0(CompletionQueuePtr), T0(ServerCompletionQueuePtr), T0(VoidPtr)],
        [])
  }

  function ReactionSig(m: Method, request: string, response: string): Sig {
    match m.Kind()
    case Unary =>
      Sig(T0(ServerUnaryReactorPtr), [S(m.name)],
          [T0(CallbackServerContextPtr), T1(ConstPtr, S(request)), T1(Ptr, S(response))], [])
    case ClientStreaming =>
      Sig(T1(ServerReadReactorPtr, S(request)), [S(m.name)], [T0(CallbackServerContextPtr), T1(Ptr, S(response))], [])
    case ServerStreaming =>
      Sig(T1(ServerWriteReactorPtr, S(response)), [S(m.name)],
          [T0(CallbackServerContextPtr), T1(ConstPtr, S(request))], [])
    case BidiStreaming =>
      Sig(T2(ServerBidiReactorPtr, S(request), S(response)), [S(m.name)], [T0(CallbackServerContextPtr)], [])
  }

  function StreamedUnarySig(m: Method): Sig {
    Sig(T0(Status), [S("Streamed"), S(m.name)],
        [T0(ServerContextPtr), T2(ServerUnaryStreamerPtr, S(m.inputType), S(m.outputType))], [])
  }

  function SplitSig(m: Method): Sig {
    Sig(T0(Status), [S("Streamed"), S(m.name)],
        [T0(ServerContextPtr), T2(ServerSplitStreamerPtr, S(m.inputType), S(m.outputType))], [])
  }

  // ---- Rendering short lists of holes ----

  lemma RenderedRefs()
    ensures forall m {:trigger RRefs([], m)} :: RRefs([], m) == []
    ensures forall a, m {:trigger RRefs([a], m)} :: RRefs([a], m) == [RRef(a, m)]
    ensures forall a, b, m {:trigger RRefs([a, b], m)} :: RRefs([a, b], m) == [RRef(a, m), RRef(b, m)]
    ensures forall a, b, c, m {:trigger RRefs([a, b, c], m)} ::
      RRefs([a, b, c], m) == [RRef(a, m), RRef(b, m), RRef(c, m)]
  {
  }

  lemma RenderedTys()
    ensures forall m {:trigger RTys([], m)} :: RTys([], m) == []
    ensures forall a, m {:trigger RTys([a], m)} :: RTys([a], m) == [RTy(a, m)]
    ensures forall a, b, m {:trigger RTys([a, b], m)} :: RTys([a, b], m) == [RTy(a, m), RTy(b, m)]
    ensures forall a, b, c, m {:trigger RTys([a, b, c], m)} :: RTys([a, b, c], m) == [RTy(a, m), RTy(b, m), RTy(c, m)]
    ensures forall a, b, c, d, m {:trigger RTys([a, b, c, d], m)} ::
      RTys([a, b, c, d], m) == [RTy(a, m), RTy(b, m), RTy(c, m), RTy(d, m)]
  {
  }

  // ---- Every pass spells these out. ----

  predicate ForMethod(env: Env, m: Method) {
    VMethod in env && VRequest in env && VResponse in env &&
    env[VMethod] == m.name && env[VRequest] == m.inputType && env[VResponse] == m.outputType
  }

  predicate ForAsync(env: Env, m: Method, i: nat) {
    ForMethod(env, m) && VAsyncPrefix in env && env[VAsyncPrefix] == Prefix(i).prefix &&
    (m.Kind() != Unary ==> VAsyncMethodParams in env && env[VAsyncMethodParams] == Prefix(i).methodParams)
  }

  predicate ForAsyncCall(env: Env, m: Method, i: nat) {
    ForAsync(env, m, i) && (m.Kind() != Unary ==> VAsyncRawArgs in env && env[VAsyncRawArgs] == Prefix(i).rawArgs)
  }

  lemma InterfaceSigs(m: Method, env: Env)
    requires ForMethod(env, m)
    ensures SigOf(Render(InterfaceSync(m.Kind()), env)) == if m.Kind() == Unary then SyncSig(m) else WrapperSig(m, true)
    ensures m.Kind() != Unary ==> SigOf(Render(InterfaceRaw(m.Kind()), env)) == RawSig(m, true)
  {
    RenderedRefs();
    RenderedTys();
    hide RRefs, RTys;
  }

  lemma InterfaceAsyncSigs(m: Method, i: nat, env: Env)
    requires ForAsync(env, m, i)
    ensures SigOf(Render(InterfaceAsync(m.Kind()), env)) == AsyncWrapperSig(m, i, true)
    ensures SigOf(Render(InterfaceAsyncRaw(m.Kind()), env)) == AsyncRawSig(m, i, true)
  {
    RenderedRefs();
    RenderedTys();
    hide RRefs, RTys, Prefix;
  }

  lemma StubSigs(m: Method, env: Env)
    requires ForMethod(env, m)
    ensures SigOf(Render(StubSync(m.Kind()), env)) == if m.Kind() == Unary then SyncSig(m) else WrapperSig(m, false)
    ensures m.Kind() != Unary ==> SigOf(Render(StubRaw(m.Kind()), env)) == RawSig(m, false)
  {
    RenderedRefs();
    RenderedTys();
    hide RRefs, RTys;
  }

  lemma StubAsyncSigs(m: Method, i: nat, env: Env)
    requires ForAsync(env, m, i)
    ensures SigOf(Render(StubAsync(m.Kind()), env)) == AsyncWrapperSig(m, i, false)
    ensures SigOf(Render(StubAsyncRaw(m.Kind()), env)) == AsyncRawSig(m, i, false)
  {
    RenderedRefs();
    RenderedTys();
    hide RRefs, RTys, Prefix;
  }

  lemma CallbackSigs(m: Method, env: Env)
    requires ForMethod(env, m)
    ensures SigOf(Render(CallbackInterface(m.Kind()), env)) == CallbackSig(m)
    ensures SigOf(Render(CallbackInterfaceReactor(), env)) == ReactorSig(m)
    ensures SigOf(Render(CallbackStub(m.Kind()), env)) == CallbackSig(m)
    ensures SigOf(Render(CallbackStubReactor(), env)) == ReactorSig(m)
  {
    RenderedRefs();
    RenderedTys();
    hide RRefs, RTys;
  }

  lemma DefinitionSigs(m: Method, env: Env)
    requires ForMethod(env, m)
    ensures SigOf(Render(SyncDefinition(m.Kind()), env)) == if m.Kind() == Unary then SyncSig(m) else RawSig(m, false)
    ensures SigOf(Render(CallbackDefinition(m.Kind()), env)) == CallbackSig(m)
    ensures SigOf(Render(ReactorDefinition(), env)) == ReactorSig(m)
  {
    RenderedRefs();
    RenderedTys();
    hide RRefs, RTys;
  }

  lemma AsyncDefinitionSigs(m: Method, i: nat, env: Env)
    requires ForAsync(env, m, i) && m.Kind() != Unary
    ensures SigOf(Render(AsyncDefinition(m.Kind()), env)) == AsyncRawSig(m, i, false)
  {
    RenderedRefs();
    RenderedTys();
    hide RRefs, RTys, Prefix;
  }

  lemma UnaryAsyncDefinitionSigs(m: Method, i: nat, env: Env)
    requires ForMethod(env, m) && m.Kind() == Unary
    ensures SigOf(Render(UnaryAsyncDefinition(Prefix(i).prefix), env)) == AsyncRawSig(m, i, false)
  {
    RenderedRefs();
    RenderedTys();
    hide RRefs, RTys, Prefix;
  }

  lemma ServiceSigs(m: Method, env: Env)
    requires ForMethod(env, m)
    ensures SigOf(Render(ServiceSync(m.Kind()), env)) == ServiceSig(m)
    ensures SigOf(Render(DisableSync(m.Kind()), env)) == ServiceSig(m)
    ensures SigOf(Render(ServerDefinition(m.Kind()), env)) == ServiceSig(m)
    ensures m.Kind() == Unary ==> SigOf(Render(DisableRegularUnary(), env)) == ServiceSig(m)
    ensures m.Kind() == ServerStreaming ==> SigOf(Render(DisableRegularServerStreaming(), env)) == ServiceSig(m)
  {
    RenderedRefs();
    RenderedTys();
    hide RRefs, RTys;
  }

  lemma MockSigs(m: Method, env: Env)
    requires ForMethod(env, m)
    ensures SigOf(Render(MockSync(m.Kind()), env)) == if m.Kind() == Unary then SyncSig(m) else RawSig(m, true)
  {
    RenderedRefs();
    RenderedTys();
    hide RRefs, RTys;
  }

  lemma MockAsyncSigs(m: Method, i: nat, env: Env)
    requires ForAsync(env, m, i)
    ensures SigOf(Render(MockAsync(m.Kind()), env)) == AsyncRawSig(m, i, true)
  {
    RenderedRefs();
    RenderedTys();
    hide RRefs, RTys, Prefix;
  }
}
