// The templates of the server half of a header: the Service base class and the
// mixin classes of the asynchronous, callback, generic, raw and streamed APIs.
module ServerTemplates {
  import opened Schema
  import opened Emit
  import opened Decimal

  // PrintHeaderServerMethodSync
  function ServiceSync(k: Kind): Form {
    match k
    case Unary =>
      Decl(T0(Status), [], [V(VMethod)],
           [T0(ServerContextPtr), T1(ConstPtr, V(VRequest)), T1(Ptr, V(VResponse))], [], Semi)
    case ClientStreaming =>
      Decl(T0(Status), [], [V(VMethod)],
           [T0(ServerContextPtr), T1(ServerReaderPtr, V(VRequest)), T1(Ptr, V(VResponse))], [], Semi)
    case ServerStreaming =>
      Decl(T0(Status), [], [V(VMethod)],
           [T0(ServerContextPtr), T1(ConstPtr, V(VRequest)), T1(ServerWriterPtr, V(VResponse))], [], Semi)
    case BidiStreaming =>
      Decl(T0(Status), [], [V(VMethod)],
           [T0(ServerContextPtr), T2(ServerReaderWriterPtr, V(VResponse), V(VRequest))], [], Semi)
  }

  // "disable synchronous version of this method"
  function DisableSync(k: Kind): Form {
    match k
    case Unary =>
      Decl(T0(Status), [], [V(VMethod)],
           [T0(ServerContextPtr), T1(ConstPtr, V(VRequest)), T1(Ptr, V(VResponse))], [], InlineOverride)
    case ClientStreaming =>
      Decl(T0(Status), [], [V(VMethod)],
           [T0(ServerContextPtr), T1(ServerReaderPtr, V(VRequest)), T1(Ptr, V(VResponse))], [], InlineOverride)
    case ServerStreaming =>
      Decl(T0(Status), [], [V(VMethod)],
           [T0(ServerContextPtr), T1(ConstPtr, V(VRequest)), T1(ServerWriterPtr, V(VResponse))], [], InlineOverride)
    case BidiStreaming =>
      Decl(T0(Status), [], [V(VMethod)],
           [T0(ServerContextPtr), T2(ServerReaderWriterPtr, V(VResponse), V(VRequest))], [], InlineOverride)
  }

  // PrintHeaderServerAsyncMethodsHelper
  function AsyncRequest(k: Kind): Form {
    match k
    case Unary =>
      Decl(T0(Void), [], [S("Request"), V(VMethod)],
           [T0(ServerContextPtr), T1(Ptr, V(VRealRequest)), T1(ServerAsyncResponseWriterPtr, V(VRealResponse)),
            T0(CompletionQueuePtr), T0(ServerCompletionQueuePtr), T0(VoidPtr)], [], Open)
    case ClientStreaming =>
      Decl(T0(Void), [], [S("Request"), V(VMethod)],
           [T0(ServerContextPtr), T2(ServerAsyncReaderPtr, V(VRealResponse), V(VRealRequest)),
            T0(CompletionQueuePtr), T0(ServerCompletionQueuePtr), T0(VoidPtr)], [], Open)
    case ServerStreaming =>
      Decl(T0(Void), [], [S("Request"), V(VMethod)],
           [T0(ServerContextPtr), T1(Ptr, V(VRealRequest)), T1(ServerAsyncWriterPtr, V(VRealResponse)),
            T0(CompletionQueuePtr), T0(ServerCompletionQueuePtr), T0(VoidPtr)], [], Open)
    case BidiStreaming =>
      Decl(T0(Void), [], [S("Request"), V(VMethod)],
           [T0(ServerContextPtr), T2(ServerAsyncReaderWriterPtr, V(VRealResponse), V(VRealRequest)),
            T0(CompletionQueuePtr), T0(ServerCompletionQueuePtr), T0(VoidPtr)], [], Open)
  }

  // RequestAsyncUnary, RequestAsyncClientStreaming, ...
  function AsyncRequestCall(k: Kind): Form {
    match k
    case Unary => UseIndex(RequestAsync(Unary), [], V(VIdx), [], [])
    case ClientStreaming => UseIndex(RequestAsync(ClientStreaming), [], V(VIdx), [], [])
    case ServerStreaming => UseIndex(RequestAsync(ServerStreaming), [], V(VIdx), [], [])
    case BidiStreaming => UseIndex(RequestAsync(BidiStreaming), [], V(VIdx), [], [])
  }

  // PrintHeaderServerCallbackMethodsHelper
  function CallbackVirtual(k: Kind): Form {
    match k
    case Unary =>
      Decl(T0(ServerUnaryReactorPtr), [], [V(VMethod)],
           [T0(CallbackServerContextPtr), T1(ConstPtr, V(VRealRequest)), T1(Ptr, V(VRealResponse))], [], Inline)
    case ClientStreaming =>
      Decl(T1(ServerReadReactorPtr, V(VRealRequest)), [], [V(VMethod)],
           [T0(CallbackServerContextPtr), T1(Ptr, V(VRealResponse))], [], Inline)
    case ServerStreaming =>
      Decl(T1(ServerWriteReactorPtr, V(VRealResponse)), [], [V(VMethod)],
           [T0(CallbackServerContextPtr), T1(ConstPtr, V(VRealRequest))], [], Inline)
    case BidiStreaming =>
      Decl(T2(ServerBidiReactorPtr, V(VRealRequest), V(VRealResponse)), [], [V(VMethod)],
           [T0(CallbackServerContextPtr)], [], Inline)
  }

  function MixinName(prefix: string): seq<Ref> { [S(prefix), V(VMethod)] }

  function MixinHeadForm(prefix: string): Form { Class(MixinClass, MixinName(prefix), []) }

  function MixinDtorForm(prefix: string): Form { Stmt(MixinDtor, MixinName(prefix)) }

  function MixinCtorForm(prefix: string): Form { Stmt(MixinCtor, MixinName(prefix)) }

  // Constructors that mark the method in one print.
  function AsyncCtorForm(): Form { UseIndex(MarkAsync, MixinName("WithAsyncMethod_"), V(VIdx), [], []) }

  function GenericCtorForm(): Form { UseIndex(MarkGeneric, MixinName("WithGenericMethod_"), V(VIdx), [], []) }

  function RawCtorForm(): Form { UseIndex(MarkRaw, MixinName("WithRawMethod_"), V(VIdx), [], []) }

  // The marking statement inside a callback mixin's constructor. The unary one
  // closes the constructor itself, and SetMessageAllocatorFor_ opens behind it.
  function CallbackMark(k: Kind): Form {
    match k
    case Unary => UseIndex(MarkCallback(Unary), [], V(VIdx), [V(VRealRequest), V(VRealResponse)], [V(VMethod)])
    case ClientStreaming => UseIndex(MarkCallback(ClientStreaming), [], V(VIdx), [V(VRealRequest), V(VRealResponse)],
      [V(VMethod)])
    case ServerStreaming => UseIndex(MarkCallback(ServerStreaming), [], V(VIdx), [V(VRealRequest), V(VRealResponse)],
      [V(VMethod)])
    case BidiStreaming => UseIndex(MarkCallback(BidiStreaming), [], V(VIdx), [V(VRealRequest), V(VRealResponse)],
      [V(VMethod)])
  }

  function MessageAllocator(): Form {
    UseIndex(GetHandler, [S("SetMessageAllocatorFor_"), V(VMethod)], V(VIdx), [V(VRealRequest), V(VRealResponse)], [])
  }

  function RawCallbackMark(k: Kind): Form {
    match k
    case Unary => UseIndex(MarkRawCallback(Unary), [], V(VIdx), [V(VRealRequest), V(VRealResponse)], [V(VMethod)])
    case ClientStreaming => UseIndex(MarkRawCallback(ClientStreaming), [], V(VIdx),
      [V(VRealRequest), V(VRealResponse)], [V(VMethod)])
    case ServerStreaming => UseIndex(MarkRawCallback(ServerStreaming), [], V(VIdx),
      [V(VRealRequest), V(VRealResponse)], [V(VMethod)])
    case BidiStreaming => UseIndex(MarkRawCallback(BidiStreaming), [], V(VIdx), [V(VRealRequest), V(VRealResponse)],
      [V(VMethod)])
  }

  // PrintHeaderServerMethodStreamedUnary
  function StreamedUnaryCtor(): Form {
    UseIndex(MarkStreamed(Unary), MixinName("WithStreamedUnaryMethod_"), V(VIdx), [V(VRequest), V(VResponse)],
             [S("Streamed"), V(VMethod)])
  }

  function StreamedUnaryVirtual(): Form {
    Decl(T0(Status), [], [S("Streamed"), V(VMethod)],
         [T0(ServerContextPtr), T2(ServerUnaryStreamerPtr, V(VRequest), V(VResponse))], [], Pure)
  }

  function DisableRegularUnary(): Form {
    Decl(T0(Status), [], [V(VMethod)],
         [T0(ServerContextPtr), T1(ConstPtr, V(VRequest)), T1(Ptr, V(VResponse))], [], InlineOverride)
  }

  // PrintHeaderServerMethodSplitStreaming
  function SplitCtor(): Form {
    UseIndex(MarkStreamed(ServerStreaming), MixinName("WithSplitStreamingMethod_"), V(VIdx),
             [V(VRequest), V(VResponse)], [S("Streamed"), V(VMethod)])
  }

  function SplitVirtual(): Form {
    Decl(T0(Status), [], [S("Streamed"), V(VMethod)],
         [T0(ServerContextPtr), T2(ServerSplitStreamerPtr, V(VRequest), V(VResponse))], [], Pure)
  }

  function DisableRegularServerStreaming(): Form {
    Decl(T0(Status), [], [V(VMethod)],
         [T0(ServerContextPtr), T1(ConstPtr, V(VRequest)), T1(ServerWriterPtr, V(VResponse))], [], InlineOverride)
  }

  // ---- Environments ----

  function IndexEnv(m: Method, i: nat): Env { MethodEnv(m)[VIdx := Dec(i)] }

  // The types the asynchronous or callback API is generated for: the method's
  // own, or byte buffers.
  datatype RealTypes = RealTypes(request: string, response: string)

  function OwnTypes(m: Method): RealTypes { RealTypes(m.inputType, m.outputType) }

  function ByteBuffers(): RealTypes { RealTypes("::grpc::ByteBuffer", "::grpc::ByteBuffer") }

  function MixinEnv(m: Method, i: nat, t: RealTypes): Env {
    IndexEnv(m, i)[VRealRequest := t.request][VRealResponse := t.response]
  }

  // ---- Every variable of every template is set when it is printed. ----

  lemma ServiceBound(k: Kind, m: Method)
    ensures Bound(ServiceSync(k), MethodEnv(m))
  {
  }

  lemma NamesBound(prefix: string, env: Env)
    requires VMethod in env
    ensures Bound(MixinHeadForm(prefix), env) && Bound(MixinDtorForm(prefix), env) && Bound(MixinCtorForm(prefix), env)
  {
  }

  lemma CtorsBound(m: Method, i: nat)
    ensures Bound(GenericCtorForm(), IndexEnv(m, i))
    ensures Bound(StreamedUnaryCtor(), IndexEnv(m, i)) && Bound(SplitCtor(), IndexEnv(m, i))
  {
  }

  lemma StreamedBound(m: Method, i: nat)
    ensures Bound(StreamedUnaryVirtual(), IndexEnv(m, i)) && Bound(DisableRegularUnary(), IndexEnv(m, i))
    ensures Bound(SplitVirtual(), IndexEnv(m, i)) && Bound(DisableRegularServerStreaming(), IndexEnv(m, i))
  {
  }

  lemma DisableBound(k: Kind, env: Env)
    requires VMethod in env && VRequest in env && VResponse in env
    ensures Bound(DisableSync(k), env)
  {
  }

  lemma AsyncCtorsBound(k: Kind, m: Method, i: nat, t: RealTypes)
    ensures Bound(AsyncRequestCall(k), MixinEnv(m, i, t))
    ensures Bound(AsyncCtorForm(), MixinEnv(m, i, t)) && Bound(RawCtorForm(), MixinEnv(m, i, t))
  {
    hide Dec;
  }

  lemma AsyncHelperBound(k: Kind, m: Method, i: nat, t: RealTypes)
    ensures Bound(AsyncRequest(k), MixinEnv(m, i, t)) && Bound(AsyncRequestCall(k), MixinEnv(m, i, t))
    ensures Bound(AsyncCtorForm(), MixinEnv(m, i, t)) && Bound(RawCtorForm(), MixinEnv(m, i, t))
  {
    AsyncCtorsBound(k, m, i, t);
    hide Dec, AsyncRequestCall, AsyncCtorForm, RawCtorForm;
  }

  lemma CallbackHelperBound(k: Kind, m: Method, i: nat, t: RealTypes)
    ensures Bound(CallbackVirtual(k), MixinEnv(m, i, t))
    ensures Bound(CallbackMark(k), MixinEnv(m, i, t)) && Bound(RawCallbackMark(k), MixinEnv(m, i, t))
    ensures Bound(MessageAllocator(), MixinEnv(m, i, t))
  {
  }
}
