// The passes that emit the server half of a header: what each adds to the
// output, and the emitters on the shared printer and variable map.
module ServerHeader {
  import opened Schema
  import opened Emit
  import opened ServerTemplates
  import opened Decimal

  // ---- Output of the passes ----

  function ServiceSyncOutput(o: seq<Item>, ind: nat, m: Method, ps: Parameters): seq<Item> {
    var o1 := PutComments(o, ind, m.leading);
    var o2 := if ps.allowSyncServerApi then PutText(o1, ind, VirtualKeyword) else o1;
    PutComments(Put(o2, ind, ServiceSync(m.Kind()), MethodEnv(m)), ind, m.trailing)
  }

  function MixinHead(o: seq<Item>, ind: nat, prefix: string, env: Env): seq<Item> {
    PutText(PutText(Put(PutText(o, ind, TemplateLine), ind, MixinHeadForm(prefix), env), ind, DerivedCheck), ind,
      PublicLabel)
  }

  function AsyncHelperOutput(o: seq<Item>, ind: nat, k: Kind, ps: Parameters, env: Env): seq<Item> {
    var o1 := if ps.allowSyncServerApi then Put(o, ind, DisableSync(k), env) else o;
    PutText(Put(Put(o1, ind, AsyncRequest(k), env), ind, AsyncRequestCall(k), env), ind, CloseBrace)
  }

  function CallbackHelperOutput(o: seq<Item>, ind: nat, k: Kind, ps: Parameters, env: Env): seq<Item> {
    var o1 := if ps.allowSyncServerApi then Put(o, ind, DisableSync(k), env) else o;
    Put(o1, ind, CallbackVirtual(k), env)
  }

  function AsyncMixin(o: seq<Item>, ind: nat, m: Method, i: nat, ps: Parameters): seq<Item> {
    var env := MixinEnv(m, i, OwnTypes(m));
    var o1 := Put(MixinHead(o, ind, "WithAsyncMethod_", env), ind + 1, AsyncCtorForm(), env);
    var o2 := Put(o1, ind + 1, MixinDtorForm("WithAsyncMethod_"), env);
    PutText(AsyncHelperOutput(o2, ind + 1, m.Kind(), ps, env), ind, CloseClass)
  }

  function RawMixin(o: seq<Item>, ind: nat, m: Method, i: nat, ps: Parameters): seq<Item> {
    var env := MixinEnv(m, i, ByteBuffers());
    var o1 := Put(MixinHead(o, ind, "WithRawMethod_", env), ind + 1, RawCtorForm(), env);
    var o2 := Put(o1, ind + 1, MixinDtorForm("WithRawMethod_"), env);
    PutText(AsyncHelperOutput(o2, ind + 1, m.Kind(), ps, env), ind, CloseClass)
  }

  function CallbackMarks(o: seq<Item>, ind: nat, k: Kind, env: Env): seq<Item> {
    var o1 := Put(o, ind, CallbackMark(k), env);
    if k == Unary then Put(o1, ind, MessageAllocator(), env) else o1
  }

  function CallbackMixin(o: seq<Item>, ind: nat, m: Method, i: nat, ps: Parameters): seq<Item> {
    var env := MixinEnv(m, i, OwnTypes(m));
    var o1 := Put(MixinHead(o, ind, "WithCallbackMethod_", env), ind + 1, MixinCtorForm("WithCallbackMethod_"), env);
    var o2 := PutText(CallbackMarks(o1, ind + 1, m.Kind(), env), ind + 1, CloseBrace);
    var o3 := Put(o2, ind + 1, MixinDtorForm("WithCallbackMethod_"), env);
    PutText(CallbackHelperOutput(o3, ind + 1, m.Kind(), ps, env), ind, CloseClass)
  }

  function RawCallbackMixin(o: seq<Item>, ind: nat, m: Method, i: nat, ps: Parameters): seq<Item> {
    var env := MixinEnv(m, i, ByteBuffers());
    var o1 := Put(MixinHead(o, ind, "WithRawCallbackMethod_", env), ind + 1, MixinCtorForm("WithRawCallbackMethod_"),
      env);
    var o2 := PutText(Put(o1, ind + 1, RawCallbackMark(m.Kind()), env), ind + 1, CloseBrace);
    var o3 := Put(o2, ind + 1, MixinDtorForm("WithRawCallbackMethod_"), env);
    PutText(CallbackHelperOutput(o3, ind + 1, m.Kind(), ps, env), ind, CloseClass)
  }

  function StreamedUnaryMixin(o: seq<Item>, ind: nat, m: Method, i: nat): seq<Item> {
    if m.Kind() != Unary then o
    else
      var env := IndexEnv(m, i);
      var o1 := Put(MixinHead(o, ind, "WithStreamedUnaryMethod_", env), ind + 1, StreamedUnaryCtor(), env);
      var o2 := Put(o1, ind + 1, MixinDtorForm("WithStreamedUnaryMethod_"), env);
      PutText(Put(Put(o2, ind + 1, DisableRegularUnary(), env), ind + 1, StreamedUnaryVirtual(), env), ind, CloseClass)
  }

  function SplitStreamingMixin(o: seq<Item>, ind: nat, m: Method, i: nat): seq<Item> {
    if m.Kind() != ServerStreaming then o
    else
      var env := IndexEnv(m, i);
      var o1 := Put(MixinHead(o, ind, "WithSplitStreamingMethod_", env), ind + 1, SplitCtor(), env);
      var o2 := Put(o1, ind + 1, MixinDtorForm("WithSplitStreamingMethod_"), env);
      PutText(Put(Put(o2, ind + 1, DisableRegularServerStreaming(), env), ind + 1, SplitVirtual(), env), ind,
        CloseClass)
  }

  function GenericMixin(o: seq<Item>, ind: nat, m: Method, i: nat, ps: Parameters): seq<Item> {
    var env := IndexEnv(m, i);
    var o1 := Put(MixinHead(o, ind, "WithGenericMethod_", env), ind + 1, GenericCtorForm(), env);
    var o2 := Put(o1, ind + 1, MixinDtorForm("WithGenericMethod_"), env);
    var o3 := if ps.allowSyncServerApi then Put(o2, ind + 1, DisableSync(m.Kind()), env) else o2;
    PutText(o3, ind, CloseClass)
  }

  // ---- Emitters ----

  method PrintHeaderServerMethodSync(p: Printer, m: Method, ps: Parameters, vars: Vars)
    modifies p, vars
    ensures p.out == ServiceSyncOutput(old(p.out), old(p.indent), m, ps) && p.indent == old(p.indent)
    ensures OnlyLocals(old(vars.m), vars.m)
  {
    hide Put, PutComments, Agrees, Bound, OnlyLocals, MethodEnv, ServiceSync;
    SetMethod(vars, m);
    ServiceBound(m.Kind(), m);
    p.PrintComments(m.leading);
    if ps.allowSyncServerApi {
      p.PrintText(VirtualKeyword);
    }
    if m.NoStreaming() {
      p.Print(vars, ServiceSync(Unary), MethodEnv(m));
    } else if m.ClientOnlyStreaming() {
      p.Print(vars, ServiceSync(ClientStreaming), MethodEnv(m));
    } else if m.ServerOnlyStreaming() {
      p.Print(vars, ServiceSync(ServerStreaming), MethodEnv(m));
    } else if m.IsBidiStreaming() {
      p.Print(vars, ServiceSync(BidiStreaming), MethodEnv(m));
    }
    p.PrintComments(m.trailing);
  }

  // template <class BaseClass> class ..., up to the indented public part
  method PrintMixinHead(p: Printer, vars: Vars, prefix: string, ghost env: Env)
    requires Agrees(vars.m, env) && VMethod in env
    modifies p
    ensures p.out == MixinHead(old(p.out), old(p.indent), prefix, env) && p.indent == old(p.indent) + 1
  {
    NamesBound(prefix, env);
    hide Put, Agrees, Bound, MixinHeadForm;
    p.PrintText(TemplateLine);
    p.Print(vars, MixinHeadForm(prefix), env);
    p.PrintText(DerivedCheck);
    p.PrintText(PublicLabel);
    p.Indent();
  }

  method PrintHeaderServerAsyncMethodsHelper(p: Printer, m: Method, ps: Parameters, vars: Vars, ghost env: Env)
    requires Agrees(vars.m, env) && Bound(DisableSync(m.Kind()), env)
    requires Bound(AsyncRequest(m.Kind()), env) && Bound(AsyncRequestCall(m.Kind()), env)
    modifies p
    ensures p.out == AsyncHelperOutput(old(p.out), old(p.indent), m.Kind(), ps, env) && p.indent == old(p.indent)
  {
    hide Put, Agrees, Bound, DisableSync, AsyncRequest, AsyncRequestCall;
    if m.NoStreaming() {
      if ps.allowSyncServerApi {
        p.Print(vars, DisableSync(Unary), env);
      }
      p.Print(vars, AsyncRequest(Unary), env);
      p.Print(vars, AsyncRequestCall(Unary), env);
      p.PrintText(CloseBrace);
    } else if m.ClientOnlyStreaming() {
      if ps.allowSyncServerApi {
        p.Print(vars, DisableSync(ClientStreaming), env);
      }
      p.Print(vars, AsyncRequest(ClientStreaming), env);
      p.Print(vars, AsyncRequestCall(ClientStreaming), env);
      p.PrintText(CloseBrace);
    } else if m.ServerOnlyStreaming() {
      if ps.allowSyncServerApi {
        p.Print(vars, DisableSync(ServerStreaming), env);
      }
      p.Print(vars, AsyncRequest(ServerStreaming), env);
      p.Print(vars, AsyncRequestCall(ServerStreaming), env);
      p.PrintText(CloseBrace);
    } else if m.IsBidiStreaming() {
      if ps.allowSyncServerApi {
        p.Print(vars, DisableSync(BidiStreaming), env);
      }
      p.Print(vars, AsyncRequest(BidiStreaming), env);
      p.Print(vars, AsyncRequestCall(BidiStreaming), env);
      p.PrintText(CloseBrace);
    }
  }

  method PrintHeaderServerCallbackMethodsHelper(p: Printer, m: Method, ps: Parameters, vars: Vars, ghost env: Env)
    requires Agrees(vars.m, env) && Bound(DisableSync(m.Kind()), env) && Bound(CallbackVirtual(m.Kind()), env)
    modifies p
    ensures p.out == CallbackHelperOutput(old(p.out), old(p.indent), m.Kind(), ps, env) && p.indent == old(p.indent)
  {
    hide Put, Agrees, Bound, DisableSync, CallbackVirtual;
    if m.NoStreaming() {
      if ps.allowSyncServerApi {
        p.Print(vars, DisableSync(Unary), env);
      }
      p.Print(vars, CallbackVirtual(Unary), env);
    } else if m.ClientOnlyStreaming() {
      if ps.allowSyncServerApi {
        p.Print(vars, DisableSync(ClientStreaming), env);
      }
      p.Print(vars, CallbackVirtual(ClientStreaming), env);
    } else if m.ServerOnlyStreaming() {
      if ps.allowSyncServerApi {
        p.Print(vars, DisableSync(ServerStreaming), env);
      }
      p.Print(vars, CallbackVirtual(ServerStreaming), env);
    } else if m.IsBidiStreaming() {
      if ps.allowSyncServerApi {
        p.Print(vars, DisableSync(BidiStreaming), env);
      }
      p.Print(vars, CallbackVirtual(BidiStreaming), env);
    }
  }

  // The index the caller of a mixin pass has set.
  predicate HasIndex(m: Env, i: nat) { VIdx in m && m[VIdx] == Dec(i) }

  // The assignments the mixin passes begin with. The index stays what the
  // caller set it to.
  method SetMixin(vars: Vars, m: Method, ghost i: nat, t: RealTypes)
    requires HasIndex(vars.m, i)
    modifies vars
    ensures Agrees(vars.m, MixinEnv(m, i, t)) && OnlyLocals(old(vars.m), vars.m)
  {
    SetMethod(vars, m);
    vars.m := vars.m[VRealRequest := t.request];
    vars.m := vars.m[VRealResponse := t.response];
  }

  method SetIndexed(vars: Vars, m: Method, ghost i: nat)
    requires HasIndex(vars.m, i)
    modifies vars
    ensures Agrees(vars.m, IndexEnv(m, i)) && OnlyLocals(old(vars.m), vars.m)
  {
    SetMethod(vars, m);
  }

  lemma MixinKeys(m: Method, i: nat, t: RealTypes)
    ensures VMethod in MixinEnv(m, i, t) && VRequest in MixinEnv(m, i, t) && VResponse in MixinEnv(m, i, t)
    ensures VMethod in IndexEnv(m, i) && VRequest in IndexEnv(m, i) && VResponse in IndexEnv(m, i)
  {
  }

  method PrintHeaderServerMethodAsync(p: Printer, m: Method, ps: Parameters, vars: Vars, ghost i: nat)
    requires HasIndex(vars.m, i)
    modifies p, vars
    ensures p.out == AsyncMixin(old(p.out), old(p.indent), m, i, ps) && p.indent == old(p.indent)
    ensures OnlyLocals(old(vars.m), vars.m)
  {
    hide Put, MixinHead, AsyncHelperOutput, Agrees, Bound, OnlyLocals, MixinEnv, IndexEnv, Dec, MixinDtorForm,
      AsyncCtorForm, DisableSync, AsyncRequest, AsyncRequestCall;
    SetMixin(vars, m, i, OwnTypes(m));
    ghost var env := MixinEnv(m, i, OwnTypes(m));
    MixinKeys(m, i, OwnTypes(m));
    NamesBound("WithAsyncMethod_", env);
    DisableBound(m.Kind(), env);
    AsyncHelperBound(m.Kind(), m, i, OwnTypes(m));
    PrintMixinHead(p, vars, "WithAsyncMethod_", env);
    p.Print(vars, AsyncCtorForm(), env);
    p.Print(vars, MixinDtorForm("WithAsyncMethod_"), env);
    PrintHeaderServerAsyncMethodsHelper(p, m, ps, vars, env);
    p.Outdent();
    p.PrintText(CloseClass);
  }

  method PrintHeaderServerMethodRaw(p: Printer, m: Method, ps: Parameters, vars: Vars, ghost i: nat)
    requires HasIndex(vars.m, i)
    modifies p, vars
    ensures p.out == RawMixin(old(p.out), old(p.indent), m, i, ps) && p.indent == old(p.indent)
    ensures OnlyLocals(old(vars.m), vars.m)
  {
    hide Put, MixinHead, AsyncHelperOutput, Agrees, Bound, OnlyLocals, MixinEnv, IndexEnv, Dec, MixinDtorForm,
      RawCtorForm, DisableSync, AsyncRequest, AsyncRequestCall, ByteBuffers;
    SetMixin(vars, m, i, ByteBuffers());
    ghost var env := MixinEnv(m, i, ByteBuffers());
    MixinKeys(m, i, ByteBuffers());
    NamesBound("WithRawMethod_", env);
    DisableBound(m.Kind(), env);
    AsyncHelperBound(m.Kind(), m, i, ByteBuffers());
    PrintMixinHead(p, vars, "WithRawMethod_", env);
    p.Print(vars, RawCtorForm(), env);
    p.Print(vars, MixinDtorForm("WithRawMethod_"), env);
    PrintHeaderServerAsyncMethodsHelper(p, m, ps, vars, env);
    p.Outdent();
    p.PrintText(CloseClass);
  }

  method PrintHeaderServerMethodCallback(p: Printer, m: Method, ps: Parameters, vars: Vars, ghost i: nat)
    requires HasIndex(vars.m, i)
    modifies p, vars
    ensures p.out == CallbackMixin(old(p.out), old(p.indent), m, i, ps) && p.indent == old(p.indent)
    ensures OnlyLocals(old(vars.m), vars.m)
  {
    hide Put, MixinHead, CallbackHelperOutput, Agrees, Bound, OnlyLocals, MixinEnv, IndexEnv, Dec, MixinDtorForm,
      MixinCtorForm, CallbackMark, MessageAllocator, DisableSync, CallbackVirtual;
    SetMixin(vars, m, i, OwnTypes(m));
    ghost var env := MixinEnv(m, i, OwnTypes(m));
    MixinKeys(m, i, OwnTypes(m));
    NamesBound("WithCallbackMethod_", env);
    DisableBound(m.Kind(), env);
    CallbackHelperBound(m.Kind(), m, i, OwnTypes(m));
    PrintMixinHead(p, vars, "WithCallbackMethod_", env);
    p.Print(vars, MixinCtorForm("WithCallbackMethod_"), env);
    if m.NoStreaming() {
      p.Print(vars, CallbackMark(Unary), env);
      p.Print(vars, MessageAllocator(), env);
    } else if m.ClientOnlyStreaming() {
      p.Print(vars, CallbackMark(ClientStreaming), env);
    } else if m.ServerOnlyStreaming() {
      p.Print(vars, CallbackMark(ServerStreaming), env);
    } else if m.IsBidiStreaming() {
      p.Print(vars, CallbackMark(BidiStreaming), env);
    }
    p.PrintText(CloseBrace);
    p.Print(vars, MixinDtorForm("WithCallbackMethod_"), env);
    PrintHeaderServerCallbackMethodsHelper(p, m, ps, vars, env);
    p.Outdent();
    p.PrintText(CloseClass);
  }

  method PrintHeaderServerMethodRawCallback(p: Printer, m: Method, ps: Parameters, vars: Vars, ghost i: nat)
    requires HasIndex(vars.m, i)
    modifies p, vars
    ensures p.out == RawCallbackMixin(old(p.out), old(p.indent), m, i, ps) && p.indent == old(p.indent)
    ensures OnlyLocals(old(vars.m), vars.m)
  {
    hide Put, MixinHead, CallbackHelperOutput, Agrees, Bound, OnlyLocals, MixinEnv, IndexEnv, Dec, MixinDtorForm,
      MixinCtorForm, RawCallbackMark, DisableSync, CallbackVirtual, ByteBuffers;
    SetMixin(vars, m, i, ByteBuffers());
    ghost var env := MixinEnv(m, i, ByteBuffers());
    MixinKeys(m, i, ByteBuffers());
    NamesBound("WithRawCallbackMethod_", env);
    DisableBound(m.Kind(), env);
    CallbackHelperBound(m.Kind(), m, i, ByteBuffers());
    PrintMixinHead(p, vars, "WithRawCallbackMethod_", env);
    p.Print(vars, MixinCtorForm("WithRawCallbackMethod_"), env);
    if m.NoStreaming() {
      p.Print(vars, RawCallbackMark(Unary), env);
    } else if m.ClientOnlyStreaming() {
      p.Print(vars, RawCallbackMark(ClientStreaming), env);
    } else if m.ServerOnlyStreaming() {
      p.Print(vars, RawCallbackMark(ServerStreaming), env);
    } else if m.IsBidiStreaming() {
      p.Print(vars, RawCallbackMark(BidiStreaming), env);
    }
    p.PrintText(CloseBrace);
    p.Print(vars, MixinDtorForm("WithRawCallbackMethod_"), env);
    PrintHeaderServerCallbackMethodsHelper(p, m, ps, vars, env);
    p.Outdent();
    p.PrintText(CloseClass);
  }

  method PrintHeaderServerMethodStreamedUnary(p: Printer, m: Method, vars: Vars, ghost i: nat)
    requires HasIndex(vars.m, i)
    modifies p, vars
    ensures p.out == StreamedUnaryMixin(old(p.out), old(p.indent), m, i) && p.indent == old(p.indent)
    ensures OnlyLocals(old(vars.m), vars.m)
  {
    hide Put, MixinHead, Agrees, Bound, OnlyLocals, IndexEnv, Dec, MixinDtorForm, StreamedUnaryCtor,
      DisableRegularUnary, StreamedUnaryVirtual;
    SetIndexed(vars, m, i);
    if m.NoStreaming() {
      ghost var env := IndexEnv(m, i);
      MixinKeys(m, i, OwnTypes(m));
      NamesBound("WithStreamedUnaryMethod_", env);
      CtorsBound(m, i);
      StreamedBound(m, i);
      PrintMixinHead(p, vars, "WithStreamedUnaryMethod_", env);
      p.Print(vars, StreamedUnaryCtor(), env);
      p.Print(vars, MixinDtorForm("WithStreamedUnaryMethod_"), env);
      p.Print(vars, DisableRegularUnary(), env);
      p.Print(vars, StreamedUnaryVirtual(), env);
      p.Outdent();
      p.PrintText(CloseClass);
    }
  }

  method PrintHeaderServerMethodSplitStreaming(p: Printer, m: Method, vars: Vars, ghost i: nat)
    requires HasIndex(vars.m, i)
    modifies p, vars
    ensures p.out == SplitStreamingMixin(old(p.out), old(p.indent), m, i) && p.indent == old(p.indent)
    ensures OnlyLocals(old(vars.m), vars.m)
  {
    hide Put, MixinHead, Agrees, Bound, OnlyLocals, IndexEnv, Dec, MixinDtorForm, SplitCtor,
      DisableRegularServerStreaming, SplitVirtual;
    SetIndexed(vars, m, i);
    if m.ServerOnlyStreaming() {
      ghost var env := IndexEnv(m, i);
      MixinKeys(m, i, OwnTypes(m));
      NamesBound("WithSplitStreamingMethod_", env);
      CtorsBound(m, i);
      StreamedBound(m, i);
      PrintMixinHead(p, vars, "WithSplitStreamingMethod_", env);
      p.Print(vars, SplitCtor(), env);
      p.Print(vars, MixinDtorForm("WithSplitStreamingMethod_"), env);
      p.Print(vars, DisableRegularServerStreaming(), env);
      p.Print(vars, SplitVirtual(), env);
      p.Outdent();
      p.PrintText(CloseClass);
    }
  }

  method PrintHeaderServerMethodGeneric(p: Printer, m: Method, ps: Parameters, vars: Vars, ghost i: nat)
    requires HasIndex(vars.m, i)
    modifies p, vars
    ensures p.out == GenericMixin(old(p.out), old(p.indent), m, i, ps) && p.indent == old(p.indent)
    ensures OnlyLocals(old(vars.m), vars.m)
  {
    hide Put, MixinHead, Agrees, Bound, OnlyLocals, IndexEnv, Dec, MixinDtorForm, GenericCtorForm, DisableSync;
    SetIndexed(vars, m, i);
    ghost var env := IndexEnv(m, i);
    MixinKeys(m, i, OwnTypes(m));
    NamesBound("WithGenericMethod_", env);
    CtorsBound(m, i);
    DisableBound(m.Kind(), env);
    PrintMixinHead(p, vars, "WithGenericMethod_", env);
    p.Print(vars, GenericCtorForm(), env);
    p.Print(vars, MixinDtorForm("WithGenericMethod_"), env);
    if ps.allowSyncServerApi {
      if m.NoStreaming() {
        p.Print(vars, DisableSync(Unary), env);
      } else if m.ClientOnlyStreaming() {
        p.Print(vars, DisableSync(ClientStreaming), env);
      } else if m.ServerOnlyStreaming() {
        p.Print(vars, DisableSync(ServerStreaming), env);
      } else if m.IsBidiStreaming() {
        p.Print(vars, DisableSync(BidiStreaming), env);
      }
    }
    p.Outdent();
    p.PrintText(CloseClass);
  }
}
