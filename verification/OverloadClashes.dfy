// When the functions generated into one class get in each other's way: two
// functions of a class may share a name only if their parameters differ.
module OverloadClashes {
  import opened Schema
  import opened Emit
  import opened Structure
  import opened ClientFacts
  import opened HeaderService
  import opened HeaderFacts
  import opened Signatures
  import opened Queries
  import opened ClientPasses
  import opened HeaderClasses
  import ClientAgreement
  import opened HeaderDeclarations
  import opened DefinitionAgreement
  import opened TableAgreement

  // The same function to C++, which does not look at results.
  predicate Clash(a: Sig, b: Sig) {
    Spelled(a.name) == Spelled(b.name) && a.params == b.params && Spelled(a.extra) == Spelled(b.extra)
  }

  predicate HasClash(ss: seq<Sig>) { exists a, b :: 0 <= a < b < |ss| && Clash(ss[a], ss[b]) }

  // The functions a class declares for methods, in order.
  function FunctionIn(f: Fact): seq<Sig> {
    match f
    case PureDecl(sig) => [sig]
    case OverrideDecl(sig) => [sig]
    case InlineDecl(sig) => [sig]
    case _ => []
  }

  function Functions(fs: seq<Fact>): seq<Sig> {
    if fs == [] then [] else Functions(fs[..|fs| - 1]) + FunctionIn(fs[|fs| - 1])
  }

  lemma FunctionsSnoc(fs: seq<Fact>, f: Fact)
    ensures Functions(fs + [f]) == Functions(fs) + FunctionIn(f)
  {
    hide FunctionIn;
    assert (fs + [f])[..|fs|] == fs;
  }

  lemma FunctionsOne(f: Fact)
    ensures Functions([f]) == FunctionIn(f) && Functions([]) == []
  {
    hide FunctionIn;
    assert [f][..0] == [];
  }

  lemma {:induction false} FunctionsConcat(a: seq<Fact>, b: seq<Fact>)
    ensures Functions(a + b) == Functions(a) + Functions(b)
  {
    if b == [] {
      assert a + b == a;
    } else {
      hide Functions, FunctionIn;
      var c, f := b[..|b| - 1], b[|b| - 1];
      FunctionsConcat(a, c);
      FunctionsSnoc(c, f);
      FunctionsSnoc(a + c, f);
      LastOff(a, b);
      Regrouped(Functions(a), Functions(c), FunctionIn(f));
    }
  }

  // ---- The functions of Stub and StubInterface, by method and style ----

  // M, AsyncM and PrepareAsyncM
  datatype Style = Blocking | Starting | Preparing

  // A function of method i; the raw one has "Raw" behind its name.
  datatype Tag = Tag(i: nat, style: Style, raw: bool)

  function SigFor(style: Style, raw: bool, m: Method, isInterface: bool): Sig {
    match style
    case Blocking =>
      if raw then RawSig(m, isInterface) else if m.Kind() == Unary then SyncSig(m) else WrapperSig(m, isInterface)
    case Starting => if raw then AsyncRawSig(m, 0, isInterface) else AsyncWrapperSig(m, 0, isInterface)
    case Preparing => if raw then AsyncRawSig(m, 1, isInterface) else AsyncWrapperSig(m, 1, isInterface)
  }

  function SigAt(t: Tag, ms: seq<Method>, isInterface: bool): Sig {
    if t.i < |ms| then SigFor(t.style, t.raw, ms[t.i], isInterface) else Sig(T0(Void), [], [], [])
  }

  function SigsAt(ts: seq<Tag>, ms: seq<Method>, isInterface: bool): seq<Sig> {
    seq(|ts|, k requires 0 <= k < |ts| => SigAt(ts[k], ms, isInterface))
  }

  function RoundTags(m: Method, i: nat, ps: Parameters, raw: bool): seq<Tag> {
    (if raw && m.Kind() == Unary then [] else [Tag(i, Blocking, raw)]) +
    (if ps.allowCqApi then [Tag(i, Starting, raw)] + [Tag(i, Preparing, raw)] else [])
  }

  function TagsUpTo(ms: seq<Method>, ps: Parameters, raw: bool, n: nat): seq<Tag>
    requires n <= |ms|
  {
    if n == 0 then [] else TagsUpTo(ms, ps, raw, n - 1) + RoundTags(ms[n - 1], n - 1, ps, raw)
  }

  // The public ones, then the private ones.
  function Tags(ms: seq<Method>, ps: Parameters): seq<Tag> {
    TagsUpTo(ms, ps, false, |ms|) + TagsUpTo(ms, ps, true, |ms|)
  }

  predicate IsTag(t: Tag, ms: seq<Method>, ps: Parameters) {
    t.i < |ms| && (if t.style == Blocking then t.raw ==> ms[t.i].Kind() != Unary else ps.allowCqApi)
  }

  predicate Apart(ts: seq<Tag>) { forall a, b :: 0 <= a < b < |ts| ==> ts[a] != ts[b] }

  lemma ApartConcat(a: seq<Tag>, b: seq<Tag>)
    requires Apart(a) && Apart(b) && forall t :: t in a ==> t !in b
    ensures Apart(a + b)
  {
    forall i, j | 0 <= i < j < |a + b| ensures (a + b)[i] != (a + b)[j] {
      if i < |a| <= j { assert a[i] in a && b[j - |a|] in b; }
    }
  }

  lemma RoundTagsAre(ms: seq<Method>, i: nat, ps: Parameters, raw: bool)
    requires i < |ms|
    ensures forall t :: t in RoundTags(ms[i], i, ps, raw) <==> t.raw == raw && t.i == i && IsTag(t, ms, ps)
    ensures Apart(RoundTags(ms[i], i, ps, raw))
  {
  }

  lemma {:induction false} TagsUpToAre(ms: seq<Method>, ps: Parameters, raw: bool, n: nat)
    requires n <= |ms|
    ensures forall t :: t in TagsUpTo(ms, ps, raw, n) <==> t.raw == raw && t.i < n && IsTag(t, ms, ps)
    ensures Apart(TagsUpTo(ms, ps, raw, n))
  {
    hide RoundTags, IsTag, Apart;
    if n == 0 {
      NoneApart();
    } else {
      TagsUpToAre(ms, ps, raw, n - 1);
      RoundTagsAre(ms, n - 1, ps, raw);
      ApartConcat(TagsUpTo(ms, ps, raw, n - 1), RoundTags(ms[n - 1], n - 1, ps, raw));
    }
  }

  lemma NoneApart()
    ensures Apart([])
  {
  }

  // Each function once.
  lemma TagsAre(ms: seq<Method>, ps: Parameters)
    ensures forall t :: t in Tags(ms, ps) <==> IsTag(t, ms, ps)
    ensures Apart(Tags(ms, ps))
  {
    TagsUpToAre(ms, ps, false, |ms|);
    TagsUpToAre(ms, ps, true, |ms|);
    hide TagsUpTo, Apart;
    ApartConcat(TagsUpTo(ms, ps, false, |ms|), TagsUpTo(ms, ps, true, |ms|));
  }

  // ---- The functions of the two classes are those. ----

  lemma SigsAtConcat(a: seq<Tag>, b: seq<Tag>, ms: seq<Method>, isInterface: bool)
    ensures SigsAt(a + b, ms, isInterface) == SigsAt(a, ms, isInterface) + SigsAt(b, ms, isInterface)
  {
    hide SigAt;
  }

  lemma DeclaredFunction(isInterface: bool, sig: Sig)
    ensures Functions(DeclaredAs(isInterface, sig)) == [sig]
  {
    FunctionsOne(DeclaredAs(isInterface, sig)[0]);
  }

  lemma WrapperFunction(sig: Sig, call: Fact)
    requires call.Call?
    ensures Functions([InlineDecl(sig)] + [call]) == [sig]
  {
    FunctionsConcat([InlineDecl(sig)], [call]);
    FunctionsOne(InlineDecl(sig));
    FunctionsOne(call);
  }

  lemma PublicFunctions(ms: seq<Method>, i: nat, ps: Parameters, isInterface: bool)
    requires i < |ms|
    ensures Functions(PublicFacts(ms[i], ps, isInterface)) == SigsAt(RoundTags(ms[i], i, ps, false), ms, isInterface)
  {
    hide Functions, DeclaredAs, SyncSig, WrapperSig, AsyncWrapperSig;
    var m := ms[i];
    var first := if m.Kind() == Unary then DeclaredAs(isInterface, SyncSig(m)) else WrapperPair(m, isInterface);
    DeclaredFunction(isInterface, SyncSig(m));
    WrapperFunction(WrapperSig(m, isInterface), WrapperCall(m, isInterface));
    WrapperFunction(AsyncWrapperSig(m, 0, isInterface), AsyncWrapperCall(m, 0, isInterface));
    WrapperFunction(AsyncWrapperSig(m, 1, isInterface), AsyncWrapperCall(m, 1, isInterface));
    FunctionsConcat(AsyncWrapperPair(m, 0, isInterface), AsyncWrapperPair(m, 1, isInterface));
    FunctionsConcat(first, AsyncWrapperPair(m, 0, isInterface) + AsyncWrapperPair(m, 1, isInterface));
    assert first + [] == first;
  }

  lemma PrivateFunctions(ms: seq<Method>, i: nat, ps: Parameters, isInterface: bool)
    requires i < |ms|
    ensures Functions(PrivateFacts(ms[i], ps, isInterface)) == SigsAt(RoundTags(ms[i], i, ps, true), ms, isInterface)
  {
    hide Functions, DeclaredAs, RawSig, AsyncRawSig;
    var m := ms[i];
    var first := if m.Kind() == Unary then [] else DeclaredAs(isInterface, RawSig(m, isInterface));
    var a, b := DeclaredAs(isInterface, AsyncRawSig(m, 0, isInterface)),
      DeclaredAs(isInterface, AsyncRawSig(m, 1, isInterface));
    DeclaredFunction(isInterface, RawSig(m, isInterface));
    DeclaredFunction(isInterface, AsyncRawSig(m, 0, isInterface));
    DeclaredFunction(isInterface, AsyncRawSig(m, 1, isInterface));
    FunctionsOne(InlineDecl(SyncSig(m)));
    FunctionsConcat(a, b);
    FunctionsConcat(first, a + b);
    assert first + [] == first;
  }

  predicate MethodPass(pass: Pass) { pass in {InterfacePublic, StubPublic, InterfacePrivate, StubPrivate} }

  predicate OfInterface(pass: Pass) { pass == InterfacePublic || pass == InterfacePrivate }

  predicate OfRaws(pass: Pass) { pass == InterfacePrivate || pass == StubPrivate }

  lemma RoundFunctions(pass: Pass, ms: seq<Method>, i: nat, ps: Parameters)
    requires MethodPass(pass) && i < |ms|
    ensures Functions(RoundFacts(pass, ms[i], i, ps)) ==
            SigsAt(RoundTags(ms[i], i, ps, OfRaws(pass)), ms, OfInterface(pass))
  {
    hide Functions, SigsAt, RoundTags, PublicFacts, PrivateFacts, InterfacePublicFacts, InterfacePrivateFacts,
      StubPublicFacts, StubPrivateFacts;
    PublicPasses(ms[i], ps);
    PrivatePasses(ms[i], ps);
    PublicFunctions(ms, i, ps, OfInterface(pass));
    PrivateFunctions(ms, i, ps, OfInterface(pass));
  }

  lemma {:induction false} RoundsFunctions(pass: Pass, ms: seq<Method>, ps: Parameters, n: nat)
    requires MethodPass(pass) && n <= |ms|
    ensures Functions(RoundsFacts(pass, ms, ps, n)) == SigsAt(TagsUpTo(ms, ps, OfRaws(pass), n), ms, OfInterface(pass))
  {
    hide Functions, SigsAt, RoundTags, RoundFacts;
    if n == 0 {
      NoFunctions(ms, OfInterface(pass));
    } else {
      RoundsFunctions(pass, ms, ps, n - 1);
      RoundFunctions(pass, ms, n - 1, ps);
      FunctionsConcat(RoundsFacts(pass, ms, ps, n - 1), RoundFacts(pass, ms[n - 1], n - 1, ps));
      SigsAtConcat(TagsUpTo(ms, ps, OfRaws(pass), n - 1), RoundTags(ms[n - 1], n - 1, ps, OfRaws(pass)), ms,
        OfInterface(pass));
    }
  }

  lemma NoFunctions(ms: seq<Method>, isInterface: bool)
    ensures Functions([]) == [] && SigsAt([], ms, isInterface) == []
  {
  }

  lemma HasNoFunctions(f: Fact)
    requires f.ClassBody? || f.Said? || f.Member? || f.PlainDecl?
    ensures Functions([f]) == []
  {
    FunctionsOne(f);
  }

  lemma {:induction false} DataHasNoFunctions(ms: seq<Method>, ps: Parameters, n: nat)
    requires n <= |ms|
    ensures Functions(RoundsFacts(StubMembers, ms, ps, n)) == []
  {
    hide Functions, MemberName;
    if n == 0 {
      NoFunctions(ms, true);
    } else {
      DataHasNoFunctions(ms, ps, n - 1);
      DataIs(ms[n - 1]);
      HasNoFunctions(Member(MemberName(ms[n - 1])));
      FunctionsConcat(RoundsFacts(StubMembers, ms, ps, n - 1), RoundFacts(StubMembers, ms[n - 1], n - 1, ps));
    }
  }

  lemma InterfaceFunctions(ms: seq<Method>, ps: Parameters)
    ensures Functions(InterfaceMembers(ms, ps)) == SigsAt(Tags(ms, ps), ms, true)
  {
    hide Functions, SigsAt, TagsUpTo, RoundsFacts, AsyncInterfaceMembers;
    var a, c := EveryFacts(InterfacePublic, ms, ps), EveryFacts(InterfacePrivate, ms, ps);
    var nested := Closed(AsyncInterfaceScope(), AsyncInterfaceMembers(ms, ps));
    RoundsFunctions(InterfacePublic, ms, ps, |ms|);
    RoundsFunctions(InterfacePrivate, ms, ps, |ms|);
    FunctionsConcat(a, nested);
    FunctionsConcat(a + nested, Privately());
    FunctionsConcat(a + nested + Privately(), c);
    HasNoFunctions(nested[0]);
    HasNoFunctions(Privately()[0]);
    SigsAtConcat(TagsUpTo(ms, ps, false, |ms|), TagsUpTo(ms, ps, true, |ms|), ms, true);
  }

  lemma StubFunctions(ms: seq<Method>, ps: Parameters)
    ensures Functions(StubMembersFacts(ms, ps)) == SigsAt(Tags(ms, ps), ms, false)
  {
    hide Functions, SigsAt, TagsUpTo, RoundsFacts, DeclFacts, AsyncStubMembers;
    var ctor, a, c, d := DeclFacts(StubCtor(), map[]), EveryFacts(StubPublic, ms, ps), EveryFacts(StubPrivate, ms, ps),
      EveryFacts(StubMembers, ms, ps);
    var nested := Closed(AsyncScope(), AsyncStubMembers(ms, ps));
    RoundsFunctions(StubPublic, ms, ps, |ms|);
    RoundsFunctions(StubPrivate, ms, ps, |ms|);
    DataHasNoFunctions(ms, ps, |ms|);
    StubCtorIsDeclared();
    HasNoFunctions(ctor[0]);
    HasNoFunctions(nested[0]);
    HasNoFunctions(Privately()[0]);
    FunctionsConcat(ctor, a);
    FunctionsConcat(ctor + a, nested);
    FunctionsConcat(ctor + a + nested, Privately());
    FunctionsConcat(ctor + a + nested + Privately(), c);
    FunctionsConcat(ctor + a + nested + Privately() + c, d);
    SigsAtConcat(TagsUpTo(ms, ps, false, |ms|), TagsUpTo(ms, ps, true, |ms|), ms, false);
  }

  // ---- When two of them clash ----

  function Before(style: Style): string {
    match style
    case Blocking => ""
    case Starting => "Async"
    case Preparing => "PrepareAsync"
  }

  function Behind(raw: bool): string { if raw then "Raw" else "" }

  lemma NameOf(style: Style, raw: bool, m: Method, isInterface: bool)
    ensures Spelled(SigFor(style, raw, m, isInterface).name) == Before(style) + m.name + Behind(raw)
  {
    hide Spelled;
    var p := if style == Starting then "Async" else "PrepareAsync";
    SpelledOne(m.name);
    SpelledPair(m.name, "Raw");
    SpelledPair(p, m.name);
    SpelledThree(p, m.name, "Raw");
    assert "" + m.name == m.name && m.name + "" == m.name && p + m.name + "" == p + m.name;
  }

  predicate EndsInQueue(ts: seq<Ty>) { ts != [] && ts[|ts| - 1] == T0(CompletionQueuePtr) }

  lemma ParamsOf(style: Style, raw: bool, m: Method, isInterface: bool)
    ensures var params := SigFor(style, raw, m, isInterface).params;
      EndsInQueue(params) == (style != Blocking) &&
      (style != Blocking ==> params == StreamParams(m) + [T0(CompletionQueuePtr)]) &&
      (style == Blocking && (raw || m.Kind() != Unary) ==> params == StreamParams(m)) &&
      (style == Blocking && !raw && m.Kind() == Unary ==> |params| == 3)
  {
    hide Prefix;
  }

  lemma Cut(p: string, x: string, y: string)
    ensures p + x == p + y <==> x == y
  {
    assert (p + x)[|p|..] == x && (p + y)[|p|..] == y;
  }

  lemma CutBehind(x: string, y: string, s: string)
    ensures x + s == y + s <==> x == y
  {
    if x + s == y + s {
      assert |x| == |y| && (x + s)[..|x|] == x && (y + s)[..|y|] == y;
    }
  }

  lemma PrefixesClash(m: string, n: string)
    ensures "Async" + m != "PrepareAsync" + n
  {
    assert ("Async" + m)[0] == 'A' && ("PrepareAsync" + n)[0] == 'P';
  }

  // Two functions of one style, one of them raw, can have one name.
  lemma SameForm(style: Style, m: string, r: bool, n: string, s: bool)
    requires Before(style) + m + Behind(r) == Before(style) + n + Behind(s)
    ensures r == s ==> m == n
    ensures !r && s ==> m == n + "Raw"
  {
    var p := Before(style);
    assert p + m + Behind(r) == p + (m + Behind(r)) && p + n + Behind(s) == p + (n + Behind(s));
    hide Before;
    Cut(p, m + Behind(r), n + Behind(s));
    CutBehind(m, n, Behind(r));
    assert m + "" == m;
  }

  lemma StartingIsNotPreparing(m: string, r: bool, n: string, s: bool)
    ensures "Async" + m + Behind(r) != "PrepareAsync" + n + Behind(s)
  {
    PrefixesClash(m + Behind(r), n + Behind(s));
    assert "Async" + m + Behind(r) == "Async" + (m + Behind(r));
    assert "PrepareAsync" + n + Behind(s) == "PrepareAsync" + (n + Behind(s));
  }

  // Functions of different forms never clash: a completion queue or its prefix
  // tells them apart.
  lemma ClashHasOneForm(f: Style, r: bool, m: Method, g: Style, s: bool, n: Method, isInterface: bool)
    requires Clash(SigFor(f, r, m, isInterface), SigFor(g, s, n, isInterface))
    ensures f == g
  {
    NameOf(f, r, m, isInterface);
    NameOf(g, s, n, isInterface);
    ParamsOf(f, r, m, isInterface);
    ParamsOf(g, s, n, isInterface);
    hide SigFor, Spelled, EndsInQueue;
    if f == Starting && g == Preparing {
      StartingIsNotPreparing(m.name, r, n.name, s);
    } else if f == Preparing && g == Starting {
      StartingIsNotPreparing(n.name, s, m.name, r);
    }
  }

  // What the calls of a method take from the client.
  predicate TakeAlike(m: Method, n: Method) {
    match m.Kind()
    case Unary => (n.Kind() == Unary || n.Kind() == ServerStreaming) && m.inputType == n.inputType
    case ServerStreaming => (n.Kind() == Unary || n.Kind() == ServerStreaming) && m.inputType == n.inputType
    case ClientStreaming => n.Kind() == ClientStreaming && m.outputType == n.outputType
    case BidiStreaming => n.Kind() == BidiStreaming
  }

  lemma TakeAlikeIff(m: Method, n: Method)
    ensures StreamParams(m) == StreamParams(n) <==> TakeAlike(m, n)
  {
    var a, b := StreamParams(m), StreamParams(n);
    assert |a| == 1 || a[1].T1?;
    if |a| == |b| == 2 {
      assert a == b <==> a[0] == b[0] && a[1] == b[1];
    }
  }

  // Method i is named like method j with "Raw" behind it, and their calls take
  // the same; without asynchronous calls both must have a stream.
  predicate Meet(ms: seq<Method>, ps: Parameters, i: nat, j: nat)
    requires i < |ms| && j < |ms|
  {
    ms[i].name == ms[j].name + "Raw" && TakeAlike(ms[i], ms[j]) &&
    (ps.allowCqApi || (ms[i].Kind() != Unary && ms[j].Kind() != Unary))
  }

  predicate SomeMeet(ms: seq<Method>, ps: Parameters) {
    exists i, j :: 0 <= i < |ms| && 0 <= j < |ms| && Meet(ms, ps, i, j)
  }

  predicate DistinctNames(ms: seq<Method>) { forall i, j :: 0 <= i < j < |ms| ==> ms[i].name != ms[j].name }

  // Two different functions that clash are M's raw one and that of the method
  // called MRaw, in one style.
  lemma ClashMeans(ms: seq<Method>, ps: Parameters, t: Tag, u: Tag, isInterface: bool)
    requires DistinctNames(ms) && IsTag(t, ms, ps) && IsTag(u, ms, ps) && t != u
    requires Clash(SigAt(t, ms, isInterface), SigAt(u, ms, isInterface))
    ensures if t.raw then !u.raw && Meet(ms, ps, u.i, t.i) else u.raw && Meet(ms, ps, t.i, u.i)
  {
    var m, n := ms[t.i], ms[u.i];
    ClashHasOneForm(t.style, t.raw, m, u.style, u.raw, n, isInterface);
    NameOf(t.style, t.raw, m, isInterface);
    NameOf(u.style, u.raw, n, isInterface);
    ParamsOf(t.style, t.raw, m, isInterface);
    ParamsOf(u.style, u.raw, n, isInterface);
    SameForm(t.style, m.name, t.raw, n.name, u.raw);
    SameForm(t.style, n.name, u.raw, m.name, t.raw);
    hide SigFor, Spelled, StreamParams, TakeAlike, Before, Behind, EndsInQueue;
    SameNames(ms, t, u);
    TakeAlikeIff(m, n);
    TakeAlikeIff(n, m);
    StreamsAreShort(m);
    StreamsAreShort(n);
    CutQueue(StreamParams(m), StreamParams(n));
  }

  lemma SameNames(ms: seq<Method>, t: Tag, u: Tag)
    requires DistinctNames(ms) && t.i < |ms| && u.i < |ms| && t != u && t.style == u.style
    ensures t.raw == u.raw ==> ms[t.i].name != ms[u.i].name
  {
  }

  lemma StreamsAreShort(m: Method)
    ensures |StreamParams(m)| <= 2
  {
  }

  lemma CutQueue(a: seq<Ty>, b: seq<Ty>)
    ensures a + [T0(CompletionQueuePtr)] == b + [T0(CompletionQueuePtr)] ==> a == b
  {
    assert (a + [T0(CompletionQueuePtr)])[..|a|] == a && (b + [T0(CompletionQueuePtr)])[..|b|] == b;
  }

  lemma MeetingSigs(style: Style, m: Method, n: Method, isInterface: bool)
    requires m.name == n.name + "Raw" && TakeAlike(m, n) && style != Starting
    requires style == Blocking ==> m.Kind() != Unary && n.Kind() != Unary
    ensures Clash(SigFor(style, false, m, isInterface), SigFor(style, true, n, isInterface))
  {
    NameOf(style, false, m, isInterface);
    NameOf(style, true, n, isInterface);
    ParamsOf(style, false, m, isInterface);
    ParamsOf(style, true, n, isInterface);
    ExtraOf(style, false, m, isInterface);
    ExtraOf(style, true, n, isInterface);
    TakeAlikeIff(m, n);
    hide SigFor, Spelled, StreamParams, TakeAlike, EndsInQueue;
    RawBehind(Before(style), n.name);
  }

  lemma RawBehind(p: string, n: string)
    ensures p + (n + "Raw") + "" == p + n + "Raw"
  {
  }

  // The two functions that clash when method i is MRaw and method j is M.
  lemma MeetingClash(ms: seq<Method>, ps: Parameters, i: nat, j: nat, isInterface: bool) returns (t: Tag, u: Tag)
    requires i < |ms| && j < |ms| && Meet(ms, ps, i, j)
    ensures IsTag(t, ms, ps) && IsTag(u, ms, ps) && t != u &&
            Clash(SigAt(t, ms, isInterface), SigAt(u, ms, isInterface))
  {
    hide SigFor, TakeAlike, Clash;
    var style := if ps.allowCqApi then Preparing else Blocking;
    t, u := Tag(i, style, false), Tag(j, style, true);
    MeetingSigs(style, ms[i], ms[j], isInterface);
  }

  lemma ExtraOf(style: Style, raw: bool, m: Method, isInterface: bool)
    requires style != Starting
    ensures Spelled(SigFor(style, raw, m, isInterface).extra) == ""
  {
    SpelledOne("");
  }

  lemma ClashIffMeet(ms: seq<Method>, ps: Parameters, isInterface: bool)
    requires DistinctNames(ms)
    ensures HasClash(SigsAt(Tags(ms, ps), ms, isInterface)) <==> SomeMeet(ms, ps)
  {
    hide Tags, Clash, SigAt, Meet, DistinctNames;
    TagsAre(ms, ps);
    var ts := Tags(ms, ps);
    var ss := SigsAt(ts, ms, isInterface);
    if HasClash(ss) {
      var a, b :| 0 <= a < b < |ss| && Clash(ss[a], ss[b]);
      assert ts[a] in ts && ts[b] in ts;
      ClashMeans(ms, ps, ts[a], ts[b], isInterface);
    }
    if SomeMeet(ms, ps) {
      var i, j :| 0 <= i < |ms| && 0 <= j < |ms| && Meet(ms, ps, i, j);
      var t, u := MeetingClash(ms, ps, i, j, isInterface);
      assert t in ts && u in ts;
      var a :| 0 <= a < |ts| && ts[a] == t;
      var b :| 0 <= b < |ts| && ts[b] == u;
      ClashIsSymmetric(ss[a], ss[b]);
      if a < b {
        assert Clash(ss[a], ss[b]);
      } else {
        assert b < a && Clash(ss[b], ss[a]);
      }
    }
  }

  lemma ClashIsSymmetric(a: Sig, b: Sig)
    ensures Clash(a, b) <==> Clash(b, a)
  {
  }

  // Exactly when the functions of StubInterface, or of Stub, clash: some method
  // is named like another with "Raw" behind it, and their calls take the same.
  lemma StubClashIff(svc: Service, pkg: string, ps: Parameters)
    requires DistinctNames(svc.methods)
    ensures HasClash(Functions(InterfaceClassOf(svc, pkg, ps))) <==> SomeMeet(svc.methods, ps)
    ensures HasClash(Functions(StubClassOf(svc, pkg, ps))) <==> SomeMeet(svc.methods, ps)
  {
    hide HasClash, Functions, InterfaceClassOf, StubClassOf, InterfaceMembers, StubMembersFacts, SigsAt, Tags, SomeMeet,
      DistinctNames, ClassOf, AsyncInterfaceOf, AsyncStubOf, ServiceBaseOf, ServiceMembers, RoundsFacts;
    ClassMembers(svc, pkg, ps);
    InterfaceFunctions(svc.methods, ps);
    StubFunctions(svc.methods, ps);
    ClashIffMeet(svc.methods, ps, true);
    ClashIffMeet(svc.methods, ps, false);
  }

  // For instance: bidirectional methods Foo and FooRaw, under any options.
  lemma FooRawClashes(svc: Service, pkg: string, ps: Parameters)
    requires |svc.methods| == 2 && svc.methods[0].name == "Foo" && svc.methods[1].name == "FooRaw"
    requires svc.methods[0].Kind() == svc.methods[1].Kind() == BidiStreaming
    ensures HasClash(Functions(InterfaceClassOf(svc, pkg, ps))) && HasClash(Functions(StubClassOf(svc, pkg, ps)))
  {
    hide HasClash, Functions, InterfaceClassOf, StubClassOf;
    assert |"Foo"| == 3 && "FooRaw" == "Foo" + "Raw";
    assert DistinctNames(svc.methods);
    assert Meet(svc.methods, ps, 1, 0);
    StubClashIff(svc, pkg, ps);
  }

  // ---- The other classes never have two functions that clash. ----

  predicate NamedApart(a: seq<Sig>, b: seq<Sig>) {
    forall x, y :: x in a && y in b ==> Spelled(x.name) != Spelled(y.name)
  }

  lemma NoClashConcat(a: seq<Sig>, b: seq<Sig>)
    requires !HasClash(a) && !HasClash(b) && NamedApart(a, b)
    ensures !HasClash(a + b)
  {
    hide Spelled;
    var c := a + b;
    forall i, j | 0 <= i < j < |c|
      ensures !Clash(c[i], c[j])
    {
      if j < |a| {
        assert !Clash(a[i], a[j]);
      } else if i >= |a| {
        assert !Clash(b[i - |a|], b[j - |a|]);
      } else {
        assert c[i] in a && c[j] in b;
      }
    }
  }

  lemma CallbacksOfOne(m: Method)
    ensures !HasClash(CallbackSigsOf(m))
    ensures forall s :: s in CallbackSigsOf(m) ==> Spelled(s.name) == m.name
  {
    hide Spelled;
    SpelledOne(m.name);
    assert CallbackSig(m).params != ReactorSig(m).params by {
      assert m.Kind() == Unary ==> CallbackSig(m).params[3] != ReactorSig(m).params[3];
    }
  }

  lemma {:induction false} CallbacksNeverClash(pass: Pass, role: Role, ms: seq<Method>, ps: Parameters, n: nat)
    requires (pass == Callbacks && role == Overriding) || (pass == CallbackInterfaces && role == Purely)
    requires DistinctNames(ms) && n <= |ms|
    ensures !HasClash(RoundsSigs(pass, role, ms, ps, n))
    ensures forall s :: s in RoundsSigs(pass, role, ms, ps, n) ==>
              exists i :: 0 <= i < n && Spelled(s.name) == ms[i].name
  {
    hide HasClash, CallbackSigsOf, Spelled;
    if n == 0 {
      NothingClashes();
    } else {
      CallbacksNeverClash(pass, role, ms, ps, n - 1);
      CallbacksOfOne(ms[n - 1]);
      NoClashConcat(RoundsSigs(pass, role, ms, ps, n - 1), CallbackSigsOf(ms[n - 1]));
    }
  }

  lemma NothingClashes()
    ensures !HasClash([])
  {
  }

  lemma ServiceStarts(ms: seq<Method>, ps: Parameters)
    ensures |Sigs(Plainly, ServiceMembers(ms, ps))| == 2 + |ms|
    ensures Sigs(Plainly, ServiceMembers(ms, ps))[0] == ServiceCtorSig()
    ensures Sigs(Plainly, ServiceMembers(ms, ps))[1] == ServiceDtorSig()
  {
    hide RoundsFacts, DeclFacts, ServiceCtorSig, ServiceDtorSig, Sigs;
    FixedSigs();
    var ctor, dtor := DeclFacts(ServiceCtor(), map[]), DeclFacts(ServiceDtor(), map[]);
    SigsOne(Plainly, ctor[0]);
    SigsOne(Plainly, dtor[0]);
    SigsConcat(Plainly, ctor, dtor);
    SigsConcat(Plainly, ctor + dtor, EveryFacts(ServiceMethods, ms, ps));
    ServicePlains(ms, ps, 0);
  }

  lemma FixedDiffer(m: Method)
    ensures !Clash(ServiceCtorSig(), ServiceDtorSig())
    ensures !Clash(ServiceCtorSig(), ServiceSig(m)) && !Clash(ServiceDtorSig(), ServiceSig(m))
  {
    hide Spelled;
    SpelledOne("Service");
    SpelledOne("~Service");
    assert |"Service"| == 7 && |"~Service"| == 8;
  }

  lemma ServiceNeverClashes(ms: seq<Method>, ps: Parameters)
    requires DistinctNames(ms)
    ensures !HasClash(Sigs(Plainly, ServiceMembers(ms, ps)))
  {
    hide Sigs, ServiceMembers, ServiceCtorSig, ServiceDtorSig, Spelled;
    var ss := Sigs(Plainly, ServiceMembers(ms, ps));
    ServiceStarts(ms, ps);
    forall a, b | 0 <= a < b < |ss|
      ensures !Clash(ss[a], ss[b])
    {
      if b == 1 {
        FixedDiffer(Method("", "", "", false, false, [], []));
      } else {
        ServicePlains(ms, ps, b - 2);
        FixedDiffer(ms[b - 2]);
        if a > 1 {
          ServicePlains(ms, ps, a - 2);
          SpelledOne(ms[a - 2].name);
          SpelledOne(ms[b - 2].name);
        }
      }
    }
  }

  // The functions of async, async_interface and Service clash for no methods.
  lemma OthersNeverClash(svc: Service, pkg: string, ps: Parameters)
    requires DistinctNames(svc.methods)
    ensures !HasClash(Sigs(Overriding, AsyncStubOf(svc, pkg, ps)))
    ensures !HasClash(Sigs(Purely, AsyncInterfaceOf(svc, pkg, ps)))
    ensures !HasClash(Sigs(Plainly, ServiceBaseOf(svc, pkg, ps)))
  {
    hide HasClash, Sigs, AsyncStubOf, AsyncInterfaceOf, ServiceBaseOf, InterfaceClassOf, StubClassOf, ServiceMembers,
      RoundsFacts, RoundsSigs, DistinctNames, Spelled, AsyncInterfaceMembers, AsyncStubMembers;
    var ms := svc.methods;
    ClassMembers(svc, pkg, ps);
    ClientAgreement.CallbackRole(Overriding, ms, ps);
    ClientAgreement.CallbackRole(Purely, ms, ps);
    CallbacksNeverClash(Callbacks, Overriding, ms, ps, |ms|);
    CallbacksNeverClash(CallbackInterfaces, Purely, ms, ps, |ms|);
    ServiceNeverClashes(ms, ps);
  }
}
