// The mock mocks exactly what StubInterface leaves pure, and says how many
// parameters each function has.
module MockAgreement {
  import opened Schema
  import opened Emit
  import opened Structure
  import opened MockService
  import opened MockFacts
  import opened HeaderService
  import opened HeaderFacts
  import opened Signatures
  import opened Queries
  import opened ClientPasses
  import opened HeaderClasses
  import opened ClientAgreement
  import opened Decimal

  function MockText(svc: Service, ps: Parameters): seq<Item> { MockServiceOutput([], 0, svc, ps) }

  function MockClassOf(svc: Service, ps: Parameters): seq<Fact> {
    In(Facts(MockText(svc, ps)), [S("Mock"), S(svc.name), S("Stub")])
  }

  // MOCK_METHOD<n> with n the number of parameters
  predicate CountsRight(f: Fact) { f.Mocked? && Spelled(f.count) == Dec(Arity(f.sig)) }

  predicate AllCountRight(fs: seq<Fact>) { forall f :: f in fs ==> CountsRight(f) }

  lemma MockEnvFits(m: Method, i: nat)
    ensures ForAsync(MockEnv(m, MockPrefixAt(i)), m, i)
  {
    hide Dec;
  }

  lemma SmallNumbers()
    ensures Dec(1) == "1" && Dec(2) == "2" && Dec(3) == "3"
  {
  }

  lemma SyncCount(m: Method)
    ensures MockedFacts(MockSync(m.Kind()), MethodEnv(m)) == [MockedFacts(MockSync(m.Kind()), MethodEnv(m))[0]]
    ensures MockedFacts(MockSync(m.Kind()), MethodEnv(m))[0].Mocked?
    ensures CountsRight(MockedFacts(MockSync(m.Kind()), MethodEnv(m))[0])
    ensures MockedFacts(MockSync(m.Kind()), MethodEnv(m))[0].sig ==
            if m.Kind() == Unary then SyncSig(m) else RawSig(m, true)
  {
    hide RRefs, RTys, Dec, Spelled, Commas;
    RenderedRefs();
    EnvsFit(m, 0);
    MockSigs(m, MethodEnv(m));
    SmallNumbers();
    SpelledOne("1");
    SpelledOne("2");
    SpelledOne("3");
    NoCommas("");
  }

  lemma AsyncCount(m: Method, i: nat)
    ensures var fs := MockedFacts(MockAsync(m.Kind()), MockEnv(m, MockPrefixAt(i)));
      fs == [fs[0]] && fs[0].Mocked? && CountsRight(fs[0]) && fs[0].sig == AsyncRawSig(m, i, true)
  {
    hide RRefs, RTys, Dec, Spelled, Commas, Prefix, MockEnv, AsyncRawSig;
    MockEnvFits(m, i);
    MockAsyncSigs(m, i, MockEnv(m, MockPrefixAt(i)));
    AsyncArity(m, i);
    CountSpelled(m, i);
  }

  lemma AsyncArity(m: Method, i: nat)
    ensures Arity(AsyncRawSig(m, i, true)) ==
            if m.Kind() == Unary then 3 else BaseCount(m.Kind()) + MockPrefixAt(i).extraCount
  {
    hide Commas, Prefix, Spelled;
    ExtraParams(i);
    SpelledOne(Prefix(i).methodParams);
    NoCommas("");
  }

  lemma CountSpelled(m: Method, i: nat)
    ensures Spelled(Render(MockAsync(m.Kind()), MockEnv(m, MockPrefixAt(i))).count) ==
            Dec(if m.Kind() == Unary then 3 else BaseCount(m.Kind()) + MockPrefixAt(i).extraCount)
  {
    hide RRefs, RTys, RTy, Dec, Spelled;
    RenderedRefs();
    SmallNumbers();
    SpelledOne("3");
    SpelledOne(Dec(BaseCount(m.Kind()) + MockPrefixAt(i).extraCount));
  }

  lemma MockRound(m: Method, ps: Parameters)
    ensures AllCountRight(MockMethodsFacts(m, ps))
    ensures Sigs(Mocking, MockMethodsFacts(m, ps)) == DirectSigs(m) + RawSigs(m, ps, true)
  {
    hide MockedFacts, CountsRight, SyncSig, RawSig, AsyncRawSig, Sigs, Prefix, MockPrefixAt, MockEnv;
    SyncCount(m);
    AsyncCount(m, 0);
    AsyncCount(m, 1);
    var sync := MockedFacts(MockSync(m.Kind()), MethodEnv(m));
    var a, b := MockedFacts(MockAsync(m.Kind()), MockEnv(m, MockPrefixAt(0))),
      MockedFacts(MockAsync(m.Kind()), MockEnv(m, MockPrefixAt(1)));
    assert MockAsyncsFacts(m, 1) == a;
    assert MockAsyncsFacts(m, 2) == a + b;
    MockedSig(sync[0]);
    MockedSig(a[0]);
    MockedSig(b[0]);
    SigsConcat(Mocking, a, b);
    SigsConcat(Mocking, sync, a + b);
    assert sync + [] == sync;
  }

  lemma MockedSig(f: Fact)
    requires f.Mocked?
    ensures Sigs(Mocking, [f]) == [f.sig]
  {
    SigsOne(Mocking, f);
  }

  // Direct and raw signatures, interleaved or apart.
  lemma Shuffled(s: seq<Sig>, d: seq<Sig>, r: seq<Sig>, x: seq<Sig>, y: seq<Sig>)
    requires multiset(s) == multiset(x) + multiset(y)
    ensures multiset(s + (d + r)) == multiset(x + d) + multiset(y + r)
  {
  }

  lemma {:induction false} MockRoundsCount(ms: seq<Method>, ps: Parameters, n: nat)
    requires n <= |ms|
    ensures AllCountRight(MockRoundsFacts(ms, ps, n))
  {
    hide CountsRight, MockMethodsFacts;
    if n > 0 {
      MockRoundsCount(ms, ps, n - 1);
      MockRound(ms[n - 1], ps);
    }
  }

  lemma InterfaceStep(ms: seq<Method>, ps: Parameters, n: nat)
    requires n < |ms|
    ensures RoundsSigs(InterfacePublic, Purely, ms, ps, n + 1) ==
            RoundsSigs(InterfacePublic, Purely, ms, ps, n) + DirectSigs(ms[n])
    ensures RoundsSigs(InterfacePrivate, Purely, ms, ps, n + 1) ==
            RoundsSigs(InterfacePrivate, Purely, ms, ps, n) + RawSigs(ms[n], ps, true)
  {
    hide DirectSigs, RawSigs;
  }

  predicate MockAgrees(ms: seq<Method>, ps: Parameters, n: nat)
    requires n <= |ms|
  {
    multiset(Sigs(Mocking, MockRoundsFacts(ms, ps, n))) ==
    multiset(RoundsSigs(InterfacePublic, Purely, ms, ps, n)) + multiset(RoundsSigs(InterfacePrivate, Purely, ms, ps, n))
  }

  lemma MockRoundsStep(ms: seq<Method>, ps: Parameters, n: nat)
    requires n < |ms| && MockAgrees(ms, ps, n)
    ensures MockAgrees(ms, ps, n + 1)
  {
    hide Sigs, MockMethodsFacts, DirectSigs, RawSigs, RoundsSigs;
    var m := ms[n];
    MockRound(m, ps);
    InterfaceStep(ms, ps, n);
    SigsConcat(Mocking, MockRoundsFacts(ms, ps, n), MockMethodsFacts(m, ps));
    Shuffled(Sigs(Mocking, MockRoundsFacts(ms, ps, n)), DirectSigs(m), RawSigs(m, ps, true),
             RoundsSigs(InterfacePublic, Purely, ms, ps, n), RoundsSigs(InterfacePrivate, Purely, ms, ps, n));
  }

  lemma {:induction false} MockRoundsAgree(ms: seq<Method>, ps: Parameters, n: nat)
    requires n <= |ms|
    ensures MockAgrees(ms, ps, n)
  {
    hide MockAgrees;
    if n == 0 {
      NothingAgrees(ms, ps);
    } else {
      MockRoundsAgree(ms, ps, n - 1);
      MockRoundsStep(ms, ps, n - 1);
    }
  }

  lemma NothingAgrees(ms: seq<Method>, ps: Parameters)
    ensures MockAgrees(ms, ps, 0)
  {
  }

  lemma MockClassIs(svc: Service, ps: Parameters)
    ensures After(MockText(svc, ps)) == Plus(Start(), MockServiceFacts(svc, ps))
    ensures Has(Facts(MockText(svc, ps)), [S("Mock"), S(svc.name), S("Stub")])
    ensures MockClassOf(svc, ps) == MockRoundsFacts(svc.methods, ps, |svc.methods|)
  {
    hide After, MockServiceOutput, MockRoundsFacts;
    StartIsReady();
    MockServiceRead([], 0, svc, ps);
    var fs := MockServiceFacts(svc, ps);
    assert [] + fs == fs;
    FindHere(fs[0], [], fs[0].name);
    assert [fs[0]] + [] == fs;
  }

  // Every pure virtual function of StubInterface is mocked once, nothing else
  // is, and each MOCK_METHOD names the right number of parameters.
  lemma MockMocksInterface(svc: Service, pkg: string, ps: Parameters)
    ensures multiset(Sigs(Mocking, MockClassOf(svc, ps))) == multiset(Sigs(Purely, InterfaceClassOf(svc, pkg, ps)))
    ensures AllCountRight(MockClassOf(svc, ps))
  {
    hide RoundsSigs, Sigs, InterfaceMembers, MockRoundsFacts, MockClassOf, InterfaceClassOf, AllCountRight;
    MockClassIs(svc, ps);
    ClassMembers(svc, pkg, ps);
    InterfaceRole(Purely, svc.methods, ps);
    MockRoundsCount(svc.methods, ps, |svc.methods|);
    MockRoundsAgree(svc.methods, ps, |svc.methods|);
  }
}
