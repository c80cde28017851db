// What the reader finds in the mock of a service.
module MockFacts {
  import opened Schema
  import opened Emit
  import opened Structure
  import opened MockService

  function MockedFact(f: Form): Fact
    requires f.MockMethod?
  {
    Mocked(f.count, SigOf(f))
  }

  function MockedFacts(f: Form, env: Env): seq<Fact>
    requires f.MockMethod?
  {
    [MockedFact(Render(f, env))]
  }

  function MockAsyncsFacts(m: Method, n: nat): seq<Fact> {
    if n == 0 then [] else MockAsyncsFacts(m, n - 1) + MockedFacts(MockAsync(m.Kind()), MockEnv(m, MockPrefixAt(n - 1)))
  }

  function MockMethodsFacts(m: Method, ps: Parameters): seq<Fact> {
    MockedFacts(MockSync(m.Kind()), MethodEnv(m)) + (if ps.allowCqApi then MockAsyncsFacts(m, 2) else [])
  }

  function MockRoundsFacts(ms: seq<Method>, ps: Parameters, n: nat): seq<Fact>
    requires n <= |ms|
  {
    if n == 0 then [] else MockRoundsFacts(ms, ps, n - 1) + MockMethodsFacts(ms[n - 1], ps)
  }

  function MockScope(svc: Service): Scope {
    ClassScope(MockClass, [S("Mock"), S(svc.name), S("Stub")], [S(svc.name), S("::StubInterface")])
  }

  function MockServiceFacts(svc: Service, ps: Parameters): seq<Fact> {
    Closed(MockScope(svc), MockRoundsFacts(svc.methods, ps, |svc.methods|))
  }

  lemma MockedRead(o: seq<Item>, ind: nat, f: Form, env: Env)
    requires Ready(After(o)) && f.MockMethod?
    ensures After(Put(o, ind, f, env)) == Plus(After(o), MockedFacts(f, env))
  {
    hide After, Put, RRefs, RTys, RTy;
    AfterPut(o, ind, f, env);
  }

  lemma MockAsyncsRead(o: seq<Item>, ind: nat, m: Method, n: nat)
    requires Ready(After(o))
    ensures After(MockAsyncs(o, ind, m, n)) == Plus(After(o), MockAsyncsFacts(m, n))
  {
    hide After, Put, MockedFacts, MockEnv, MockPrefixAt;
    if n == 0 {
      PlusNothing(After(o));
    } else {
      MockAsyncsRead(o, ind, m, n - 1);
      MockedRead(MockAsyncs(o, ind, m, n - 1), ind, MockAsync(m.Kind()), MockEnv(m, MockPrefixAt(n - 1)));
      PlusPlus(After(o), MockAsyncsFacts(m, n - 1), MockedFacts(MockAsync(m.Kind()), MockEnv(m, MockPrefixAt(n - 1))));
    }
  }

  lemma MockMethodsRead(o: seq<Item>, ind: nat, m: Method, ps: Parameters)
    requires Ready(After(o))
    ensures After(MockMethods(o, ind, m, ps)) == Plus(After(o), MockMethodsFacts(m, ps))
  {
    hide After, Put, MockedFacts, MockAsyncs, MockAsyncsFacts;
    MockedRead(o, ind, MockSync(m.Kind()), MethodEnv(m));
    var fs := MockedFacts(MockSync(m.Kind()), MethodEnv(m));
    if ps.allowCqApi {
      MockAsyncsRead(Put(o, ind, MockSync(m.Kind()), MethodEnv(m)), ind, m, 2);
      PlusPlus(After(o), fs, MockAsyncsFacts(m, 2));
    } else {
      assert fs + [] == fs;
    }
  }

  lemma {:induction false} MockRoundsRead(o: seq<Item>, ind: nat, ms: seq<Method>, ps: Parameters, n: nat)
    requires Ready(After(o)) && n <= |ms|
    ensures After(MockRounds(o, ind, ms, ps, n)) == Plus(After(o), MockRoundsFacts(ms, ps, n))
  {
    hide After, MockMethods, MockMethodsFacts;
    if n == 0 {
      PlusNothing(After(o));
    } else {
      MockRoundsRead(o, ind, ms, ps, n - 1);
      MockMethodsRead(MockRounds(o, ind, ms, ps, n - 1), ind, ms[n - 1], ps);
      PlusPlus(After(o), MockRoundsFacts(ms, ps, n - 1), MockMethodsFacts(ms[n - 1], ps));
    }
  }

  lemma MockHeadRead(o: seq<Item>, ind: nat, svc: Service)
    requires Ready(After(o))
    ensures After(Put(o, ind, MockHead(), map[VService := svc.name])) == Enter(After(o), MockScope(svc))
  {
    hide After, Put;
    var env: Env := map[VService := svc.name];
    AfterPut(o, ind, MockHead(), env);
    assert RRefs([S("Mock"), V(VService), S("Stub")], env) == [S("Mock"), S(svc.name), S("Stub")];
    assert RRefs([V(VService), S("::StubInterface")], env) == [S(svc.name), S("::StubInterface")];
  }

  lemma MockServiceRead(o: seq<Item>, ind: nat, svc: Service, ps: Parameters)
    requires Ready(After(o))
    ensures After(MockServiceOutput(o, ind, svc, ps)) == Plus(After(o), MockServiceFacts(svc, ps))
  {
    hide After, Put, PutText, MockRounds, MockRoundsFacts;
    MockHeadRead(o, ind, svc);
    var o1 := Put(o, ind, MockHead(), map[VService := svc.name]);
    MockRoundsRead(o1, ind + 1, svc.methods, ps, |svc.methods|);
    ClassEndRead(MockRounds(o1, ind + 1, svc.methods, ps, |svc.methods|), ind, After(o), MockScope(svc),
                 MockRoundsFacts(svc.methods, ps, |svc.methods|));
  }
}
