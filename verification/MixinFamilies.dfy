// The mixin classes of a service's class, family by family and in order.
module MixinFamilies {
  import opened Schema
  import opened Emit
  import opened Structure
  import opened HeaderService
  import opened HeaderFacts
  import opened Queries
  import opened MixinLists
  import opened ServerAgreement

  // The mixin classes of one family, in the order they are declared.
  function MixinIn(f: Fact, pass: Pass): seq<Fact> {
    if f.ClassBody? && f.head == MixinClass && |f.name| == 2 && f.name[0] == S(PassPrefix(pass)) then [f] else []
  }

  function Mixins(fs: seq<Fact>, pass: Pass): seq<Fact> {
    if fs == [] then [] else Mixins(fs[..|fs| - 1], pass) + MixinIn(fs[|fs| - 1], pass)
  }

  lemma MixinsSnoc(fs: seq<Fact>, f: Fact, pass: Pass)
    ensures Mixins(fs + [f], pass) == Mixins(fs, pass) + MixinIn(f, pass)
  {
    hide MixinIn;
    assert (fs + [f])[..|fs|] == fs;
  }

  lemma {:induction false} MixinsConcat(a: seq<Fact>, b: seq<Fact>, pass: Pass)
    ensures Mixins(a + b, pass) == Mixins(a, pass) + Mixins(b, pass)
  {
    if b == [] {
      assert a + b == a;
    } else {
      hide Mixins, MixinIn;
      var c, f := b[..|b| - 1], b[|b| - 1];
      MixinsConcat(a, c, pass);
      MixinsSnoc(c, f, pass);
      MixinsSnoc(a + c, f, pass);
      LastOff(a, b);
      Regrouped(Mixins(a, pass), Mixins(c, pass), MixinIn(f, pass));
    }
  }

  lemma MixinsOne(f: Fact, pass: Pass)
    ensures Mixins([f], pass) == MixinIn(f, pass) && Mixins([], pass) == []
  {
    hide MixinIn;
    assert [f][..0] == [];
  }

  lemma {:induction false} MixinsHave(fs: seq<Fact>, pass: Pass, c: Fact)
    requires c in fs && MixinIn(c, pass) == [c]
    ensures c in Mixins(fs, pass)
  {
    hide MixinIn;
    assert fs == fs[..|fs| - 1] + [fs[|fs| - 1]];
    if c != fs[|fs| - 1] {
      MixinsHave(fs[..|fs| - 1], pass, c);
    }
  }

  lemma PrefixLengths()
    ensures |PassPrefix(AsyncMixins)| == 16 && |PassPrefix(CallbackMixins)| == 19 && |PassPrefix(GenericMixins)| == 18
    ensures |PassPrefix(RawMixins)| == 14 && |PassPrefix(RawCallbackMixins)| == 22
    ensures |PassPrefix(StreamedUnaryMixins)| == 24 && |PassPrefix(SplitMixins)| == 25
  {
  }

  // No two families share a prefix.
  lemma PrefixesDiffer(p: Pass, q: Pass)
    requires MixinPass(p) && MixinPass(q) && p != q
    ensures S(PassPrefix(p)) != S(PassPrefix(q))
  {
    hide PassPrefix;
    PrefixLengths();
  }

  // A round of one family's pass makes one mixin of that family, or none.
  lemma RoundMixins(p: Pass, m: Method, i: nat, ps: Parameters, q: Pass)
    requires MixinPass(p) && MixinPass(q)
    ensures Mixins(RoundFacts(p, m, i, ps), q) == if p == q then RoundFacts(p, m, i, ps) else []
  {
    hide RoundFacts, MixinMembers, PassPrefix, Applies;
    RoundIsMixin(p, m, i, ps);
    MixinsOne(MixinFor(p, m, i, ps), q);
    if p != q {
      PrefixesDiffer(p, q);
    }
  }

  lemma {:induction false} RoundsMixins(p: Pass, ms: seq<Method>, ps: Parameters, n: nat, q: Pass)
    requires MixinPass(p) && MixinPass(q) && n <= |ms|
    ensures Mixins(RoundsFacts(p, ms, ps, n), q) == if p == q then RoundsFacts(p, ms, ps, n) else []
  {
    hide RoundFacts, Mixins;
    if n == 0 {
      MixinsOne(Alias("", Base), q);
    } else {
      RoundsMixins(p, ms, ps, n - 1, q);
      RoundMixins(p, ms[n - 1], n - 1, ps, q);
      MixinsConcat(RoundsFacts(p, ms, ps, n - 1), RoundFacts(p, ms[n - 1], n - 1, ps), q);
    }
  }

  // ---- Place by place ----

  // The indices of the methods a family has a mixin for.
  function Matching(pass: Pass, ms: seq<Method>, n: nat): seq<nat>
    requires n <= |ms|
  {
    if n == 0 then [] else Matching(pass, ms, n - 1) + if Applies(pass, ms[n - 1]) then [n - 1] else []
  }

  // All of them, each once, in ascending order.
  lemma {:induction false} MatchingAscends(pass: Pass, ms: seq<Method>, n: nat)
    requires n <= |ms|
    ensures forall i: nat :: i in Matching(pass, ms, n) <==> i < n && Applies(pass, ms[i])
    ensures forall j, k :: 0 <= j < k < |Matching(pass, ms, n)| ==> Matching(pass, ms, n)[j] < Matching(pass, ms, n)[k]
  {
    hide Applies;
    if n > 0 {
      MatchingAscends(pass, ms, n - 1);
      var before := Matching(pass, ms, n - 1);
      forall k | 0 <= k < |before| ensures before[k] < n - 1 { assert before[k] in before; }
    }
  }

  // A class is the family's mixin for method number i.
  predicate FitsAt(c: Fact, i: nat, pass: Pass, ms: seq<Method>, ps: Parameters) {
    i < |ms| && IsMixinFor(c, pass, ms[i], i, ps)
  }

  // The class at place k is the mixin for the k-th matching method, member for
  // member.
  predicate FitInOrder(cs: seq<Fact>, indices: seq<nat>, pass: Pass, ms: seq<Method>, ps: Parameters) {
    |cs| == |indices| && forall k :: 0 <= k < |cs| ==> FitsAt(cs[k], indices[k], pass, ms, ps)
  }

  lemma FitSnoc(cs: seq<Fact>, indices: seq<nat>, c: Fact, i: nat, pass: Pass, ms: seq<Method>, ps: Parameters)
    requires FitInOrder(cs, indices, pass, ms, ps) && FitsAt(c, i, pass, ms, ps)
    ensures FitInOrder(cs + [c], indices + [i], pass, ms, ps)
  {
    hide FitsAt;
  }

  lemma {:induction false} RoundsFitInOrder(pass: Pass, ms: seq<Method>, ps: Parameters, n: nat)
    requires MixinPass(pass) && Enabled(pass, ps) && n <= |ms|
    ensures FitInOrder(RoundsFacts(pass, ms, ps, n), Matching(pass, ms, n), pass, ms, ps)
  {
    hide RoundFacts, MixinMembers, OwnName, Applies, FitInOrder;
    if n == 0 {
      NoneFitInOrder(pass, ms, ps);
    } else {
      var m, i := ms[n - 1], n - 1;
      RoundsFitInOrder(pass, ms, ps, i);
      RoundIsMixin(pass, m, i, ps);
      if Applies(pass, m) {
        assert FitsAt(MixinFor(pass, m, i, ps), i, pass, ms, ps);
        FitSnoc(RoundsFacts(pass, ms, ps, i), Matching(pass, ms, i), MixinFor(pass, m, i, ps), i, pass, ms, ps);
      } else {
        assert RoundsFacts(pass, ms, ps, i) + [] == RoundsFacts(pass, ms, ps, i);
        assert Matching(pass, ms, i) + [] == Matching(pass, ms, i);
      }
    }
  }

  lemma NoneFitInOrder(pass: Pass, ms: seq<Method>, ps: Parameters)
    ensures FitInOrder([], [], pass, ms, ps)
  {
  }
}
