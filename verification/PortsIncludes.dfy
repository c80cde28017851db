// The GRPC_ macros over a list of includes: ports_def.inc defines them,
// ports_undef.inc undefines them.
module PortsIncludes {
  import opened Structure
  import opened Queries

  function PortsOver(p: Ports, headers: seq<string>): Ports {
    if headers == [] then p else PortsStep(PortsOver(p, headers[..|headers| - 1]), headers[|headers| - 1])
  }

  // Names whose last character tells them from the two ports files.
  predicate Portless(headers: seq<string>) { forall h :: h in headers ==> h == "" || h[|h| - 1] != 'c' }

  lemma {:induction false} PortlessIncludes(p: Ports, headers: seq<string>)
    requires Portless(headers)
    ensures PortsOver(p, headers) == p
  {
    if headers != [] {
      var h := headers[|headers| - 1];
      assert h in headers;
      assert |PORTS_DEF| == 20 && |PORTS_UNDEF| == 22;
      PortlessIncludes(p, headers[..|headers| - 1]);
    }
  }

  lemma PortsSnoc(p: Ports, headers: seq<string>, h: string)
    ensures PortsOver(p, headers + [h]) == PortsStep(PortsOver(p, headers), h)
  {
    hide PortsStep;
    assert (headers + [h])[..|headers|] == headers;
  }

  lemma {:induction false} PortsConcat(p: Ports, a: seq<string>, b: seq<string>)
    ensures PortsOver(p, a + b) == PortsOver(PortsOver(p, a), b)
  {
    if b == [] {
      assert a + b == a;
    } else {
      hide PortsOver, PortsStep;
      var c, h := b[..|b| - 1], b[|b| - 1];
      PortsConcat(p, a, c);
      PortsSnoc(PortsOver(p, a), c, h);
      PortsSnoc(p, a + c, h);
      LastOff(a, b);
    }
  }

  lemma OneInclude(p: Ports, h: string)
    ensures PortsOver(p, [h]) == PortsStep(p, h)
  {
    hide PortsStep;
    assert [h][..0] == [];
    assert PortsOver(p, []) == p;
  }

  // ---- Lists that leave nothing defined ----

  predicate Defines(h: string) { NamesFile(h, PORTS_DEF) }

  predicate Undefines(h: string) { NamesFile(h, PORTS_UNDEF) }

  // What header i defines is undefined before anything is defined again.
  predicate Undone(headers: seq<string>, i: nat) {
    exists j :: i < j < |headers| && Undefines(headers[j]) && forall k :: i < k < j ==> !Defines(headers[k])
  }

  // Every ports_def.inc is followed by a ports_undef.inc, with no other
  // ports_def.inc in between.
  predicate AllUndone(headers: seq<string>) {
    forall i :: 0 <= i < |headers| && Defines(headers[i]) ==> Undone(headers, i)
  }

  lemma NothingToUndo(headers: seq<string>)
    requires forall h :: h in headers ==> !Defines(h)
    ensures AllUndone(headers)
  {
    hide Defines;
    forall i | 0 <= i < |headers| ensures !Defines(headers[i]) { assert headers[i] in headers; }
  }

  // A character of a file's name, found by its distance from the end.
  lemma EndOf(h: string, file: string, k: nat)
    requires NamesFile(h, file) && k < |file|
    ensures |h| >= |file| && h[|h| - |file| + k] == file[k]
  {
    if h != file {
      assert h[|h| - |file| - 1..][k + 1] == ("/" + file)[k + 1];
    }
  }

  lemma NotBoth(h: string)
    ensures !(Defines(h) && Undefines(h))
  {
    assert |PORTS_DEF| == 20 && PORTS_DEF[12] == '_';
    assert |PORTS_UNDEF| == 22 && PORTS_UNDEF[14] == 'n';
    if Defines(h) && Undefines(h) {
      EndOf(h, PORTS_DEF, 12);
      EndOf(h, PORTS_UNDEF, 14);
      assert false;
    }
  }

  // Header d defines what no header behind it touches.
  predicate LeftOpen(headers: seq<string>, d: nat) {
    d < |headers| && Defines(headers[d]) && AllUndone(headers[..d]) &&
    forall k :: d < k < |headers| ==> !Defines(headers[k]) && !Undefines(headers[k])
  }

  // Header e defines again what header d has defined.
  predicate Twice(headers: seq<string>, d: nat, e: nat) {
    d < e < |headers| && Defines(headers[d]) && Defines(headers[e]) && forall k :: d < k < e ==> !Undefines(headers[k])
  }

  lemma AfterUndone(headers: seq<string>, h: string)
    requires AllUndone(headers) && !Defines(h)
    ensures AllUndone(headers + [h])
  {
    hide Defines, Undefines;
    var hs := headers + [h];
    forall i | 0 <= i < |hs| && Defines(hs[i])
      ensures Undone(hs, i)
    {
      var j :| i < j < |headers| && Undefines(headers[j]) && forall k :: i < k < j ==> !Defines(headers[k]);
      assert Undefines(hs[j]) && forall k :: i < k < j ==> hs[k] == headers[k];
    }
  }

  lemma NowUndone(headers: seq<string>, d: nat, h: string)
    requires LeftOpen(headers, d) && Undefines(h)
    ensures AllUndone(headers + [h])
  {
    NotBoth(h);
    hide Defines, Undefines;
    var hs := headers + [h];
    assert Undefines(hs[|headers|]);
    forall i | 0 <= i < |hs| && Defines(hs[i])
      ensures Undone(hs, i)
    {
      if i < d {
        var before := headers[..d];
        assert before[i] == hs[i];
        var j :| i < j < d && Undefines(before[j]) && forall k :: i < k < j ==> !Defines(before[k]);
        assert Undefines(hs[j]) && forall k :: i < k < j ==> hs[k] == before[k];
      } else {
        assert i == d;
      }
    }
  }

  lemma StillOpen(headers: seq<string>, d: nat, h: string)
    requires LeftOpen(headers, d)
    ensures Defines(h) ==> Twice(headers + [h], d, |headers|)
    ensures !Defines(h) && !Undefines(h) ==> LeftOpen(headers + [h], d)
  {
    hide Defines, Undefines, AllUndone;
    assert (headers + [h])[..d] == headers[..d];
  }

  // What the fold over the list knows, in terms of the list.
  ghost predicate Known(headers: seq<string>, p: Ports) {
    match p
    case PortsUndefined => AllUndone(headers)
    case PortsDefined => exists d :: LeftOpen(headers, d)
    case PortsRedefined => exists d, e :: Twice(headers, d, e)
  }

  lemma KnownStep(headers: seq<string>, p: Ports, h: string)
    requires Known(headers, p)
    ensures Known(headers + [h], PortsStep(p, h))
  {
    var hs := headers + [h];
    NotBoth(h);
    match p
    case PortsUndefined =>
      hide AllUndone;
      if Defines(h) {
        assert hs[..|headers|] == headers;
        assert LeftOpen(hs, |headers|);
      } else {
        AfterUndone(headers, h);
      }
    case PortsDefined =>
      hide AllUndone, LeftOpen, Twice;
      var d :| LeftOpen(headers, d);
      StillOpen(headers, d, h);
      if Undefines(h) { NowUndone(headers, d, h); }
    case PortsRedefined =>
      hide AllUndone, LeftOpen, Defines, Undefines;
      var d, e :| Twice(headers, d, e);
      assert Twice(hs, d, e);
  }

  lemma {:induction false} AllKnown(headers: seq<string>)
    ensures Known(headers, PortsOver(PortsUndefined, headers))
  {
    if headers != [] {
      hide Known, PortsStep;
      AllKnown(headers[..|headers| - 1]);
      KnownStep(headers[..|headers| - 1], PortsOver(PortsUndefined, headers[..|headers| - 1]), headers[|headers| - 1]);
      assert headers == headers[..|headers| - 1] + [headers[|headers| - 1]];
    }
  }

  lemma TwiceIsNotUndone(headers: seq<string>, d: nat, e: nat)
    requires Twice(headers, d, e)
    ensures !Undone(headers, d)
  {
    NotBoth(headers[e]);
    hide Defines, Undefines;
  }

  // The macros end undefined, and were never defined twice, exactly when every
  // definition is undone before the next.
  lemma PortsOverIff(headers: seq<string>)
    ensures PortsOver(PortsUndefined, headers) == PortsUndefined <==> AllUndone(headers)
  {
    AllKnown(headers);
    hide PortsOver, Defines, Undefines;
    match PortsOver(PortsUndefined, headers)
    case PortsUndefined =>
    case PortsDefined =>
      var d :| LeftOpen(headers, d);
      assert !Undone(headers, d);
    case PortsRedefined =>
      var d, e :| Twice(headers, d, e);
      TwiceIsNotUndone(headers, d, e);
  }
}
