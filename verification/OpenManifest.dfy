// A manifest in valid TOML whose ares array is left open for the rewriter: a
// comment behind the array's bracket hides it, and the next bracket at the end
// of a line is that of the build header.
module OpenManifest {
  import opened Replace
  import opened SourceLists
  import opened ManifestArrays

  const COMMENTED: string := "] # end\n"

  const MANIFEST: string := ARES + BEGIN + COMMENTED + BUILD + BEGIN + CLOSE

  function Six(a: string, b: string, c: string, d: string, e: string, f: string): string { a + b + c + d + e + f }

  lemma SixAt(a: string, b: string, c: string, d: string, e: string, f: string, i: nat)
    requires i < |Six(a, b, c, d, e, f)|
    ensures Six(a, b, c, d, e, f)[i] ==
      var j := i - |a|;
      if j < 0 then a[i] else if j < |b| then b[j] else if j - |b| < |c| then c[j - |b|]
      else
        var k := j - |b| - |c|;
        if k < |d| then d[k] else if k - |d| < |e| then e[k - |d|] else f[k - |d| - |e|]
  {
  }

  lemma SixPieces(a: string, b: string, c: string, d: string, e: string, f: string)
    ensures var s, n := Six(a, b, c, d, e, f), |a| + |b| + |c|;
      && |s| == n + |d| + |e| + |f|
      && s[..|a|] == a && s[|a|..|a| + |b|] == b && s[n..n + |d|] == d
      && s[n + |d|..n + |d| + |e|] == e && s[n + |d| + |e|..] == f
  {
  }

  // Where the brackets and line ends of the pieces are.
  lemma AresChars()
    ensures |ARES| == 17 && ARES[2] == 'f' && (forall i :: 0 <= i < 17 && ARES[i] == '[' ==> i == 1)
  {
  }

  lemma BuildChars()
    ensures |BUILD| == 9 && BUILD[2] == 'b' && BUILD[7] == ']'
    ensures forall i :: 0 <= i < 9 && BUILD[i] == '[' ==> i == 1
    ensures forall i :: 0 <= i < 9 && BUILD[i] == ']' ==> i == 7
  {
  }

  lemma BeginChars()
    ensures |BEGIN| == 12 && BEGIN[9] == ' ' && (forall i :: 0 <= i < 12 && BEGIN[i] == '[' ==> i == 10)
  {
  }

  lemma CloseChars()
    ensures |CLOSE| == 2 && CLOSE[0] == ']' && CLOSE[1] == '\n'
    ensures |COMMENTED| == 8 && COMMENTED[1] == ' '
    ensures forall i :: 0 <= i < 8 ==> COMMENTED[i] != '[' && (COMMENTED[i] == ']' ==> i == 0)
  {
  }

  lemma ManifestIsSix()
    ensures MANIFEST == Six(ARES, BEGIN, COMMENTED, BUILD, BEGIN, CLOSE)
  {
  }

  // What the searches need to know of the manifest's characters.
  lemma ManifestChars(i: nat)
    ensures |MANIFEST| == 60
    ensures i < 60 && MANIFEST[i] == '[' ==> i in {1, 27, 38, 56}
    ensures 29 <= i < 44 && MANIFEST[i] == ']' ==> i == 29
    ensures MANIFEST[2] == 'f' && MANIFEST[26] == MANIFEST[30] == MANIFEST[55] == ' ' && MANIFEST[39] == 'b'
  {
    ManifestIsSix();
    AresChars();
    BuildChars();
    BeginChars();
    CloseChars();
    hide MANIFEST, ARES, BUILD, BEGIN, CLOSE, COMMENTED, Six;
    SixPieces(ARES, BEGIN, COMMENTED, BUILD, BEGIN, CLOSE);
    SixAt(ARES, BEGIN, COMMENTED, BUILD, BEGIN, CLOSE, 2);
    SixAt(ARES, BEGIN, COMMENTED, BUILD, BEGIN, CLOSE, 26);
    SixAt(ARES, BEGIN, COMMENTED, BUILD, BEGIN, CLOSE, 30);
    SixAt(ARES, BEGIN, COMMENTED, BUILD, BEGIN, CLOSE, 39);
    SixAt(ARES, BEGIN, COMMENTED, BUILD, BEGIN, CLOSE, 55);
    if i < 60 {
      SixAt(ARES, BEGIN, COMMENTED, BUILD, BEGIN, CLOSE, i);
    }
  }

  lemma ManifestPlaces()
    ensures OccursAt(MANIFEST, ARES, 0) && OccursAt(MANIFEST, BEGIN, 17) && OccursAt(MANIFEST, BUILD, 37)
    ensures OccursAt(MANIFEST, BEGIN, 46) && OccursAt(MANIFEST, CLOSE, 58)
  {
    ManifestIsSix();
    AresChars();
    BuildChars();
    BeginChars();
    CloseChars();
    hide MANIFEST, ARES, BUILD, BEGIN, CLOSE, COMMENTED, Six;
    SixPieces(ARES, BEGIN, COMMENTED, BUILD, BEGIN, CLOSE);
  }

  lemma OnlyBuildHeader(i: nat)
    requires OccursAt(MANIFEST, BUILD, i)
    ensures i == 37
  {
    BuildIsHeader();
    BuildChars();
    hide MANIFEST, BUILD;
    OccursChars(MANIFEST, BUILD, i);
    assert MANIFEST[i + 0] == '\n' && MANIFEST[i + 1] == '[' && MANIFEST[i + 2] == 'b';
    ManifestChars(i + 1);
  }

  lemma OnlyBegins(i: nat)
    requires OccursAt(MANIFEST, BEGIN, i)
    ensures i == 17 || i == 46
  {
    BeginShape();
    hide MANIFEST, BEGIN;
    OccursChars(MANIFEST, BEGIN, i);
    assert MANIFEST[i + 10] == '[' && MANIFEST[i + 11] == '\n';
    ManifestChars(i + 10);
  }

  lemma NoCloseBefore(i: nat)
    requires 29 <= i < 44
    ensures !OccursAt(MANIFEST, CLOSE, i)
  {
    CloseChars();
    hide MANIFEST, CLOSE;
    if OccursAt(MANIFEST, CLOSE, i) {
      OccursChars(MANIFEST, CLOSE, i);
      assert MANIFEST[i + 0] == ']' && MANIFEST[i + 1] == '\n';
      ManifestChars(i);
    }
  }

  lemma ManifestLocated()
    ensures Locate(MANIFEST, BUILD) == Found(37, 58, 58) && Locate(MANIFEST, ARES) == Found(0, 29, 44)
  {
    ManifestPlaces();
    AresChars();
    BuildChars();
    BeginChars();
    CloseChars();
    hide MANIFEST, ARES, BUILD, BEGIN, CLOSE, OccursAt, Find;
    forall i: nat | i != 37
      ensures !OccursAt(MANIFEST, BUILD, i)
    {
      if OccursAt(MANIFEST, BUILD, i) { OnlyBuildHeader(i); }
    }
    forall i: nat | i != 17 && i != 46
      ensures !OccursAt(MANIFEST, BEGIN, i)
    {
      if OccursAt(MANIFEST, BEGIN, i) { OnlyBegins(i); }
    }
    forall i: nat | 29 <= i < 44 ensures !OccursAt(MANIFEST, CLOSE, i) { NoCloseBefore(i); }
    BracketOfBuild(MANIFEST, 37);
    FoundFirst(MANIFEST, BUILD, 0, 37);
    FoundFirst(MANIFEST, BEGIN, 37, 46);
    FoundFirst(MANIFEST, CLOSE, 58, 58);
    FoundFirst(MANIFEST, ARES, 0, 0);
    FoundFirst(MANIFEST, BEGIN, 0, 17);
    FoundFirst(MANIFEST, CLOSE, 29, 44);
  }

  // The first rewrite of this manifest succeeds, and the second fails: there is
  // no build header left.
  lemma RewriteOnceOnly(core: string, ares: string)
    requires Clean(core) && Clean(ares)
    ensures LeftOpen(MANIFEST) && OneBuildHeader(MANIFEST)
    ensures Rewrite(MANIFEST, core, ares).Text?
    ensures Rewrite(Rewrite(MANIFEST, core, ares).text, core, ares) == Error
  {
    hide MANIFEST, ARES, BUILD, Locate, Clean;
    ManifestLocated();
    forall i: nat, j: nat {:trigger OccursAt(MANIFEST, BUILD, i), OccursAt(MANIFEST, BUILD, j)} |
      OccursAt(MANIFEST, BUILD, i) && OccursAt(MANIFEST, BUILD, j)
      ensures i == j
    {
      OnlyBuildHeader(i);
      OnlyBuildHeader(j);
    }
    LeftOpenKept(MANIFEST, core);
    LeftOpenBreaks(MANIFEST, core, ares);
  }
}
