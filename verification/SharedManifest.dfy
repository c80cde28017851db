// A manifest in which both sections stand in front of one array: the run of the
// script lists the c-ares sources there, and the core sources nowhere.
module SharedManifest {
  import opened Replace
  import opened SourceLists
  import opened ManifestArrays
  import opened GenSources
  import opened ManifestEntries

  const SHARED: string := "\n[features.ares]\n\n[build]\nsources = [\n]\n"

  // What the searches need to know of the manifest's characters.
  lemma SharedChars()
    ensures |SHARED| == 40 && SHARED[2] == 'f' && SHARED[19] == 'b'
    ensures forall i :: 0 <= i < 40 && SHARED[i] == '[' ==> i == 1 || i == 18 || i == 36
  {
  }

  lemma SharedPlaces()
    ensures OccursAt(SHARED, ARES, 0) && OccursAt(SHARED, BUILD, 17)
    ensures OccursAt(SHARED, BEGIN, 26) && OccursAt(SHARED, CLOSE, 38)
  {
    SharedChars();
    assert |ARES| == 17 && |BUILD| == 9 && |BEGIN| == 12 && |CLOSE| == 2;
    OccursIf(SHARED, ARES, 0);
    OccursIf(SHARED, BUILD, 17);
    OccursIf(SHARED, BEGIN, 26);
    OccursIf(SHARED, CLOSE, 38);
  }

  lemma NoBuildBefore(i: nat)
    requires i < 17
    ensures !OccursAt(SHARED, BUILD, i)
  {
    SharedChars();
    assert |BUILD| == 9 && BUILD[1] == '[' && BUILD[2] == 'b';
    hide SHARED, BUILD;
    if OccursAt(SHARED, BUILD, i) {
      OccursChars(SHARED, BUILD, i);
    }
  }

  lemma NoBeginBefore(i: nat)
    requires i < 26
    ensures !OccursAt(SHARED, BEGIN, i)
  {
    SharedChars();
    BeginShape();
    hide SHARED, BEGIN;
    if OccursAt(SHARED, BEGIN, i) {
      OccursChars(SHARED, BEGIN, i);
    }
  }

  lemma SharedLocated()
    ensures Locate(SHARED, BUILD) == Found(17, 38, 38) && Locate(SHARED, ARES) == Found(0, 38, 38)
  {
    SharedPlaces();
    assert |BEGIN| == 12;
    hide SHARED, ARES, BUILD, BEGIN, CLOSE, OccursAt, Find;
    forall i: nat | i < 17 ensures !OccursAt(SHARED, BUILD, i) { NoBuildBefore(i); }
    forall i: nat | i < 26 ensures !OccursAt(SHARED, BEGIN, i) { NoBeginBefore(i); }
    FoundFirst(SHARED, BUILD, 0, 17);
    FoundFirst(SHARED, BEGIN, 17, 26);
    FoundFirst(SHARED, ARES, 0, 0);
    FoundFirst(SHARED, BEGIN, 0, 26);
    FoundFirst(SHARED, CLOSE, 38, 38);
  }

  // The run ends well, and the array of [build] lists the c-ares sources alone.
  lemma SharedManifestListsAres(targets: seq<seq<string>>)
    requires AllQuotable(targets) && CollectedFrom(targets).Lists?
    ensures var once := RunOf(SHARED, targets, false);
      once.exit == Written && EntriesOf(once.manifest, "\n[build]\n") == Vendored(CollectedFrom(targets).ares)
  {
    assert BUILD == "\n[build]\n" && ARES == "\n[features.ares]\n";
    SharedLocated();
    CollectedAreQuotable(targets);
    BodiesAreClean(targets);
    var lists := CollectedFrom(targets);
    var core, ares := Render(lists.core, true), Render(lists.ares, false);
    hide SHARED, BUILD, ARES, CollectedFrom, Render, Clean, AllQuotable, AllOneLine, Quotable, Locate, Vendored,
      EntriesOf, ListsBody, Spliced;
    assert SharedArray(SHARED);
    SharedKept(SHARED, core);
    RewrittenArrays(SHARED, core, ares);
    ListedEntries(RunOf(SHARED, targets, false).manifest, "\n[build]\n", lists.ares, false);
    assert [] + Vendored(lists.ares) == Vendored(lists.ares);
  }
}
