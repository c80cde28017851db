// main of tools/gen_sources.py: collecting, rendering and the two rewrites as
// one run of the script, and what a second run or a check does.
module GenSources {
  import opened SourceLists
  import opened ManifestArrays
  import OpenManifest

  // How a run ends. Checked is exit status 0 of --check, OutOfDate its 1; the
  // others but Written are errors.
  datatype Exit = Written | Checked | OutOfDate | NoDescriptor | NoAresSources | NoSection

  datatype Run = Run(exit: Exit, manifest: string)

  // The manifest with its two arrays replaced.
  function Updated(manifest: string, lists: Collected): Rewritten
    requires lists.Lists?
  {
    Rewrite(manifest, Render(lists.core, true), Render(lists.ares, false))
  }

  // What a run leaves in the manifest, and how it ends.
  function RunOf(manifest: string, targets: seq<seq<string>>, check: bool): Run {
    match CollectedFrom(targets)
    case NoDuplicate => Run(NoDescriptor, manifest)
    case NoAres => Run(NoAresSources, manifest)
    case Lists(_, _) =>
      var updated := Updated(manifest, CollectedFrom(targets));
      if updated.Error? then Run(NoSection, manifest)
      else if check then Run(if updated.text != manifest then OutOfDate else Checked, manifest)
      else Run(Written, updated.text)
  }

  // main
  method GenSources(original: string, targets: seq<seq<string>>, check: bool) returns (exit: Exit, manifest: string)
    ensures Run(exit, manifest) == RunOf(original, targets, check)
  {
    hide Render, ReplaceArray, BUILD, ARES;
    manifest := original;
    var lists := Collect(targets);
    match lists
    case NoDuplicate => return NoDescriptor, manifest;
    case NoAres => return NoAresSources, manifest;
    case Lists(core, ares) =>
      var updated := ReplaceArray(original, BUILD, Render(core, true));
      if updated.Error? {
        return NoSection, manifest;
      }
      updated := ReplaceArray(updated.text, ARES, Render(ares, false));
      if updated.Error? {
        return NoSection, manifest;
      }
      if check {
        return if updated.text != original then OutOfDate else Checked, manifest;
      }
      manifest := updated.text;
      return Written, manifest;
  }

  // Upstream's sources are stripped lines of its build file.
  predicate AllOneLine(targets: seq<seq<string>>) { forall s :: s in Flat(targets) ==> OneLine(s) }

  lemma BodiesAreClean(targets: seq<seq<string>>)
    requires AllOneLine(targets) && CollectedFrom(targets).Lists?
    ensures var lists := CollectedFrom(targets); Clean(Render(lists.core, true)) && Clean(Render(lists.ares, false))
  {
    hide Render, Clean, OneLine, CollectedFrom, OfAres, LeftOut;
    var lists := CollectedFrom(targets);
    CollectPartitions(targets);
    assert forall s :: s in lists.core || s in lists.ares ==> OneLine(s);
    RenderedIsClean(lists.core, true);
    RenderedIsClean(lists.ares, false);
  }

  // A check never writes, and it passes exactly when a run would change
  // nothing.
  lemma CheckPredictsRun(manifest: string, targets: seq<seq<string>>)
    ensures RunOf(manifest, targets, true).manifest == manifest
    ensures RunOf(manifest, targets, true).exit == Checked <==>
            RunOf(manifest, targets, false) == Run(Written, manifest)
    ensures RunOf(manifest, targets, true).exit == OutOfDate <==> RunOf(manifest, targets, false).manifest != manifest
  {
    hide Updated, CollectedFrom;
  }

  // After a run that wrote the manifest, a second run writes the same text, and
  // a check finds it up to date, unless the ares array was left open up to the
  // build header.
  lemma RunTwice(manifest: string, targets: seq<seq<string>>)
    requires AllOneLine(targets) && RunOf(manifest, targets, false).exit == Written && !LeftOpen(manifest)
    ensures var once := RunOf(manifest, targets, false);
      RunOf(once.manifest, targets, false) == once && RunOf(once.manifest, targets, true) == Run(Checked, once.manifest)
  {
    hide Render, Rewrite, Clean, LeftOpen, CollectedFrom, AllOneLine;
    BodiesAreClean(targets);
    var lists := CollectedFrom(targets);
    RewriteTwice(manifest, Render(lists.core, true), Render(lists.ares, false));
    CheckPredictsRun(RunOf(manifest, targets, false).manifest, targets);
  }

  // For a manifest with one build header this is exact: otherwise the second
  // run and the check fail for want of a section.
  lemma RunTwiceIff(manifest: string, targets: seq<seq<string>>)
    requires AllOneLine(targets) && RunOf(manifest, targets, false).exit == Written && OneBuildHeader(manifest)
    ensures var once := RunOf(manifest, targets, false).manifest;
      var again, check := RunOf(once, targets, false), RunOf(once, targets, true);
      if LeftOpen(manifest) then again == check == Run(NoSection, once)
      else again == Run(Written, once) && check == Run(Checked, once)
  {
    hide Render, Rewrite, Clean, LeftOpen, CollectedFrom, AllOneLine, OneBuildHeader;
    BodiesAreClean(targets);
    var lists := CollectedFrom(targets);
    if LeftOpen(manifest) {
      LeftOpenBreaks(manifest, Render(lists.core, true), Render(lists.ares, false));
    } else {
      RunTwice(manifest, targets);
    }
  }

  // For instance, on the manifest with a comment behind its ares array.
  lemma OpenManifestRunsOnce(targets: seq<seq<string>>)
    requires AllOneLine(targets) && CollectedFrom(targets).Lists?
    ensures var once := RunOf(OpenManifest.MANIFEST, targets, false);
      once.exit == Written && RunOf(once.manifest, targets, false).exit == NoSection
  {
    hide Render, Rewrite, Clean, CollectedFrom, AllOneLine, OpenManifest.MANIFEST;
    BodiesAreClean(targets);
    var lists := CollectedFrom(targets);
    OpenManifest.RewriteOnceOnly(Render(lists.core, true), Render(lists.ares, false));
  }
}
