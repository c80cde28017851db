// What holds of planned edges: order, inputs, and when two edges write the
// same file.
module PlanProperties {
  import opened NameOrder
  import opened BuildPlanner

  // ---- When the order directories are enumerated in does not matter. ----

  lemma {:induction false} NamesConcat(a: seq<Listed>, b: seq<Listed>)
    ensures Names(a + b) == Names(a) + Names(b)
  {
    if b == [] {
      assert a + b == a;
    } else {
      var c := a + b;
      assert c[..|c| - 1] == a + b[..|b| - 1] && c[|c| - 1] == b[|b| - 1];
      NamesConcat(a, b[..|b| - 1]);
    }
  }

  lemma NamesCons(a: seq<Listed>)
    requires a != []
    ensures multiset(a[1..]) == multiset(a) - multiset{a[0]}
    ensures multiset(Names(a)) == multiset(Names([a[0]])) + multiset(Names(a[1..]))
  {
    NamesConcat([a[0]], a[1..]);
    assert a == [a[0]] + a[1..];
  }

  lemma Position(b: seq<Listed>, x: Listed) returns (k: nat)
    requires x in multiset(b)
    ensures k < |b| && b[k] == x
  {
    k :| 0 <= k < |b| && b[k] == x;
  }

  lemma {:induction false} NamesOfPermutation(a: seq<Listed>, b: seq<Listed>)
    requires multiset(a) == multiset(b)
    ensures multiset(Names(a)) == multiset(Names(b))
    decreases |a|
  {
    if a == [] {
      assert |multiset(b)| == 0;
    } else {
      hide Names;
      assert a[0] in multiset(a);
      var k := Position(b, a[0]);
      MovedToFront(b, k);
      NamesCons(a);
      NamesOfPermutation(a[1..], b[..k] + b[k + 1..]);
    }
  }

  lemma MovedToFront(b: seq<Listed>, k: nat)
    requires k < |b|
    ensures var rest := b[..k] + b[k + 1..];
      multiset(rest) == multiset(b) - multiset{b[k]} &&
      multiset(Names(b)) == multiset(Names([b[k]])) + multiset(Names(rest))
  {
    var rest := b[..k] + b[k + 1..];
    assert b == b[..k] + [b[k]] + b[k + 1..];
    NamesConcat(b[..k] + [b[k]], b[k + 1..]);
    NamesConcat(b[..k], [b[k]]);
    NamesConcat(b[..k], b[k + 1..]);
  }

  // The same directory, enumerated in another order.
  predicate SameDirectory(d: Directory, e: Directory) {
    d.Absent? == e.Absent? && (d.Listing? ==> multiset(d.files) == multiset(e.files))
  }

  predicate AllReadable(files: seq<Listed>) { forall f :: f in files ==> !f.status.Unreadable? }

  predicate NoProtos(files: seq<Listed>) { forall f :: f in files ==> !IsProto(f) }

  // No file ends the scan, or there is nothing the scan could miss.
  predicate Scannable(d: Directory) { d.Listing? ==> AllReadable(d.files) || NoProtos(d.files) }

  lemma {:induction false} AllReached(files: seq<Listed>)
    requires AllReadable(files)
    ensures Reached(files) == files
  {
    if files != [] {
      assert files[0] in files && files == [files[0]] + files[1..];
      assert forall f :: f in files[1..] ==> f in files;
      AllReached(files[1..]);
    }
  }

  lemma {:induction false} ReachedAreListed(files: seq<Listed>)
    ensures Reached(files) <= files
  {
    if files != [] {
      ReachedAreListed(files[1..]);
    }
  }

  lemma {:induction false} NoNames(files: seq<Listed>)
    requires NoProtos(files)
    ensures Names(files) == []
  {
    if files != [] {
      assert files[|files| - 1] in files;
      NoNames(files[..|files| - 1]);
    }
  }

  lemma NoneReached(files: seq<Listed>)
    requires NoProtos(files)
    ensures Names(Reached(files)) == []
  {
    hide Names;
    ReachedAreListed(files);
    NoNames(Reached(files));
  }

  lemma SameFiles(a: seq<Listed>, b: seq<Listed>)
    requires multiset(a) == multiset(b)
    ensures AllReadable(a) == AllReadable(b) && NoProtos(a) == NoProtos(b)
  {
    assert forall f :: f in a <==> f in multiset(a);
    assert forall f :: f in b <==> f in multiset(b);
  }

  lemma GroupIsStable(h: Host, root: string, d: Directory, e: Directory)
    requires SameDirectory(d, e) && Scannable(d)
    ensures Group(h, root, d) == Group(h, root, e)
  {
    if d.Listing? {
      hide Names, Reached, AllReadable, NoProtos, Sort;
      SameFiles(d.files, e.files);
      if AllReadable(d.files) {
        AllReached(d.files);
        AllReached(e.files);
        NamesOfPermutation(d.files, e.files);
        SortSorts(Names(d.files));
        SortSorts(Names(e.files));
        SortedIsUnique(Sort(Names(d.files)), Sort(Names(e.files)));
      } else {
        NoneReached(d.files);
        NoneReached(e.files);
      }
    }
  }

  lemma {:induction false} EntriesAreStable(h: Host, roots: seq<string>, dirs: seq<Directory>, dirs': seq<Directory>)
    requires |roots| == |dirs| == |dirs'|
    requires forall i :: 0 <= i < |dirs| ==> SameDirectory(dirs[i], dirs'[i]) && Scannable(dirs[i])
    ensures Entries(h, roots, dirs) == Entries(h, roots, dirs')
  {
    hide SameDirectory, Scannable, Group;
    if roots != [] {
      var n := |roots| - 1;
      EntriesAreStable(h, roots[..n], dirs[..n], dirs'[..n]);
      GroupIsStable(h, roots[n], dirs[n], dirs'[n]);
    }
  }

  lemma {:induction false} FirstAbsentIsStable(roots: seq<string>, dirs: seq<Directory>, dirs': seq<Directory>)
    requires |roots| == |dirs| == |dirs'|
    requires forall i :: 0 <= i < |dirs| ==> SameDirectory(dirs[i], dirs'[i])
    ensures FirstAbsent(roots, dirs) == FirstAbsent(roots, dirs')
  {
    if roots != [] {
      FirstAbsentIsStable(roots[1..], dirs[1..], dirs'[1..]);
    }
  }

  // Listings that are permutations of one another give the same plan, refusals
  // included, if no file with an unreadable status cuts a scan short.
  lemma PlanIsDeterministic(h: Host, opt: Options, dirs: seq<Directory>, dirs': seq<Directory>)
    requires |dirs| == |dirs'| == |Roots(opt)|
    requires forall i :: 0 <= i < |dirs| ==> SameDirectory(dirs[i], dirs'[i]) && Scannable(dirs[i])
    ensures PlanAll(h, opt, dirs) == PlanAll(h, opt, dirs')
  {
    hide SameDirectory, Scannable, Entries, PlanEntries, FirstAbsent;
    EntriesAreStable(h, Roots(opt), dirs, dirs');
    FirstAbsentIsStable(Roots(opt), dirs, dirs');
  }

  // The tools are there, so that entries become edges.
  predicate Equipped(h: Host, opt: Options) {
    h.manifestDir != "" && h.outDir != "" && h.protoc != "" && FirstWithoutBinary(ResolvePlugins(h, opt)) == [] &&
    h.wellKnownTypes != ""
  }

  // What plan_all returns: no edges when it refuses.
  function EdgesOf(p: Planned): seq<Edge> { if p.Edges? then p.edges else [] }

  predicate Reordered(dirs: seq<Directory>, dirs': seq<Directory>) {
    |dirs| == |dirs'| && forall i :: 0 <= i < |dirs| ==> SameDirectory(dirs[i], dirs'[i])
  }

  ghost predicate OrderFree(h: Host, opt: Options, dirs: seq<Directory>)
    requires |dirs| == |Roots(opt)|
  {
    forall a, b :: Reordered(dirs, a) && Reordered(dirs, b) ==>
      EdgesOf(PlanAll(h, opt, a)) == EdgesOf(PlanAll(h, opt, b))
  }

  lemma EdgesAreCounted(h: Host, opt: Options, dirs: seq<Directory>)
    requires |dirs| == |Roots(opt)|
    ensures |EdgesOf(PlanAll(h, opt, dirs))| ==
            if Equipped(h, opt) && FirstAbsent(Roots(opt), dirs) == [] then |Entries(h, Roots(opt), dirs)| else 0
  {
    hide Entries, FirstAbsent, FirstWithoutBinary, ResolvePlugins, EdgeFor;
  }

  // One file taken to the front of its listing.
  lemma Fronted(files: seq<Listed>, k: nat) returns (moved: seq<Listed>)
    requires k < |files|
    ensures multiset(moved) == multiset(files) && moved != [] && moved[0] == files[k]
  {
    moved := [files[k]] + (files[..k] + files[k + 1..]);
    assert files == files[..k] + ([files[k]] + files[k + 1..]);
  }

  lemma UnreadableFirst(files: seq<Listed>)
    requires files != [] && files[0].status.Unreadable?
    ensures Names(Reached(files)) == []
  {
    assert Reached(files) == [files[0]] && [files[0]][..0] == [];
  }

  lemma ProtoFirst(files: seq<Listed>)
    requires files != [] && IsProto(files[0])
    ensures Names(Reached(files)) != []
  {
    NamesConcat([files[0]], Reached(files[1..]));
    assert [files[0]][..0] == [];
  }

  // Two orders of an unscannable directory, one of which hides every .proto.
  lemma TwoOrders(d: Directory) returns (a: Directory, b: Directory)
    requires !Scannable(d)
    ensures SameDirectory(d, a) && SameDirectory(d, b) && a.Listing? && b.Listing?
    ensures Names(Reached(a.files)) != [] && Names(Reached(b.files)) == []
  {
    hide Names, Reached;
    var p :| p in d.files && IsProto(p);
    var u :| u in d.files && u.status.Unreadable?;
    var i :| 0 <= i < |d.files| && d.files[i] == p;
    var j :| 0 <= j < |d.files| && d.files[j] == u;
    var first := Fronted(d.files, i);
    var second := Fronted(d.files, j);
    ProtoFirst(first);
    UnreadableFirst(second);
    a, b := Listing(first), Listing(second);
  }

  lemma {:induction false} MoreEntries(h: Host, roots: seq<string>, a: seq<Directory>, b: seq<Directory>, k: nat)
    requires |roots| == |a| == |b| && k < |roots| && forall i :: 0 <= i < |a| && i != k ==> a[i] == b[i]
    requires |Group(h, roots[k], a[k])| > |Group(h, roots[k], b[k])|
    ensures |Entries(h, roots, a)| > |Entries(h, roots, b)|
  {
    hide Group;
    var n := |roots| - 1;
    if k == n {
      assert a[..n] == b[..n];
    } else {
      MoreEntries(h, roots[..n], a[..n], b[..n], k);
    }
  }

  lemma GroupSize(h: Host, root: string, d: Directory)
    requires d.Listing?
    ensures |Group(h, root, d)| == |Names(Reached(d.files))|
  {
    hide Names, Reached;
    SortSorts(Names(Reached(d.files)));
    assert |multiset(Sort(Names(Reached(d.files))))| == |multiset(Names(Reached(d.files)))|;
  }

  lemma OrderMatters(h: Host, opt: Options, dirs: seq<Directory>, k: nat)
    requires |dirs| == |Roots(opt)| && Equipped(h, opt) && FirstAbsent(Roots(opt), dirs) == []
    requires k < |dirs| && !Scannable(dirs[k])
    ensures !OrderFree(h, opt, dirs)
  {
    hide Entries, Group, Scannable, Names, Reached, PlanAll, FirstAbsent, Equipped;
    var x, y := TwoOrders(dirs[k]);
    var a, b := dirs[k := x], dirs[k := y];
    assert Reordered(dirs, a) && Reordered(dirs, b);
    GroupSize(h, Roots(opt)[k], x);
    GroupSize(h, Roots(opt)[k], y);
    MoreEntries(h, Roots(opt), a, b, k);
    FirstAbsentIsStable(Roots(opt), dirs, a);
    FirstAbsentIsStable(Roots(opt), dirs, b);
    EdgesAreCounted(h, opt, a);
    EdgesAreCounted(h, opt, b);
    assert EdgesOf(PlanAll(h, opt, a)) != EdgesOf(PlanAll(h, opt, b));
  }

  lemma OrderDoesNotMatter(h: Host, opt: Options, dirs: seq<Directory>, dirs': seq<Directory>)
    requires |dirs| == |Roots(opt)| && Reordered(dirs, dirs')
    requires !Equipped(h, opt) || FirstAbsent(Roots(opt), dirs) != [] ||
             forall k :: 0 <= k < |dirs| ==> Scannable(dirs[k])
    ensures EdgesOf(PlanAll(h, opt, dirs')) == EdgesOf(PlanAll(h, opt, dirs))
  {
    hide Entries, SameDirectory, Scannable, PlanAll, FirstAbsent, Equipped;
    FirstAbsentIsStable(Roots(opt), dirs, dirs');
    EdgesAreCounted(h, opt, dirs);
    EdgesAreCounted(h, opt, dirs');
    if Equipped(h, opt) && FirstAbsent(Roots(opt), dirs) == [] {
      PlanIsDeterministic(h, opt, dirs, dirs');
    }
  }

  // Exactly when the planned edges do not depend on the order of enumeration:
  // the plan is refused anyway, or every root is scannable.
  lemma OrderFreeIff(h: Host, opt: Options, dirs: seq<Directory>)
    requires |dirs| == |Roots(opt)|
    ensures OrderFree(h, opt, dirs) <==>
            !Equipped(h, opt) || FirstAbsent(Roots(opt), dirs) != [] ||
            forall k :: 0 <= k < |dirs| ==> Scannable(dirs[k])
  {
    hide PlanAll, Scannable, SameDirectory, FirstAbsent, Equipped;
    if !Equipped(h, opt) || FirstAbsent(Roots(opt), dirs) != [] || forall k :: 0 <= k < |dirs| ==> Scannable(dirs[k]) {
      forall a, b | Reordered(dirs, a) && Reordered(dirs, b)
        ensures EdgesOf(PlanAll(h, opt, a)) == EdgesOf(PlanAll(h, opt, b))
      {
        OrderDoesNotMatter(h, opt, dirs, a);
        OrderDoesNotMatter(h, opt, dirs, b);
      }
    } else {
      var k :| 0 <= k < |dirs| && !Scannable(dirs[k]);
      OrderMatters(h, opt, dirs, k);
    }
  }

  // For instance: one .proto beside a link that leads nowhere.
  lemma DanglingLinkHidesProto(h: Host, opt: Options, link: string)
    requires Equipped(h, opt) && opt.extraDirs == []
    ensures var proto, dangling := Listed(Regular, ".proto", "echo"), Listed(Unreadable, "", link);
      |EdgesOf(PlanAll(h, opt, [Listing([proto, dangling])]))| == 1 &&
      EdgesOf(PlanAll(h, opt, [Listing([dangling, proto])])) == []
  {
    hide PlanAll, Names, Equipped, Group;
    var proto, dangling := Listed(Regular, ".proto", "echo"), Listed(Unreadable, "", link);
    var a, b := [Listing([proto, dangling])], [Listing([dangling, proto])];
    EdgesAreCounted(h, opt, a);
    EdgesAreCounted(h, opt, b);
    GroupSize(h, opt.protoDir, a[0]);
    GroupSize(h, opt.protoDir, b[0]);
    UnreadableFirst(b[0].files);
    OnlyProto(proto, dangling);
    EntriesOfOne(h, opt.protoDir, a[0]);
    EntriesOfOne(h, opt.protoDir, b[0]);
  }

  lemma OnlyProto(p: Listed, u: Listed)
    requires IsProto(p) && u.status.Unreadable?
    ensures Names(Reached([p, u])) == [p.stem]
  {
    assert [p, u][1..] == [u];
    assert Reached([p, u]) == [p] + [u];
    NamesConcat([p], [u]);
    assert [p][..0] == [] && [u][..0] == [];
  }

  lemma EntriesOfOne(h: Host, root: string, d: Directory)
    ensures Entries(h, [root], [d]) == Group(h, root, d)
    ensures FirstAbsent([root], [d]) == if d.Absent? then [root] else []
  {
    hide Group;
    assert [root][..0] == [] && [d][..0] == [];
  }

  // ---- Edges are grouped by root, and sorted within each. ----

  lemma EntriesSnoc(h: Host, roots: seq<string>, dirs: seq<Directory>, k: nat, m: nat)
    requires |roots| == |dirs| && k <= m < |roots|
    ensures Entries(h, roots[k..m + 1], dirs[k..m + 1]) ==
            Entries(h, roots[k..m], dirs[k..m]) + Group(h, roots[m], dirs[m])
  {
    hide Group;
    assert roots[k..m + 1][..m - k] == roots[k..m] && dirs[k..m + 1][..m - k] == dirs[k..m];
  }

  lemma {:induction false} EntriesConcat(h: Host, roots: seq<string>, dirs: seq<Directory>, k: nat, m: nat)
    requires |roots| == |dirs| && k <= m <= |roots|
    ensures Entries(h, roots[0..m], dirs[0..m]) ==
            Entries(h, roots[0..k], dirs[0..k]) + Entries(h, roots[k..m], dirs[k..m])
    decreases m
  {
    hide Entries, Group;
    if k == m {
      NoEntries(h, roots, dirs, k);
    } else {
      EntriesConcat(h, roots, dirs, k, m - 1);
      EntriesSnoc(h, roots, dirs, 0, m - 1);
      EntriesSnoc(h, roots, dirs, k, m - 1);
      Regrouped(Entries(h, roots[0..k], dirs[0..k]), Entries(h, roots[k..m - 1], dirs[k..m - 1]),
                Group(h, roots[m - 1], dirs[m - 1]));
    }
  }

  lemma NoEntries(h: Host, roots: seq<string>, dirs: seq<Directory>, k: nat)
    requires |roots| == |dirs| && k <= |roots|
    ensures Entries(h, roots[k..k], dirs[k..k]) == []
  {
  }

  lemma Regrouped(a: seq<Entry>, b: seq<Entry>, c: seq<Entry>)
    ensures a + b + c == a + (b + c)
  {
  }

  // The edges of root k are the block behind those of the roots before it:
  // one for each .proto below that root, in the order of their names.
  lemma GroupedAndSorted(h: Host, roots: seq<string>, dirs: seq<Directory>, k: nat)
    requires |roots| == |dirs| && k < |roots| && dirs[k].Listing?
    ensures var all, before := Entries(h, roots, dirs), Entries(h, roots[0..k], dirs[0..k]);
      var names := Sort(Names(Reached(dirs[k].files)));
      && |before| + |names| <= |all| && all[..|before|] == before
      && (forall i :: 0 <= i < |names| ==> all[|before| + i] == Entry(h.absolute(roots[k]), names[i]))
      && Sorted(names) && multiset(names) == multiset(Names(Reached(dirs[k].files)))
  {
    hide Entries, Sort, Names;
    var n := |roots|;
    EntriesConcat(h, roots, dirs, k + 1, n);
    EntriesSnoc(h, roots, dirs, 0, k);
    assert roots[0..n] == roots && dirs[0..n] == dirs;
    SortSorts(Names(Reached(dirs[k].files)));
  }

  // How many .proto files the scans of the first k roots got to.
  function CountBefore(dirs: seq<Directory>, k: nat): nat
    requires k <= |dirs|
  {
    if k == 0 then 0
    else CountBefore(dirs, k - 1) + if dirs[k - 1].Absent? then 0 else |Names(Reached(dirs[k - 1].files))|
  }

  lemma {:induction false} EntriesCounted(h: Host, roots: seq<string>, dirs: seq<Directory>, k: nat)
    requires |roots| == |dirs| && k <= |roots|
    ensures |Entries(h, roots[0..k], dirs[0..k])| == CountBefore(dirs, k)
  {
    hide Group, Names, Reached, Entries;
    if k == 0 {
      NoEntries(h, roots, dirs, 0);
    } else {
      EntriesCounted(h, roots, dirs, k - 1);
      EntriesSnoc(h, roots, dirs, 0, k - 1);
      if dirs[k - 1].Listing? { GroupSize(h, roots[k - 1], dirs[k - 1]); } else { EmptyGroup(h, roots[k - 1]); }
    }
  }

  lemma {:induction false} NoneAbsent(roots: seq<string>, dirs: seq<Directory>, k: nat)
    requires |roots| == |dirs| && FirstAbsent(roots, dirs) == [] && k < |dirs|
    ensures dirs[k].Listing?
  {
    if k > 0 {
      NoneAbsent(roots[1..], dirs[1..], k - 1);
    }
  }

  // The edge is the one for this .proto: it carries its name and compiles it.
  predicate IsEdgeFor(e: Edge, h: Host, root: string, name: string) {
    e.id == "protoc:" + name && e.command != [] &&
    e.command[|e.command| - 1] == h.absolute(root) + "/" + name + ".proto"
  }

  // What plan_all plans: first proto_dir, then every one of extra_dirs, in the
  // author's order and none of them missing; for each the .proto files below
  // it, sorted by name; and no others, so that nothing is generated for the
  // imports.
  lemma PlannedByRoot(h: Host, opt: Options, dirs: seq<Directory>, k: nat, i: nat)
    requires |dirs| == 1 + |opt.extraDirs| && PlanAll(h, opt, dirs).Edges? && k < |dirs|
    ensures |PlanAll(h, opt, dirs).edges| == CountBefore(dirs, |dirs|)
    ensures dirs[k].Listing?
    ensures var edges, names := PlanAll(h, opt, dirs).edges, Sort(Names(Reached(dirs[k].files)));
      var at := CountBefore(dirs, k) + i;
      Sorted(names) && multiset(names) == multiset(Names(Reached(dirs[k].files))) &&
      (i < |names| ==>
        at < |edges| && IsEdgeFor(edges[at], h, if k == 0 then opt.protoDir else opt.extraDirs[k - 1], names[i]))
  {
    hide Entries, Group, FirstAbsent, Names, Reached, Sort, Description, Suffixes, AllPluginArgs, Prefixed, CountBefore;
    var roots := Roots(opt);
    NoneAbsent(roots, dirs, k);
    GroupedAndSorted(h, roots, dirs, k);
    EntriesCounted(h, roots, dirs, k);
    EntriesCounted(h, roots, dirs, |dirs|);
    assert roots[0..|roots|] == roots && dirs[0..|dirs|] == dirs;
  }

  // The path of a .proto the scan of root k got to.
  predicate IsInput(h: Host, roots: seq<string>, dirs: seq<Directory>, path: string)
    requires |roots| == |dirs|
  {
    exists k :: 0 <= k < |dirs| && InputOf(h, roots[k], dirs[k], path)
  }

  predicate InputOf(h: Host, root: string, d: Directory, path: string) {
    d.Listing? && exists f :: f in Reached(d.files) && IsProto(f) && path == ProtoPath(h, root, f.stem)
  }

  lemma {:induction false} NamesHave(files: seq<Listed>, name: string)
    ensures name in Names(files) <==> exists f :: f in files && IsProto(f) && f.stem == name
  {
    if files != [] {
      NamesHave(files[..|files| - 1], name);
      assert files == files[..|files| - 1] + [files[|files| - 1]];
    }
  }

  function ProtoPath(h: Host, root: string, stem: string): string { h.absolute(root) + "/" + stem + ".proto" }

  lemma GroupPaths(h: Host, root: string, d: Directory, path: string)
    requires d.Listing?
    ensures path in Sources(Group(h, root, d)) <==>
            exists n :: n in Sort(Names(Reached(d.files))) && path == ProtoPath(h, root, n)
  {
    hide Names, Reached, Sort;
    var group, names := Group(h, root, d), Sort(Names(Reached(d.files)));
    assert |Sources(group)| == |names|;
    assert forall i :: 0 <= i < |names| ==> Sources(group)[i] == ProtoPath(h, root, names[i]);
  }

  lemma GroupHas(h: Host, root: string, d: Directory, path: string)
    ensures path in Sources(Group(h, root, d)) <==> InputOf(h, root, d, path)
  {
    hide Names, Reached, Sort, Group, Sources, ProtoPath, IsProto;
    if d.Listing? {
      var fs := Reached(d.files);
      GroupPaths(h, root, d, path);
      SortSorts(Names(fs));
      assert forall n :: n in Sort(Names(fs)) <==> n in multiset(Sort(Names(fs)));
      if path in Sources(Group(h, root, d)) {
        var n :| n in Sort(Names(fs)) && path == ProtoPath(h, root, n);
        NamesHave(fs, n);
      }
      if InputOf(h, root, d, path) {
        var f :| f in fs && IsProto(f) && path == ProtoPath(h, root, f.stem);
        NamesHave(fs, f.stem);
        assert f.stem in multiset(Names(fs));
      }
    } else {
      EmptyGroup(h, root);
    }
  }

  lemma EmptyGroup(h: Host, root: string)
    ensures Group(h, root, Absent) == []
    ensures Sources([]) == []
  {
  }

  lemma {:induction false} EntriesHave(h: Host, roots: seq<string>, dirs: seq<Directory>, path: string)
    requires |roots| == |dirs|
    ensures path in Sources(Entries(h, roots, dirs)) <==> IsInput(h, roots, dirs, path)
  {
    hide Group, InputOf;
    if roots != [] {
      var n := |roots| - 1;
      EntriesHave(h, roots[..n], dirs[..n], path);
      GroupHas(h, roots[n], dirs[n], path);
      assert Sources(Entries(h, roots, dirs)) ==
        Sources(Entries(h, roots[..n], dirs[..n])) + Sources(Group(h, roots[n], dirs[n]));
      assert IsInput(h, roots, dirs, path) <==>
             IsInput(h, roots[..n], dirs[..n], path) || InputOf(h, roots[n], dirs[n], path);
    }
  }

  // All edges of a plan have the same inputs, one for each edge: the paths of
  // the .proto files below all roots and nothing else. An edge's own source is
  // the input at its own place, and the last word of its command.
  lemma EveryEdgeHasAllInputs(h: Host, opt: Options, dirs: seq<Directory>, i: nat, j: nat, path: string)
    requires |dirs| == |Roots(opt)| && PlanAll(h, opt, dirs).Edges?
    requires i < |PlanAll(h, opt, dirs).edges| && j < |PlanAll(h, opt, dirs).edges|
    ensures var edges := PlanAll(h, opt, dirs).edges;
      && edges[i].inputs == edges[j].inputs == Sources(Entries(h, Roots(opt), dirs)) && |edges[i].inputs| == |edges|
      && edges[i].command[|edges[i].command| - 1] == edges[i].inputs[i]
      && (path in edges[i].inputs <==> IsInput(h, Roots(opt), dirs, path))
  {
    hide Entries, IsInput, FirstAbsent;
    EntriesHave(h, Roots(opt), dirs, path);
  }

  // ---- When two edges write the same file. ----

  predicate ShareOutput(a: Edge, b: Edge) { exists o :: o in a.outputs && o in b.outputs }

  predicate SuffixesMeet(m: string, n: string, suffixes: seq<string>) {
    exists s, t :: s in suffixes && t in suffixes && m + s == n + t
  }

  // In general: exactly when some suffix on one name is some suffix on the
  // other. The output directory plays no part.
  lemma ShareOutputIff(h: Host, opt: Options, es: seq<Entry>, a: Entry, b: Entry)
    ensures ShareOutput(EdgeFor(h, opt, es, a), EdgeFor(h, opt, es, b)) <==>
            SuffixesMeet(a.name, b.name, Suffixes(ResolvePlugins(h, opt)))
  {
    var ss := Suffixes(ResolvePlugins(h, opt));
    var pa, pb := h.outDir + "/" + a.name, h.outDir + "/" + b.name;
    if SuffixesMeet(a.name, b.name, ss) {
      var s, t :| s in ss && t in ss && a.name + s == b.name + t;
      SharedPrefix(h.outDir + "/", a.name, s, b.name, t);
      PrefixedMember(pa, ss, s);
      PrefixedMember(pb, ss, t);
      assert pa + s in EdgeFor(h, opt, es, a).outputs && pb + t in EdgeFor(h, opt, es, b).outputs;
    }
    if ShareOutput(EdgeFor(h, opt, es, a), EdgeFor(h, opt, es, b)) {
      var o :| o in Prefixed(pa, ss) && o in Prefixed(pb, ss);
      var i :| 0 <= i < |ss| && Prefixed(pa, ss)[i] == o;
      var j :| 0 <= j < |ss| && Prefixed(pb, ss)[j] == o;
      SharedPrefix(h.outDir + "/", a.name, ss[i], b.name, ss[j]);
      assert ss[i] in ss && ss[j] in ss;
    }
  }

  lemma PrefixedMember(prefix: string, parts: seq<string>, part: string)
    requires part in parts
    ensures prefix + part in Prefixed(prefix, parts)
  {
    var i :| 0 <= i < |parts| && parts[i] == part;
    assert Prefixed(prefix, parts)[i] == prefix + part;
  }

  lemma SharedPrefix(p: string, m: string, s: string, n: string, t: string)
    ensures p + m + s == p + n + t <==> m + s == n + t
  {
    assert p + m + s == p + (m + s) && p + n + t == p + (n + t);
    assert (p + (m + s))[|p|..] == m + s && (p + (n + t))[|p|..] == n + t;
  }

  // m is n with `s` appended, or the other way round.
  predicate Apart(m: string, n: string, s: string) { m == n + s || n == m + s }

  predicate NamesClash(m: string, n: string, grpc: bool, mock: bool) {
    m == n || (grpc && Apart(m, n, ".grpc")) ||
    (grpc && mock && (Apart(m, n, "_mock") || Apart(m, n, "_mock.grpc")))
  }

  // The built-in plugin's suffixes.
  function BuiltIn(grpc: bool, mock: bool): seq<string> {
    [".pb.cc", ".pb.h"] +
    (if grpc then [".grpc.pb.cc", ".grpc.pb.h"] else []) +
    (if grpc && mock then ["_mock.grpc.pb.h"] else [])
  }

  lemma BuiltInSuffixes(h: Host, opt: Options)
    requires opt.plugins == []
    ensures Suffixes(ResolvePlugins(h, opt)) == BuiltIn(opt.grpc, opt.mock)
  {
    var ps := ResolvePlugins(h, opt);
    if opt.grpc {
      assert ps == [Cpp(h, opt.mock)] && ps[..0] == [];
      assert Suffixes(ps) == Suffixes(ps[..0]) + Cpp(h, opt.mock).suffixes;
    }
  }

  // Comparing the end of two names by an offset.
  lemma EndsMeet(m: string, s: string, n: string, t: string)
    requires m + s == n + t && |s| <= |t|
    ensures m == n + t[..|t| - |s|] && s == t[|t| - |s|..]
  {
    var u := m + s;
    assert u[..|m|] == m && u[|m|..] == s;
    assert (n + t)[..|m|] == n + t[..|t| - |s|];
    assert (n + t)[|m|..] == t[|t| - |s|..];
  }

  lemma Ends()
    ensures ".grpc.pb.cc"[..5] == ".grpc" && ".grpc.pb.cc"[5..] == ".pb.cc"
    ensures ".grpc.pb.h"[..5] == ".grpc" && ".grpc.pb.h"[5..] == ".pb.h"
    ensures "_mock.grpc.pb.h"[..10] == "_mock.grpc" && "_mock.grpc.pb.h"[10..] == ".pb.h"
    ensures "_mock.grpc.pb.h"[..5] == "_mock" && "_mock.grpc.pb.h"[5..] == ".grpc.pb.h"
  {
  }

  // The last characters decide most pairs of suffixes.
  lemma LastsMeet(m: string, s: string, n: string, t: string)
    requires m + s == n + t && s != "" && t != ""
    ensures s[|s| - 1] == t[|t| - 1]
  {
    assert (m + s)[|m + s| - 1] == s[|s| - 1];
    assert (n + t)[|n + t| - 1] == t[|t| - 1];
  }

  lemma ShorterMeets(m: string, s: string, n: string, t: string, grpc: bool, mock: bool)
    requires s in BuiltIn(grpc, mock) && t in BuiltIn(grpc, mock) && |s| <= |t| && m + s == n + t
    ensures NamesClash(m, n, grpc, mock)
  {
    EndsMeet(m, s, n, t);
    LastsMeet(m, s, n, t);
    Ends();
    assert s == t ==> t[..0] == "";
    assert m == n + "" ==> m == n;
  }

  lemma ClashMeets(m: string, n: string, s: string, head: string, t: string, suffixes: seq<string>)
    requires s in suffixes && t in suffixes && t == head + s && Apart(m, n, head)
    ensures SuffixesMeet(m, n, suffixes)
  {
    assert (n + head) + s == n + t && (m + head) + s == m + t;
  }

  // With the built-in plugin, exactly which pairs of names write a common
  // file.
  lemma ShareOutputBuiltIn(h: Host, opt: Options, es: seq<Entry>, a: Entry, b: Entry)
    requires opt.plugins == []
    ensures ShareOutput(EdgeFor(h, opt, es, a), EdgeFor(h, opt, es, b)) <==>
            NamesClash(a.name, b.name, opt.grpc, opt.mock)
  {
    ShareOutputIff(h, opt, es, a, b);
    BuiltInSuffixes(h, opt);
    BuiltInMeets(a.name, b.name, opt.grpc, opt.mock);
  }

  lemma BuiltInMembers(grpc: bool, mock: bool)
    ensures ".pb.h" in BuiltIn(grpc, mock)
    ensures grpc ==> ".grpc.pb.h" in BuiltIn(grpc, mock)
    ensures grpc && mock ==> "_mock.grpc.pb.h" in BuiltIn(grpc, mock)
  {
  }

  lemma BuiltInMeets(m: string, n: string, grpc: bool, mock: bool)
    ensures SuffixesMeet(m, n, BuiltIn(grpc, mock)) <==> NamesClash(m, n, grpc, mock)
  {
    hide BuiltIn, NamesClash;
    if SuffixesMeet(m, n, BuiltIn(grpc, mock)) {
      var s, t :| s in BuiltIn(grpc, mock) && t in BuiltIn(grpc, mock) && m + s == n + t;
      if |s| <= |t| { ShorterMeets(m, s, n, t, grpc, mock); } else { ShorterMeets(n, t, m, s, grpc, mock); }
      ClashIsSymmetric(m, n, grpc, mock);
    }
    if NamesClash(m, n, grpc, mock) { ClashingNamesMeet(m, n, grpc, mock); }
  }

  lemma ClashIsSymmetric(m: string, n: string, grpc: bool, mock: bool)
    ensures NamesClash(m, n, grpc, mock) <==> NamesClash(n, m, grpc, mock)
  {
  }

  lemma ClashingNamesMeet(m: string, n: string, grpc: bool, mock: bool)
    requires NamesClash(m, n, grpc, mock)
    ensures SuffixesMeet(m, n, BuiltIn(grpc, mock))
  {
    var ss := BuiltIn(grpc, mock);
    BuiltInMembers(grpc, mock);
    hide BuiltIn, SuffixesMeet;
    Ends();
    if m == n {
      SameNamesMeet(m, ".pb.h", ss);
    } else if Apart(m, n, ".grpc") {
      ClashMeets(m, n, ".pb.h", ".grpc", ".grpc.pb.h", ss);
    } else if Apart(m, n, "_mock") {
      ClashMeets(m, n, ".grpc.pb.h", "_mock", "_mock.grpc.pb.h", ss);
    } else {
      ClashMeets(m, n, ".pb.h", "_mock.grpc", "_mock.grpc.pb.h", ss);
    }
  }

  lemma SameNamesMeet(m: string, s: string, suffixes: seq<string>)
    requires s in suffixes
    ensures SuffixesMeet(m, m, suffixes)
  {
    assert m + s == m + s;
  }
}
