/** What a render promises: every file in place, nothing else touched, exactly what changed
    reported, and nothing to do the second time (cli/internal/reconcile/render.go). */
module RenderHolds {
  import opened Common
  import opened Disk
  import opened Render
  import opened Sorting
  import Secrets

  /** Every write of a render. */
  function All(plan: Plan, secrets: Secrets.Values, layout: Layout, order: seq<string>): seq<Item>
    requires Published(plan, secrets) && forall f :: f in order ==> f in plan.files
  {
    Items(plan, secrets, layout, order) + [ComposeItem(plan, layout)]
  }

  function Known(layout: Layout, order: seq<string>): set<string> {
    SetOf(BlueprintNames(layout, order))
  }

  /** A path where pruning may look. */
  predicate GeneratedName(dir: Path, p: Path) {
    InDir(dir, p) && "kimono-" <= NameIn(dir, p) && HasSuffix(NameIn(dir, p), ".yaml")
  }

  /** A file of the plan that looks like a generated blueprint nobody knows, where
      blueprints are pruned. */
  predicate PrunedAway(layout: Layout, order: seq<string>, w: Item) {
    && GeneratedName(layout.blueprints, w.path) && "# Generated by Kimono" <= w.contents
    && NameIn(layout.blueprints, w.path) !in Known(layout, order)
  }

  /** A later file that is written anew is put together in the place of this one. */
  predicate Lost(files: Files, ws: seq<Item>, i: nat)
    requires i < |ws|
  {
    exists j :: i < j < |ws| && Temp(ws[j].path) == ws[i].path && Anew(files, ws, j)
  }

  /** No file is lost and none is pruned. */
  ghost predicate AllStay(files: Files, plan: Plan, secrets: Secrets.Values, layout: Layout, order: seq<string>)
    requires Published(plan, secrets) && forall f :: f in order ==> f in plan.files
  {
    var all := All(plan, secrets, layout, order);
    forall i :: 0 <= i < |all| ==> !Lost(files, all, i) && !PrunedAway(layout, order, all[i])
  }

  /* ── blueprints ── */

  lemma {:induction false} BaseAfter(p: Path, k: nat)
    requires k < |p| && p[k] == '/' && !Has(p[k + 1..], '/')
    ensures Base(p) == p[k + 1..]
    decreases |p|
  {
    var n := |p| - 1;
    if k < n {
      assert p[n] == p[k + 1..][n - k - 1];
      assert p[..n][k + 1..] == p[k + 1..][..n - k - 1];
      BaseAfter(p[..n], k);
      assert p[k + 1..] == p[k + 1..][..n - k - 1] + [p[n]];
    }
  }

  lemma {:induction false} BlueprintKnown(layout: Layout, order: seq<string>, f: string)
    requires f in order && KindOf(f).Blueprint?
    ensures Base(Destination(layout, f)) in BlueprintNames(layout, order)
  {
    var n := |order| - 1;
    if f != order[n] {
      BlueprintKnown(layout, order[..n], f);
    }
  }

  lemma {:induction false} KnownBlueprint(layout: Layout, order: seq<string>, name: string)
    requires name in BlueprintNames(layout, order)
    ensures exists f :: f in order && KindOf(f).Blueprint? && Base(Destination(layout, f)) == name
  {
    var n := |order| - 1;
    if name in BlueprintNames(layout, order[..n]) {
      KnownBlueprint(layout, order[..n], name);
    }
  }

  lemma {:induction false} ItemOf(plan: Plan, secrets: Secrets.Values, layout: Layout, order: seq<string>, f: string)
    requires (forall g :: g in order ==> g in plan.files) && f in order && !Skipped(layout, f)
    ensures FileItem(plan, secrets, layout, f) in FileItems(plan, secrets, layout, order)
  {
    var n := |order| - 1;
    if f != order[n] {
      ItemOf(plan, secrets, layout, order[..n], f);
    }
  }

  lemma {:induction false} ItemFrom(plan: Plan, secrets: Secrets.Values, layout: Layout, order: seq<string>, w: Item)
    requires (forall g :: g in order ==> g in plan.files) && w in FileItems(plan, secrets, layout, order)
    ensures w.name in order && !Skipped(layout, w.name) && w == FileItem(plan, secrets, layout, w.name)
  {
    var n := |order| - 1;
    if w in FileItems(plan, secrets, layout, order[..n]) {
      ItemFrom(plan, secrets, layout, order[..n], w);
    }
  }

  /** A blueprint of the plan is known. */
  lemma BlueprintNotPruned(plan: Plan, secrets: Secrets.Values, layout: Layout, order: seq<string>, w: Item)
    requires Published(plan, secrets) && forall f :: f in order ==> f in plan.files
    requires w in All(plan, secrets, layout, order) && w.kind.Blueprint?
    ensures !PrunedAway(layout, order, w)
  {
    if InDir(layout.blueprints, w.path) {
      ItemFrom(plan, secrets, layout, order, w);
      BlueprintKnown(layout, order, w.name);
      BaseAfter(w.path, |layout.blueprints|);
    }
  }

  /** A path ends in one name only. */
  lemma OneName(dir: Path, base: Path, name: string)
    requires InDir(dir, base + "/" + name) && !Has(name, '/')
    ensures NameIn(dir, base + "/" + name) == name
  {
    var p := base + "/" + name;
    assert p[|base| + 1..] == name;
    BaseAfter(p, |dir|);
    BaseAfter(p, |base|);
  }

  /** The environment and the Compose file are never pruned, and nothing is put together in
      their places. */
  lemma ComposeIsNoBlueprint(plan: Plan, layout: Layout)
    ensures !GeneratedName(layout.blueprints, ComposeItem(plan, layout).path)
    ensures forall p :: Temp(p) != ComposeItem(plan, layout).path
  {
    var p := Join(layout.project, "compose.yaml");
    if InDir(layout.blueprints, p) {
      OneName(layout.blueprints, layout.project, "compose.yaml");
      assert "compose.yaml"[0] != "kimono-"[0];
    }
    assert p[|p| - 1] == 'l';
    forall q
      ensures Temp(q) != p
    {
      assert Temp(q)[|Temp(q)| - 1] == 'w';
    }
  }

  lemma EnvironmentIsNoBlueprint(plan: Plan, secrets: Secrets.Values, layout: Layout)
    requires Published(plan, secrets)
    ensures !GeneratedName(layout.blueprints, EnvironmentItem(plan, secrets, layout).path)
    ensures forall p :: Temp(p) != EnvironmentItem(plan, secrets, layout).path
  {
    var p := Join(layout.project, ".env");
    if InDir(layout.blueprints, p) {
      OneName(layout.blueprints, layout.project, ".env");
    }
    assert p[|p| - 1] == 'v';
    forall q
      ensures Temp(q) != p
    {
      assert Temp(q)[|Temp(q)| - 1] == 'w';
    }
  }

  lemma EndsOtherwise(s: string)
    requires s != [] && s[|s| - 1] != 'l'
    ensures !HasSuffix(s, ".yaml")
  {
    if |s| >= 5 {
      assert s[|s| - 5..][4] == s[|s| - 1];
    }
  }

  lemma TempIsNoBlueprint(dir: Path, p: Path)
    ensures !GeneratedName(dir, Temp(p))
  {
    if InDir(dir, Temp(p)) && NameIn(dir, Temp(p)) != [] {
      EndsOtherwise(NameIn(dir, Temp(p)));
    }
  }

  /* ── the files ── */

  lemma PruneKeeps(files: Files, dir: Path, known: set<string>, p: Path)
    requires !Stale(files, dir, known, p)
    ensures At(Pruned(files, dir, known), p) == At(files, p)
  {
  }

  /** Pruning does not touch what the Compose file is written from and to. */
  lemma ComposeUnpruned(files: Files, plan: Plan, layout: Layout, order: seq<string>)
    ensures var w := ComposeItem(plan, layout);
            var now := Pruned(files, layout.blueprints, Known(layout, order));
            Differs(now, w) == Differs(files, w) && ModeAfter(now, w) == ModeAfter(files, w)
  {
    var w := ComposeItem(plan, layout);
    var now := Pruned(files, layout.blueprints, Known(layout, order));
    ComposeIsNoBlueprint(plan, layout);
    TempIsNoBlueprint(layout.blueprints, w.path);
    PruneKeeps(files, layout.blueprints, Known(layout, order), w.path);
    PruneKeeps(files, layout.blueprints, Known(layout, order), Temp(w.path));
    PresentAsAt(now, files, w.path);
    PresentAsAt(now, files, Temp(w.path));
  }

  lemma ItemsOfAll(plan: Plan, secrets: Secrets.Values, layout: Layout, order: seq<string>)
    requires Published(plan, secrets) && forall f :: f in order ==> f in plan.files
    ensures var ws, all := Items(plan, secrets, layout, order), All(plan, secrets, layout, order);
            && |all| == |ws| + 1 && all[..|ws|] == ws && all[|ws|] == ComposeItem(plan, layout)
            && (forall i :: 0 <= i < |ws| ==> all[i] == ws[i])
            && (forall i :: 0 <= i <= |ws| ==> all[..i] == ws[..i])
  {
  }

  lemma StaleIff(files: Files, layout: Layout, order: seq<string>, w: Item)
    requires w.path in files ==> files[w.path].contents == w.contents
    ensures At(Pruned(files, layout.blueprints, Known(layout, order)), w.path)
            == if PrunedAway(layout, order, w) then None else At(files, w.path)
  {
  }

  /** Every file of the plan, the environment and the Compose file end in place, with their
      contents, exactly when they are neither lost to a later file nor pruned. */
  lemma EachInPlace(files: Files, plan: Plan, secrets: Secrets.Values, layout: Layout, order: seq<string>, i: nat)
    requires Published(plan, secrets) && forall f :: f in order ==> f in plan.files
    requires PathsDiffer(All(plan, secrets, layout, order)) && i < |All(plan, secrets, layout, order)|
    ensures var all := All(plan, secrets, layout, order);
            At(Rendered(files, plan, secrets, layout, order), all[i].path)
            == if Lost(files, all, i) || PrunedAway(layout, order, all[i]) then None
               else Some(File(all[i].contents, ModeAfter(WrittenAll(files, all[..i]), all[i])))
  {
    var ws, all := Items(plan, secrets, layout, order), All(plan, secrets, layout, order);
    ItemsOfAll(plan, secrets, layout, order);
    ComposeUnpruned(WrittenAll(files, ws), plan, layout, order);
    if i == |ws| {
      ComposeIsNoBlueprint(plan, layout);
    } else {
      InPlaceIff(files, all, i, |ws|);
      StaleIff(WrittenAll(files, ws), layout, order, all[i]);
      WrittenAt(Pruned(WrittenAll(files, ws), layout.blueprints, Known(layout, order)), all[|ws|], all[i].path);
      RewritesIff(files, all, |ws|);
      LostNext(files, all, i);
    }
  }

  lemma LostNext(files: Files, ws: seq<Item>, i: nat)
    requires i < |ws| - 1
    ensures var n := |ws| - 1;
            Lost(files, ws, i) <==> (exists j :: i < j < n && Temp(ws[j].path) == ws[i].path && Anew(files, ws, j))
                                    || (Temp(ws[n].path) == ws[i].path && Anew(files, ws, n))
  {
    var n := |ws| - 1;
    if Lost(files, ws, i) {
      var j :| i < j < |ws| && Temp(ws[j].path) == ws[i].path && Anew(files, ws, j);
    }
  }

  /** After a render, a generated file is at its destination exactly when it is neither lost
      nor pruned; then its secrets are filled in, and its mode is the one wanted exactly when
      it was not written anew, or no temporary file of another mode was lying there. */
  lemma FileInPlace(files: Files, plan: Plan, secrets: Secrets.Values, layout: Layout, order: seq<string>, f: string)
    returns (i: nat)
    requires Published(plan, secrets) && forall g :: g in order ==> g in plan.files
    requires PathsDiffer(All(plan, secrets, layout, order))
    requires f in order && !Skipped(layout, f)
    ensures var all := All(plan, secrets, layout, order);
            i < |all| && all[i] == FileItem(plan, secrets, layout, f)
    ensures var all := All(plan, secrets, layout, order);
            var placed := At(Rendered(files, plan, secrets, layout, order), Destination(layout, f));
            && (placed.Some? <==> !Lost(files, all, i) && !PrunedAway(layout, order, all[i]))
            && (placed.Some? ==>
                  var now, temp := WrittenAll(files, all[..i]), Temp(Destination(layout, f));
                  && placed.value.contents == Secrets.Expand(plan.files[f], 0, secrets)
                  && (placed.value.mode == ModeOf(f)
                      <==> !Anew(files, all, i) || temp !in now || now[temp].mode == ModeOf(f)))
  {
    ItemOf(plan, secrets, layout, order, f);
    var w := FileItem(plan, secrets, layout, f);
    var all := All(plan, secrets, layout, order);
    assert w in all;
    i :| 0 <= i < |all| && all[i] == w;
    EachInPlace(files, plan, secrets, layout, order, i);
    RewritesIff(files, all, i);
  }

  /** What is no destination and no temporary file is as it was, unless it was a generated
      blueprint the plan does not know: then it is gone. */
  lemma NothingElseTouched(files: Files, plan: Plan, secrets: Secrets.Values, layout: Layout, order: seq<string>, p: Path)
    requires Published(plan, secrets) && forall f :: f in order ==> f in plan.files
    requires var all := All(plan, secrets, layout, order); !IsPathOf(all, p) && !IsTempOf(all, p)
    ensures At(Rendered(files, plan, secrets, layout, order), p)
            == if Stale(files, layout.blueprints, Known(layout, order), p) then None else At(files, p)
  {
    var ws, all := Items(plan, secrets, layout, order), All(plan, secrets, layout, order);
    var compose := ComposeItem(plan, layout);
    assert all[|ws|] == compose;
    assert compose.path != p && Temp(compose.path) != p;
    forall i | 0 <= i < |ws|
      ensures ws[i].path != p && Temp(ws[i].path) != p
    {
      assert all[i] == ws[i];
    }
    OthersKept(files, ws, p);
    var after := WrittenAll(files, ws);
    StaleAlike(after, files, layout.blueprints, Known(layout, order), p);
    WrittenAt(Pruned(after, layout.blueprints, Known(layout, order)), compose, p);
  }

  lemma StaleAlike(a: Files, b: Files, dir: Path, known: set<string>, p: Path)
    requires At(a, p) == At(b, p)
    ensures Stale(a, dir, known, p) == Stale(b, dir, known, p)
    ensures p in Pruned(a, dir, known) <==> p in a && !Stale(b, dir, known, p)
  {
    assert p in a <==> At(a, p).Some?;
    assert p in b <==> At(b, p).Some?;
  }

  /* ── pruning ── */

  /** Nothing stale is left. */
  lemma NoneStale(files: Files, plan: Plan, secrets: Secrets.Values, layout: Layout, order: seq<string>, p: Path)
    requires Published(plan, secrets) && forall f :: f in order ==> f in plan.files
    requires PathsDiffer(All(plan, secrets, layout, order))
    ensures !Stale(Rendered(files, plan, secrets, layout, order), layout.blueprints, Known(layout, order), p)
  {
    var all := All(plan, secrets, layout, order);
    var end := Rendered(files, plan, secrets, layout, order);
    if IsPathOf(all, p) {
      var i :| 0 <= i < |all| && all[i].path == p;
      EachInPlace(files, plan, secrets, layout, order, i);
    } else if IsTempOf(all, p) {
      var i :| 0 <= i < |all| && Temp(all[i].path) == p;
      TempIsNoBlueprint(layout.blueprints, all[i].path);
    } else {
      NothingElseTouched(files, plan, secrets, layout, order, p);
      if p in end {
        assert At(end, p).Some?;
        StaleAlike(end, files, layout.blueprints, Known(layout, order), p);
      }
    }
  }

  /** A file the plan has no place for that is pruned, or one of its own that is. */
  ghost predicate PrunesAny(files: Files, plan: Plan, secrets: Secrets.Values, layout: Layout, order: seq<string>)
    requires Published(plan, secrets) && forall f :: f in order ==> f in plan.files
  {
    var all := All(plan, secrets, layout, order);
    || (exists p :: !IsPathOf(all, p) && Stale(files, layout.blueprints, Known(layout, order), p))
    || (exists i :: 0 <= i < |all| && PrunedAway(layout, order, all[i]) && !Lost(files, all, i))
  }

  /** What is stale after the writes is what was stale before and has no place in the plan,
      and the plan's own files that are pruned. */
  lemma StaleAfter(files: Files, plan: Plan, secrets: Secrets.Values, layout: Layout, order: seq<string>, p: Path)
    requires Published(plan, secrets) && forall f :: f in order ==> f in plan.files
    requires PathsDiffer(All(plan, secrets, layout, order)) && !IsPathOf(All(plan, secrets, layout, order), p)
    ensures Stale(WrittenAll(files, Items(plan, secrets, layout, order)), layout.blueprints, Known(layout, order), p)
            <==> Stale(files, layout.blueprints, Known(layout, order), p)
  {
    var ws, all := Items(plan, secrets, layout, order), All(plan, secrets, layout, order);
    ItemsOfAll(plan, secrets, layout, order);
    if IsTempOf(all, p) {
      var i :| 0 <= i < |all| && Temp(all[i].path) == p;
      TempIsNoBlueprint(layout.blueprints, all[i].path);
    } else {
      forall i | 0 <= i < |ws|
        ensures ws[i].path != p && Temp(ws[i].path) != p
      {
        assert all[i] == ws[i];
      }
      OthersKept(files, ws, p);
      StaleAlike(WrittenAll(files, ws), files, layout.blueprints, Known(layout, order), p);
    }
  }

  lemma OwnStaleAfter(files: Files, plan: Plan, secrets: Secrets.Values, layout: Layout, order: seq<string>, i: nat)
    requires Published(plan, secrets) && forall f :: f in order ==> f in plan.files
    requires PathsDiffer(All(plan, secrets, layout, order)) && i < |All(plan, secrets, layout, order)|
    ensures var ws, all := Items(plan, secrets, layout, order), All(plan, secrets, layout, order);
            Stale(WrittenAll(files, ws), layout.blueprints, Known(layout, order), all[i].path)
            <==> PrunedAway(layout, order, all[i]) && !Lost(files, all, i)
  {
    var ws, all := Items(plan, secrets, layout, order), All(plan, secrets, layout, order);
    ItemsOfAll(plan, secrets, layout, order);
    if i == |ws| {
      ComposeIsNoBlueprint(plan, layout);
    } else {
      InPlaceIff(files, all, i, |ws|);
      LostNext(files, all, i);
      TempIsNoBlueprint(layout.blueprints, all[|ws|].path);
    }
  }

  lemma StaleSetIff(files: Files, plan: Plan, secrets: Secrets.Values, layout: Layout, order: seq<string>)
    requires Published(plan, secrets) && forall f :: f in order ==> f in plan.files
    requires PathsDiffer(All(plan, secrets, layout, order))
    ensures StaleSet(WrittenAll(files, Items(plan, secrets, layout, order)), layout.blueprints, Known(layout, order)) != {}
            <==> PrunesAny(files, plan, secrets, layout, order)
  {
    var all := All(plan, secrets, layout, order);
    var stale := StaleSet(WrittenAll(files, Items(plan, secrets, layout, order)), layout.blueprints, Known(layout, order));
    if p :| p in stale {
      if IsPathOf(all, p) {
        var i :| 0 <= i < |all| && all[i].path == p;
        OwnStaleAfter(files, plan, secrets, layout, order, i);
      } else {
        StaleAfter(files, plan, secrets, layout, order, p);
      }
    }
    if p :| !IsPathOf(all, p) && Stale(files, layout.blueprints, Known(layout, order), p) {
      StaleAfter(files, plan, secrets, layout, order, p);
      assert p in stale;
    }
    if i :| 0 <= i < |all| && PrunedAway(layout, order, all[i]) && !Lost(files, all, i) {
      OwnStaleAfter(files, plan, secrets, layout, order, i);
      assert all[i].path in stale;
    }
  }

  /** A generated blueprint directly in the directory is left only when a blueprint of the
      plan has its base name. */
  lemma GeneratedLeft(files: Files, plan: Plan, secrets: Secrets.Values, layout: Layout, order: seq<string>, p: Path)
    returns (f: string)
    requires Published(plan, secrets) && forall g :: g in order ==> g in plan.files
    requires PathsDiffer(All(plan, secrets, layout, order))
    requires Generated(Rendered(files, plan, secrets, layout, order), layout.blueprints, p)
    ensures f in order && KindOf(f).Blueprint? && Base(Destination(layout, f)) == NameIn(layout.blueprints, p)
    ensures !Has(f[|BLUEPRINTS|..], '/') ==> Destination(layout, f) == p
  {
    NoneStale(files, plan, secrets, layout, order, p);
    KnownBlueprint(layout, order, NameIn(layout.blueprints, p));
    f :| f in order && KindOf(f).Blueprint? && Base(Destination(layout, f)) == NameIn(layout.blueprints, p);
    if !Has(f[|BLUEPRINTS|..], '/') {
      OnlyPlace(layout, f, p);
    }
  }

  lemma OnlyPlace(layout: Layout, f: string, p: Path)
    requires KindOf(f).Blueprint? && !Has(f[|BLUEPRINTS|..], '/')
    requires InDir(layout.blueprints, p) && Base(Destination(layout, f)) == NameIn(layout.blueprints, p)
    ensures Destination(layout, f) == p
  {
    var rest, dir := f[|BLUEPRINTS|..], layout.blueprints;
    assert Join(dir, rest)[|dir| + 1..] == rest;
    BaseAfter(Join(dir, rest), |dir|);
    assert p == p[..|dir|] + [p[|dir|]] + p[|dir| + 1..];
  }

  /** A blueprint further down shields a stale one that has its base name: it stays. */
  lemma NestedShields(files: Files, plan: Plan, secrets: Secrets.Values, layout: Layout, order: seq<string>)
    requires Published(plan, secrets) && (forall g :: g in order ==> g in plan.files)
    requires "authentik/old/kimono-wiki.yaml" in order
    requires var p := Join(layout.blueprints, "kimono-wiki.yaml");
             var all := All(plan, secrets, layout, order);
             Generated(files, layout.blueprints, p) && !IsPathOf(all, p) && !IsTempOf(all, p)
    ensures var p := Join(layout.blueprints, "kimono-wiki.yaml");
            At(Rendered(files, plan, secrets, layout, order), p) == At(files, p)
  {
    var p := Join(layout.blueprints, "kimono-wiki.yaml");
    ShieldedBase(layout, order);
    assert NameIn(layout.blueprints, p) == "kimono-wiki.yaml";
    NothingElseTouched(files, plan, secrets, layout, order, p);
  }

  lemma ShieldedBase(layout: Layout, order: seq<string>)
    requires "authentik/old/kimono-wiki.yaml" in order
    ensures "kimono-wiki.yaml" in Known(layout, order)
  {
    var f, name := "authentik/old/kimono-wiki.yaml", "kimono-wiki.yaml";
    BlueprintKnown(layout, order, f);
    assert f[|BLUEPRINTS|..] == "old" + "/" + name;
    BaseBelow(layout.blueprints, "old", name);
    assert Base(Destination(layout, f)) == name;
  }

  lemma BaseBelow(dir: Path, sub: string, name: string)
    requires !Has(name, '/')
    ensures Base(Join(dir, sub + "/" + name)) == name
  {
    var p, k := Join(dir, sub + "/" + name), |dir| + 1 + |sub|;
    assert p[k] == '/' && p[k + 1..] == name;
    BaseAfter(p, k);
  }

  /** Names a plan may not use: a file where the Compose file is written first is gone
      after every render that changes the Compose file. */
  lemma ComposeTempLost(files: Files, plan: Plan, secrets: Secrets.Values, layout: Layout, order: seq<string>)
    requires Published(plan, secrets) && (forall g :: g in order ==> g in plan.files)
    requires "compose.yaml.new" in order && ResultOf(files, plan, secrets, layout, order).composeChanged
    ensures Destination(layout, "compose.yaml.new") !in Rendered(files, plan, secrets, layout, order)
  {
    var f := "compose.yaml.new";
    assert BLUEPRINTS[0] != f[0] && MESH[0] != f[0];
    assert Join(layout.project, f) == Temp(Join(layout.project, "compose.yaml"));
  }

  /* ── what is reported ── */

  /** The files written anew, by the name they have in the plan. */
  ghost predicate FileAnew(files: Files, plan: Plan, secrets: Secrets.Values, layout: Layout, order: seq<string>, f: string)
    requires Published(plan, secrets) && forall g :: g in order ==> g in plan.files
  {
    var all := All(plan, secrets, layout, order);
    exists i :: 0 <= i < |all| && f in order && all[i] == FileItem(plan, secrets, layout, f) && Anew(files, all, i)
  }

  lemma AnewOfFile(files: Files, plan: Plan, secrets: Secrets.Values, layout: Layout, order: seq<string>, kind: Kind, f: string)
    requires Published(plan, secrets) && (forall g :: g in order ==> g in plan.files)
    requires kind.Blueprint? || kind.Mesh? || kind.Mounted?
    ensures AnewOf(files, All(plan, secrets, layout, order), kind, f, |Items(plan, secrets, layout, order)|)
            <==> KindOf(f) == kind && FileAnew(files, plan, secrets, layout, order, f)
  {
    var ws, all := Items(plan, secrets, layout, order), All(plan, secrets, layout, order);
    ItemsOfAll(plan, secrets, layout, order);
    if AnewOf(files, all, kind, f, |ws|) {
      var i :| 0 <= i < |ws| && all[i].kind == kind && all[i].name == f && Anew(files, all, i);
      assert ws[i] in FileItems(plan, secrets, layout, order);
      ItemFrom(plan, secrets, layout, order, ws[i]);
    }
  }

  lemma RewrittenFile(files: Files, plan: Plan, secrets: Secrets.Values, layout: Layout, order: seq<string>, kind: Kind, f: string)
    requires Published(plan, secrets) && (forall g :: g in order ==> g in plan.files)
    requires PathsDiffer(All(plan, secrets, layout, order))
    requires kind.Blueprint? || kind.Mesh? || kind.Mounted?
    ensures f in Rewritten(files, Items(plan, secrets, layout, order), kind)
            <==> KindOf(f) == kind && FileAnew(files, plan, secrets, layout, order, f)
  {
    ItemsOfAll(plan, secrets, layout, order);
    RewrittenIff(files, All(plan, secrets, layout, order), kind, f, |Items(plan, secrets, layout, order)|);
    AnewOfFile(files, plan, secrets, layout, order, kind, f);
  }

  /** Reported are exactly the mounted files that are written anew: those whose contents
      differed before the render, and those an earlier one was put together in the place of. */
  lemma ChangedFilesIff(files: Files, plan: Plan, secrets: Secrets.Values, layout: Layout, order: seq<string>, f: string)
    requires Published(plan, secrets) && (forall g :: g in order ==> g in plan.files)
    requires PathsDiffer(All(plan, secrets, layout, order))
    ensures f in ResultOf(files, plan, secrets, layout, order).changedFiles
            <==> KindOf(f).Mounted? && FileAnew(files, plan, secrets, layout, order, f)
  {
    RewrittenFile(files, plan, secrets, layout, order, Mounted, f);
  }

  ghost predicate KindAnew(files: Files, plan: Plan, secrets: Secrets.Values, layout: Layout, order: seq<string>, kind: Kind)
    requires Published(plan, secrets) && forall g :: g in order ==> g in plan.files
  {
    exists f :: f in order && KindOf(f) == kind && FileAnew(files, plan, secrets, layout, order, f)
  }

  lemma RewrittenAny(files: Files, plan: Plan, secrets: Secrets.Values, layout: Layout, order: seq<string>, kind: Kind)
    requires Published(plan, secrets) && (forall g :: g in order ==> g in plan.files)
    requires PathsDiffer(All(plan, secrets, layout, order))
    requires kind.Blueprint? || kind.Mesh? || kind.Mounted?
    ensures Rewritten(files, Items(plan, secrets, layout, order), kind) != []
            <==> KindAnew(files, plan, secrets, layout, order, kind)
  {
    var names := Rewritten(files, Items(plan, secrets, layout, order), kind);
    if names != [] {
      RewrittenFile(files, plan, secrets, layout, order, kind, names[0]);
    }
    if f :| f in order && KindOf(f) == kind && FileAnew(files, plan, secrets, layout, order, f) {
      RewrittenFile(files, plan, secrets, layout, order, kind, f);
    }
  }

  /** Nothing is put together in the place of the Compose file. */
  lemma ComposeAnew(files: Files, plan: Plan, secrets: Secrets.Values, layout: Layout, order: seq<string>)
    requires Published(plan, secrets) && (forall g :: g in order ==> g in plan.files)
    requires PathsDiffer(All(plan, secrets, layout, order))
    ensures ResultOf(files, plan, secrets, layout, order).composeChanged <==> Differs(files, ComposeItem(plan, layout))
  {
    var ws, all := Items(plan, secrets, layout, order), All(plan, secrets, layout, order);
    ItemsOfAll(plan, secrets, layout, order);
    ComposeUnpruned(WrittenAll(files, ws), plan, layout, order);
    ComposeIsNoBlueprint(plan, layout);
    RewritesIff(files, all, |ws|);
  }

  /** The other flags are up exactly when a file of their kind is written anew, or, for
      blueprints, one is pruned. */
  lemma FlagsIff(files: Files, plan: Plan, secrets: Secrets.Values, layout: Layout, order: seq<string>)
    requires Published(plan, secrets) && (forall g :: g in order ==> g in plan.files)
    requires PathsDiffer(All(plan, secrets, layout, order))
    ensures var result := ResultOf(files, plan, secrets, layout, order);
            && (result.meshChanged <==> KindAnew(files, plan, secrets, layout, order, Mesh))
            && (result.blueprintsChanged <==> KindAnew(files, plan, secrets, layout, order, Blueprint)
                                              || PrunesAny(files, plan, secrets, layout, order))
            && (result.composeChanged <==> Differs(files, ComposeItem(plan, layout)))
  {
    RewrittenAny(files, plan, secrets, layout, order, Mesh);
    RewrittenAny(files, plan, secrets, layout, order, Blueprint);
    ComposeAnew(files, plan, secrets, layout, order);
    StaleSetIff(files, plan, secrets, layout, order);
  }

  /* ── the second time ── */

  predicate Quiet(result: Result) {
    !result.blueprintsChanged && !result.composeChanged && !result.meshChanged && result.changedFiles == []
  }

  /** Nothing changed is reported exactly when every file already has its contents and
      nothing is pruned. */
  lemma QuietIff(files: Files, plan: Plan, secrets: Secrets.Values, layout: Layout, order: seq<string>)
    requires Published(plan, secrets) && (forall g :: g in order ==> g in plan.files)
    requires PathsDiffer(All(plan, secrets, layout, order))
    requires !Differs(files, EnvironmentItem(plan, secrets, layout))
    ensures Quiet(ResultOf(files, plan, secrets, layout, order))
            <==> (forall i :: 0 <= i < |All(plan, secrets, layout, order)| ==> !Differs(files, All(plan, secrets, layout, order)[i]))
                 && !PrunesAny(files, plan, secrets, layout, order)
  {
    var all := All(plan, secrets, layout, order);
    FlagsIff(files, plan, secrets, layout, order);
    RewrittenAny(files, plan, secrets, layout, order, Mounted);
    if forall i :: 0 <= i < |all| ==> !Differs(files, all[i]) {
      forall i | 0 <= i < |all|
        ensures !Anew(files, all, i)
      {
        NoneAnew(files, all, i);
      }
      assert !Differs(files, all[|all| - 1]);
    }
    if i :| 0 <= i < |all| && Differs(files, all[i]) {
      DifferenceShows(files, plan, secrets, layout, order, i);
    }
  }

  /** A file that differs raises the flag of its kind; only the environment has none. */
  lemma DifferenceShows(files: Files, plan: Plan, secrets: Secrets.Values, layout: Layout, order: seq<string>, i: nat)
    requires Published(plan, secrets) && (forall g :: g in order ==> g in plan.files)
    requires PathsDiffer(All(plan, secrets, layout, order)) && 0 < i < |All(plan, secrets, layout, order)|
    requires Differs(files, All(plan, secrets, layout, order)[i])
    ensures !Quiet(ResultOf(files, plan, secrets, layout, order))
  {
    var all := All(plan, secrets, layout, order);
    FlagsIff(files, plan, secrets, layout, order);
    if i < |all| - 1 {
      assert all[i] in FileItems(plan, secrets, layout, order);
      ItemFrom(plan, secrets, layout, order, all[i]);
      assert Anew(files, all, i);
      assert FileAnew(files, plan, secrets, layout, order, all[i].name);
      RewrittenAny(files, plan, secrets, layout, order, Mounted);
    }
  }

  lemma StillDiffers(files: Files, plan: Plan, secrets: Secrets.Values, layout: Layout, order: seq<string>, i: nat)
    requires Published(plan, secrets) && (forall g :: g in order ==> g in plan.files)
    requires PathsDiffer(All(plan, secrets, layout, order)) && i < |All(plan, secrets, layout, order)|
    ensures var all := All(plan, secrets, layout, order);
            Differs(Rendered(files, plan, secrets, layout, order), all[i])
            <==> Lost(files, all, i) || PrunedAway(layout, order, all[i])
  {
    EachInPlace(files, plan, secrets, layout, order, i);
    var once, p := Rendered(files, plan, secrets, layout, order), All(plan, secrets, layout, order)[i].path;
    assert p in once <==> At(once, p).Some?;
  }

  /** Rendered again, a plan reports nothing changed, exactly when the first render left
      every file in place. */
  lemma SecondTimeQuiet(files: Files, plan: Plan, secrets: Secrets.Values, layout: Layout, order: seq<string>)
    requires Published(plan, secrets) && (forall g :: g in order ==> g in plan.files)
    requires PathsDiffer(All(plan, secrets, layout, order))
    ensures Quiet(ResultOf(Rendered(files, plan, secrets, layout, order), plan, secrets, layout, order))
            <==> AllStay(files, plan, secrets, layout, order)
  {
    StayIff(files, plan, secrets, layout, order);
    EnvironmentStays(files, plan, secrets, layout, order);
    QuietIff(Rendered(files, plan, secrets, layout, order), plan, secrets, layout, order);
    if AllStay(files, plan, secrets, layout, order) {
      PrunesNone(files, plan, secrets, layout, order);
    }
  }

  lemma StayIff(files: Files, plan: Plan, secrets: Secrets.Values, layout: Layout, order: seq<string>)
    requires Published(plan, secrets) && (forall g :: g in order ==> g in plan.files)
    requires PathsDiffer(All(plan, secrets, layout, order))
    ensures var all, once := All(plan, secrets, layout, order), Rendered(files, plan, secrets, layout, order);
            AllStay(files, plan, secrets, layout, order) <==> forall i :: 0 <= i < |all| ==> !Differs(once, all[i])
  {
    var all, once := All(plan, secrets, layout, order), Rendered(files, plan, secrets, layout, order);
    forall i | 0 <= i < |all|
      ensures Differs(once, all[i]) <==> Lost(files, all, i) || PrunedAway(layout, order, all[i])
    {
      StillDiffers(files, plan, secrets, layout, order, i);
    }
  }

  lemma EnvironmentStays(files: Files, plan: Plan, secrets: Secrets.Values, layout: Layout, order: seq<string>)
    requires Published(plan, secrets) && (forall g :: g in order ==> g in plan.files)
    requires PathsDiffer(All(plan, secrets, layout, order))
    ensures !Differs(Rendered(files, plan, secrets, layout, order), EnvironmentItem(plan, secrets, layout))
  {
    EnvironmentIsNoBlueprint(plan, secrets, layout);
    assert All(plan, secrets, layout, order)[0] == EnvironmentItem(plan, secrets, layout);
    StillDiffers(files, plan, secrets, layout, order, 0);
  }

  lemma PrunesNone(files: Files, plan: Plan, secrets: Secrets.Values, layout: Layout, order: seq<string>)
    requires Published(plan, secrets) && (forall g :: g in order ==> g in plan.files)
    requires PathsDiffer(All(plan, secrets, layout, order)) && AllStay(files, plan, secrets, layout, order)
    ensures !PrunesAny(Rendered(files, plan, secrets, layout, order), plan, secrets, layout, order)
  {
    forall p
      ensures !Stale(Rendered(files, plan, secrets, layout, order), layout.blueprints, Known(layout, order), p)
    {
      NoneStale(files, plan, secrets, layout, order, p);
    }
  }

  /** A second render puts right every mode a temporary file had spoiled. */
  lemma ModesSettle(files: Files, plan: Plan, secrets: Secrets.Values, layout: Layout, order: seq<string>, i: nat)
    requires Published(plan, secrets) && (forall g :: g in order ==> g in plan.files)
    requires PathsDiffer(All(plan, secrets, layout, order)) && AllStay(files, plan, secrets, layout, order)
    requires i < |All(plan, secrets, layout, order)|
    ensures var w := All(plan, secrets, layout, order)[i];
            At(Rendered(Rendered(files, plan, secrets, layout, order), plan, secrets, layout, order), w.path)
            == Some(File(w.contents, w.mode))
  {
    var all, once := All(plan, secrets, layout, order), Rendered(files, plan, secrets, layout, order);
    forall j | 0 <= j < |all|
      ensures !Differs(once, all[j])
    {
      StillDiffers(files, plan, secrets, layout, order, j);
    }
    forall j | 0 <= j < |all|
      ensures !Anew(once, all, j)
    {
      NoneAnew(once, all, j);
    }
    EachInPlace(once, plan, secrets, layout, order, i);
    RewritesIff(once, all, i);
  }

  /* ── names that clash ── */

  lemma PlacesInOrder(plan: Plan, secrets: Secrets.Values, layout: Layout, order: seq<string>, a: nat, b: nat)
    requires Published(plan, secrets) && (forall f :: f in order ==> f in plan.files)
    requires a < b <= |order| && !Skipped(layout, order[a])
    ensures |Items(plan, secrets, layout, order[..a])| < |Items(plan, secrets, layout, order[..b])|
  {
    ItemsPrefix(plan, secrets, layout, order[..b], a);
    assert order[..b][..a] == order[..a];
  }

  /** A file named like another's temporary file is reported although its contents are as
      they are to be: the other was put together in its place. */
  lemma ReportedWithoutCause(files: Files, plan: Plan, secrets: Secrets.Values, layout: Layout, order: seq<string>, a: nat, b: nat)
    requires Published(plan, secrets) && (forall g :: g in order ==> g in plan.files)
    requires PathsDiffer(All(plan, secrets, layout, order)) && a < b < |order| && order[b] == order[a] + ".new"
    requires KindOf(order[a]).Mounted? && KindOf(order[b]).Mounted?
    requires Differs(files, FileItem(plan, secrets, layout, order[a]))
    ensures order[b] in ResultOf(files, plan, secrets, layout, order).changedFiles
  {
    var ws, all := Items(plan, secrets, layout, order), All(plan, secrets, layout, order);
    ItemsPrefix(plan, secrets, layout, order, a);
    ItemsPrefix(plan, secrets, layout, order, b);
    PlacesInOrder(plan, secrets, layout, order, a, b);
    var j, i := |Items(plan, secrets, layout, order[..a])|, |Items(plan, secrets, layout, order[..b])|;
    assert all[j] == ws[j] && all[i] == ws[i];
    assert Temp(all[j].path) == all[i].path;
    assert Anew(files, all, j);
    assert Anew(files, all, i);
    ChangedFilesIff(files, plan, secrets, layout, order, order[b]);
  }

  /** Two such files, where the first is new on disk and the second is as it is to be. */
  lemma ReportedWithoutCauseAt()
    ensures var layout, order := Layout("p", "b", ""), ["a", "a.new"];
            var plan, files := Plan([], map["a" := "", "a.new" := ""], ""), map[Join("p", "a.new") := File("", 420)];
            && PathsDiffer(All(plan, map[], layout, order))
            && !Differs(files, FileItem(plan, map[], layout, "a.new"))
            && "a.new" in ResultOf(files, plan, map[], layout, order).changedFiles
  {
    var layout, order := Layout("p", "b", ""), ["a", "a.new"];
    var plan, files := Plan([], map["a" := "", "a.new" := ""], ""), map[Join("p", "a.new") := File("", 420)];
    TwoFiles(plan, layout, order);
    FewPaths(layout.project);
    assert order[1] == order[0] + ".new";
    assert BLUEPRINTS[0] == 'a' && BLUEPRINTS[1] != '.' && |BLUEPRINTS| > 1;
    ReportedWithoutCause(files, plan, map[], layout, order, 0, 1);
  }

  lemma TwoFiles(plan: Plan, layout: Layout, order: seq<string>)
    requires plan.secrets == [] && order == ["a", "a.new"] && "a" in plan.files && "a.new" in plan.files
    ensures var all := All(plan, map[], layout, order);
            && |all| == 4 && all[0].path == Join(layout.project, ".env") && all[1].path == Join(layout.project, "a")
            && all[2].path == Join(layout.project, "a.new") && all[3].path == Join(layout.project, "compose.yaml")
  {
    assert !(BLUEPRINTS <= "a") && !(MESH <= "a");
    assert BLUEPRINTS[1] != "a.new"[1] && MESH[0] != "a.new"[0];
    PlacedOne(plan, map[], layout, order, 0);
    PlacedOne(plan, map[], layout, order, 1);
    assert order[..0] == [] && order[..2] == order;
    assert Items(plan, map[], layout, []) == [EnvironmentItem(plan, map[], layout)];
  }

  lemma FewPaths(dir: Path)
    ensures Join(dir, ".env") != Join(dir, "a") && Join(dir, ".env") != Join(dir, "a.new")
    ensures Join(dir, ".env") != Join(dir, "compose.yaml") && Join(dir, "a") != Join(dir, "a.new")
    ensures Join(dir, "a") != Join(dir, "compose.yaml") && Join(dir, "a.new") != Join(dir, "compose.yaml")
  {
    var n := |dir| + 1;
    assert Join(dir, ".env")[n] == '.' && Join(dir, "a")[n] == 'a' && Join(dir, "a.new")[n] == 'a' && Join(dir, "compose.yaml")[n] == 'c';
  }

  /* ── failures ── */

  /** A file that is written anew is put together in the place of this one. */
  predicate BuiltOver(files: Files, ws: seq<Item>, i: nat)
    requires i < |ws|
  {
    exists j :: 0 <= j < |ws| && Temp(ws[j].path) == ws[i].path && Anew(files, ws, j)
  }

  /** The file is as it was or as it was to be, or pruned. */
  predicate Whole(before: Files, now: Files, layout: Layout, order: seq<string>, ws: seq<Item>, i: nat)
    requires i < |ws|
  {
    || At(now, ws[i].path) == At(before, ws[i].path)
    || At(now, ws[i].path) == Some(File(ws[i].contents, ModeAfter(WrittenAll(before, ws[..i]), ws[i])))
    || (PrunedAway(layout, order, ws[i]) && At(now, ws[i].path) == None)
  }

  /** After n writes, a file nothing is put together over is as it was or as it was to be. */
  lemma WholeAfter(before: Files, layout: Layout, order: seq<string>, ws: seq<Item>, n: nat, i: nat)
    requires PathsDiffer(ws) && n <= |ws| && i < |ws| && !BuiltOver(before, ws, i)
    ensures Whole(before, WrittenAll(before, ws[..n]), layout, order, ws, i)
  {
    if i < n {
      InPlaceIff(before, ws, i, n);
    } else {
      forall j | 0 <= j < n
        ensures Rewrites(before, ws, j) <==> Anew(before, ws, j)
      {
        RewritesIff(before, ws, j);
      }
      PathHistory(before, ws, ws[i].path, 0, n);
      assert ws[..0] == [];
    }
  }

  lemma StoppedElsewhere(was: Files, now: Files, w: Item, p: Path)
    requires StoppedWrite(was, now, w) && (Temp(w.path) == p ==> !Differs(was, w))
    ensures At(now, p) == At(was, p)
  {
  }

  /** A render that stops anywhere leaves every file whole over which no file that is written
      anew is put together. */
  lemma FailureLeavesWhole(before: Files, now: Files, plan: Plan, secrets: Secrets.Values, layout: Layout, order: seq<string>, i: nat)
    requires Published(plan, secrets) && (forall g :: g in order ==> g in plan.files)
    requires PathsDiffer(All(plan, secrets, layout, order)) && i < |All(plan, secrets, layout, order)|
    requires !BuiltOver(before, All(plan, secrets, layout, order), i)
    requires Interrupted(before, now, plan, secrets, layout, order)
    ensures Whole(before, now, layout, order, All(plan, secrets, layout, order), i)
  {
    var ws, all := Items(plan, secrets, layout, order), All(plan, secrets, layout, order);
    var stale := StaleSet(WrittenAll(before, ws), layout.blueprints, SetOf(BlueprintNames(layout, order)));
    var n :| 0 <= n <= |ws| && StoppedAfter(before, now, ws, n, stale, ComposeItem(plan, layout));
    ItemsOfAll(plan, secrets, layout, order);
    RewritesIff(before, all, n);
    WholeAfter(before, layout, order, all, n, i);
    var was := WrittenAll(before, all[..n]);
    if n < |ws| {
      StoppedElsewhere(was, now, ws[n], all[i].path);
    } else {
      OwnStaleAfter(before, plan, secrets, layout, order, i);
      ComposeUnpruned(was, plan, layout, order);
      if !PartlyPruned(was, now, stale) {
        StoppedElsewhere(was - stale, now, all[n], all[i].path);
      }
    }
  }

  /** The state in which file j's write stopped, with this left where it was put together. */
  function TornAt(before: Files, layout: Layout, order: seq<string>, ws: seq<Item>, j: nat, part: string): Files
    requires j < |ws|
  {
    var done := WrittenAll(before, ws[..j]);
    var was := if j < |ws| - 1 then done else Pruned(done, layout.blueprints, Known(layout, order));
    var temp := Temp(ws[j].path);
    was[temp := File(part, if temp in was then was[temp].mode else ws[j].mode)]
  }

  /** A write that is due can stop with anything left where the file is put together. */
  lemma StopsTorn(before: Files, plan: Plan, secrets: Secrets.Values, layout: Layout, order: seq<string>, j: nat, part: string)
    requires Published(plan, secrets) && (forall g :: g in order ==> g in plan.files)
    requires PathsDiffer(All(plan, secrets, layout, order)) && j < |All(plan, secrets, layout, order)|
    requires Anew(before, All(plan, secrets, layout, order), j)
    ensures Interrupted(before, TornAt(before, layout, order, All(plan, secrets, layout, order), j, part),
                        plan, secrets, layout, order)
  {
    var ws, all := Items(plan, secrets, layout, order), All(plan, secrets, layout, order);
    var stale := StaleSet(WrittenAll(before, ws), layout.blueprints, SetOf(BlueprintNames(layout, order)));
    var now := TornAt(before, layout, order, all, j, part);
    ItemsOfAll(plan, secrets, layout, order);
    RewritesIff(before, all, j);
    ComposeUnpruned(WrittenAll(before, ws), plan, layout, order);
    assert StoppedAfter(before, now, ws, j, stale, ComposeItem(plan, layout));
  }

  /** Every stop leaves a file whole exactly when no file that is written anew is put together
      over it, which the names and the disk before the render tell. */
  lemma WholeIff(before: Files, plan: Plan, secrets: Secrets.Values, layout: Layout, order: seq<string>, i: nat)
    requires Published(plan, secrets) && (forall g :: g in order ==> g in plan.files)
    requires PathsDiffer(All(plan, secrets, layout, order)) && i < |All(plan, secrets, layout, order)|
    ensures var all := All(plan, secrets, layout, order);
            !BuiltOver(before, all, i)
            <==> forall now :: Interrupted(before, now, plan, secrets, layout, order) ==> Whole(before, now, layout, order, all, i)
  {
    var all := All(plan, secrets, layout, order);
    if BuiltOver(before, all, i) {
      var j :| 0 <= j < |all| && Temp(all[j].path) == all[i].path && Anew(before, all, j);
      var was := if all[i].path in before then before[all[i].path].contents else "";
      var part := was + all[i].contents + "x";
      StopsTorn(before, plan, secrets, layout, order, j, part);
      assert !Whole(before, TornAt(before, layout, order, all, j, part), layout, order, all, i) by {
        assert |part| > |was| && |part| > |all[i].contents|;
      }
    } else {
      forall now | Interrupted(before, now, plan, secrets, layout, order)
        ensures Whole(before, now, layout, order, all, i)
      {
        FailureLeavesWhole(before, now, plan, secrets, layout, order, i);
      }
    }
  }
}
