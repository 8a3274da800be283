/** A deployment plan as files on disk (cli/internal/reconcile/render.go), and the services
    restarted for the files that changed (cli/internal/reconcile/apply.go). The text of the
    Compose file is a part of the plan here. */
module Render {
  import opened Common
  import opened Disk
  import opened Sorting
  import Secrets

  /* ── many writes ── */

  /** No two files share a path. */
  predicate PathsDiffer(ws: seq<Item>) {
    forall i, j :: 0 <= i < j < |ws| ==> ws[i].path != ws[j].path
  }

  predicate IsPathOf(ws: seq<Item>, p: Path) {
    exists i :: 0 <= i < |ws| && ws[i].path == p
  }

  predicate IsTempOf(ws: seq<Item>, p: Path) {
    exists i :: 0 <= i < |ws| && Temp(ws[i].path) == p
  }

  /** When its turn comes, file i is written anew. */
  predicate Rewrites(files: Files, ws: seq<Item>, i: nat)
    requires i < |ws|
  {
    Differs(WrittenAll(files, ws[..i]), ws[i])
  }

  /** One of these files is written anew, and was put together at p: what stood there is gone. */
  predicate TakenBetween(files: Files, ws: seq<Item>, p: Path, from: nat, to: nat)
    requires from <= to <= |ws|
  {
    exists j :: from <= j < to && Temp(ws[j].path) == p && Rewrites(files, ws, j)
  }

  lemma WrittenAt(files: Files, w: Item, p: Path)
    requires p != w.path
    ensures At(Written(files, w), p) == if p == Temp(w.path) && Differs(files, w) then None else At(files, p)
  {
  }

  lemma TakenNext(files: Files, ws: seq<Item>, p: Path, from: nat, n: nat)
    requires from <= n < |ws|
    ensures TakenBetween(files, ws, p, from, n + 1)
            <==> TakenBetween(files, ws, p, from, n) || (Temp(ws[n].path) == p && Rewrites(files, ws, n))
  {
    if TakenBetween(files, ws, p, from, n + 1) {
      var j :| from <= j < n + 1 && Temp(ws[j].path) == p && Rewrites(files, ws, j);
    }
  }

  lemma WrittenNext(files: Files, ws: seq<Item>, n: nat)
    requires n < |ws|
    ensures WrittenAll(files, ws[..n + 1]) == Written(WrittenAll(files, ws[..n]), ws[n])
  {
    assert ws[..n + 1][..n] == ws[..n];
  }

  lemma NextAt(files: Files, ws: seq<Item>, p: Path, n: nat)
    requires n < |ws| && ws[n].path != p
    ensures At(WrittenAll(files, ws[..n + 1]), p)
            == if Temp(ws[n].path) == p && Rewrites(files, ws, n) then None else At(WrittenAll(files, ws[..n]), p)
  {
    WrittenNext(files, ws, n);
    WrittenAt(WrittenAll(files, ws[..n]), ws[n], p);
  }

  /** Writes of other files leave p as it is, but for a file put together there. */
  lemma {:induction false} PathHistory(files: Files, ws: seq<Item>, p: Path, from: nat, n: nat)
    requires from <= n <= |ws| && forall j :: from <= j < n ==> ws[j].path != p
    ensures At(WrittenAll(files, ws[..n]), p)
            == if TakenBetween(files, ws, p, from, n) then None else At(WrittenAll(files, ws[..from]), p)
    decreases n
  {
    if from < n {
      var m := n - 1;
      PathHistory(files, ws, p, from, m);
      TakenNext(files, ws, p, from, m);
      NextAt(files, ws, p, m);
      assert ws[..m + 1] == ws[..n];
    }
  }

  /** What is no file of the list and no temporary file stays as it was. */
  lemma OthersKept(files: Files, ws: seq<Item>, p: Path)
    requires !IsPathOf(ws, p) && !IsTempOf(ws, p)
    ensures At(WrittenAll(files, ws), p) == At(files, p)
  {
    PathHistory(files, ws, p, 0, |ws|);
    assert ws[..|ws|] == ws && ws[..0] == [];
  }

  lemma PresentAsAt(a: Files, b: Files, p: Path)
    requires At(a, p) == At(b, p)
    ensures (p in a <==> p in b) && (p in a ==> a[p] == b[p])
  {
    assert p in a <==> At(a, p).Some?;
    assert p in b <==> At(b, p).Some?;
  }

  /** As a reader of the disk before the first write can tell: the file's contents differ, or
      an earlier file that is written anew is put together in its place. */
  predicate Anew(files: Files, ws: seq<Item>, i: nat)
    requires i < |ws|
    decreases i
  {
    Differs(files, ws[i]) || exists j :: 0 <= j < i && Temp(ws[j].path) == ws[i].path && Anew(files, ws, j)
  }

  lemma {:induction false} RewritesIff(files: Files, ws: seq<Item>, i: nat)
    requires PathsDiffer(ws) && i < |ws|
    ensures Rewrites(files, ws, i) <==> Anew(files, ws, i)
    decreases i
  {
    forall j | 0 <= j < i
      ensures Rewrites(files, ws, j) <==> Anew(files, ws, j)
    {
      RewritesIff(files, ws, j);
    }
    PathHistory(files, ws, ws[i].path, 0, i);
    assert ws[..0] == [];
    var now := WrittenAll(files, ws[..i]);
    if TakenBetween(files, ws, ws[i].path, 0, i) {
      assert At(now, ws[i].path) == None;
    } else {
      PresentAsAt(now, files, ws[i].path);
    }
  }

  lemma {:induction false} NoneAnew(files: Files, ws: seq<Item>, i: nat)
    requires i < |ws| && forall j :: 0 <= j <= i ==> !Differs(files, ws[j])
    ensures !Anew(files, ws, i)
    decreases i
  {
    forall j | 0 <= j < i
      ensures !Anew(files, ws, j)
    {
      NoneAnew(files, ws, j);
    }
  }

  /** Among the first n, a file ends in place, with its contents, exactly when no later one
      written anew was put together in its place; otherwise it is gone. */
  lemma InPlaceIff(files: Files, ws: seq<Item>, i: nat, n: nat)
    requires PathsDiffer(ws) && i < n <= |ws|
    ensures At(WrittenAll(files, ws[..n]), ws[i].path)
            == if exists j :: i < j < n && Temp(ws[j].path) == ws[i].path && Anew(files, ws, j) then None
               else Some(File(ws[i].contents, ModeAfter(WrittenAll(files, ws[..i]), ws[i])))
  {
    WrittenNext(files, ws, i);
    PathHistory(files, ws, ws[i].path, i + 1, n);
    forall j | i < j < n
      ensures Rewrites(files, ws, j) <==> Anew(files, ws, j)
    {
      RewritesIff(files, ws, j);
    }
  }

  /* ── what is reported ── */

  /** The names of the files of a kind that were rewritten. */
  function Rewritten(files: Files, ws: seq<Item>, kind: Kind): seq<string> {
    if ws == [] then []
    else
      var n := |ws| - 1;
      Rewritten(files, ws[..n], kind) +
      (if ws[n].kind == kind && Differs(WrittenAll(files, ws[..n]), ws[n]) then [ws[n].name] else [])
  }

  predicate RewritesOf(files: Files, ws: seq<Item>, kind: Kind, name: string, n: nat)
    requires n <= |ws|
  {
    exists i :: 0 <= i < n && ws[i].kind == kind && ws[i].name == name && Rewrites(files, ws, i)
  }

  lemma {:induction false} ReportedIff(files: Files, ws: seq<Item>, kind: Kind, name: string, n: nat)
    requires n <= |ws|
    ensures name in Rewritten(files, ws[..n], kind) <==> RewritesOf(files, ws, kind, name, n)
    decreases n
  {
    if n > 0 {
      ReportedIff(files, ws, kind, name, n - 1);
      assert ws[..n][..n - 1] == ws[..n - 1];
      if RewritesOf(files, ws, kind, name, n) {
        var i :| 0 <= i < n && ws[i].kind == kind && ws[i].name == name && Rewrites(files, ws, i);
      }
    }
  }

  predicate AnewOf(files: Files, ws: seq<Item>, kind: Kind, name: string, n: nat)
    requires n <= |ws|
  {
    exists i :: 0 <= i < n && ws[i].kind == kind && ws[i].name == name && Anew(files, ws, i)
  }

  /** Reported are exactly the files whose contents differed before the first write, and
      those in whose place an earlier one written anew was put together. */
  lemma RewrittenIff(files: Files, ws: seq<Item>, kind: Kind, name: string, n: nat)
    requires PathsDiffer(ws) && n <= |ws|
    ensures name in Rewritten(files, ws[..n], kind) <==> AnewOf(files, ws, kind, name, n)
  {
    ReportedIff(files, ws, kind, name, n);
    forall i | 0 <= i < n
      ensures Rewrites(files, ws, i) <==> Anew(files, ws, i)
    {
      RewritesIff(files, ws, i);
    }
  }

  /* ── a plan as a list of writes ── */

  /** What the reconciler reads of a plan: the secrets it names, its generated files and the
      text of its Compose file. */
  datatype Plan = Plan(secrets: seq<string>, files: map<string, string>, compose: string)

  datatype Layout = Layout(project: Path, blueprints: Path, mesh: Path)

  const BLUEPRINTS := "authentik/"
  const MESH := "mesh/"
  const APPS := "apps/"

  function Join(dir: Path, file: string): Path {
    dir + "/" + file
  }

  function Base(p: Path): string {
    if p == [] || p[|p| - 1] == '/' then [] else Base(p[..|p| - 1]) + [p[|p| - 1]]
  }

  function KindOf(file: string): Kind {
    if BLUEPRINTS <= file then Blueprint else if MESH <= file then Mesh else Mounted
  }

  function Destination(layout: Layout, file: string): Path {
    match KindOf(file)
    case Blueprint => Join(layout.blueprints, file[|BLUEPRINTS|..])
    case Mesh => Join(layout.mesh, file[|MESH|..])
    case _ => Join(layout.project, file)
  }

  /** 0600 for what carries client secrets, 0644 for the rest. */
  function ModeOf(file: string): nat {
    if BLUEPRINTS <= file || APPS <= file then 384 else 420
  }

  /** The mesh has no place on this machine. */
  predicate Skipped(layout: Layout, file: string) {
    KindOf(file).Mesh? && layout.mesh == ""
  }

  function FileItem(plan: Plan, secrets: Secrets.Values, layout: Layout, file: string): Item
    requires file in plan.files
  {
    Item(file, KindOf(file), Destination(layout, file), Secrets.Expand(plan.files[file], 0, secrets), ModeOf(file))
  }

  function FileItems(plan: Plan, secrets: Secrets.Values, layout: Layout, names: seq<string>): seq<Item>
    requires forall f :: f in names ==> f in plan.files
  {
    if names == [] then []
    else
      var n := |names| - 1;
      FileItems(plan, secrets, layout, names[..n]) +
      (if Skipped(layout, names[n]) then [] else [FileItem(plan, secrets, layout, names[n])])
  }

  function Lines(names: seq<string>, secrets: Secrets.Values): (lines: seq<string>)
    requires forall n :: n in names ==> n in secrets
    ensures |lines| == |names|
  {
    seq(|names|, i requires 0 <= i < |names| => names[i] + "=" + secrets[names[i]])
  }

  function Joined(lines: seq<string>): string {
    if lines == [] then [] else if |lines| == 1 then lines[0] else lines[0] + "\n" + Joined(lines[1..])
  }

  predicate Published(plan: Plan, secrets: Secrets.Values) {
    forall n :: n in plan.secrets ==> n in secrets
  }

  function EnvironmentItem(plan: Plan, secrets: Secrets.Values, layout: Layout): Item
    requires Published(plan, secrets)
  {
    Item(".env", Environment, Join(layout.project, ".env"), Joined(Sort(Lines(plan.secrets, secrets))) + "\n", 384)
  }

  function ComposeItem(plan: Plan, layout: Layout): Item {
    Item("compose.yaml", ComposeFile, Join(layout.project, "compose.yaml"), plan.compose, 384)
  }

  /** The environment and the generated files, in the order they are written. */
  function Items(plan: Plan, secrets: Secrets.Values, layout: Layout, order: seq<string>): seq<Item>
    requires Published(plan, secrets) && forall f :: f in order ==> f in plan.files
  {
    [EnvironmentItem(plan, secrets, layout)] + FileItems(plan, secrets, layout, order)
  }

  /** The base names of the plan's blueprints, in order. */
  function BlueprintNames(layout: Layout, names: seq<string>): seq<string> {
    if names == [] then []
    else
      var n := |names| - 1;
      BlueprintNames(layout, names[..n]) +
      (if KindOf(names[n]).Blueprint? then [Base(Destination(layout, names[n]))] else [])
  }

  function SetOf(names: seq<string>): set<string> {
    set n | n in names
  }

  /** The disk after a whole render. */
  function Rendered(files: Files, plan: Plan, secrets: Secrets.Values, layout: Layout, order: seq<string>): Files
    requires Published(plan, secrets) && forall f :: f in order ==> f in plan.files
  {
    Written(Pruned(WrittenAll(files, Items(plan, secrets, layout, order)), layout.blueprints,
                   SetOf(BlueprintNames(layout, order))),
            ComposeItem(plan, layout))
  }

  /* ── Render ── */

  datatype Result = Result(
    blueprintsChanged: bool,
    composeChanged: bool,
    meshChanged: bool,
    blueprints: seq<string>,
    changedFiles: seq<string>)

  datatype Outcome = Done(result: Result) | MissingSecret | DiskFailed

  function ResultOf(files: Files, plan: Plan, secrets: Secrets.Values, layout: Layout, order: seq<string>): Result
    requires Published(plan, secrets) && forall f :: f in order ==> f in plan.files
  {
    var ws := Items(plan, secrets, layout, order);
    var after, known := WrittenAll(files, ws), SetOf(BlueprintNames(layout, order));
    Result(Rewritten(files, ws, Blueprint) != [] || StaleSet(after, layout.blueprints, known) != {},
           Differs(Pruned(after, layout.blueprints, known), ComposeItem(plan, layout)),
           Rewritten(files, ws, Mesh) != [],
           BlueprintNames(layout, order),
           Rewritten(files, ws, Mounted))
  }

  /** Every secret the plan names or its files refer to has a value. */
  predicate Complete(plan: Plan, secrets: Secrets.Values) {
    && Published(plan, secrets)
    && forall f :: f in plan.files ==> Secrets.Missing(plan.files[f], 0, secrets) == []
  }

  method EnvironmentText(plan: Plan, secrets: Secrets.Values) returns (found: bool, text: string)
    ensures found == Published(plan, secrets)
    ensures found ==> text == Joined(Sort(Lines(plan.secrets, secrets))) + "\n"
  {
    var lines: seq<string> := [];
    for i := 0 to |plan.secrets|
      invariant |lines| == i
      invariant forall k :: 0 <= k < i ==> plan.secrets[k] in secrets && lines[k] == plan.secrets[k] + "=" + secrets[plan.secrets[k]]
    {
      if plan.secrets[i] !in secrets {
        return false, "";
      }
      lines := lines + [plan.secrets[i] + "=" + secrets[plan.secrets[i]]];
    }
    assert lines == Lines(plan.secrets, secrets);
    lines := SortStrings(lines);
    return true, Joined(lines) + "\n";
  }

  datatype Placing = Placed(changed: bool) | NoValue | Failed

  /** One generated file: its secrets filled in, and put where its kind belongs. */
  method PlaceFile(disk: Disk, plan: Plan, secrets: Secrets.Values, layout: Layout, file: string) returns (r: Placing)
    requires file in plan.files
    modifies disk
    ensures r.NoValue? <==> Secrets.Missing(plan.files[file], 0, secrets) != []
    ensures r.NoValue? || Skipped(layout, file) ==> disk.files == old(disk.files) && r != Placed(true) && !r.Failed?
    ensures r.Placed? && !Skipped(layout, file) ==>
              var w := FileItem(plan, secrets, layout, file);
              disk.files == Written(old(disk.files), w) && r.changed == Differs(old(disk.files), w)
    ensures r.Failed? ==> !Skipped(layout, file)
                          && StoppedWrite(old(disk.files), disk.files, FileItem(plan, secrets, layout, file))
  {
    var expanded := Secrets.ExpandSecrets(plan.files[file], secrets);
    if expanded.MissingValues? {
      return NoValue;
    }
    if Skipped(layout, file) {
      return Placed(false);
    }
    var mode := 420;
    if BLUEPRINTS <= file || APPS <= file {
      mode := 384;
    }
    var changed, ok := WriteFileIfChanged(disk, Item(file, KindOf(file), Destination(layout, file), expanded.text, mode));
    r := if ok then Placed(changed) else Failed;
  }

  /** A render that stopped after n writes: in the next one, or, when all were done, in the
      pruning or in the write of the Compose file. */
  ghost predicate StoppedAfter(before: Files, now: Files, ws: seq<Item>, n: nat, stale: set<Path>, compose: Item)
    requires n <= |ws|
  {
    var was := WrittenAll(before, ws[..n]);
    if n < |ws| then StoppedWrite(was, now, ws[n])
    else PartlyPruned(was, now, stale) || StoppedWrite(was - stale, now, compose)
  }

  ghost predicate Interrupted(before: Files, now: Files, plan: Plan, secrets: Secrets.Values, layout: Layout, order: seq<string>)
    requires Published(plan, secrets) && forall f :: f in order ==> f in plan.files
  {
    var ws := Items(plan, secrets, layout, order);
    var stale := StaleSet(WrittenAll(before, ws), layout.blueprints, SetOf(BlueprintNames(layout, order)));
    exists n :: 0 <= n <= |ws| && StoppedAfter(before, now, ws, n, stale, ComposeItem(plan, layout))
  }

  /** What the result says of the files placed so far. */
  datatype Progress = Progress(blueprints: seq<string>, blueprintsChanged: bool, meshChanged: bool, changedFiles: seq<string>)

  function ProgressOf(files: Files, ws: seq<Item>, layout: Layout, names: seq<string>): Progress {
    Progress(BlueprintNames(layout, names), Rewritten(files, ws, Blueprint) != [], Rewritten(files, ws, Mesh) != [],
             Rewritten(files, ws, Mounted))
  }

  lemma PlacedSkipped(plan: Plan, secrets: Secrets.Values, layout: Layout, order: seq<string>, i: nat)
    requires Published(plan, secrets) && (forall f :: f in order ==> f in plan.files) && i < |order|
    requires Skipped(layout, order[i])
    ensures Items(plan, secrets, layout, order[..i + 1]) == Items(plan, secrets, layout, order[..i])
    ensures BlueprintNames(layout, order[..i + 1]) == BlueprintNames(layout, order[..i])
  {
    assert order[..i + 1][..i] == order[..i] && order[..i + 1][i] == order[i];
  }

  lemma PlacedOne(plan: Plan, secrets: Secrets.Values, layout: Layout, order: seq<string>, i: nat)
    requires Published(plan, secrets) && (forall f :: f in order ==> f in plan.files) && i < |order|
    requires !Skipped(layout, order[i])
    ensures Items(plan, secrets, layout, order[..i + 1])
            == Items(plan, secrets, layout, order[..i]) + [FileItem(plan, secrets, layout, order[i])]
    ensures BlueprintNames(layout, order[..i + 1]) == BlueprintNames(layout, order[..i]) +
            (if KindOf(order[i]).Blueprint? then [Base(Destination(layout, order[i]))] else [])
  {
    assert order[..i + 1][..i] == order[..i] && order[..i + 1][i] == order[i];
  }

  lemma RewrittenOne(files: Files, ws: seq<Item>, w: Item, kind: Kind)
    ensures Rewritten(files, ws + [w], kind)
            == Rewritten(files, ws, kind) + (if w.kind == kind && Differs(WrittenAll(files, ws), w) then [w.name] else [])
    ensures WrittenAll(files, ws + [w]) == Written(WrittenAll(files, ws), w)
  {
    assert (ws + [w])[..|ws|] == ws;
  }

  /** Notes one file in the result, as its kind asks. */
  method Note(progress: Progress, layout: Layout, file: string, changed: bool) returns (noted: Progress)
    ensures var blueprint := KindOf(file).Blueprint?;
            && noted.blueprints == progress.blueprints + (if blueprint then [Base(Destination(layout, file))] else [])
            && noted.blueprintsChanged == (progress.blueprintsChanged || (blueprint && changed))
            && noted.meshChanged == (progress.meshChanged || (KindOf(file).Mesh? && changed))
            && noted.changedFiles == progress.changedFiles + (if KindOf(file).Mounted? && changed then [file] else [])
  {
    noted := progress;
    if KindOf(file).Blueprint? {
      noted := noted.(blueprints := noted.blueprints + [Base(Destination(layout, file))]);
    }
    if changed {
      match KindOf(file)
      case Blueprint => noted := noted.(blueprintsChanged := true);
      case Mesh => noted := noted.(meshChanged := true);
      case _ => noted := noted.(changedFiles := noted.changedFiles + [file]);
    }
  }

  lemma NotedOne(files: Files, ws: seq<Item>, layout: Layout, names: seq<string>, file: string, w: Item, noted: Progress)
    requires w.name == file && w.kind == KindOf(file)
    requires var progress := ProgressOf(files, ws, layout, names);
             var changed := Differs(WrittenAll(files, ws), w);
             && noted.blueprintsChanged == (progress.blueprintsChanged || (KindOf(file).Blueprint? && changed))
             && noted.meshChanged == (progress.meshChanged || (KindOf(file).Mesh? && changed))
             && noted.changedFiles == progress.changedFiles + (if KindOf(file).Mounted? && changed then [file] else [])
    ensures noted.blueprintsChanged == (Rewritten(files, ws + [w], Blueprint) != [])
    ensures noted.meshChanged == (Rewritten(files, ws + [w], Mesh) != [])
    ensures noted.changedFiles == Rewritten(files, ws + [w], Mounted)
  {
    RewrittenOne(files, ws, w, Blueprint);
    RewrittenOne(files, ws, w, Mesh);
    RewrittenOne(files, ws, w, Mounted);
  }

  lemma StopsHere(before: Files, now: Files, plan: Plan, secrets: Secrets.Values, layout: Layout, order: seq<string>, i: nat)
    requires Published(plan, secrets) && (forall f :: f in order ==> f in plan.files) && i < |order|
    requires var was := WrittenAll(before, Items(plan, secrets, layout, order[..i]));
             now == was || (!Skipped(layout, order[i]) && StoppedWrite(was, now, FileItem(plan, secrets, layout, order[i])))
    ensures Interrupted(before, now, plan, secrets, layout, order)
  {
    var ws := Items(plan, secrets, layout, order);
    var done := Items(plan, secrets, layout, order[..i]);
    ItemsPrefix(plan, secrets, layout, order, i);
    var n := |done|;
    var stale := StaleSet(WrittenAll(before, ws), layout.blueprints, SetOf(BlueprintNames(layout, order)));
    var compose := ComposeItem(plan, layout);
    assert StoppedAfter(before, now, ws, n, stale, compose);
  }

  /** The files already placed come first in the list of writes, and the next one after. */
  lemma {:induction false} ItemsPrefix(plan: Plan, secrets: Secrets.Values, layout: Layout, order: seq<string>, i: nat)
    requires Published(plan, secrets) && (forall f :: f in order ==> f in plan.files) && i <= |order|
    ensures var ws, done := Items(plan, secrets, layout, order), Items(plan, secrets, layout, order[..i]);
            && |done| <= |ws| && ws[..|done|] == done
            && (i < |order| && !Skipped(layout, order[i]) ==>
                  |done| < |ws| && ws[|done|] == FileItem(plan, secrets, layout, order[i]))
    decreases |order|
  {
    if i == |order| {
      assert order[..i] == order;
    } else {
      var n := |order| - 1;
      assert order[..n + 1] == order;
      if i == n {
        if Skipped(layout, order[n]) {
          PlacedSkipped(plan, secrets, layout, order, n);
        } else {
          PlacedOne(plan, secrets, layout, order, n);
        }
      } else {
        ItemsPrefix(plan, secrets, layout, order[..n], i);
        assert order[..n][..i] == order[..i] && order[..n][i] == order[i];
        if Skipped(layout, order[n]) {
          PlacedSkipped(plan, secrets, layout, order, n);
        } else {
          PlacedOne(plan, secrets, layout, order, n);
        }
      }
    }
  }

  /** Every file of the plan, in order, after the environment. */
  method RenderFiles(disk: Disk, plan: Plan, secrets: Secrets.Values, layout: Layout, order: seq<string>, ghost before: Files)
    returns (placing: Placing, progress: Progress)
    requires Published(plan, secrets) && forall f :: f in order ==> f in plan.files
    requires disk.files == Written(before, EnvironmentItem(plan, secrets, layout))
    modifies disk
    ensures placing.Placed? ==> disk.files == WrittenAll(before, Items(plan, secrets, layout, order))
                                && progress == ProgressOf(before, Items(plan, secrets, layout, order), layout, order)
                                && forall f :: f in order ==> Secrets.Missing(plan.files[f], 0, secrets) == []
    ensures placing.NoValue? ==> !(forall f :: f in order ==> Secrets.Missing(plan.files[f], 0, secrets) == [])
    ensures !placing.Placed? ==> Interrupted(before, disk.files, plan, secrets, layout, order)
  {
    placing, progress := Placed(false), Progress([], false, false, []);
    EnvironmentPlaced(before, plan, secrets, layout);
    for i := 0 to |order|
      invariant placing.Placed?
      invariant disk.files == WrittenAll(before, Items(plan, secrets, layout, order[..i]))
      invariant progress == ProgressOf(before, Items(plan, secrets, layout, order[..i]), layout, order[..i])
      invariant forall k :: 0 <= k < i ==> Secrets.Missing(plan.files[order[k]], 0, secrets) == []
    {
      ghost var was := disk.files;
      placing := PlaceFile(disk, plan, secrets, layout, order[i]);
      if !placing.Placed? {
        StopsHere(before, disk.files, plan, secrets, layout, order, i);
        return;
      }
      progress := Note(progress, layout, order[i], placing.changed);
      OnePlaced(before, was, disk.files, plan, secrets, layout, order, i, placing, progress);
    }
    assert order[..|order|] == order;
  }

  lemma EnvironmentPlaced(before: Files, plan: Plan, secrets: Secrets.Values, layout: Layout)
    requires Published(plan, secrets)
    ensures WrittenAll(before, Items(plan, secrets, layout, [])) == Written(before, EnvironmentItem(plan, secrets, layout))
    ensures ProgressOf(before, Items(plan, secrets, layout, []), layout, []) == Progress([], false, false, [])
  {
    var w := EnvironmentItem(plan, secrets, layout);
    assert Items(plan, secrets, layout, []) == [] + [w];
    RewrittenOne(before, [], w, Blueprint);
    RewrittenOne(before, [], w, Mesh);
    RewrittenOne(before, [], w, Mounted);
  }

  lemma OnePlaced(before: Files, was: Files, now: Files, plan: Plan, secrets: Secrets.Values, layout: Layout,
                  order: seq<string>, i: nat, placing: Placing, noted: Progress)
    requires Published(plan, secrets) && (forall f :: f in order ==> f in plan.files) && i < |order| && placing.Placed?
    requires was == WrittenAll(before, Items(plan, secrets, layout, order[..i]))
    requires Skipped(layout, order[i]) ==> now == was && !placing.changed
    requires !Skipped(layout, order[i]) ==>
               var w := FileItem(plan, secrets, layout, order[i]); now == Written(was, w) && placing.changed == Differs(was, w)
    requires var progress := ProgressOf(before, Items(plan, secrets, layout, order[..i]), layout, order[..i]);
             var file := order[i];
             && noted.blueprints == progress.blueprints + (if KindOf(file).Blueprint? then [Base(Destination(layout, file))] else [])
             && noted.blueprintsChanged == (progress.blueprintsChanged || (KindOf(file).Blueprint? && placing.changed))
             && noted.meshChanged == (progress.meshChanged || (KindOf(file).Mesh? && placing.changed))
             && noted.changedFiles == progress.changedFiles + (if KindOf(file).Mounted? && placing.changed then [file] else [])
    ensures now == WrittenAll(before, Items(plan, secrets, layout, order[..i + 1]))
    ensures noted == ProgressOf(before, Items(plan, secrets, layout, order[..i + 1]), layout, order[..i + 1])
  {
    if Skipped(layout, order[i]) {
      PlacedSkipped(plan, secrets, layout, order, i);
    } else {
      PlacedOne(plan, secrets, layout, order, i);
      var w := FileItem(plan, secrets, layout, order[i]);
      RewrittenOne(before, Items(plan, secrets, layout, order[..i]), w, Mounted);
      NotedOne(before, Items(plan, secrets, layout, order[..i]), layout, order[..i], order[i], w, noted);
    }
  }

  /** Puts the whole plan on disk. */
  method Render(disk: Disk, plan: Plan, secrets: Secrets.Values, layout: Layout) returns (outcome: Outcome)
    modifies disk
    ensures outcome.Done? ==>
              && Complete(plan, secrets)
              && disk.files == Rendered(old(disk.files), plan, secrets, layout, InOrder(plan.files.Keys))
              && outcome.result == ResultOf(old(disk.files), plan, secrets, layout, InOrder(plan.files.Keys))
    ensures outcome.MissingSecret? ==> !Complete(plan, secrets)
    ensures !Published(plan, secrets) ==> outcome.MissingSecret? && disk.files == old(disk.files)
    ensures !outcome.Done? && Published(plan, secrets) ==>
              Interrupted(old(disk.files), disk.files, plan, secrets, layout, InOrder(plan.files.Keys))
  {
    ghost var before := disk.files;
    var found, text := EnvironmentText(plan, secrets);
    if !found {
      return MissingSecret;
    }
    var order := SortedKeys(plan.files.Keys);
    var changed, ok := WriteFileIfChanged(disk, Item(".env", Environment, Join(layout.project, ".env"), text, 384));
    if !ok {
      StopsAtEnvironment(before, disk.files, plan, secrets, layout, order);
      return DiskFailed;
    }
    var placing, progress := RenderFiles(disk, plan, secrets, layout, order, before);
    if !placing.Placed? {
      return if placing.NoValue? then MissingSecret else DiskFailed;
    }
    outcome := Finish(disk, plan, secrets, layout, order, before, progress);
  }

  lemma StopsAtEnvironment(before: Files, now: Files, plan: Plan, secrets: Secrets.Values, layout: Layout, order: seq<string>)
    requires Published(plan, secrets) && forall f :: f in order ==> f in plan.files
    requires StoppedWrite(before, now, EnvironmentItem(plan, secrets, layout))
    ensures Interrupted(before, now, plan, secrets, layout, order)
  {
    var ws := Items(plan, secrets, layout, order);
    var stale := StaleSet(WrittenAll(before, ws), layout.blueprints, SetOf(BlueprintNames(layout, order)));
    var compose := ComposeItem(plan, layout);
    assert ws[..0] == [] && ws[0] == EnvironmentItem(plan, secrets, layout);
    assert StoppedAfter(before, now, ws, 0, stale, compose);
  }

  /** After the files: the blueprints of apps that are gone, and the Compose file. */
  method Finish(disk: Disk, plan: Plan, secrets: Secrets.Values, layout: Layout, order: seq<string>, ghost before: Files,
                progress: Progress)
    returns (outcome: Outcome)
    requires Published(plan, secrets) && forall f :: f in order ==> f in plan.files
    requires disk.files == WrittenAll(before, Items(plan, secrets, layout, order))
    requires progress == ProgressOf(before, Items(plan, secrets, layout, order), layout, order)
    modifies disk
    ensures outcome.Done? ==> disk.files == Rendered(before, plan, secrets, layout, order)
                              && outcome.result == ResultOf(before, plan, secrets, layout, order)
    ensures !outcome.Done? ==> outcome.DiskFailed? && Interrupted(before, disk.files, plan, secrets, layout, order)
  {
    var known := SetOf(progress.blueprints);
    ghost var stale := StaleSet(disk.files, layout.blueprints, known);
    var removed, pruned := PruneBlueprints(disk, layout.blueprints, known);
    if !pruned {
      StopsAtEnd(before, disk.files, plan, secrets, layout, order, stale);
      return DiskFailed;
    }
    var changed, ok := WriteFileIfChanged(disk, ComposeItem(plan, layout));
    if !ok {
      StopsAtEnd(before, disk.files, plan, secrets, layout, order, stale);
      return DiskFailed;
    }
    return Done(Result(progress.blueprintsChanged || removed, changed, progress.meshChanged, progress.blueprints,
                       progress.changedFiles));
  }

  lemma StopsAtEnd(before: Files, now: Files, plan: Plan, secrets: Secrets.Values, layout: Layout, order: seq<string>,
                   stale: set<Path>)
    requires Published(plan, secrets) && forall f :: f in order ==> f in plan.files
    requires stale == StaleSet(WrittenAll(before, Items(plan, secrets, layout, order)), layout.blueprints,
                               SetOf(BlueprintNames(layout, order)))
    requires var was := WrittenAll(before, Items(plan, secrets, layout, order));
             PartlyPruned(was, now, stale) || StoppedWrite(was - stale, now, ComposeItem(plan, layout))
    ensures Interrupted(before, now, plan, secrets, layout, order)
  {
    var ws := Items(plan, secrets, layout, order);
    var compose := ComposeItem(plan, layout);
    assert ws[..|ws|] == ws;
    assert StoppedAfter(before, now, ws, |ws|, stale, compose);
  }
}
