/** Which services are restarted after a render (cli/internal/reconcile/apply.go). */
module Restarts {
  import opened Common
  import opened Disk
  import opened Render
  import opened RenderHolds
  import opened Sorting
  import Secrets

  /** Each service's mounts, by the service's name. */
  type Services = map<string, seq<string>>

  /** The mount is of this generated file. */
  predicate Mounts(mount: string, file: string) {
    !Has(file, ':') && "./" + file + ":" <= mount
  }

  lemma {:induction false} ColonAt(s: string, i: nat)
    requires i < |s| && s[i] == ':' && forall j :: 0 <= j < i ==> s[j] != ':'
    ensures Index(s, ':') == i
  {
    if i > 0 {
      ColonAt(s[1..], i - 1);
    }
  }

  lemma MountCut(mount: string, file: string)
    requires Mounts(mount, file)
    ensures Index(mount, ':') == |file| + 2 && mount[..|file| + 2] == "./" + file
  {
    var head := "./" + file + ":";
    assert mount[..|head|] == head;
    forall j | 0 <= j < |file| + 2
      ensures mount[j] != ':'
    {
      assert mount[j] == head[j];
      assert j >= 2 ==> head[j] == file[j - 2];
    }
    assert mount[|file| + 2] == head[|file| + 2];
    ColonAt(mount, |file| + 2);
  }

  lemma CutMounts(mount: string, file: string)
    requires Index(mount, ':') < |mount| && mount[..Index(mount, ':')] == "./" + file
    ensures Mounts(mount, file)
  {
    var i := Index(mount, ':');
    forall j | 0 <= j < |file|
      ensures file[j] != ':'
    {
      assert file[j] == mount[..i][j + 2];
    }
    assert mount[..i + 1] == mount[..i] + [mount[i]];
  }

  /** As the mount is taken apart: what is before the first colon, without its "./". */
  lemma MountsIff(mount: string, file: string)
    ensures Mounts(mount, file) <==>
            Index(mount, ':') < |mount| && "./" <= mount[..Index(mount, ':')] && mount[..Index(mount, ':')][2..] == file
  {
    if Mounts(mount, file) {
      MountCut(mount, file);
    }
    if Index(mount, ':') < |mount| && "./" <= mount[..Index(mount, ':')] && mount[..Index(mount, ':')][2..] == file {
      assert mount[..Index(mount, ':')] == mount[..Index(mount, ':')][..2] + file;
      CutMounts(mount, file);
    }
  }

  predicate MountsAny(mounts: seq<string>, changed: seq<string>) {
    exists i, k :: 0 <= i < |mounts| && 0 <= k < |changed| && Mounts(mounts[i], changed[k])
  }

  /** One service's mounts against the changed files. */
  method IsStale(mounts: seq<string>, changed: seq<string>) returns (stale: bool)
    ensures stale == MountsAny(mounts, changed)
  {
    stale := false;
    for i := 0 to |mounts|
      invariant stale <==> exists a, b :: 0 <= a < i && 0 <= b < |changed| && Mounts(mounts[a], changed[b])
    {
      var colon := Index(mounts[i], ':');
      ghost var before := stale;
      if colon < |mounts[i]| && "./" <= mounts[i][..colon] {
        for k := 0 to |changed|
          invariant stale <==> before || exists b :: 0 <= b < k && Mounts(mounts[i], changed[b])
        {
          MountsIff(mounts[i], changed[k]);
          if mounts[i][..colon][2..] == changed[k] {
            stale := true;
          }
        }
      } else {
        forall b | 0 <= b < |changed|
          ensures !Mounts(mounts[i], changed[b])
        {
          MountsIff(mounts[i], changed[b]);
        }
      }
    }
  }

  /** The services among these that mount a changed file, in order. */
  ghost predicate Chosen(names: seq<string>, of: seq<string>, services: Services, changed: seq<string>)
    requires forall name :: name in of ==> name in services
  {
    && StrictlySorted(names)
    && forall name :: name in names <==> name in of && MountsAny(services[name], changed)
  }

  lemma ChosenNext(names: seq<string>, order: seq<string>, i: nat, services: Services, changed: seq<string>)
    requires StrictlySorted(order) && i < |order| && forall name :: name in order ==> name in services
    requires Chosen(names, order[..i], services, changed)
    ensures Chosen(if MountsAny(services[order[i]], changed) then names + [order[i]] else names,
                   order[..i + 1], services, changed)
  {
    assert order[..i + 1] == order[..i] + [order[i]];
    AddsLast(names, order, i);
  }

  /** The services that mount a file this render rewrote, in order. */
  method ServicesMountingChangedFiles(services: Services, changed: seq<string>) returns (names: seq<string>)
    ensures StrictlySorted(names)
    ensures forall name :: name in names <==> name in services && MountsAny(services[name], changed)
  {
    names := [];
    if changed == [] {
      return;
    }
    var order := SortedKeys(services.Keys);
    for i := 0 to |order|
      invariant Chosen(names, order[..i], services, changed)
    {
      ChosenNext(names, order, i, services, changed);
      var stale := IsStale(services[order[i]], changed);
      if stale {
        names := names + [order[i]];
      }
    }
    assert order[..|order|] == order;
  }

  lemma AddsLast(names: seq<string>, order: seq<string>, i: nat)
    requires StrictlySorted(order) && i < |order| && StrictlySorted(names)
    requires forall name :: name in names ==> name in order[..i]
    ensures StrictlySorted(names + [order[i]])
  {
    forall k | 0 <= k < |names|
      ensures Before(names[k], order[i])
    {
      assert names[k] in order[..i];
    }
  }

  /** After a render, the services restarted are exactly those that mount a file that was
      written anew. */
  lemma RestartedIff(files: Files, plan: Plan, secrets: Secrets.Values, layout: Layout, order: seq<string>, mounts: seq<string>)
    requires Published(plan, secrets) && forall f :: f in order ==> f in plan.files
    requires PathsDiffer(All(plan, secrets, layout, order))
    ensures MountsAny(mounts, ResultOf(files, plan, secrets, layout, order).changedFiles)
            <==> exists i, f :: 0 <= i < |mounts| && f in order && Mounts(mounts[i], f) && KindOf(f).Mounted?
                                && FileAnew(files, plan, secrets, layout, order, f)
  {
    var changed := ResultOf(files, plan, secrets, layout, order).changedFiles;
    if MountsAny(mounts, changed) {
      var i, k :| 0 <= i < |mounts| && 0 <= k < |changed| && Mounts(mounts[i], changed[k]);
      ChangedFilesIff(files, plan, secrets, layout, order, changed[k]);
    }
    if i, f :| 0 <= i < |mounts| && f in order && Mounts(mounts[i], f) && KindOf(f).Mounted?
               && FileAnew(files, plan, secrets, layout, order, f) {
      ChangedFilesIff(files, plan, secrets, layout, order, f);
    }
  }

  /** The next render writes this file anew: this one lost or pruned it, or that render puts
      together such a file in its place. */
  predicate Unsettled(files: Files, layout: Layout, order: seq<string>, ws: seq<Item>, i: nat)
    requires i < |ws|
    decreases i
  {
    || Lost(files, ws, i) || PrunedAway(layout, order, ws[i])
    || exists j :: 0 <= j < i && Temp(ws[j].path) == ws[i].path && Unsettled(files, layout, order, ws, j)
  }

  lemma {:induction false} UnsettledIff(files: Files, plan: Plan, secrets: Secrets.Values, layout: Layout, order: seq<string>, i: nat)
    requires Published(plan, secrets) && forall f :: f in order ==> f in plan.files
    requires PathsDiffer(All(plan, secrets, layout, order)) && i < |All(plan, secrets, layout, order)|
    ensures var all, once := All(plan, secrets, layout, order), Rendered(files, plan, secrets, layout, order);
            Anew(once, all, i) <==> Unsettled(files, layout, order, all, i)
    decreases i
  {
    var all, once := All(plan, secrets, layout, order), Rendered(files, plan, secrets, layout, order);
    StillDiffers(files, plan, secrets, layout, order, i);
    forall j | 0 <= j < i
      ensures Anew(once, all, j) <==> Unsettled(files, layout, order, all, j)
    {
      UnsettledIff(files, plan, secrets, layout, order, j);
    }
  }

  /** One of these mounts is of a file the next render writes anew. */
  ghost predicate MountsUnsettled(files: Files, plan: Plan, secrets: Secrets.Values, layout: Layout, order: seq<string>,
                                  mounts: seq<string>)
    requires Published(plan, secrets) && forall f :: f in order ==> f in plan.files
  {
    var all := All(plan, secrets, layout, order);
    exists k, i :: 0 <= k < |mounts| && 0 <= i < |all| && Mounts(mounts[k], all[i].name) && all[i].kind.Mounted?
                   && Unsettled(files, layout, order, all, i)
  }

  /** The pass after a render restarts a service exactly when it mounts a file the render lost
      or pruned, or one such a file is put together in the place of: what changed is reported
      once, even when the pass before stopped short of restarting. */
  lemma NextPassRestartsIff(files: Files, plan: Plan, secrets: Secrets.Values, layout: Layout, order: seq<string>,
                            mounts: seq<string>)
    requires Published(plan, secrets) && forall f :: f in order ==> f in plan.files
    requires PathsDiffer(All(plan, secrets, layout, order))
    ensures var once := Rendered(files, plan, secrets, layout, order);
            MountsAny(mounts, ResultOf(once, plan, secrets, layout, order).changedFiles)
            <==> MountsUnsettled(files, plan, secrets, layout, order, mounts)
  {
    var once, all := Rendered(files, plan, secrets, layout, order), All(plan, secrets, layout, order);
    RestartedIff(once, plan, secrets, layout, order, mounts);
    if k, f :| 0 <= k < |mounts| && f in order && Mounts(mounts[k], f) && KindOf(f).Mounted?
               && FileAnew(once, plan, secrets, layout, order, f) {
      var i :| 0 <= i < |all| && all[i] == FileItem(plan, secrets, layout, f) && Anew(once, all, i);
      UnsettledIff(files, plan, secrets, layout, order, i);
      assert Mounts(mounts[k], all[i].name);
    }
    if k, i :| 0 <= k < |mounts| && 0 <= i < |all| && Mounts(mounts[k], all[i].name) && all[i].kind.Mounted?
               && Unsettled(files, layout, order, all, i) {
      UnsettledIff(files, plan, secrets, layout, order, i);
      assert all[i] in FileItems(plan, secrets, layout, order);
      ItemFrom(plan, secrets, layout, order, all[i]);
      assert FileAnew(once, plan, secrets, layout, order, all[i].name);
    }
  }

  /** When every file is left in place, the next pass restarts nothing. */
  lemma ReportedOnce(files: Files, plan: Plan, secrets: Secrets.Values, layout: Layout, order: seq<string>, mounts: seq<string>)
    requires Published(plan, secrets) && forall f :: f in order ==> f in plan.files
    requires PathsDiffer(All(plan, secrets, layout, order)) && AllStay(files, plan, secrets, layout, order)
    ensures var once := Rendered(files, plan, secrets, layout, order);
            !MountsAny(mounts, ResultOf(once, plan, secrets, layout, order).changedFiles)
  {
    SecondTimeQuiet(files, plan, secrets, layout, order);
  }
}
