/** A backup: which declared items it takes and in what order, and how a snapshot is
    promoted before any other is dropped (cli/internal/backup/worker.go, config.go). */
module Backup {
  import opened Common

  /* ── items ── */

  datatype Method = Files | Sqlite | Postgres | Settings | Unsupported

  /** A declared item. `sourced` says its own method's sources passed their checks. */
  datatype Item = Item(id: string, appId: string, kind: Method, active: bool, byDefault: bool, sourced: bool)

  datatype Config = Config(platform: bool, apps: map<string, bool>, items: map<string, bool>)

  predicate SlugChar(c: char) {
    'a' <= c <= 'z' || '0' <= c <= '9'
  }

  predicate Slug(s: string) {
    1 <= |s| <= 64 && SlugChar(s[0]) && forall i :: 0 < i < |s| ==> SlugChar(s[i]) || s[i] == '-'
  }

  /** The text before the first slash. */
  function AppOf(id: string): string {
    if id == [] || id[0] == '/' then [] else [id[0]] + AppOf(id[1..])
  }

  predicate Valid(i: Item) {
    && Slug(i.appId)
    && |i.id| > |i.appId| && i.id[..|i.appId|] == i.appId && i.id[|i.appId|] == '/' && Slug(i.id[|i.appId| + 1..])
    && !i.kind.Unsupported? && (i.kind.Settings? || i.sourced)
  }

  predicate Selected(c: Config, i: Item) {
    if i.appId in c.apps && !c.apps[i.appId] then false
    else if i.appId !in c.apps && !i.active then false
    else if i.id in c.items then c.items[i.id]
    else i.byDefault
  }

  predicate Database(i: Item) {
    i.kind.Postgres? || i.kind.Sqlite?
  }

  /* ── which items, in which order ── */

  function Selection(c: Config, items: seq<Item>): seq<Item> {
    if items == [] then []
    else Selection(c, items[..|items| - 1]) + (if Selected(c, items[|items| - 1]) then [items[|items| - 1]] else [])
  }

  function OfKind(items: seq<Item>, databases: bool): seq<Item> {
    if items == [] then []
    else OfKind(items[..|items| - 1], databases)
         + (if Database(items[|items| - 1]) == databases then [items[|items| - 1]] else [])
  }

  /** The stable order that puts database exports before files. */
  function DatabasesFirst(items: seq<Item>): seq<Item> {
    OfKind(items, true) + OfKind(items, false)
  }

  predicate DistinctIds(items: seq<Item>) {
    forall i, j :: 0 <= i < j < |items| ==> items[i].id != items[j].id
  }

  /** Every item switched on in an enabled app is still declared. */
  predicate AllDeclared(c: Config, items: seq<Item>) {
    forall id :: id in c.items && c.items[id] && AppOf(id) in c.apps && c.apps[AppOf(id)] ==>
      exists i :: 0 <= i < |items| && items[i].id == id
  }

  /** The plan can be backed up: sound, without repetition, nothing switched on missing, and not nothing. */
  predicate Acceptable(c: Config, items: seq<Item>) {
    && (forall i :: 0 <= i < |items| ==> Valid(items[i]))
    && DistinctIds(items) && AllDeclared(c, items)
    && (Selection(c, items) != [] || c.platform)
  }

  function Ids(items: seq<Item>): set<string> {
    set i | 0 <= i < |items| :: items[i].id
  }

  lemma IdsNext(items: seq<Item>, i: nat)
    requires i < |items|
    ensures items[..i + 1] == items[..i] + [items[i]] && Ids(items[..i + 1]) == Ids(items[..i]) + {items[i].id}
    ensures DistinctIds(items[..i]) && items[i].id !in Ids(items[..i]) ==> DistinctIds(items[..i + 1])
    ensures items[i].id in Ids(items[..i]) ==> !DistinctIds(items)
  {
    assert items[..i + 1] == items[..i] + [items[i]];
    forall x | x in Ids(items[..i + 1])
      ensures x in Ids(items[..i]) + {items[i].id}
    {
    }
    forall x | x in Ids(items[..i]) + {items[i].id}
      ensures x in Ids(items[..i + 1])
    {
      var k :| 0 <= k < i + 1 && (if k == i then x == items[i].id else items[..i][k].id == x);
      assert items[..i + 1][k].id == x;
    }
  }

  /** The selected items, and every identifier seen; None when an item is unsound or declared twice. */
  method Pick(c: Config, items: seq<Item>) returns (picked: Option<seq<Item>>, seen: set<string>)
    ensures picked == if (forall i :: 0 <= i < |items| ==> Valid(items[i])) && DistinctIds(items)
                      then Some(Selection(c, items)) else None
    ensures picked.Some? ==> seen == Ids(items)
  {
    var chosen := [];
    seen := {};
    for i := 0 to |items|
      invariant forall k :: 0 <= k < i ==> Valid(items[k])
      invariant DistinctIds(items[..i]) && seen == Ids(items[..i]) && chosen == Selection(c, items[..i])
    {
      var item := items[i];
      IdsNext(items, i);
      if !Valid(item) { return None, seen; }
      if item.id in seen { return None, seen; }
      seen := seen + {item.id};
      SelectionNext(c, items, i);
      if Selected(c, item) {
        chosen := chosen + [item];
      }
    }
    assert items[..|items|] == items;
    picked := Some(chosen);
  }

  lemma SelectionNext(c: Config, items: seq<Item>, i: nat)
    requires i < |items|
    ensures Selection(c, items[..i + 1]) == Selection(c, items[..i]) + (if Selected(c, items[i]) then [items[i]] else [])
  {
    assert items[..i + 1][..i] == items[..i];
  }

  /** Whether every item switched on in an enabled app was seen. */
  method NothingMissing(c: Config, seen: set<string>) returns (ok: bool)
    ensures ok <==> forall id :: id in c.items && c.items[id] && AppOf(id) in c.apps && c.apps[AppOf(id)] ==> id in seen
  {
    var switches := c.items.Keys;
    while switches != {}
      invariant switches <= c.items.Keys
      invariant forall id :: id in c.items && id !in switches && c.items[id] && AppOf(id) in c.apps && c.apps[AppOf(id)] ==> id in seen
      decreases switches
    {
      var id :| id in switches;
      var app := AppOf(id);
      if c.items[id] && app in c.apps && c.apps[app] && id !in seen {
        return false;
      }
      switches := switches - {id};
    }
    ok := true;
  }

  /** Chooses the declared items the person selected. */
  method Choose(c: Config, items: seq<Item>) returns (chosen: Option<seq<Item>>)
    ensures chosen == if Acceptable(c, items) then Some(Selection(c, items)) else None
  {
    var picked, seen := Pick(c, items);
    if picked.None? { return None; }
    var declared := NothingMissing(c, seen);
    if !declared { return None; }
    if picked.value == [] && !c.platform { return None; }
    chosen := picked;
  }

  lemma {:induction false} InSelection(c: Config, items: seq<Item>, x: Item)
    ensures x in Selection(c, items) <==> x in items && Selected(c, x)
  {
    if items != [] {
      InSelection(c, items[..|items| - 1], x);
      assert items == items[..|items| - 1] + [items[|items| - 1]];
    }
  }

  lemma {:induction false} InKind(items: seq<Item>, databases: bool, x: Item)
    ensures x in OfKind(items, databases) <==> x in items && Database(x) == databases
  {
    if items != [] {
      InKind(items[..|items| - 1], databases, x);
      assert items == items[..|items| - 1] + [items[|items| - 1]];
    }
  }

  /** `sub` is `items` with some left out and the order kept: position by position. */
  ghost predicate Keeps(items: seq<Item>, sub: seq<Item>, at: seq<nat>) {
    && |at| == |sub|
    && (forall k :: 0 <= k < |at| ==> at[k] < |items| && items[at[k]] == sub[k])
    && (forall k, l :: 0 <= k < l < |at| ==> at[k] < at[l])
  }

  lemma {:induction false} SelectionKeeps(c: Config, items: seq<Item>) returns (at: seq<nat>)
    ensures Keeps(items, Selection(c, items), at)
  {
    at := [];
    if items != [] {
      at := SelectionKeeps(c, items[..|items| - 1]);
      if Selected(c, items[|items| - 1]) {
        at := at + [|items| - 1];
      }
    }
  }

  lemma {:induction false} KindKeeps(items: seq<Item>, databases: bool) returns (at: seq<nat>)
    ensures Keeps(items, OfKind(items, databases), at)
  {
    at := [];
    if items != [] {
      at := KindKeeps(items[..|items| - 1], databases);
      if Database(items[|items| - 1]) == databases {
        at := at + [|items| - 1];
      }
    }
  }

  lemma KeepsDistinct(items: seq<Item>, sub: seq<Item>, at: seq<nat>)
    requires Keeps(items, sub, at) && DistinctIds(items)
    ensures DistinctIds(sub)
  {
    forall i, j | 0 <= i < j < |sub|
      ensures sub[i].id != sub[j].id
    {
      assert items[at[i]] == sub[i] && items[at[j]] == sub[j];
    }
  }

  /** The order of a manifest: exactly the selected items, each once; every database
      export before every file copy; and the plan's order otherwise. */
  lemma ManifestOrder(c: Config, items: seq<Item>) returns (databases: nat, at: seq<nat>, rest: seq<nat>)
    requires Acceptable(c, items)
    ensures var chosen := Selection(c, items);
            var manifest := DatabasesFirst(chosen);
            && DistinctIds(manifest)
            && (forall x :: x in manifest <==> x in items && Selected(c, x))
            && databases <= |manifest|
            && (forall k :: 0 <= k < |manifest| ==> (Database(manifest[k]) <==> k < databases))
            && Keeps(chosen, manifest[..databases], at) && Keeps(chosen, manifest[databases..], rest)
  {
    var chosen := Selection(c, items);
    var dbs, files := OfKind(chosen, true), OfKind(chosen, false);
    var manifest := DatabasesFirst(chosen);
    databases := |dbs|;
    assert manifest[..databases] == dbs && manifest[databases..] == files;
    at := KindKeeps(chosen, true);
    rest := KindKeeps(chosen, false);
    var all := SelectionKeeps(c, items);
    KeepsDistinct(items, chosen, all);
    KeepsDistinct(chosen, dbs, at);
    KeepsDistinct(chosen, files, rest);
    forall x
      ensures x in manifest <==> x in items && Selected(c, x)
      ensures x in dbs ==> Database(x)
      ensures x in files ==> !Database(x)
    {
      InSelection(c, items, x);
      InKind(chosen, true, x);
      InKind(chosen, false, x);
    }
    SplitDistinct(chosen, dbs, at, files, rest);
  }

  lemma SplitDistinct(chosen: seq<Item>, dbs: seq<Item>, at: seq<nat>, files: seq<Item>, rest: seq<nat>)
    requires DistinctIds(chosen) && DistinctIds(dbs) && DistinctIds(files)
    requires Keeps(chosen, dbs, at) && Keeps(chosen, files, rest)
    requires (forall x :: x in dbs ==> Database(x)) && (forall x :: x in files ==> !Database(x))
    ensures DistinctIds(dbs + files)
  {
    forall i, j | 0 <= i < |dbs| && 0 <= j < |files|
      ensures dbs[i].id != files[j].id
    {
      assert dbs[i] in dbs && files[j] in files;
      assert chosen[at[i]] == dbs[i] && chosen[rest[j]] == files[j];
    }
  }

  /** An item switched on in an enabled app is in the manifest. */
  lemma SwitchedOnIsTaken(c: Config, items: seq<Item>, id: string)
    requires Acceptable(c, items)
    requires id in c.items && c.items[id] && AppOf(id) in c.apps && c.apps[AppOf(id)]
    ensures exists x :: x in DatabasesFirst(Selection(c, items)) && x.id == id
  {
    var i :| 0 <= i < |items| && items[i].id == id;
    var x := items[i];
    AppOfValid(x.id, |x.appId|);
    assert AppOf(id) == x.appId;
    InSelection(c, items, x);
    InKind(Selection(c, items), true, x);
    InKind(Selection(c, items), false, x);
    assert x in DatabasesFirst(Selection(c, items));
  }

  lemma {:induction false} AppOfValid(id: string, n: nat)
    requires n < |id| && id[n] == '/' && forall i :: 0 <= i < n ==> id[i] != '/'
    ensures AppOf(id) == id[..n]
  {
    if n > 0 {
      AppOfValid(id[1..], n - 1);
      assert id[..n] == [id[0]] + id[1..][..n - 1];
    }
  }

  /* ── the repository ── */

  datatype Manifest = Manifest(items: seq<Item>, platform: bool)

  /** A snapshot; it is complete once it has traded the tag kimono-pending for kimono. */
  datatype Snapshot = Snapshot(complete: bool, manifest: Manifest)

  type Repository = map<nat, Snapshot>

  /** The snapshots shown and managed by retention. */
  function Complete(r: Repository): map<nat, Manifest> {
    map id | id in r && r[id].complete :: r[id].manifest
  }

  datatype Event = Exported(item: Item) | Uploaded(id: nat) | Promoted(id: nat) | Pruned

  function Exports(items: seq<Item>): seq<Event> {
    seq(|items|, i requires 0 <= i < |items| => Exported(items[i]))
  }

  datatype State = Ready | StateFailed

  class Worker {
    var repository: Repository
    var state: State
    var lastSuccess: nat
    // History: what this worker's commands did, in order.
    ghost var log: seq<Event>

    constructor (repository: Repository)
      ensures this.repository == repository && log == []
    {
      this.repository := repository;
      state, lastSuccess := Ready, 0;
      log := [];
    }

    /** restic backup: an upload that fails may still leave a pending snapshot. */
    method Upload(m: Manifest) returns (ok: bool, id: nat)
      modifies this`repository, this`log
      ensures Complete(repository) == Complete(old(repository))
      ensures ok ==> id !in old(repository) && repository == old(repository)[id := Snapshot(false, m)]
      ensures ok ==> log == old(log) + [Uploaded(id)]
      ensures !ok ==> log == old(log)
    {
      id := NewId(repository.Keys);
      ok := *;
      var left: bool := *;
      if ok {
        log := log + [Uploaded(id)];
      }
      if ok || left {
        ghost var before := repository;
        repository := repository[id := Snapshot(false, m)];
        assert Complete(repository) == Complete(before);
      }
    }

    /** restic tag --add kimono --remove kimono-pending: a failed one may have taken effect. */
    method Promote(id: nat) returns (ok: bool)
      requires id in repository
      modifies this`repository, this`log
      ensures (repository == old(repository) && log == old(log) && !ok)
              || (repository == old(repository)[id := old(repository)[id].(complete := true)] && log == old(log) + [Promoted(id)])
    {
      ok := *;
      var done: bool := *;
      if ok || done {
        log := log + [Promoted(id)];
        repository := repository[id := repository[id].(complete := true)];
      }
    }

    /** restic forget --tag kimono --prune: drops complete snapshots, never the newest. */
    method Forget(newest: nat) returns (ok: bool)
      modifies this`repository, this`log
      ensures repository.Keys <= old(repository).Keys
      ensures forall id :: id in repository ==> repository[id] == old(repository)[id]
      ensures forall id :: id in old(repository) && (id == newest || !old(repository)[id].complete) ==> id in repository
      ensures log == old(log) + [Pruned]
    {
      ok := *;
      var dropped: set<nat> := *;
      log := log + [Pruned];
      repository := map id | id in repository && (id == newest || !repository[id].complete || id !in dropped) :: repository[id];
    }

    /** Exports each item in turn; the first failure stops. */
    method Capture(items: seq<Item>) returns (ok: bool, captured: seq<Item>)
      modifies this`log
      ensures ok ==> captured == items && log == old(log) + Exports(items)
      ensures |log| >= |old(log)| && log[..|old(log)|] == old(log)
      ensures forall k :: |old(log)| <= k < |log| ==> log[k].Exported?
    {
      captured := [];
      var i := 0;
      ok := true;
      while i < |items| && ok
        invariant 0 <= i <= |items|
        invariant captured == items[..i] && log == old(log) + Exports(items[..i])
        decreases |items| - i, ok
      {
        ok := *;
        if ok {
          assert Exports(items[..i + 1]) == Exports(items[..i]) + [Exported(items[i])];
          log := log + [Exported(items[i])];
          captured := captured + [items[i]];
          i := i + 1;
        }
      }
      assert i == |items| ==> items[..i] == items;
    }

    /** Uploads the stage, and promotes the snapshot of an upload that finished. */
    method Store(m: Manifest) returns (ok: bool, id: nat)
      modifies this`repository, this`log
      ensures ok ==> id !in old(repository) && repository == old(repository)[id := Snapshot(true, m)]
      ensures ok ==> log == old(log) + [Uploaded(id), Promoted(id)]
      ensures Complete(old(repository)).Keys <= Complete(repository).Keys
      ensures |log| >= |old(log)| && log[..|old(log)|] == old(log)
      ensures forall k :: |old(log)| <= k < |log| ==> !log[k].Pruned?
      ensures (exists k :: |old(log)| <= k < |log| && log[k].Promoted?) || (!ok && Complete(repository) == Complete(old(repository)))
    {
      var uploaded;
      uploaded, id := Upload(m);
      ok := false;
      if uploaded {
        ghost var pending := |log|;
        ok := Promote(id);
        if |log| > pending {
          assert log[pending] == Promoted(id);
        }
      }
    }

    /** Exports the selected data, uploads it and promotes the finished snapshot. */
    method TakeBackup(c: Config, plan: Option<seq<Item>>) returns (ok: bool, id: nat)
      modifies this`repository, this`log
      ensures ok ==> plan.Some? && Acceptable(c, plan.value) && id !in old(repository)
      ensures ok ==> var m := Manifest(DatabasesFirst(Selection(c, plan.value)), c.platform);
                     && repository == old(repository)[id := Snapshot(true, m)]
                     && log == old(log) + Exports(m.items) + [Uploaded(id), Promoted(id)]
      ensures Complete(old(repository)).Keys <= Complete(repository).Keys
      ensures |log| >= |old(log)| && log[..|old(log)|] == old(log)
      ensures forall k :: |old(log)| <= k < |log| ==> !log[k].Pruned?
      ensures (exists k :: |old(log)| <= k < |log| && log[k].Promoted?) || (!ok && Complete(repository) == Complete(old(repository)))
    {
      ok, id := false, 0;
      var reachable: bool := *;
      if reachable && plan.Some? {
        var chosen := Choose(c, plan.value);
        if chosen.Some? {
          var exported, captured := Capture(DatabasesFirst(chosen.value));
          var staged: bool := *;
          if exported && staged {
            ok, id := Store(Manifest(captured, c.platform));
          }
        }
      }
    }

    /** Opens the repository, backs up, and applies retention to what was promoted. */
    method BackUpAndRetain(c: Config, plan: Option<seq<Item>>, now: nat) returns (ok: bool, id: nat)
      modifies this`repository, this`log, this`lastSuccess
      ensures |log| >= |old(log)| && log[..|old(log)|] == old(log)
      // Reported as a success, the new snapshot is complete and holds exactly what was selected.
      ensures ok ==> plan.Some? && Acceptable(c, plan.value) && id !in old(repository) && id in repository
      ensures ok ==> repository[id] == Snapshot(true, Manifest(DatabasesFirst(Selection(c, plan.value)), c.platform))
      ensures ok ==> lastSuccess == now
      // Failing before a promotion, the run leaves the complete snapshots as they were.
      ensures (exists k :: |old(log)| <= k < |log| && log[k].Promoted?) || (!ok && Complete(repository) == Complete(old(repository)))
      // Retention runs only after a promotion of this very run, and nothing else drops a complete snapshot.
      ensures forall k :: |old(log)| <= k < |log| && log[k].Pruned? ==> exists m :: |old(log)| <= m < k && log[m].Promoted?
      ensures (exists k :: |old(log)| <= k < |log| && log[k].Pruned?) || Complete(old(repository)).Keys <= Complete(repository).Keys
    {
      var taken;
      taken, id := TakeBackup(c, plan);
      ok := false;
      if taken {
        ghost var promoted := |log| - 1;
        assert log[promoted] == Promoted(id);
        lastSuccess := now;
        var pruned := Forget(id);
        assert log[promoted] == Promoted(id) && log[promoted + 1] == Pruned;
        var checked: bool, listed: bool := *, *;
        ok := pruned && checked && listed;
      }
    }

    /** One backup, from the request to its status. */
    method Perform(c: Config, plan: Option<seq<Item>>, now: nat) returns (ok: bool, id: nat)
      modifies this
      ensures ok ==> state == Ready && lastSuccess == now && plan.Some? && Acceptable(c, plan.value)
      ensures ok ==> id !in old(repository) && id in repository
                     && repository[id] == Snapshot(true, Manifest(DatabasesFirst(Selection(c, plan.value)), c.platform))
      ensures !ok ==> state == StateFailed
      // Whether it failed or not: complete snapshots go only by retention, after a promotion of this run.
      ensures |log| >= |old(log)| && log[..|old(log)|] == old(log)
      ensures (exists k :: |old(log)| <= k < |log| && log[k].Promoted?) || (!ok && Complete(repository) == Complete(old(repository)))
      ensures forall k :: |old(log)| <= k < |log| && log[k].Pruned? ==> exists m :: |old(log)| <= m < k && log[m].Promoted?
      ensures (exists k :: |old(log)| <= k < |log| && log[k].Pruned?) || Complete(old(repository)).Keys <= Complete(repository).Keys
    {
      ok, id := BackUpAndRetain(c, plan, now);
      state := if ok then Ready else StateFailed;
    }
  }

  method NewId(used: set<nat>) returns (id: nat)
    ensures id !in used
  {
    id := 0;
    var left := used;
    while left != {}
      invariant left <= used
      invariant forall u :: u in used && u !in left ==> u < id
      decreases left
    {
      var u :| u in left;
      left := left - {u};
      if u >= id { id := u + 1; }
    }
  }
}
