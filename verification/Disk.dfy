/** Files on disk, and how generated ones are put in place and cleared away
    (cli/internal/reconcile/render.go). A disk maps paths to contents and modes; every
    command that changes it can fail. */
module Disk {
  import opened Common

  type Path = string

  datatype File = File(contents: string, mode: nat)

  type Files = map<Path, File>

  function At(files: Files, p: Path): Option<File> {
    if p in files then Some(files[p]) else None
  }

  /** Where a file is written before it takes its place. */
  function Temp(p: Path): Path {
    p + ".new"
  }

  datatype Kind = Environment | Blueprint | Mesh | Mounted | ComposeFile

  /** A generated file: its name in the plan, what it is for, and what is to be where. */
  datatype Item = Item(name: string, kind: Kind, path: Path, contents: string, mode: nat)

  predicate Differs(files: Files, w: Item) {
    w.path !in files || files[w.path].contents != w.contents
  }

  /** The mode a file ends with: a temporary file that was already there keeps its own. */
  function ModeAfter(files: Files, w: Item): nat {
    if Differs(files, w) && Temp(w.path) in files then files[Temp(w.path)].mode else w.mode
  }

  /** The disk after one successful write. */
  function Written(files: Files, w: Item): Files {
    (if Differs(files, w) then files - {Temp(w.path)} else files)[w.path := File(w.contents, ModeAfter(files, w))]
  }

  function WrittenAll(files: Files, ws: seq<Item>): Files {
    if ws == [] then files else Written(WrittenAll(files, ws[..|ws| - 1]), ws[|ws| - 1])
  }

  /** What is left where a write to p stopped: what was there, or anything at all with the
      mode a write gives it. */
  predicate Torn(was: Files, now: Files, p: Path, mode: nat) {
    p in now && now == was[p := now[p]] && now[p].mode == (if p in was then was[p].mode else mode)
  }

  /** What a file's write may leave when it stops: all as it was, or, when the file is to be
      written anew, something torn where it is put together. */
  predicate StoppedWrite(was: Files, now: Files, w: Item) {
    now == was || (Differs(was, w) && Torn(was, now, Temp(w.path), w.mode))
  }

  class Disk {
    var files: Files

    constructor (files: Files)
      ensures this.files == files
    {
      this.files := files;
    }

    /** os.WriteFile: keeps the mode of a file that exists. A write that fails, or a machine
        that goes down during it, may leave anything in the file. */
    method WriteFile(p: Path, contents: string, mode: nat) returns (ok: bool)
      modifies this
      ensures ok ==> files == old(files)[p := File(contents, if p in old(files) then old(files)[p].mode else mode)]
      ensures !ok ==> files == old(files) || Torn(old(files), files, p, mode)
    {
      ok := *;
      var kept := if p in files then files[p].mode else mode;
      if ok {
        files := files[p := File(contents, kept)];
      } else {
        var part: string := *;
        var torn: bool := *;
        if torn {
          files := files[p := File(part, kept)];
        }
      }
    }

    method Rename(from: Path, to: Path) returns (ok: bool)
      requires from in files && from != to
      modifies this
      ensures files == if ok then (old(files) - {from})[to := old(files)[from]] else old(files)
    {
      ok := *;
      if ok {
        var moved := files[from];
        files := (files - {from})[to := moved];
      }
    }

    method Chmod(p: Path, mode: nat) returns (ok: bool)
      requires p in files
      modifies this
      ensures files == if ok then old(files)[p := old(files)[p].(mode := mode)] else old(files)
    {
      ok := *;
      if ok {
        files := files[p := files[p].(mode := mode)];
      }
    }

    method Remove(p: Path) returns (ok: bool)
      requires p in files
      modifies this
      ensures files == if ok then old(files) - {p} else old(files)
    {
      ok := *;
      if ok {
        files := files - {p};
      }
    }
  }

  /** Puts a file in place when its contents differ. A failure changes no more than the
      temporary file, and that only when the contents differ. */
  method WriteFileIfChanged(disk: Disk, w: Item) returns (changed: bool, ok: bool)
    modifies disk
    ensures ok ==> disk.files == Written(old(disk.files), w) && changed == Differs(old(disk.files), w)
    ensures !ok ==> StoppedWrite(old(disk.files), disk.files, w)
  {
    changed := false;
    var made: bool := *;
    if !made {
      return false, false;
    }
    if w.path in disk.files && disk.files[w.path].contents == w.contents {
      ok := true;
      if disk.files[w.path].mode != w.mode {
        ok := disk.Chmod(w.path, w.mode);
      } else {
        assert disk.files[w.path := File(w.contents, w.mode)] == disk.files;
      }
      return;
    }
    ok := disk.WriteFile(Temp(w.path), w.contents, w.mode);
    if ok {
      changed := true;
      ok := disk.Rename(Temp(w.path), w.path);
    }
  }

  /* ── pruning ── */

  /** A file directly in a directory. */
  predicate InDir(dir: Path, p: Path) {
    |dir| < |p| && p[..|dir|] == dir && p[|dir|] == '/' && !Has(p[|dir| + 1..], '/')
  }

  function NameIn(dir: Path, p: Path): string
    requires InDir(dir, p)
  {
    p[|dir| + 1..]
  }

  /** A blueprint this program wrote, directly in the directory. */
  predicate Generated(files: Files, dir: Path, p: Path) {
    && p in files && InDir(dir, p)
    && "kimono-" <= NameIn(dir, p) && HasSuffix(NameIn(dir, p), ".yaml")
    && "# Generated by Kimono" <= files[p].contents
  }

  predicate Stale(files: Files, dir: Path, known: set<string>, p: Path) {
    Generated(files, dir, p) && NameIn(dir, p) !in known
  }

  function StaleSet(files: Files, dir: Path, known: set<string>): set<Path> {
    set p | p in files && Stale(files, dir, known, p)
  }

  function Pruned(files: Files, dir: Path, known: set<string>): Files {
    files - StaleSet(files, dir, known)
  }

  /** Some of the stale files are gone, and nothing else is touched. */
  ghost predicate PartlyPruned(before: Files, now: Files, stale: set<Path>) {
    forall p :: At(now, p) == At(before, p) || (p in stale && p !in now)
  }

  /** What is still to look at has every stale file that is left. */
  ghost predicate StillToSee(now: Files, stale: set<Path>, entries: set<Path>) {
    forall p :: p in stale ==> (p in entries <==> p in now)
  }

  lemma PruningStarts(files: Files, dir: Path, stale: set<Path>, entries: set<Path>)
    requires entries == set p | p in files && InDir(dir, p)
    requires forall p :: p in stale ==> p in files && InDir(dir, p)
    ensures PartlyPruned(files, files, stale) && StillToSee(files, stale, entries)
  {
  }

  lemma PruningGoesOn(before: Files, now: Files, stale: set<Path>, entries: set<Path>, p: Path)
    requires PartlyPruned(before, now, stale) && StillToSee(now, stale, entries) && p in stale && p in now
    ensures PartlyPruned(before, now - {p}, stale) && StillToSee(now - {p}, stale, entries - {p})
  {
  }

  lemma PruningDone(before: Files, now: Files, stale: set<Path>)
    requires PartlyPruned(before, now, stale) && StillToSee(now, stale, {})
    requires forall p :: p in stale ==> p in before
    ensures now == before - stale
  {
    forall p
      ensures At(now, p) == At(before - stale, p)
    {
    }
    assert forall p :: p in now <==> At(now, p).Some?;
    assert forall p :: p in before - stale <==> At(before - stale, p).Some?;
  }

  lemma StaleStays(before: Files, now: Files, dir: Path, known: set<string>, p: Path)
    requires PartlyPruned(before, now, StaleSet(before, dir, known)) && p in now
    ensures Stale(now, dir, known, p) <==> p in StaleSet(before, dir, known)
  {
    assert At(now, p) == At(before, p);
  }

  /** Removes the generated blueprints that are not known. A failure leaves some of them,
      and nothing else is touched. */
  method PruneBlueprints(disk: Disk, dir: Path, known: set<string>) returns (removed: bool, ok: bool)
    modifies disk
    ensures ok ==> disk.files == Pruned(old(disk.files), dir, known)
                   && removed == (StaleSet(old(disk.files), dir, known) != {})
    ensures PartlyPruned(old(disk.files), disk.files, StaleSet(old(disk.files), dir, known))
  {
    ghost var before := disk.files;
    ghost var stale := StaleSet(before, dir, known);
    removed := false;
    ok := *;
    if !ok {
      return;
    }
    var entries := set p | p in disk.files && InDir(dir, p);
    PruningStarts(before, dir, stale, entries);
    while entries != {}
      invariant PartlyPruned(before, disk.files, stale) && StillToSee(disk.files, stale, entries)
      invariant forall p :: p in entries ==> p in disk.files
      invariant removed ==> stale != {}
      invariant !removed ==> disk.files == before
      decreases |entries|
    {
      var p :| p in entries;
      StaleStays(before, disk.files, dir, known, p);
      if Stale(disk.files, dir, known, p) {
        PruningGoesOn(before, disk.files, stale, entries, p);
        ok := disk.Remove(p);
        if !ok {
          return;
        }
        removed := true;
      }
      entries := entries - {p};
    }
    PruningDone(before, disk.files, stale);
    ok := true;
  }
}
