/** Runs that show where the node's promises end: a cap broken by a start, a record a forget
    takes from an ensure, and a sandbox put to sleep right after its wake. */
module NodeRuns {
  import opened Common
  import opened Room
  import opened Node
  import opened NodeLocks
  import opened NodeCaps
  import opened NodeSteady
  import opened NodeQuiet

  /* ── making runs ── */

  function Last(r: Run): Node
    requires r.states != []
  {
    r.states[|r.states| - 1]
  }

  predicate Extends(r: Run, q: Run) {
    r.states <= q.states && r.labels <= q.labels
  }

  lemma Append(r: Run, l: Label, s: Node) returns (q: Run)
    requires IsRun(r) && Step(Last(r), l, s)
    ensures IsRun(q) && q == Run(r.states + [s], r.labels + [l]) && Extends(r, q)
  {
    q := Run(r.states + [s], r.labels + [l]);
    forall i | 0 <= i < |q.labels|
      ensures StepAt(q, i)
    {
      if i < |r.labels| {
        assert StepAt(r, i);
        assert q.states[i] == r.states[i] && q.labels[i] == r.labels[i] && q.states[i + 1] == r.states[i + 1];
      }
    }
  }

  /** A node with one thread more, at this point and with the locks it has there. */
  ghost function Put(s: Node, t: nat, pc: Pc): Node {
    s.(locks := Relock(s.locks, t, {}, Holds(pc)), threads := s.threads[t := pc])
  }

  /** None of the locks the thread has here is taken by anyone else. */
  predicate LocksFree(s: Node, pc: Pc) {
    forall l :: l in Holds(pc) ==> l !in s.locks
  }

  lemma RelockTwice(locks: map<Lock, nat>, t: nat, had: set<Lock>, want: set<Lock>)
    requires forall l :: l in had ==> l !in locks
    ensures Relock(Relock(locks, t, {}, had), t, had, want) == Relock(locks, t, {}, want)
  {
  }

  lemma PutSteps(base: Node, t: nat, pc: Pc, c: Choice, w: World, pc': Pc)
    requires LocksFree(base, pc) && LocksFree(base, pc')
    requires Body(base.clock, base.world, Put(base, t, pc).locks.Keys, pc, c) == Go(w, pc')
    ensures StepOf(Put(base, t, pc), t, c, Put(base.(world := w), t, pc'))
  {
    RelockTwice(base.locks, t, Holds(pc), Holds(pc'));
    assert base.threads[t := pc][t := pc'] == base.threads[t := pc'];
  }

  lemma Moves(r: Run, base: Node, t: nat, pc: Pc, c: Choice, w: World, pc': Pc) returns (q: Run)
    requires IsRun(r) && Last(r) == Put(base, t, pc)
    requires LocksFree(base, pc) && LocksFree(base, pc')
    requires Body(base.clock, base.world, Put(base, t, pc).locks.Keys, pc, c) == Go(w, pc')
    ensures IsRun(q) && Extends(r, q) && q.labels == r.labels + [ByThread(t, c)]
    ensures Last(q) == Put(base.(world := w), t, pc')
  {
    PutSteps(base, t, pc, c, w, pc');
    q := Append(r, ByThread(t, c), Put(base.(world := w), t, pc'));
  }

  /** A step that leaves the world as it is. */
  lemma Goes(r: Run, base: Node, t: nat, pc: Pc, c: Choice, pc': Pc) returns (q: Run)
    requires IsRun(r) && Last(r) == Put(base, t, pc)
    requires LocksFree(base, pc) && LocksFree(base, pc')
    requires Body(base.clock, base.world, Put(base, t, pc).locks.Keys, pc, c) == Go(base.world, pc')
    ensures IsRun(q) && Extends(r, q) && q.labels == r.labels + [ByThread(t, c)] && Last(q) == Put(base, t, pc')
  {
    assert base.(world := base.world) == base;
    q := Moves(r, base, t, pc, c, base.world, pc');
  }

  lemma Joins(r: Run, base: Node, t: nat, pc: Pc) returns (q: Run)
    requires IsRun(r) && Last(r) == base && t !in base.threads && Begins(pc)
    ensures IsRun(q) && Extends(r, q) && q.labels == r.labels + [ByEvent(Arrives(t, pc))]
    ensures Last(q) == Put(base, t, pc)
  {
    assert Holds(pc) == {};
    assert Relock(base.locks, t, {}, {}) == base.locks;
    q := Append(r, ByEvent(Arrives(t, pc)), Put(base, t, pc));
  }

  const YES := Choice(true, true, "", Evict([]), 0)

  function Pick(id: Id): Choice {
    YES.(pick := id)
  }

  /* ── threads on their way ── */

  function Touched(k: Clock, w: World, id: Id): World {
    TouchRecord(w, id, k.now).(woken := w.woken[id := k.now])
  }

  /** A preview's wake, up to its look at the container. */
  lemma WakeTouches(r: Run, base: Node, t: nat, id: Id) returns (q: Run, j: nat)
    requires IsRun(r) && Last(r) == base && t !in base.threads && Wake(id) !in base.locks
    ensures IsRun(q) && Extends(r, q)
    ensures Last(q) == Put(base.(world := Touched(base.clock, base.world, id)), t, Waking(Call(id, None), InspectIt))
    ensures j < |q.labels| && TouchedAt(q, j, id) && q.states[j].clock.now == base.clock.now
  {
    var call := Call(id, None);
    var r1 := Joins(r, base, t, Waking(call, WaitWake));
    var r2 := Goes(r1, base, t, Waking(call, WaitWake), YES, Waking(call, TouchIt));
    q := Moves(r2, base, t, Waking(call, TouchIt), YES, Touched(base.clock, base.world, id), Waking(call, InspectIt));
    j := |r2.labels|;
    assert q.states[j] == Last(r2);
  }

  /** The wake of a running sandbox, to its end. */
  lemma WakeEnds(r: Run, base: Node, t: nat, id: Id) returns (q: Run, j: nat)
    requires IsRun(r) && Last(r) == base && t !in base.threads && Wake(id) !in base.locks
    requires id in base.world.containers && base.world.containers[id].Running?
    ensures IsRun(q) && Extends(r, q)
    ensures Last(q) == Put(base.(world := Touched(base.clock, base.world, id)), t, Finished)
    ensures j < |q.labels| && TouchedAt(q, j, id) && q.states[j].clock.now == base.clock.now
  {
    var touched := base.(world := Touched(base.clock, base.world, id));
    var r1;
    r1, j := WakeTouches(r, base, t, id);
    q := WakeFinds(r1, touched, t, id);
    assert q.labels[j] == r1.labels[j] && q.states[j] == r1.states[j];
  }

  lemma WakeFinds(r: Run, base: Node, t: nat, id: Id) returns (q: Run)
    requires IsRun(r) && Last(r) == Put(base, t, Waking(Call(id, None), InspectIt)) && Wake(id) !in base.locks
    requires id in base.world.containers && base.world.containers[id].Running?
    ensures IsRun(q) && Extends(r, q) && Last(q) == Put(base, t, Finished)
  {
    var call := Call(id, None);
    var r1 := Goes(r, base, t, Waking(call, InspectIt), YES, Waking(call, LeaveWake(Won)));
    q := Goes(r1, base, t, Waking(call, LeaveWake(Won)), YES, Finished);
  }

  function Closed(w: World, id: Id): World {
    w.(spaces := w.spaces - {id})
  }

  /** The deletion of a chat, up to its container. */
  lemma DeletionStarts(r: Run, base: Node, t: nat, id: Id) returns (q: Run)
    requires IsRun(r) && Last(r) == base && t !in base.threads
    ensures IsRun(q) && Extends(r, q)
    ensures Last(q) == Put(base.(world := Forget(Closed(base.world, id), id)), t, Removing(id, DeleteContainer))
  {
    var r1 := Joins(r, base, t, Removing(id, CloseSpace));
    var r2 := Moves(r1, base, t, Removing(id, CloseSpace), YES, Closed(base.world, id), Removing(id, DeleteRecord));
    q := Moves(r2, base.(world := Closed(base.world, id)), t, Removing(id, DeleteRecord), YES,
               Forget(Closed(base.world, id), id), Removing(id, DeleteContainer));
  }

  /** The sandbox is due for a pause. */
  predicate PauseDue(s: Node, id: Id) {
    && id in s.world.containers && s.world.containers[id].Running?
    && var (quiet, busy) := QuietFor(s.clock.started, s.world, id, s.clock.now);
       Decide(Running, busy, quiet, s.clock.cfg).PauseIt?
  }

  function PauseLook(s: Node, id: Id): Look
    requires id in s.world.containers
  {
    Look(id, Running, PauseIt, s.world.containers, s.world.containers - {id}, s.clock.now)
  }

  function PauseFirst(s: Node): SweepAt {
    PickOne(s.world.containers, s.world.containers, s.clock.now)
  }

  lemma PicksForPause(s: Node, id: Id)
    requires PauseDue(s, id)
    ensures SweepStep(s.clock, s.world, PauseFirst(s), Pick(id)) == Go(s.world, Sweeping(WaitLook(PauseLook(s, id))))
    ensures SweepStep(s.clock, s.world, LookAgain(PauseLook(s, id)), YES) == Go(s.world, Sweeping(Act(PauseLook(s, id))))
  {
    assert s.world.containers != map[];
  }

  lemma SweepListed(r: Run, base: Node, t: nat) returns (q: Run)
    requires IsRun(r) && Last(r) == base && t !in base.threads
    ensures IsRun(q) && Extends(r, q) && Last(q) == Put(base, t, Sweeping(PauseFirst(base)))
  {
    var r1 := Joins(r, base, t, Sweeping(ListAll));
    q := Goes(r1, base, t, Sweeping(ListAll), YES, Sweeping(PauseFirst(base)));
  }

  /** A sweep that comes to pause one sandbox. */
  lemma SweepReaches(r: Run, base: Node, t: nat, id: Id) returns (q: Run)
    requires IsRun(r) && Last(r) == Put(base, t, Sweeping(PauseFirst(base))) && Wake(id) !in base.locks && PauseDue(base, id)
    ensures IsRun(q) && Extends(r, q)
    ensures Last(q) == Put(base, t, Sweeping(Act(PauseLook(base, id))))
  {
    var look := PauseLook(base, id);
    PicksForPause(base, id);
    var r1 := Goes(r, base, t, Sweeping(PauseFirst(base)), Pick(id), Sweeping(WaitLook(look)));
    var r2 := Goes(r1, base, t, Sweeping(WaitLook(look)), YES, Sweeping(LookAgain(look)));
    q := Goes(r2, base, t, Sweeping(LookAgain(look)), YES, Sweeping(Act(look)));
  }

  /* ── a chat deleted right after a wake ── */

  /** A node that has been up for a while, with no records. */
  predicate UpForAWhile(s: Node) {
    && Starts(s) && s.world.records == map[]
    && s.clock.cfg.pauseAfter <= s.clock.now - s.clock.started < s.clock.cfg.stopAfter
    && s.clock.cfg.removeAfter == 0
  }

  predicate Apart(t: nat, u: nat, v: nat) {
    t != u && t != v && u != v
  }

  /** The node after the wake, and after the deletion. */
  ghost function Woken(s: Node, t: nat, id: Id): Node {
    Put(s.(world := Touched(s.clock, s.world, id)), t, Finished)
  }

  ghost function Deleted(s: Node, t: nat, u: nat, id: Id): Node {
    var s1 := Woken(s, t, id);
    Put(s1.(world := Forget(Closed(s1.world, id), id)), u, Removing(id, DeleteContainer))
  }

  lemma PauseDueThen(s: Node, t: nat, u: nat, v: nat, id: Id)
    requires UpForAWhile(s) && id in s.world.containers && s.world.containers[id].Running? && Apart(t, u, v)
    ensures Deleted(s, t, u, id).locks == map[] && v !in Deleted(s, t, u, id).threads && PauseDue(Deleted(s, t, u, id), id)
  {
  }

  /** The promise to a wake needs the record: when the chat is deleted in between, and its
      record with it, the sweep pauses the sandbox at the very moment of the touch. */
  lemma RemovalBreaksPromise(s: Node, t: nat, u: nat, v: nat, id: Id) returns (r: Run, j: nat)
    requires UpForAWhile(s) && id in s.world.containers && s.world.containers[id].Running? && Apart(t, u, v)
    ensures IsRun(r) && r.states[0] == s && j + 1 < |r.labels| && TouchedAt(r, j, id)
    ensures PausesLast(r, id) && Last(r).clock.now == r.states[j].clock.now
  {
    var r1, r2;
    r1, j := WakeEnds(Run([s], []), s, t, id);
    r2 := DeletionStarts(r1, Woken(s, t, id), u, id);
    PauseDueThen(s, t, u, v, id);
    r := PausesNow(r2, Deleted(s, t, u, id), v, id);
    assert r.labels[j] == r1.labels[j] && r.states[j] == r1.states[j];
  }

  /** The last step of the run is a sweep's, and pauses the sandbox. */
  ghost predicate PausesLast(r: Run, id: Id)
    requires IsRun(r)
  {
    && r.labels != []
    && var l, s, s' := r.labels[|r.labels| - 1], r.states[|r.labels| - 1], Last(r);
    && id in s.world.containers && id in s'.world.containers
    && s.world.containers[id].Running? && s'.world.containers[id].Paused?
    && l.ByThread? && l.thread in s.threads && s.threads[l.thread].Sweeping?
  }

  lemma PausesNow(r: Run, base: Node, t: nat, id: Id) returns (q: Run)
    requires IsRun(r) && Last(r) == base && t !in base.threads && Wake(id) !in base.locks && PauseDue(base, id)
    ensures IsRun(q) && Extends(r, q) && |r.labels| < |q.labels| && PausesLast(q, id) && Last(q).clock == base.clock
  {
    var r1 := SweepListed(r, base, t);
    var r2 := SweepReaches(r1, base, t, id);
    q := Pauses(r2, base, t, PauseLook(base, id));
  }

  lemma Pauses(r: Run, base: Node, t: nat, look: Look) returns (q: Run)
    requires IsRun(r) && Last(r) == Put(base, t, Sweeping(Act(look))) && Wake(look.id) !in base.locks
    requires look.action.PauseIt? && look.id in base.world.containers && base.world.containers[look.id].Running?
    ensures IsRun(q) && Extends(r, q) && |r.labels| < |q.labels| && PausesLast(q, look.id) && Last(q).clock == base.clock
  {
    var w := base.world.(containers := DoPause(base.world.containers, look.id));
    q := Moves(r, base, t, Sweeping(Act(look)), YES, w, Sweeping(LeaveLook(look)));
    assert q.states[|r.labels|] == Last(r);
  }

  /* ── an ensure comes in between ── */

  function Opened(w: World, id: Id, h: nat): World {
    w.(spaces := w.spaces[id := h], works := w.works[h := Workspace(0, false)])
  }

  function Marked(k: Clock, w: World, h: nat): World {
    w.(works := w.works[h := Workspace(k.now, false)])
  }

  /** The node's world once an ensure has recorded the sandbox. */
  function Ensured(k: Clock, w: World, r: Request, h: nat): World {
    Remember(Marked(k, Opened(w, r.id, h), h), r.id, r.owner, !r.chat, k.now)
  }

  lemma EnsureOpens(r: Run, base: Node, t: nat, req: Request, h: nat) returns (q: Run)
    requires IsRun(r) && Last(r) == base && t !in base.threads
    requires req.id !in base.world.spaces && h !in base.world.works
    ensures IsRun(q) && Extends(r, q)
    ensures Last(q) == Put(base.(world := Opened(base.world, req.id, h)), t, Ensuring(req, h, WaitOp))
  {
    var r1 := Joins(r, base, t, OpenSpace(req));
    q := Moves(r1, base, t, OpenSpace(req), YES.(space := h), Opened(base.world, req.id, h), Ensuring(req, h, WaitOp));
  }

  lemma EnsureStarts(r: Run, base: Node, t: nat, req: Request, h: nat) returns (q: Run)
    requires IsRun(r) && Last(r) == base && t !in base.threads
    requires req.id !in base.world.spaces && h !in base.world.works && Op(h) !in base.locks
    ensures IsRun(q) && Extends(r, q)
    ensures Last(q) == Put(base.(world := Marked(base.clock, Opened(base.world, req.id, h), h)), t,
                           Ensuring(req, h, InspectFirst))
  {
    var started := base.(world := Opened(base.world, req.id, h));
    var r1 := EnsureOpens(r, base, t, req, h);
    var r2 := Goes(r1, started, t, Ensuring(req, h, WaitOp), YES, Ensuring(req, h, MarkActive));
    q := Moves(r2, started, t, Ensuring(req, h, MarkActive), YES, Marked(base.clock, started.world, h), Ensuring(req, h, InspectFirst));
  }

  lemma EnsureMerges(r: Run, base: Node, t: nat, req: Request, h: nat) returns (q: Run)
    requires IsRun(r) && Last(r) == Put(base, t, Ensuring(req, h, InspectFirst)) && Op(h) !in base.locks && req.limits == None
    ensures IsRun(q) && Extends(r, q) && Last(q) == Put(base, t, Ensuring(req, h, RememberIt))
  {
    assert base.world.(limits := Merge(base.world.limits, None)) == base.world;
    var r1 := Goes(r, base, t, Ensuring(req, h, InspectFirst), YES, Ensuring(req, h, MergeLimits));
    q := Goes(r1, base, t, Ensuring(req, h, MergeLimits), YES, Ensuring(req, h, RememberIt));
  }

  lemma EnsureGoesOn(r: Run, base: Node, t: nat, req: Request, h: nat) returns (q: Run)
    requires IsRun(r) && Last(r) == Put(base, t, Ensuring(req, h, InspectFirst)) && Op(h) !in base.locks && req.limits == None
    ensures IsRun(q) && Extends(r, q)
    ensures Last(q) == Put(base.(world := Remember(base.world, req.id, req.owner, !req.chat, base.clock.now)), t,
                           Waking(Call(req.id, Some(h)), WaitWake))
  {
    var r1 := EnsureMerges(r, base, t, req, h);
    q := Moves(r1, base, t, Ensuring(req, h, RememberIt), YES,
               Remember(base.world, req.id, req.owner, !req.chat, base.clock.now), Waking(Call(req.id, Some(h)), WaitWake));
  }

  /** An ensure of a sandbox without a workspace, up to its wake. */
  lemma EnsureComes(r: Run, base: Node, t: nat, req: Request, h: nat) returns (q: Run)
    requires IsRun(r) && Last(r) == base && t !in base.threads
    requires req.id !in base.world.spaces && h !in base.world.works && Op(h) !in base.locks && req.limits == None
    ensures IsRun(q) && Extends(r, q)
    ensures Last(q) == Put(base.(world := Ensured(base.clock, base.world, req, h)), t, Waking(Call(req.id, Some(h)), WaitWake))
  {
    var r1 := EnsureStarts(r, base, t, req, h);
    q := EnsureGoesOn(r1, base.(world := Marked(base.clock, Opened(base.world, req.id, h), h)), t, req, h);
  }

  lemma RelockBoth(locks: map<Lock, nat>, t: nat, a: set<Lock>, u: nat, b: set<Lock>)
    requires a !! b
    ensures Relock(Relock(locks, t, {}, a), u, {}, b) == Relock(Relock(locks, u, {}, b), t, {}, a)
  {
  }

  /** Two threads with different locks can be put in either order. */
  lemma PutBoth(s: Node, t: nat, p: Pc, u: nat, q: Pc, w: World)
    requires t != u && Holds(p) !! Holds(q)
    ensures Put(Put(s, t, p).(world := w), u, q) == Put(Put(s.(world := w), u, q), t, p)
  {
    assert s.threads[t := p][u := q] == s.threads[u := q][t := p];
    RelockBoth(s.locks, t, Holds(p), u, Holds(q));
  }

  /* ── a start over a cap ── */

  /** One sandbox awake, which is b's, and one stopped, which is a's; one may be awake of each
      person's. */
  ghost predicate OneEach(s: Node, x: Id, y: Id, a: string, b: string) {
    && Starts(s) && x != y && a != b && a != "" && b != ""
    && x in s.world.containers && s.world.containers[x].Exited? && Awake(s.world.containers) == {y}
    && OwnerOf(s.world, x) == a && OwnerOf(s.world, y) == b
    && s.world.limits.awakePerPerson == 1 && s.world.limits.awakePerNode > 1
  }

  lemma RoomEntered(r: Run, base: Node, t: nat, id: Id) returns (q: Run)
    requires IsRun(r) && Last(r) == Put(base, t, Waking(Call(id, None), InspectIt)) && base.locks == map[]
    requires id in base.world.containers && base.world.containers[id].Exited?
    ensures IsRun(q) && Extends(r, q) && Last(q) == Put(base, t, Rooming(Job(Call(id, None), Restart), ListAwake))
  {
    var call := Call(id, None);
    var r1 := Goes(r, base, t, Waking(call, InspectIt), YES, Rooming(Job(call, Restart), WaitRoom));
    q := Goes(r1, base, t, Rooming(Job(call, Restart), WaitRoom), YES, Rooming(Job(call, Restart), ListAwake));
  }

  lemma RoomListed(r: Run, base: Node, t: nat, id: Id) returns (q: Run)
    requires IsRun(r) && Last(r) == Put(base, t, Rooming(Job(Call(id, None), Restart), ListAwake)) && base.locks == map[]
    ensures IsRun(q) && Extends(r, q)
    ensures Last(q) == Put(base, t, Rooming(Job(Call(id, None), Restart),
                                            ReadBoxes(base.world.limits, base.clock.now, Awake(base.world.containers) - {id}, [])))
  {
    var job, todo := Job(Call(id, None), Restart), Awake(base.world.containers) - {id};
    var r1 := Goes(r, base, t, Rooming(job, ListAwake), YES, Rooming(job, ReadLimits(todo)));
    q := Goes(r1, base, t, Rooming(job, ReadLimits(todo)), YES, Rooming(job, ReadBoxes(base.world.limits, base.clock.now, todo, [])));
  }

  lemma NobodyEvicted(box: AwakeBox, owner: string, limits: Limits)
    requires box.owner != owner && owner != "" && limits.awakePerPerson == 1 && limits.awakePerNode > 1
    ensures IsPlan(All([box]), owner, limits.awakePerPerson, limits.awakePerNode, Evict([]))
  {
    assert All([box]) == {box} && Owned(All([box]), owner) == {} && All([]) == {};
    EvictionHolds(All([box]), owner, limits.awakePerPerson, limits.awakePerNode, {}, {}, []);
  }

  function KeptBox(s: Node, id: Id, y: Id): Kept {
    Kept(s.world.limits, OwnerOf(s.world, id), All([ReadBox(s.clock, s.world, y, s.clock.now)]) - All([]))
  }

  lemma RoomReads(r: Run, base: Node, t: nat, id: Id, y: Id) returns (q: Run)
    requires IsRun(r) && base.locks == map[]
    requires Last(r) == Put(base, t, Rooming(Job(Call(id, None), Restart), ReadBoxes(base.world.limits, base.clock.now, {y}, [])))
    ensures IsRun(q) && Extends(r, q)
    ensures Last(q) == Put(base, t, Rooming(Job(Call(id, None), Restart),
                                            ReadBoxes(base.world.limits, base.clock.now, {},
                                                      [ReadBox(base.clock, base.world, y, base.clock.now)])))
  {
    var job, limits, now := Job(Call(id, None), Restart), base.world.limits, base.clock.now;
    var box := ReadBox(base.clock, base.world, y, now);
    assert {y} - {y} == {} && [] + [box] == [box];
    q := Goes(r, base, t, Rooming(job, ReadBoxes(limits, now, {y}, [])), Pick(y), Rooming(job, ReadBoxes(limits, now, {}, [box])));
  }

  lemma PlansNothing(s: Node, id: Id, y: Id)
    requires OwnerOf(s.world, id) != "" && OwnerOf(s.world, y) != OwnerOf(s.world, id)
    requires s.world.limits.awakePerPerson == 1 && s.world.limits.awakePerNode > 1
    ensures var job := Job(Call(id, None), Restart);
            PlanStep(s.world, job, s.world.limits, [ReadBox(s.clock, s.world, y, s.clock.now)], YES)
            == Go(s.world, Rooming(job, StartIt(KeptBox(s, id, y))))
  {
    NobodyEvicted(ReadBox(s.clock, s.world, y, s.clock.now), OwnerOf(s.world, id), s.world.limits);
  }

  lemma PlansAtOnce(k: Clock, w: World, taken: set<Lock>, job: Job, limits: Limits, now: int, boxes: seq<AwakeBox>, next: Outcome)
    requires PlanStep(w, job, limits, boxes, YES) == next
    ensures Body(k, w, taken, Rooming(job, ReadBoxes(limits, now, {}, boxes)), YES) == next
  {
  }

  lemma RoomPlans(r: Run, base: Node, t: nat, id: Id, y: Id) returns (q: Run)
    requires IsRun(r) && base.locks == map[]
    requires Last(r) == Put(base, t, Rooming(Job(Call(id, None), Restart),
                                             ReadBoxes(base.world.limits, base.clock.now, {},
                                                       [ReadBox(base.clock, base.world, y, base.clock.now)])))
    requires OwnerOf(base.world, id) != "" && OwnerOf(base.world, y) != OwnerOf(base.world, id)
    requires base.world.limits.awakePerPerson == 1 && base.world.limits.awakePerNode > 1
    ensures IsRun(q) && Extends(r, q)
    ensures Last(q) == Put(base, t, Rooming(Job(Call(id, None), Restart), StartIt(KeptBox(base, id, y))))
  {
    var job, limits, now := Job(Call(id, None), Restart), base.world.limits, base.clock.now;
    var boxes, kept := [ReadBox(base.clock, base.world, y, now)], KeptBox(base, id, y);
    var before := Rooming(job, ReadBoxes(limits, now, {}, boxes));
    PlansNothing(base, id, y);
    PlansAtOnce(base.clock, base.world, Put(base, t, before).locks.Keys, job, limits, now, boxes,
                Go(base.world, Rooming(job, StartIt(kept))));
    q := Goes(r, base, t, before, YES, Rooming(job, StartIt(kept)));
  }

  /** The wake of x, up to its start: it has room for one more of a's. */
  lemma WakeMakesRoom(r: Run, s: Node, t: nat, x: Id, y: Id, a: string, b: string) returns (q: Run)
    requires OneEach(s, x, y, a, b) && IsRun(r) && Last(r) == s
    ensures var base := s.(world := Touched(s.clock, s.world, x));
            && IsRun(q) && Extends(r, q)
            && Last(q) == Put(base, t, Rooming(Job(Call(x, None), Restart), StartIt(KeptBox(base, x, y))))
  {
    var base := s.(world := Touched(s.clock, s.world, x));
    var r1, _ := WakeTouches(r, s, t, x);
    TouchedKeeps(s, x, y, a, b);
    q := RoomMade(r1, base, t, x, y);
  }

  lemma TouchedKeeps(s: Node, x: Id, y: Id, a: string, b: string)
    requires OneEach(s, x, y, a, b)
    ensures var w := Touched(s.clock, s.world, x);
            && w.containers == s.world.containers && w.limits == s.world.limits && OwnerOf(w, x) == a && OwnerOf(w, y) == b
  {
  }

  lemma RoomMade(r: Run, base: Node, t: nat, x: Id, y: Id) returns (q: Run)
    requires IsRun(r) && Last(r) == Put(base, t, Waking(Call(x, None), InspectIt)) && base.locks == map[] && x != y
    requires x in base.world.containers && base.world.containers[x].Exited? && Awake(base.world.containers) == {y}
    requires OwnerOf(base.world, x) != "" && OwnerOf(base.world, y) != OwnerOf(base.world, x)
    requires base.world.limits.awakePerPerson == 1 && base.world.limits.awakePerNode > 1
    ensures IsRun(q) && Extends(r, q)
    ensures Last(q) == Put(base, t, Rooming(Job(Call(x, None), Restart), StartIt(KeptBox(base, x, y))))
  {
    var r1 := RoomAsked(r, base, t, x, y);
    q := RoomPlans(r1, base, t, x, y);
  }

  lemma RoomAsked(r: Run, base: Node, t: nat, x: Id, y: Id) returns (q: Run)
    requires IsRun(r) && Last(r) == Put(base, t, Waking(Call(x, None), InspectIt)) && base.locks == map[] && x != y
    requires x in base.world.containers && base.world.containers[x].Exited? && Awake(base.world.containers) == {y}
    ensures IsRun(q) && Extends(r, q)
    ensures Last(q) == Put(base, t, Rooming(Job(Call(x, None), Restart),
                                            ReadBoxes(base.world.limits, base.clock.now, {},
                                                      [ReadBox(base.clock, base.world, y, base.clock.now)])))
  {
    var r1 := RoomEntered(r, base, t, x);
    var r2 := RoomListed(r1, base, t, x);
    assert Awake(base.world.containers) - {x} == {y};
    q := RoomReads(r2, base, t, x, y);
  }

  /** The ensure that records x as b's, while the wake stands at its start. */
  function EnsureFor(x: Id, b: string): Request {
    Request(x, b, false, None)
  }

  function BothDone(s: Node, x: Id, b: string, h: nat): World {
    Ensured(s.clock, Touched(s.clock, s.world, x), EnsureFor(x, b), h)
  }

  lemma StartsOver(s: Node, x: Id, y: Id, a: string, b: string, h: nat)
    requires OneEach(s, x, y, a, b)
    ensures var w := BothDone(s, x, b, h);
            && w.containers == s.world.containers && w.limits == s.world.limits && OwnerOf(w, x) == b && OwnerOf(w, y) == b
  {
  }

  lemma StartedBoth(w: World, w': World, x: Id, y: Id)
    requires Awake(w.containers) == {y} && w' == w.(containers := w.containers[x := Running])
    ensures Awake(w'.containers) == {x, y}
  {
    forall id
      ensures id in Awake(w'.containers) <==> id == x || id in Awake(w.containers)
    {
    }
  }

  lemma OwnersBoth(w: World, x: Id, y: Id, b: string)
    requires Awake(w.containers) == {x, y} && OwnerOf(w, x) == b && OwnerOf(w, y) == b
    ensures AwakeOf(w, b) == {x, y}
  {
    forall id
      ensures id in AwakeOf(w, b) <==> id == x || id == y
    {
      assert id in Awake(w.containers) <==> id == x || id == y;
    }
  }

  lemma BothOver(w: World, w': World, x: Id, y: Id, b: string)
    requires x != y && b != "" && x in w.containers && w.containers[x].Exited? && Awake(w.containers) == {y}
    requires w.limits.awakePerPerson == 1 && w.limits.awakePerNode > 1 && OwnerOf(w, x) == b && OwnerOf(w, y) == b
    requires w' == w.(containers := w.containers[x := Running])
    ensures WithinCaps(w) && !WithinCaps(w')
  {
    forall o
      ensures |AwakeOf(w, o)| <= 1
    {
      assert AwakeOf(w, o) <= {y};
      SubsetSize(AwakeOf(w, o), {y});
    }
    assert y in Awake(w.containers);
    StartedBoth(w, w', x, y);
    assert AwakeOf(w', b) == {x, y} by { OwnersBoth(w', x, y, b); }
  }

  /** The last step is a wake's start, and breaks a cap kept until then. */
  ghost predicate StartsOverCap(r: Run)
    requires IsRun(r)
  {
    && r.labels != []
    && var l, s := r.labels[|r.labels| - 1], r.states[|r.labels| - 1];
    && WithinCaps(s.world) && !WithinCaps(Last(r).world) && StartsIt(s, l)
  }

  predicate StartsIt(s: Node, l: Label) {
    l.ByThread? && l.thread in s.threads && Starting(s.threads[l.thread])
  }

  lemma StartsLast(r: Run, base: Node, t: nat, x: Id, y: Id, b: string, kept: Kept) returns (q: Run)
    requires IsRun(r) && Last(r) == Put(base, t, Rooming(Job(Call(x, None), Restart), StartIt(kept)))
    requires Wake(x) !in base.locks && TheRoom !in base.locks
    requires x in base.world.containers && base.world.containers[x].Exited? && Awake(base.world.containers) == {y}
    requires x != y && b != "" && OwnerOf(base.world, x) == b && OwnerOf(base.world, y) == b
    requires base.world.limits.awakePerPerson == 1 && base.world.limits.awakePerNode > 1
    ensures IsRun(q) && Extends(r, q) && StartsOverCap(q)
  {
    var w := base.world.(containers := base.world.containers[x := Running]);
    q := StartsNow(r, base, t, x, kept);
    BothOver(base.world, w, x, y, b);
  }

  lemma StartsNow(r: Run, base: Node, t: nat, x: Id, kept: Kept) returns (q: Run)
    requires IsRun(r) && Last(r) == Put(base, t, Rooming(Job(Call(x, None), Restart), StartIt(kept)))
    requires Wake(x) !in base.locks && TheRoom !in base.locks
    requires x in base.world.containers && base.world.containers[x].Exited?
    ensures IsRun(q) && Extends(r, q) && |q.labels| == |r.labels| + 1
    ensures q.states[|r.labels|].world == base.world && StartsIt(q.states[|r.labels|], q.labels[|r.labels|])
    ensures Last(q).world == base.world.(containers := base.world.containers[x := Running])
  {
    var job := Job(Call(x, None), Restart);
    var w := base.world.(containers := base.world.containers[x := Running]);
    q := Moves(r, base, t, Rooming(job, StartIt(kept)), YES, w, Rooming(job, LeaveRoom(true)));
    assert q.states[|r.labels|] == Last(r);
  }

  /** A start can take an owner over the cap: the wake made room for the owner it read, an
      ensure recorded another one while the sandbox slept, and that one had no free slot. */
  lemma StartBreaksCap(s: Node, x: Id, y: Id, a: string, b: string, t: nat, u: nat, h: nat) returns (r: Run)
    requires OneEach(s, x, y, a, b) && t != u
    ensures IsRun(r) && r.states[0] == s && StartsOverCap(r)
  {
    var base, w := s.(world := Touched(s.clock, s.world, x)), BothDone(s, x, b, h);
    var job := Job(Call(x, None), Restart);
    var starting, waiting := Rooming(job, StartIt(KeptBox(base, x, y))), Waking(Call(x, Some(h)), WaitWake);
    var r1 := WakeMakesRoom(Run([s], []), s, t, x, y, a, b);
    StartsOver(s, x, y, a, b, h);
    var r2 := EnsureComes(r1, Put(base, t, starting), u, EnsureFor(x, b), h);
    PutBoth(base, t, starting, u, waiting, w);
    r := StartsLast(r2, Put(base.(world := w), u, waiting), t, x, y, b, KeptBox(base, x, y));
  }

  /* ── a record taken from an ensure ── */

  /** One sandbox on record, without a container and quiet for long enough to be forgotten. */
  ghost predicate Forgettable(s: Node, id: Id) {
    && Starts(s) && s.world.containers == map[] && s.world.records.Keys == {id}
    && 0 < s.clock.cfg.forgetAfter <= QuietFor(s.clock.started, s.world, id, s.clock.now).0
  }

  function OldOne(s: Node, id: Id): Old {
    Old(id, {}, s.clock.now)
  }

  lemma ForgetPicked(r: Run, s: Node, t: nat, id: Id) returns (q: Run)
    requires Forgettable(s, id) && IsRun(r) && Last(r) == s
    ensures IsRun(q) && Extends(r, q) && Last(q) == Put(s, t, Forgetting(WaitOld(OldOne(s, id))))
  {
    assert s.world.records.Keys - s.world.containers.Keys == {id} && {id} - {id} == {};
    var r1 := SweepListed(r, s, t);
    var r2 := Goes(r1, s, t, Sweeping(PauseFirst(s)), YES, Forgetting(ListOld(s.world.containers, s.clock.now)));
    var r3 := Goes(r2, s, t, Forgetting(ListOld(s.world.containers, s.clock.now)), YES, Forgetting(PickOld({id}, s.clock.now)));
    q := Goes(r3, s, t, Forgetting(PickOld({id}, s.clock.now)), Pick(id), Forgetting(WaitOld(OldOne(s, id))));
  }

  lemma ForgetRead(r: Run, s: Node, t: nat, id: Id) returns (q: Run, quiet: int)
    requires Forgettable(s, id) && IsRun(r) && Last(r) == Put(s, t, Forgetting(WaitOld(OldOne(s, id))))
    ensures IsRun(q) && Extends(r, q) && quiet >= s.clock.cfg.forgetAfter
    ensures Last(q) == Put(s, t, Forgetting(InspectOld(OldOne(s, id), quiet, false)))
  {
    var o := OldOne(s, id);
    quiet := QuietFor(s.clock.started, s.world, id, s.clock.now).0;
    var r1 := Goes(r, s, t, Forgetting(WaitOld(o)), YES, Forgetting(ReadQuiet(o)));
    q := Goes(r1, s, t, Forgetting(ReadQuiet(o)), YES, Forgetting(InspectOld(o, quiet, false)));
  }

  lemma ForgetDropped(r: Run, s: Node, t: nat, id: Id) returns (q: Run)
    requires Forgettable(s, id) && IsRun(r) && Last(r) == Put(s, t, Forgetting(WaitOld(OldOne(s, id))))
    ensures IsRun(q) && Extends(r, q)
    ensures Last(q) == Put(s.(world := s.world.(volumes := s.world.volumes - {id})), t, Forgetting(DropRecord(OldOne(s, id))))
  {
    var o := OldOne(s, id);
    var r1, quiet := ForgetRead(r, s, t, id);
    var r2 := Goes(r1, s, t, Forgetting(InspectOld(o, quiet, false)), YES, Forgetting(DropVolume(o)));
    q := Moves(r2, s, t, Forgetting(DropVolume(o)), YES, s.world.(volumes := s.world.volumes - {id}), Forgetting(DropRecord(o)));
  }

  lemma ForgetChecked(r: Run, s: Node, t: nat, id: Id) returns (q: Run)
    requires Forgettable(s, id) && IsRun(r) && Last(r) == s
    ensures IsRun(q) && Extends(r, q)
    ensures Last(q) == Put(s.(world := s.world.(volumes := s.world.volumes - {id})), t, Forgetting(DropRecord(OldOne(s, id))))
  {
    var r1 := ForgetPicked(r, s, t, id);
    q := ForgetDropped(r1, s, t, id);
  }

  /** The last step drops a record made at that very moment, while the ensure that made it
      still waits to wake the sandbox. */
  ghost predicate DropsFreshRecord(r: Run, id: Id, owner: string)
    requires IsRun(r)
  {
    && r.labels != []
    && var s, s' := r.states[|r.labels| - 1], Last(r);
    && id in s.world.records && s.world.records[id].last == s.clock.now && s.world.records[id].owner == owner
    && id !in s'.world.records
    && exists u, h :: u in s'.threads && s'.threads[u] == Waking(Call(id, Some(h)), WaitWake)
  }

  lemma DropsLast(r: Run, base: Node, t: nat, u: nat, o: Old, owner: string, h: nat) returns (q: Run)
    requires IsRun(r) && Last(r) == Put(base, t, Forgetting(DropRecord(o))) && Wake(o.id) !in base.locks
    requires u != t && u in base.threads && base.threads[u] == Waking(Call(o.id, Some(h)), WaitWake)
    requires o.id in base.world.records && base.world.records[o.id].last == base.clock.now
    requires base.world.records[o.id].owner == owner
    ensures IsRun(q) && Extends(r, q) && DropsFreshRecord(q, o.id, owner)
  {
    q := Moves(r, base, t, Forgetting(DropRecord(o)), YES, Forget(base.world, o.id), Forgetting(LeaveOld(o)));
    assert q.states[|r.labels|] == Last(r);
    assert Last(q).threads[u] == Waking(Call(o.id, Some(h)), WaitWake);
  }

  /** A forget that has made its check takes the record an ensure made after it. */
  lemma ForgetTakesRecord(s: Node, id: Id, owner: string, t: nat, u: nat, h: nat) returns (r: Run)
    requires Forgettable(s, id) && owner != "" && t != u
    ensures IsRun(r) && r.states[0] == s && DropsFreshRecord(r, id, owner)
  {
    var o, req := OldOne(s, id), EnsureFor(id, owner);
    var base := s.(world := s.world.(volumes := s.world.volumes - {id}));
    var dropping, waiting := Forgetting(DropRecord(o)), Waking(Call(id, Some(h)), WaitWake);
    var w := Ensured(s.clock, base.world, req, h);
    var r1 := ForgetChecked(Run([s], []), s, t, id);
    var r2 := EnsureComes(r1, Put(base, t, dropping), u, req, h);
    PutBoth(base, t, dropping, u, waiting, w);
    r := DropsLast(r2, Put(base.(world := w), u, waiting), t, u, o, owner, h);
  }
}
