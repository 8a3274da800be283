/** The awake caps over every interleaving of wakes, ensures, sweeps, removals and
    container exits. */
module NodeCaps {
  import opened Common
  import opened Room
  import opened Node
  import opened NodeLocks

  function AwakeOf(w: World, owner: string): set<Id> {
    set id | id in Awake(w.containers) && OwnerOf(w, id) == owner
  }

  /** Within the caps: fewer sandboxes awake than the node's limit allows, and of each person's. */
  ghost predicate WithinCaps(w: World) {
    && |Awake(w.containers)| <= w.limits.awakePerNode
    && forall owner :: owner != "" ==> |AwakeOf(w, owner)| <= w.limits.awakePerPerson
  }

  /* ── what a step does to the set of awake sandboxes ── */

  /** The one point where a sandbox becomes awake. */
  predicate Starting(pc: Pc) {
    pc.Rooming? && pc.roomAt.StartIt?
  }

  lemma RoomAwake(k: Clock, w: World, taken: set<Lock>, job: Job, at: RoomAt, c: Choice)
    ensures var next := RoomStep(k, w, taken, job, at, c);
            next.Go? ==> Awake(next.world.containers) <= Awake(w.containers) + (if at.StartIt? then {job.call.id} else {})
  {
  }

  lemma SweepAwake(k: Clock, w: World, at: SweepAt, c: Choice)
    ensures var next := SweepStep(k, w, at, c);
            next.Go? ==> Awake(next.world.containers) <= Awake(w.containers)
  {
  }

  /** Only the start or creation a thread makes room for wakes anything, and only its own sandbox. */
  lemma StepAwake(k: Clock, w: World, taken: set<Lock>, pc: Pc, c: Choice)
    ensures var next := Body(k, w, taken, pc, c);
            next.Go? ==> Awake(next.world.containers) <= Awake(w.containers) + (if Starting(pc) then {pc.job.call.id} else {})
  {
    match pc
    case Rooming(job, at) => RoomAwake(k, w, taken, job, at, c);
    case Sweeping(at) => SweepAwake(k, w, at, c);
    case _ =>
  }

  lemma EventAwake(w: World, now: int, e: Event)
    ensures Awake(WorldAfter(w, now, e).containers) <= Awake(w.containers)
  {
  }

  /* ── what the thread in the room knows ── */

  function Ids(boxes: set<AwakeBox>): set<Id> {
    set b | b in boxes :: b.id
  }

  function Members(queue: seq<Id>): set<Id> {
    set id | id in queue
  }

  /** The boxes kept awake leave a free slot under both caps. */
  ghost predicate KeptFits(kept: Kept) {
    && (kept.limits.awakePerNode > 0 ==> |kept.boxes| < kept.limits.awakePerNode)
    && (CapsPerson(kept.owner, kept.limits.awakePerPerson) ==>
          |Owned(kept.boxes, kept.owner)| < kept.limits.awakePerPerson)
  }

  /** Of the other sandboxes, at most these are awake while the thread has the room. */
  ghost predicate RoomKnows(awake: set<Id>, id: Id, at: RoomAt) {
    match at
    case ReadLimits(todo) => awake - {id} <= todo
    case ReadBoxes(_, _, todo, boxes) => awake - {id} <= todo + Ids(All(boxes))
    case Evicting(kept, queue, evictAt) =>
      && KeptFits(kept)
      && awake - {id} <= Ids(kept.boxes) + Members(queue)
      && (evictAt == LeaveBox(true) && queue != [] ==> awake - {id} <= Ids(kept.boxes) + Members(queue[1..]))
    case MakeVolume(kept) => KeptFits(kept) && awake - {id} <= Ids(kept.boxes)
    case StartIt(kept) => KeptFits(kept) && awake - {id} <= Ids(kept.boxes)
    case _ => true
  }

  ghost predicate ThreadsKnow(s: Node) {
    forall t :: t in s.threads && s.threads[t].Rooming? ==>
      RoomKnows(Awake(s.world.containers), s.threads[t].job.call.id, s.threads[t].roomAt)
  }

  /** A sandbox among the boxes read is kept or in the queue to be stopped. */
  lemma KeptOrQueued(boxes: set<AwakeBox>, evict: seq<AwakeBox>, id: Id)
    requires id in Ids(boxes)
    ensures id in Ids(boxes - All(evict)) + Members(BoxIds(evict))
  {
    var b :| b in boxes && b.id == id;
    if b in All(evict) {
      MemberOfAll(evict, b);
      var i :| 0 <= i < |evict| && evict[i] == b;
      assert BoxIds(evict)[i] == id;
    }
  }

  lemma PlannedFits(boxes: set<AwakeBox>, owner: string, limits: Limits, evict: seq<AwakeBox>)
    requires MakesRoom(boxes, owner, limits.awakePerPerson, limits.awakePerNode, All(evict))
    ensures KeptFits(Kept(limits, owner, boxes - All(evict)))
  {
    assert Owned(boxes - All(evict), owner) == Owned(boxes, owner) - All(evict);
  }

  lemma PlanKnows(w: World, job: Job, limits: Limits, boxes: seq<AwakeBox>, c: Choice)
    requires Awake(w.containers) - {job.call.id} <= Ids(All(boxes))
    ensures var next := PlanStep(w, job, limits, boxes, c);
            next.Go? ==> next.world == w && next.pc.Rooming? && next.pc.job == job && RoomKnows(Awake(w.containers), job.call.id, next.pc.roomAt)
  {
    var next := PlanStep(w, job, limits, boxes, c);
    if next.Go? && c.plan.Evict? {
      PlannedFits(All(boxes), OwnerOf(w, job.call.id), limits, c.plan.boxes);
      forall id | id in Awake(w.containers) - {job.call.id}
        ensures id in Ids(All(boxes) - All(c.plan.boxes)) + Members(BoxIds(c.plan.boxes))
      {
        KeptOrQueued(All(boxes), c.plan.boxes, id);
      }
      PlannedKnows(Awake(w.containers), job, Kept(limits, OwnerOf(w, job.call.id), All(boxes) - All(c.plan.boxes)), BoxIds(c.plan.boxes));
    }
  }

  lemma PlannedKnows(awake: set<Id>, job: Job, kept: Kept, queue: seq<Id>)
    requires KeptFits(kept) && awake - {job.call.id} <= Ids(kept.boxes) + Members(queue)
    ensures RoomKnows(awake, job.call.id, AfterEvictions(job, kept, queue))
  {
    assert queue == [] ==> Members(queue) == {};
  }

  lemma EvictKnows(w: World, taken: set<Lock>, job: Job, kept: Kept, queue: seq<Id>, at: EvictAt, c: Choice)
    requires RoomKnows(Awake(w.containers), job.call.id, Evicting(kept, queue, at))
    ensures var next := EvictStep(w, taken, job, kept, queue, at, c);
            next.Go? ==> next.pc.Rooming? && RoomKnows(Awake(next.world.containers), job.call.id, next.pc.roomAt)
  {
    if queue != [] {
      assert Members(queue) == {queue[0]} + Members(queue[1..]);
    } else {
      assert Members(queue) == {};
    }
  }

  lemma ReadKnows(k: Clock, w: World, job: Job, limits: Limits, now: int, todo: set<Id>, boxes: seq<AwakeBox>, id: Id)
    requires id in todo && RoomKnows(Awake(w.containers), job.call.id, ReadBoxes(limits, now, todo, boxes))
    ensures RoomKnows(Awake(w.containers), job.call.id, ReadBoxes(limits, now, todo - {id}, boxes + [ReadBox(k, w, id, now)]))
  {
    var box := ReadBox(k, w, id, now);
    AllAppend(boxes, box);
    assert Ids(All(boxes) + {box}) == Ids(All(boxes)) + {id};
  }

  lemma RoomStepKnows(k: Clock, w: World, taken: set<Lock>, job: Job, at: RoomAt, c: Choice)
    requires RoomKnows(Awake(w.containers), job.call.id, at)
    ensures var next := RoomStep(k, w, taken, job, at, c);
            next.Go? && next.pc.Rooming? ==>
              next.pc.job.call.id == job.call.id && RoomKnows(Awake(next.world.containers), job.call.id, next.pc.roomAt)
  {
    match at
    case ReadBoxes(limits, now, todo, boxes) =>
      if todo == {} {
        PlanKnows(w, job, limits, boxes, c);
      } else if c.pick in todo {
        ReadKnows(k, w, job, limits, now, todo, boxes, c.pick);
      }
    case Evicting(kept, queue, evictAt) => EvictKnows(w, taken, job, kept, queue, evictAt, c);
    case _ =>
  }

  /** What a thread knows stays true while nothing else wakes. */
  lemma KnowsLess(awake: set<Id>, fewer: set<Id>, id: Id, at: RoomAt)
    requires RoomKnows(awake, id, at) && fewer <= awake
    ensures RoomKnows(fewer, id, at)
  {
  }

  lemma BodyKnows(k: Clock, w: World, taken: set<Lock>, pc: Pc, c: Choice)
    requires pc.Rooming? ==> RoomKnows(Awake(w.containers), pc.job.call.id, pc.roomAt)
    ensures var next := Body(k, w, taken, pc, c);
            next.Go? && next.pc.Rooming? ==> RoomKnows(Awake(next.world.containers), next.pc.job.call.id, next.pc.roomAt)
  {
    if pc.Rooming? {
      RoomStepKnows(k, w, taken, pc.job, pc.roomAt, c);
    }
  }

  /** While a thread starts its container, no other one has the room. */
  lemma OneInRoom(locks: map<Lock, nat>, threads: map<nat, Pc>, t: nat, u: nat)
    requires LocksAgree(locks, threads) && t in threads && u in threads && u != t && Starting(threads[t])
    ensures TheRoom !in Holds(threads[u])
  {
    assert TheRoom in Holds(threads[t]);
    assert locks[TheRoom] == t;
  }

  lemma OutsideKnows(awake: set<Id>, pc: Pc)
    requires pc.Rooming? && TheRoom !in Holds(pc)
    ensures RoomKnows(awake, pc.job.call.id, pc.roomAt)
  {
  }

  /** A step of one thread, seen from another in the room's business. */
  lemma OtherThreadKnows(s: Node, t: nat, c: Choice, s': Node, u: nat)
    requires LocksAgree(s.locks, s.threads) && ThreadsKnow(s) && StepOf(s, t, c, s')
    requires u != t && u in s.threads && s.threads[u].Rooming?
    ensures RoomKnows(Awake(s'.world.containers), s.threads[u].job.call.id, s.threads[u].roomAt)
  {
    var pc := s.threads[u];
    StepAwake(s.clock, s.world, s.locks.Keys, s.threads[t], c);
    if Starting(s.threads[t]) {
      OneInRoom(s.locks, s.threads, t, u);
      OutsideKnows(Awake(s'.world.containers), pc);
    } else {
      KnowsLess(Awake(s.world.containers), Awake(s'.world.containers), pc.job.call.id, pc.roomAt);
    }
  }

  lemma StepKnows(s: Node, l: Label, s': Node)
    requires LocksAgree(s.locks, s.threads) && ThreadsKnow(s) && Step(s, l, s')
    ensures ThreadsKnow(s')
  {
    forall u | u in s'.threads && s'.threads[u].Rooming?
      ensures RoomKnows(Awake(s'.world.containers), s'.threads[u].job.call.id, s'.threads[u].roomAt)
    {
      match l
      case ByThread(t, c) =>
        if u == t {
          BodyKnows(s.clock, s.world, s.locks.Keys, s.threads[t], c);
        } else {
          OtherThreadKnows(s, t, c, s', u);
        }
      case ByEvent(e) =>
        var pc := s'.threads[u];
        EventAwake(s.world, s.clock.now, e);
        assert u in s.threads && s.threads[u] == pc;
        KnowsLess(Awake(s.world.containers), Awake(s'.world.containers), pc.job.call.id, pc.roomAt);
    }
  }

  lemma {:induction false} RunKnows(r: Run, i: nat)
    requires IsRun(r) && i < |r.states|
    ensures ThreadsKnow(r.states[i])
  {
    if i > 0 {
      RunKnows(r, i - 1);
      RunKeepsLocks(r, i - 1);
      assert StepAt(r, i - 1);
      StepKnows(r.states[i - 1], r.labels[i - 1], r.states[i]);
    }
  }

  /* ── the caps when a wake starts or creates a container ── */

  /** Each sandbox still awake has the recorded owner the wake read, or none by now. */
  ghost predicate OwnersAsRead(w: World, id: Id, boxes: set<AwakeBox>) {
    forall b :: b in boxes && b.id in Awake(w.containers) && b.id != id ==> OwnerOf(w, b.id) == b.owner || OwnerOf(w, b.id) == ""
  }

  lemma {:induction false} IdsAtMost(boxes: set<AwakeBox>)
    ensures |Ids(boxes)| <= |boxes|
  {
    if boxes != {} {
      var x :| x in boxes;
      IdsAtMost(boxes - {x});
      assert Ids(boxes) <= Ids(boxes - {x}) + {x.id};
      SubsetSize(Ids(boxes), Ids(boxes - {x}) + {x.id});
    }
  }

  /** A cap left with a free slot is not exceeded by one more. */
  lemma OneMoreFits(after: set<Id>, id: Id, boxes: set<AwakeBox>, limit: int)
    requires after <= Ids(boxes) + {id} && |boxes| < limit
    ensures |after| <= limit
  {
    IdsAtMost(boxes);
    SubsetSize(after, Ids(boxes) + {id});
  }

  lemma StartFits(w: World, awake': set<Id>, id: Id, kept: Kept)
    requires RoomKnows(Awake(w.containers), id, StartIt(kept))
    requires awake' <= Awake(w.containers) + {id}
    ensures kept.limits.awakePerNode > 0 ==> |awake'| <= kept.limits.awakePerNode
    ensures CapsPerson(kept.owner, kept.limits.awakePerPerson) && OwnersAsRead(w, id, kept.boxes) ==>
              |set x | x in awake' && (x == id || OwnerOf(w, x) == kept.owner)| <= kept.limits.awakePerPerson
  {
    if kept.limits.awakePerNode > 0 {
      OneMoreFits(awake', id, kept.boxes, kept.limits.awakePerNode);
    }
    if CapsPerson(kept.owner, kept.limits.awakePerPerson) && OwnersAsRead(w, id, kept.boxes) {
      var theirs := set x | x in awake' && (x == id || OwnerOf(w, x) == kept.owner);
      forall x | x in theirs && x != id
        ensures x in Ids(Owned(kept.boxes, kept.owner))
      {
        assert x in Ids(kept.boxes);
        var b :| b in kept.boxes && b.id == x;
        assert b in Owned(kept.boxes, kept.owner);
      }
      OneMoreFits(theirs, id, Owned(kept.boxes, kept.owner), kept.limits.awakePerPerson);
    }
  }

  /** In every interleaving: when a wake or an ensure starts or creates a container, at
      most the node's limit of sandboxes is then awake, and at most the person's limit
      of those recorded as its owner's, by the limits and owners that wake read. */
  lemma CapsHoldAtStart(r: Run, i: nat, t: nat, c: Choice)
    requires IsRun(r) && i < |r.labels| && r.labels[i] == ByThread(t, c)
    requires t in r.states[i].threads && Starting(r.states[i].threads[t])
    ensures var s, s' := r.states[i], r.states[i + 1];
            var id, kept := s.threads[t].job.call.id, s.threads[t].roomAt.kept;
            && (kept.limits.awakePerNode > 0 ==> |Awake(s'.world.containers)| <= kept.limits.awakePerNode)
            && (CapsPerson(kept.owner, kept.limits.awakePerPerson) && OwnersAsRead(s.world, id, kept.boxes) ==>
                  |set x | x in Awake(s'.world.containers) && (x == id || OwnerOf(s.world, x) == kept.owner)|
                    <= kept.limits.awakePerPerson)
  {
    var s, s' := r.states[i], r.states[i + 1];
    assert StepAt(r, i);
    RunKnows(r, i);
    StepAwake(s.clock, s.world, s.locks.Keys, s.threads[t], c);
    StartFits(s.world, Awake(s'.world.containers), s.threads[t].job.call.id, s.threads[t].roomAt.kept);
  }
}
