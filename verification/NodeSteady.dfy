/** The awake caps as an invariant: while limits are never lowered and nobody's awake
    sandbox is given to another owner, a node that began within its caps stays within them. */
module NodeSteady {
  import opened Common
  import opened Room
  import opened Node
  import opened NodeLocks
  import opened NodeCaps

  function KeptOf(at: RoomAt): Option<Kept> {
    match at
    case Evicting(kept, _, _) => Some(kept)
    case MakeVolume(kept) => Some(kept)
    case StartIt(kept) => Some(kept)
    case _ => None
  }

  /** A thread has read this sandbox's owner and may be about to start it. */
  ghost predicate Committed(s: Node, id: Id) {
    exists t :: t in s.threads && s.threads[t].Rooming? && s.threads[t].job.call.id == id && KeptOf(s.threads[t].roomAt).Some?
  }

  /** A step that lowers no limit and gives no sandbox that is awake, or about to be, to
      another owner. Losing its owner, as when its chat is deleted, is no change of owner. */
  ghost predicate Steady(s: Node, s': Node) {
    && s.world.limits.awakePerPerson <= s'.world.limits.awakePerPerson
    && s.world.limits.awakePerNode <= s'.world.limits.awakePerNode
    && forall id :: id in Awake(s.world.containers) || Committed(s, id) ==>
         OwnerOf(s'.world, id) == OwnerOf(s.world, id) || OwnerOf(s'.world, id) == ""
  }

  ghost predicate SteadyAt(r: Run, i: nat)
    requires i + 1 < |r.states|
  {
    Steady(r.states[i], r.states[i + 1])
  }

  ghost predicate SteadyRun(r: Run) {
    IsRun(r) && forall i :: 0 <= i < |r.labels| ==> SteadyAt(r, i)
  }

  /* ── what was read still holds ── */

  predicate LimitsRead(l: Limits, w: World) {
    0 < l.awakePerPerson <= w.limits.awakePerPerson && 0 < l.awakePerNode <= w.limits.awakePerNode
  }

  ghost predicate ReadsHold(w: World, id: Id, at: RoomAt) {
    && (at.ReadBoxes? ==> LimitsRead(at.limits, w) && OwnersAsRead(w, id, All(at.boxes)))
    && (KeptOf(at).Some? ==>
          var kept := KeptOf(at).value;
          && LimitsRead(kept.limits, w) && OwnersAsRead(w, id, kept.boxes)
          && (OwnerOf(w, id) == kept.owner || OwnerOf(w, id) == ""))
  }

  ghost predicate AllReadsHold(s: Node) {
    && LimitsRead(s.world.limits, s.world)
    && forall t :: t in s.threads && s.threads[t].Rooming? ==>
         ReadsHold(s.world, s.threads[t].job.call.id, s.threads[t].roomAt)
  }

  lemma PlannedReads(w: World, job: Job, kept: Kept, queue: seq<Id>, boxes: set<AwakeBox>)
    requires LimitsRead(kept.limits, w) && OwnersAsRead(w, job.call.id, boxes)
    requires kept.owner == OwnerOf(w, job.call.id) && kept.boxes <= boxes
    ensures ReadsHold(w, job.call.id, AfterEvictions(job, kept, queue))
  {
  }

  lemma PlanReads(w: World, job: Job, limits: Limits, boxes: seq<AwakeBox>, c: Choice)
    requires LimitsRead(limits, w) && OwnersAsRead(w, job.call.id, All(boxes))
    ensures var next := PlanStep(w, job, limits, boxes, c);
            next.Go? ==> next.pc.Rooming? && ReadsHold(next.world, job.call.id, next.pc.roomAt)
  {
    if c.plan.Evict? {
      var kept := Kept(limits, OwnerOf(w, job.call.id), All(boxes) - All(c.plan.boxes));
      PlannedReads(w, job, kept, BoxIds(c.plan.boxes), All(boxes));
    }
  }

  lemma ReadReads(k: Clock, w: World, job: Job, boxes: seq<AwakeBox>, now: int, id: Id)
    requires OwnersAsRead(w, job.call.id, All(boxes))
    ensures OwnersAsRead(w, job.call.id, All(boxes + [ReadBox(k, w, id, now)]))
  {
    AllAppend(boxes, ReadBox(k, w, id, now));
  }

  lemma EvictReads(w: World, taken: set<Lock>, job: Job, kept: Kept, queue: seq<Id>, at: EvictAt, c: Choice)
    requires ReadsHold(w, job.call.id, Evicting(kept, queue, at))
    ensures var next := EvictStep(w, taken, job, kept, queue, at, c);
            next.Go? ==> next.pc.Rooming? && ReadsHold(next.world, job.call.id, next.pc.roomAt)
  {
    var next := EvictStep(w, taken, job, kept, queue, at, c);
    if next.Go? {
      assert Awake(next.world.containers) <= Awake(w.containers);
    }
  }

  lemma RoomStepReads(k: Clock, w: World, taken: set<Lock>, job: Job, at: RoomAt, c: Choice)
    requires ReadsHold(w, job.call.id, at) && LimitsRead(w.limits, w)
    ensures var next := RoomStep(k, w, taken, job, at, c);
            next.Go? && next.pc.Rooming? ==>
              next.pc.job.call.id == job.call.id && ReadsHold(next.world, job.call.id, next.pc.roomAt)
  {
    match at
    case ReadLimits(_) => assert All([]) == {};
    case ReadBoxes(limits, now, todo, boxes) =>
      if todo == {} {
        PlanReads(w, job, limits, boxes, c);
      } else {
        ReadReads(k, w, job, boxes, now, c.pick);
      }
    case Evicting(kept, queue, evictAt) => EvictReads(w, taken, job, kept, queue, evictAt, c);
    case _ =>
  }

  lemma BodyReads(k: Clock, w: World, taken: set<Lock>, pc: Pc, c: Choice)
    requires LimitsRead(w.limits, w)
    requires pc.Rooming? ==> ReadsHold(w, pc.job.call.id, pc.roomAt)
    ensures var next := Body(k, w, taken, pc, c);
            next.Go? && next.pc.Rooming? ==> ReadsHold(next.world, next.pc.job.call.id, next.pc.roomAt)
  {
    if pc.Rooming? {
      RoomStepReads(k, w, taken, pc.job, pc.roomAt, c);
    }
  }

  /** Another thread's reads outlive a steady step that wakes nothing. */
  lemma OthersReads(s: Node, s': Node, t: nat)
    requires t in s.threads && s.threads[t].Rooming? && Steady(s, s')
    requires Awake(s'.world.containers) <= Awake(s.world.containers)
    requires ReadsHold(s.world, s.threads[t].job.call.id, s.threads[t].roomAt)
    ensures ReadsHold(s'.world, s.threads[t].job.call.id, s.threads[t].roomAt)
  {
    var id := s.threads[t].job.call.id;
    if KeptOf(s.threads[t].roomAt).Some? {
      assert Committed(s, id);
    }
  }

  /** A thread that has read anything has the room. */
  lemma ReadersHaveRoom(w: World, pc: Pc)
    requires pc.Rooming? && TheRoom !in Holds(pc)
    ensures ReadsHold(w, pc.job.call.id, pc.roomAt)
  {
  }

  /** A step of one thread, seen from another in the room's business. */
  lemma OtherThreadReads(s: Node, t: nat, c: Choice, s': Node, u: nat)
    requires LocksAgree(s.locks, s.threads) && AllReadsHold(s) && StepOf(s, t, c, s') && Steady(s, s')
    requires u != t && u in s.threads && s.threads[u].Rooming?
    ensures ReadsHold(s'.world, s.threads[u].job.call.id, s.threads[u].roomAt)
  {
    StepAwake(s.clock, s.world, s.locks.Keys, s.threads[t], c);
    if Starting(s.threads[t]) {
      OneInRoom(s.locks, s.threads, t, u);
      ReadersHaveRoom(s'.world, s.threads[u]);
    } else {
      OthersReads(s, s', u);
    }
  }

  lemma StepReads(s: Node, l: Label, s': Node)
    requires LocksAgree(s.locks, s.threads) && AllReadsHold(s) && Step(s, l, s') && Steady(s, s')
    ensures AllReadsHold(s')
  {
    forall u | u in s'.threads && s'.threads[u].Rooming?
      ensures ReadsHold(s'.world, s'.threads[u].job.call.id, s'.threads[u].roomAt)
    {
      match l
      case ByThread(t, c) =>
        if u == t {
          BodyReads(s.clock, s.world, s.locks.Keys, s.threads[t], c);
        } else {
          OtherThreadReads(s, t, c, s', u);
        }
      case ByEvent(e) =>
        EventAwake(s.world, s.clock.now, e);
        assert u in s.threads && s.threads[u] == s'.threads[u];
        OthersReads(s, s', u);
    }
  }

  lemma {:induction false} RunReads(r: Run, i: nat)
    requires SteadyRun(r) && i < |r.states|
    ensures AllReadsHold(r.states[i])
  {
    if i > 0 {
      RunReads(r, i - 1);
      RunKeepsLocks(r, i - 1);
      assert StepAt(r, i - 1) && SteadyAt(r, i - 1);
      StepReads(r.states[i - 1], r.labels[i - 1], r.states[i]);
    }
  }

  /* ── the caps ── */

  lemma FewerAwake(s: Node, s': Node)
    requires WithinCaps(s.world) && Steady(s, s')
    requires Awake(s'.world.containers) <= Awake(s.world.containers)
    ensures WithinCaps(s'.world)
  {
    SubsetSize(Awake(s'.world.containers), Awake(s.world.containers));
    forall owner | owner != ""
      ensures |AwakeOf(s'.world, owner)| <= s'.world.limits.awakePerPerson
    {
      SubsetSize(AwakeOf(s'.world, owner), AwakeOf(s.world, owner));
    }
  }

  /** A start changes no record and no limit. */
  lemma StartKeepsRecords(w: World, job: Job, c: Choice)
    ensures var next := StartStep(w, job, c);
            next.Go? ==> next.world.records == w.records && next.world.limits == w.limits
  {
  }

  lemma StartWithinCaps(w: World, w': World, id: Id, kept: Kept)
    requires WithinCaps(w) && w'.records == w.records && w'.limits == w.limits
    requires Awake(w'.containers) <= Awake(w.containers) + {id}
    requires RoomKnows(Awake(w.containers), id, StartIt(kept)) && ReadsHold(w, id, StartIt(kept))
    ensures WithinCaps(w')
  {
    var awake' := Awake(w'.containers);
    StartFits(w, awake', id, kept);
    forall owner | owner != ""
      ensures |AwakeOf(w', owner)| <= w'.limits.awakePerPerson
    {
      if owner == kept.owner {
        SubsetSize(AwakeOf(w', owner), set x | x in awake' && (x == id || OwnerOf(w, x) == kept.owner));
      } else {
        SubsetSize(AwakeOf(w', owner), AwakeOf(w, owner));
      }
    }
  }

  lemma StepWithinCaps(s: Node, l: Label, s': Node)
    requires Step(s, l, s') && Steady(s, s')
    requires ThreadsKnow(s) && AllReadsHold(s) && WithinCaps(s.world)
    ensures WithinCaps(s'.world)
  {
    match l
    case ByThread(t, c) =>
      var pc := s.threads[t];
      StepAwake(s.clock, s.world, s.locks.Keys, pc, c);
      if Starting(pc) {
        StartKeepsRecords(s.world, pc.job, c);
        StartWithinCaps(s.world, s'.world, pc.job.call.id, pc.roomAt.kept);
      } else {
        FewerAwake(s, s');
      }
    case ByEvent(e) =>
      EventAwake(s.world, s.clock.now, e);
      FewerAwake(s, s');
  }

  lemma SteadyStep(r: Run, i: nat)
    requires SteadyRun(r) && i < |r.labels|
    ensures IsRun(r) && |r.states| == |r.labels| + 1
    ensures Step(r.states[i], r.labels[i], r.states[i + 1]) && Steady(r.states[i], r.states[i + 1])
  {
    assert StepAt(r, i) && SteadyAt(r, i);
  }

  /** With limits never lowered and owners fixed, the caps are an invariant of every run
      that began within them. */
  lemma {:induction false} CapsInvariant(r: Run, i: nat)
    requires SteadyRun(r) && i < |r.states| && WithinCaps(r.states[0].world)
    ensures WithinCaps(r.states[i].world)
  {
    if i > 0 {
      var s, l, s' := r.states[i - 1], r.labels[i - 1], r.states[i];
      SteadyStep(r, i - 1);
      CapsInvariant(r, i - 1);
      RunKnows(r, i - 1);
      RunReads(r, i - 1);
      StepWithinCaps(s, l, s');
    }
  }

  /* ── why owners must be fixed ── */

  /** What of an owner's is awake after another record. */
  lemma AwakeAfterRemember(w: World, id: Id, owner: string, hasRepo: bool, now: int, o: string)
    requires owner != ""
    ensures AwakeOf(Remember(w, id, owner, hasRepo, now), o) ==
            if o != owner then AwakeOf(w, o) - {id}
            else if id in Awake(w.containers) then AwakeOf(w, o) + {id}
            else AwakeOf(w, o)
  {
  }

  lemma SameOwner(w: World, id: Id, hasRepo: bool, now: int, o: string)
    ensures AwakeOf(Remember(w, id, "", hasRepo, now), o) == AwakeOf(w, o)
  {
  }

  /** Recording an owner keeps the caps exactly when it changes nothing for an awake
      sandbox, or the new owner has a free slot. */
  lemma RememberKeepsCapsIff(w: World, id: Id, owner: string, hasRepo: bool, now: int)
    requires WithinCaps(w)
    ensures WithinCaps(Remember(w, id, owner, hasRepo, now)) <==> RememberGuard(w, id, owner)
  {
    var w' := Remember(w, id, owner, hasRepo, now);
    if owner == "" {
      forall o ensures AwakeOf(w', o) == AwakeOf(w, o) { SameOwner(w, id, hasRepo, now, o); }
    } else {
      forall o | o != "" && o != owner
        ensures |AwakeOf(w', o)| <= w'.limits.awakePerPerson
      {
        AwakeAfterRemember(w, id, owner, hasRepo, now, o);
        SubsetSize(AwakeOf(w', o), AwakeOf(w, o));
      }
      AwakeAfterRemember(w, id, owner, hasRepo, now, owner);
    }
  }

  /* ── exactly which steps break the caps ── */

  /** There is a free slot for this sandbox, on the node and for whoever owns it now. */
  ghost predicate SlotFor(w: World, id: Id) {
    && |Awake(w.containers)| < w.limits.awakePerNode
    && (OwnerOf(w, id) != "" ==> |AwakeOf(w, OwnerOf(w, id))| < w.limits.awakePerPerson)
  }

  lemma AwakeOneMore(w: World, w': World, id: Id, o: string)
    requires w'.records == w.records && id !in Awake(w.containers)
    requires Awake(w'.containers) == Awake(w.containers) + {id}
    ensures |Awake(w'.containers)| == |Awake(w.containers)| + 1
    ensures |AwakeOf(w', o)| == |AwakeOf(w, o)| + (if o == OwnerOf(w, id) then 1 else 0)
  {
    assert AwakeOf(w', o) == AwakeOf(w, o) + (if o == OwnerOf(w, id) then {id} else {});
  }

  lemma OneMoreAwake(w: World, w': World, id: Id)
    requires WithinCaps(w) && w'.records == w.records && w'.limits == w.limits && id !in Awake(w.containers)
    requires Awake(w'.containers) == Awake(w.containers) + {id}
    ensures WithinCaps(w') <==> SlotFor(w, id)
  {
    AwakeOneMore(w, w', id, OwnerOf(w, id));
    if SlotFor(w, id) {
      forall o | o != ""
        ensures |AwakeOf(w', o)| <= w'.limits.awakePerPerson
      {
        AwakeOneMore(w, w', id, o);
      }
    }
  }

  /** A start keeps the caps exactly when it wakes nothing new, or there is a free slot on
      the node and for the owner recorded by then, whoever it was when room was made. */
  lemma StartKeepsCapsIff(w: World, job: Job, c: Choice)
    requires WithinCaps(w) && StartStep(w, job, c).Go?
    ensures var w', id := StartStep(w, job, c).world, job.call.id;
            WithinCaps(w') <==> id in Awake(w.containers) || id !in Awake(w'.containers) || SlotFor(w, id)
  {
    var w', id := StartStep(w, job, c).world, job.call.id;
    StartWakes(w, job, c);
    StartKeepsRecords(w, job, c);
    if id in Awake(w'.containers) && id !in Awake(w.containers) {
      OneMoreAwake(w, w', id);
    } else {
      LessAwake(w, w');
    }
  }

  lemma StartWakes(w: World, job: Job, c: Choice)
    requires StartStep(w, job, c).Go?
    ensures var before, after, id := Awake(w.containers), Awake(StartStep(w, job, c).world.containers), job.call.id;
            if id in after && id !in before then after == before + {id} else after <= before
  {
  }

  /** Nothing new is awake, no limit is lower, and a sandbox has the owner it had, or none. */
  lemma LessAwake(w: World, w': World)
    requires WithinCaps(w) && w'.limits == w.limits && Awake(w'.containers) <= Awake(w.containers)
    requires forall id :: OwnerOf(w', id) == OwnerOf(w, id) || OwnerOf(w', id) == ""
    ensures WithinCaps(w')
  {
    SubsetSize(Awake(w'.containers), Awake(w.containers));
    forall owner | owner != ""
      ensures |AwakeOf(w', owner)| <= w'.limits.awakePerPerson
    {
      SubsetSize(AwakeOf(w', owner), AwakeOf(w, owner));
    }
  }

  /** The steps that can break a cap: recording an owner, setting limits and starting. */
  predicate CanBreakCaps(pc: Pc) {
    Starting(pc) || (pc.Ensuring? && (pc.ensureAt.MergeLimits? || pc.ensureAt.RememberIt?))
  }

  lemma OwnersKept(k: Clock, w: World, taken: set<Lock>, pc: Pc, c: Choice, id: Id)
    requires !CanBreakCaps(pc)
    ensures var next := Body(k, w, taken, pc, c);
            next.Go? ==> next.world.limits == w.limits
                         && (OwnerOf(next.world, id) == OwnerOf(w, id) || OwnerOf(next.world, id) == "")
  {
    match pc
    case Rooming(job, at) => RoomKeepsOwners(k, w, taken, job, at, c);
    case Waking(call, at) => WakeKeepsOwners(k, w, call, at, c, id);
    case Sweeping(at) => SweepKeepsOwners(k, w, at, c, id);
    case Forgetting(at) => ForgetKeepsOwners(k, w, at, c, id);
    case Removing(removed, at) => RemoveKeepsOwners(w, removed, at, c, id);
    case _ =>
  }

  lemma RoomKeepsOwners(k: Clock, w: World, taken: set<Lock>, job: Job, at: RoomAt, c: Choice)
    ensures var next := RoomStep(k, w, taken, job, at, c);
            next.Go? ==> next.world.records == w.records && next.world.limits == w.limits
  {
  }

  lemma WakeKeepsOwners(k: Clock, w: World, call: Call, at: WakeAt, c: Choice, id: Id)
    ensures var next := WakeStep(k, w, call, at, c);
            next.Go? ==> next.world.limits == w.limits && OwnerOf(next.world, id) == OwnerOf(w, id)
  {
  }

  lemma SweepKeepsOwners(k: Clock, w: World, at: SweepAt, c: Choice, id: Id)
    ensures var next := SweepStep(k, w, at, c);
            next.Go? ==> next.world.limits == w.limits && OwnerOf(next.world, id) == OwnerOf(w, id)
  {
  }

  lemma ForgetKeepsOwners(k: Clock, w: World, at: ForgetAt, c: Choice, id: Id)
    ensures var next := ForgetStep(k, w, at, c);
            next.Go? ==> next.world.limits == w.limits
                         && (OwnerOf(next.world, id) == OwnerOf(w, id) || OwnerOf(next.world, id) == "")
  {
  }

  lemma RemoveKeepsOwners(w: World, removed: Id, at: RemoveAt, c: Choice, id: Id)
    ensures var next := RemoveStep(w, removed, at, c);
            next.Go? ==> next.world.limits == w.limits
                         && (OwnerOf(next.world, id) == OwnerOf(w, id) || OwnerOf(next.world, id) == "")
  {
  }

  lemma OthersKeepCaps(k: Clock, w: World, taken: set<Lock>, pc: Pc, c: Choice)
    requires WithinCaps(w) && !CanBreakCaps(pc) && Body(k, w, taken, pc, c).Go?
    ensures WithinCaps(Body(k, w, taken, pc, c).world)
  {
    var w' := Body(k, w, taken, pc, c).world;
    StepAwake(k, w, taken, pc, c);
    forall id
      ensures OwnerOf(w', id) == OwnerOf(w, id) || OwnerOf(w', id) == ""
    {
      OwnersKept(k, w, taken, pc, c, id);
    }
    OwnersKept(k, w, taken, pc, c, "");
    LessAwake(w, w');
  }

  lemma EventKeepsCaps(w: World, now: int, e: Event)
    requires WithinCaps(w)
    ensures WithinCaps(WorldAfter(w, now, e))
  {
    EventAwake(w, now, e);
    LessAwake(w, WorldAfter(w, now, e));
  }

  /** What a step from this point needs to keep the caps, given what is awake after it. */
  ghost predicate GuardAt(w: World, pc: Pc, after: set<Id>) {
    match pc
    case Ensuring(r, _, at) =>
      && (at.RememberIt? ==> RememberGuard(w, r.id, r.owner))
      && (at.MergeLimits? ==> WithinLimits(w, Merge(w.limits, r.limits)))
    case Rooming(job, at) =>
      at.StartIt? ==> job.call.id in Awake(w.containers) || job.call.id !in after || SlotFor(w, job.call.id)
    case _ => true
  }

  /** What each step needs to keep the caps. */
  ghost predicate CapsGuard(s: Node, l: Label, s': Node) {
    l.ByThread? && l.thread in s.threads ==> GuardAt(s.world, s.threads[l.thread], Awake(s'.world.containers))
  }

  ghost predicate RememberGuard(w: World, id: Id, owner: string) {
    owner == "" || id !in Awake(w.containers) || OwnerOf(w, id) == owner || |AwakeOf(w, owner)| < w.limits.awakePerPerson
  }

  /** What is awake is within these limits. */
  ghost predicate WithinLimits(w: World, l: Limits) {
    && |Awake(w.containers)| <= l.awakePerNode
    && forall owner :: owner != "" ==> |AwakeOf(w, owner)| <= l.awakePerPerson
  }

  lemma MergeKeepsCapsIff(w: World, l: Limits)
    ensures WithinCaps(w.(limits := l)) <==> WithinLimits(w, l)
  {
    var w' := w.(limits := l);
    forall o
      ensures AwakeOf(w', o) == AwakeOf(w, o)
    {
    }
  }

  lemma BodyKeepsCapsIff(k: Clock, w: World, taken: set<Lock>, pc: Pc, c: Choice)
    requires WithinCaps(w) && Body(k, w, taken, pc, c).Go?
    ensures var w' := Body(k, w, taken, pc, c).world;
            WithinCaps(w') <==> GuardAt(w, pc, Awake(w'.containers))
  {
    if !CanBreakCaps(pc) {
      OthersKeepCaps(k, w, taken, pc, c);
    } else if pc.Rooming? {
      StartKeepsCapsIff(w, pc.job, c);
    } else if pc.ensureAt.RememberIt? {
      RememberKeepsCapsIff(w, pc.request.id, pc.request.owner, !pc.request.chat, k.now);
    } else {
      MergeKeepsCapsIff(w, Merge(w.limits, pc.request.limits));
    }
  }

  /** Of all steps, exactly those break the caps whose guard is not met: a start or a new
      owner with no free slot for the owner recorded then, and limits below what is awake. */
  lemma StepKeepsCapsIff(s: Node, l: Label, s': Node)
    requires Step(s, l, s') && WithinCaps(s.world)
    ensures WithinCaps(s'.world) <==> CapsGuard(s, l, s')
  {
    match l
    case ByThread(t, c) => BodyKeepsCapsIff(s.clock, s.world, s.locks.Keys, s.threads[t], c);
    case ByEvent(e) => EventKeepsCaps(s.world, s.clock.now, e);
  }

  lemma StepOfRun(r: Run, i: nat)
    requires IsRun(r) && i < |r.labels|
    ensures i + 1 < |r.states| && Step(r.states[i], r.labels[i], r.states[i + 1])
  {
    assert StepAt(r, i);
  }

  /** A run that began within the caps leaves them first at a step whose guard is not met. */
  lemma {:induction false} FirstBroken(r: Run, n: nat) returns (i: nat)
    requires IsRun(r) && n < |r.states| && WithinCaps(r.states[0].world) && !WithinCaps(r.states[n].world)
    ensures i < n && WithinCaps(r.states[i].world) && !CapsGuard(r.states[i], r.labels[i], r.states[i + 1])
    decreases n
  {
    if WithinCaps(r.states[n - 1].world) {
      i := n - 1;
      StepOfRun(r, i);
      StepKeepsCapsIff(r.states[i], r.labels[i], r.states[n]);
    } else {
      i := FirstBroken(r, n - 1);
    }
  }
}
