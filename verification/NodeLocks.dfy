/** Locks of the sandbox node: every lock has the one holder its thread's point says,
    and no interleaving deadlocks. */
module NodeLocks {
  import opened Common
  import opened Room
  import opened Node

  /** The lock table and the threads agree. */
  ghost predicate LocksAgree(locks: map<Lock, nat>, threads: map<nat, Pc>) {
    && (forall l :: l in locks ==> locks[l] in threads && l in Holds(threads[locks[l]]))
    && (forall t, l :: t in threads && l in Holds(threads[t]) ==> l in locks && locks[l] == t)
  }

  lemma RelockAt(locks: map<Lock, nat>, t: nat, had: set<Lock>, want: set<Lock>, l: Lock)
    ensures var after := Relock(locks, t, had, want);
            && (l in want ==> l in after && after[l] == t)
            && (l !in want ==> (l in after <==> l in locks && l !in had) && (l in after ==> after[l] == locks[l]))
  {
  }

  lemma HeldAfter(locks: map<Lock, nat>, threads: map<nat, Pc>, t: nat, want: set<Lock>, l: Lock)
    requires LocksAgree(locks, threads) && t in threads
    requires l in Relock(locks, t, Holds(threads[t]), want) && l !in want
    ensures var u := Relock(locks, t, Holds(threads[t]), want)[l]; u != t && u in threads && l in Holds(threads[u])
  {
    RelockAt(locks, t, Holds(threads[t]), want, l);
  }

  lemma KeptAfter(locks: map<Lock, nat>, threads: map<nat, Pc>, t: nat, want: set<Lock>, u: nat, l: Lock)
    requires LocksAgree(locks, threads) && t in threads && u in threads && u != t && l in Holds(threads[u])
    requires l in want && l in locks ==> locks[l] == t
    ensures l in Relock(locks, t, Holds(threads[t]), want) && Relock(locks, t, Holds(threads[t]), want)[l] == u
  {
    assert l in locks && locks[l] == u;
    assert l !in Holds(threads[t]) && l !in want;
    RelockAt(locks, t, Holds(threads[t]), want, l);
  }

  lemma HoldersAfter(locks: map<Lock, nat>, threads: map<nat, Pc>, t: nat, pc: Pc, want: set<Lock>, l: Lock)
    requires LocksAgree(locks, threads) && t in threads && want == Holds(pc)
    requires l in Relock(locks, t, Holds(threads[t]), want)
    ensures var u, now := Relock(locks, t, Holds(threads[t]), want)[l], threads[t := pc]; u in now && l in Holds(now[u])
  {
    if l in want {
      RelockAt(locks, t, Holds(threads[t]), want, l);
    } else {
      HeldAfter(locks, threads, t, want, l);
    }
  }

  lemma HeldByHolder(locks: map<Lock, nat>, threads: map<nat, Pc>, t: nat, pc: Pc, want: set<Lock>, u: nat, l: Lock)
    requires LocksAgree(locks, threads) && t in threads && want == Holds(pc)
    requires l in want && l in locks ==> locks[l] == t
    requires var now := threads[t := pc]; u in now && l in Holds(now[u])
    ensures l in Relock(locks, t, Holds(threads[t]), want) && Relock(locks, t, Holds(threads[t]), want)[l] == u
  {
    if u == t {
      RelockAt(locks, t, Holds(threads[t]), want, l);
    } else {
      KeptAfter(locks, threads, t, want, u, l);
    }
  }

  /** A thread that takes only free locks keeps the table right. */
  lemma RelockAgrees(locks: map<Lock, nat>, threads: map<nat, Pc>, t: nat, pc: Pc, want: set<Lock>)
    requires LocksAgree(locks, threads) && t in threads && want == Holds(pc)
    requires forall l :: l in want && l in locks ==> locks[l] == t
    ensures LocksAgree(Relock(locks, t, Holds(threads[t]), want), threads[t := pc])
  {
    var after, now := Relock(locks, t, Holds(threads[t]), want), threads[t := pc];
    forall l | l in after
      ensures after[l] in now && l in Holds(now[after[l]])
    {
      HoldersAfter(locks, threads, t, pc, want, l);
    }
    forall u, l | u in now && l in Holds(now[u])
      ensures l in after && after[l] == u
    {
      HeldByHolder(locks, threads, t, pc, want, u, l);
    }
  }

  lemma StepKeepsLocks(s: Node, l: Label, s': Node)
    requires LocksAgree(s.locks, s.threads) && Step(s, l, s')
    ensures LocksAgree(s'.locks, s'.threads)
  {
    match l
    case ByThread(t, c) =>
      var next := Body(s.clock, s.world, s.locks.Keys, s.threads[t], c);
      RelockAgrees(s.locks, s.threads, t, next.pc, Holds(next.pc));
    case ByEvent(e) =>
      if e.Arrives? {
        assert Holds(e.pc) == {};
      }
  }

  /** Every state of every run has its locks in order. */
  lemma {:induction false} RunKeepsLocks(r: Run, i: nat)
    requires IsRun(r) && i < |r.states|
    ensures LocksAgree(r.states[i].locks, r.states[i].threads)
  {
    if i > 0 {
      RunKeepsLocks(r, i - 1);
      assert StepAt(r, i - 1);
      StepKeepsLocks(r.states[i - 1], r.labels[i - 1], r.states[i]);
    }
  }

  /* ── no deadlock ── */

  /** A lock's place in the order op, wakeLock, room. */
  function Rank(l: Lock): nat {
    match l
    case Op(_) => 0
    case Wake(_) => 1
    case TheRoom => 2
  }

  /** Every blocking acquisition climbs: the lock waited for comes after every lock held. */
  lemma WaitsClimb(pc: Pc)
    ensures WaitsFor(pc).Some? ==> forall l :: l in Holds(pc) ==> Rank(l) < Rank(WaitsFor(pc).value)
  {
  }

  predicate Blocked(s: Node, t: nat)
    requires t in s.threads
  {
    var w := WaitsFor(s.threads[t]);
    w.Some? && w.value in s.locks
  }

  /** Of blocked threads, whoever holds what a thread waits for waits for something
      higher; the ranks end, so some unfinished thread is not blocked. */
  lemma {:induction false} SomeoneIsFree(s: Node, t: nat) returns (u: nat)
    requires LocksAgree(s.locks, s.threads) && t in s.threads && !s.threads[t].Finished?
    ensures u in s.threads && !s.threads[u].Finished? && !Blocked(s, u)
    decreases if Blocked(s, t) then 3 - Rank(WaitsFor(s.threads[t]).value) else 0
  {
    if !Blocked(s, t) {
      u := t;
    } else {
      var l := WaitsFor(s.threads[t]).value;
      var holder := s.locks[l];
      assert l in Holds(s.threads[holder]);
      WaitsClimb(s.threads[holder]);
      u := SomeoneIsFree(s, holder);
    }
  }

  /* ── a thread that is not blocked can step ── */

  lemma MinusOneMore(s: set<AwakeBox>, taken: set<AwakeBox>, x: AwakeBox)
    requires x in s - taken
    ensures s - (taken + {x}) == (s - taken) - {x} && |s - (taken + {x})| == |s - taken| - 1
  {
    assert s - (taken + {x}) == (s - taken) - {x};
  }

  lemma {:induction false} OldestSubset(members: set<AwakeBox>, taken: set<AwakeBox>, m: nat) returns (extra: set<AwakeBox>)
    requires m <= |Idle(members) - taken|
    ensures extra <= Idle(members) - taken && |extra| == m
    ensures OldestFirst(extra, members, taken + extra)
    decreases m
  {
    if m == 0 {
      extra := {};
    } else {
      var x := LongestQuiet(Idle(members) - taken);
      MinusOneMore(Idle(members), taken, x);
      var rest := OldestSubset(members, taken + {x}, m - 1);
      extra := rest + {x};
      assert taken + {x} + rest == taken + extra;
    }
  }

  lemma {:induction false} LongestQuiet(boxes: set<AwakeBox>) returns (x: AwakeBox)
    requires boxes != {}
    ensures x in boxes && forall b :: b in boxes ==> x.quiet >= b.quiet
    decreases |boxes|
  {
    x :| x in boxes;
    if boxes != {x} {
      assert boxes - {x} != {};
      var y := LongestQuiet(boxes - {x});
      if y.quiet > x.quiet { x := y; }
    }
  }

  lemma {:induction false} ListOf(members: set<AwakeBox>) returns (boxes: seq<AwakeBox>)
    ensures Lists(boxes, members)
    decreases |members|
  {
    if members == {} {
      boxes := [];
    } else {
      var x :| x in members;
      var rest := ListOf(members - {x});
      ListAppend(rest, members - {x}, x);
      boxes := rest + [x];
      assert members - {x} + {x} == members;
    }
  }

  /** One cap: the oldest idle members down to one free slot, or all of them when that is not enough. */
  lemma SomeTaking(members: set<AwakeBox>, limit: int, taken0: set<AwakeBox>) returns (extra: set<AwakeBox>, ok: bool)
    requires limit > 0
    ensures Took(members, limit, taken0 + extra, extra, ok) && extra <= Idle(members)
  {
    var need := |members - taken0| - limit + 1;
    var idle := Idle(members) - taken0;
    var m := if need <= 0 then 0 else if need <= |idle| then need else |idle|;
    extra := OldestSubset(members, taken0, m);
    assert members - (taken0 + extra) == (members - taken0) - extra;
    assert |members - (taken0 + extra)| == |members - taken0| - m;
    if m == |idle| {
      assert extra == idle by { SameSize(extra, idle); }
    }
    ok := |members - (taken0 + extra)| < limit;
  }

  lemma SameSize(a: set<AwakeBox>, b: set<AwakeBox>)
    requires a <= b && |a| == |b|
    ensures a == b
  {
    if b - a != {} {
      var x :| x in b - a;
      SubsetSize(a, b - {x});
    }
  }

  /** There always is a plan: an eviction or a refusal. */
  lemma SomePlan(awake: set<AwakeBox>, owner: string, perPerson: int, perNode: int) returns (plan: RoomPlan)
    ensures IsPlan(awake, owner, perPerson, perNode, plan)
  {
    var first: set<AwakeBox>, ok := {}, true;
    if CapsPerson(owner, perPerson) {
      first, ok := SomeTaking(Owned(awake, owner), perPerson, {});
      assert {} + first == first;
    }
    if !ok {
      var still := ListOf(Owned(awake, owner) - first);
      RefusalHolds(awake, owner, perPerson, perNode, true, first, still);
      plan := Refuse(RoomRefusal(true, perPerson, still));
    } else {
      plan := SomeNodePlan(awake, owner, perPerson, perNode, first);
    }
  }

  lemma SomeNodePlan(awake: set<AwakeBox>, owner: string, perPerson: int, perNode: int, first: set<AwakeBox>)
    returns (plan: RoomPlan)
    requires first <= Idle(awake)
    requires if CapsPerson(owner, perPerson) then Took(Owned(awake, owner), perPerson, first, first, true) else first == {}
    ensures IsPlan(awake, owner, perPerson, perNode, plan)
  {
    var more: set<AwakeBox>, ok := {}, true;
    if perNode > 0 {
      more, ok := SomeTaking(awake, perNode, first);
    }
    if !ok {
      var still := ListOf(awake - (first + more));
      RefusalHolds(awake, owner, perPerson, perNode, false, first + more, still);
      plan := Refuse(RoomRefusal(false, perNode, still));
    } else {
      var evict := ListOf(first + more);
      EvictionHolds(awake, owner, perPerson, perNode, first, more, evict);
      plan := Evict(evict);
    }
  }

  lemma {:induction false} UnusedNumber(used: set<nat>) returns (n: nat)
    ensures forall m :: m in used ==> m < n
    decreases |used|
  {
    n := 0;
    if used != {} {
      var x :| x in used;
      var below := UnusedNumber(used - {x});
      n := if x >= below then x + 1 else below;
      assert forall m :: m in used ==> m == x || m in used - {x};
    }
  }

  /** An unfinished thread has a step to make, which takes no lock but the one it
      waits for or has just tried. */
  lemma HasStep(k: Clock, w: World, taken: set<Lock>, pc: Pc) returns (c: Choice)
    requires !pc.Finished?
    ensures var next := Body(k, w, taken, pc, c);
            next.Go? && forall l :: l in Holds(next.pc) - Holds(pc) ==> WaitsFor(pc) == Some(l) || l !in taken
  {
    var space := UnusedNumber(w.works.Keys);
    c := Choice(false, false, "", Evict([]), space);
    match pc
    case Sweeping(at) =>
      if at.PickOne? && at.todo != map[] {
        var id :| id in at.todo;
        c := c.(pick := id);
      }
    case Forgetting(at) =>
      if at.PickOld? && at.ids != {} {
        var id :| id in at.ids;
        c := c.(pick := id);
      }
    case Rooming(job, at) => c := RoomHasStep(k, w, taken, job, at, c);
    case _ =>
  }

  lemma EvictHasStep(k: Clock, w: World, taken: set<Lock>, job: Job, kept: Kept, queue: seq<Id>, at: EvictAt, c: Choice)
    requires !c.ok
    ensures var pc := Rooming(job, Evicting(kept, queue, at)); var next := EvictStep(w, taken, job, kept, queue, at, c);
            next.Go? && forall l :: l in Holds(next.pc) - Holds(pc) ==> l !in taken
  {
  }

  /** What a thread holds in the room, while it evicts nothing. */
  function InRoom(job: Job): set<Lock> {
    OpLocks(job.call) + (if job.kind.Fresh? then {} else {Wake(job.call.id)}) + {TheRoom}
  }

  lemma HoldsInRoom(job: Job, at: RoomAt)
    requires !at.WaitRoom? && (at.Evicting? ==> at.at.TryIt?)
    ensures Holds(Rooming(job, at)) == InRoom(job)
  {
  }

  lemma PlanHasStep(w: World, job: Job, limits: Limits, boxes: seq<AwakeBox>, c: Choice)
    requires IsPlan(All(boxes), OwnerOf(w, job.call.id), limits.awakePerPerson, limits.awakePerNode, c.plan)
    ensures var next := PlanStep(w, job, limits, boxes, c); next.Go? && Holds(next.pc) == InRoom(job)
  {
    if c.plan.Evict? {
      var kept := Kept(limits, OwnerOf(w, job.call.id), All(boxes) - All(c.plan.boxes));
      HoldsInRoom(job, AfterEvictions(job, kept, BoxIds(c.plan.boxes)));
    } else {
      HoldsInRoom(job, LeaveRoom(false));
    }
  }

  lemma BoxesHaveStep(k: Clock, w: World, taken: set<Lock>, job: Job, at: RoomAt, c0: Choice) returns (c: Choice)
    requires at.ReadBoxes?
    ensures var next := RoomStep(k, w, taken, job, at, c); next.Go? && Holds(next.pc) == InRoom(job)
  {
    c := c0;
    if at.todo == {} {
      var plan := SomePlan(All(at.boxes), OwnerOf(w, job.call.id), at.limits.awakePerPerson, at.limits.awakePerNode);
      c := c.(plan := plan);
      PlanHasStep(w, job, at.limits, at.boxes, c);
    } else {
      var id :| id in at.todo;
      c := c.(pick := id);
      HoldsInRoom(job, RoomStep(k, w, taken, job, at, c).pc.roomAt);
    }
  }

  lemma RoomHasStep(k: Clock, w: World, taken: set<Lock>, job: Job, at: RoomAt, c0: Choice) returns (c: Choice)
    requires !c0.ok
    ensures var pc := Rooming(job, at); var next := RoomStep(k, w, taken, job, at, c);
            next.Go? && forall l :: l in Holds(next.pc) - Holds(pc) ==> WaitsFor(pc) == Some(l) || l !in taken
  {
    c := c0;
    match at
    case Evicting(kept, queue, evictAt) => EvictHasStep(k, w, taken, job, kept, queue, evictAt, c);
    case ReadBoxes(_, _, _, _) =>
      c := BoxesHaveStep(k, w, taken, job, at, c);
      HoldsInRoom(job, at);
    case _ =>
  }

  /** No interleaving deadlocks: while a thread is unfinished, some thread can step. */
  lemma NoDeadlock(r: Run, i: nat, t: nat) returns (u: nat, c: Choice, s': Node)
    requires IsRun(r) && i < |r.states|
    requires t in r.states[i].threads && !r.states[i].threads[t].Finished?
    ensures u in r.states[i].threads && !r.states[i].threads[u].Finished? && StepOf(r.states[i], u, c, s')
  {
    var s := r.states[i];
    RunKeepsLocks(r, i);
    u := SomeoneIsFree(s, t);
    c := HasStep(s.clock, s.world, s.locks.Keys, s.threads[u]);
    var next := Body(s.clock, s.world, s.locks.Keys, s.threads[u], c);
    s' := Node(s.clock, next.world, Relock(s.locks, u, Holds(s.threads[u]), Holds(next.pc)), s.threads[u := next.pc]);
  }
}
