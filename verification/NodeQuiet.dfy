/** What the sweep may do to a sandbox after a wake: nothing until it has been quiet long
    enough since the wake's touch, even when the sweep acts on a stale listing. */
module NodeQuiet {
  import opened Common
  import opened Room
  import opened Node
  import opened NodeLocks

  /** How long a sandbox must have been quiet for each action. */
  function Threshold(cfg: SleepConfig, a: Action): int {
    match a
    case StayAwake => 0
    case PauseIt => cfg.pauseAfter
    case StopIt => cfg.stopAfter
    case RemoveIt => cfg.removeAfter
  }

  /** The policy sleeps only an idle sandbox, each step no earlier than the one before it. */
  lemma DecideWaits(state: Container, busy: bool, quiet: int, cfg: SleepConfig)
    requires OrderedThresholds(cfg)
    ensures var a := Decide(state, busy, quiet, cfg);
            a != StayAwake ==> !busy && quiet >= Threshold(cfg, a) >= cfg.pauseAfter
  {
  }

  /* ── the touch of a wake is on record ── */

  predicate WokenRecorded(w: World, now: int) {
    && now > 0
    && forall id :: id in w.woken ==> id in w.records && 0 < w.woken[id] <= w.records[id].last && w.woken[id] <= now
  }

  lemma WakeKeepsWoken(k: Clock, w: World, call: Call, at: WakeAt, c: Choice)
    requires WokenRecorded(w, k.now)
    ensures var next := WakeStep(k, w, call, at, c);
            next.Go? ==> WokenRecorded(next.world, k.now)
  {
  }

  lemma SweepKeepsWoken(k: Clock, w: World, at: SweepAt, c: Choice)
    requires WokenRecorded(w, k.now)
    ensures var next := SweepStep(k, w, at, c);
            next.Go? ==> WokenRecorded(next.world, k.now)
  {
  }

  lemma EnsureKeepsWoken(k: Clock, w: World, r: Request, h: nat, at: EnsureAt, c: Choice)
    requires WokenRecorded(w, k.now)
    ensures var next := EnsureStep(k, w, r, h, at, c);
            next.Go? ==> WokenRecorded(next.world, k.now)
  {
  }

  lemma ForgetKeepsWoken(k: Clock, w: World, at: ForgetAt, c: Choice)
    requires WokenRecorded(w, k.now)
    ensures var next := ForgetStep(k, w, at, c);
            next.Go? ==> WokenRecorded(next.world, k.now)
  {
  }

  lemma RemoveKeepsWoken(k: Clock, w: World, id: Id, at: RemoveAt, c: Choice)
    requires WokenRecorded(w, k.now)
    ensures var next := RemoveStep(w, id, at, c); next.Go? ==> WokenRecorded(next.world, k.now)
  {
  }

  lemma BodyKeepsWoken(k: Clock, w: World, taken: set<Lock>, pc: Pc, c: Choice)
    requires WokenRecorded(w, k.now)
    ensures var next := Body(k, w, taken, pc, c);
            next.Go? ==> WokenRecorded(next.world, k.now)
  {
    match pc
    case Rooming(job, at) => RoomKeepsRecords(k, w, taken, job, at, c);
    case Waking(call, at) => WakeKeepsWoken(k, w, call, at, c);
    case Sweeping(at) => SweepKeepsWoken(k, w, at, c);
    case Ensuring(r, h, at) => EnsureKeepsWoken(k, w, r, h, at, c);
    case Forgetting(at) => ForgetKeepsWoken(k, w, at, c);
    case Removing(id, at) => RemoveKeepsWoken(k, w, id, at, c);
    case _ =>
  }

  lemma RoomKeepsRecords(k: Clock, w: World, taken: set<Lock>, job: Job, at: RoomAt, c: Choice)
    ensures var next := RoomStep(k, w, taken, job, at, c);
            next.Go? ==> next.world.records == w.records && next.world.woken == w.woken
  {
  }

  lemma StepKeepsWoken(s: Node, l: Label, s': Node)
    requires WokenRecorded(s.world, s.clock.now) && Step(s, l, s')
    ensures WokenRecorded(s'.world, s'.clock.now)
  {
    match l
    case ByThread(t, c) => BodyKeepsWoken(s.clock, s.world, s.locks.Keys, s.threads[t], c);
    case ByEvent(e) =>
  }

  predicate Touching(pc: Pc, id: Id) {
    pc.Waking? && pc.wakeAt.TouchIt? && pc.call.id == id
  }

  /** Only a wake's touch under the sandbox's wake lock moves its mark. */
  lemma WokenMoves(k: Clock, w: World, taken: set<Lock>, pc: Pc, c: Choice, id: Id)
    requires !Touching(pc, id)
    ensures var next := Body(k, w, taken, pc, c);
            next.Go? && id in next.world.woken ==> id in w.woken && next.world.woken[id] == w.woken[id]
    ensures var next := Body(k, w, taken, pc, c);
            next.Go? && id in w.woken && id !in next.world.woken ==> id !in next.world.records
  {
    if pc.Rooming? {
      RoomKeepsRecords(k, w, taken, pc.job, pc.roomAt, c);
    }
  }

  /* ── what the sweep found under the wake lock ── */

  /** If a wake touched this sandbox, it was at least so long ago. */
  predicate LongAgo(w: World, now: int, id: Id, wait: int) {
    id in w.woken ==> w.woken[id] + wait <= now
  }

  /** The action is due, and no wake touched the sandbox too recently for it. */
  predicate MaySleep(k: Clock, w: World, look: Look) {
    look.action != StayAwake ==>
      Threshold(k.cfg, look.action) >= k.cfg.pauseAfter && LongAgo(w, k.now, look.id, Threshold(k.cfg, look.action))
  }

  predicate SweepSaw(k: Clock, w: World, pc: Pc) {
    match pc
    case Sweeping(at) =>
      (match at
       case WakeFirst(look) => look.action.StopIt? && MaySleep(k, w, look)
       case KeepLabel(look) => MaySleep(k, w, look)
       case Act(look) => MaySleep(k, w, look)
       case _ => true)
    case Forgetting(at) =>
      (match at
       case InspectOld(o, quiet, busy) => !busy && quiet >= k.cfg.forgetAfter ==> LongAgo(w, k.now, o.id, k.cfg.forgetAfter)
       case DropVolume(o) => LongAgo(w, k.now, o.id, k.cfg.forgetAfter)
       case DropRecord(o) => LongAgo(w, k.now, o.id, k.cfg.forgetAfter)
       case _ => true)
    case _ => true
  }

  /** The sandbox a sweep thread has locked. */
  function Subject(pc: Pc): Option<Id> {
    match pc
    case Sweeping(at) =>
      (match at
       case WakeFirst(look) => Some(look.id)
       case KeepLabel(look) => Some(look.id)
       case Act(look) => Some(look.id)
       case _ => None)
    case Forgetting(at) =>
      (match at
       case InspectOld(o, _, _) => Some(o.id)
       case DropVolume(o) => Some(o.id)
       case DropRecord(o) => Some(o.id)
       case _ => None)
    case _ => None
  }

  lemma QuietSinceTouch(k: Clock, w: World, id: Id)
    requires WokenRecorded(w, k.now) && id in w.woken
    ensures QuietFor(k.started, w, id, k.now).0 <= k.now - w.woken[id]
  {
  }

  lemma SweepStepSaw(k: Clock, w: World, at: SweepAt, c: Choice)
    requires OrderedThresholds(k.cfg) && WokenRecorded(w, k.now) && SweepSaw(k, w, Sweeping(at))
    ensures var next := SweepStep(k, w, at, c);
            next.Go? ==> SweepSaw(k, next.world, next.pc)
  {
    if at.LookAgain? {
      var (quiet, busy) := QuietFor(k.started, w, at.look.id, k.now);
      DecideWaits(at.look.state, busy, quiet, k.cfg);
      if at.look.id in w.woken {
        QuietSinceTouch(k, w, at.look.id);
      }
    }
  }

  lemma ForgetStepSaw(k: Clock, w: World, at: ForgetAt, c: Choice)
    requires WokenRecorded(w, k.now) && SweepSaw(k, w, Forgetting(at))
    ensures var next := ForgetStep(k, w, at, c);
            next.Go? ==> SweepSaw(k, next.world, next.pc)
  {
    if at.ReadQuiet? && at.o.id in w.woken {
      QuietSinceTouch(k, w, at.o.id);
    }
  }

  lemma BodySaw(k: Clock, w: World, taken: set<Lock>, pc: Pc, c: Choice)
    requires OrderedThresholds(k.cfg) && WokenRecorded(w, k.now) && SweepSaw(k, w, pc)
    ensures var next := Body(k, w, taken, pc, c);
            next.Go? ==> SweepSaw(k, next.world, next.pc)
  {
    match pc
    case Sweeping(at) => SweepStepSaw(k, w, at, c);
    case Forgetting(at) => ForgetStepSaw(k, w, at, c);
    case Rooming(job, at) => RoomNeverSweeps(k, w, taken, job, at, c);
    case _ =>
  }

  lemma RoomNeverSweeps(k: Clock, w: World, taken: set<Lock>, job: Job, at: RoomAt, c: Choice)
    ensures var next := RoomStep(k, w, taken, job, at, c);
            next.Go? ==> !next.pc.Sweeping? && !next.pc.Forgetting?
  {
  }

  /** Marks that only stay or go keep what was seen. */
  lemma SawStays(k: Clock, w: World, k': Clock, w': World, pc: Pc)
    requires SweepSaw(k, w, pc) && k'.cfg == k.cfg && k'.now >= k.now
    requires Subject(pc).Some? ==>
               var id := Subject(pc).value;
               id in w'.woken ==> id in w.woken && w'.woken[id] == w.woken[id]
    ensures SweepSaw(k', w', pc)
  {
  }

  ghost predicate AllSaw(s: Node) {
    && OrderedThresholds(s.clock.cfg) && WokenRecorded(s.world, s.clock.now)
    && forall t :: t in s.threads ==> SweepSaw(s.clock, s.world, s.threads[t])
  }

  lemma StepSaw(s: Node, l: Label, s': Node)
    requires LocksAgree(s.locks, s.threads) && AllSaw(s) && Step(s, l, s')
    ensures AllSaw(s')
  {
    StepKeepsWoken(s, l, s');
    forall u | u in s'.threads
      ensures SweepSaw(s'.clock, s'.world, s'.threads[u])
    {
      match l
      case ByThread(t, c) =>
        BodySaw(s.clock, s.world, s.locks.Keys, s.threads[t], c);
        if u != t {
          OthersSaw(s, t, c, s', u);
        }
      case ByEvent(e) =>
        if e.Arrives? && u == e.thread {
        } else {
          SawStays(s.clock, s.world, s'.clock, s'.world, s.threads[u]);
        }
    }
  }

  lemma OthersSaw(s: Node, t: nat, c: Choice, s': Node, u: nat)
    requires LocksAgree(s.locks, s.threads) && StepOf(s, t, c, s')
    requires u in s.threads && u != t && SweepSaw(s.clock, s.world, s.threads[u])
    ensures SweepSaw(s'.clock, s'.world, s.threads[u])
  {
    var pc := s.threads[u];
    if Subject(pc).Some? {
      var id := Subject(pc).value;
      assert Wake(id) in Holds(pc);
      if Touching(s.threads[t], id) {
        assert false;
      }
      WokenMoves(s.clock, s.world, s.locks.Keys, s.threads[t], c, id);
    }
    SawStays(s.clock, s.world, s'.clock, s'.world, pc);
  }

  lemma {:induction false} RunSaw(r: Run, i: nat)
    requires IsRun(r) && i < |r.states|
    ensures AllSaw(r.states[i])
  {
    if i > 0 {
      RunSaw(r, i - 1);
      RunKeepsLocks(r, i - 1);
      assert StepAt(r, i - 1);
      StepSaw(r.states[i - 1], r.labels[i - 1], r.states[i]);
    }
  }

  /* ── what the sweep acts on ── */

  /** A thread past its first point was there in the state before, at the same point or one
      step short of it. */
  lemma CameBy(r: Run, i: nat, t: nat) returns (c: Choice)
    requires IsRun(r) && 0 < i < |r.states| && t in r.states[i].threads && !Begins(r.states[i].threads[t])
    ensures var s, s' := r.states[i - 1], r.states[i];
            && t in s.threads && s'.clock.cfg == s.clock.cfg && s'.clock.started == s.clock.started
            && (s'.threads[t] != s.threads[t] ==>
                  s'.clock == s.clock
                  && var next := Body(s.clock, s.world, s.locks.Keys, s.threads[t], c);
                     next.Go? && next.pc == s'.threads[t] && next.world == s'.world)
  {
    assert StepAt(r, i - 1);
    c := if r.labels[i - 1].ByThread? then r.labels[i - 1].choice else Choice(false, false, "", Evict([]), 0);
  }

  /** Over these states the sweep thread has the sandbox's wake lock. */
  ghost predicate HasWake(r: Run, from: nat, to: nat, t: nat, id: Id)
    requires to < |r.states|
  {
    forall n :: from <= n <= to ==>
      t in r.states[n].threads && Wake(id) in Holds(r.states[n].threads[t])
      && (r.states[n].threads[t].Sweeping? || r.states[n].threads[t].Forgetting?)
  }

  /** What was read of a sandbox at this state. */
  ghost predicate ReadsQuiet(r: Run, m: nat, id: Id, quiet: int, busy: bool)
    requires m < |r.states|
  {
    var s := r.states[m];
    QuietFor(s.clock.started, s.world, id, s.clock.now) == (quiet, busy)
  }

  /** The points from which a sweep acts on what it read. */
  predicate Acts(pc: Pc) {
    pc.Sweeping? && (pc.sweepAt.WakeFirst? || pc.sweepAt.KeepLabel? || pc.sweepAt.Act?)
  }

  function LookOf(pc: Pc): Look
    requires Acts(pc)
  {
    match pc.sweepAt
    case WakeFirst(look) => look
    case KeepLabel(look) => look
    case Act(look) => look
  }

  lemma ActsFrom(k: Clock, w: World, taken: set<Lock>, pc: Pc, c: Choice)
    requires var next := Body(k, w, taken, pc, c); next.Go? && Acts(next.pc)
    ensures var next := Body(k, w, taken, pc, c);
            var look := LookOf(next.pc);
            || (Acts(pc) && LookOf(pc) == look)
            || (pc == Sweeping(LookAgain(look))
                && var (quiet, busy) := QuietFor(k.started, w, look.id, k.now);
                   Decide(look.state, busy, quiet, k.cfg) == look.action)
  {
    if pc.Rooming? {
      RoomNeverSweeps(k, w, taken, pc.job, pc.roomAt, c);
    }
  }

  /** Under the sandbox's wake lock, held since, the thread found the action due. */
  ghost predicate FoundDue(r: Run, m: nat, i: nat, t: nat, look: Look, quiet: int, busy: bool)
    requires m < i < |r.states|
  {
    && HasWake(r, m, i, t, look.id) && r.states[m].threads[t] == Sweeping(LookAgain(look))
    && ReadsQuiet(r, m, look.id, quiet, busy)
    && Decide(look.state, busy, quiet, r.states[m].clock.cfg) == look.action
    && r.states[m].clock.cfg == r.states[i].clock.cfg
  }

  /** The thread either just looked again, or acted before on the same look. */
  lemma ActsBefore(r: Run, i: nat, t: nat)
    requires IsRun(r) && i < |r.states| && t in r.states[i].threads && Acts(r.states[i].threads[t])
    ensures 0 < i && t in r.states[i - 1].threads && r.states[i - 1].clock.cfg == r.states[i].clock.cfg
    ensures var s, look := r.states[i - 1], LookOf(r.states[i].threads[t]);
            || (Acts(s.threads[t]) && LookOf(s.threads[t]) == look)
            || (s.threads[t] == Sweeping(LookAgain(look))
                && var (quiet, busy) := QuietFor(s.clock.started, s.world, look.id, s.clock.now);
                   Decide(look.state, busy, quiet, s.clock.cfg) == look.action)
  {
    var s := r.states[i - 1];
    var c := CameBy(r, i, t);
    if s.threads[t] != r.states[i].threads[t] {
      ActsFrom(s.clock, s.world, s.locks.Keys, s.threads[t], c);
    }
  }

  lemma ActsLocked(pc: Pc)
    requires Acts(pc)
    ensures Wake(LookOf(pc).id) in Holds(pc)
  {
  }

  /** Wherever a sweep acts, it has looked at the sandbox again under its wake lock. */
  lemma {:induction false} LookedBefore(r: Run, i: nat, t: nat) returns (m: nat, quiet: int, busy: bool)
    requires IsRun(r) && i < |r.states| && t in r.states[i].threads && Acts(r.states[i].threads[t])
    ensures m < i && FoundDue(r, m, i, t, LookOf(r.states[i].threads[t]), quiet, busy)
    decreases i
  {
    var s, look := r.states[i - 1], LookOf(r.states[i].threads[t]);
    ActsBefore(r, i, t);
    ActsLocked(r.states[i].threads[t]);
    if Acts(s.threads[t]) {
      m, quiet, busy := LookedBefore(r, i - 1, t);
    } else {
      var (q, b) := QuietFor(s.clock.started, s.world, look.id, s.clock.now);
      m, quiet, busy := i - 1, q, b;
    }
  }

  /** No other thread has the sandbox's wake lock: no wake of it is under way. */
  ghost predicate NoWakeUnderWay(s: Node, t: nat, id: Id) {
    forall u :: u in s.threads && u != t ==> Wake(id) !in Holds(s.threads[u])
  }

  lemma HolderAlone(r: Run, i: nat, t: nat, id: Id)
    requires IsRun(r) && i < |r.states| && t in r.states[i].threads && Wake(id) in Holds(r.states[i].threads[t])
    ensures NoWakeUnderWay(r.states[i], t, id)
  {
    var s := r.states[i];
    RunKeepsLocks(r, i);
    assert s.locks[Wake(id)] == t;
  }

  lemma ActsInOrder(r: Run, i: nat, t: nat)
    requires IsRun(r) && i < |r.states| && t in r.states[i].threads && Acts(r.states[i].threads[t])
    ensures OrderedThresholds(r.states[i].clock.cfg)
    ensures r.states[i].threads[t].sweepAt.WakeFirst? ==> LookOf(r.states[i].threads[t]).action.StopIt?
  {
    RunSaw(r, i);
    assert SweepSaw(r.states[i].clock, r.states[i].world, r.states[i].threads[t]);
  }

  /** A sweep pauses, stops or removes only a sandbox that was idle, with no turn running,
      for at least the action's threshold, which is never less than PauseAfter: it read so
      under the sandbox's wake lock, has had the lock ever since, and no wake is under way. */
  lemma SweepsOnlyQuiet(r: Run, i: nat, id: Id, t: nat, c: Choice) returns (m: nat, quiet: int)
    requires IsRun(r) && i < |r.labels|
    requires r.labels[i] == ByThread(t, c) && t in r.states[i].threads && r.states[i].threads[t].Sweeping?
    requires id in r.states[i].world.containers
    requires id !in r.states[i + 1].world.containers
             || r.states[i + 1].world.containers[id] != r.states[i].world.containers[id]
    ensures Acts(r.states[i].threads[t]) && NoWakeUnderWay(r.states[i], t, id)
    ensures var cfg, look := r.states[i].clock.cfg, LookOf(r.states[i].threads[t]);
            && look.id == id && look.action != StayAwake
            && m < i && FoundDue(r, m, i, t, look, quiet, false)
            && quiet >= Threshold(cfg, look.action) >= cfg.pauseAfter
  {
    var s := r.states[i];
    assert StepAt(r, i);
    SweepChangesSubject(s.clock, s.world, s.threads[t].sweepAt, c, id);
    var busy;
    m, quiet, busy := LookedBefore(r, i, t);
    ActsInOrder(r, i, t);
    ActsLocked(s.threads[t]);
    HolderAlone(r, i, t, id);
    DecideWaits(LookOf(s.threads[t]).state, busy, quiet, s.clock.cfg);
  }

  /** A sweep step changes only the container it has locked, and only to sleep it. */
  lemma SweepChangesSubject(k: Clock, w: World, at: SweepAt, c: Choice, id: Id)
    requires id in w.containers
    requires var next := SweepStep(k, w, at, c);
             next.Go? && (id !in next.world.containers || next.world.containers[id] != w.containers[id])
    ensures Subject(Sweeping(at)) == Some(id)
    ensures at.WakeFirst? || (at.Act? && at.look.action != StayAwake)
  {
  }

  /** The points from which a sandbox is forgotten, and what the thread knows there. */
  predicate Forgets(pc: Pc) {
    pc.Forgetting? && (pc.forgetAt.InspectOld? || pc.forgetAt.DropVolume? || pc.forgetAt.DropRecord?)
  }

  predicate KnowsQuiet(pc: Pc, cfg: SleepConfig, quiet: int, busy: bool)
    requires Forgets(pc)
  {
    if pc.forgetAt.InspectOld? then pc.forgetAt.quiet == quiet && pc.forgetAt.busy == busy
    else !busy && quiet >= cfg.forgetAfter
  }

  lemma ForgetsFrom(k: Clock, w: World, taken: set<Lock>, pc: Pc, c: Choice)
    requires var next := Body(k, w, taken, pc, c); next.Go? && Forgets(next.pc)
    ensures var next := Body(k, w, taken, pc, c);
            var o := next.pc.forgetAt.o;
            || (pc == Forgetting(ReadQuiet(o))
                && var (quiet, busy) := QuietFor(k.started, w, o.id, k.now); KnowsQuiet(next.pc, k.cfg, quiet, busy))
            || (Forgets(pc) && pc.forgetAt.o == o
                && forall quiet, busy :: KnowsQuiet(pc, k.cfg, quiet, busy) ==> KnowsQuiet(next.pc, k.cfg, quiet, busy))
  {
    if pc.Rooming? {
      RoomNeverSweeps(k, w, taken, pc.job, pc.roomAt, c);
    }
  }

  /** Under the sandbox's wake lock, held since, the thread read how quiet it was. */
  ghost predicate FoundQuiet(r: Run, m: nat, i: nat, t: nat, o: Old, quiet: int, busy: bool)
    requires m < i < |r.states|
  {
    && HasWake(r, m, i, t, o.id) && r.states[m].threads[t] == Forgetting(ReadQuiet(o))
    && ReadsQuiet(r, m, o.id, quiet, busy)
    && r.states[m].clock.cfg == r.states[i].clock.cfg
  }

  /** The thread either just read how quiet the sandbox was, or knew it before. */
  lemma ForgetsBefore(r: Run, i: nat, t: nat)
    requires IsRun(r) && i < |r.states| && t in r.states[i].threads && Forgets(r.states[i].threads[t])
    ensures 0 < i && t in r.states[i - 1].threads && r.states[i - 1].clock.cfg == r.states[i].clock.cfg
    ensures var s, pc := r.states[i - 1], r.states[i].threads[t];
            var o, cfg := pc.forgetAt.o, s.clock.cfg;
            || (s.threads[t] == Forgetting(ReadQuiet(o))
                && var (quiet, busy) := QuietFor(s.clock.started, s.world, o.id, s.clock.now); KnowsQuiet(pc, cfg, quiet, busy))
            || (Forgets(s.threads[t]) && s.threads[t].forgetAt.o == o
                && forall quiet, busy :: KnowsQuiet(s.threads[t], cfg, quiet, busy) ==> KnowsQuiet(pc, cfg, quiet, busy))
  {
    var s := r.states[i - 1];
    var c := CameBy(r, i, t);
    if s.threads[t] != r.states[i].threads[t] {
      ForgetsFrom(s.clock, s.world, s.locks.Keys, s.threads[t], c);
    }
  }

  lemma ForgetsLocked(pc: Pc)
    requires Forgets(pc)
    ensures Wake(pc.forgetAt.o.id) in Holds(pc)
  {
  }

  predicate Remembers(pc: Pc, id: Id) {
    pc.Ensuring? && pc.ensureAt.RememberIt? && pc.request.id == id
  }

  /** The sandbox's record is written without its wake lock: an ensure remembers it, or it is
      used. */
  ghost predicate RecordedAt(r: Run, n: nat, id: Id)
    requires n < |r.labels| && n < |r.states|
  {
    match r.labels[n]
    case ByThread(t, _) => t in r.states[n].threads && Remembers(r.states[n].threads[t], id)
    case ByEvent(e) => e == Used(id)
  }

  ghost predicate RecordedBetween(r: Run, m: nat, i: nat, id: Id)
    requires i <= |r.labels| && |r.states| == |r.labels| + 1
  {
    exists n :: m <= n < i && RecordedAt(r, n, id)
  }

  /** Without its wake lock, a sandbox's record is written by an ensure or a use only; any
      other step leaves it or takes it away. */
  lemma RecordMoves(k: Clock, w: World, taken: set<Lock>, pc: Pc, c: Choice, id: Id)
    requires Body(k, w, taken, pc, c).Go? && (Wake(id) in Holds(pc) ==> pc.Forgetting?)
    ensures var w' := Body(k, w, taken, pc, c).world;
            if Remembers(pc, id) then id in w'.records && w'.records[id].last == k.now else SameOrGone(w, w', id)
  {
    match pc
    case Rooming(job, at) => RoomKeepsRecords(k, w, taken, job, at, c);
    case Waking(call, at) => WakeRecords(k, w, call, at, c, id);
    case Sweeping(at) => SweepRecords(k, w, at, c, id);
    case Forgetting(at) => ForgetRecords(k, w, at, c, id);
    case _ =>
  }

  predicate SameOrGone(w: World, w': World, id: Id) {
    id in w'.records ==> id in w.records && w'.records[id] == w.records[id]
  }

  lemma WakeRecords(k: Clock, w: World, call: Call, at: WakeAt, c: Choice, id: Id)
    requires WakeStep(k, w, call, at, c).Go? && (at.WaitWake? || call.id != id)
    ensures SameOrGone(w, WakeStep(k, w, call, at, c).world, id)
  {
  }

  lemma SweepRecords(k: Clock, w: World, at: SweepAt, c: Choice, id: Id)
    requires SweepStep(k, w, at, c).Go? && (at.KeepLabel? ==> at.look.id != id)
    ensures SameOrGone(w, SweepStep(k, w, at, c).world, id)
  {
  }

  lemma ForgetRecords(k: Clock, w: World, at: ForgetAt, c: Choice, id: Id)
    requires ForgetStep(k, w, at, c).Go?
    ensures SameOrGone(w, ForgetStep(k, w, at, c).world, id)
  {
  }

  /** What a step does to the record of a sandbox whose wake lock a forgetting thread has. */
  lemma RecordStep(r: Run, i: nat, t: nat, id: Id)
    requires IsRun(r) && i < |r.labels|
    requires t in r.states[i].threads && Wake(id) in Holds(r.states[i].threads[t]) && r.states[i].threads[t].Forgetting?
    ensures var w, w' := r.states[i].world, r.states[i + 1].world;
            if RecordedAt(r, i, id) then id in w'.records && w'.records[id].last == r.states[i].clock.now
            else SameOrGone(w, w', id)
    ensures r.states[i + 1].clock.now >= r.states[i].clock.now
  {
    var s := r.states[i];
    assert StepAt(r, i);
    match r.labels[i]
    case ByThread(u, c) =>
      HolderAlone(r, i, t, id);
      RecordMoves(s.clock, s.world, s.locks.Keys, s.threads[u], c, id);
    case ByEvent(e) =>
  }

  /** Since state m the record is the one read then, or one written after it, or gone. */
  ghost predicate RecordSince(r: Run, m: nat, i: nat, id: Id)
    requires m <= i < |r.states| && |r.states| == |r.labels| + 1
  {
    var before, now := r.states[m].world.records, r.states[i].world.records;
    && r.states[i].clock.now >= r.states[m].clock.now
    && (id in now ==>
          if RecordedBetween(r, m, i, id) then now[id].last >= r.states[m].clock.now
          else id in before && now[id] == before[id])
  }

  lemma RecordNext(r: Run, m: nat, i: nat, t: nat, id: Id)
    requires IsRun(r) && m <= i < |r.labels| && RecordSince(r, m, i, id)
    requires t in r.states[i].threads && Wake(id) in Holds(r.states[i].threads[t]) && r.states[i].threads[t].Forgetting?
    ensures RecordSince(r, m, i + 1, id)
  {
    RecordStep(r, i, t, id);
    RecordedNext(r, m, i, id);
  }

  lemma RecordedNext(r: Run, m: nat, i: nat, id: Id)
    requires |r.states| == |r.labels| + 1 && m <= i < |r.labels|
    ensures RecordedBetween(r, m, i + 1, id) <==> RecordedBetween(r, m, i, id) || RecordedAt(r, i, id)
  {
  }

  /** Wherever a sandbox is being forgotten, the thread has read how quiet it was under its
      wake lock; the record is still the one read, unless an ensure or a use wrote it since. */
  lemma {:induction false} ReadBefore(r: Run, i: nat, t: nat) returns (m: nat, quiet: int, busy: bool)
    requires IsRun(r) && i < |r.states| && t in r.states[i].threads && Forgets(r.states[i].threads[t])
    ensures m < i && FoundQuiet(r, m, i, t, r.states[i].threads[t].forgetAt.o, quiet, busy)
    ensures KnowsQuiet(r.states[i].threads[t], r.states[i].clock.cfg, quiet, busy)
    ensures RecordSince(r, m, i, r.states[i].threads[t].forgetAt.o.id)
    decreases i
  {
    var s, o := r.states[i - 1], r.states[i].threads[t].forgetAt.o;
    ForgetsBefore(r, i, t);
    ForgetsLocked(r.states[i].threads[t]);
    if Forgets(s.threads[t]) {
      m, quiet, busy := ReadBefore(r, i - 1, t);
      ForgetsLocked(s.threads[t]);
    } else {
      var (q, b) := QuietFor(s.clock.started, s.world, o.id, s.clock.now);
      m, quiet, busy := i - 1, q, b;
    }
    RecordNext(r, m, i - 1, t, o.id);
  }

  lemma LastBefore(k: Clock, w: World, id: Id)
    requires id in w.records && k.now > 0 && QuietFor(k.started, w, id, k.now).0 > 0
    ensures w.records[id].last < k.now
  {
  }

  /** A forget takes another record than the one it read exactly when an ensure or a use wrote
      it in between; such a record says that it is of that reading's time or later. */
  lemma ForgetTakesIff(r: Run, i: nat, t: nat, c: Choice) returns (m: nat, quiet: int)
    requires IsRun(r) && i < |r.labels| && r.labels[i] == ByThread(t, c)
    requires t in r.states[i].threads && r.states[i].threads[t].Forgetting? && r.states[i].threads[t].forgetAt.DropRecord?
    ensures var o := r.states[i].threads[t].forgetAt.o;
            && m < i && FoundQuiet(r, m, i, t, o, quiet, false) && quiet >= r.states[i].clock.cfg.forgetAfter
            && o.id !in r.states[i + 1].world.records
    ensures var id, before, now := r.states[i].threads[t].forgetAt.o.id, r.states[m].world.records, r.states[i].world.records;
            id in now ==>
              && ((id in before && now[id] == before[id]) <==> !RecordedBetween(r, m, i, id))
              && (now[id].last >= r.states[m].clock.now <==> RecordedBetween(r, m, i, id))
  {
    var s := r.states[i];
    var id := s.threads[t].forgetAt.o.id;
    var busy;
    assert StepAt(r, i);
    m, quiet, busy := ReadBefore(r, i, t);
    ForgetIsOn(r, i, t);
    RunSaw(r, m);
    if id in r.states[m].world.records {
      LastBefore(r.states[m].clock, r.states[m].world, id);
    }
  }

  /** The sweep deletes a volume only of a sandbox that was on record, has no container, and
      was idle for at least ForgetAfter: it read so under the sandbox's wake lock, has had
      the lock ever since, and no wake is under way. */
  lemma ForgetsOnlyQuiet(r: Run, i: nat, id: Id, t: nat, c: Choice) returns (m: nat, quiet: int)
    requires IsRun(r) && i < |r.labels|
    requires r.labels[i] == ByThread(t, c) && t in r.states[i].threads && r.states[i].threads[t].Forgetting?
    requires id in r.states[i].world.volumes && id !in r.states[i + 1].world.volumes
    ensures var s := r.states[i];
            && s.threads[t].forgetAt.DropVolume? && s.threads[t].forgetAt.o.id == id
            && id !in s.world.containers && NoWakeUnderWay(s, t, id) && EverRecorded(r, i, id)
            && m < i && FoundQuiet(r, m, i, t, s.threads[t].forgetAt.o, quiet, false)
            && quiet >= s.clock.cfg.forgetAfter
  {
    var s := r.states[i];
    assert StepAt(r, i);
    ForgetDropsSubject(s.clock, s.world, s.threads[t].forgetAt, c, id);
    var busy;
    m, quiet, busy := ReadBefore(r, i, t);
    ForgetsLocked(s.threads[t]);
    HolderAlone(r, i, t, id);
    ForgetsOnlyRecorded(r, i, t, id);
  }

  lemma ForgetDropsSubject(k: Clock, w: World, at: ForgetAt, c: Choice, id: Id)
    requires id in w.volumes
    requires var next := ForgetStep(k, w, at, c); next.Go? && id !in next.world.volumes
    ensures at.DropVolume? && at.o.id == id && id !in w.containers
  {
  }

  /** The sandboxes a forgetting thread may still come to. */
  function Listed(pc: Pc): set<Id> {
    match pc
    case Forgetting(at) =>
      (match at
       case ListOld(_, _) => {}
       case PickOld(ids, _) => ids
       case WaitOld(o) => o.ids + {o.id}
       case ReadQuiet(o) => o.ids + {o.id}
       case InspectOld(o, _, _) => o.ids + {o.id}
       case DropVolume(o) => o.ids + {o.id}
       case DropRecord(o) => o.ids + {o.id}
       case LeaveOld(o) => o.ids)
    case _ => {}
  }

  ghost predicate EverRecorded(r: Run, i: nat, id: Id)
    requires i < |r.states|
  {
    exists m :: 0 <= m <= i && id in r.states[m].world.records
  }

  lemma BodyLists(k: Clock, w: World, taken: set<Lock>, pc: Pc, c: Choice)
    ensures var next := Body(k, w, taken, pc, c);
            next.Go? ==> Listed(next.pc) <= Listed(pc) + w.records.Keys
  {
    match pc
    case Rooming(job, at) => RoomNeverSweeps(k, w, taken, job, at, c);
    case _ =>
  }

  /** A sandbox the sweep may forget was on record when the sweep listed it. */
  lemma {:induction false} ForgetsOnlyRecorded(r: Run, i: nat, t: nat, id: Id)
    requires IsRun(r) && i < |r.states| && t in r.states[i].threads && id in Listed(r.states[i].threads[t])
    ensures EverRecorded(r, i, id)
  {
    if i > 0 {
      var s, s' := r.states[i - 1], r.states[i];
      assert StepAt(r, i - 1);
      match r.labels[i - 1]
      case ByThread(u, c) =>
        BodyLists(s.clock, s.world, s.locks.Keys, s.threads[u], c);
        if id !in s.world.records {
          ForgetsOnlyRecorded(r, i - 1, t, id);
        }
      case ByEvent(e) => ForgetsOnlyRecorded(r, i - 1, t, id);
    }
  }

  /* ── wakes over runs ── */

  /** The wake of one sandbox touches it at this step. */
  ghost predicate TouchedAt(r: Run, j: nat, id: Id)
    requires IsRun(r) && j < |r.labels|
  {
    match r.labels[j]
    case ByThread(t, _) => t in r.states[j].threads && Touching(r.states[j].threads[t], id)
    case ByEvent(_) => false
  }

  predicate DeletesRecord(pc: Pc, id: Id) {
    pc.Removing? && pc.removeAt.DeleteRecord? && pc.id == id
  }

  /** The sandbox's chat is deleted, and its record with it, at this step. */
  ghost predicate RemovedAt(r: Run, j: nat, id: Id)
    requires IsRun(r) && j < |r.labels|
  {
    match r.labels[j]
    case ByThread(t, _) => t in r.states[j].threads && DeletesRecord(r.states[j].threads[t], id)
    case ByEvent(_) => false
  }

  /** The chat is not deleted between these states. */
  ghost predicate NotRemoved(r: Run, j: nat, i: nat, id: Id)
    requires IsRun(r) && i < |r.states|
  {
    forall n :: j < n < i ==> !RemovedAt(r, n, id)
  }

  /** A mark goes with the record only: when the chat is deleted, or the sandbox forgotten. */
  lemma WokenGoes(k: Clock, w: World, taken: set<Lock>, pc: Pc, c: Choice, id: Id)
    requires var next := Body(k, w, taken, pc, c); next.Go? && id in w.woken && id !in next.world.woken
    ensures DeletesRecord(pc, id) || (pc.Forgetting? && pc.forgetAt.DropRecord? && pc.forgetAt.o.id == id)
  {
    if pc.Rooming? {
      RoomKeepsRecords(k, w, taken, pc.job, pc.roomAt, c);
    }
  }

  predicate PastListing(pc: Pc) {
    pc.Forgetting? && !pc.forgetAt.ListOld?
  }

  lemma PastListingFrom(k: Clock, w: World, taken: set<Lock>, pc: Pc, c: Choice)
    requires var next := Body(k, w, taken, pc, c); next.Go? && PastListing(next.pc)
    ensures k.cfg.forgetAfter > 0 || PastListing(pc)
  {
    if pc.Rooming? {
      RoomNeverSweeps(k, w, taken, pc.job, pc.roomAt, c);
    }
  }

  /** Nothing is forgotten while forgetting is off. */
  lemma {:induction false} ForgetIsOn(r: Run, i: nat, t: nat)
    requires IsRun(r) && i < |r.states| && t in r.states[i].threads && PastListing(r.states[i].threads[t])
    ensures r.states[i].clock.cfg.forgetAfter > 0
    decreases i
  {
    var s := r.states[i - 1];
    var c := CameBy(r, i, t);
    if s.threads[t] != r.states[i].threads[t] {
      PastListingFrom(s.clock, s.world, s.locks.Keys, s.threads[t], c);
    }
    if PastListing(s.threads[t]) {
      ForgetIsOn(r, i - 1, t);
    }
  }

  /** The mark of the touch at state j, or of a later one, is still there. */
  predicate StillMarked(r: Run, j: nat, i: nat, id: Id)
    requires j < |r.states| && i < |r.states|
  {
    id in r.states[i].world.woken && r.states[i].world.woken[id] >= r.states[j].clock.now
  }

  predicate ForgottenSince(r: Run, j: nat, i: nat)
    requires j < |r.states| && i < |r.states|
  {
    var s := r.states[i];
    0 < s.clock.cfg.forgetAfter && s.clock.now >= r.states[j].clock.now + s.clock.cfg.forgetAfter
  }

  lemma JustMarked(r: Run, j: nat, id: Id)
    requires IsRun(r) && j < |r.labels| && TouchedAt(r, j, id)
    ensures StillMarked(r, j, j + 1, id) && r.states[j + 1].clock.now >= r.states[j].clock.now
  {
    assert StepAt(r, j);
  }

  lemma NotRemovedBefore(r: Run, j: nat, i: nat, id: Id)
    requires IsRun(r) && j < i < |r.labels| && NotRemoved(r, j, i + 1, id)
    ensures NotRemoved(r, j, i, id) && !RemovedAt(r, i, id)
  {
  }

  lemma MarkStays(r: Run, j: nat, i: nat, id: Id)
    requires IsRun(r) && j < i < |r.labels| && !RemovedAt(r, i, id)
    requires (StillMarked(r, j, i, id) || ForgottenSince(r, j, i)) && r.states[i].clock.now >= r.states[j].clock.now
    ensures StillMarked(r, j, i + 1, id) || ForgottenSince(r, j, i + 1)
    ensures r.states[i + 1].clock.now >= r.states[j].clock.now
  {
    var s, s' := r.states[i], r.states[i + 1];
    assert StepAt(r, i);
    match r.labels[i]
    case ByThread(t, c) =>
      if StillMarked(r, j, i, id) && !Touching(s.threads[t], id) {
        WokenMoves(s.clock, s.world, s.locks.Keys, s.threads[t], c, id);
        if id !in s'.world.woken {
          WokenGoes(s.clock, s.world, s.locks.Keys, s.threads[t], c, id);
          RunSaw(r, i);
          ForgetIsOn(r, i, t);
        }
      }
    case ByEvent(e) =>
  }

  /** A wake's touch is on record as long as the chat is not deleted, but for a forgetting,
      which comes no earlier than ForgetAfter after it. */
  lemma {:induction false} TouchIsRemembered(r: Run, j: nat, i: nat, id: Id)
    requires IsRun(r) && j < i < |r.states| && TouchedAt(r, j, id)
    requires NotRemoved(r, j, i, id)
    ensures StillMarked(r, j, i, id) || ForgottenSince(r, j, i)
    ensures r.states[i].clock.now >= r.states[j].clock.now
  {
    if i == j + 1 {
      JustMarked(r, j, id);
    } else {
      NotRemovedBefore(r, j, i - 1, id);
      TouchIsRemembered(r, j, i - 1, id);
      MarkStays(r, j, i - 1, id);
    }
  }

  /** Once a wake has touched a sandbox whose chat is not deleted, no sweep pauses, stops or
      removes it for PauseAfter, even acting on a listing made before; only where ForgetAfter
      is set shorter than PauseAfter, with removal off, is it no more than ForgetAfter. */
  lemma SweepRespectsWake(r: Run, j: nat, i: nat, id: Id, t: nat, c: Choice)
    requires IsRun(r) && j < i < |r.labels| && TouchedAt(r, j, id)
    requires NotRemoved(r, j, i, id)
    requires r.labels[i] == ByThread(t, c) && t in r.states[i].threads && r.states[i].threads[t].Sweeping?
    requires id in r.states[i].world.containers
    requires id !in r.states[i + 1].world.containers
             || r.states[i + 1].world.containers[id] != r.states[i].world.containers[id]
    ensures var cfg, since := r.states[i].clock.cfg, r.states[i].clock.now - r.states[j].clock.now;
            since >= cfg.pauseAfter || (0 < cfg.forgetAfter < cfg.pauseAfter && cfg.removeAfter == 0 && since >= cfg.forgetAfter)
  {
    var s, s' := r.states[i], r.states[i + 1];
    assert StepAt(r, i);
    RunSaw(r, i);
    TouchIsRemembered(r, j, i, id);
    SweepChangesSubject(s.clock, s.world, s.threads[t].sweepAt, c, id);
  }

  /** Nor is its volume deleted by the sweep for ForgetAfter. */
  lemma ForgetRespectsWake(r: Run, j: nat, i: nat, id: Id, t: nat, c: Choice)
    requires IsRun(r) && j < i < |r.labels| && TouchedAt(r, j, id)
    requires NotRemoved(r, j, i, id)
    requires r.labels[i] == ByThread(t, c) && t in r.states[i].threads && r.states[i].threads[t].Forgetting?
    requires id in r.states[i].world.volumes && id !in r.states[i + 1].world.volumes
    ensures r.states[i].clock.now >= r.states[j].clock.now + r.states[i].clock.cfg.forgetAfter
  {
    var s, s' := r.states[i], r.states[i + 1];
    assert StepAt(r, i);
    RunSaw(r, i);
    TouchIsRemembered(r, j, i, id);
    ForgetDropsSubject(s.clock, s.world, s.threads[t].forgetAt, c, id);
  }

  /* ── a wake of a sandbox that has a workspace open ── */

  predicate HasSpace(w: World, id: Id) {
    id in w.spaces && w.spaces[id] in w.works
  }

  predicate ActiveSince(w: World, id: Id, since: int) {
    HasSpace(w, id) && w.works[w.spaces[id]].lastActive >= since
  }

  predicate ClosesSpace(pc: Pc, id: Id) {
    pc.Removing? && pc.removeAt.CloseSpace? && pc.id == id
  }

  /** The sandbox's workspace is closed at this step. */
  ghost predicate ClosedAt(r: Run, n: nat, id: Id)
    requires n < |r.labels| && n < |r.states|
  {
    match r.labels[n]
    case ByThread(t, _) => t in r.states[n].threads && ClosesSpace(r.states[n].threads[t], id)
    case ByEvent(_) => false
  }

  ghost predicate NotClosed(r: Run, j: nat, i: nat, id: Id)
    requires i <= |r.labels| && |r.states| == |r.labels| + 1
  {
    forall n :: j < n < i ==> !ClosedAt(r, n, id)
  }

  lemma RoomKeepsSpaces(k: Clock, w: World, taken: set<Lock>, job: Job, at: RoomAt, c: Choice)
    ensures var next := RoomStep(k, w, taken, job, at, c);
            next.Go? ==> next.world.spaces == w.spaces && next.world.works == w.works
  {
  }

  lemma SpaceMoves(k: Clock, w: World, taken: set<Lock>, pc: Pc, c: Choice, id: Id, since: int)
    requires ActiveSince(w, id, since) && k.now >= since && !ClosesSpace(pc, id) && Body(k, w, taken, pc, c).Go?
    ensures ActiveSince(Body(k, w, taken, pc, c).world, id, since)
  {
    if pc.Rooming? {
      RoomKeepsSpaces(k, w, taken, pc.job, pc.roomAt, c);
    }
  }

  lemma SpaceNext(r: Run, i: nat, id: Id, since: int)
    requires IsRun(r) && i < |r.labels| && !ClosedAt(r, i, id)
    requires ActiveSince(r.states[i].world, id, since) && r.states[i].clock.now >= since
    ensures ActiveSince(r.states[i + 1].world, id, since) && r.states[i + 1].clock.now >= since
  {
    var s := r.states[i];
    assert StepAt(r, i);
    match r.labels[i]
    case ByThread(t, c) => SpaceMoves(s.clock, s.world, s.locks.Keys, s.threads[t], c, id, since);
    case ByEvent(e) =>
  }

  lemma TouchOpens(r: Run, j: nat, id: Id)
    requires IsRun(r) && j < |r.labels| && TouchedAt(r, j, id) && HasSpace(r.states[j].world, id)
    ensures ActiveSince(r.states[j + 1].world, id, r.states[j].clock.now)
    ensures r.states[j + 1].clock.now >= r.states[j].clock.now
  {
    assert StepAt(r, j);
  }

  lemma {:induction false} StaysActive(r: Run, j: nat, i: nat, id: Id)
    requires IsRun(r) && j < i < |r.states| && TouchedAt(r, j, id) && HasSpace(r.states[j].world, id) && NotClosed(r, j, i, id)
    ensures ActiveSince(r.states[i].world, id, r.states[j].clock.now) && r.states[i].clock.now >= r.states[j].clock.now
    decreases i
  {
    if i == j + 1 {
      TouchOpens(r, j, id);
    } else {
      assert NotClosed(r, j, i - 1, id) && !ClosedAt(r, i - 1, id);
      StaysActive(r, j, i - 1, id);
      SpaceNext(r, i - 1, id, r.states[j].clock.now);
    }
  }

  lemma {:induction false} TimeGrows(r: Run, m: nat, i: nat)
    requires IsRun(r) && m <= i < |r.states|
    ensures r.states[i].clock.now >= r.states[m].clock.now
    decreases i
  {
    if m < i {
      assert StepAt(r, i - 1);
      TimeGrows(r, m, i - 1);
    }
  }

  /** What a sweep thread reads under the lock it keeps, it reads after the touch. */
  lemma ReadsAfterTouch(r: Run, j: nat, m: nat, i: nat, t: nat, id: Id)
    requires IsRun(r) && j < i < |r.labels| && m < i && TouchedAt(r, j, id) && HasWake(r, m, i, t, id)
    ensures j < m
  {
    assert Wake(id) in Holds(r.states[j].threads[r.labels[j].thread]);
    if m <= j {
      HolderAlone(r, j, t, id);
    }
  }

  lemma QuietSince(r: Run, j: nat, m: nat, id: Id, quiet: int, busy: bool)
    requires IsRun(r) && j < m < |r.labels| && TouchedAt(r, j, id) && HasSpace(r.states[j].world, id) && NotClosed(r, j, m, id)
    requires ReadsQuiet(r, m, id, quiet, busy)
    ensures quiet <= r.states[m].clock.now - r.states[j].clock.now
  {
    StaysActive(r, j, m, id);
  }

  /** While the workspace that was open at a wake's touch stays open, no sweep pauses, stops or
      removes the sandbox for PauseAfter, whatever becomes of its record. */
  lemma SweepRespectsOpenWake(r: Run, j: nat, i: nat, id: Id, t: nat, c: Choice)
    requires IsRun(r) && j < i < |r.labels| && TouchedAt(r, j, id)
    requires HasSpace(r.states[j].world, id) && NotClosed(r, j, i, id)
    requires r.labels[i] == ByThread(t, c) && t in r.states[i].threads && r.states[i].threads[t].Sweeping?
    requires id in r.states[i].world.containers
    requires id !in r.states[i + 1].world.containers
             || r.states[i + 1].world.containers[id] != r.states[i].world.containers[id]
    ensures r.states[i].clock.now >= r.states[j].clock.now + r.states[i].clock.cfg.pauseAfter
  {
    var m, quiet := SweepsOnlyQuiet(r, i, id, t, c);
    ReadsAfterTouch(r, j, m, i, t, id);
    assert NotClosed(r, j, m, id);
    QuietSince(r, j, m, id, quiet, false);
    TimeGrows(r, m, i);
  }

  /** Nor is its volume deleted for ForgetAfter. */
  lemma ForgetRespectsOpenWake(r: Run, j: nat, i: nat, id: Id, t: nat, c: Choice)
    requires IsRun(r) && j < i < |r.labels| && TouchedAt(r, j, id)
    requires HasSpace(r.states[j].world, id) && NotClosed(r, j, i, id)
    requires r.labels[i] == ByThread(t, c) && t in r.states[i].threads && r.states[i].threads[t].Forgetting?
    requires id in r.states[i].world.volumes && id !in r.states[i + 1].world.volumes
    ensures r.states[i].clock.now >= r.states[j].clock.now + r.states[i].clock.cfg.forgetAfter
  {
    var m, quiet := ForgetsOnlyQuiet(r, i, id, t, c);
    ReadsAfterTouch(r, j, m, i, t, id);
    assert NotClosed(r, j, m, id);
    QuietSince(r, j, m, id, quiet, false);
    TimeGrows(r, m, i);
  }
}
