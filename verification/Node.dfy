/** A sandbox node as a step system: the requests, the preview proxy and the sweep
    act on the same containers, records and locks, one step at a time
    (cli/internal/sandbox/sleep.go, limits.go and workspace.go).

    A step is one Docker command, or one critical section under s.mu or w.mu. Time
    passes and containers exit between any two steps. */
module Node {
  import opened Common
  import opened Room

  type Id = string

  /* ── what the node keeps ── */

  /** Docker's word for a container's state; no entry means no container. */
  datatype Container = Running | Paused | Exited | Created | Dead | Restarting

  predicate IsAwake(c: Container) {
    c.Running? || c.Paused?
  }

  function Awake(containers: map<Id, Container>): set<Id> {
    set id | id in containers && IsAwake(containers[id])
  }

  /** The sleep thresholds. */
  datatype SleepConfig = SleepConfig(pauseAfter: int, stopAfter: int, removeAfter: int, forgetAfter: int)

  /** The order `defaults` sets up; with removal off, forgetting is in order with nothing. */
  predicate OrderedThresholds(cfg: SleepConfig) {
    && 0 < cfg.pauseAfter <= cfg.stopAfter
    && 0 <= cfg.removeAfter && (cfg.removeAfter > 0 ==> cfg.stopAfter <= cfg.removeAfter)
    && 0 <= cfg.forgetAfter && (cfg.forgetAfter > 0 ==> cfg.removeAfter <= cfg.forgetAfter)
  }

  /** A record kept across restarts; last is 0 when it was never used. */
  datatype Record = Record(last: int, owner: string, hasRepo: bool)

  /** A workspace in memory. */
  datatype Workspace = Workspace(lastActive: int, busy: bool)

  datatype Limits = Limits(awakePerPerson: int, awakePerNode: int)

  /** Takes the fields that are set and sensible. */
  function Merge(l: Limits, other: Option<Limits>): Limits {
    match other
    case None => l
    case Some(o) =>
      Limits(if 1 <= o.awakePerPerson <= 100 then o.awakePerPerson else l.awakePerPerson,
             if 1 <= o.awakePerNode <= 200 then o.awakePerNode else l.awakePerNode)
  }

  datatype Lock = Op(workspace: nat) | Wake(id: Id) | TheRoom

  /** What stays fixed during a step. */
  datatype Clock = Clock(cfg: SleepConfig, started: int, now: int)

  datatype World = World(
    containers: map<Id, Container>,
    volumes: set<Id>,
    records: map<Id, Record>,
    spaces: map<Id, nat>,
    works: map<nat, Workspace>,
    limits: Limits,
    // History: when a wake last touched each sandbox, since its record was last deleted.
    woken: map<Id, int>)

  datatype Node = Node(clock: Clock, world: World, locks: map<Lock, nat>, threads: map<nat, Pc>)

  /* ── where a thread is ── */

  /** A wake, and the workspace whose op its caller holds when that is an ensure. */
  datatype Call = Call(id: Id, op: Option<nat>)

  datatype Answer = Won | Failed | Gone

  datatype WakeAt = WaitWake | TouchIt | InspectIt | UnpauseIt | ReadRecord | FindVolume | LeaveWake(answer: Answer)

  /** Why room is made: to start a stopped container, to make a removed one again, or
      for the ensure that makes a sandbox from nothing. */
  datatype JobKind = Restart | Recreate | Fresh
  datatype Job = Job(call: Call, kind: JobKind)

  /** What makeRoom decided: the limits and owner it read and the boxes that stay awake. */
  datatype Kept = Kept(limits: Limits, owner: string, boxes: set<AwakeBox>)

  datatype EvictAt = TryIt | InspectBox | UnpauseBox | StopBox | LeaveBox(ok: bool)

  datatype RoomAt =
    | WaitRoom
    | ListAwake
    | ReadLimits(todo: set<Id>)
    | ReadBoxes(limits: Limits, now: int, todo: set<Id>, boxes: seq<AwakeBox>)
    | Evicting(kept: Kept, queue: seq<Id>, at: EvictAt)
    | MakeVolume(kept: Kept)
    | StartIt(kept: Kept)
    | Probe
    | LeaveRoom(ok: bool)

  datatype Action = StayAwake | PauseIt | StopIt | RemoveIt

  /** One sandbox the sweep looks at, with the state its listing gave. */
  datatype Look = Look(id: Id, state: Container, action: Action, found: map<Id, Container>, todo: map<Id, Container>, since: int)

  datatype SweepAt =
    | ListAll
    | PickOne(found: map<Id, Container>, todo: map<Id, Container>, since: int)
    | WaitLook(look: Look)
    | LookAgain(look: Look)
    | WakeFirst(look: Look)
    | KeepLabel(look: Look)
    | Act(look: Look)
    | LeaveLook(look: Look)

  datatype Old = Old(id: Id, ids: set<Id>, since: int)

  datatype ForgetAt =
    | ListOld(found: map<Id, Container>, since: int)
    | PickOld(ids: set<Id>, since: int)
    | WaitOld(o: Old)
    | ReadQuiet(o: Old)
    | InspectOld(o: Old, quiet: int, busy: bool)
    | DropVolume(o: Old)
    | DropRecord(o: Old)
    | LeaveOld(o: Old)

  datatype RemoveAt = CloseSpace | DeleteRecord | DeleteContainer | DeleteVolume

  datatype Request = Request(id: Id, owner: string, chat: bool, limits: Option<Limits>)

  datatype EnsureAt = WaitOp | MarkActive | InspectFirst | MergeLimits | RememberIt

  datatype Pc =
    | OpenSpace(request: Request)
    | Ensuring(request: Request, op: nat, ensureAt: EnsureAt)
    | LeaveOp(op: nat)
    | Waking(call: Call, wakeAt: WakeAt)
    | Rooming(job: Job, roomAt: RoomAt)
    | Sweeping(sweepAt: SweepAt)
    | Forgetting(forgetAt: ForgetAt)
    | Removing(id: Id, removeAt: RemoveAt)
    | Finished

  /* ── locks ── */

  function OpLocks(call: Call): set<Lock> {
    if call.op.Some? then {Op(call.op.value)} else {}
  }

  /** The locks a thread has at each point. */
  function Holds(pc: Pc): set<Lock> {
    match pc
    case OpenSpace(_) => {}
    case Ensuring(_, h, at) => if at.WaitOp? then {} else {Op(h)}
    case LeaveOp(h) => {Op(h)}
    case Waking(call, at) => OpLocks(call) + (if at.WaitWake? then {} else {Wake(call.id)})
    case Rooming(job, at) =>
      OpLocks(job.call)
      + (if job.kind.Fresh? then {} else {Wake(job.call.id)})
      + (if at.WaitRoom? then {} else {TheRoom})
      + (if at.Evicting? && !at.at.TryIt? && at.queue != [] then {Wake(at.queue[0])} else {})
    case Sweeping(at) =>
      (match at
       case ListAll => {}
       case PickOne(_, _, _) => {}
       case WaitLook(_) => {}
       case LookAgain(look) => {Wake(look.id)}
       case WakeFirst(look) => {Wake(look.id)}
       case KeepLabel(look) => {Wake(look.id)}
       case Act(look) => {Wake(look.id)}
       case LeaveLook(look) => {Wake(look.id)})
    case Forgetting(at) =>
      (match at
       case ListOld(_, _) => {}
       case PickOld(_, _) => {}
       case WaitOld(_) => {}
       case ReadQuiet(o) => {Wake(o.id)}
       case InspectOld(o, _, _) => {Wake(o.id)}
       case DropVolume(o) => {Wake(o.id)}
       case DropRecord(o) => {Wake(o.id)}
       case LeaveOld(o) => {Wake(o.id)})
    case Removing(_, _) => {}
    case Finished => {}
  }

  /** The lock a blocking acquisition at this point waits for. */
  function WaitsFor(pc: Pc): Option<Lock> {
    match pc
    case Ensuring(_, h, at) => if at.WaitOp? then Some(Op(h)) else None
    case Waking(call, at) => if at.WaitWake? then Some(Wake(call.id)) else None
    case Rooming(job, at) => if at.WaitRoom? then Some(TheRoom) else None
    case Sweeping(at) => if at.WaitLook? then Some(Wake(at.look.id)) else None
    case Forgetting(at) => if at.WaitOld? then Some(Wake(at.o.id)) else None
    case _ => None
  }

  predicate Available(locks: map<Lock, nat>, t: nat, want: set<Lock>) {
    forall l :: l in want && l in locks ==> locks[l] == t
  }

  /** These locks, all held by t. */
  ghost function HeldBy(want: set<Lock>, t: nat): (held: map<Lock, nat>)
    ensures held.Keys == want && forall l :: l in held ==> held[l] == t
  {
    if want == {} then map[]
    else
      var l :| l in want;
      HeldBy(want - {l}, t)[l := t]
  }

  /** Thread t gives up the locks it had and takes those of its next point. */
  ghost function Relock(locks: map<Lock, nat>, t: nat, had: set<Lock>, want: set<Lock>): map<Lock, nat> {
    (locks - had) + HeldBy(want, t)
  }

  /* ── reading the records ── */

  /** How long a sandbox has gone without use, and whether a turn is running. */
  function QuietFor(started: int, w: World, id: Id, now: int): (int, bool) {
    var recorded := if id in w.records && w.records[id].last != 0 then w.records[id].last else started;
    if id in w.spaces && w.spaces[id] in w.works then
      var space := w.works[w.spaces[id]];
      (now - (if space.lastActive > recorded then space.lastActive else recorded), space.busy)
    else
      (now - recorded, false)
  }

  function OwnerOf(w: World, id: Id): string {
    if id in w.records then w.records[id].owner else ""
  }

  /** The whole sleep policy. */
  function Decide(state: Container, busy: bool, quiet: int, cfg: SleepConfig): Action {
    var removable := cfg.removeAfter > 0 && quiet >= cfg.removeAfter;
    if busy then StayAwake
    else match state
      case Running =>
        if removable then RemoveIt
        else if quiet >= cfg.stopAfter then StopIt
        else if quiet >= cfg.pauseAfter then PauseIt
        else StayAwake
      case Paused =>
        if removable then RemoveIt else if quiet >= cfg.stopAfter then StopIt else StayAwake
      case Restarting => StayAwake
      case _ => if removable then RemoveIt else StayAwake
  }

  /* ── Docker commands ── */

  /** What a command's outcome may be: it succeeded, or it failed with or without
      having taken effect. The rest are the choices left open for a step. */
  datatype Choice = Choice(ok: bool, effect: bool, pick: Id, plan: RoomPlan, space: nat)

  function DoUnpause(cs: map<Id, Container>, id: Id): map<Id, Container> {
    if id in cs && cs[id].Paused? then cs[id := Running] else cs
  }

  function DoPause(cs: map<Id, Container>, id: Id): map<Id, Container> {
    if id in cs && cs[id].Running? then cs[id := Paused] else cs
  }

  function DoStop(cs: map<Id, Container>, id: Id): map<Id, Container> {
    if id in cs && IsAwake(cs[id]) then cs[id := Exited] else cs
  }

  function DoRemove(cs: map<Id, Container>, id: Id): map<Id, Container> {
    cs - {id}
  }

  /** A paused container can't be started. */
  function DoStart(cs: map<Id, Container>, id: Id): map<Id, Container> {
    if id in cs && !cs[id].Paused? then cs[id := Running] else cs
  }

  /** A container's name can't be taken twice. */
  function DoRun(cs: map<Id, Container>, id: Id): map<Id, Container> {
    if id in cs then cs else cs[id := Running]
  }

  /** The containers after a command: a failed one may have taken effect all the same. */
  function After(c: Choice, before: map<Id, Container>, done: map<Id, Container>): map<Id, Container> {
    if c.ok || c.effect then done else before
  }

  /** The volumes after one is deleted; a volume a container uses stays. */
  function AfterDrop(c: Choice, w: World, id: Id): set<Id> {
    if (c.ok || c.effect) && id !in w.containers then w.volumes - {id} else w.volumes
  }

  /* ── records and workspaces ── */

  function RecordOf(w: World, id: Id): Record {
    if id in w.records then w.records[id] else Record(0, "", false)
  }

  /** Marks a workspace as in use now. */
  function TouchRecord(w: World, id: Id, now: int): World {
    var works := if id in w.spaces && w.spaces[id] in w.works
                 then w.works[w.spaces[id] := w.works[w.spaces[id]].(lastActive := now)] else w.works;
    w.(records := w.records[id := RecordOf(w, id).(last := now)], works := works)
  }

  function Remember(w: World, id: Id, owner: string, hasRepo: bool, now: int): World {
    w.(records := w.records[id := Record(now, if owner != "" then owner else RecordOf(w, id).owner, hasRepo)])
  }

  function Forget(w: World, id: Id): World {
    w.(records := w.records - {id}, woken := w.woken - {id})
  }

  /** Copies a container's repository into its record when the record lacks it. */
  function KeepRepoLabel(w: World, id: Id, now: int): World {
    var r := if id in w.records then w.records[id] else Record(now, "", false);
    w.(records := w.records[id := r.(hasRepo := true)])
  }

  /* ── ensure (workspace.go) ── */

  /** A step's outcome: what it did to the world, and where the thread is next. */
  datatype Outcome = Impossible | Go(world: World, pc: Pc)

  function EnsureStep(k: Clock, w: World, r: Request, h: nat, at: EnsureAt, c: Choice): Outcome {
    match at
    case WaitOp => Go(w, Ensuring(r, h, MarkActive))
    case MarkActive =>
      // Refused when the workspace belongs to another repository.
      if !c.ok then Go(w, LeaveOp(h))
      else
        var space := if h in w.works then w.works[h] else Workspace(0, false);
        Go(w.(works := w.works[h := space.(lastActive := k.now)]), Ensuring(r, h, InspectFirst))
    case InspectFirst => Go(w, if c.ok then Ensuring(r, h, MergeLimits) else LeaveOp(h))
    case MergeLimits => Go(w.(limits := Merge(w.limits, r.limits)), Ensuring(r, h, RememberIt))
    case RememberIt =>
      Go(Remember(w, r.id, r.owner, !r.chat, k.now), Waking(Call(r.id, Some(h)), WaitWake))
  }

  /* ── wakeFor (sleep.go) ── */

  function WakeStep(k: Clock, w: World, call: Call, at: WakeAt, c: Choice): Outcome {
    var id := call.id;
    match at
    case WaitWake => Go(w, Waking(call, TouchIt))
    case TouchIt =>
      Go(TouchRecord(w, id, k.now).(woken := w.woken[id := k.now]), Waking(call, InspectIt))
    case InspectIt =>
      if !c.ok then Go(w, Waking(call, LeaveWake(Failed)))
      else if id !in w.containers then Go(w, Waking(call, ReadRecord))
      else (match w.containers[id]
        case Running => Go(w, Waking(call, LeaveWake(Won)))
        case Paused => Go(w, Waking(call, UnpauseIt))
        case _ => Go(w, Rooming(Job(call, Restart), WaitRoom)))
    case UnpauseIt =>
      // Paused already holds its slot.
      if c.ok && !(id in w.containers && w.containers[id].Paused?) then Impossible
      else Go(w.(containers := After(c, w.containers, DoUnpause(w.containers, id))),
              Waking(call, LeaveWake(if c.ok then Won else Failed)))
    case ReadRecord =>
      Go(w, Waking(call, if id in w.records && w.records[id].hasRepo then FindVolume else LeaveWake(Gone)))
    case FindVolume =>
      if c.ok && id !in w.volumes then Impossible
      else Go(w, if c.ok then Rooming(Job(call, Recreate), WaitRoom) else Waking(call, LeaveWake(Gone)))
    case LeaveWake(answer) =>
      Go(w, if call.op.None? then Finished
            else if answer.Gone? then Rooming(Job(call, Fresh), WaitRoom)
            else LeaveOp(call.op.value))
  }

  /* ── makeRoom and the start it makes room for (limits.go, sleep.go, workspace.go) ── */

  function AfterEvictions(job: Job, kept: Kept, queue: seq<Id>): RoomAt {
    if queue != [] then Evicting(kept, queue, TryIt)
    else if job.kind.Restart? then StartIt(kept) else MakeVolume(kept)
  }

  function BoxIds(boxes: seq<AwakeBox>): seq<Id> {
    seq(|boxes|, i requires 0 <= i < |boxes| => boxes[i].id)
  }

  /** What makeRoom reads of one awake sandbox. */
  function ReadBox(k: Clock, w: World, id: Id, now: int): AwakeBox {
    var (quiet, busy) := QuietFor(k.started, w, id, now);
    AwakeBox(id, OwnerOf(w, id), "", quiet, busy)
  }

  ghost function RoomStep(k: Clock, w: World, taken: set<Lock>, job: Job, at: RoomAt, c: Choice): Outcome {
    var id := job.call.id;
    match at
    case WaitRoom => Go(w, Rooming(job, ListAwake))
    case ListAwake =>
      Go(w, Rooming(job, if c.ok then ReadLimits(Awake(w.containers) - {id}) else LeaveRoom(false)))
    case ReadLimits(todo) => Go(w, Rooming(job, ReadBoxes(w.limits, k.now, todo, [])))
    case ReadBoxes(limits, now, todo, boxes) =>
      if todo == {} then PlanStep(w, job, limits, boxes, c)
      else if c.pick !in todo then Impossible
      else Go(w, Rooming(job, ReadBoxes(limits, now, todo - {c.pick}, boxes + [ReadBox(k, w, c.pick, now)])))
    case Evicting(kept, queue, evictAt) => EvictStep(w, taken, job, kept, queue, evictAt, c)
    case MakeVolume(kept) =>
      Go(w.(volumes := if c.ok || c.effect then w.volumes + {id} else w.volumes),
         Rooming(job, if c.ok then StartIt(kept) else LeaveRoom(false)))
    case StartIt(_) => StartStep(w, job, c)
    case Probe =>
      // A sandbox that reaches the web is removed; one that can't be asked stays.
      Go(w.(containers := if !c.ok && c.effect then DoRemove(w.containers, id) else w.containers),
         Rooming(job, LeaveRoom(c.ok)))
    case LeaveRoom(ok) =>
      Go(w, if job.kind.Fresh? then (if job.call.op.Some? then LeaveOp(job.call.op.value) else Finished)
            else Waking(job.call, LeaveWake(if ok then Won else Failed)))
  }

  ghost function PlanStep(w: World, job: Job, limits: Limits, boxes: seq<AwakeBox>, c: Choice): Outcome {
    var owner := OwnerOf(w, job.call.id);
    if !IsPlan(All(boxes), owner, limits.awakePerPerson, limits.awakePerNode, c.plan) then Impossible
    else if c.plan.Refuse? then Go(w, Rooming(job, LeaveRoom(false)))
    else
      var kept := Kept(limits, owner, All(boxes) - All(c.plan.boxes));
      Go(w, Rooming(job, AfterEvictions(job, kept, BoxIds(c.plan.boxes))))
  }

  function StartStep(w: World, job: Job, c: Choice): Outcome {
    var id := job.call.id;
    if job.kind.Restart? then
      if c.ok && !(id in w.containers && !w.containers[id].Paused?) then Impossible
      else Go(w.(containers := After(c, w.containers, DoStart(w.containers, id))), Rooming(job, LeaveRoom(c.ok)))
    else
      // docker run makes the volume when it is missing.
      if c.ok && id in w.containers then Impossible
      else Go(w.(containers := After(c, w.containers, DoRun(w.containers, id)),
                 volumes := if c.ok || c.effect then w.volumes + {id} else w.volumes),
              Rooming(job, if c.ok then Probe else LeaveRoom(false)))
  }

  function EvictStep(w: World, taken: set<Lock>, job: Job, kept: Kept, queue: seq<Id>, at: EvictAt, c: Choice): Outcome {
    if queue == [] then Go(w, Rooming(job, AfterEvictions(job, kept, queue)))
    else
      var box := queue[0];
      match at
      case TryIt =>
        // TryLock: being woken or put to sleep right now gives up at once.
        Go(w, Rooming(job, if Wake(box) in taken then LeaveRoom(false) else Evicting(kept, queue, InspectBox)))
      case InspectBox =>
        Go(w, Rooming(job, Evicting(kept, queue,
          if c.ok && box in w.containers && w.containers[box].Paused? then UnpauseBox else StopBox)))
      case UnpauseBox =>
        Go(w.(containers := After(c, w.containers, DoUnpause(w.containers, box))),
           Rooming(job, Evicting(kept, queue, StopBox)))
      case StopBox =>
        if c.ok && box !in w.containers then Impossible
        else Go(w.(containers := After(c, w.containers, DoStop(w.containers, box))),
                Rooming(job, Evicting(kept, queue, LeaveBox(c.ok))))
      case LeaveBox(ok) =>
        Go(w, Rooming(job, if ok then AfterEvictions(job, kept, queue[1..]) else LeaveRoom(false)))
  }

  /* ── the sweep (sleep.go) ── */

  function NextLook(look: Look): SweepAt {
    PickOne(look.found, look.todo, look.since)
  }

  /** What the sweep's command does. */
  function Sleep(cs: map<Id, Container>, look: Look): map<Id, Container> {
    match look.action
    case StayAwake => cs
    case PauseIt => DoPause(cs, look.id)
    case StopIt => DoStop(cs, look.id)
    case RemoveIt => DoRemove(cs, look.id)
  }

  function SweepStep(k: Clock, w: World, at: SweepAt, c: Choice): Outcome {
    match at
    case ListAll => Go(w, if c.ok then Sweeping(PickOne(w.containers, w.containers, k.now)) else Finished)
    case PickOne(found, todo, since) =>
      if todo == map[] then Go(w, Forgetting(ListOld(found, since)))
      else if c.pick !in todo then Impossible
      else
        var (quiet, busy) := QuietFor(k.started, w, c.pick, since);
        var action := Decide(todo[c.pick], busy, quiet, k.cfg);
        var look := Look(c.pick, todo[c.pick], action, found, todo - {c.pick}, since);
        Go(w, Sweeping(if action.StayAwake? then NextLook(look) else WaitLook(look)))
    case WaitLook(look) => Go(w, Sweeping(LookAgain(look)))
    case LookAgain(look) =>
      // Something may have used it while the lock was being taken.
      var (quiet, busy) := QuietFor(k.started, w, look.id, k.now);
      Go(w, Sweeping(
        if Decide(look.state, busy, quiet, k.cfg) != look.action then LeaveLook(look)
        else if look.action.StopIt? && look.state.Paused? then WakeFirst(look)
        else if look.action.RemoveIt? then KeepLabel(look)
        else Act(look)))
    case WakeFirst(look) =>
      Go(w.(containers := After(c, w.containers, DoUnpause(w.containers, look.id))), Sweeping(Act(look)))
    case KeepLabel(look) => Go(if c.ok then KeepRepoLabel(w, look.id, k.now) else w, Sweeping(Act(look)))
    case Act(look) => Go(w.(containers := After(c, w.containers, Sleep(w.containers, look))), Sweeping(LeaveLook(look)))
    case LeaveLook(look) => Go(w, Sweeping(NextLook(look)))
  }

  /** Deletes the volumes of sandboxes whose containers are long gone. */
  function ForgetStep(k: Clock, w: World, at: ForgetAt, c: Choice): Outcome {
    match at
    case ListOld(found, since) =>
      Go(w, if k.cfg.forgetAfter <= 0 then Finished else Forgetting(PickOld(w.records.Keys - found.Keys, since)))
    case PickOld(ids, since) =>
      if ids == {} then Go(w, Finished)
      else if c.pick !in ids then Impossible
      else
        var (quiet, busy) := QuietFor(k.started, w, c.pick, since);
        var o := Old(c.pick, ids - {c.pick}, since);
        Go(w, Forgetting(if busy || quiet < k.cfg.forgetAfter then PickOld(o.ids, since) else WaitOld(o)))
    case WaitOld(o) => Go(w, Forgetting(ReadQuiet(o)))
    case ReadQuiet(o) =>
      var (quiet, busy) := QuietFor(k.started, w, o.id, k.now);
      Go(w, Forgetting(InspectOld(o, quiet, busy)))
    case InspectOld(o, quiet, busy) =>
      Go(w, Forgetting(
        if busy || quiet < k.cfg.forgetAfter || !c.ok || o.id in w.containers then LeaveOld(o) else DropVolume(o)))
    case DropVolume(o) =>
      if c.ok && o.id in w.containers then Impossible
      else Go(w.(volumes := AfterDrop(c, w, o.id)), Forgetting(if c.ok then DropRecord(o) else LeaveOld(o)))
    case DropRecord(o) => Go(Forget(w, o.id), Forgetting(LeaveOld(o)))
    case LeaveOld(o) => Go(w, Forgetting(PickOld(o.ids, o.since)))
  }

  /* ── deleting a chat (workspace.go) ── */

  function RemoveStep(w: World, id: Id, at: RemoveAt, c: Choice): Outcome {
    match at
    case CloseSpace => Go(w.(spaces := w.spaces - {id}), Removing(id, DeleteRecord))
    case DeleteRecord => Go(Forget(w, id), Removing(id, DeleteContainer))
    case DeleteContainer =>
      Go(w.(containers := After(c, w.containers, DoRemove(w.containers, id))),
         if c.ok then Removing(id, DeleteVolume) else Finished)
    case DeleteVolume => Go(w.(volumes := AfterDrop(c, w, id)), Finished)
  }

  /* ── one step of one thread ── */

  /** The workspace this node has, or a new one with an op of its own. */
  function OpenStep(w: World, r: Request, c: Choice): Outcome {
    if r.id in w.spaces then Go(w, Ensuring(r, w.spaces[r.id], WaitOp))
    else if c.space in w.works then Impossible
    else Go(w.(spaces := w.spaces[r.id := c.space], works := w.works[c.space := Workspace(0, false)]),
            Ensuring(r, c.space, WaitOp))
  }

  ghost function Body(k: Clock, w: World, taken: set<Lock>, pc: Pc, c: Choice): Outcome {
    match pc
    case OpenSpace(r) => OpenStep(w, r, c)
    case Ensuring(r, h, at) => EnsureStep(k, w, r, h, at, c)
    case LeaveOp(_) => Go(w, Finished)
    case Waking(call, at) => WakeStep(k, w, call, at, c)
    case Rooming(job, at) => RoomStep(k, w, taken, job, at, c)
    case Sweeping(at) => SweepStep(k, w, at, c)
    case Forgetting(at) => ForgetStep(k, w, at, c)
    case Removing(id, at) => RemoveStep(w, id, at, c)
    case Finished => Impossible
  }

  /** A thread's step: blocked while another thread has a lock its next point holds. */
  ghost predicate StepOf(s: Node, t: nat, c: Choice, s': Node) {
    && t in s.threads
    && var next := Body(s.clock, s.world, s.locks.Keys, s.threads[t], c);
    && next.Go?
    && Available(s.locks, t, Holds(next.pc))
    && s' == Node(s.clock, next.world, Relock(s.locks, t, Holds(s.threads[t]), Holds(next.pc)), s.threads[t := next.pc])
  }

  /* ── the environment ── */

  datatype Event =
    | TimePasses(now: int)
    | Exits(id: Id)
    | Vanishes(id: Id)
    | Used(id: Id)
    | Opens(id: Id, space: nat)
    | Turn(space: nat, busy: bool)
    | Arrives(thread: nat, pc: Pc)

  /** A request, a preview or the sweep begins. */
  predicate Begins(pc: Pc) {
    || pc.OpenSpace?
    || (pc.Waking? && pc.wakeAt.WaitWake? && pc.call.op.None?)
    || (pc.Sweeping? && pc.sweepAt.ListAll?)
    || (pc.Removing? && pc.removeAt.CloseSpace?)
  }

  /** What happens besides the threads' own steps: a container exits or is taken away,
      a sandbox is used, a turn starts or ends. */
  function WorldAfter(w: World, now: int, e: Event): World {
    match e
    case Exits(id) => w.(containers := DoStop(w.containers, id))
    case Vanishes(id) => w.(containers := DoRemove(w.containers, id))
    case Used(id) => TouchRecord(w, id, now)
    case Opens(id, space) =>
      if id in w.spaces || space in w.works then w
      else w.(spaces := w.spaces[id := space], works := w.works[space := Workspace(now, false)])
    case Turn(space, busy) =>
      if space !in w.works then w else w.(works := w.works[space := Workspace(now, busy)])
    case _ => w
  }

  predicate Happens(s: Node, e: Event, s': Node) {
    && (e.TimePasses? ==> e.now >= s.clock.now)
    && (e.Arrives? ==> e.thread !in s.threads && Begins(e.pc))
    && s' == Node(if e.TimePasses? then s.clock.(now := e.now) else s.clock,
                  WorldAfter(s.world, s.clock.now, e),
                  s.locks,
                  if e.Arrives? then s.threads[e.thread := e.pc] else s.threads)
  }

  datatype Label = ByThread(thread: nat, choice: Choice) | ByEvent(event: Event)

  ghost predicate Step(s: Node, l: Label, s': Node) {
    match l
    case ByThread(t, c) => StepOf(s, t, c, s')
    case ByEvent(e) => Happens(s, e, s')
  }

  /** A node that has just started: nobody holds or waits for anything. */
  predicate Starts(s: Node) {
    && OrderedThresholds(s.clock.cfg)
    && s.clock.now > 0
    && s.locks == map[] && s.threads == map[]
    && s.world.woken == map[] && s.world.spaces == map[] && s.world.works == map[]
    && s.world.limits.awakePerPerson > 0 && s.world.limits.awakePerNode > 0
  }

  /** A run: the states in order, and what led from each to the next. */
  datatype Run = Run(states: seq<Node>, labels: seq<Label>)

  /** What led from this state of the run to the next. */
  ghost predicate StepAt(r: Run, i: nat)
    requires i < |r.labels| && |r.states| == |r.labels| + 1
  {
    Step(r.states[i], r.labels[i], r.states[i + 1])
  }

  ghost predicate IsRun(r: Run) {
    && |r.states| == |r.labels| + 1
    && Starts(r.states[0])
    && forall i :: 0 <= i < |r.labels| ==> StepAt(r, i)
  }
}
