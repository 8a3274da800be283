# Kimono: models and proofs

A Dafny model of the parts of Kimono where a mistake would be hardest to see, and proofs of
what they promise. Each module follows one part of the program.

**The sandbox node** (`Room`, `Node*`). Requests, the preview proxy and a sweep wake, pause,
stop, remove and forget containers at the same time. `Room` is the choice of whom to put to
sleep, proved against a statement of what the best choice is. `Node` is the node as a step
system: a thread's program point, its locks (a workspace's op, a sandbox's wake lock, the
room), the containers, volumes and records. A step is one Docker command or one critical
section under the server's or a workspace's mutex. A command may fail, with or without having
taken effect; containers exit, time passes and new threads arrive between any two steps.
`NodeLocks` proves that locks agree and that no interleaving deadlocks, `NodeCaps` and
`NodeSteady` the caps on awake sandboxes, `NodeQuiet` that the sweep acts only on what it
found quiet and respects a wake, `NodeRuns` runs in which the promises end, and `NodeConfig`
that the settings put the thresholds in the order all that rests on.

**The gateway** (`Links`, `PktLines`, `GitPush`, `Usage`). Links found in a stream cut anywhere, pushed refs
read from pkt-lines and forwarded, and model usage credited to workspaces.

**Deployment** (`Templates`, `Deployment`, `DeploymentPlan`, `Validate`, `Secrets`, `Sorting`,
`Disk`, `Render`, `RenderHolds`, `Restarts`). The portal fills in a plan; the reconciler
checks it, fills in secrets, writes the files on a disk whose every command can fail, prunes
and restarts.

**Firewall and backup** (`Firewall`, `Backup`, `Schedule`). A rule table transformed under
failing commands, with a packet semantics; a promote-then-prune protocol; a daily schedule.

**Changes and previews** (`Changes`, `Previews`). Git's two listings of a diff read back and
joined; the names and addresses of published apps.

`Common` has what they share.

## What the proofs found

- Recording another owner can put that person over the cap: at once when the sandbox is awake
  (`NodeSteady.RememberKeepsCapsIff`), or later, when a wake that made room for the owner
  before starts it (`NodeSteady.StartKeepsCapsIff`, with a run in `NodeRuns.StartBreaksCap`).
  Together with limits set below what is awake these are all the steps that can break a cap,
  each with its exact condition (`NodeSteady.StepKeepsCapsIff`).
- A forget that has made its check can still take the record an ensure made meanwhile, owner
  and repository with it (`NodeRuns.ForgetTakesRecord`); it takes another record than the one
  it read exactly when an ensure or a use wrote one in between (`NodeQuiet.ForgetTakesIff`).
  A removal takes the record a wake touched, so the sweep may put the sandbox to sleep at once
  (`NodeRuns.RemovalBreaksPromise`). What the sweep read under the lock is stated for every
  run; what a wake is promised, for runs in which the chat is not deleted, or its workspace
  stays open.
- A link of 4097 bytes is still seen whole, one more than the tail; no longer one is safe.
- Something that starts like a secret reference and is none is kept by a generated file but
  read by Compose as an unset variable, or makes Compose refuse the value.
- A render sets every mode unless a temporary file of another mode was left lying; the next
  render corrects it. A plan file named like another's temporary file is lost when that one
  comes later and is written anew, and reported without cause when it comes earlier; the main
  results say exactly when, for all plans with distinct destinations. Exactly such a file can
  be left torn by a render that stops (`RenderHolds.WholeIff`). A nested blueprint shields a
  stale one with its base name.
- Volumes are named by app and volume joined with a dash, so app "a" with volume "b-c" and app
  "a-b" with volume "c" have the same one; networks are kept apart. Services are named so too,
  and the later one takes the earlier one's place (`DeploymentPlan.ServiceHeldIff`).
- A read can note a link that is none of the tool's answer: the first half of one it cuts off,
  or the second half of one longer than the tail (`Links.NotedWithoutLink`).
- The mesh policy is added after the secrets are collected, so a reference in it would be the
  one thing a render does not find.
- What a render rewrote is reported once, so services that still had to be restarted when a
  pass failed after it are not restarted by the next pass.

## Model

| member | source | states |
|---|---|---|
| Room.PlanRoom | cli/internal/sandbox/limits.go:176-225 | Over every list of awake sandboxes with distinct identifiers: refuses exactly when no set of idle sandboxes leaves a free slot under both caps, naming exactly the working holders of the full cap; otherwise evicts idle sandboxes only, satisfies both caps, is as small as any set that does, and takes the person's own and then anyone's, each time the longest quiet first |
| Room.Take | cli/internal/sandbox/limits.go:182-200 | The inner loop stops exactly at one free slot, took idle candidates oldest first, and fails only when no idle candidate is left |
| Room.Held | cli/internal/sandbox/limits.go:201-209 | The candidates not chosen, each once |
| Room.Mine | cli/internal/sandbox/limits.go:211-216 | The owner's sandboxes, each once, still oldest first |
| Room.RefusalHolds | cli/internal/sandbox/limits.go:217-223 | When a phase runs out of idle candidates, no set of idle sandboxes would have done |
| Room.SortOrders | cli/internal/sandbox/limits.go:177-178 | The stable sort orders by quiet, longest first, and is a permutation |
| NodeLocks.RunKeepsLocks | cli/internal/sandbox/sleep.go:333-402 | In every run every lock has exactly the one holder its thread's program point says |
| NodeLocks.WaitsClimb | cli/internal/sandbox/workspace.go:186-242 | Every blocking acquisition waits for a lock above all held ones in the order op, wakeLock, room |
| NodeLocks.SomeoneIsFree | cli/internal/sandbox/limits.go:251-262 | Following holders upward from any unfinished thread reaches one that is not blocked |
| NodeLocks.HasStep | cli/internal/sandbox/workspace.go:163-257 | An unfinished thread always has a step, and the step needs no taken lock but the one the thread waits for |
| NodeLocks.NoDeadlock | cli/internal/sandbox/sleep.go:333-402 | In every reachable state with an unfinished thread, some unfinished thread can step |
| NodeCaps.StepAwake | cli/internal/sandbox/sleep.go:358-402 | A sandbox becomes awake only at the start or creation a thread made room for, and only that thread's own sandbox does |
| NodeCaps.RunKnows | cli/internal/sandbox/limits.go:229-270 | While a thread has the room, every other awake sandbox is among those it kept or still has to stop |
| NodeCaps.CapsHoldAtStart | cli/internal/sandbox/limits.go:229-270 | In every interleaving, right after a wake or ensure starts or creates a container at most the node's limit is awake, and at most the person's limit of those recorded as the owner's, by the limits and owners read |
| NodeSteady.CapsInvariant | cli/internal/sandbox/limits.go:229-270 | While limits are never lowered and the owner of no sandbox that is awake or about to be started changes, both caps are an invariant of every run that began within them |
| NodeSteady.RememberKeepsCapsIff | cli/internal/sandbox/sleep.go:125-141 | At this one step: recording an owner keeps the caps if and only if the owner is empty or unchanged, the sandbox is asleep, or the new owner has a free slot |
| NodeSteady.StartKeepsCapsIff | cli/internal/sandbox/sleep.go:388-400 | At a start or creation: the caps are kept if and only if nothing new wakes, or there is a free slot on the node and for the owner recorded by then, whoever it was when room was made |
| NodeSteady.MergeKeepsCapsIff | cli/internal/sandbox/limits.go:44-64 | Taking new limits keeps the caps if and only if what is awake is within them |
| NodeSteady.StepKeepsCapsIff | cli/internal/sandbox/limits.go:229-270 | Of all steps of all threads and all events, exactly those break the caps whose guard is not met: a recorded owner, new limits or a start, each with the condition above; every other step keeps them |
| NodeSteady.FirstBroken | cli/internal/sandbox/limits.go:229-270 | A run that began within the caps and is outside them has a first such step |
| NodeRuns.StartBreaksCap | cli/internal/sandbox/workspace.go:217-229 | A run from a started node that keeps both caps up to a wake's start, which breaks one: an ensure recorded a new owner with no free slot while the sandbox slept and its wake stood ready to start it |
| NodeQuiet.DecideWaits | cli/internal/sandbox/sleep.go:55-83 | With ordered thresholds the policy puts only idle sandboxes to sleep, each deeper sleep no earlier than the one before, none before PauseAfter |
| NodeQuiet.RunSaw | cli/internal/sandbox/sleep.go:240-243 | Whatever a sweep is about to do under a wake lock was due when rechecked, and no wake has touched the sandbox too recently for it |
| NodeQuiet.LookedBefore | cli/internal/sandbox/sleep.go:237-243 | Wherever a sweep acts it has, at an earlier state, looked again under the sandbox's wake lock and found that very action due, and has had the lock in every state since |
| NodeQuiet.SweepsOnlyQuiet | cli/internal/sandbox/sleep.go:224-265 | In every run, a container a sweep changes is of a sandbox it read as idle, with no turn running, for at least the action's threshold, never less than PauseAfter, whatever its last activity was; it read so under the wake lock, has had it since, and no wake is under way |
| NodeQuiet.ReadBefore | cli/internal/sandbox/sleep.go:294-302 | Wherever a sandbox is being forgotten, the thread has read how quiet it was under its wake lock, and has had the lock in every state since; the record is the one read then, or gone, or one an ensure or a use has written since |
| NodeQuiet.ForgetsOnlyQuiet | cli/internal/sandbox/sleep.go:278-314 | In every run, a volume a sweep deletes is of a sandbox that was on record, has no container, and was read as idle, with no turn running, for at least ForgetAfter, whatever its last activity was; it read so under the wake lock, has had it since, and no wake is under way |
| NodeQuiet.ForgetTakesIff | cli/internal/sandbox/sleep.go:294-306 | In every run, a record that a forget drops is another than the one it read if and only if an ensure recorded the sandbox or it was used between that reading and the drop, and exactly then it says it was used at the reading's time or later |
| NodeQuiet.TouchIsRemembered | cli/internal/sandbox/sleep.go:153-172 | While the chat is not deleted, a wake's touch is remembered, but for a forgetting, which comes no earlier than ForgetAfter after it |
| NodeQuiet.SweepRespectsWake | cli/internal/sandbox/sleep.go:224-265 | While the chat is not deleted, no sweep pauses, stops or removes a sandbox for PauseAfter after a wake's touch, even on a stale listing; only where ForgetAfter is set shorter than PauseAfter, with removal off, may it be as little as ForgetAfter |
| NodeQuiet.ForgetRespectsWake | cli/internal/sandbox/sleep.go:278-314 | While the chat is not deleted, no sweep deletes a sandbox's volume for ForgetAfter after a wake's touch |
| NodeQuiet.SweepRespectsOpenWake | cli/internal/sandbox/sleep.go:153-172 | While the workspace that was open at a wake's touch stays open, no sweep pauses, stops or removes the sandbox for PauseAfter after it, whatever the thresholds and whatever becomes of its record |
| NodeQuiet.ForgetRespectsOpenWake | cli/internal/sandbox/sleep.go:278-314 | Nor does a sweep delete its volume for ForgetAfter |
| NodeQuiet.ForgetsOnlyRecorded | cli/internal/sandbox/sleep.go:282-290 | Only sandboxes that were on record are ever considered for forgetting |
| NodeRuns.RemovalBreaksPromise | cli/internal/sandbox/workspace.go:474-490 | A run in which the chat is deleted right after a wake's touch, record and all, and a sweep pauses the still running sandbox at the time of that touch |
| NodeRuns.ForgetTakesRecord | cli/internal/sandbox/sleep.go:302-306 | A run in which that happens: a forget that has made its check drops the record an ensure made after it, owner and all, while that ensure waits to wake the sandbox |
| NodeConfig.Config.Defaults | cli/internal/sandbox/config.go:143-173 | Leaves the thresholds in order whatever was given, changes nothing that was in order, shortens nothing that was set and leaves off what was off; keeps caps that are set and leaves no cap unset. With removal off, forgetting is in order with nothing: it may stay below the pause and stop thresholds |
| NodeConfig.Config.DefaultWaits | cli/internal/sandbox/config.go:155-163 | A pause and stop threshold that are set are kept, stop raised to pause; a minute and a quarter of an hour otherwise |
| NodeConfig.Config.DefaultRemovals | cli/internal/sandbox/config.go:164-173 | Removal and forgetting stay off, or are raised to the threshold before them |
| Links.FindAllExact | cli/internal/sandbox/media.go:35 | The search finds exactly the leftmost longest matches of the link pattern |
| Links.LinksFoundWhole | cli/internal/sandbox/media.go:89-100 | However a stream is cut into reads, every match of at most 4097 bytes is matched whole in the chunk its last byte arrives with |
| Links.LongerLinksCanBeSplit | cli/internal/sandbox/media.go:28-33 | That bound is exact: every longer match is missed by every chunk when its last byte comes in a read of its own |
| Links.NotedWithoutLink | cli/internal/sandbox/media.go:89-100 | However a stream is cut into reads, what a read matches is no match of the stream if and only if the read ends in the middle of it, or it is the middle of a link whose beginning has left the tail |
| Links.Trim | cli/internal/sandbox/media.go:65-71 | Keeps only links of the last three hours, at most 300, and fewer than 300 only by as many as were older |
| Links.NoteEach | cli/internal/sandbox/media.go:60-64 | Every link found and kept is in the table as of now, and the others are as they were |
| Links.LinkScanner.RememberLinks | cli/internal/sandbox/media.go:50-72 | The table after a text's links are noted: all of them, or trimmed when over 300 |
| Links.LinkScanner.Read | cli/internal/sandbox/media.go:89-100 | The tail is always the last 4096 bytes seen, and each read notes the links of the tail with the new bytes; an empty read changes nothing |
| Links.NextPiece | cli/internal/sandbox/media.go:92-97 | Trimming the chunk to its last 4096 bytes leaves the tail of the whole stream |
| PktLines.DecodeSound | cli/internal/sandbox/gateway.go:192-227 | On success the consumed bytes are a prefix of the input framed line by line through the flush, and the refs are those of every non-shallow line, in order |
| PktLines.DecodeComplete | cli/internal/sandbox/gateway.go:192-227 | Framed readable lines decode to their refs and length, whatever follows the flush |
| PktLines.EncodeFramed | cli/internal/sandbox/gateway.go:190-191 | Git's pkt-line encoding frames its lines |
| PktLines.CommandLine | cli/internal/sandbox/gateway.go:216-225 | A command line, with or without newlines and capabilities, gives its ref |
| PktLines.PushRoundTrip | cli/internal/sandbox/gateway.go:192-227 | Decoding inverts git's encoding of any list of commands, whatever pack follows |
| GitPush.ReadPacket | cli/internal/sandbox/gateway.go:196-215 | One pkt-line read as it is framed, or the same problem the decoder names |
| GitPush.PushedRefs | cli/internal/sandbox/gateway.go:192-227 | The reading loop refuses, stops and collects exactly as decoding the whole body does |
| GitPush.BrokerPush | cli/internal/sandbox/gateway.go:245-272 | A push is forwarded byte for byte exactly when it is well formed and names only the workspace's branch; otherwise it is refused with 400 or 403 |
| Usage.Meter.MoveOn | cli/internal/sandbox/usage.go:79-96 | All of a reading after a reset, nothing when it fell or is the first, the difference otherwise; the window moves on |
| Usage.Meter.CreditTo | cli/internal/sandbox/usage.go:63-76 | A reading credits its workspace with both rises and moves both windows on |
| Usage.Meter.Take | cli/internal/sandbox/usage.go:99-108 | Hands back a workspace's credit and forgets it, and nothing else changes |
| Usage.Conserved | cli/internal/sandbox/usage.go:63-108 | Over every run, credits outstanding and credits taken add up to the sum of the rises |
| Usage.RisesTelescope | cli/internal/sandbox/usage.go:79-96 | The rises of one window add up to what the account used when readings never fall within a period, and to no less when they do |
| Usage.CreditsMatchAccount | cli/internal/sandbox/usage.go:63-108 | Over every run, what workspaces hold and were handed equals the account's own total when readings never fall within a period, and is never less |
| Secrets.ExpandSecrets | cli/internal/reconcile/plan.go:244-260 | Every reference replaced once by its value, or the missing names in order |
| Secrets.MissingIff | cli/internal/reconcile/plan.go:246-258 | Expansion succeeds exactly when every reference has a value |
| Secrets.ComposeValue | cli/internal/reconcile/render.go:32-42 | Doubles exactly the dollars that do not start a secret prefix |
| Secrets.ComposeAgreesIff | cli/internal/reconcile/render.go:32-42 | For every value whose references all have values, interpolating the escaped value gives the expanded value if and only if everything that starts like a reference is one |
| Secrets.LiteralSurvives | cli/internal/reconcile/render.go:30-42 | A value without secret prefixes comes back from Compose unchanged: no other dollar is interpreted |
| Secrets.MalformedIsLost | cli/internal/reconcile/render.go:35 | A concrete malformed reference that a generated file keeps and Compose reads as empty |
| Sorting.SortedKeys | cli/internal/reconcile/render.go:44-51 | The keys in their one strict order, whatever order they were met in |
| Sorting.OneOrder | cli/internal/reconcile/render.go:53-54 | A set of keys has one order, so output made from it is deterministic |
| Sorting.SortSorts | cli/internal/reconcile/render.go:151 | Sorting keeps every element and orders them |
| Disk.WriteFileIfChanged | cli/internal/reconcile/render.go:105-123 | On success the file has the wanted contents and change is reported exactly when they differed; a failure touches no more than the temporary file |
| Disk.PruneBlueprints | cli/internal/reconcile/render.go:211-235 | Removes exactly the generated top-level blueprints that are not known and says whether there were any; a failure has removed only such files |
| Render.PlaceFile | cli/internal/reconcile/render.go:157-182 | One generated file expanded and put where its kind belongs, with its mode; a file without a value for a secret, or for an absent mesh, changes nothing |
| Render.RenderFiles | cli/internal/reconcile/render.go:156-194 | All files placed in order, or an interrupted render |
| Render.Render | cli/internal/reconcile/render.go:141-207 | Done only when every secret has a value, with the disk and the result of the whole list of writes; without the plan's secrets nothing is touched; any other failure is an interrupted list of writes |
| Render.RewrittenIff | cli/internal/reconcile/render.go:185-193 | With distinct places, a file is reported exactly when it is written anew: its contents differed before the first write, or an earlier file that is written anew is put together in its place |
| Render.RewritesIff | cli/internal/reconcile/render.go:109-122 | With distinct places, a file differs when its turn comes exactly when a reader of the disk before the first write can tell so: its contents differ, or an earlier file that is written anew has it as its temporary file |
| Render.InPlaceIff | cli/internal/reconcile/render.go:157-182 | With distinct places, a file of the list is in place with its contents exactly when no later file that is written anew has it as its temporary file; otherwise it is gone |
| RenderHolds.FileInPlace | cli/internal/reconcile/render.go:141-207 | For every plan with distinct destinations: after a render a generated file is at its destination if and only if no later file that is written anew has it as its temporary file and it is not pruned; then its secrets are filled in, and its mode is the wanted one if and only if it was not written anew or no temporary file of another mode was lying there |
| RenderHolds.EachInPlace | cli/internal/reconcile/render.go:152-205 | The same of the environment and the Compose file, with the exact contents and mode |
| RenderHolds.NothingElseTouched | cli/internal/reconcile/render.go:141-207 | Any other path is as it was, unless it held a generated blueprint the plan does not know; then it is gone |
| RenderHolds.GeneratedLeft | cli/internal/reconcile/render.go:209-235 | A generated top-level blueprint is left only when a blueprint of the plan has its base name, and is that very file unless the plan's is nested |
| RenderHolds.BlueprintNotPruned | cli/internal/reconcile/render.go:164-166 | A blueprint of the plan is never among what is pruned; only another file lying where blueprints are and looking like one can be |
| RenderHolds.NestedShields | cli/internal/reconcile/render.go:166 | A nested blueprint keeps a stale top-level one of the same base name alive |
| RenderHolds.ComposeTempLost | cli/internal/reconcile/render.go:118-122 | A plan file named compose.yaml.new is gone after every render that changes the Compose file |
| RenderHolds.ReportedWithoutCause | cli/internal/reconcile/render.go:118-122 | A mounted file named like an earlier one's temporary file is reported whenever that one differs, even when its own contents are current |
| RenderHolds.ReportedWithoutCauseAt | cli/internal/reconcile/render.go:118-122 | A plan and a disk at which that happens |
| RenderHolds.ChangedFilesIff | cli/internal/reconcile/render.go:185-193 | For every plan with distinct destinations, reported are exactly the mounted files that are written anew, as the disk before the render tells |
| RenderHolds.FlagsIff | cli/internal/reconcile/render.go:187-205 | For every plan with distinct destinations, the mesh and blueprint flags are up exactly when a file of that kind is written anew or, for blueprints, one is pruned, and the Compose flag exactly when that file differed |
| RenderHolds.SecondTimeQuiet | cli/internal/reconcile/render.go:141-207 | For every plan with distinct destinations, the render after a render reports nothing changed if and only if the first one left every file in place: none lost to a later one and none pruned |
| RenderHolds.ModesSettle | cli/internal/reconcile/render.go:109-117 | When every file is left in place, the second render puts right every mode a leftover temporary file had spoiled |
| RenderHolds.FailureLeavesWhole | cli/internal/reconcile/render.go:118-122 | For every plan with distinct destinations, a render that stops anywhere leaves every file whole, as it was or as it was to be or pruned, over which no file that is written anew is put together |
| RenderHolds.StopsTorn | cli/internal/reconcile/render.go:118-122 | A write that is due can stop with anything left in the file's temporary file, with the mode such a write gives it |
| RenderHolds.WholeIff | cli/internal/reconcile/render.go:105-122 | For every plan with distinct destinations and every file, every stop leaves it whole if and only if no file that is written anew has it as its temporary file, which the names and the disk before the render tell |
| Restarts.ServicesMountingChangedFiles | cli/internal/reconcile/apply.go:221-246 | In order, exactly the services that mount a changed file |
| Restarts.MountsIff | cli/internal/reconcile/apply.go:228-233 | Cutting a mount at its first colon finds exactly the mounts of the form ./file: |
| Restarts.RestartedIff | cli/internal/reconcile/apply.go:248-258 | For every plan with distinct destinations, a service is restarted after a render exactly when it mounts a file that was written anew |
| Restarts.ReportedOnce | cli/internal/reconcile/apply.go:109 | When a render left every file in place, the pass after it restarts nothing, even if the pass before stopped short of restarting |
| Restarts.NextPassRestartsIff | cli/internal/reconcile/apply.go:221-258 | For every plan with distinct destinations, the pass after a render restarts a service if and only if it mounts a file that render lost or pruned, or one such a file is put together in the place of |
| Validate.ValidReferences | cli/internal/reconcile/plan.go:125-183 | Accepts exactly the plans that declare every network, dependency, volume, file and service they refer to, and any plan with no services and no files |
| Validate.ServiceValid | cli/internal/reconcile/plan.go:140-154 | A service passes exactly when its networks, dependencies and mounts are declared |
| Templates.ReferenceFound | apps/portal/src/lib/deployment.ts:400-408 | A reference is found whatever text stands around it |
| Templates.TokenReplaced | apps/portal/src/lib/deployment.ts:55-65 | A token that starts anywhere in a template is replaced, and the rest kept |
| Templates.SecretTokenFound | apps/portal/src/lib/deployment.ts:60 | Every secret a template asks for is a reference that collecting finds |
| Deployment.BuildEnvironment | apps/portal/src/lib/deployment.ts:286-305 | A service's variables: its templates resolved, fields added but never over them, sign-in last |
| Deployment.VolumeMountValid | cli/internal/reconcile/plan.go:212-234 | A declared volume at an absolute path is a valid mount |
| Deployment.FileMountValid | cli/internal/reconcile/plan.go:212-234 | A generated file mounted read-only at an absolute path is a valid mount |
| DeploymentPlan.AddService | apps/portal/src/lib/deployment.ts:279-324 | Adds the service with its volumes and settings file, as written |
| DeploymentPlan.ServiceAddedKeeps | apps/portal/src/lib/deployment.ts:279-324 | Adding a service keeps everything closed but for the app's services still to come |
| DeploymentPlan.AddApp | apps/portal/src/lib/deployment.ts:263-344 | Adding an app declares its network, all its services, its setup and, when it signs people in, its blueprint, and leaves the plan closed |
| DeploymentPlan.AddTunnel | apps/portal/src/lib/deployment.ts:352-390 | Adding a tunnel leaves the plan closed, with its connector or its sites when it has what it needs |
| DeploymentPlan.CollectSecretNames | apps/portal/src/lib/deployment.ts:402-408 | In order, exactly the secrets some variable or file refers to |
| DeploymentPlan.RenderDeploymentPlan | apps/portal/src/lib/deployment.ts:253-398 | Every plan built from valid definitions is closed; its mounts are of generated files; its services are exactly the apps' and the tunnels', put in one by one in order, each in the place of what has its name; its networks and setups are exactly the apps'; its secrets are exactly those referred to outside the mesh policy |
| DeploymentPlan.ServiceHeldIff | apps/portal/src/lib/deployment.ts:278-325 | A name stands for the last service put under it: when the ids in its definition differ, a planned service is in the plan if and only if nothing put there later has its name; it is not when the last one that has is another app's or a tunnel's |
| DeploymentPlan.LaterAppReplaces | apps/portal/src/lib/deployment.ts:40 | A later app's service takes the place of an earlier app's whose joined name it meets |
| DeploymentPlan.RenderFindsAll | cli/internal/reconcile/render.go:141-161 | Once the plan's secrets are published, rendering finds every value if and only if the mesh policy refers only to published ones |
| DeploymentPlan.PrivateStaysPrivate | apps/portal/src/lib/deployment.ts:267-268 | Two services that share a network other than the edge belong to one app |
| DeploymentPlan.JoinedAlikeIff | apps/portal/src/lib/deployment.ts:40 | Two joined names are the same exactly when app and own name are, or one app's id continues the other's after a dash and the own names continue accordingly |
| DeploymentPlan.VolumesSharedIff | apps/portal/src/lib/deployment.ts:281-284 | Two services' volumes have one in common exactly when such names meet; apps whose ids do not continue each other share none |
| DeploymentPlan.VolumesCanBeShared | apps/portal/src/lib/deployment.ts:282 | Two apps and volumes whose joined names are the same |
| DeploymentPlan.EdgeOnlyRouted | apps/portal/src/lib/deployment.ts:321 | A service is on the edge only when a route leads to it or it is a tunnel's connector |
| DeploymentPlan.SecretTokenPublished | apps/portal/src/lib/deployment.ts:392-408 | A secret that a service's template asks for is among the plan's secrets, unless sign-in sets the variable or a service put in the plan later has the name |
| Firewall.PlanFirewall | cli/internal/sandbox/firewall.go:62-103 | The rules of both families, or a refusal exactly when an address the rules need is missing |
| Firewall.Apply | cli/internal/sandbox/firewall.go:119-136 | Over any rule tables, whatever change, listing or check fails: when it succeeds, every chain is rebuilt and every jump ensured, and no jump is doubled when every listing and check answered truly; when it fails, the first chains are rebuilt and the next holds the first of its rules, or all are and the first jumps are ensured |
| Firewall.EnsureJumps | cli/internal/sandbox/firewall.go:140-155 | When it succeeds, every missing jump is first in its chain and nothing else changed, but for a jump put first once more when its check failed; when it fails, that holds of the first jumps, and DOCKER-USER may have been made for the next |
| Firewall.EnsuredKeeps | cli/internal/sandbox/firewall.go:140-155 | However the checks answered, a chain keeps its rules in order behind the jumps put into it |
| Firewall.EnsuredInPlace | cli/internal/sandbox/firewall.go:140-165 | And every jump is there |
| Firewall.FailureKeepsOthers | cli/internal/sandbox/firewall.go:119-155 | However far a failed application came, a foreign chain keeps all its rules in order, behind at most the jumps into it, and is untouched when none goes there |
| Firewall.AppliedRules | cli/internal/sandbox/firewall.go:119-155 | Kimono's chains are the plan's, a parent chain gets its jump in front when it lacked it, and every foreign chain and rule is where it was |
| Firewall.AppliedTwice | cli/internal/sandbox/firewall.go:116-118 | Applying again changes nothing |
| Firewall.AppliedInPlace | cli/internal/sandbox/firewall.go:158-165 | Afterwards every jump is in place, whatever gateway port the check is asked about |
| Firewall.FamilyPackets | cli/internal/sandbox/firewall.go:64-92 | Where a jump was missing or first, every new packet from the sandbox subnet is rejected, but for TCP to the gateway's port, which is left to the rules that were there |
| Backup.Choose | cli/internal/backup/worker.go:282-304 | Chooses exactly the selected items of a sound plan with none declared twice and none missing, and refuses any other |
| Backup.ManifestOrder | cli/internal/backup/worker.go:305-306 | A manifest holds exactly the selected items, each once, every database export before every file copy, and plan order otherwise |
| Backup.SwitchedOnIsTaken | cli/internal/backup/config.go:109-120 | Every item switched on in an enabled app is in the manifest |
| Backup.Worker.Capture | cli/internal/backup/worker.go:315-334 | Exports the items in order, and stops at the first failure |
| Backup.Worker.Store | cli/internal/backup/worker.go:347-360 | Promotes only an upload that finished, and drops nothing |
| Backup.Worker.TakeBackup | cli/internal/backup/worker.go:277-361 | On success the promoted snapshot holds exactly the chosen items in manifest order; without a promotion the complete snapshots are as they were |
| Backup.Worker.BackUpAndRetain | cli/internal/backup/worker.go:170-183 | Retention runs only after this run's promotion; a run that fails before it leaves the complete snapshots unchanged |
| Backup.Worker.Perform | cli/internal/backup/worker.go:142-191 | A backup reported as a success has its promoted snapshot with exactly what was selected; whether it fails or not, without a promotion of this run the complete snapshots are as they were, and they are dropped by nothing but retention after one |
| Schedule.InstantBetween | cli/internal/backup/config.go:155-167 | A scheduled instant lies between any success and a later scheduled attempt |
| Schedule.OnePerSlot | cli/internal/backup/config.go:155-167 | At most one scheduled backup whose success was saved falls in each slot, and none in one that already had a success; a run that promoted its snapshot and stopped before saving that counts as interrupted |
| Schedule.AnHourApart | cli/internal/backup/worker.go:153-155 | Scheduled attempts are at least an hour, in whole seconds, after any earlier attempt |
| Schedule.FailedSlotIsRetried | cli/internal/backup/worker.go:74-99 | A failed or interrupted attempt is due again the same UTC day exactly from an hour after it |
| Schedule.MissedSlotIsDue | cli/internal/backup/config.go:160-166 | At every tick of every run a backup is due if and only if backups are on, the day's instant has come, no success so far ended in this slot, and no attempt so far began within the hour; what the status file said counts until a tick replaces it |
| Changes.ParseNameStatus | cli/internal/sandbox/files.go:306-333 | The index loop reads exactly the listing's fields as the reference reading does |
| Changes.ParseNumstat | cli/internal/sandbox/files.go:337-358 | The index loop fills exactly the counts the reference reading gives |
| Changes.NameStatusRoundTrip | cli/internal/sandbox/files.go:306-333 | Parsing inverts git's -z name-status listing of any adds, deletes, edits, renames and copies, whatever bytes but NUL a path holds |
| Changes.NumstatRoundTrip | cli/internal/sandbox/files.go:337-358 | Parsing inverts git's -z numstat listing of the same changes |
| Changes.Join | cli/internal/sandbox/files.go:408-410 | Each file gets the counts of its path |
| Changes.OwnCounts | cli/internal/sandbox/files.go:408-410 | With distinct new paths, each file's counts are its own |
| Changes.ListingsJoin | cli/internal/sandbox/files.go:406-410 | Read from git's two listings, every file has its path, its status and its own counts |
| Previews.NameForIsName | cli/internal/sandbox/preview.go:60-82 | A made name always has the form names have |
| Previews.LabelOnDomain | cli/internal/sandbox/preview.go:91-118 | On a domain, the label of a preview's own address is its name |
| Previews.LabelOnLocalhost | cli/internal/sandbox/preview.go:91-118 | On localhost too, whatever the port |
| Previews.Previews.SetPreview | cli/internal/sandbox/preview.go:184-204 | Records the app under the name it had or a made one, and says the person should hear of it exactly when it is new, changed port or kind, or had been stopped |
| Previews.Previews.SetStopped | cli/internal/sandbox/preview.go:207-216 | Marks the app, and nothing else changes |
| Previews.Previews.ClearPreview | cli/internal/sandbox/preview.go:257-266 | Takes the app away and says whether it was there |
| Previews.Previews.RenamePreview | cli/internal/sandbox/preview.go:639-661 | Renames exactly when the name is well formed, not kept for the domain and taken by no other app |
| Previews.RunsLoseNothing | cli/internal/sandbox/preview.go:146-216 | Over every run of publishes, stops, clears, renames and restarts, every stored preview passes the filter, saving and loading loses none, and no two apps have one name |

## Left out

- Docker, iptables, restic, cloudflared, Headscale, Authentik and git as programs: a command is a step that may fail; its text is not modelled. A command killed by a deadline that takes effect later is not modelled.
- NodeSteady.CapsInvariant: only for runs that lower no limit and change the owner of no sandbox that is awake or about to be started, because the code does not keep the caps otherwise; StepKeepsCapsIff says for every run which steps break them.
- NodeCaps.CapsHoldAtStart: the person's cap is by the owners read when room was made; an owner recorded between that reading and the start is not counted here, but in StartKeepsCapsIff.
- NodeQuiet.SweepRespectsWake: only while the chat is not deleted, because that drops the touch with the record; that the bound by ForgetAfter is ever reached is not claimed. SweepsOnlyQuiet has no such condition, and SweepRespectsOpenWake no such bound.
- NodeQuiet.ForgetRespectsWake: only while the chat is not deleted, for the same reason; ForgetsOnlyQuiet has no such condition.
- Node: the sweep's listing and its reading of the clock are one step, and a failed creation leaves a running container or none; sections under the server's and a workspace's mutex are single steps, so the inner end of the lock order is not part of the deadlock proof; disk measuring, the checkout after an ensure, turns and the upgrade of a connection are not part of this model.
- Links: what is undone of JSON escaping in a link is a parameter.
- GitPush: gzip, HTTP headers, the proxying and the check of the request path are not part of this model.
- Usage: floats are reals.
- Secrets.ComposeAgreesIff: the secrets' names are of the form the portal gives them; Compose's braced forms with a default or an error are read as malformed.
- Disk: reading an existing file does not fail, directories are not files, and the process's umask is ignored; what a write that stopped leaves in its file may be anything.
- Render: the text of the Compose file is part of the plan; paths join without cleaning, as for the file names validation lets through.
- RenderHolds.FileInPlace: two plan files with the same destination, such as a blueprint and a project file where those directories overlap, are not covered; the same for the other main results of that module.
- Restarts: bringing the project up, reloading the proxy, provider actions, blueprints and setup scripts after the restarts.
- Validate.ValidReferences: only the checks between parts of a plan; the forms of names, images, variables, hostnames and provider actions are not part of this model, nor is the bound of 63 characters on the names the portal joins.
- Deployment: the texts of settings documents, blueprints, setup scripts, proxy sites and tunnel configurations are parameters, and so is the path of a tunnel's credentials; warnings, provider actions and backup items are left out.
- DeploymentPlan.RenderDeploymentPlan: a service whose name a later service has is replaced by it, as in the code; ServiceHeldIff says when.
- Firewall: removing the rules, and a table changed by someone else while commands run.
- Backup: restoring and checking; restic is taken never to drop the newest complete snapshot, as every retention keeps at least one daily one.
- Schedule: clocks go forward, and one worker lock serves all ticks.
- Schedule.OnePerSlot: a snapshot that was promoted by a run that stopped before its status was saved is not counted, because the next tick does not know of it; two snapshots can then be promoted in one slot.
- Changes: a path is taken to be non-empty; the diff's own text is cut and passed on unread.
- Previews: names, branches and hosts are ASCII; the kind told for an app, its directory and the trimming of a chosen name are given; a made name is new.
- HTTP handlers, DNS, the mobile and desktop apps, the portal's pages and sign-in.
