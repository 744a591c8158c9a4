# pgcluster: a verified model

This project models pgcluster, a manager for clusters of PostgreSQL instances, in Dafny 4.11
and proves properties of the model. It covers the admin service (`pgcluster-admin`), parts of
the cluster node (`pgcluster`) and of the host agent (`vk-agent`).

Most components are protocols. Each is a state machine: a datatype for the state, a total
function `Next(state, event)` in which an event that cannot happen changes nothing, and
`Run(state, events)` for any list of events. A theorem about `Run` speaks of every reachable
state and of every interleaving. A crash, a failed write, a lost answer and a node that lags
are events. Where the program updates rows or fields step by step, a class does the same with
loops, and its methods are proved to do what `Next` or a specification function says.

Check everything with `dafny verify dfyconfig.toml`.

| file | what it holds |
|---|---|
| `Common`, `Bytes`, `Decimal` | options, set sizes, byte order, decimal text |
| `Generations` | what nodes report, and waiting for them |
| `AdminCa`, `AdminCaProgress` | rotation of the admin CA through `trust`, `issue` and `trim` |
| `Operations`, `Engine`, `EngineBound`, `EngineProgress`, `AccessGate`, `EngineTasks`, `Reconciler` | operations, their steps, reconcilers and tasks |
| `DatabaseCa`, `Passwords` | the two rotations inside a database |
| `Scheduler` | the choice of hosts |
| `Fleet`, `FleetPorts`, `FleetMembers`, `FleetLoad`, `FleetOvercommit`, `FleetLife`, `Inventory`, `NodeNames` | nodes, ports, Raft IDs and room on hosts |
| `Candidate`, `SyncFallback` | failover and the fallback from synchronous commit |
| `Scanner`, `Startup`, `StartupText` | the proxy's wire protocol |
| `Calendar`, `Fencing`, `Admission` | timestamps, self-fencing, connection caps |

## What the environment is taken to do

- Admin CA: there is one service instance. Signing a certificate and recording its CA are one
  step. The answer reaches the host in that step, or, for a renewal, is lost for good. A host puts
  bundles in place in the order it fetched them. A host that enrols again starts with nothing but what it enrolled with.
- Database rotations: nodes join and leave between rotations, not during one, as the service allows
  one operation at a time. A node that joins starts from the secrets of that moment. Nodes in
  `steady` are never excused as offline; the theorems are about them. A task reports success only if every
  role changed.
- Engine: a running step does not end in an error of its own. `Clocked` says that a claim is
  dated before the end of the step before it by no more than a given skew.
- Fleet: capacities and failure domains of hosts do not change. Sizes are real numbers.
- Candidate: what a standby has received never shrinks, and the failed primary acknowledges
  nothing once a standby has answered.
- Sync fallback: the mode is `sync`, the primary stays the same, and there is a standby to name.
  A failed Raft write has taken effect when it returns or never does. A failed call for the
  setting may also take effect at any later time.
- Fencing: recording a heartbeat is one step. `NeverLate` takes loops that come round every
  second and iterations that take no time.

## Where a promise does not hold as it stands

Each of these comes with the exact condition under which the promise holds, proved both ways.
Where the condition guards an event, `Next` takes that event only under it, and the theorems
about runs cover everything else without restriction. For resizes the condition is on the run
(`Careful`).

- Enrolling a host while the service moves from `trust` to `issue` can lock that host out. So can
  enrolling one again in `trust` while the bundle it reported before is still on record
  (`AdminCa.EnrollingIsSafeExactlyWhen`). Enrolling one during `issue` can leave it trusting the old
  CA after the rotation ends (`AdminCa.EnrollingIsCleanExactlyWhen`).
- After two calls of `apply` that failed part-way the service can sign certificates it does not
  accept, and a host that renews then is locked out (`AdminCa.RenewingIsSafeExactlyWhen`).
- The service records a renewal before the host has the answer. A lost answer can let `issue` end
  while the host still holds a certificate of the old CA (`AdminCa.LosingIsSafeExactlyWhen`).
- A second CA or password rotation started over a failed one can break trust or logins
  (`DatabaseCa.StartingIsSafeExactlyWhen`, `Passwords.StartingIsSafeExactlyWhen`). So can renewing a
  node's certificate after a CA rotation that failed early (`DatabaseCa.RenewingIsSafeExactlyWhen`),
  and so can adding a node then (`DatabaseCa.JoiningIsSafeExactlyWhen`).
- A resize looks only at hosts of nodes that are not retracted, so it can overfill a host where
  a retracted node still runs (`FleetLoad.AllowedResizeIsSafeExactlyWhen`).
- The fence loop looks once and then asks and stops. A heartbeat after that look, or one inside
  an iteration of the watchdog, can be followed by a stop (`Fencing.HeartbeatIsSafeExactlyWhen`). So
  can a detach after the look (`Fencing.DetachIsFinalExactlyWhen`).
- A call that ends waiting for standbys, given up on and still under way, can take effect after
  the flag is cleared, or unnoticed before it (`SyncFallback.TickIsSafeExactlyWhen`).
- A timestamp before the epoch reads as the epoch, and one after year 9999 is not RFC 3339
  (`Calendar.TextRoundTrip`).
- A refused connection leaves an entry of zero in the per-address map exactly when that limit is
  zero, a permit was free and the address had no entry (`Admission.RefusalHoldsNothing`).

## Model

| member | source | states |
|---|---|---|
| AdminCa.WaitingFor | pgcluster-admin/src/rotation.rs:127-139 | a phase waits for nobody exactly when every host has caught up with it |
| AdminCa.NeverLockedOut | pgcluster-admin/src/rotation.rs:81-217 | in every run that enrols, renews and loses answers at safe moments, with `apply` failing anywhere and crashes and failed writes before a phase is stored, each host trusts what the service presents and the service trusts what the host holds |
| AdminCa.EnrollingIsSafeExactlyWhen | pgcluster-admin/src/agent.rs:135-180 | enrolling a host, for the first time or again, can never break that trust if and only if, in `trust`, no move to `issue` is under way and no report of the bundle from before is on record |
| AdminCa.EnrollingAgainCanLockOut | pgcluster-admin/src/lib.rs:52-61 | a run with no move under way after which enrolling a known host again locks it out |
| AdminCa.RenewingIsSafeExactlyWhen | pgcluster-admin/src/agent.rs:182-197 | renewing a host's certificate can never break that trust if and only if the service accepts what it signs |
| AdminCa.RenewingCanLockOut | pgcluster-admin/src/rotation.rs:92-102 | a run with two failures of `apply` after which it does not |
| AdminCa.LosingIsSafeExactlyWhen | pgcluster-admin/src/agent.rs:182-197 | losing the answer to a renewal can never break that trust if and only if it does not record a certificate of a rotation's new CA for a host that holds another |
| AdminCa.RenewalCanBeLost | pgcluster-admin/src/agent.rs:182-197 | a run into `issue` after which it would |
| AdminCa.LostAnswerIsRecorded | pgcluster-admin/src/agent.rs:182-197 | an answer that is lost changes what is on record and nothing at the host |
| AdminCa.MoveCanBeUnderWay | pgcluster-admin/src/rotation.rs:189-203 | a run after which a move from `trust` to `issue` is under way and enrolling is unsafe |
| AdminCa.IssueIsReached | pgcluster-admin/src/rotation.rs:189-217 | a run into `issue`, where enrolling is safe and not clean |
| AdminCa.OnlyTheNewCaIsLeft | pgcluster-admin/src/rotation.rs:189-217 | the event that ends a rotation leaves only the new CA trusted on both sides, signing and on disk, if no host enrolled during `issue` |
| AdminCa.EnrollingIsCleanExactlyWhen | pgcluster-admin/src/agent.rs:135-180 | of the safe moments to enrol, exactly those outside `issue` never leave the old CA trusted |
| AdminCaProgress.RotationCanFinish | pgcluster-admin/src/rotation.rs:81-217 | after every run with no rotation stored, whatever hosts there are, a continuation in which one is seen through and every host, the service and its disk are on the new CA alone |
| AdminCa.RestartsInItsPhase | pgcluster-admin/src/rotation.rs:110-115 | after every run, a service that dies comes back in the stored phase, with the signer, the listeners and the trust of that phase |
| AdminCa.ApplyIsAPrefix | pgcluster-admin/src/rotation.rs:81-107 | wherever `apply` stops, the first of its four writes are done and the others are not |
| AdminCa.OneMoveAtATime | pgcluster-admin/src/rotation.rs:189-217 | no check begins while a move is under way, one that cannot be stored leaves the phase, and a failed start is made good |
| AdminCa.AdminService.ApplyPhase | pgcluster-admin/src/rotation.rs:81-107 | applying a phase changes signer, listeners and disk in that order, stopping where it fails |
| AdminCa.AdminService.StartRotation | pgcluster-admin/src/rotation.rs:158-186 | a start is refused while a rotation runs and is otherwise the start event |
| AdminCa.AdminService.Boot | pgcluster-admin/src/rotation.rs:110-115 | a boot takes the CA on disk and resumes the stored phase |
| AdminCa.AdminService.Advance | pgcluster-admin/src/rotation.rs:189-217 | one uninterrupted call of `advance` is the check, apply, store and finish events |
| Operations.AccessFollowsBackup | pgcluster-admin/src/operations.rs:79-151 | only `create` and `promote` open access, and only after a first backup step |
| Operations.WorkComesInOrder | pgcluster-admin/src/operations.rs:79-151 | in every kind of operation, the work a step builds on is listed before it |
| Operations.WhatIsPublishedIsWaitedFor | pgcluster-admin/src/operations.rs:79-151 | what a step publishes is waited for before anything more is published |
| Operations.WorkIsListed | pgcluster-admin/src/operations.rs:79-151 | each step an operation is there for is one of its steps |
| Operations.NothingElseIsListed | pgcluster-admin/src/operations.rs:79-151 | besides that it only waits and closes |
| Operations.OnlyTheLastCloses | pgcluster-admin/src/operations.rs:79-151 | the last step, and no other, closes the operation |
| Engine.RunKeepsInv | pgcluster-admin/src/reconciler.rs:102-180 | in every run, steps before the first pending one are done, later ones untouched, a later operation starts only once earlier ones ended, and claims are of separate rows |
| Engine.EventMoves | pgcluster-admin/src/reconciler.rs:149-178 | an event leaves an operation alone, supersedes an active one, or runs its first pending step to one of three ends |
| Engine.OneAtATimeInOrder | pgcluster-admin/src/reconciler.rs:102-124 | a step runs only with every earlier operation of its database ended and no later one begun, and changes no other step |
| Engine.NoTwoAtOnce | pgcluster-admin/src/reconciler.rs:104-124 | two reconcilers never hold claims on active operations of one database |
| Engine.SucceededExactlyWhenAllDone | pgcluster-admin/src/reconciler.rs:845-864 | an operation has succeeded if and only if all its steps are done |
| Engine.EndedIsForever | pgcluster-admin/src/api/databases.rs:810-827 | an ended operation, and a done step, never change again |
| Engine.TaskStepEnds | pgcluster-admin/src/reconciler.rs:149-178 | after every run, a claimed step that hands out a task is done exactly when the task succeeded, failed exactly when it failed or is unanswered past the deadline, and pending otherwise |
| Engine.OtherStepEnds | pgcluster-admin/src/reconciler.rs:182-256 | the same for every other step and the outcome its rows give it |
| Engine.ClaimedExactlyWhen | pgcluster-admin/src/reconciler.rs:102-124 | after every run, a free reconciler gets a step exactly when it is the next of an active operation, its time has come, earlier operations of the database have ended and nobody holds it |
| Engine.CrashFreesTheStep | pgcluster-admin/src/reconciler.rs:102-124 | a reconciler that dies changes no row, and its step is free |
| Engine.DeleteIsNeverHeldUp | pgcluster-admin/src/api/databases.rs:796-845 | a delete ends all the database has under way, leaves other databases alone and can be claimed at once |
| Engine.WorkIsDoneInOrder | pgcluster-admin/src/operations.rs:79-151 | in every run, a step about to run finds the work it builds on done |
| EngineProgress.EveryKindCanSucceed | pgcluster-admin/src/operations.rs:79-151 | for every kind of operation, a run from the empty state in which it succeeds |
| EngineBound.AttemptsAreCommits | pgcluster-admin/src/reconciler.rs:149-178 | the attempts recorded on an operation are the claims of it that committed |
| EngineBound.EndsWithinBound | pgcluster-admin/src/operations.rs:153-165 | an operation of n steps and T seconds commits at most T + n + 1 claims and the clock skews of n steps, so ends within T + 2n while those are under n seconds |
| AccessGate.FirstAnswerStands | pgcluster-admin/src/agent.rs:547-584 | once a task has an answer, later and duplicate results change nothing |
| AccessGate.SuccessWasReported | pgcluster-admin/src/agent.rs:547-584 | a task has succeeded only if a host reported so while the task was pending |
| AccessGate.AccessNeedsABackup | pgcluster-admin/src/agent.rs:443-448 | a host is sent a non-empty allowlist only after a backup of that database's create or promote operation was reported as succeeded |
| AccessGate.SentExactly | pgcluster-admin/src/agent.rs:443-448 | in every run, hosts are sent the allowlist last put if an `open_access` step of the database was committed, and nothing otherwise |
| AccessGate.SuccessMeansWorkDone | pgcluster-admin/src/reconciler.rs:845-864 | in every run, a succeeded operation has each step it is there for done, and each task those handed out was reported as succeeded |
| EngineTasks.TasksAreNeeded | pgcluster-admin/src/reconciler.rs:953-991 | in every run, a task on record is the one its operation needs, for its database, and pending only while the operation is active |
| EngineTasks.NeededTaskWasReported | pgcluster-admin/src/reconciler.rs:953-991 | no operation that needs a task has succeeded before a host reported it |
| EngineTasks.TaskFailsOnlyWith | pgcluster-admin/src/reconciler.rs:866-906 | after every run, a pending task fails exactly as a host reports so or as its operation ends |
| Reconciler.Tables.CreateWith | pgcluster-admin/src/operations.rs:194-224 | inserts the operation and all its steps, pending and untried |
| Reconciler.Tables.FailActive | pgcluster-admin/src/api/databases.rs:811-818 | fails every active operation of the database and no other |
| Reconciler.Tables.Delete | pgcluster-admin/src/api/databases.rs:796-845 | supersedes operations and tasks and appends the delete operation |
| Reconciler.Tables.RunTask | pgcluster-admin/src/reconciler.rs:953-991 | inserts the task once, then waits, finishes or fails by its status |
| Reconciler.Tables.RunStep | pgcluster-admin/src/reconciler.rs:182-256 | the outcome and the rows a step leaves |
| Reconciler.Tables.FinishStep | pgcluster-admin/src/reconciler.rs:845-864 | marks the step done, and the operation succeeded when none is pending |
| Reconciler.Tables.FailStep | pgcluster-admin/src/reconciler.rs:866-906 | marks step and operation failed and ends the operation's pending tasks |
| Reconciler.Tables.Record | pgcluster-admin/src/reconciler.rs:149-178 | records one of the three outcomes: the step is done exactly after `Done`, failed exactly after `Fail` or a wait past the deadline, and pending otherwise |
| Reconciler.Tables.StepOnce | pgcluster-admin/src/reconciler.rs:102-180 | one call is a claim and its commit |
| Generations.WaitedFor | pgcluster-admin/src/reconciler.rs:995-1021 | true exactly when every node not excused runs and has reported the target generation |
| DatabaseCa.NoNodeDistrusted | pgcluster-admin/src/reconciler.rs:289-363 | through any number of rotations, renewals and nodes that join, each begun where that is safe, and nodes that leave, each steady node trusts the certificate every steady node presents, at every moment |
| DatabaseCa.RotationReplacesTheCa | pgcluster-admin/src/operations.rs:114-124 | a rotation at its last step has every steady node on the new CA and off the old one |
| DatabaseCa.RotationCanFinish | pgcluster-admin/src/operations.rs:116-124 | from every settled state, a run that sees a CA rotation through, after which every node is on the new CA alone |
| DatabaseCa.WaitEndsExactlyWhen | pgcluster-admin/src/reconciler.rs:995-1021 | a `wait_applied` step of a CA rotation goes on exactly when every node is excused, or runs and has reported the target |
| DatabaseCa.OneNodeHoldsTheStep | pgcluster-admin/src/reconciler.rs:1012-1019 | one node that is down or behind holds it |
| DatabaseCa.ExcusedNodeHoldsNothing | pgcluster-admin/src/reconciler.rs:1003-1004 | what an excused node reported makes no difference to it |
| DatabaseCa.ExcusedAre | pgcluster-admin/src/reconciler.rs:1003-1004 | any node that is not steady can be excused, and no steady one is |
| DatabaseCa.MembersComeAndGo | pgcluster-admin/src/api/databases.rs:669-794 | a node that joins presents a certificate of the present CA and trusts what is published, is published and is waited for; one that leaves is gone; neither happens during a rotation |
| DatabaseCa.OtherChangesAreNotWaitedFor | pgcluster-admin/src/reconciler.rs:909-925 | a change outside the rotation raises the generation and moves no target |
| DatabaseCa.StartingIsSafeExactlyWhen | pgcluster-admin/src/reconciler.rs:289-304 | starting a rotation can never break trust if and only if every steady node presents a certificate of the present CA |
| DatabaseCa.SettledSecretsAreSafe | pgcluster-admin/src/secrets.rs:63-71 | with no previous CA stored, a start is safe |
| DatabaseCa.RenewingIsSafeExactlyWhen | pgcluster-admin/src/reconciler.rs:598-650 | renewing a steady node's certificate between rotations can never break trust if and only if every steady node has the present CA in its bundle |
| DatabaseCa.RenewalReachesTheNode | pgcluster-admin/src/reconciler.rs:598-650 | a renewal is published, and once read and put in place the node presents a certificate of the present CA |
| DatabaseCa.JoiningIsSafeExactlyWhen | pgcluster-admin/src/api/databases.rs:749-772 | adding a node to the steady ones between rotations can never break trust if and only if every steady node has the present CA in its bundle |
| DatabaseCa.FailedRotationBlocksTheNext | pgcluster-admin/src/reconciler.rs:298-300 | a run in which a rotation fails and neither the next one nor a renewal nor adding a node is safe |
| DatabaseCa.Rows.BumpGeneration | pgcluster-admin/src/reconciler.rs:909-925 | a new generation becomes the target of the operation |
| DatabaseCa.Rows.Reissue | pgcluster-admin/src/reconciler.rs:307-323 | every row, and nothing else, gets a certificate of the CA |
| DatabaseCa.Rows.RenewCertificate | pgcluster-admin/src/reconciler.rs:598-650 | one row gets a certificate of the present CA, in a new generation |
| DatabaseCa.Rows.AddMember | pgcluster-admin/src/api/databases.rs:691-772 | a replacement is refused while a rotation runs, and otherwise is the joining of a node |
| DatabaseCa.Rows.DoStep | pgcluster-admin/src/reconciler.rs:182-256 | each named step changes the rows as the specification says |
| DatabaseCa.Rows.Step | pgcluster-admin/src/reconciler.rs:102-180 | running the operation once is the step event |
| Passwords.NobodyLockedOut | pgcluster-admin/src/reconciler.rs:366-385 | through any number of rotations, each started where that is safe, with nodes joining and leaving between them, and wherever executions of the task die, each steady node knows each role's password at every moment |
| Passwords.CommitFindsRolesMoved | pgcluster-admin/src/reconciler.rs:375-385 | when passwords become current, every role has them already |
| Passwords.RotationCanFinish | pgcluster-admin/src/operations.rs:125-133 | from every settled state, a run that sees a password rotation through, after which every role is on the new passwords and nodes know no other |
| Passwords.WaitEndsExactlyWhen | pgcluster-admin/src/reconciler.rs:995-1021 | a `wait_applied` step of a password rotation goes on exactly when every node is excused, or runs and has reported the target |
| Passwords.OneNodeHoldsTheStep | pgcluster-admin/src/reconciler.rs:1012-1019 | one node that is down or behind holds it |
| Passwords.ExcusedNodeHoldsNothing | pgcluster-admin/src/reconciler.rs:1003-1004 | what an excused node reported makes no difference to it |
| Passwords.ExcusedAre | pgcluster-admin/src/reconciler.rs:1003-1004 | any node that is not steady can be excused, and no steady one is |
| Passwords.MembersComeAndGo | pgcluster-admin/src/api/databases.rs:669-794 | a node that joins knows the current passwords, is published and is waited for; one that leaves is gone; neither happens during a rotation |
| Passwords.OtherChangesAreNotWaitedFor | pgcluster-admin/src/reconciler.rs:909-925 | a change outside the rotation raises the generation and moves no target |
| Passwords.TaskAnsweredExactlyWhen | pgcluster-admin/src/agent.rs:547-584 | a pending task succeeds exactly as a finished execution of it says so, fails exactly as one says that or the operation ends, and keeps its answer |
| Passwords.FailedTaskEndsTheRotation | pgcluster-admin/src/reconciler.rs:953-991 | a failed task ends the rotation and changes no passwords |
| Passwords.LastStepEndsAtOnce | pgcluster-admin/src/reconciler.rs:182-256 | the last step of a rotation waits for nobody |
| Passwords.EndedExecutionAltersNothing | vk-agent/src/host/tasks.rs:425-449 | an execution that died or answered alters no role |
| Passwords.StartingIsSafeExactlyWhen | pgcluster-admin/src/reconciler.rs:366-372 | starting a rotation can never lock a node out if and only if every role is on the current passwords and nothing of an earlier task is left, begun or listed |
| Passwords.FailedRotationBlocksTheNext | pgcluster-admin/src/reconciler.rs:366-372 | from every settled state, a run in which a rotation fails and the next one is unsafe |
| Passwords.Cluster.StoreSecrets | pgcluster-admin/src/reconciler.rs:272-286 | secrets are stored and published in a new generation |
| Passwords.Cluster.RunTask | pgcluster-admin/src/reconciler.rs:940-991 | the task is made once, then the step follows what it came to |
| Passwords.Cluster.DoStep | pgcluster-admin/src/reconciler.rs:182-256 | each named step changes the row as the specification says |
| Passwords.Cluster.Step | pgcluster-admin/src/reconciler.rs:102-180 | running the operation once is the step event |
| Passwords.Cluster.AlterPasswords | vk-agent/src/host/tasks.rs:425-449 | one execution alters roles in order and stops at the first that fails |
| Scheduler.ReservesAreKept | pgcluster-admin/src/scheduler.rs:74-81 | what is handed out and what is kept back for the OS, the page cache and the disk reserve make up the host |
| Scheduler.RoomExactlyWhen | pgcluster-admin/src/scheduler.rs:150-153 | a host has room exactly when it said how large it is, use and request fit what it hands out but for rounding, and one more block of ten ports fits its range |
| Scheduler.ByFreeSorts | pgcluster-admin/src/scheduler.rs:201-203 | sorting keeps the hosts, and of two that said how large they are puts first the one with no less memory left to hand out |
| Scheduler.ByFreeIsStable | pgcluster-admin/src/scheduler.rs:201-203 | hosts with equal free memory keep their order |
| Scheduler.FirstsAreOnePerDomain | pgcluster-admin/src/model.rs:233-245 | taking the first host of each domain gives one host for every domain |
| Scheduler.FirstsCount | pgcluster-admin/src/model.rs:233-245 | as many hosts can be chosen as there are domains |
| Scheduler.GreedyBeats | pgcluster-admin/src/scheduler.rs:195-211 | the host chosen at a place has at least the free memory of the one at that place in any other choice |
| Scheduler.ChoiceIsBest | pgcluster-admin/src/scheduler.rs:195-211 | if any selection exists, the greedy one exists and dominates it place by place |
| Scheduler.ChooseHosts | pgcluster-admin/src/model.rs:233-245 | succeeds exactly when there are enough domains, with the first hosts of them |
| Scheduler.Place | pgcluster-admin/src/scheduler.rs:195-216 | placed exactly when a selection exists, with the most memory left first and no less than any other selection place by place; too few hosts exactly when there are too few domains; no room otherwise |
| Fleet.ChosenHosts | pgcluster-admin/src/reconciler.rs:396-418 | hosts chosen for a database have room, distinct identities and distinct domains |
| FleetPorts.SearchFinds | pgcluster-admin/src/reconciler.rs:769-782 | the base found is free, on the series and lowest |
| FleetPorts.PortFound | pgcluster-admin/src/scheduler.rs:69-71 | fewer instances than blocks leaves a free base, by counting |
| FleetPorts.AddAllSucceeds | pgcluster-admin/src/reconciler.rs:454-472 | nodes on separate hosts with a block left each get a port |
| FleetPorts.BlocksNeverOverlap | pgcluster-admin/src/reconciler.rs:759-809 | in every state, no block of ten ports passes 65535 and blocks on one host are apart |
| FleetPorts.PortsNeverRunOut | pgcluster-admin/src/scheduler.rs:150-153 | in every state, a placement or replacement that passed the room check gets its ports |
| FleetMembers.OneDomainLess | pgcluster-admin/src/reconciler.rs:1031-1045 | leaving out one node loses at most one failure domain |
| FleetMembers.JoinedIsJoining | pgcluster-admin/src/api/databases.rs:722-737 | a node in a domain of its own makes up for the one it replaces |
| FleetMembers.GreatestIs | pgcluster-admin/src/api/databases.rs:757-761 | the number counted from is the greatest of a live node, or zero |
| FleetMembers.NumbersAreNeverReused | pgcluster-admin/src/api/databases.rs:757-763 | a replacement's number is above every number a node of the database had at any earlier moment |
| FleetMembers.AlwaysThreeLive | pgcluster-admin/src/api/databases.rs:669-794 | a placed three-node database always has live nodes on three hosts in three domains, no two on one host, whichever replacements fail part-way |
| FleetLoad.ResizedUses | pgcluster-admin/src/scheduler.rs:158-169 | a resize changes what a host uses by the difference, once for each node of the database on it |
| FleetLoad.NeverOvercommitted | pgcluster-admin/src/scheduler.rs:84-96 | over every run in which the resizes that go through are covered, each host's use stays within allocatable plus one allowance in all three dimensions |
| FleetLoad.TidyNeverOvercommits | pgcluster-admin/src/api/databases.rs:455-480 | the same over every run that resizes no database with a retracted node |
| FleetLoad.ResizeIsSafeExactlyWhen | pgcluster-admin/src/api/databases.rs:455-480 | an allowed resize keeps every host within its means if and only if the hosts of retracted nodes have room too |
| FleetLoad.AllowedResizeIsSafeExactlyWhen | pgcluster-admin/src/api/databases.rs:425-510 | the same after every such run |
| FleetOvercommit.ResizeCanOvercommit | pgcluster-admin/src/api/databases.rs:455-480 | a run with a replacement that ends half-way, and an allowed resize after it that overfills a host |
| FleetLife.PlacedExactlyWhen | pgcluster-admin/src/reconciler.rs:389-481 | after every run, a placement goes through exactly when there is a selection of hosts, adds one numbered node on each host of the best, and changes nothing otherwise |
| FleetLife.ReplacementTakenExactlyWhen | pgcluster-admin/src/api/databases.rs:669-794 | after every run, the exact condition on rows, hosts and failure domains under which a replacement is taken |
| FleetLife.ReplacementSwaps | pgcluster-admin/src/reconciler.rs:1031-1072 | one that runs to its end takes out the row of the old node and puts in one on the wanted host, with a number above all others |
| FleetLife.DeletionLeavesNothing | pgcluster-admin/src/reconciler.rs:1074-1115 | a deletion that runs to its end leaves no row of the database and every row of the others |
| FleetLife.DeletionIsInOrder | pgcluster-admin/src/operations.rs:101-101 | rows are deleted only once retracted, and asking again changes nothing |
| FleetLife.ResizeTakenExactlyWhen | pgcluster-admin/src/api/databases.rs:425-510 | the exact condition on sizes and hosts under which a resize is taken; it changes the size and nothing else |
| Inventory.Rows.FindPort | pgcluster-admin/src/reconciler.rs:769-782 | the lowest free base of the series, or none |
| Inventory.Rows.AddNode | pgcluster-admin/src/reconciler.rs:759-809 | inserts the node with that base, or changes nothing |
| Inventory.Rows.PlaceAll | pgcluster-admin/src/reconciler.rs:389-481 | a placement adds one node for each host chosen, and never stops half-way for want of ports |
| Inventory.Rows.HostSuits | pgcluster-admin/src/api/databases.rs:699-737 | the wanted host is new to all live nodes and in no domain of those that stay |
| Inventory.Rows.GreatestLive | pgcluster-admin/src/api/databases.rs:757-761 | the greatest number of a live node |
| Inventory.Rows.StartReplacement | pgcluster-admin/src/api/databases.rs:669-794 | one call is the replacement event |
| Inventory.Rows.Resize | pgcluster-admin/src/api/databases.rs:425-510 | accepts exactly what the check allows, and then changes the size |
| NodeNames.NameRoundTrip | pgcluster-admin/src/model.rs:247-252 | a node's name gives its number back exactly while that fits 32 bits, and zero past it |
| NodeNames.SignsAreRead | pgcluster-admin/src/model.rs:247-252 | a sign before the digits is read, within 32 bits |
| NodeNames.OtherNamesHaveZero | pgcluster-admin/src/model.rs:247-252 | any other name has number zero |
| Candidate.BestIsGreatest | pgcluster/src/failover/candidate.rs:100-109 | no position is beyond the one chosen, none as far has a higher priority, and it is the last of those |
| Candidate.AllAnswered | pgcluster/src/failover/candidate.rs:28-41 | as many answers as standbys are the answers of every standby |
| Candidate.StrictLosesNothing | pgcluster/src/failover/candidate.rs:22-43 | under `sync_strict` a node chosen holds every acknowledged commit, in whatever order standbys answered and whatever they received meanwhile |
| Candidate.OtherModesCanLose | pgcluster/src/failover/candidate.rs:22-43 | in the other modes a standby behind an acknowledged commit is chosen if it alone answers |
| Candidate.OtherModesCanLoseACommit | pgcluster/src/failover/candidate.rs:22-43 | so from before the commit: one standby receives it, it is acknowledged, and another is chosen |
| Candidate.FailoverChoosesExactlyWhen | pgcluster/src/failover/candidate.rs:22-43 | after every run, `sync_strict` chooses exactly when there is a standby and each was heard, running and in recovery; other modes exactly when any was |
| Candidate.FurthestIsChosen | pgcluster/src/failover/candidate.rs:100-109 | the node chosen is a replica that was heard, reaches as far as every one heard, and yields to none of them in priority where they reach as far |
| Candidate.HealthyClusterFailsOver | pgcluster/src/failover/candidate.rs:22-43 | in every mode, a cluster with standbys that are all healthy has a run to a choice |
| Candidate.LostAnswerBlocksStrict | pgcluster/src/failover/candidate.rs:28-41 | under `sync_strict`, once one standby's answer is lost no choice is made |
| Candidate.LivePositions | pgcluster/src/failover/candidate.rs:47-97 | collects the positions of running standbys in recovery, in the order of their answers |
| Candidate.NodesToAsk | pgcluster/src/failover/candidate.rs:53-63 | asks exactly the configured replicas other than the failed node and external ones |
| Candidate.PickLiveCandidate | pgcluster/src/failover/candidate.rs:22-43 | the best position heard; made exactly when every standby was heard under `sync_strict`, and any in other modes |
| SyncFallback.DegradeTimer.Step | pgcluster/src/node_monitor/replication.rs:34-62 | one call of the timer |
| SyncFallback.SinceIs | pgcluster/src/node_monitor/replication.rs:28-62 | the time kept is that of the first call of the present spell without a standby |
| SyncFallback.FallsBackExactlyWhen | pgcluster/src/node_monitor/replication.rs:34-62 | the timer returns `Degrade` if and only if every call over at least the timeout saw no standby and none fell back before |
| SyncFallback.RestoresExactlyWhen | pgcluster/src/node_monitor/replication.rs:41-52 | it returns `Restore` if and only if `sync` has fallen back and a standby streams |
| SyncFallback.NeverUnprotected | pgcluster/src/node_monitor/replication.rs:119-173 | at every moment of every run of safe ticks, inside ticks too, whichever calls fail and however late they take effect, commits go without a standby only while the flag says so |
| SyncFallback.TickIsSafeExactlyWhen | pgcluster/src/node_monitor/replication.rs:150-170 | before a tick, whatever becomes of its calls: it can never lead to that failing if and only if it does not restore, or no call that ends waiting is under way and none has landed since the report it goes by |
| SyncFallback.FlagIsCleared | pgcluster/src/node_monitor/replication.rs:150-170 | a set flag is clear after a tick if and only if a standby streams, the settings asked for were applied and the write took effect |
| SyncFallback.FlagIsSet | pgcluster/src/node_monitor/replication.rs:134-151 | a clear flag is set after a tick if and only if no standby streams, the timeout is over and the write took effect |
| SyncFallback.FlagFirstUpLastDown | pgcluster/src/node_monitor/replication.rs:138-170 | the flag goes up before commits stop waiting and comes down after they wait again |
| SyncFallback.WaitsExactlyWithoutFlag | pgcluster/src/node_monitor/replication.rs:134-170 | from a settled state and with calls that succeed, commits wait after a tick if and only if the flag is clear |
| SyncFallback.FallbackLasts | pgcluster/src/node_monitor/replication.rs:134-161 | over every run without a standby after a fallback that was applied, commits wait at no moment |
| SyncFallback.LateExactlyWhen | pgcluster/src/node_monitor/replication.rs:151-161 | a call is left under way exactly when a tick asks for a change and gives up on one that goes on |
| SyncFallback.LandsOnce | pgcluster/src/node_monitor/replication.rs:151-161 | such a call takes effect once at most |
| SyncFallback.FallbackLastsExactlyWhen | pgcluster/src/node_monitor/replication.rs:134-161 | a fallback in effect lasts so if and only if no call to begin waiting is under way |
| SyncFallback.CommitsGoOnWithoutStandbys | pgcluster/src/node_monitor/replication.rs:34-161 | a primary whose standbys stay away, and whose calls succeed, stops waiting once the timeout is over |
| SyncFallback.LateCallCanUnprotect | pgcluster/src/node_monitor/replication.rs:150-170 | a run to a tick that restores while such a call is under way |
| SyncFallback.Leader.ReconcileReplication | pgcluster/src/node_monitor/replication.rs:119-173 | one tick passes through exactly the states the specification lists |
| SyncFallback.Leader.Apply | pgcluster/src/node_monitor/replication.rs:151-161 | only settings that differ from those reported are asked for |
| Scanner.ScanGoesOn | pgcluster/src/proxy/connection.rs:482-516 | bytes to come change neither an answer nor the part already passed over |
| Scanner.ScanOnce | pgcluster/src/proxy/connection.rs:482-509 | one pass finds the answer of the buffer, or where its last complete message ends |
| Scanner.PipeUntilReady | pgcluster/src/proxy/connection.rs:458-518 | for any split into reads, the answer is that of the whole stream, the bytes forwarded are those read, and reading stops at the first read that settles it |
| Scanner.MessagesArePassedOver | pgcluster/src/proxy/connection.rs:482-509 | messages that end nothing are passed over whole, whatever their bodies hold |
| Scanner.FirstEndIsFound | pgcluster/src/proxy/connection.rs:487-497 | for well-formed streams the answer is the status of the first `ReadyForQuery`, or `T` for a `CopyInResponse` before it |
| Scanner.AnswerComesExactlyAt | pgcluster/src/proxy/connection.rs:487-504 | of a response, exactly the prefixes with all of its `ReadyForQuery`, or with the header of its `CopyInResponse`, give the answer |
| Startup.EncodeStartupMessage | pgcluster/src/proxy/connection.rs:523-544 | writes length, version, pairs and terminator |
| Startup.ParseStartupParams | pgcluster/src/proxy/protocol.rs:189-206 | the parameters between NUL bytes, or the first error |
| Startup.ReadStartupMessage | pgcluster/src/proxy/protocol.rs:145-184 | the first message of a connection, with every error case |
| Startup.ParsedIsClean | pgcluster/src/proxy/protocol.rs:189-206 | whatever parses has non-empty keys and no NUL |
| Startup.PayloadRoundTrip | pgcluster/src/proxy/connection.rs:531-537 | in any order, parameters parse back to themselves if and only if keys are non-empty and nothing holds a NUL |
| Startup.MessageRoundTrip | pgcluster/src/proxy/connection.rs:523-544 | the same for whole messages with anything after them |
| StartupText.Utf8ExactlyText | pgcluster/src/proxy/protocol.rs:199-202 | the text accepted is exactly what encoding some Unicode characters gives |
| StartupText.ListMayJustEnd | pgcluster/src/proxy/protocol.rs:189-206 | a list may end without its last NUL; a key with nothing after it is an error |
| StartupText.NotTextIsAnError | pgcluster/src/proxy/protocol.rs:199-202 | the first pair that is not text is the error, for its key before its value |
| StartupText.EmptyKeyEndsTheList | pgcluster/src/proxy/protocol.rs:193-197 | an empty key ends the list, whatever follows |
| StartupText.RequestsAreRead | pgcluster/src/proxy/protocol.rs:157-167 | the SSL and cancel requests are read back, whatever follows |
| StartupText.BadHeaders | pgcluster/src/proxy/protocol.rs:148-183 | a length below eight and an unknown code are errors that say so |
| StartupText.CutShortIsTruncated | pgcluster/src/proxy/protocol.rs:145-184 | a startup message or a cancel request cut short anywhere is an error |
| Calendar.YearOfEraIs | pgcluster/src/api/status.rs:81-84 | the closed form finds the year of the era and the day of the year |
| Calendar.ClosedFormCounts | pgcluster/src/api/status.rs:77-89 | the closed form is the Gregorian date found by counting days one by one from 1 January 1970, with no subtraction below zero |
| Calendar.CountsBack | pgcluster/src/api/status.rs:77-89 | dates are valid, and adding up years, months and days gives the count back |
| Calendar.TextRoundTrip | pgcluster/src/api/status.rs:64-75 | the text stands for the same second if and only if that is at least 0 and below 253402300800, the end of year 9999; earlier seconds read as the epoch |
| Fencing.NeverEarly | vk-agent/src/heartbeat.rs:36-89 | in every run with heartbeats at safe moments, PostgreSQL is stopped only after more than timeout plus fence without one |
| Fencing.HeartbeatIsSafeExactlyWhen | vk-agent/src/main.rs:125-144 | a heartbeat can never be followed by an early stop if and only if no decision of the fence loop is pending and the watchdog is between iterations or the node detached |
| Fencing.DecisionCanBePending | vk-agent/src/main.rs:127-130 | a run to a pending decision with the watchdog between iterations |
| Fencing.LaterHeartbeatsDoNotHelp | vk-agent/src/heartbeat.rs:36-42 | after a heartbeat inside an iteration, a run in which PostgreSQL is stopped right after another one |
| Fencing.NeverLate | vk-agent/src/main.rs:116-144 | with both loops on time it is stopped within timeout plus fence plus two seconds |
| Fencing.DetachIsFinalExactlyWhen | vk-agent/src/heartbeat.rs:51-66 | a detached node is never stopped if and only if no decision of the fence loop was pending as it detached |
| Fencing.StoppedInstanceIsLeftAlone | vk-agent/src/main.rs:128-130 | an instance that does not run is never stopped |
| Fencing.DecisionIsCarriedThrough | vk-agent/src/main.rs:127-141 | between look and stop the loop goes by nothing but whether the instance runs |
| Fencing.PunctualRunsGoOn | vk-agent/src/main.rs:125-127 | runs with both loops on time go on for as long as one likes |
| Fencing.HeartbeatTracker.Touch | vk-agent/src/heartbeat.rs:36-42 | records the heartbeat and leaves safe mode |
| Fencing.HeartbeatTracker.Detach | vk-agent/src/heartbeat.rs:51-53 | marks the node as detached and changes nothing else |
| Fencing.HeartbeatTracker.ElapsedInSafeMode | vk-agent/src/heartbeat.rs:61-66 | the time since safe mode was stamped, none once detached |
| Fencing.HeartbeatTracker.WatchOnce | vk-agent/src/heartbeat.rs:76-86 | enters safe mode exactly when the timeout has passed and it is not in it |
| Fencing.Agent.Heartbeat | vk-agent/src/heartbeat.rs:36-42 | a call is the heartbeat event |
| Fencing.Agent.Watchdog | vk-agent/src/heartbeat.rs:76-86 | an iteration nothing comes between is its two reads, the flag and the time as events |
| Fencing.Agent.LookAtFence | vk-agent/src/main.rs:127-130 | reading the tracker's time in safe mode is the look event |
| Fencing.Agent.AskWhetherRunning | vk-agent/src/main.rs:130-130 | the answer of `is_running` is the ask event |
| Fencing.Agent.StopPostgres | vk-agent/src/main.rs:136-139 | the stop, with no second look at the tracker, is the stop event |
| Admission.CapsHold | pgcluster/src/proxy/limits.rs:92-115 | at every moment, what is held and what is free make up each cap, and each address's count is the connections counted there, within its cap |
| Admission.CountsAreGuards | pgcluster/src/proxy/limits.rs:40-69 | with nothing part way, each count is the guards out at that address, they add up to the login permits out, and refused connections hold neither |
| Admission.CountNeverUnderflows | pgcluster/src/proxy/limits.rs:61-69 | in every run, a count is above zero whenever a place in it is given back |
| Admission.StepsMakeTried | pgcluster/src/proxy/limits.rs:92-115 | the steps of one call come to everything taken or nothing |
| Admission.RefusalHoldsNothing | pgcluster/src/proxy/limits.rs:92-106 | after every run, a refusal takes no permit, and changes the counts if and only if a permit was free, the per-address cap is zero and the address had no entry: then it leaves one of zero |
| Admission.RefusalCanLeaveAnEntry | pgcluster/src/proxy/limits.rs:92-106 | from every start with that cap at zero, one connection that does |
| Admission.AdmittedExactlyWhen | pgcluster/src/proxy/limits.rs:92-115 | a connection is admitted exactly when there is a place under each of the three caps |
| Admission.TryingComesFirst | pgcluster/src/proxy/limits.rs:92-115 | only a connection still being tried is counted or given a permit, and it gives nothing back meanwhile |
| Admission.LeavingGivesAllBack | pgcluster/src/proxy/limits.rs:46-69 | one that was admitted and leaves gives everything back |
| Admission.ConnectionLimits.Release | pgcluster/src/proxy/limits.rs:61-69 | one fewer at the address, and no entry at none |
| Admission.ConnectionLimits.Admit | pgcluster/src/proxy/limits.rs:92-115 | admits exactly when all three caps allow it |
| Admission.ConnectionLimits.Finish | pgcluster/src/proxy/limits.rs:47-52 | gives permit and place back once |

## Left out

- Network, HTTP, gRPC, TLS, SQL text, `pg_ctl`, WAL-G and file I/O: steps that succeed or fail.
- Cryptography: CAs are numbers that are never reused, passwords are batch numbers, and sealing is not modelled.
- openraft, leases, switchover, SCRAM, routing and the backend pool.
- Replica databases: placement, detach and promotion of replicas; their tasks are kept under the source database.
- Several admin service instances rotating the CA at once.
- Calls of `start` and `advance` in the admin CA rotation that overlap each other, beyond a repeated apply of the stored row.
- `StalePrimaries`, health sweeps, drains, upgrades, version comparison and when a certificate is due for renewal.
- Reconciler.Tables.RunStep: the outcome of a step that rests on rows outside the model is given.
- `classify_statement` and the frontend frames after the startup message.
- The text of the refusal `NoRoom`, and the ceiling on the size of a request.
- Rounding of floating-point sizes, which are real numbers here.
- A placement limited to named hosts: the hosts considered are a parameter.
- FleetMembers.NumbersAreNeverReused: numbers are unbounded; `NodeNames.NameRoundTrip` shows that 32-bit names hold them up to 2147483647.
- SyncFallback.FallsBackExactlyWhen: takes a clock that never runs backwards, which `Instant` promises.
- Startup.MessageRoundTrip: takes messages shorter than 4 GiB, whose length fits its four bytes.
