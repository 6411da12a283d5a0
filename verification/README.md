# MOCO: a verified model of the clustering manager, the rolling update and backup selection

MOCO runs MySQL clusters on Kubernetes. For each cluster a manager process repeats one round: gather the status of
all instances, classify the cluster, then run one of switchover, failover or configure. Clients rely on three things:
at most one instance can complete a commit, no acknowledged transaction is lost when the primary changes, and clients
reach the primary only through a Pod that bears its role. This project models that process, statement by statement,
together with everything that may happen between the statements, and proves these promises for every run. It also
models the partitioned rolling update (an admission webhook and a controller) and the two choices of the backup
tools: which dump to restore, and which Pod to take a backup from.

## How the model works

* `Replication` is a state machine. A state holds, for each instance, the executed, pending, retrieved and purged
  transactions, the read-only and semi-sync settings, the source and the IO thread, plus the recorded primary, the
  transactions acknowledged to clients and the identifiers handed out. An `Event` is one atomic step: a commit, a
  semi-sync acknowledgement, a session that gives up, a fetch, an apply, a restart, a purge, or one statement of the
  manager. `Inv` is the invariant. A network partition is a run in which an instance fetches nothing, answers
  nothing and may go on accepting writes.
* `ReplicationSafety` proves that every permitted step keeps `Inv`; `Runs` lifts this to whole runs, says what
  survives interference (`Keeps`), and holds the quorum argument of a failover.
* `World` is the object that the manager works on. Every statement may fail before or after it took effect and any
  number of environment steps come before it, so every prefix of every round is a state of the run. `Statements`
  (the operator's methods), `Gather`, `Labels`, `Configure`, `Failover`, `Switchover` and `Process` are the manager's
  code as imperative methods over it. Each statement must be shown to be permitted when it is issued. `faults` counts
  the statements, queries and patches that failed, so that a contract can say for what other reason a method may fail.
* `Intermediate` is the configure of a cluster with a replication source, on servers in any state.
* `Dbop` and `Status` hold the top-runner scan and the classification; `GtidText` the textual errant test.
* `FixedPoint` shows exactly when a configure leaves nothing to do, and `Scenarios` has runs after which it does not;
  `Bookkeeping` is the recorded status over rounds
  and changes of the specification; `Hazards` shows what goes wrong without the assumptions.
* `Rollout` is the rolling update, `BackupTime`, `Restore` and `Backup` are backup selection, `Lex`, `Decimal` and
  `Basics` are shared.

## Assumptions of the whole-run theorem

* The number of instances is fixed within a run and there is no external replication source.
* Semi-sync replication never times out (the timeout is 24 hours), and nobody but the manager sets `read_only`. A
  `SET super_read_only` that the manager gave up waiting for may still take effect at any time.
* One manager process works on a cluster.
* A mysqld that restarts keeps its data, comes back super-read-only with replication stopped, semi-sync off and the
  wait count at its default. Any instance may restart at any time, except that the primary's mysqld does not restart
  between the gather and the end of a round that may open it for writes. `Hazards.RestartBeforeOpening` shows that
  this exception is needed.
* When a replica is repointed its relay log may be deleted, and a clone that fails may leave the instance empty, but
  only while this breaks no quorum. `Hazards.RelayLogLoss` and `Hazards.CloneLoss` say exactly when it does not. The
  loss-less failover theorem `Failover.FailoverLosesNothing` needs neither this nor any other fact about the history:
  it holds in every state.
* Clients reach Pods through role labels only: a Pod without a role label gets no new client connections.
* In runs of the rolling update only its controller changes the partition, the force annotation is absent, the
  StatefulSet has as many replicas as the cluster (which never shrinks), or none while the cluster is offline, and a
  Pod at or above the partition is created at the update revision.
* Every read happens at its own time; a status consists of three separate reads, and those of different instances
  come in any order.

Where code and documents differ, the model follows the code: `docs/clustering.md` line 46 gives the wait count as
`spec.replicas - 1 / 2`, the code uses `Replicas / 2` (the same for the odd sizes that are allowed); the webhook's owner test passes
an object over only if kind *and* API version are foreign; the comment in `controllers/partition_controller.go` says that the name order
works for fewer than 10 replicas, and it does up to exactly 10.

## Model

| member | source | states |
|---|---|---|
| ReplicationSafety.StepInv | clustering/operations.go:148-653 | every step that the servers can take and the manager may issue keeps the invariant: fencing, quorum, semi-sync before writes |
| ReplicationSafety.StepBase | clustering/operations.go:507-653 | the part of the invariant about single instances, acknowledgements and quorums is kept by every permitted step |
| ReplicationSafety.StepQuorum | clustering/operations.go:533-540 | an acknowledged transaction stays on more than Replicas/2 instances through every step |
| ReplicationSafety.AcknowledgedIsHeld | pkg/dbop/replication.go:42-53 | a transaction with Replicas/2 acknowledgements is held by more than Replicas/2 instances |
| ReplicationSafety.AcknowledgedInside | clustering/operations.go:234-245 | at any instance other than the primary (or the next one), a commit can complete only for a transaction that the primary (or the next one) must have executed |
| ReplicationSafety.QuietAcknowledgesNothing | clustering/status.go:294-306 | at an instance without waiting sessions that is fenced no commit can complete |
| Runs.InitialInv | pkg/mycnf/generator.go:122-124 | freshly started servers, super-read-only and following nobody, satisfy the invariant |
| Runs.InvSafe | clustering/operations.go:230-298 | the invariant gives fencing, durability and semi-sync before writes in a state |
| Runs.RunInv | clustering/process.go:177-253 | the invariant holds at the end of every legal run |
| Runs.RunSafe | clustering/process.go:177-253 | every state of every legal run, every prefix included, is safe: other instances are read-only or lack Replicas/2 followers, the primary has executed every acknowledged transaction, a writable instance has semi-sync on with wait count Replicas/2 |
| Runs.PassiveKeeps | clustering/operations.go:230-262 | what the manager learnt survives any step of the environment |
| Runs.QuorumCandidate | clustering/status.go:536-563 | if more than Replicas/2 stopped and quiet instances show nothing outside t, all acknowledged transactions are in t and nobody else can acknowledge anything outside it |
| Runs.QuorumFences | clustering/operations.go:234-245 | an instance outside such a quorum cannot collect Replicas/2 acknowledgements for an unseen transaction |
| Dbop.FindTopRunner | pkg/dbop/gtid.go:11-71 | the least index whose received set contains every other; success exactly when every prefix has a top; errant error only with two incomparable sets; no top runner exactly when nothing is eligible |
| Dbop.ChainHasTops | pkg/dbop/gtid.go:45-63 | if no two sets are incomparable, the scan always succeeds |
| Dbop.TopSetIsUnique | pkg/dbop/gtid.go:11-71 | in whatever order the instances come, the chosen set is the same |
| Dbop.OrderMatters | pkg/dbop/gtid.go:45-63 | off a chain the scan may fail in one order and succeed in another although a top exists |
| Dbop.NoLaterTop | pkg/dbop/gtid.go:45-63 | once two sets are incomparable there is a prefix without a top |
| Status.PrimaryExists | clustering/process.go:220-249 | Healthy, Degraded and Incomplete imply a primary status, so configure and switchover never use a missing one |
| Status.PrimaryOpen | clustering/status.go:395-534 | without an external source, Healthy and Degraded imply that the primary was seen open for writes |
| Status.EarlyByFields | clustering/status.go:112-130 | Offline, Cloning and Restoring, each by the fields of the picture: Restoring exactly if a restore is asked for and not recorded as done, Cloning exactly if there is a replication source, the clone is not recorded and the primary does not show a completed one |
| Status.HealthyByFields | clustering/status.go:395-443 | the Healthy state by the fields of the picture: every Pod ready, every replica read-only, not errant and following the primary, the primary open, and all replicas attached |
| Status.DegradedByFields | clustering/status.go:479-534 | the Degraded state by the fields of the picture |
| Status.FailedByFields | clustering/status.go:536-592 | Failed, Lost and Incomplete by the fields of the picture: they differ in whether the primary is gone and in how many reachable, non-errant replicas with data are left |
| Status.AttachedCount | clustering/status.go:366-374 | attached replicas are counted by position: as many as there are entries whose server ID lies in the range of the cluster |
| Status.FailedOrLost | clustering/status.go:536-592 | Failed and Lost split exactly the states with a missing or emptied primary left by earlier cases, at more than Replicas/2 usable replicas |
| Status.FailedHasNoPrimarySet | clustering/status.go:283-292 | in Failed the primary's set is empty, so the errant list is the stored one |
| Status.BudgetNeverLoses | controllers/mysqlcluster_controller.go:1056-1061 | losing only the Replicas/2 instances that the disruption budget allows never gives Lost |
| Status.LostIsBeyondBudget | clustering/status.go:565-592 | Lost implies that more than Replicas/2 instances are unusable |
| Status.StatusSet.HasLostData | clustering/status.go:376-393 | true exactly if the primary shows nothing and another instance shows something |
| Status.StatusSet.ReplicasInCluster | clustering/status.go:366-374 | the number of entries whose server ID is at least the base and less than base plus Replicas |
| Status.StatusSet.IsHealthy | clustering/status.go:395-443 | exactly the healthy pictures; every candidate appended is a proper switchover target even when the result is false |
| Status.StatusSet.IsDegraded | clustering/status.go:479-534 | exactly the degraded pictures; appends only proper targets, and all of them when true |
| Status.StatusSet.CountUsable | clustering/status.go:541-561 | the number of reachable, non-errant replicas with data |
| Status.StatusSet.IsFailed | clustering/status.go:536-563 | primary gone and more than Replicas/2 usable replicas |
| Status.StatusSet.IsLost | clustering/status.go:565-592 | primary gone and at most Replicas/2 usable replicas |
| Status.StatusSet.FirstCase | clustering/status.go:112-130 | the first case that applies, with proper candidates left behind |
| Status.StatusSet.DecideState | clustering/status.go:112-137 | the class; in Healthy or Degraded a switchover is requested exactly if the Pod of the primary is being deleted or is to be demoted and there is a proper target, and it goes to the lowest ordinal of all of them |
| World.World.Issue | clustering/process.go:177-253 | one step appended to the run; labels, connections and the errant list stay sound |
| World.World.Interfere | clustering/process.go:135-170 | any number of environment steps keep every invariant and what the manager relies on |
| World.NobodyWaits | clustering/status.go:294-306 | an instance other than the primary at which no session waits will never acknowledge anything |
| World.SettledNow | clustering/operations.go:512-528 | what the primary acknowledged while it was a replica is part of what it shows |
| Statements.StopReplicaIOThread | pkg/dbop/replication.go:55-60 | on success the IO thread is stopped; on failure it may be |
| Statements.SetReadOnly | pkg/dbop/replication.go:75-81 | on success the instance is super-read-only, all running commits over |
| Statements.WaitForGTID | pkg/dbop/replication.go:62-73 | on success the set is executed |
| Statements.KillConnections | pkg/dbop/kill.go:12-35 | on success no client connection is left; the attempt is recorded |
| Statements.GetStatus | pkg/dbop/status.go:14-47 | each of the three parts of a status is what the instance had at one moment of the read, and what stays true afterwards: for the primary, for a quiet instance and for one that receives nothing |
| Statements.ConfigureReplica | pkg/dbop/replication.go:10-40 | the five statements in order, with or without semi-sync, a prefix of them on failure; semi-sync source goes off only on a super-read-only instance |
| Statements.ConfigurePrimary | pkg/dbop/replication.go:42-53 | wait count before enabling; on success semi-sync is ready |
| Statements.ClearReadOnly | pkg/dbop/replication.go:83-92 | stop, reset, open for writes, in this order, only with semi-sync ready and everything acknowledged executed; on success the primary takes writes |
| Statements.Repoint | pkg/dbop/replication.go:18-31 | CHANGE REPLICATION SOURCE, with the relay log kept or deleted |
| Statements.CloneInstance | clustering/operations.go:604-610 | a clone, which may fail half-way and leave the instance empty |
| Gather.DetectErrants | clustering/status.go:264-282 | the flagged instances are exactly the reachable ones with a foreign transaction that the primary lacks |
| Gather.RestoreErrants | clustering/status.go:283-292 | without a primary set the stored list is taken over unchanged |
| Gather.DropHungUp | clustering/status.go:294-306 | exactly the non-primary instances with waiting sessions become unreachable |
| Gather.DetectDelay | clustering/status.go:242-261 | pod deletion is prevented exactly if the limit is positive and some replica shows a delay of more seconds than it |
| Gather.ContainsErrant | clustering/status.go:315-345 | the errant test as a question about the difference of two sets |
| Gather.Judge | clustering/status.go:263-306 | flagging and dropping together: errant list, flags and reachability agree |
| Gather.ReadAll | clustering/status.go:203-229 | with all instances read at once, their queries in any order and retried, every status read is made of what the instance had at moments of the read, and reflects the servers from then on; without a fault every instance is reached |
| Gather.Recheck | clustering/status.go:231-240 | the second reading of the primary replaces the first |
| Gather.GatherStatus | clustering/status.go:143-310 | the statuses are those of moments within the gather, flagged and dropped as judged; the recorded clone and restore flags are those given; the class is that of the picture, Restoring and Cloning only if asked for and not recorded; a switchover is requested exactly for a primary to be deleted or demoted and goes to the least proper target; deletion is prevented exactly while a replica lags; without a fault the gather succeeds and reaches everyone |
| GtidText.ContainErrantTransactions | clustering/status.go:315-345 | the loop over the split text finds exactly a part that does not begin with the primary's UUID |
| GtidText.SplitPrint | clustering/status.go:338-339 | splitting printed text at the commas gives the printed parts |
| GtidText.FlaggedExactly | clustering/status.go:315-345 | on plain text the test is true exactly for a foreign origin or a line break before a UUID |
| GtidText.FlaggedRightly | clustering/status.go:338-343 | the test answers the question exactly if a line break is not the only reason for yes |
| GtidText.CanonicalFlagged | clustering/status.go:315-345 | on canonical text, with or without line breaks, the test is true exactly when the set has a foreign transaction |
| GtidText.RepeatedOrigin | clustering/status.go:338-343 | one origin printed twice with a line break would be misread |
| GtidText.FlaggedIsErrant | clustering/status.go:264-282 | a replica is flagged exactly when executed(replica) minus executed(primary) has a transaction of another origin |
| Failover.StopReplicas | clustering/operations.go:234-245 | on success no reachable replica receives any more |
| Failover.LookAgain | clustering/operations.go:247-266 | each non-errant candidate has shown everything that it will ever have received |
| Failover.TopIsCandidate | clustering/operations.go:268-272 | the top runner, once it has executed what it shows, may be the primary: nothing acknowledged, or that can still be acknowledged elsewhere, is missing from it |
| Failover.LossLess | clustering/operations.go:247-279 | quorum intersection in any state, without any invariant: what Replicas/2 other instances had received is in what the top runner shows |
| Failover.FailoverLosesNothing | clustering/operations.go:230-298 | a failover of a cluster in any state, relay logs lost or not, beside any steps of the environment: the chosen instance has executed every transaction that at least Replicas/2 non-primary instances had received |
| Failover.Promote | clustering/operations.go:268-292 | wait, then record; the loss-less conclusion for the chosen instance |
| Failover.RecordPrimary | clustering/operations.go:281-292 | the status update: the index changes to the candidate or not at all |
| Failover.SomeoneEligible | clustering/operations.go:247-272 | in a Failed picture there is always an instance to choose from |
| Failover.Failover | clustering/operations.go:230-298 | from any Failed picture of a sound run: a new primary has executed every transaction that at least Replicas/2 non-primary instances had received, it is never a listed errant replica, and the run stays sound; without a fault it fails only if two replicas that are not errant have received incomparable sets |
| Switchover.TakeOver | clustering/operations.go:162-187 | once the primary is read-only, whoever executes its executed set may take over |
| Switchover.ClosedStays | clustering/operations.go:189-197 | what a closed primary has executed is final, so the set read after closing is complete |
| Switchover.CloseForWrites | clustering/operations.go:162-187 | on the fast and on the timeout path, success means super-read-only; a failure or a timeout is followed or preceded by killing the connections |
| Switchover.HandOver | clustering/operations.go:194-214 | catch-up and recording with the old primary closed: the new one contains all that the old one has executed at the change of the index |
| Switchover.Switchover | clustering/operations.go:148-228 | whenever the index changes, the old primary is super-read-only, receives nothing and has nothing left to execute, the executed set of the new primary contains that of the old one, and between closing and recording there was a moment when the closed one had no client; on success the old primary need not be demoted again; otherwise the index is unchanged |
| Switchover.RemoveDemote | clustering/operations.go:218-225 | on success the demote annotation of the given Pod is gone and nothing else changed; a failed patch ends the round with the index changed |
| Labels.RemoveRoleLabels | clustering/operations.go:300-324 | on success the Pods listed, and unlabelled, are exactly the primary if it is not labelled primary, and the replicas that are errant or not labelled replica |
| Labels.KeptByFields | clustering/operations.go:309-314 | a label is kept exactly if it is the label primary at the primary, or the label replica at a replica that is neither flagged nor listed as errant |
| Labels.KillAll | clustering/operations.go:399-415 | on success every Pod to be relabelled has no client left |
| Labels.AddRoleLabels | clustering/operations.go:326-352 | on success the primary among them is labelled primary and every other one replica, unless its Pod was recreated; each label is added to an unlabelled Pod without clients |
| Labels.AllLabelled | clustering/operations.go:386-451 | afterwards errant Pods bear no role, the primary the role primary and the other reachable ones the role replica |
| Labels.LabelledRoles | clustering/operations.go:326-352 | the same for each Pod by the fields of the picture and the errant list; nobody but the primary is labelled primary |
| Labels.WrongRolesGone | clustering/operations.go:300-324 | once the wrong labels are removed, no Pod bears a role other than its own and no errant one any |
| Labels.LabelsFixedPoint | clustering/operations.go:300-352 | seen again, such Pods need a label change or a kill exactly if a reachable replica became errant or ceased to be, or an unreachable one with a label became errant |
| Configure.NoReplicaPlans | clustering/operations.go:544-653 | no statement for the replicas exactly if each is in place |
| Configure.ReplicaPlanByFields | clustering/operations.go:544-653 | the statements for a replica, listed, by the fields of its status |
| Configure.PrimaryPlanByFields | clustering/operations.go:453-542 | the statements for the primary, listed, by the fields of its status |
| Configure.NothingToSend | clustering/operations.go:386-505 | no statement at all exactly if every reachable replica that is not errant is read-only and replicates from the primary in the right semi-sync mode, no errant one shows a running IO thread, and the primary is configured and open, or with a replication source closed and following that source |
| Configure.DrainPrimary | clustering/operations.go:512-528 | stop receiving, then execute everything retrieved |
| Configure.ConfigurePrimaryRole | clustering/operations.go:507-542 | without a replication source: sends what the picture asks for; on success semi-sync is ready and everything acknowledged is executed |
| Configure.CloseReplica | clustering/operations.go:564-577 | on success the replica is super-read-only; connections are killed before exactly if it was not |
| Configure.AttachReplica | clustering/operations.go:579-652 | clone if empty, then repoint if needed; if the primary has purged a transaction that the replica lacks, it fails and sends no repointing statement; without a fault it fails for no other reason |
| Configure.ConfigureReplicaRole | clustering/operations.go:544-653 | sends exactly what the picture asks for; redo exactly if that is something; never succeeds on a replica, errant ones apart, that lacks what the primary has purged |
| Configure.ConfigureServers | clustering/operations.go:417-445 | the primary first, then every reachable replica |
| Configure.OpenPrimary | clustering/operations.go:453-466 | opened for writes exactly if it was seen read-only |
| Configure.Configure | clustering/operations.go:386-467 | without a replication source: sends a prefix of the plan, all of it on success; redo exactly if the plan is not empty or a relay log was waited for; wrong labels are gone before the first statement, and the right ones in place before the primary is opened; on success the primary is labelled primary, every reachable replica replica, an errant one not at all; without a fault it fails only if a replica lacks what the primary has purged |
| Intermediate.Site.ConfigureIntermediatePrimary | clustering/operations.go:469-505 | with a replication source: the primary is closed if open, then pointed at the source without semi-sync unless it follows it already; redo exactly if something was sent |
| Intermediate.Site.ConfigureReplicaOf | clustering/operations.go:544-653 | a replica in any state of the servers: sends exactly what the picture asks for, in the mode without semi-sync if there is a source; refuses one that lacks what the primary has purged |
| Intermediate.Site.ConfigureServers | clustering/operations.go:417-466 | with a replication source: sends a prefix of the plan, all of it on success; redo exactly if the plan is not empty |
| Intermediate.NeverOpened | clustering/operations.go:453-466 | no plan for a cluster with a replication source opens an instance for writes |
| FixedPoint.RunIsPlan | clustering/operations.go:469-542 | a successful configure is its plan, with the applies of the relay log after the primary has stopped receiving, and some relay logs deleted on repointing |
| FixedPoint.ConfigureFinishes | clustering/operations.go:386-505 | a successful configure, with or without a replication source, the applies that it waits for included, can be carried out whichever replicas are unreachable, whichever IO threads are connected and whichever relay logs are deleted; it leaves every reachable replica that is not errant in place and so the primary |
| FixedPoint.ConfigureFixedPoint | clustering/operations.go:386-505 | from every reachable state that needs no clone, and with a replication source from every state whose primary need not wait for sessions, with any replicas unreachable and any IO threads Connecting: after one successful configure the next one waits for nothing, and sends nothing exactly if the primary and every reachable replica are left alone, a condition on the first picture (executed and retrieved sets, flags, stored list, connections) and the connections at the second gather |
| FixedPoint.ConnectedLeftAlone | clustering/operations.go:549-562 | if every thread is connected both times, the condition is that the relay log which the primary executed changes nobody's errant flag |
| FixedPoint.SourceLeftAlone | clustering/operations.go:469-505 | with a replication source no flag changes, and the condition is that the primary and every reachable replica that is not errant are connected then, and no errant one that was seen Connecting is |
| FixedPoint.ErrantThreadOff | clustering/operations.go:549-562 | when a configure has nothing to send, an errant replica's IO thread is off exactly if it was not seen Connecting |
| FixedPoint.LabelsAfterConfigure | clustering/operations.go:386-451 | after such a configure, with or without a source, the next one does no label work exactly if no reachable replica's flag changes and no unreachable labelled instance, hung up or down, is listed as errant |
| Scenarios.RelayLogClearsFlag | clustering/operations.go:521-527 | a legal run of the state machine after which executing the relay log clears two flags, so that a second configure sends statements; it records a primary that satisfies the invariant's condition, which the manager itself would first let catch up |
| Scenarios.ErrantStaysStarted | clustering/operations.go:549-562 | a legal run of the state machine after which an errant replica is seen Connecting: the configure has nothing to send, and the replica's IO thread stays started; it too records a primary earlier than the manager would |
| Process.UpdateStatus | clustering/process.go:332-333 | the stored errant list becomes the gathered one or stays, and stays in every round in which the primary cannot be compared with |
| Process.Act | clustering/process.go:199-252 | the dispatch: Failed changes the primary to an unlisted instance without loss, a due switchover to the candidate with the old primary closed, Degraded and Incomplete send the plan with labels in order, other states do nothing |
| Process.Do | clustering/process.go:177-253 | one round, failing anywhere, keeps every invariant. A failed gather does nothing. Otherwise, by what was gathered: Failed and success mean another, unlisted primary that has executed what Replicas/2 others had received; a due switchover and success mean the least proper target, the old primary closed and its annotation gone; Degraded or Incomplete send the plan, all of it on success, with labels in place; any other state sends nothing and keeps the primary. The stored list is the gathered one. Without a fault it fails only if received sets are incomparable or purged logs are needed |
| Process.Finish | clustering/process.go:184-253 | the round after the gather does what was found to be due |
| Process.Dispatch | clustering/process.go:201-252 | the dispatch does what was found to be due, for the named reasons only does it fail |
| Process.Rounds | clustering/process.go:135-253 | any number of rounds on any sound cluster under any environment: each round does what it should, every state is safe, never two Pods labelled primary, no client connected under a lost role, primary and errant entries below Replicas, the primary never listed |
| Process.Operate | clustering/process.go:135-253 | the same from a fresh cluster |
| Bookkeeping.Record.ChangeSpec | api/v1beta2/mysqlcluster_types.go:282-300 | admitted updates keep Replicas positive, odd and not decreasing, the restore source fixed and never add a replication source |
| Bookkeeping.Record.Round | clustering/process.go:177-253 | one round while Replicas may grow: primary and errant entries stay below Replicas, the list survives a primary that is unreachable or empty and otherwise becomes exactly those with a foreign transaction unknown to the primary, the primary changes only in Healthy, Degraded or Failed and never to a listed instance; the clone is recorded as complete in the first round that finds it complete or the cluster offline, so going offline during the initial clone records it unfinished |
| Bookkeeping.Record.Run | clustering/process.go:332-343 | over any number of rounds and specification changes the record stays in range, and once the clone is recorded the cluster is never Cloning again |
| Hazards.RestartBeforeOpening | clustering/operations.go:453-466 | for a picture in which semi-sync is in order and the primary read-only, the configure sends only the opening statements; if the primary restarted since, they succeed and it takes writes without semi-sync |
| Hazards.RelayLogLoss | pkg/dbop/replication.go:18-31 | deleting a relay log on repointing keeps every quorum and every acknowledgement backed exactly if what was only there is on one more instance, and what was acknowledged to waiting sessions is executed |
| Hazards.CloneLoss | clustering/operations.go:604-610 | a clone that leaves the instance empty keeps every quorum exactly if what was acknowledged there is on one more instance |
| Hazards.WaitingSessionsMatter | clustering/status.go:294-306 | counting an instance with waiting sessions would let an acknowledged transaction be missing from the new primary |
| Rollout.StatefulSet.Default | api/v1beta2/statefulset_webhhok.go:29-83 | for owned objects without the force annotation an update that changes the partition and nothing outside updateStrategy keeps it, any other gets a fresh rollingUpdate with the partition at Replicas; it crashes exactly when the new object has a partition and the old one has none |
| Rollout.NamesFollowOrdinals | controllers/partition_controller.go:182-203 | sorting Pods by name is sorting by ordinal exactly up to ten Pods |
| Rollout.SortedByOrdinal | controllers/partition_controller.go:182-203 | with at most ten Pods, all present, index i of the sorted list is Pod i |
| Rollout.AllChildPodsReady | controllers/partition_controller.go:205-246 | true exactly if every Pod but the target is available, not terminating, with ready containers, and updated if at or above the partition |
| Rollout.IsRolloutReady | controllers/partition_controller.go:133-178 | the decision by position in the sorted list |
| Rollout.MayLowerByFields | controllers/partition_controller.go:133-246 | the decision by ordinal, in the fields of the Pods |
| Rollout.PositionIsOrdinal | controllers/partition_controller.go:133-178 | up to ten Pods it is the decision by ordinal |
| Rollout.SafeExactlyToTen | controllers/partition_controller.go:194-199 | lowering never exposes an outdated Pod while another Pod is not steady, exactly up to ten replicas |
| Rollout.OneOutdatedExactlyToTen | controllers/partition_controller.go:194-199 | lowering keeps at most one outdated Pod at or above the partition, exactly up to ten replicas |
| Rollout.ElevenPods | controllers/partition_controller.go:158-165 | eleven Pods, partition 3, Pods 2 and 3 outdated: the third Pod of the list is Pod 10, the partition goes down and two outdated Pods are reached |
| Rollout.GoesOnExactlyToTen | controllers/partition_controller.go:205-246 | while all Pods are steady, the reached ones updated and the cluster healthy, the controller goes on lowering, exactly up to ten replicas |
| Rollout.ElevenStuck | controllers/partition_controller.go:217-222 | a rollout of eleven Pods stops at partition 10, waiting for Pod 9 below it |
| Rollout.LoweringKeepsSound | controllers/partition_controller.go:133-178 | lowering when the controller does keeps at most one outdated Pod at or above the partition |
| Rollout.Rolling.UserUpdate | api/v1beta2/statefulset_webhhok.go:56-82 | an update by anyone else, offline with 0 replicas included, resets the partition to the number of replicas |
| Rollout.Rolling.PatchNewPartition | controllers/partition_controller.go:295-316 | the patch passes the webhook unchanged: exactly one lower, or nothing |
| Rollout.Rolling.Decide | controllers/partition_controller.go:133-178 | with status and labels in agreement, ready exactly if the rollout may go on |
| Rollout.Rolling.Reconcile | controllers/partition_controller.go:52-104 | the partition goes down by one exactly when generations agree, it is positive, the rollout may go on and the rate limiter allows it; when that reaches an outdated Pod, every other Pod is available, not terminating, with ready containers and updated if reached; when it is kept with nothing else in the way, some Pod is not so |
| Rollout.Rolling.Run | controllers/partition_controller.go:52-316 | in every run, clusters that go offline and come back included: partition in range, partition plus patches since the last reset is the number of replicas; up to ten replicas, beyond which both fail, at most one outdated Pod from the partition up to the number of replicas, and an outdated Pod is newly exposed only while all others are steady |
| BackupTime.CalendarOrder | pkg/constants/backup.go:8-10 | calendar order of valid dates is the order of time |
| BackupTime.GregorianDays | pkg/constants/backup.go:8-10 | the calendar behind the notation is the Gregorian one: leap days counted in closed form |
| BackupTime.ParseFormat | pkg/constants/backup.go:8-8 | reading back a written time |
| BackupTime.FormatParse | pkg/constants/backup.go:8-8 | only the notation of a time is read as that time |
| BackupTime.FormatOrder | pkg/constants/backup.go:8-8 | string order of the notation is the order of time |
| Restore.SplitKey | backup/key.go:12-18 | directory and time are read back from a key |
| Restore.KeyOrder | backup/key.go:12-18 | keys sort by time, and the binlog of a backup before its dump |
| Restore.KeyIdentifies | backup/key.go:12-18 | a key belongs to one backup and one kind of file |
| Restore.ClusterIdentified | backup/key.go:12-18 | for namespaces and names without a slash, equal keys belong to the same cluster |
| Restore.Scan | backup/restore.go:206-239 | the pass over sorted keys with break and continue gives the specified answer |
| Restore.FindNearestDump | backup/restore.go:203-239 | in any order and mixed with garbage: the latest dump not after the restore point, its time, and its own binlog if present, unless a stray binlog takes its place; the keys end up sorted |
| Restore.AnswerByTimes | backup/restore.go:203-239 | the answer by the keys and the times they bear: the dump is one of the keys, none is later up to the restore point, the binlog is one of the keys not before it, and there is one if the backup has one |
| Restore.RestorePlanned | backup/restore.go:146-168 | the restore loads the right dump and applies the right binlog exactly if no stray binlog follows the nearest dump |
| Restore.SiblingsAreRestored | backup/restore.go:146-168 | with a dump beside every binlog, the restore is right |
| Restore.StrayExample | backup/restore.go:226-239 | a dump and a later binlog alone: the binlog is taken although it does not follow the dump |
| Decimal.AtoiDigits | backup/backup.go:228-228 | an index is read back from its text |
| Backup.GetUUIDSet | backup/backup.go:210-232 | the map holds exactly the ready Pods that told their UUID; an error exactly if a connection cannot be set up |
| Backup.GetIdxsWithUnchangedUUID | backup/backup.go:493-506 | whatever the order of map iteration, the indices with an unchanged UUID in ascending order |
| Backup.OneRightChoice | backup/backup.go:236-299 | there is only one right choice |
| Backup.EligibleIsReady | backup/backup.go:210-232 | an eligible index is a ready Pod whose UUID is the recorded one |
| Backup.RightChoiceIsReady | backup/backup.go:236-299 | the right choice is a ready Pod; with binlogs only if its UUID matches the last backup; the primary only if nothing else will do; an error only if no Pod is ready |
| Backup.SourceAgain | backup/backup.go:257-299 | the last source is chosen again, with binlogs, if it is a ready replica with the recorded UUID, also when the record has no UUID set; otherwise no replica before the chosen one has kept its UUID |
| Backup.BackupManager.ChooseAnyReady | backup/backup.go:240-255 | the least ready replica, else a ready primary, else an error |
| Backup.BackupManager.ChoosePreferred | backup/backup.go:284-299 | the last source if it is an eligible replica, else the least eligible replica, else the primary |
| Backup.BackupManager.ChoosePod | backup/backup.go:236-299 | the right choice, and one more warning exactly if binlogs are skipped although there was a backup |

## Left out

- External replication sources: the initial clone round (`clustering/operations.go` 68-146) is left out. The classification, the recorded `Cloned` flag, the configure and its fixed point cover clusters with a source; the durability runs are without one, as clients commit elsewhere.
- Configure.Configure: keeps the invariant of the durability runs and is therefore stated without a replication source; the server work with one is Intermediate.Site.ConfigureServers, and its label work is that of Labels.
- Configure.ConfigureServers, Configure.OpenPrimary: likewise without a replication source.
- Changes of `Replicas` within a durability run: the wait count lags a scale-out until the next configure. The recorded primary and errant list are covered for growing `Replicas`.
- Offline rounds: they are classified and recorded, and nothing is done in them. The code reads missing Pods there when it removes the prevent-delete annotation; that is not modelled.
- Failover.Failover: keeps the run sound and is therefore stated for sound runs, in which no lost relay log has broken a quorum; the loss-less clause for every state is Failover.FailoverLosesNothing.
- Process.Do: the prevent-delete annotation is not a part of a Pod; a patch of it that fails ends the round.
- Process.UpdateStatus: status conditions, counters and metrics are not modelled.
- Statements.ConfigureReplica: credentials, ports and the text of the statements are not modelled; a relay log that is deleted although a quorum depends on it is not a step of the runs.
- Switchover.RemoveDemote: an annotation with a value other than "true" is not told apart from none.
- Statements.KillConnections: system users and local connections, which it spares, are not client connections of the model.
- Statements.GetStatus: which IO threads are connected, the list of attached replicas, the delay and the clone state are arbitrary values.
- Configure.AttachReplica: a failed clone that empties an instance on which a quorum depends is not a step of the runs.
- FixedPoint.ConfigureFixedPoint: both gathers reach the same instances, and the primary answers, as it must for a configure.
- Bookkeeping.Record.ChangeSpec: only the rules on replicas, replication source and restore; the other rules of validateCreate and validateUpdate would only add easy members.
- Dbop.FindTopRunner: GTID sets are sets; IsSubsetGTID and SubtractGTID are database functions.
- GtidText.CanonicalFlagged: tagged GTIDs of MySQL 8.3 and later are not part of the printed form.
- Rollout.Rolling.PodBorn: a Pod at or above the partition is created at the update revision; a StatefulSet controller that still acts on an older partition is not modelled.
- Rollout.Rolling.Decide: `status.updatedReplicas` is counted from the Pods, so status and labels agree.
- Restore.SplitKey: `path.Dir` without cleaning; keys with empty, "." or ".." components are taken as written.
- Backup.GetUUIDSet: Pod conditions are one ready flag per Pod, and integers in map keys do not overflow.
- Dumping, archiving, compressing and replaying: foreign programs.
- Kubernetes API traffic, retries on conflict, events, logs, certificates, passwords and resource builders.
