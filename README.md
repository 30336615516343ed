# A verified model of six pieces of an Oracle NoSQL Database deployment

This project models six components of Oracle NoSQL Database and of a test harness that embeds it:

- **The monitor agent's bounded measurement buffer** (`AgentRepository`).
  - Producers add measurements at the tail.
  - On overflow the oldest measurement is evicted into a "pruned" placeholder.
  - The collector drains the buffer, receiving the placeholder first.
  - A running count of service-status changes is kept in step with the live measurements.
- **The fault handler of a RepNode or ArbNode service** (`ServiceFaultHandler`).
  - It decides which exception a failed request surfaces to the client.
  - It decides whether the process exits, and with which exit code.
  - It decides which service status the shutdown reports.
  - It records the shutdown fault.
- **The plan task that deploys a new replica node (RN) on a storage node (SN)** (`DeployNewRN`).
  - It resolves the shard.
  - On a retry it adopts an RN already on the SN; otherwise it allocates a new RN and computes its JE HA parameters and helper hosts.
  - It saves the topology and parameters in the Admin database *before* asking the SN agent to create the RN, then registers the RN with the monitor.
  - Its cleanup job retries a topology repair until it is done, interrupted or out of time.
- **The status an Admin service reports** (`AdminStatus`).
- **The UUID-keyed registry of embedded store managers** (`OracleNoSqlHolder`).
- **The null guard** `ObjectUtil.checkNull`.

## How each component is modelled

- **Stateful components are Dafny classes.** The buffer, the fault handler's recorded fault, the Admin store, the deployment task's recorded RN id and the manager registry are classes with `seq` and `map` fields and `modifies` clauses.
  - The buffer's invariant is `Valid()`: the count equals the status changes among the live measurements, the buffer is within capacity, and a placeholder exists only when the buffer is full.
- **Pure decisions are datatypes and functions.** This covers the exception classification, the exit code, the status mapping, `AdminStatus` and `checkNull`.
- **Loops stay loops.** These are:
  - the helper-host loop;
  - the existing-RN search in `doWork`;
  - the cleanup retry loop.

  Each is a `method` proved against a specification function, or against a full characterisation of how it ends.
- **`doWork` has two versions.** The imperative method `DeployNewRN.DeployNewRN.DoWork` is proved equal to the function `DeployNewRN.DoWorkOutcome`. The lemmas about retries, idempotence and save-before-create are stated on that function.
- **Collaborators become inputs.** These are:
  - the Admin's port tracker;
  - the SN's HA host name;
  - the data center's node type;
  - the plan's shard allocation;
  - the SN agent's answer;
  - the topology checker's remedy;
  - the clock;
  - interruption.
- **Java null and exceptions become values.** Null is `Option.None`. A thrown exception is the `Failure`/`Fail` arm of `Result`/`Outcome`.
- **Exception classes are sets.** An exception value carries the set of classes it is an instance of, so overlapping `instanceof` tests are modelled faithfully.

## Model

| member | source | states |
|---|---|---|
| AgentRepository.AgentRepository.constructor | src/main/resources/oracle-db/kv-18.1.19/src/oracle/kv/impl/monitor/AgentRepository.java:55-70 | a new repository of the given maximum size is empty, has no pruned placeholder, has count 0, and satisfies the buffer invariant |
| AgentRepository.AgentRepository.WithDefaultSize | src/main/resources/oracle-db/kv-18.1.19/src/oracle/kv/impl/monitor/AgentRepository.java:48-53 | the public constructor uses the default size 10000 |
| AgentRepository.AgentRepository.Add | src/main/resources/oracle-db/kv-18.1.19/src/oracle/kv/impl/monitor/AgentRepository.java:75-94 | keeps the invariant; evicted + live measurements are exactly everything added since the last drain, in order; only on overflow, and only the oldest, is evicted into the placeholder; the count moves by the added and the evicted status change |
| AgentRepository.AgentRepository.GetAndReset | src/main/resources/oracle-db/kv-18.1.19/src/oracle/kv/impl/monitor/AgentRepository.java:102-118 | returns the live measurements in order, preceded by the placeholder exactly when something was pruned; the returned count is the number of status changes among them; the buffer, placeholder and count are reset |
| AgentRepository.AgentRepository.Size | src/main/resources/oracle-db/kv-18.1.19/src/oracle/kv/impl/monitor/AgentRepository.java:120-128 | the number of live measurements only, never the placeholder; never above capacity |
| AgentRepository.CapacityThreeScenario | src/main/resources/oracle-db/kv-18.1.19/src/oracle/kv/impl/monitor/AgentRepository.java:75-118 | a size-3 buffer fed four measurements drains as [placeholder of the first, the other three], counting their status changes; an immediate second drain is empty with count 0 |
| ServiceFaultHandler.GetThrowException | src/main/resources/oracle-db/kv-18.1.19/src/oracle/kv/impl/fault/ServiceFaultHandler.java:81-141 | operation failures and session-access failures pass through unchanged; through any chain of query wrappers, only such failures pass unchanged, only security or missing-metadata failures are wrapped for the client, and only exceptions no test matches become generic remote faults |
| ServiceFaultHandler.ClassificationRows | src/main/resources/oracle-db/kv-18.1.19/src/oracle/kv/impl/fault/ServiceFaultHandler.java:103-140 | the remaining rows in order: wrap security/metadata, unwrap client access to its cause, environment-retry becomes RN-unavailable with the same message, a query wrapper is classified by its cause, table-version becomes the schema-retry fault, everything else a remote fault wrapping it |
| ServiceFaultHandler.QueryWrappersAreTransparent | src/main/resources/oracle-db/kv-18.1.19/src/oracle/kv/impl/fault/ServiceFaultHandler.java:126-128 | any number of query-runtime wrappers surfaces exactly what the wrapped exception surfaces |
| ServiceFaultHandler.GetExitCode | src/main/resources/oracle-db/kv-18.1.19/src/oracle/kv/impl/fault/ServiceFaultHandler.java:148-163 | a corrupted environment gives NO_RESTART; no exit (null) exactly for an operation failure with an uncorrupted environment; in every other case exactly the supplied default |
| ServiceFaultHandler.CreatedExceptionsAreFinal | src/main/resources/oracle-db/kv-18.1.19/src/oracle/kv/impl/fault/ServiceFaultHandler.java:81-163 | every exception the handler constructs, classified again, passes through unchanged and does not exit the process |
| ServiceFaultHandler.ShutdownStatus | src/main/resources/oracle-db/kv-18.1.19/src/oracle/kv/impl/fault/ServiceFaultHandler.java:248-252 | ERROR_NO_RESTART exactly for the NO_RESTART exit code, ERROR_RESTARTING otherwise |
| ServiceFaultHandler.ShutdownStatusOfFault | src/main/resources/oracle-db/kv-18.1.19/src/oracle/kv/impl/fault/ServiceFaultHandler.java:148-163 | a fault that exits reports ERROR_NO_RESTART exactly when the environment is corrupted or the default exit code is NO_RESTART |
| ServiceFaultHandler.ServiceFaultHandler.constructor | src/main/resources/oracle-db/kv-18.1.19/src/oracle/kv/impl/fault/ServiceFaultHandler.java:49-54 | keeps the default exit code; no shutdown fault yet |
| ServiceFaultHandler.ServiceFaultHandler.QueueShutdownInternal | src/main/resources/oracle-db/kv-18.1.19/src/oracle/kv/impl/fault/ServiceFaultHandler.java:62-72 | records the (non-null) fault as the shutdown fault |
| ServiceFaultHandler.ServiceFaultHandler.GetShutdownFault | src/main/resources/oracle-db/kv-18.1.19/src/oracle/kv/impl/fault/ServiceFaultHandler.java:168-170 | returns the recorded shutdown fault |
| DeployNewRN.ResolveShardId | src/test/resources/oracle-db/kv-4.3.11/src/oracle/kv/impl/admin/plan/task/DeployNewRN.java:287-292 | the specified shard when there is one, else the shard the plan allocated at the task's index |
| DeployNewRN.LastOnSn | src/test/resources/oracle-db/kv-4.3.11/src/oracle/kv/impl/admin/plan/task/DeployNewRN.java:318-323 | none exactly when no member is on the SN; otherwise a member on the SN after which no member is on the SN |
| DeployNewRN.FindExistingNode | src/test/resources/oracle-db/kv-4.3.11/src/oracle/kv/impl/admin/plan/task/DeployNewRN.java:318-323 | the loop finds the last member on the SN (none exactly when there is none) and that member's stored parameters |
| DeployNewRN.NewRepNodeId | src/test/resources/oracle-db/kv-4.3.11/src/oracle/kv/impl/admin/plan/task/DeployNewRN.java:326-328 | the new RN's id is in the task's shard and differs from every member's id |
| DeployNewRN.BuildHelperHostsIsJoin | src/test/resources/oracle-db/kv-4.3.11/src/oracle/kv/impl/admin/plan/task/DeployNewRN.java:259-273 | the StringBuilder loop with its "comma only after a non-empty prefix" test builds the comma-joined list, and is empty only for no values |
| DeployNewRN.HelperHostsAreJoinedOthers | src/test/resources/oracle-db/kv-4.3.11/src/oracle/kv/impl/admin/plan/task/DeployNewRN.java:248-274 | the helper list is the HA host:port of every member except the target, in member order, comma-joined; it is empty exactly when the target is alone in its shard |
| DeployNewRN.FindHelperHosts | src/test/resources/oracle-db/kv-4.3.11/src/oracle/kv/impl/admin/plan/task/DeployNewRN.java:255-274 | the loop computes the helper list, or the null-pointer failure of the first other member without parameters |
| DeployNewRN.RepNodeParamsFor | src/test/resources/oracle-db/kv-4.3.11/src/oracle/kv/impl/admin/plan/task/DeployNewRN.java:169-204 | the new RN's parameters are for this SN and RN and enabled; with no other helper the node must be electable (else NOSQL_5500 with the self-electing message) and is its own helper; otherwise the helpers are the other members; a failed helper lookup is passed on unchanged, and any other case succeeds; the HA host and port, storage directory and its size, and node type are those of the SN and the task |
| DeployNewRN.DeployNewRN.MakeRepNodeParams | src/test/resources/oracle-db/kv-4.3.11/src/oracle/kv/impl/admin/plan/task/DeployNewRN.java:169-246 | the method computes exactly RepNodeParamsFor |
| DeployNewRN.Admin.SaveTopoAndRNParam | src/test/resources/oracle-db/kv-4.3.11/src/oracle/kv/impl/admin/plan/task/DeployNewRN.java:332-334 | the Admin database afterwards holds the given topology and the RN's parameters |
| DeployNewRN.DeployNewRN.ForNewShard | src/test/resources/oracle-db/kv-4.3.11/src/oracle/kv/impl/admin/plan/task/DeployNewRN.java:119-157 | a task for a new shard keeps the plan's shard index and no specified shard; a null storage directory gives no mount point and size 0 |
| DeployNewRN.DeployNewRN.ForExistingShard | src/test/resources/oracle-db/kv-4.3.11/src/oracle/kv/impl/admin/plan/task/DeployNewRN.java:132-157 | a task for an existing shard keeps that shard, with index 0; the storage directory as above |
| DeployNewRN.DeployNewRN.DoWork | src/test/resources/oracle-db/kv-4.3.11/src/oracle/kv/impl/admin/plan/task/DeployNewRN.java:283-376 | the method's outcome, calls, recorded RN id and Admin database are exactly those of DoWorkOutcome |
| DeployNewRN.FinishDoWorkCases | src/test/resources/oracle-db/kv-4.3.11/src/oracle/kv/impl/admin/plan/task/DeployNewRN.java:345-375 | an unreachable agent fails first and missing parameters second (NOSQL_5400 / PLAN_CANCEL), both before any create call; otherwise the create call follows the saved calls; its IllegalStateException becomes NOSQL_5200 / NO_CLEANUP_JOBS with its message and any other exception propagates; a created RN on a known SN succeeds and is registered at that SN's registry, an unknown SN ends in a NullPointerException |
| DeployNewRN.MissingShardChangesNothing | src/test/resources/oracle-db/kv-4.3.11/src/oracle/kv/impl/admin/plan/task/DeployNewRN.java:297-308 | a missing shard fails with NOSQL_5500 / NO_CLEANUP_JOBS before any call, leaving the database and the recorded RN alone |
| DeployNewRN.RetryAdoptsExistingNode | src/test/resources/oracle-db/kv-4.3.11/src/oracle/kv/impl/admin/plan/task/DeployNewRN.java:312-337 | when the shard already has an RN on the SN, the last one is adopted, nothing is saved and the database is unchanged |
| DeployNewRN.IntentIsSavedBeforeCreate | src/test/resources/oracle-db/kv-4.3.11/src/oracle/kv/impl/admin/plan/task/DeployNewRN.java:325-363 | whenever the SN agent is asked to create an RN, the database at that moment already holds that RN on the SN in the shard and exactly the parameters sent |
| DeployNewRN.DoWorkIsIdempotent | src/test/resources/oracle-db/kv-4.3.11/src/oracle/kv/impl/admin/plan/task/DeployNewRN.java:312-337 | re-running after a run that saved its RN saves nothing more, leaves the database as it was and deploys the same RN |
| DeployNewRN.SavingRunSavesItsNode | src/test/resources/oracle-db/kv-4.3.11/src/oracle/kv/impl/admin/plan/task/DeployNewRN.java:325-337 | a run that saves found no RN of the shard on the SN, adds exactly one new RN on the SN at the end of the shard and changes nothing else of the topology, stores only that RN's parameters, and records its id |
| DeployNewRN.NewNodeRunSaves | src/test/resources/oracle-db/kv-4.3.11/src/oracle/kv/impl/admin/plan/task/DeployNewRN.java:318-337 | conversely, a run that finds no RN of the shard on the SN and can make the new RN's parameters saves before anything else |
| DeployNewRN.DoWorkKeepsTopologyWellFormed | src/test/resources/oracle-db/kv-4.3.11/src/oracle/kv/impl/admin/plan/task/DeployNewRN.java:312-337 | a topology with at most one RN of a shard per SN and distinct RN ids in each shard stays so |
| DeployNewRN.SucceededMeansDeployed | src/test/resources/oracle-db/kv-4.3.11/src/oracle/kv/impl/admin/plan/task/DeployNewRN.java:356-375 | SUCCEEDED only when the agent created the RN; the RN is then in the saved topology on the SN and the last call registers it with the monitor |
| DeployNewRN.DeployNewRN.ContinuePastError | src/test/resources/oracle-db/kv-4.3.11/src/oracle/kv/impl/admin/plan/task/DeployNewRN.java:378-381 | a failure of this task never lets the plan continue |
| DeployNewRN.DeployNewRN.Label | src/test/resources/oracle-db/kv-4.3.11/src/oracle/kv/impl/admin/plan/task/DeployNewRN.java:383-398 | the inherited label, then the RN id once known, then " on " and the SN |
| DeployNewRN.DeployNewRN.CleanupAllocation | src/test/resources/oracle-db/kv-4.3.11/src/oracle/kv/impl/admin/plan/task/DeployNewRN.java:448-475 | nothing to undo (done) while no RN is recorded; otherwise the checker's remedy result |
| DeployNewRN.DeployNewRN.RunCleanupJob | src/test/resources/oracle-db/kv-4.3.11/src/oracle/kv/impl/admin/plan/task/DeployNewRN.java:401-446 | every attempt but the last found the cleanup not done, in time and uninterrupted; each way of ending (done, interrupted, time passed, sleep interrupted, exception) is characterised by the last attempt, and an interruption comes either before any attempt or after one that was not done, in time and uninterrupted; at most maxRetryTime + 2 attempts; with no RN recorded it is done after one |
| AdminStatus.NewAdminStatus | src/test/resources/oracle-db/kv-4.3.11/src/oracle/kv/impl/admin/AdminStatus.java:38-55 | the getters return the status and state given; the node is the authoritative master exactly when it is claimed and the state is MASTER |
| AdminStatus.AdminStatus.GetIsAuthoritativeMaster | src/test/resources/oracle-db/kv-4.3.11/src/oracle/kv/impl/admin/AdminStatus.java:57-64 | never true unless the state is MASTER |
| AdminStatus.ToStringMarksNonAuthoritativeMaster | src/test/resources/oracle-db/kv-4.3.11/src/oracle/kv/impl/admin/AdminStatus.java:66-71 | the rendering starts "status,state"; it ends with " (non-authoritative)" exactly for a master that is not authoritative, and never for the authoritative master |
| ObjectUtil.CheckNull | src/test/resources/oracle-db/kv-4.3.11/src/oracle/kv/impl/util/ObjectUtil.java:30-36 | fails with IllegalArgumentException exactly when the value is null, with message "The value of <name> must not be null"; otherwise returns normally |
| ObjectUtil.CheckNullNamesTheVariable | src/test/resources/oracle-db/kv-4.3.11/src/oracle/kv/impl/util/ObjectUtil.java:33-34 | the variable's name sits between the fixed head and tail of the message |
| ObjectUtil.CheckNullMessagesDistinguishNames | src/test/resources/oracle-db/kv-4.3.11/src/oracle/kv/impl/util/ObjectUtil.java:33-34 | different variable names give different messages |
| OracleNoSqlHolder.Holder.constructor | src/main/java/OracleNoSqlHolder.java:5 | the registry starts empty |
| OracleNoSqlHolder.Holder.AddOracleNoSqlManager | src/main/java/OracleNoSqlHolder.java:7-13 | succeeds exactly for a fresh UUID and then maps it to the manager; a duplicate is stopped, rejected with the duplicate message (or the stop's interruption) and leaves the registry alone; no other entry is ever overwritten or removed |
| OracleNoSqlHolder.Holder.GetOracleNoSqlManager | src/main/java/OracleNoSqlHolder.java:15-20 | the manager registered under the UUID, or the "could not find" IllegalStateException exactly when none is; changes nothing |
| OracleNoSqlHolder.AddThenGet | src/main/java/OracleNoSqlHolder.java:7-20 | after adding a manager under a fresh UUID it is found under that UUID, and every UUID registered before is still found |
| OracleNoSqlHolder.AddDuplicate | src/main/java/OracleNoSqlHolder.java:7-20 | adding a second manager under a registered UUID stops it, is rejected, and the first stays registered |

## Left out

- The asynchronous shutdown threads are not modelled. The handler only records the fault. This covers daemon threads, yielding, process exit, stderr printing, log flushing, and the choice between the test and production thread. What remains is the status mapping, `ShutdownStatus`.
- Locking is not modelled: the `synchronized` methods of the buffer and the registry's unsynchronized static map. Every operation is one atomic step.
- `AgentRepository.AgentRepository.constructor`: the registration of the buffer with the logging system is not modelled.
- `Pruned` is not part of this model. It is modelled as the sequence of recorded measurements, and "exists" means the sequence is not empty.
- Measurement subclasses other than service-status changes are not told apart.
- `ServiceFaultHandler.GetThrowException`: the cause of a query-runtime exception is taken to be a RuntimeException. A cause of another type would make the source throw a ClassCastException, which this model does not capture.
- `ServiceFaultHandler.GetExitCode`: a null default exit code is not modelled.
- `ProcessExitCode` is not part of this model. Its constants other than NO_RESTART are told apart by name, and are assumed to have values distinct from NO_RESTART.
- `DeployNewRN.DeployNewRN.MakeRepNodeParams`: the following are not modelled:
  - JVM heap, JE cache and parallel-GC sizing;
  - the copied parameter policies;
  - the log message.

  The HA host name, the HA port from the port tracker and the node type from the data center (`computeNodeType`) are inputs. A missing SN parameter, and its null-pointer failure, is not modelled.
- `DeployNewRN.NewRepNodeId`: RepGroup.add is not part of this model. The new RN's node number is taken to be one more than the largest in the shard. Only its freshness within the shard is relied on.
- `DeployNewRN.RepNodeIdString`: RepNodeId's rendering is not part of this model. It is taken to be "rg<shard>-rn<number>".
- `DeployNewRN.DeployNewRN.DoWork`: the following are not modelled:
  - the plan's deployed-info record passed to the save;
  - the metadata set passed to createRepNode;
  - the fault-injection test hooks;
  - the login manager.

  Failure messages that print the topology or an RN are left absent.
- `DeployNewRN.DeployNewRN.RunCleanupJob`: the sleep between attempts is assumed to advance the clock by at least one millisecond. If the wall clock is set back or stalls, the Java job keeps retrying past maxRetryTime until it is done or interrupted; the model does not cover that case. The remedy and the clock are inputs. The task is not re-registered, and the exception is reported as an end state rather than thrown.
- `OracleNoSqlHolder.Manager.Stop`: OracleNoSqlManager is not part of this model. Its `stop()` is modelled as recording that a stop was requested, possibly interrupted.
- Java integer widths do not matter here: sizes, ports and ids are unbounded integers.
