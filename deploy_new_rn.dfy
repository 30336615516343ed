/**
 * The plan task that creates and starts one replica node (RN) of a shard on a
 * storage node (SN) (oracle.kv.impl.admin.plan.task.DeployNewRN).
 *
 * The task first records its intent in the Admin database (the new RN in the
 * topology, and the RN's parameters), and only then asks the SN's agent to
 * create the RN. Re-executing the task adopts an RN of the shard already on
 * the SN instead of adding a second one. If the plan fails, a cleanup job
 * retries a topology repair until it succeeds, is interrupted or runs out of
 * time.
 *
 * The Admin, the SN agent, the port tracker, the data-center node-type policy,
 * the topology checker and the clock are collaborators: their answers are
 * inputs of the model.
 */
module DeployNewRN {
  import opened Common

  type StorageNodeId = nat
  type RepGroupId = nat

  /** The id of an RN: its shard and its number within the shard. */
  datatype RepNodeId = RepNodeId(group: RepGroupId, nodeNum: nat)

  /** RepNodeId's rendering, as in "rg1-rn2". */
  function RepNodeIdString(id: RepNodeId): string
  {
    "rg" + DecimalString(id.group) + "-rn" + DecimalString(id.nodeNum)
  }

  /** An RN of the topology and the SN that hosts it. */
  datatype RepNode = RepNode(id: RepNodeId, sn: StorageNodeId)

  datatype StorageNode = StorageNode(hostname: string, registryPort: int)

  /** Each shard's members, in the topology's order, and the storage nodes. */
  datatype Topology = Topology(
    shards: map<RepGroupId, seq<RepNode>>,
    storageNodes: map<StorageNodeId, StorageNode>)

  /** A JE HA node type, as the data center's policy gives it. */
  datatype NodeType = NodeType(name: string, electable: bool)

  /** The parameters an RN is started with; heap, cache and GC sizing are not modelled. */
  datatype RepNodeParams = RepNodeParams(
    sn: StorageNodeId,
    rnId: RepNodeId,
    disabled: bool,
    haHostname: string,
    haPort: nat,
    helperHosts: string,
    mountPoint: Option<string>,
    storageDirectorySize: int,
    nodeType: NodeType)

  /** The RN parameters stored in the Admin database. */
  type Parameters = map<RepNodeId, RepNodeParams>

  function HostPort(host: string, port: nat): (s: string)
    ensures ':' in s
  {
    assert (host + ":" + DecimalString(port))[|host|] == ':';
    host + ":" + DecimalString(port)
  }

  /** RepNodeParams.getJENodeHostPort(). */
  function JENodeHostPort(p: RepNodeParams): string
  {
    HostPort(p.haHostname, p.haPort)
  }

  datatype StorageDirectory = StorageDirectory(path: string, size: int)

  datatype ErrorMessage = NOSQL_5200 | NOSQL_5400 | NOSQL_5500
  datatype CommandResult = NO_CLEANUP_JOBS | PLAN_CANCEL

  /** How doWork fails: a CommandFaultException, or an exception of a
      collaborator that propagates unchanged. A fault message that renders
      objects this model does not (the topology printer, an RN) is absent. */
  datatype TaskFailure =
    | CommandFault(error: ErrorMessage, result: CommandResult, message: Option<string>)
    | Propagated(reason: string)

  const SELF_ELECTING_MESSAGE: string := "The self-electing node must be electable"
  const NULL_POINTER: string := "java.lang.NullPointerException"

  datatype TaskState = SUCCEEDED

  /** What the collaborators say about the target SN: its HA host name (from
      its parameters), the next free HA port (from the port tracker) and the
      node type of its data center. */
  datatype SnContext = SnContext(haHostname: string, haPort: nat, nodeType: NodeType)

  /** What happens on the remote side: the SN agent cannot be reached, or
      createRepNode returns, throws IllegalStateException, or throws anything
      else. */
  datatype RemoteOutcome =
    | AgentUnavailable(reason: string)
    | Created
    | CreateIllegalState(message: string)
    | CreateFailed(reason: string)

  /** The externally visible calls doWork makes, in order. */
  datatype Call =
    | SaveTopoAndRNParam(topology: Topology, rnp: RepNodeParams)
    | CreateRepNode(rnp: RepNodeParams)
    | RegisterAgent(hostname: string, registryPort: int, rnId: RepNodeId)

  /** The Admin database's topology and RN parameters. */
  datatype AdminDb = AdminDb(topology: Topology, params: Parameters)

  /** The Admin database after one call: a save stores its topology and its
      RN's parameters; the remote calls leave the database alone. */
  function ApplyCall(db: AdminDb, c: Call): AdminDb
  {
    match c
    case SaveTopoAndRNParam(t, p) => AdminDb(t, db.params[p.rnId := p])
    case _ => db
  }

  /** The Admin database after `calls`, in order. */
  function ApplySaves(db: AdminDb, calls: seq<Call>): AdminDb
    decreases |calls|
  {
    if calls == [] then db else ApplySaves(ApplyCall(db, calls[0]), calls[1..])
  }

  lemma ApplySavesNoSave(db: AdminDb, calls: seq<Call>)
    requires forall i :: 0 <= i < |calls| ==> !calls[i].SaveTopoAndRNParam?
    ensures ApplySaves(db, calls) == db
    decreases |calls|
  {
    if calls != [] {
      ApplySavesNoSave(db, calls[1..]);
    }
  }

  /** Only a leading save changes the database. */
  lemma SaveFirstOnly(db: AdminDb, calls: seq<Call>)
    requires forall i :: 1 <= i < |calls| ==> !calls[i].SaveTopoAndRNParam?
    ensures ApplySaves(db, calls) == if calls == [] then db else ApplyCall(db, calls[0])
  {
    if calls != [] {
      ApplySavesNoSave(ApplyCall(db, calls[0]), calls[1..]);
    }
  }

  function Lookup(params: Parameters, id: RepNodeId): Option<RepNodeParams>
  {
    if id in params then Some(params[id]) else None
  }

  /** The task's shard: the specified one, else the one the plan allocated. */
  function ResolveShardId(specifiedShard: Option<RepGroupId>, planShardIdx: int,
                          getShardId: int -> RepGroupId): (shardId: RepGroupId)
    ensures specifiedShard.Some? ==> shardId == specifiedShard.value
    ensures specifiedShard.None? ==> shardId == getShardId(planShardIdx)
  {
    if specifiedShard.None? then getShardId(planShardIdx) else specifiedShard.value
  }

  /** The last member of a shard hosted on `sn`, if any. */
  function LastOnSn(members: seq<RepNode>, sn: StorageNodeId): (r: Option<RepNode>)
    ensures r.None? <==> forall i :: 0 <= i < |members| ==> members[i].sn != sn
    ensures r.Some? ==> exists i :: 0 <= i < |members| && members[i] == r.value && r.value.sn == sn
                          && forall j :: i < j < |members| ==> members[j].sn != sn
  {
    if members == [] then None
    else if members[|members| - 1].sn == sn then Some(members[|members| - 1])
    else LastOnSn(members[..|members| - 1], sn)
  }

  function MaxNodeNum(members: seq<RepNode>): (n: nat)
    ensures forall i :: 0 <= i < |members| ==> members[i].id.nodeNum <= n
  {
    if members == [] then 0
    else
      var rest := MaxNodeNum(members[..|members| - 1]);
      var last := members[|members| - 1].id.nodeNum;
      if last > rest then last else rest
  }

  /** The id RepGroup.add gives a new RN: the next node number of the shard. */
  function NewRepNodeId(shardId: RepGroupId, members: seq<RepNode>): (id: RepNodeId)
    ensures id.group == shardId
    ensures forall i :: 0 <= i < |members| ==> members[i].id != id
  {
    RepNodeId(shardId, MaxNodeNum(members) + 1)
  }

  /** The HA host:port values of the members other than `target`, in member
      order; looking up a member without stored parameters is a
      NullPointerException. */
  function HelperHostPorts(members: seq<RepNode>, target: RepNodeId, params: Parameters)
    : Result<seq<string>, TaskFailure>
  {
    if members == [] then Success([])
    else
      var last := members[|members| - 1];
      match HelperHostPorts(members[..|members| - 1], target, params)
      case Failure(f) => Failure(f)
      case Success(hps) =>
        if last.id == target then Success(hps)
        else if last.id !in params then Failure(Propagated(NULL_POINTER))
        else Success(hps + [JENodeHostPort(params[last.id])])
  }

  /** Once a prefix of the members fails, the whole list fails the same way. */
  lemma HelperHostPortsFailureSticks(members: seq<RepNode>, target: RepNodeId, params: Parameters, k: nat)
    requires k <= |members|
    requires HelperHostPorts(members[..k], target, params).Failure?
    ensures HelperHostPorts(members, target, params) == HelperHostPorts(members[..k], target, params)
    decreases |members| - k
  {
    if k < |members| {
      assert members[..k + 1][..k] == members[..k];
      HelperHostPortsFailureSticks(members, target, params, k + 1);
    } else {
      assert members[..k] == members;
    }
  }

  /** One StringBuilder step of findHelperHosts: a comma only after a
      non-empty prefix. */
  function AppendHelper(acc: string, hp: string): string
  {
    if |acc| != 0 then acc + "," + hp else acc + hp
  }

  function BuildHelperHosts(hps: seq<string>): string
  {
    if hps == [] then "" else AppendHelper(BuildHelperHosts(hps[..|hps| - 1]), hps[|hps| - 1])
  }

  /** The values separated by commas. */
  function Join(xs: seq<string>): string
  {
    if xs == [] then ""
    else if |xs| == 1 then xs[0]
    else xs[0] + "," + Join(xs[1..])
  }

  lemma {:induction false} JoinSnoc(xs: seq<string>, x: string)
    requires xs != []
    ensures Join(xs + [x]) == Join(xs) + "," + x
    decreases |xs|
  {
    if |xs| == 1 {
      assert xs + [x] == [xs[0], x];
      assert [xs[0], x][1..] == [x];
    } else {
      assert (xs + [x])[1..] == xs[1..] + [x];
      JoinSnoc(xs[1..], x);
    }
  }

  /** The StringBuilder loop builds the comma-joined list, as long as no value
      is empty (a host:port never is). */
  lemma {:induction false} BuildHelperHostsIsJoin(hps: seq<string>)
    requires forall i :: 0 <= i < |hps| ==> hps[i] != ""
    ensures BuildHelperHosts(hps) == Join(hps)
    ensures BuildHelperHosts(hps) == "" <==> hps == []
    decreases |hps|
  {
    if hps != [] {
      var init := hps[..|hps| - 1];
      BuildHelperHostsIsJoin(init);
      assert hps == init + [hps[|hps| - 1]];
      if init != [] {
        JoinSnoc(init, hps[|hps| - 1]);
      }
    }
  }

  /** findHelperHosts, as a value: the helper list, or the failure of a lookup. */
  function HelperHostsOf(members: seq<RepNode>, target: RepNodeId, params: Parameters)
    : Result<string, TaskFailure>
  {
    match HelperHostPorts(members, target, params)
    case Failure(f) => Failure(f)
    case Success(hps) => Success(BuildHelperHosts(hps))
  }

  /** The members other than `target`. */
  function Others(members: seq<RepNode>, target: RepNodeId): seq<RepNode>
  {
    if members == [] then []
    else
      var rest := Others(members[..|members| - 1], target);
      if members[|members| - 1].id == target then rest else rest + [members[|members| - 1]]
  }

  function HostPortsOf(ms: seq<RepNode>, params: Parameters): seq<string>
    requires forall i :: 0 <= i < |ms| ==> ms[i].id in params
  {
    if ms == [] then []
    else HostPortsOf(ms[..|ms| - 1], params) + [JENodeHostPort(params[ms[|ms| - 1].id])]
  }

  lemma {:induction false} OthersExcludeTarget(members: seq<RepNode>, target: RepNodeId)
    ensures forall i :: 0 <= i < |Others(members, target)| ==> Others(members, target)[i].id != target
    ensures forall m :: m in Others(members, target) <==> m in members && m.id != target
    decreases |members|
  {
    if members != [] {
      var init := members[..|members| - 1];
      OthersExcludeTarget(init, target);
      assert members == init + [members[|members| - 1]];
    }
  }

  lemma {:induction false} HelperHostPortsOfOthers(members: seq<RepNode>, target: RepNodeId, params: Parameters)
    requires forall m :: m in Others(members, target) ==> m.id in params
    ensures HelperHostPorts(members, target, params) == Success(HostPortsOf(Others(members, target), params))
    decreases |members|
  {
    if members != [] {
      var init := members[..|members| - 1];
      var last := members[|members| - 1];
      OthersExcludeTarget(members, target);
      OthersExcludeTarget(init, target);
      assert members == init + [last];
      HelperHostPortsOfOthers(init, target, params);
      var os := Others(init, target);
      if last.id != target {
        assert Others(members, target) == os + [last];
        assert (os + [last])[..|os|] == os;
      }
    }
  }

  lemma HostPortsNonEmpty(ms: seq<RepNode>, params: Parameters)
    requires forall i :: 0 <= i < |ms| ==> ms[i].id in params
    ensures |HostPortsOf(ms, params)| == |ms|
    ensures forall i :: 0 <= i < |ms| ==> HostPortsOf(ms, params)[i] != ""
    decreases |ms|
  {
    if ms != [] {
      HostPortsNonEmpty(ms[..|ms| - 1], params);
    }
  }

  /** When every other member has stored parameters, the helper list is their
      HA host:port values joined by commas, in member order, and it is empty
      exactly when the target is alone in its shard. */
  lemma HelperHostsAreJoinedOthers(members: seq<RepNode>, target: RepNodeId, params: Parameters)
    requires forall m :: m in members && m.id != target ==> m.id in params
    ensures forall i :: 0 <= i < |Others(members, target)| ==> Others(members, target)[i].id in params
    ensures HelperHostsOf(members, target, params)
              == Success(Join(HostPortsOf(Others(members, target), params)))
    ensures (HelperHostsOf(members, target, params) == Success(""))
              == (forall i :: 0 <= i < |members| ==> members[i].id == target)
  {
    OthersExcludeTarget(members, target);
    var os := Others(members, target);
    assert forall i :: 0 <= i < |os| ==> os[i] in os;
    HelperHostPortsOfOthers(members, target, params);
    HostPortsNonEmpty(os, params);
    BuildHelperHostsIsJoin(HostPortsOf(os, params));
    if os != [] {
      assert os[0] in members;
    }
    if exists i :: 0 <= i < |members| && members[i].id != target {
      var i :| 0 <= i < |members| && members[i].id != target;
      assert members[i] in os;
    }
  }

  /** findHelperHosts: the StringBuilder loop over the shard's members. */
  method FindHelperHosts(members: seq<RepNode>, target: RepNodeId, params: Parameters)
    returns (r: Result<string, TaskFailure>)
    ensures r == HelperHostsOf(members, target, params)
  {
    var helperHosts := "";
    ghost var hps: seq<string> := [];
    var i := 0;
    while i < |members|
      invariant 0 <= i <= |members|
      invariant HelperHostPorts(members[..i], target, params) == Success(hps)
      invariant helperHosts == BuildHelperHosts(hps)
    {
      assert members[..i + 1][..i] == members[..i];
      var rId := members[i].id;
      if rId != target {
        if rId !in params {
          assert members[..i + 1] == members[..i] + [members[i]];
          HelperHostPortsFailureSticks(members, target, params, i + 1);
          return Failure(Propagated(NULL_POINTER));
        }
        if |helperHosts| != 0 {
          helperHosts := helperHosts + ",";
        }
        helperHosts := helperHosts + JENodeHostPort(params[rId]);
        assert (hps + [JENodeHostPort(params[rId])])[..|hps|] == hps;
        hps := hps + [JENodeHostPort(params[rId])];
      }
      i := i + 1;
    }
    assert members[..i] == members;
    r := Success(helperHosts);
  }

  /** The search of doWork for an RN of the shard already on the SN: the last
      such member, and its stored parameters. */
  method FindExistingNode(members: seq<RepNode>, sn: StorageNodeId, params: Parameters)
    returns (rn: Option<RepNode>, rnp: Option<RepNodeParams>)
    ensures rn == LastOnSn(members, sn)
    ensures rn.Some? ==> rnp == Lookup(params, rn.value.id)
  {
    rn := None;
    rnp := None;
    var i := 0;
    while i < |members|
      invariant 0 <= i <= |members|
      invariant rn == LastOnSn(members[..i], sn)
      invariant rn.Some? ==> rnp == Lookup(params, rn.value.id)
    {
      assert members[..i + 1][..i] == members[..i];
      if members[i].sn == sn {
        rn := Some(members[i]);
        rnp := Lookup(params, members[i].id);
      }
      i := i + 1;
    }
    assert members[..i] == members;
  }

  /** The fields of a task that doWork reads, besides the RN id it records. */
  datatype TaskConfig = TaskConfig(
    snId: StorageNodeId,
    mountPoint: Option<string>,
    storageDirectorySize: int,
    planShardIdx: int,
    specifiedShard: Option<RepGroupId>)

  /** makeRepNodeParams, as a value. With no other member to help, the new
      RN must be electable and is its own helper. */
  function RepNodeParamsFor(t: TaskConfig, current: Topology, rgId: RepGroupId, rnId: RepNodeId,
                            params: Parameters, ctx: SnContext): (r: Result<RepNodeParams, TaskFailure>)
    requires rgId in current.shards
    ensures r.Success? ==> r.value.rnId == rnId && r.value.sn == t.snId && !r.value.disabled
    ensures r.Success? && HelperHostsOf(current.shards[rgId], rnId, params) == Success("") ==>
              ctx.nodeType.electable && r.value.helperHosts == HostPort(ctx.haHostname, ctx.haPort)
    ensures HelperHostsOf(current.shards[rgId], rnId, params) == Success("") && !ctx.nodeType.electable ==>
              r == Failure(CommandFault(NOSQL_5500, NO_CLEANUP_JOBS, Some(SELF_ELECTING_MESSAGE)))
    ensures r.Success? && HelperHostsOf(current.shards[rgId], rnId, params) != Success("") ==>
              HelperHostsOf(current.shards[rgId], rnId, params) == Success(r.value.helperHosts)
    // it fails only when the helper lookup fails, or for a lone non-electable node
    ensures HelperHostsOf(current.shards[rgId], rnId, params).Failure? ==>
              r == Failure(HelperHostsOf(current.shards[rgId], rnId, params).error)
    ensures HelperHostsOf(current.shards[rgId], rnId, params).Success?
            && (HelperHostsOf(current.shards[rgId], rnId, params).value != "" || ctx.nodeType.electable) ==>
              r.Success?
    // the HA address, storage directory and node type come from the SN and the task
    ensures r.Success? ==>
              && r.value.haHostname == ctx.haHostname && r.value.haPort == ctx.haPort
              && r.value.mountPoint == t.mountPoint && r.value.storageDirectorySize == t.storageDirectorySize
              && r.value.nodeType == ctx.nodeType
  {
    match HelperHostsOf(current.shards[rgId], rnId, params)
    case Failure(f) => Failure(f)
    case Success(otherHelpers) =>
      if |otherHelpers| == 0 && !ctx.nodeType.electable then
        Failure(CommandFault(NOSQL_5500, NO_CLEANUP_JOBS, Some(SELF_ELECTING_MESSAGE)))
      else
        var helperHosts := if |otherHelpers| == 0 then HostPort(ctx.haHostname, ctx.haPort) else otherHelpers;
        Success(RepNodeParams(t.snId, rnId, false, ctx.haHostname, ctx.haPort, helperHosts,
                              t.mountPoint, t.storageDirectorySize, ctx.nodeType))
  }

  /** What one execution of doWork does. */
  datatype DoWorkResult = DoWorkResult(
    outcome: Result<TaskState, TaskFailure>,
    displayRNId: Option<RepNodeId>,
    calls: seq<Call>)

  /** doWork after the RN is known: reach the SN agent, check the parameters,
      create the RN, register it with the monitor. */
  function FinishDoWork(t: TaskConfig, current: Topology, rn: RepNode, rnp: Option<RepNodeParams>,
                        saved: seq<Call>, remote: RemoteOutcome): DoWorkResult
  {
    var display := Some(rn.id);
    if remote.AgentUnavailable? then DoWorkResult(Failure(Propagated(remote.reason)), display, saved)
    else if rnp.None? then DoWorkResult(Failure(CommandFault(NOSQL_5400, PLAN_CANCEL, None)), display, saved)
    else
      var calls := saved + [CreateRepNode(rnp.value)];
      if remote.CreateIllegalState? then
        DoWorkResult(Failure(CommandFault(NOSQL_5200, NO_CLEANUP_JOBS, Some(remote.message))), display, calls)
      else if remote.CreateFailed? then DoWorkResult(Failure(Propagated(remote.reason)), display, calls)
      else if t.snId !in current.storageNodes then DoWorkResult(Failure(Propagated(NULL_POINTER)), display, calls)
      else
        var sn := current.storageNodes[t.snId];
        DoWorkResult(Success(SUCCEEDED), display, calls + [RegisterAgent(sn.hostname, sn.registryPort, rn.id)])
  }

  /** The calls after the RN is known never save, and the RN is recorded. */
  lemma FinishDoWorkCalls(t: TaskConfig, current: Topology, rn: RepNode, rnp: Option<RepNodeParams>,
                          saved: seq<Call>, remote: RemoteOutcome)
    ensures var r := FinishDoWork(t, current, rn, rnp, saved, remote);
            && r.displayRNId == Some(rn.id)
            && |saved| <= |r.calls| && r.calls[..|saved|] == saved
            && forall i :: |saved| <= i < |r.calls| ==> !r.calls[i].SaveTopoAndRNParam?
  {
  }

  /** The rest of doWork once the RN is known, case by case: an unreachable
      SN agent fails first, then missing parameters, before any create call;
      an IllegalStateException of the create call is a NOSQL_5200 fault with
      its message, any other exception propagates; a created RN is registered
      with the monitor at its SN's registry. */
  lemma FinishDoWorkCases(t: TaskConfig, current: Topology, rn: RepNode, rnp: Option<RepNodeParams>,
                          saved: seq<Call>, remote: RemoteOutcome)
    ensures var r := FinishDoWork(t, current, rn, rnp, saved, remote);
            && (remote.AgentUnavailable? ==>
                  r.outcome == Failure(Propagated(remote.reason)) && r.calls == saved)
            && (!remote.AgentUnavailable? && rnp.None? ==>
                  r.outcome == Failure(CommandFault(NOSQL_5400, PLAN_CANCEL, None)) && r.calls == saved)
            && (!remote.AgentUnavailable? && rnp.Some? ==>
                  |r.calls| > |saved| && r.calls[|saved|] == CreateRepNode(rnp.value))
            && (remote.CreateIllegalState? && rnp.Some? ==>
                  && r.outcome == Failure(CommandFault(NOSQL_5200, NO_CLEANUP_JOBS, Some(remote.message)))
                  && r.calls == saved + [CreateRepNode(rnp.value)])
            && (remote.CreateFailed? && rnp.Some? ==>
                  r.outcome == Failure(Propagated(remote.reason)) && r.calls == saved + [CreateRepNode(rnp.value)])
            && (remote == Created && rnp.Some? && t.snId !in current.storageNodes ==>
                  r.outcome == Failure(Propagated(NULL_POINTER)))
            && (remote == Created && rnp.Some? && t.snId in current.storageNodes ==>
                  && r.outcome == Success(SUCCEEDED)
                  && r.calls == saved + [CreateRepNode(rnp.value),
                                         RegisterAgent(current.storageNodes[t.snId].hostname,
                                                       current.storageNodes[t.snId].registryPort, rn.id)])
  {
  }

  /** doWork, as a value: its outcome, the task's recorded RN id afterwards
      (`display` before), and the calls it makes. */
  function DoWorkOutcome(t: TaskConfig, db: AdminDb, display: Option<RepNodeId>,
                         getShardId: int -> RepGroupId, ctx: SnContext, remote: RemoteOutcome): DoWorkResult
  {
    var shardId := ResolveShardId(t.specifiedShard, t.planShardIdx, getShardId);
    if shardId !in db.topology.shards then
      DoWorkResult(Failure(CommandFault(NOSQL_5500, NO_CLEANUP_JOBS, None)), display, [])
    else
      var members := db.topology.shards[shardId];
      match LastOnSn(members, t.snId)
      case Some(rn) => FinishDoWork(t, db.topology, rn, Lookup(db.params, rn.id), [], remote)
      case None =>
        var rn := RepNode(NewRepNodeId(shardId, members), t.snId);
        var current := db.topology.(shards := db.topology.shards[shardId := members + [rn]]);
        match RepNodeParamsFor(t, current, shardId, rn.id, db.params, ctx)
        case Failure(f) => DoWorkResult(Failure(f), Some(rn.id), [])
        case Success(rnp) => FinishDoWork(t, current, rn, Some(rnp), [SaveTopoAndRNParam(current, rnp)], remote)
  }

  /** A shard whose members are on distinct SNs and have distinct ids. */
  ghost predicate WellFormedShard(members: seq<RepNode>)
  {
    forall i, j :: 0 <= i < j < |members| ==> members[i].sn != members[j].sn && members[i].id != members[j].id
  }

  ghost predicate WellFormedTopology(topo: Topology)
  {
    forall g :: g in topo.shards ==> WellFormedShard(topo.shards[g])
  }

  /** A missing shard fails the task before anything is changed or saved. */
  lemma MissingShardChangesNothing(t: TaskConfig, db: AdminDb, display: Option<RepNodeId>,
                                   getShardId: int -> RepGroupId, ctx: SnContext, remote: RemoteOutcome)
    requires ResolveShardId(t.specifiedShard, t.planShardIdx, getShardId) !in db.topology.shards
    ensures var r := DoWorkOutcome(t, db, display, getShardId, ctx, remote);
            && r.outcome == Failure(CommandFault(NOSQL_5500, NO_CLEANUP_JOBS, None))
            && r.calls == [] && r.displayRNId == display
            && ApplySaves(db, r.calls) == db
  {
  }

  /** A retry finds the RN already on the SN and adopts the last such member:
      no RN is added and nothing is saved. */
  lemma RetryAdoptsExistingNode(t: TaskConfig, db: AdminDb, display: Option<RepNodeId>,
                                getShardId: int -> RepGroupId, ctx: SnContext, remote: RemoteOutcome)
    requires ResolveShardId(t.specifiedShard, t.planShardIdx, getShardId) in db.topology.shards
    requires LastOnSn(db.topology.shards[ResolveShardId(t.specifiedShard, t.planShardIdx, getShardId)], t.snId).Some?
    ensures var r := DoWorkOutcome(t, db, display, getShardId, ctx, remote);
            var members := db.topology.shards[ResolveShardId(t.specifiedShard, t.planShardIdx, getShardId)];
            && r.displayRNId == Some(LastOnSn(members, t.snId).value.id)
            && (forall i :: 0 <= i < |r.calls| ==> !r.calls[i].SaveTopoAndRNParam?)
            && ApplySaves(db, r.calls) == db
  {
    var r := DoWorkOutcome(t, db, display, getShardId, ctx, remote);
    ApplySavesNoSave(db, r.calls);
  }

  /** Whenever the SN agent is asked to create an RN, the Admin database
      already holds, at that moment, that RN on the target SN in the task's
      shard and exactly the parameters handed to the agent. */
  lemma IntentIsSavedBeforeCreate(t: TaskConfig, db: AdminDb, display: Option<RepNodeId>,
                                  getShardId: int -> RepGroupId, ctx: SnContext, remote: RemoteOutcome, j: nat)
    requires j < |DoWorkOutcome(t, db, display, getShardId, ctx, remote).calls|
    requires DoWorkOutcome(t, db, display, getShardId, ctx, remote).calls[j].CreateRepNode?
    ensures var r := DoWorkOutcome(t, db, display, getShardId, ctx, remote);
            var before := ApplySaves(db, r.calls[..j]);
            var shardId := ResolveShardId(t.specifiedShard, t.planShardIdx, getShardId);
            && r.displayRNId.Some?
            && shardId in before.topology.shards
            && RepNode(r.displayRNId.value, t.snId) in before.topology.shards[shardId]
            && Lookup(before.params, r.displayRNId.value) == Some(r.calls[j].rnp)
  {
    var r := DoWorkOutcome(t, db, display, getShardId, ctx, remote);
    var shardId := ResolveShardId(t.specifiedShard, t.planShardIdx, getShardId);
    var members := db.topology.shards[shardId];
    match LastOnSn(members, t.snId)
    case Some(rn) =>
      assert j == 0;
      assert r.calls[..j] == [];
    case None =>
      var rn := RepNode(NewRepNodeId(shardId, members), t.snId);
      var current := db.topology.(shards := db.topology.shards[shardId := members + [rn]]);
      var rnp := RepNodeParamsFor(t, current, shardId, rn.id, db.params, ctx).value;
      assert j == 1;
      assert r.calls[..j] == [SaveTopoAndRNParam(current, rnp)];
      assert ApplySaves(db, r.calls[..j]) == AdminDb(current, db.params[rnp.rnId := rnp]);
      assert rn == (members + [rn])[|members|];
  }

  /** Running the task again after a run that saved its new RN changes nothing
      more: the second run saves nothing and deploys the same RN. */
  lemma DoWorkIsIdempotent(t: TaskConfig, db: AdminDb, display: Option<RepNodeId>,
                           getShardId: int -> RepGroupId, ctx: SnContext,
                           remote1: RemoteOutcome, remote2: RemoteOutcome)
    requires var r1 := DoWorkOutcome(t, db, display, getShardId, ctx, remote1);
             r1.calls != [] && r1.calls[0].SaveTopoAndRNParam?
    ensures var r1 := DoWorkOutcome(t, db, display, getShardId, ctx, remote1);
            var db1 := ApplySaves(db, r1.calls);
            var r2 := DoWorkOutcome(t, db1, r1.displayRNId, getShardId, ctx, remote2);
            && r2.displayRNId == r1.displayRNId
            && (forall i :: 0 <= i < |r2.calls| ==> !r2.calls[i].SaveTopoAndRNParam?)
            && ApplySaves(db1, r2.calls) == db1
  {
    var r1 := DoWorkOutcome(t, db, display, getShardId, ctx, remote1);
    var shardId := ResolveShardId(t.specifiedShard, t.planShardIdx, getShardId);
    var rn := SavingRunSavesItsNode(t, db, display, getShardId, ctx, remote1);
    var db1 := ApplySaves(db, r1.calls);
    assert LastOnSn(db1.topology.shards[shardId], t.snId) == Some(rn);
    RetryAdoptsExistingNode(t, db1, r1.displayRNId, getShardId, ctx, remote2);
  }

  /** A run that saves adds its new RN `rn` on the SN as the last member of
      the shard, and records it. */
  lemma SavingRunSavesItsNode(t: TaskConfig, db: AdminDb, display: Option<RepNodeId>,
                              getShardId: int -> RepGroupId, ctx: SnContext, remote: RemoteOutcome)
    returns (rn: RepNode)
    requires var r := DoWorkOutcome(t, db, display, getShardId, ctx, remote);
             r.calls != [] && r.calls[0].SaveTopoAndRNParam?
    ensures var r := DoWorkOutcome(t, db, display, getShardId, ctx, remote);
            var shardId := ResolveShardId(t.specifiedShard, t.planShardIdx, getShardId);
            var after := ApplySaves(db, r.calls);
            && rn.sn == t.snId
            && r.displayRNId == Some(rn.id)
            && shardId in db.topology.shards
            && LastOnSn(db.topology.shards[shardId], t.snId).None?
            // exactly one RN is added, at the end of the shard, and nothing else of the topology changes
            && after.topology == db.topology.(shards := db.topology.shards[shardId := db.topology.shards[shardId] + [rn]])
            && |after.topology.shards[shardId]| > 0
            && after.topology.shards[shardId][|after.topology.shards[shardId]| - 1] == rn
            // only the new RN's parameters are stored
            && rn.id in after.params && after.params == db.params[rn.id := after.params[rn.id]]
  {
    var r := DoWorkOutcome(t, db, display, getShardId, ctx, remote);
    var shardId := ResolveShardId(t.specifiedShard, t.planShardIdx, getShardId);
    var members := db.topology.shards[shardId];
    rn := RepNode(NewRepNodeId(shardId, members), t.snId);
    var current := db.topology.(shards := db.topology.shards[shardId := members + [rn]]);
    var rnp := RepNodeParamsFor(t, current, shardId, rn.id, db.params, ctx).value;
    var save := SaveTopoAndRNParam(current, rnp);
    assert r == FinishDoWork(t, current, rn, Some(rnp), [save], remote);
    FinishDoWorkCalls(t, current, rn, Some(rnp), [save], remote);
    SaveFirstOnly(db, r.calls);
  }

  /** A run that finds no RN of the shard on the SN, and can make the new
      RN's parameters, saves first. */
  lemma NewNodeRunSaves(t: TaskConfig, db: AdminDb, display: Option<RepNodeId>,
                        getShardId: int -> RepGroupId, ctx: SnContext, remote: RemoteOutcome)
    requires ResolveShardId(t.specifiedShard, t.planShardIdx, getShardId) in db.topology.shards
    requires var shardId := ResolveShardId(t.specifiedShard, t.planShardIdx, getShardId);
             var members := db.topology.shards[shardId];
             var rn := RepNode(NewRepNodeId(shardId, members), t.snId);
             && LastOnSn(members, t.snId).None?
             && RepNodeParamsFor(t, db.topology.(shards := db.topology.shards[shardId := members + [rn]]),
                                 shardId, rn.id, db.params, ctx).Success?
    ensures var r := DoWorkOutcome(t, db, display, getShardId, ctx, remote);
            r.calls != [] && r.calls[0].SaveTopoAndRNParam?
  {
    var shardId := ResolveShardId(t.specifiedShard, t.planShardIdx, getShardId);
    var members := db.topology.shards[shardId];
    var rn := RepNode(NewRepNodeId(shardId, members), t.snId);
    var current := db.topology.(shards := db.topology.shards[shardId := members + [rn]]);
    var rnp := RepNodeParamsFor(t, current, shardId, rn.id, db.params, ctx).value;
    FinishDoWorkCalls(t, current, rn, Some(rnp), [SaveTopoAndRNParam(current, rnp)], remote);
  }

  /** doWork never puts a second RN of a shard on one SN, nor reuses an RN id
      within a shard: a well-formed topology stays well formed. */
  lemma DoWorkKeepsTopologyWellFormed(t: TaskConfig, db: AdminDb, display: Option<RepNodeId>,
                                      getShardId: int -> RepGroupId, ctx: SnContext, remote: RemoteOutcome)
    requires WellFormedTopology(db.topology)
    ensures WellFormedTopology(ApplySaves(db, DoWorkOutcome(t, db, display, getShardId, ctx, remote).calls).topology)
  {
    var r := DoWorkOutcome(t, db, display, getShardId, ctx, remote);
    var shardId := ResolveShardId(t.specifiedShard, t.planShardIdx, getShardId);
    if shardId !in db.topology.shards {
      assert r.calls == [];
    } else {
      var members := db.topology.shards[shardId];
      match LastOnSn(members, t.snId)
      case Some(rn) =>
        FinishDoWorkCalls(t, db.topology, rn, Lookup(db.params, rn.id), [], remote);
        ApplySavesNoSave(db, r.calls);
      case None =>
        var rn := RepNode(NewRepNodeId(shardId, members), t.snId);
        var current := db.topology.(shards := db.topology.shards[shardId := members + [rn]]);
        var made := RepNodeParamsFor(t, current, shardId, rn.id, db.params, ctx);
        if made.Failure? {
          assert r.calls == [];
        } else {
          var save := SaveTopoAndRNParam(current, made.value);
          FinishDoWorkCalls(t, current, rn, Some(made.value), [save], remote);
          SaveFirstOnly(db, r.calls);
          assert ApplySaves(db, r.calls).topology == current;
          ShardWithNewNode(members, rn);
        }
    }
  }

  /** Appending an RN on an SN and with an id that no member has keeps a shard well formed. */
  lemma ShardWithNewNode(members: seq<RepNode>, rn: RepNode)
    requires WellFormedShard(members)
    requires forall i :: 0 <= i < |members| ==> members[i].sn != rn.sn && members[i].id != rn.id
    ensures WellFormedShard(members + [rn])
  {
    var ms := members + [rn];
    forall i, j | 0 <= i < j < |ms|
      ensures ms[i].sn != ms[j].sn && ms[i].id != ms[j].id
    {
      assert ms[i] == members[i];
    }
  }

  /** A successful run leaves the RN in the saved topology on the target SN,
      and registers it with the monitor as its last call. */
  lemma SucceededMeansDeployed(t: TaskConfig, db: AdminDb, display: Option<RepNodeId>,
                               getShardId: int -> RepGroupId, ctx: SnContext, remote: RemoteOutcome)
    requires DoWorkOutcome(t, db, display, getShardId, ctx, remote).outcome.Success?
    ensures var r := DoWorkOutcome(t, db, display, getShardId, ctx, remote);
            var after := ApplySaves(db, r.calls);
            var shardId := ResolveShardId(t.specifiedShard, t.planShardIdx, getShardId);
            && remote == Created
            && r.displayRNId.Some?
            && shardId in after.topology.shards
            && RepNode(r.displayRNId.value, t.snId) in after.topology.shards[shardId]
            && |r.calls| >= 2
            && r.calls[|r.calls| - 1].RegisterAgent?
            && r.calls[|r.calls| - 1].rnId == r.displayRNId.value
  {
    var r := DoWorkOutcome(t, db, display, getShardId, ctx, remote);
    var shardId := ResolveShardId(t.specifiedShard, t.planShardIdx, getShardId);
    var members := db.topology.shards[shardId];
    match LastOnSn(members, t.snId)
    case Some(rn) =>
      FinishDoWorkCalls(t, db.topology, rn, Lookup(db.params, rn.id), [], remote);
      ApplySavesNoSave(db, r.calls);
      var i :| 0 <= i < |members| && members[i] == rn && rn.sn == t.snId;
      assert rn in members;
    case None =>
      var rn := RepNode(NewRepNodeId(shardId, members), t.snId);
      var current := db.topology.(shards := db.topology.shards[shardId := members + [rn]]);
      var made := RepNodeParamsFor(t, current, shardId, rn.id, db.params, ctx);
      var save := SaveTopoAndRNParam(current, made.value);
      FinishDoWorkCalls(t, current, rn, Some(made.value), [save], remote);
      SaveFirstOnly(db, r.calls);
      assert rn == (members + [rn])[|members|];
  }

  /** The outcome of one cleanupAllocation call by the topology checker:
      whether the remedy was applied, or the exception it threw. */
  datatype AllocationOutcome = RemedyApplied(done: bool) | CheckFailed(reason: string)

  /** How the cleanup job ends. */
  datatype CleanupEnd =
    | CleanedUp
    | CleanupInterrupted
    | RetryTimeExpired
    | SleepInterrupted
    | CleanupFailed(reason: string)

  /** The Admin as a store: its current topology and RN parameters. */
  class Admin {
    var topology: Topology
    var params: Parameters

    function Db(): AdminDb
      reads this
    {
      AdminDb(topology, params)
    }

    constructor (db: AdminDb)
      ensures Db() == db
    {
      topology := db.topology;
      params := db.params;
    }

    /** saveTopoAndRNParam: stores the topology and the RN's parameters
        together; the plan's deployment record is not modelled. */
    method SaveTopoAndRNParam(topo: Topology, rnp: RepNodeParams)
      modifies this
      ensures Db() == ApplySaves(old(Db()), [Call.SaveTopoAndRNParam(topo, rnp)])
    {
      topology := topo;
      params := params[rnp.rnId := rnp];
    }
  }

  class DeployNewRN {
    const snId: StorageNodeId
    /** The SN's display label, as the Admin renders it. */
    const snDescriptor: string
    const mountPoint: Option<string>
    const storageDirectorySize: int
    const planShardIdx: int
    const specifiedShard: Option<RepGroupId>
    /** The RN this task deploys, once known. */
    var displayRNId: Option<RepNodeId>

    function Config(): TaskConfig
    {
      TaskConfig(snId, mountPoint, storageDirectorySize, planShardIdx, specifiedShard)
    }

    /** A task for a brand-new shard, known by its index in the plan. */
    constructor ForNewShard(snId: StorageNodeId, planShardIdx: int,
                            storageDirectory: Option<StorageDirectory>, snDescriptor: string)
      ensures this.snId == snId && this.snDescriptor == snDescriptor
      ensures this.planShardIdx == planShardIdx && specifiedShard.None?
      ensures storageDirectory.None? ==> mountPoint.None? && storageDirectorySize == 0
      ensures storageDirectory.Some? ==>
                mountPoint == Some(storageDirectory.value.path) && storageDirectorySize == storageDirectory.value.size
      ensures displayRNId.None?
    {
      this.snId := snId;
      this.snDescriptor := snDescriptor;
      this.planShardIdx := planShardIdx;
      specifiedShard := None;
      if storageDirectory.None? {
        mountPoint := None;
        storageDirectorySize := 0;
      } else {
        mountPoint := Some(storageDirectory.value.path);
        storageDirectorySize := storageDirectory.value.size;
      }
      displayRNId := None;
    }

    /** A task for a shard that already exists (a null shard falls back to
        the plan's first allocated shard). */
    constructor ForExistingShard(snId: StorageNodeId, specifiedShard: Option<RepGroupId>,
                                 storageDirectory: Option<StorageDirectory>, snDescriptor: string)
      ensures this.snId == snId && this.snDescriptor == snDescriptor
      ensures this.specifiedShard == specifiedShard && planShardIdx == 0
      ensures storageDirectory.None? ==> mountPoint.None? && storageDirectorySize == 0
      ensures storageDirectory.Some? ==>
                mountPoint == Some(storageDirectory.value.path) && storageDirectorySize == storageDirectory.value.size
      ensures displayRNId.None?
    {
      this.snId := snId;
      this.snDescriptor := snDescriptor;
      planShardIdx := 0;
      this.specifiedShard := specifiedShard;
      if storageDirectory.None? {
        mountPoint := None;
        storageDirectorySize := 0;
      } else {
        mountPoint := Some(storageDirectory.value.path);
        storageDirectorySize := storageDirectory.value.size;
      }
      displayRNId := None;
    }

    /** makeRepNodeParams: the parameters of the new RN `rnId` of shard `rgId`. */
    method MakeRepNodeParams(current: Topology, rgId: RepGroupId, rnId: RepNodeId,
                             params: Parameters, ctx: SnContext)
      returns (r: Result<RepNodeParams, TaskFailure>)
      requires rgId in current.shards
      ensures r == RepNodeParamsFor(Config(), current, rgId, rnId, params, ctx)
    {
      var otherHelpers := FindHelperHosts(current.shards[rgId], rnId, params);
      if otherHelpers.Failure? {
        return Failure(otherHelpers.error);
      }
      var helperHosts: string;
      if |otherHelpers.value| == 0 {
        if !ctx.nodeType.electable {
          return Failure(CommandFault(NOSQL_5500, NO_CLEANUP_JOBS, Some(SELF_ELECTING_MESSAGE)));
        }
        helperHosts := HostPort(ctx.haHostname, ctx.haPort);
      } else {
        helperHosts := otherHelpers.value;
      }
      r := Success(RepNodeParams(snId, rnId, false, ctx.haHostname, ctx.haPort, helperHosts,
                                 mountPoint, storageDirectorySize, ctx.nodeType));
    }

    /** doWork: resolve the shard, adopt or add the RN, save before creating,
        create the RN remotely and register it with the monitor. */
    method DoWork(admin: Admin, getShardId: int -> RepGroupId, ctx: SnContext, remote: RemoteOutcome)
      returns (outcome: Result<TaskState, TaskFailure>, calls: seq<Call>)
      modifies this, admin
      ensures var r := DoWorkOutcome(Config(), old(admin.Db()), old(displayRNId), getShardId, ctx, remote);
              outcome == r.outcome && calls == r.calls && displayRNId == r.displayRNId
      ensures admin.Db() == ApplySaves(old(admin.Db()), calls)
    {
      ghost var db0 := admin.Db();
      var shardId := ResolveShardId(specifiedShard, planShardIdx, getShardId);
      var current := admin.topology;
      calls := [];
      if shardId !in current.shards {
        outcome := Failure(CommandFault(NOSQL_5500, NO_CLEANUP_JOBS, None));
        return;
      }
      var members := current.shards[shardId];
      var found, foundParams := FindExistingNode(members, snId, admin.params);
      var rn: RepNode;
      var rnp: Option<RepNodeParams>;
      var saved: seq<Call> := [];
      if found.None? {
        rn := RepNode(NewRepNodeId(shardId, members), snId);
        current := current.(shards := current.shards[shardId := members + [rn]]);
        displayRNId := Some(rn.id);
        var made := MakeRepNodeParams(current, shardId, rn.id, admin.params, ctx);
        if made.Failure? {
          outcome := Failure(made.error);
          return;
        }
        rnp := Some(made.value);
        admin.SaveTopoAndRNParam(current, made.value);
        saved := [SaveTopoAndRNParam(current, made.value)];
      } else {
        rn := found.value;
        rnp := foundParams;
        displayRNId := Some(rn.id);
      }
      assert DoWorkOutcome(Config(), db0, old(displayRNId), getShardId, ctx, remote)
          == FinishDoWork(Config(), current, rn, rnp, saved, remote);
      calls := saved;
      if remote.AgentUnavailable? {
        outcome := Failure(Propagated(remote.reason));
      } else if rnp.None? {
        outcome := Failure(CommandFault(NOSQL_5400, PLAN_CANCEL, None));
      } else {
        calls := calls + [CreateRepNode(rnp.value)];
        if remote.CreateIllegalState? {
          outcome := Failure(CommandFault(NOSQL_5200, NO_CLEANUP_JOBS, Some(remote.message)));
        } else if remote.CreateFailed? {
          outcome := Failure(Propagated(remote.reason));
        } else if snId !in current.storageNodes {
          outcome := Failure(Propagated(NULL_POINTER));
        } else {
          var sn := current.storageNodes[snId];
          calls := calls + [RegisterAgent(sn.hostname, sn.registryPort, rn.id)];
          outcome := Success(SUCCEEDED);
        }
      }
      FinishDoWorkCalls(Config(), current, rn, rnp, saved, remote);
      SaveFirstOnly(db0, calls);
    }

    /** A failure of this task stops the plan. */
    function ContinuePastError(): (r: bool)
      ensures !r
    {
      false
    }

    /** getName and toString: the inherited label, the RN once known, and the SN. */
    function Label(inherited: string): (r: string)
      reads this
      ensures displayRNId.None? ==> r == inherited + " on " + snDescriptor
      ensures displayRNId.Some? ==> r == inherited + " " + RepNodeIdString(displayRNId.value) + " on " + snDescriptor
    {
      if displayRNId.None? then inherited + " on " + snDescriptor
      else inherited + " " + RepNodeIdString(displayRNId.value) + " on " + snDescriptor
    }

    /** cleanupAllocation: nothing to undo before the RN was known; otherwise
        whatever the topology checker's remedy achieves. */
    function CleanupAllocation(remedy: AllocationOutcome): (r: AllocationOutcome)
      reads this
      ensures displayRNId.None? ==> r == RemedyApplied(true)
      ensures displayRNId.Some? ==> r == remedy
    {
      if displayRNId.None? then RemedyApplied(true) else remedy
    }

    /**
     * The cleanup job: retry cleanupAllocation until it is done, the plan's
     * cleanup is interrupted, the retry time has passed, the sleep between
     * attempts is interrupted, or an attempt throws. Attempt k sees
     * `interrupted(k)` before it, `remedy(k)` as the checker's answer and
     * `clock(k)` as the time after it; every sleep takes at least a
     * millisecond, so the clock moves on by one at least per attempt.
     */
    method RunCleanupJob(maxRetryTime: int, startTime: int, interrupted: nat -> bool,
                         remedy: nat -> AllocationOutcome, clock: nat -> int,
                         sleepInterrupted: nat -> bool)
      returns (end: CleanupEnd, attempts: nat)
      requires forall k: nat :: clock(k) >= startTime + k
      ensures attempts <= (if maxRetryTime < 0 then 1 else maxRetryTime + 2)
      // every attempt but the last one found the cleanup not done, in time and
      // not interrupted
      ensures forall k :: 0 <= k < attempts ==> !interrupted(k)
      ensures forall k :: 0 <= k < attempts - 1 ==>
                && CleanupAllocation(remedy(k)) == RemedyApplied(false)
                && clock(k) - startTime <= maxRetryTime
                && !sleepInterrupted(k)
      ensures end.CleanupInterrupted? ==>
                && interrupted(attempts)
                && (attempts == 0 || (&& CleanupAllocation(remedy(attempts - 1)) == RemedyApplied(false)
                                      && clock(attempts - 1) - startTime <= maxRetryTime
                                      && !sleepInterrupted(attempts - 1)))
      ensures end.CleanedUp? ==> attempts > 0 && CleanupAllocation(remedy(attempts - 1)) == RemedyApplied(true)
      ensures end.CleanupFailed? ==>
                attempts > 0 && CleanupAllocation(remedy(attempts - 1)) == CheckFailed(end.reason)
      ensures end.RetryTimeExpired? ==>
                && attempts > 0 && CleanupAllocation(remedy(attempts - 1)) == RemedyApplied(false)
                && clock(attempts - 1) - startTime > maxRetryTime
      ensures end.SleepInterrupted? ==>
                && attempts > 0 && CleanupAllocation(remedy(attempts - 1)) == RemedyApplied(false)
                && clock(attempts - 1) - startTime <= maxRetryTime && sleepInterrupted(attempts - 1)
      // with no RN recorded, the job is done after one attempt
      ensures displayRNId.None? && !interrupted(0) ==> end == CleanedUp && attempts == 1
    {
      var bound: int := if maxRetryTime < 0 then 1 else maxRetryTime + 2;
      var done := false;
      attempts := 0;
      while !done && !interrupted(attempts)
        invariant attempts <= bound
        invariant !done ==> attempts == 0 || clock(attempts - 1) - startTime <= maxRetryTime
        invariant done ==> attempts > 0 && CleanupAllocation(remedy(attempts - 1)) == RemedyApplied(true)
        invariant forall k :: 0 <= k < attempts ==> !interrupted(k)
        invariant forall k :: 0 <= k < (if done then attempts - 1 else attempts) ==>
                    && CleanupAllocation(remedy(k)) == RemedyApplied(false)
                    && clock(k) - startTime <= maxRetryTime
                    && !sleepInterrupted(k)
        invariant displayRNId.None? && !interrupted(0) ==> attempts <= 1 && (attempts == 1 ==> done)
        decreases bound - attempts
      {
        var a := CleanupAllocation(remedy(attempts));
        attempts := attempts + 1;
        if a.CheckFailed? {
          end := CleanupFailed(a.reason);
          return;
        }
        done := a.done;
        if !done {
          if clock(attempts - 1) - startTime > maxRetryTime {
            end := RetryTimeExpired;
            return;
          }
          if sleepInterrupted(attempts - 1) {
            end := SleepInterrupted;
            return;
          }
        }
      }
      end := if done then CleanedUp else CleanupInterrupted;
    }
  }
}
