/**
 * The status an Admin service reports (oracle.kv.impl.admin.AdminStatus):
 * its service status, its JE HA replication state, and whether it is the
 * authoritative master.
 */
module AdminStatus {
  import opened Common
  import opened ConfigurableService

  /** JE's ReplicatedEnvironment.State. */
  datatype ReplicationState = DETACHED | UNKNOWN | MASTER | REPLICA

  /** Java's rendering of a possibly null service status. */
  function StatusText(s: Option<ServiceStatus>): (text: string)
    ensures |text| > 0 && text[|text| - 1] != ')'
  {
    if s.None? then "null" else StatusName(s.value)
  }

  /** Java's rendering of a possibly null replication state. */
  function StateText(s: Option<ReplicationState>): (text: string)
    ensures |text| > 0 && text[|text| - 1] != ')'
  {
    match s
    case None => "null"
    case Some(DETACHED) => "DETACHED"
    case Some(UNKNOWN) => "UNKNOWN"
    case Some(MASTER) => "MASTER"
    case Some(REPLICA) => "REPLICA"
  }

  const NON_AUTHORITATIVE: string := " (non-authoritative)"

  datatype AdminStatus = AdminStatus(
    status: Option<ServiceStatus>,
    state: Option<ReplicationState>,
    isAuthoritativeMaster: bool)
  {
    /** Only a master can be the authoritative master. */
    ghost predicate Valid()
    {
      isAuthoritativeMaster ==> state == Some(MASTER)
    }

    function GetServiceStatus(): Option<ServiceStatus>
    {
      status
    }

    function GetReplicationState(): Option<ReplicationState>
    {
      state
    }

    /** Never true of a node whose state is not MASTER. */
    function GetIsAuthoritativeMaster(): (r: bool)
      requires Valid()
      ensures r ==> GetReplicationState() == Some(MASTER)
    {
      isAuthoritativeMaster
    }

    /** "status,state", marked when a master is not authoritative. */
    function ToString(): string
    {
      StatusText(status) + "," + StateText(state)
        + (if state == Some(MASTER) && !isAuthoritativeMaster then NON_AUTHORITATIVE else "")
    }
  }

  /** The constructor: the authoritative flag is kept only for a master. */
  function NewAdminStatus(status: Option<ServiceStatus>, state: Option<ReplicationState>,
                          isAuthoritativeMaster: bool): (r: AdminStatus)
    ensures r.Valid()
    ensures r.GetServiceStatus() == status && r.GetReplicationState() == state
    ensures r.GetIsAuthoritativeMaster() <==> isAuthoritativeMaster && state == Some(MASTER)
  {
    AdminStatus(status, state, isAuthoritativeMaster && state == Some(MASTER))
  }

  ghost predicate EndsWith(s: string, suffix: string)
  {
    |suffix| <= |s| && s[|s| - |suffix|..] == suffix
  }

  /** The rendering starts with the status and the state, and ends with the
      non-authoritative marker exactly when the node is a master that is not
      the authoritative one; an authoritative master is never marked. */
  lemma ToStringMarksNonAuthoritativeMaster(status: Option<ServiceStatus>, state: Option<ReplicationState>,
                                            isAuthoritativeMaster: bool)
    ensures var a := NewAdminStatus(status, state, isAuthoritativeMaster);
            var prefix := StatusText(status) + "," + StateText(state);
            && |prefix| <= |a.ToString()| && a.ToString()[..|prefix|] == prefix
            && (EndsWith(a.ToString(), NON_AUTHORITATIVE) <==> state == Some(MASTER) && !isAuthoritativeMaster)
            && (a.GetIsAuthoritativeMaster() ==> !EndsWith(a.ToString(), NON_AUTHORITATIVE))
  {
    var a := NewAdminStatus(status, state, isAuthoritativeMaster);
    var prefix := StatusText(status) + "," + StateText(state);
    var s := a.ToString();
    assert s[..|prefix|] == prefix;
    if !(state == Some(MASTER) && !isAuthoritativeMaster) {
      assert s == prefix;
      assert s[|s| - 1] == StateText(state)[|StateText(state)| - 1];
    }
  }
}
