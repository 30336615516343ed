/**
 * The process-wide registry of embedded store managers, keyed by UUID
 * (OracleNoSqlHolder). Its static map is the state of the one `Holder`
 * object here.
 */
module OracleNoSqlHolder {
  import opened Common

  /** A UUID, known by its canonical text. */
  datatype Uuid = Uuid(text: string)

  datatype HolderError =
    | IllegalStateException(message: string)
    | InterruptedException

  const DUPLICATE_MESSAGE: string := "There is already a registered Oracle NoSqlServer with id: "
  const MISSING_MESSAGE: string := "Could not find a registered oracle NoSqlServer by id: "

  /** A store manager: its UUID, and whether it has been asked to stop.
      What stopping a store involves is not part of this model. */
  class Manager {
    const uuid: Uuid
    var stopRequested: bool

    constructor (uuid: Uuid)
      ensures this.uuid == uuid && !stopRequested
    {
      this.uuid := uuid;
      stopRequested := false;
    }

    /** stop(): asks the store to stop; `interrupted` says whether the wait
        for it is interrupted. */
    method Stop(interrupted: bool) returns (o: Outcome<HolderError>)
      modifies this
      ensures stopRequested
      ensures o == if interrupted then Fail(InterruptedException) else Pass
    {
      stopRequested := true;
      o := if interrupted then Fail(InterruptedException) else Pass;
    }
  }

  class Holder {
    var managers: map<Uuid, Manager>

    /** Every manager is registered under its own UUID. */
    ghost predicate Valid()
      reads this
    {
      forall u :: u in managers ==> managers[u].uuid == u
    }

    constructor ()
      ensures Valid() && managers == map[]
    {
      managers := map[];
    }

    /** addOracleNoSqlManager: registers a manager under a fresh UUID; a
        duplicate is stopped and rejected, and the registry is left alone. */
    method AddOracleNoSqlManager(m: Manager, stopInterrupted: bool) returns (o: Outcome<HolderError>)
      requires Valid()
      modifies this, m
      ensures Valid()
      ensures o.Pass? <==> old(m.uuid !in managers)
      ensures o.Pass? ==> managers == old(managers)[m.uuid := m] && m.stopRequested == old(m.stopRequested)
      ensures o.Fail? ==> managers == old(managers) && m.stopRequested
      ensures o.Fail? ==> o.error == if stopInterrupted then InterruptedException
                                     else IllegalStateException(DUPLICATE_MESSAGE + m.uuid.text)
      // no other entry is ever overwritten or removed
      ensures forall u :: u in old(managers) ==> u in managers && managers[u] == old(managers)[u]
    {
      if m.uuid in managers {
        var stopped := m.Stop(stopInterrupted);
        if stopped.Fail? {
          return stopped;
        }
        return Fail(IllegalStateException(DUPLICATE_MESSAGE + m.uuid.text));
      }
      managers := managers[m.uuid := m];
      o := Pass;
    }

    /** getOracleNoSqlManager: the manager registered under `uuid`. */
    method GetOracleNoSqlManager(uuid: Uuid) returns (r: Result<Manager, HolderError>)
      requires Valid()
      ensures r.Success? <==> uuid in managers
      ensures r.Success? ==> r.value == managers[uuid] && r.value.uuid == uuid
      ensures r.Failure? ==> r.error == IllegalStateException(MISSING_MESSAGE + uuid.text)
    {
      if uuid !in managers {
        return Failure(IllegalStateException(MISSING_MESSAGE + uuid.text));
      }
      r := Success(managers[uuid]);
    }
  }

  /** A manager added under a fresh UUID is the one found under it afterwards,
      and the managers registered before are still found. */
  method AddThenGet(h: Holder, m: Manager, other: Uuid) returns (found: Result<Manager, HolderError>, still: bool)
    requires h.Valid() && m.uuid !in h.managers
    modifies h, m
    ensures found == Success(m)
    ensures still == (other in old(h.managers) || other == m.uuid)
  {
    var added := h.AddOracleNoSqlManager(m, false);
    found := h.GetOracleNoSqlManager(m.uuid);
    var again := h.GetOracleNoSqlManager(other);
    still := again.Success?;
  }

  /** Adding a duplicate UUID stops the newcomer, keeps the registered
      manager, and is rejected with the duplicate message. */
  method AddDuplicate(h: Holder, first: Manager, second: Manager) returns (o: Outcome<HolderError>, found: Result<Manager, HolderError>)
    requires h.Valid() && first.uuid !in h.managers && second.uuid == first.uuid && second != first
    modifies h, first, second
    ensures o == Fail(IllegalStateException(DUPLICATE_MESSAGE + first.uuid.text))
    ensures second.stopRequested
    ensures found == Success(first)
  {
    var added := h.AddOracleNoSqlManager(first, false);
    o := h.AddOracleNoSqlManager(second, false);
    found := h.GetOracleNoSqlManager(first.uuid);
  }
}
