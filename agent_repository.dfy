/**
 * The bounded measurement buffer a monitor agent keeps on a remote service
 * (oracle.kv.impl.monitor.AgentRepository). Producers add measurements at the
 * tail; when the buffer grows past its maximum size the oldest measurement is
 * evicted and recorded in a "pruned" placeholder; the collector drains the
 * buffer, receiving the placeholder first, and resets everything.
 */
module AgentRepository {

  /** A measurement held in the buffer. The repository only distinguishes
      service status changes from everything else; `Pruned` is the placeholder
      that stands for the measurements evicted since the last drain. */
  datatype Measurement =
    | ServiceStatusChange(change: int)
    | Stat(id: int)
    | Pruned(recorded: seq<Measurement>)

  /** The repository's default maximum size. */
  const DEFAULT_SIZE: int := 10000

  /** The number of status changes among `s`. */
  function StatusChanges(s: seq<Measurement>): (n: nat)
    ensures n <= |s|
  {
    if s == [] then 0
    else StatusChanges(s[..|s| - 1]) + (if s[|s| - 1].ServiceStatusChange? then 1 else 0)
  }

  /** Counting status changes distributes over concatenation. */
  lemma {:induction false} StatusChangesConcat(a: seq<Measurement>, b: seq<Measurement>)
    ensures StatusChanges(a + b) == StatusChanges(a) + StatusChanges(b)
    decreases |b|
  {
    if b == [] {
      assert a + b == a;
    } else {
      var n := |b| - 1;
      assert (a + b)[..|a + b| - 1] == a + b[..n];
      assert (a + b)[|a + b| - 1] == b[n];
      StatusChangesConcat(a, b[..n]);
    }
  }

  /** Removing the head of a buffer removes its status change, if it is one. */
  lemma StatusChangesTail(s: seq<Measurement>)
    requires s != []
    ensures StatusChanges(s) == StatusChanges(s[1..]) + (if s[0].ServiceStatusChange? then 1 else 0)
  {
    assert s == [s[0]] + s[1..];
    StatusChangesConcat([s[0]], s[1..]);
    assert [s[0]][..0] == [];
  }

  /** The number of live measurements a repository of maximum size `maxSize`
      can hold: a non-positive maximum leaves no room at all. */
  function Capacity(maxSize: int): nat
  {
    if maxSize < 0 then 0 else maxSize
  }

  /** What `getAndReset` hands to the collector. */
  datatype Snapshot = Snapshot(serviceStatusChanges: int, measurements: seq<Measurement>)

  class AgentRepository {
    const maxSize: int
    /** The live measurements, oldest first. */
    var current: seq<Measurement>
    /** Running count of status changes held in `current`. */
    var statusChanges: int
    /** The measurements recorded in the pruned placeholder, oldest first;
        the placeholder exists exactly when something has been recorded. */
    var pruned: seq<Measurement>

    ghost predicate Valid()
      reads this
    {
      && statusChanges == StatusChanges(current)
      && |current| <= Capacity(maxSize)
      // measurements are only ever pruned from a full buffer
      && (pruned != [] ==> |current| == Capacity(maxSize))
    }

    /** The unit-test constructor and the body of the public one; the
        monitor-buffer registration with the logging system is not modelled. */
    constructor (maxSize: int)
      ensures Valid()
      ensures this.maxSize == maxSize
      ensures current == [] && pruned == [] && statusChanges == 0
    {
      this.maxSize := maxSize;
      current := [];
      pruned := [];
      statusChanges := 0;
    }

    /** The public constructor that uses the default size. */
    constructor WithDefaultSize()
      ensures Valid()
      ensures maxSize == DEFAULT_SIZE
      ensures current == [] && pruned == [] && statusChanges == 0
    {
      maxSize := DEFAULT_SIZE;
      current := [];
      pruned := [];
      statusChanges := 0;
    }

    /** Add another measurement, evicting the oldest one into the pruned
        placeholder when the buffer grows past its maximum size. */
    method Add(p: Measurement)
      requires Valid()
      modifies this
      ensures Valid()
      // nothing is lost: the evicted and the live measurements are all the
      // measurements added since the last drain, in order
      ensures pruned + current == old(pruned + current) + [p]
      // at most one measurement, the oldest, is evicted, and only on overflow
      ensures |old(current)| + 1 > maxSize ==>
                current == (old(current) + [p])[1..] && pruned == old(pruned) + [(old(current) + [p])[0]]
      ensures |old(current)| + 1 <= maxSize ==> current == old(current) + [p] && pruned == old(pruned)
      ensures statusChanges == old(statusChanges)
                + (if p.ServiceStatusChange? then 1 else 0)
                - (if |old(current)| + 1 > maxSize && (old(current) + [p])[0].ServiceStatusChange? then 1 else 0)
    {
      var was := current;
      current := current + [p];
      assert current[..|current| - 1] == was;
      if p.ServiceStatusChange? {
        statusChanges := statusChanges + 1;
      }
      if |current| > maxSize {
        var target := current[0];
        StatusChangesTail(current);
        if target.ServiceStatusChange? {
          statusChanges := statusChanges - 1;
        }
        assert current == [target] + current[1..];
        pruned := pruned + [target];
        current := current[1..];
      }
    }

    /** Retrieve all measurements, the pruned placeholder first when there
        is one, and wipe the buffer clean. */
    method GetAndReset() returns (snapshot: Snapshot)
      requires Valid()
      modifies this
      ensures Valid()
      ensures snapshot.measurements
                == (if old(pruned) != [] then [Pruned(old(pruned))] else []) + old(current)
      ensures snapshot.serviceStatusChanges == old(statusChanges) == StatusChanges(old(current))
      ensures current == [] && pruned == [] && statusChanges == 0
    {
      var retrieved := current;
      current := [];
      if pruned != [] {
        retrieved := [Pruned(pruned)] + retrieved;
        pruned := [];
      }
      snapshot := Snapshot(statusChanges, retrieved);
      statusChanges := 0;
    }

    /** The number of live measurements; the pruned placeholder is never counted. */
    method Size() returns (n: int)
      requires Valid()
      ensures n == |current|
      ensures 0 <= n <= Capacity(maxSize)
    {
      n := |current|;
    }
  }

  /** A repository of maximum size 3 fed A, B, C, D drains as
      [placeholder recording A, B, C, D] with one status change per status
      change among B, C, D; a second drain right after is empty. */
  method CapacityThreeScenario(a: Measurement, b: Measurement, c: Measurement, d: Measurement)
    returns (first: Snapshot, second: Snapshot)
    ensures first.measurements == [Pruned([a]), b, c, d]
    ensures first.serviceStatusChanges == StatusChanges([b, c, d])
    ensures second == Snapshot(0, [])
  {
    var repo := new AgentRepository(3);
    repo.Add(a);
    repo.Add(b);
    repo.Add(c);
    repo.Add(d);
    assert repo.current == [b, c, d];
    first := repo.GetAndReset();
    second := repo.GetAndReset();
  }
}
