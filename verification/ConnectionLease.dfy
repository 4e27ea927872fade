/**
 The connection lock on an instance row: a lease of two minutes that belongs to
 a process, not to a call.
 */
module ConnectionLease {
  import opened Results
  import EndpointIds

  type Time = int

  const LEASE := 120_000_000_000

  datatype Instance = Instance(tenant: string, id: int)

  datatype Lock = Lock(owner: Option<string>, until: Option<Time>)

  type Table = map<Instance, Lock>

  /** The condition of the acquiring statement; comparing with NULL is never true. */
  predicate Grantable(t: Table, i: Instance, owner: string, now: Time) {
    && i in t
    && (t[i].until.None? || t[i].until.value <= now || t[i].owner == Some(owner))
  }

  datatype Statement =
    | Acquire(instance: Instance, owner: string, now: Time)
    | Release(instance: Instance, owner: string)
    | Delete(instance: Instance)

  function Exec(t: Table, s: Statement): Table {
    match s
    case Acquire(i, owner, now) =>
      if Grantable(t, i, owner, now) then t[i := Lock(Some(owner), Some(now + LEASE))] else t
    case Release(i, owner) => if i in t && t[i].owner == Some(owner) then t[i := Lock(None, None)] else t
    case Delete(i) => t - {i}
  }

  function ExecAll(t: Table, run: seq<Statement>): Table
    decreases |run|
  {
    if run == [] then t else ExecAll(Exec(t, run[0]), run[1..])
  }

  /** A clock that never goes back, read between two moments. */
  predicate Clocked(run: seq<Statement>, from: Time, to: Time)
    decreases |run|
  {
    if run == [] then from <= to
    else if run[0].Acquire? then from <= run[0].now && Clocked(run[1..], run[0].now, to)
    else Clocked(run[1..], from, to)
  }

  lemma {:induction false} ClockRuns(run: seq<Statement>, from: Time, to: Time)
    requires Clocked(run, from, to)
    ensures from <= to
    decreases |run|
  {
    if run != [] {
      ClockRuns(run[1..], if run[0].Acquire? then run[0].now else from, to);
    }
  }

  /** The owner's lease reaches at least to this moment, as long as the row exists. */
  predicate LeasedTo(t: Table, i: Instance, owner: string, moment: Time) {
    i in t ==> t[i].owner == Some(owner) && t[i].until.Some? && t[i].until.value >= moment
  }

  /** While the lease lasts, only the owner's own release ends it; acquiring again extends it. */
  lemma {:induction false} LeaseIsKept(t: Table, run: seq<Statement>, i: Instance, owner: string, from: Time, to: Time,
                                       moment: Time)
    requires LeasedTo(t, i, owner, moment) && Clocked(run, from, to)
    requires to < moment <= from + LEASE
    requires Release(i, owner) !in run
    ensures LeasedTo(ExecAll(t, run), i, owner, moment)
    decreases |run|
  {
    if run != [] {
      var next := if run[0].Acquire? then run[0].now else from;
      ClockRuns(run[1..], next, to);
      assert run[0] in run;
      LeaseIsKept(Exec(t, run[0]), run[1..], i, owner, next, to, moment);
    }
  }

  /**
   Exclusion: after an owner acquires at time `at`, no other owner acquires
   before two minutes have passed, whatever statements run in between, unless
   the owner releases.
   */
  lemma LeaseExcludesOthers(t: Table, i: Instance, owner: string, at: Time, run: seq<Statement>, other: string,
                            now: Time)
    requires Grantable(t, i, owner, at)
    requires Clocked(run, at, now) && now < at + 120_000_000_000
    requires Release(i, owner) !in run && other != owner
    ensures !Grantable(ExecAll(Exec(t, Acquire(i, owner, at)), run), i, other, now)
  {
    LeaseIsKept(Exec(t, Acquire(i, owner, at)), run, i, owner, at, now, at + LEASE);
  }

  /** The owner itself gets in again at any time while its lease stands, and the lease then reaches further. */
  lemma OwnerReenters(t: Table, i: Instance, owner: string, at: Time, run: seq<Statement>, now: Time)
    requires Grantable(t, i, owner, at)
    requires Clocked(run, at, now) && now < at + LEASE
    requires Release(i, owner) !in run
    ensures var s := ExecAll(Exec(t, Acquire(i, owner, at)), run);
            i in s ==> Grantable(s, i, owner, now) && LeasedTo(Exec(s, Acquire(i, owner, now)), i, owner, now + LEASE)
  {
    LeaseIsKept(Exec(t, Acquire(i, owner, at)), run, i, owner, at, now, at + LEASE);
  }

  /** Acquisitions of one owner are not counted: a single release opens the instance to everybody. */
  lemma OneReleaseEndsEveryHold(t: Table, i: Instance, owner: string, at: Time, again: Time, other: string, now: Time)
    requires Grantable(t, i, owner, at)
    ensures var twice := Exec(Exec(t, Acquire(i, owner, at)), Acquire(i, owner, again));
            LeasedTo(twice, i, owner, again + LEASE) && Grantable(Exec(twice, Release(i, owner)), i, other, now)
  {
  }

  /** No lease reaches further than two minutes past the clock. */
  predicate Bounded(t: Table, now: Time) {
    forall i | i in t ::
      && (t[i].owner.Some? <==> t[i].until.Some?)
      && (t[i].until.Some? ==> t[i].until.value <= now + LEASE)
  }

  lemma {:induction false} LeasesAreBounded(t: Table, run: seq<Statement>, from: Time, to: Time)
    requires Bounded(t, from) && Clocked(run, from, to)
    ensures Bounded(ExecAll(t, run), to)
    decreases |run|
  {
    ClockRuns(run, from, to);
    if run != [] {
      LeasesAreBounded(Exec(t, run[0]), run[1..], if run[0].Acquire? then run[0].now else from, to);
    }
  }

  lemma {:induction false} PastLeaseIsGrantable(t: Table, run: seq<Statement>, i: Instance, other: string, now: Time)
    requires i in t ==> t[i].until.Some? ==> t[i].until.value <= now
    requires i in ExecAll(t, run)
    requires forall s | s in run :: !(s.Acquire? && s.instance == i)
    ensures Grantable(ExecAll(t, run), i, other, now)
    decreases |run|
  {
    if run != [] {
      assert run[0] in run && forall s | s in run[1..] :: s in run;
      PastLeaseIsGrantable(Exec(t, run[0]), run[1..], i, other, now);
    }
  }

  /** Nobody keeps an instance by crashing: two minutes after the last acquisition anyone gets it. */
  lemma LeaseRunsOut(earlier: seq<Statement>, t: Table, start: Time, last: Time, run: seq<Statement>, i: Instance,
                     other: string, now: Time)
    requires Bounded(t, start) && Clocked(earlier, start, last) && now >= last + 120_000_000_000
    requires forall s | s in run :: !(s.Acquire? && s.instance == i)
    requires i in ExecAll(ExecAll(t, earlier), run)
    ensures Grantable(ExecAll(ExecAll(t, earlier), run), i, other, now)
  {
    LeasesAreBounded(t, earlier, start, last);
    PastLeaseIsGrantable(ExecAll(t, earlier), run, i, other, now);
  }

  /** A deleted row is granted to nobody, and no statement brings it back. */
  lemma {:induction false} DeletedRowIsNeverGranted(t: Table, run: seq<Statement>, i: Instance, owner: string,
                                                    now: Time)
    ensures i !in t ==> i !in ExecAll(t, run) && !Grantable(ExecAll(t, run), i, owner, now)
    ensures i !in ExecAll(Exec(t, Delete(i)), run) && !Grantable(ExecAll(Exec(t, Delete(i)), run), i, owner, now)
    decreases |run|
  {
    if run != [] {
      DeletedRowIsNeverGranted(Exec(t, run[0]), run[1..], i, owner, now);
      DeletedRowIsNeverGranted(Exec(Exec(t, Delete(i)), run[0]), run[1..], i, owner, now);
    }
  }

  datatype Error = InvalidInput

  /** The instance a caller names by the text of its id. */
  function Named(tenant: string, rawId: string): Option<Instance> {
    match EndpointIds.ParseInt64(rawId)
    case None => None
    case Some(id) => Some(Instance(tenant, id))
  }

  class Locks {
    var table: Table

    constructor (t: Table)
      ensures table == t
    {
      table := t;
    }

    method TryAcquire(owner: string, tenant: string, rawId: string, now: Time) returns (r: Result<bool, Error>)
      modifies this
      ensures r == Err(InvalidInput) <==> Named(tenant, rawId).None?
      ensures r.Err? ==> table == old(table)
      ensures r.Ok? ==> table == Exec(old(table), Acquire(Named(tenant, rawId).value, owner, now))
      ensures r.Ok? ==> r.value == Grantable(old(table), Named(tenant, rawId).value, owner, now)
      ensures r.Ok? ==>
        var i := Instance(tenant, EndpointIds.ParseInt64(rawId).value);
        && (r.value <==> && i in old(table)
                         && (old(table)[i].until.None? || old(table)[i].until.value <= now
                             || old(table)[i].owner == Some(owner)))
        && table == if r.value then old(table)[i := Lock(Some(owner), Some(now + 120_000_000_000))] else old(table)
    {
      var id := EndpointIds.ParseInt64(rawId);
      if id.None? {
        return Err(InvalidInput);
      }
      var i := Instance(tenant, id.value);
      if i !in table {
        return Ok(false);
      }
      var lock := table[i];
      if lock.until.None? || lock.until.value <= now || lock.owner == Some(owner) {
        table := table[i := Lock(Some(owner), Some(now + LEASE))];
        return Ok(true);
      }
      r := Ok(false);
    }

    method Release(owner: string, tenant: string, rawId: string) returns (r: Result<(), Error>)
      modifies this
      ensures r == Err(InvalidInput) <==> Named(tenant, rawId).None?
      ensures r.Err? ==> table == old(table)
      ensures r.Ok? ==> table == Exec(old(table), Statement.Release(Named(tenant, rawId).value, owner))
      ensures r.Ok? ==>
        var i := Instance(tenant, EndpointIds.ParseInt64(rawId).value);
        table == if i in old(table) && old(table)[i].owner == Some(owner)
                 then old(table)[i := Lock(None, None)] else old(table)
      ensures forall i | i in old(table) && old(table)[i].owner != Some(owner) ::
              i in table && table[i] == old(table)[i]
      ensures table.Keys == old(table).Keys
    {
      var id := EndpointIds.ParseInt64(rawId);
      if id.None? {
        return Err(InvalidInput);
      }
      var i := Instance(tenant, id.value);
      if i in table && table[i].owner == Some(owner) {
        table := table[i := Lock(None, None)];
      }
      r := Ok(());
    }
  }
}
