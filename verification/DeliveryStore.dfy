/**
 The delivery store: each method runs its SQL statements one after another on
 the shared table. Where a method runs more than one, the statements of other
 workers that fall in between are an argument.
 */
module DeliveryStore {
  import opened Results
  import opened DeliveryTable
  import EndpointIds

  datatype Error = InvalidEndpointId | DeliveryNotFound | ReadFailed | StaleClaim | FenceLost

  /** What Find reads; it does not read the token or the version. */
  datatype Delivery = Delivery(
    id: string, tenant: string, eventId: string, endpointId: string, status: Status, attempts: int, permanent: bool,
    payload: Payload, responseStatus: Option<int>, lastError: Option<string>, lease: Option<Time>,
    deliveredAt: Option<Time>)

  datatype ClaimAnswer =
    | NotClaimed
    | Claimed(delivery: Delivery, token: string, version: int, leaseEnd: Time)

  function View(id: string, row: Row): Delivery {
    Delivery(id, row.tenant, if row.eventId == "" then id else row.eventId, row.endpointId, row.status, row.attempts,
             row.permanent, row.payload, row.responseStatus, row.lastError, row.lease, row.deliveredAt)
  }

  /** A delivery that tells the row field by field; a row without an event goes by its own id. */
  predicate Shows(d: Delivery, id: string, row: Row) {
    && d.id == id && d.tenant == row.tenant && d.endpointId == row.endpointId
    && (row.eventId != "" ==> d.eventId == row.eventId) && (row.eventId == "" ==> d.eventId == id)
    && d.status == row.status && d.attempts == row.attempts && d.permanent == row.permanent
    && d.payload == row.payload && d.responseStatus == row.responseStatus && d.lastError == row.lastError
    && d.lease == row.lease && d.deliveredAt == row.deliveredAt
  }

  predicate Present(rows: Rows, tenant: string, id: string) {
    id in rows && rows[id].tenant == tenant
  }

  /** Who can be claimed, and what the claim writes. */
  predicate ClaimWrites(rows: Rows, updated: Executed, tenant: string, id: string, token: string, now: Time,
                        lease: Time) {
    && (updated.affected == 1 <==>
          && id in rows && rows[id].tenant == tenant && rows[id].status != Delivered && !rows[id].permanent
          && (rows[id].lease.None? || rows[id].lease.value <= now))
    && (updated.affected == 1 ==>
          updated.rows == rows[id := rows[id].(status := Processing, token := Some(token), lease := Some(now + lease),
                                               version := rows[id].version + 1, attempts := rows[id].attempts + 1,
                                               updatedAt := now)])
    && (updated.affected != 1 ==> updated == Executed(rows, 0))
  }

  lemma ClaimStatementWrites(rows: Rows, tenant: string, id: string, token: string, now: Time, lease: Time)
    ensures ClaimWrites(rows, Exec(rows, DeliveryTable.Claim(tenant, id, token, now, lease)), tenant, id, token, now,
                        lease)
  {
  }

  class Store {
    var rows: Rows

    constructor ()
      ensures rows == map[]
    {
      rows := map[];
    }

    method Execute(s: Statement) returns (affected: nat)
      modifies this
      ensures Executed(rows, affected) == Exec(old(rows), s)
    {
      var done := Exec(rows, s);
      rows := done.rows;
      affected := done.affected;
    }

    /** Statements other workers run while this one waits. */
    method Others(run: seq<Statement>)
      modifies this
      ensures rows == ExecAll(old(rows), run)
    {
      for i := 0 to |run|
        invariant rows == ExecAll(old(rows), run[..i])
      {
        assert run[..i + 1] == run[..i] + [run[i]];
        ExecAllAppend(old(rows), run[..i], [run[i]]);
        var _ := Execute(run[i]);
      }
      assert run[..|run|] == run;
    }

    method Create(tenant: string, item: NewDelivery) returns (r: Result<bool, Error>)
      modifies this
      ensures r.Err? <==> EndpointIds.ParseDeliveryEndpointId(item.endpointId).None?
      ensures r.Err? ==> r.error == InvalidEndpointId && rows == old(rows)
      ensures r.Ok? ==> rows == Exec(old(rows), Insert(tenant, item)).rows
      ensures r.Ok? ==> (r.value <==> item.id in rows && item.id !in old(rows))
      ensures r == Ok(true) ==>
        var row := rows[item.id];
        && row.tenant == tenant && row.eventId == item.eventId && row.endpointId == item.endpointId
        && row.payload.url == item.payload.url && row.payload.body == item.payload.body
        && "X-Arandu-Delivery-ID" in row.payload.headers && row.payload.headers["X-Arandu-Delivery-ID"] == item.id
        && (forall name | name in item.payload.headers && name != "X-Arandu-Delivery-ID" ::
              name in row.payload.headers && row.payload.headers[name] == item.payload.headers[name])
        && row.payload.headers.Keys == item.payload.headers.Keys + {"X-Arandu-Delivery-ID"}
        && row.status == Pending && row.attempts == 0 && row.version == 0 && !row.permanent
        && row.token.None? && row.lease.None? && row.responseStatus.None? && row.lastError.None?
           && row.deliveredAt.None?
        && row.createdAt == item.createdAt && row.updatedAt == item.updatedAt
      ensures forall id | id in old(rows) :: id in rows && rows[id] == old(rows)[id]
      ensures r == Ok(true) ==> rows.Keys == old(rows).Keys + {item.id}
      ensures r.Ok? && !r.value ==> rows == old(rows)
      ensures r == Ok(false) <==>
              && EndpointIds.ParseDeliveryEndpointId(item.endpointId).Some?
              && (item.id in old(rows)
                  || exists id | id in old(rows) ::
                       old(rows)[id].tenant == tenant && old(rows)[id].eventId == item.eventId
                       && old(rows)[id].endpointId == item.endpointId)
    {
      if EndpointIds.ParseDeliveryEndpointId(item.endpointId).None? {
        return Err(InvalidEndpointId);
      }
      var created := Execute(Insert(tenant, item));
      return Ok(created == 1);
    }

    /** `fails` stands for a statement that errors and for stored headers that do not decode. */
    method Find(tenant: string, id: string, fails: bool) returns (r: Result<Delivery, Error>)
      ensures r == if fails then Err(ReadFailed)
                   else if Present(rows, tenant, id) then Ok(View(id, rows[id])) else Err(DeliveryNotFound)
      ensures r.Ok? <==> !fails && id in rows && rows[id].tenant == tenant
      ensures r.Ok? ==> Shows(r.value, id, rows[id])
    {
      if fails {
        return Err(ReadFailed);
      }
      if id !in rows || rows[id].tenant != tenant {
        return Err(DeliveryNotFound);
      }
      return Ok(View(id, rows[id]));
    }

    /** SELECT claim_version ... WHERE claim_token = token. */
    method ReadFence(tenant: string, id: string, token: string) returns (version: Option<int>)
      ensures version ==
              if Present(rows, tenant, id) && rows[id].token == Some(token) then Some(rows[id].version) else None
    {
      if id in rows && rows[id].tenant == tenant && rows[id].token == Some(token) {
        return Some(rows[id].version);
      }
      return None;
    }

    /**
     A claim that reports success hands out the row as it stood while the
     claim's own token was current: claimed, under its lease, numbered by the
     version it fences with, and with the payload stored before the claim.
     */
    method Claim(tenant: string, id: string, token: string, now: Time, lease: Time, findFails: bool,
                 first: seq<Statement>, second: seq<Statement>)
      returns (r: Result<ClaimAnswer, Error>)
      requires Valid(rows) && !TokenInUse(rows, token) && !Issues(first, token) && !Issues(second, token)
      modifies this
      ensures
        var claim := DeliveryTable.Claim(tenant, id, token, now, lease);
        var updated := Exec(old(rows), claim);
        var found := ExecAll(updated.rows, first);
        && rows == (if updated.affected == 1 && Present(found, tenant, id) && !findFails
                    then ExecAll(found, second) else found)
        && ClaimWrites(old(rows), updated, tenant, id, token, now, lease)
        && (r.Ok? && r.value.Claimed? ==>
              && updated.affected == 1 && id in found && found[id].token == Some(token)
              && r.value.delivery == View(id, found[id]) && Shows(r.value.delivery, id, found[id])
              && r.value.delivery.id == id && r.value.delivery.tenant == tenant && r.value.token == token
              && r.value.version == found[id].version == r.value.delivery.attempts == old(rows)[id].version + 1
              && r.value.delivery.status == Processing
              && r.value.delivery.lease == Some(r.value.leaseEnd) == Some(now + lease)
              && r.value.delivery.payload == old(rows)[id].payload
              && Current(rows, tenant, id, r.value.token, r.value.version))
        && (updated.affected == 1 ==> (r.Err? <==> findFails || !(id in rows && rows[id].token == Some(token))))
        && (updated.affected == 1 && r.Ok? ==> r.value.Claimed?)
        && (findFails ==> r == Err(ReadFailed))
        && (updated.affected == 0 && !findFails ==>
              r == (if !Present(found, tenant, id) || Final(found[id]) then Err(DeliveryNotFound) else Ok(NotClaimed)))
    {
      ghost var claim := DeliveryTable.Claim(tenant, id, token, now, lease);
      ghost var before := rows;
      ClaimStatementWrites(rows, tenant, id, token, now, lease);
      var affected := Execute(DeliveryTable.Claim(tenant, id, token, now, lease));
      ghost var written := rows;
      Others(first);
      ghost var found := rows;
      var item := Find(tenant, id, findFails);
      if affected == 0 {
        if item.Err? {
          return Err(item.error);
        }
        if item.value.status == Delivered || item.value.permanent {
          return Err(DeliveryNotFound);
        }
        return Ok(NotClaimed);
      }
      if item.Err? {
        if !findFails {
          HeldMeansPresent(before, claim, first);
        }
        return Err(item.error);
      }
      Others(second);
      if TokenInUse(rows, token) {
        ClaimReadsItsOwnRow(before, claim, first, second);
      }
      var version := ReadFence(tenant, id, token);
      if version.None? {
        return Err(FenceLost);
      }
      assert RowValid(before[id]);
      return Ok(Claimed(item.value, token, version.value, now + lease));
    }

    /**
     Complete and Fail report success when the outcome took effect or when the
     delivery is gone, and a stale claim when it is not, or when the lookup that
     should tell fails.
     */
    method Complete(claim: ClaimAnswer, statusCode: int, finishedAt: Option<Time>, now: Time,
                    findFails: bool, between: seq<Statement>)
      returns (r: Result<bool, Error>)
      requires claim.Claimed?
      modifies this
      ensures
        var finished := if finishedAt.Some? then finishedAt.value else now;
        var tenant, id := claim.delivery.tenant, claim.delivery.id;
        var done := Exec(old(rows),
                         DeliveryTable.Complete(tenant, id, claim.token, claim.version, statusCode, finished));
        && rows == (if done.affected == 0 then ExecAll(done.rows, between) else done.rows)
        && (done.affected == 1 <==>
              && id in old(rows) && old(rows)[id].tenant == tenant
              && old(rows)[id].token == Some(claim.token) && old(rows)[id].version == claim.version)
        && (done.affected == 1 ==>
              && r == Ok(true)
              && rows == old(rows)[id := old(rows)[id].(
                           status := Delivered, payload := Payload("", "", map[]), token := None, lease := None,
                           responseStatus := Some(statusCode), lastError := None, updatedAt := finished,
                           deliveredAt := Some(finished))])
        && (done.affected == 0 ==> r == if findFails || Present(rows, tenant, id) then Err(StaleClaim) else Ok(false))
    {
      var finished := if finishedAt.Some? then finishedAt.value else now;
      var affected := Execute(DeliveryTable.Complete(claim.delivery.tenant, claim.delivery.id, claim.token,
                                                     claim.version, statusCode, finished));
      r := RequireCurrentClaim(claim.delivery.tenant, claim.delivery.id, affected, findFails, between);
    }

    method Fail(claim: ClaimAnswer, statusCode: int, code: string, permanent: bool, now: Time,
                findFails: bool, between: seq<Statement>)
      returns (r: Result<bool, Error>)
      requires claim.Claimed?
      modifies this
      ensures
        var tenant, id := claim.delivery.tenant, claim.delivery.id;
        var done := Exec(old(rows),
                         DeliveryTable.Fail(tenant, id, claim.token, claim.version, statusCode, code, permanent, now));
        && rows == (if done.affected == 0 then ExecAll(done.rows, between) else done.rows)
        && (done.affected == 1 <==>
              && id in old(rows) && old(rows)[id].tenant == tenant
              && old(rows)[id].token == Some(claim.token) && old(rows)[id].version == claim.version)
        && (done.affected == 1 ==>
              && r == Ok(true) && Claimable(rows, tenant, id, now) == !permanent
              && rows == old(rows)[id := old(rows)[id].(
                           status := Failed, permanent := permanent, token := None, lease := None,
                           responseStatus := if statusCode == 0 then None else Some(statusCode),
                           lastError := Some(code), updatedAt := now)])
        && (done.affected == 0 ==> r == if findFails || Present(rows, tenant, id) then Err(StaleClaim) else Ok(false))
    {
      var affected := Execute(DeliveryTable.Fail(claim.delivery.tenant, claim.delivery.id, claim.token, claim.version,
                                                 statusCode, code, permanent, now));
      r := RequireCurrentClaim(claim.delivery.tenant, claim.delivery.id, affected, findFails, between);
    }

    /** Ok(true): the outcome took effect. Ok(false): the delivery is gone. */
    method RequireCurrentClaim(tenant: string, id: string, affected: nat, findFails: bool, between: seq<Statement>)
      returns (r: Result<bool, Error>)
      modifies this
      ensures rows == if affected == 0 then ExecAll(old(rows), between) else old(rows)
      ensures r == if affected != 0 then Ok(true)
                   else if findFails || Present(rows, tenant, id) then Err(StaleClaim)
                   else Ok(false)
    {
      if affected != 0 {
        return Ok(true);
      }
      Others(between);
      var item := Find(tenant, id, findFails);
      if item == Err(DeliveryNotFound) {
        return Ok(false);
      }
      return Err(StaleClaim);
    }

    method Prune(tenant: string, cutoff: Time) returns (deleted: nat)
      modifies this
      ensures rows ==
              map id | id in old(rows) && !(old(rows)[id].tenant == tenant && old(rows)[id].createdAt < cutoff) ::
                  old(rows)[id]
      ensures deleted == |old(rows)| - |rows|
    {
      var gone := set id | id in rows && Expired(rows[id], tenant, cutoff);
      assert |rows.Keys| == |rows.Keys - gone| + |gone|;
      assert (rows - gone).Keys == rows.Keys - gone;
      deleted := Execute(DeliveryTable.Prune(tenant, cutoff));
    }
  }

  /** The two calls of a worker, one after the other: a claim handed out can be completed, and completes its own row. */
  method ClaimAndComplete(store: Store, tenant: string, id: string, token: string, now: Time, lease: Time,
                          first: seq<Statement>, second: seq<Statement>, statusCode: int, finished: Time)
    returns (claimed: bool, done: Result<bool, Error>)
    requires Valid(store.rows) && !TokenInUse(store.rows, token) && !Issues(first, token) && !Issues(second, token)
    modifies store
    ensures done == Ok(claimed)
    ensures first == [] && second == [] ==>
              (claimed <==>
                 && id in old(store.rows) && old(store.rows)[id].tenant == tenant
                 && old(store.rows)[id].status != Delivered && !old(store.rows)[id].permanent
                 && (old(store.rows)[id].lease.None? || old(store.rows)[id].lease.value <= now))
    ensures claimed ==>
            && id in store.rows && store.rows[id].tenant == tenant && store.rows[id].status == Delivered
            && store.rows[id].responseStatus == Some(statusCode) && store.rows[id].deliveredAt == Some(finished)
            && store.rows[id].lastError.None?
  {
    done := Ok(false);
    var claim := store.Claim(tenant, id, token, now, lease, false, first, second);
    claimed := claim.Ok? && claim.value.Claimed?;
    if claimed {
      done := store.Complete(claim.value, statusCode, Some(finished), now, false, []);
    }
  }

  /** A claimed row that Find no longer sees cannot hold the claim's token either. */
  lemma HeldMeansPresent(rows: Rows, claim: Statement, first: seq<Statement>)
    requires Valid(rows) && claim.Claim? && Exec(rows, claim).affected == 1
    requires !TokenInUse(rows, claim.token) && !Issues(first, claim.token)
    requires !Present(ExecAll(Exec(rows, claim).rows, first), claim.tenant, claim.id)
    ensures !TokenInUse(ExecAll(Exec(rows, claim).rows, first), claim.token)
  {
    var found := ExecAll(Exec(rows, claim).rows, first);
    if TokenInUse(found, claim.token) {
      ClaimReadsItsOwnRow(rows, claim, first, []);
    }
  }
}
