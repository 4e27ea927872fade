/**
 The webhook delivery table and the SQL statements run on it. One statement is
 one atomic step; any number of workers interleave their statements, so a run
 is a sequence of statements. The table holds rows born in Create.
 */
module DeliveryTable {
  import opened Results

  type Time = int

  datatype Status = Pending | Processing | Delivered | Failed

  /** The columns Complete wipes. */
  datatype Payload = Payload(url: string, body: string, headers: map<string, string>)

  const WIPED := Payload("", "", map[])

  datatype Row = Row(
    tenant: string, eventId: string, endpointId: string, status: Status, attempts: int,
    permanent: bool, token: Option<string>, version: int, lease: Option<Time>, payload: Payload,
    responseStatus: Option<int>, lastError: Option<string>, createdAt: Time, updatedAt: Time,
    deliveredAt: Option<Time>)

  /** What the dispatcher asks Create to store. */
  datatype NewDelivery = NewDelivery(
    id: string, eventId: string, endpointId: string, payload: Payload, createdAt: Time, updatedAt: Time)

  type Rows = map<string, Row>

  datatype Statement =
    | Insert(tenant: string, item: NewDelivery)
    | Claim(tenant: string, id: string, token: string, now: Time, lease: Time)
    | Complete(tenant: string, id: string, token: string, version: int, statusCode: int, finished: Time)
    | Fail(tenant: string, id: string, token: string, version: int, statusCode: int, code: string, permanent: bool,
           now: Time)
    | Prune(tenant: string, cutoff: Time)
    | DropInstance(tenant: string, endpointIds: set<string>)   // the cascade of a deleted instance, over its endpoints

  datatype Executed = Executed(rows: Rows, affected: nat)

  function NewRow(tenant: string, item: NewDelivery): Row {
    Row(tenant, item.eventId, item.endpointId, Pending, 0, false, None, 0, None,
        item.payload.(headers := item.payload.headers["X-Arandu-Delivery-ID" := item.id]),
        None, None, item.createdAt, item.updatedAt, None)
  }

  /** The unique key of migration 0005. */
  predicate SameKey(row: Row, tenant: string, eventId: string, endpointId: string) {
    row.tenant == tenant && row.eventId == eventId && row.endpointId == endpointId
  }

  predicate KeyTaken(rows: Rows, tenant: string, eventId: string, endpointId: string) {
    exists id | id in rows :: SameKey(rows[id], tenant, eventId, endpointId)
  }

  predicate Claimable(rows: Rows, tenant: string, id: string, now: Time) {
    && id in rows && rows[id].tenant == tenant
    && rows[id].status != Delivered && !rows[id].permanent
    && (rows[id].lease.None? || rows[id].lease.value <= now)
  }

  /** The fence of Complete and Fail; a NULL token equals no token. */
  predicate Current(rows: Rows, tenant: string, id: string, token: string, version: int) {
    id in rows && rows[id].tenant == tenant && rows[id].token == Some(token) && rows[id].version == version
  }

  predicate Expired(row: Row, tenant: string, cutoff: Time) {
    row.tenant == tenant && row.createdAt < cutoff
  }

  function Exec(rows: Rows, s: Statement): Executed {
    match s
    case Insert(tenant, item) =>
      if item.id in rows || KeyTaken(rows, tenant, item.eventId, item.endpointId) then Executed(rows, 0)
      else Executed(rows[item.id := NewRow(tenant, item)], 1)
    case Claim(tenant, id, token, now, lease) =>
      if !Claimable(rows, tenant, id, now) then Executed(rows, 0)
      else Executed(rows[id := rows[id].(status := Processing, token := Some(token), version := rows[id].version + 1,
                                         lease := Some(now + lease), attempts := rows[id].attempts + 1,
                                         updatedAt := now)], 1)
    case Complete(tenant, id, token, version, statusCode, finished) =>
      if !Current(rows, tenant, id, token, version) then Executed(rows, 0)
      else Executed(rows[id := rows[id].(status := Delivered, responseStatus := Some(statusCode), lastError := None,
                                         token := None, lease := None, payload := WIPED, updatedAt := finished,
                                         deliveredAt := Some(finished))], 1)
    case Fail(tenant, id, token, version, statusCode, code, permanent, now) =>
      if !Current(rows, tenant, id, token, version) then Executed(rows, 0)
      else Executed(rows[id := rows[id].(status := Failed, lastError := Some(code), permanent := permanent,
                                         token := None,
                                         responseStatus := if statusCode == 0 then None else Some(statusCode),
                                         lease := None, updatedAt := now)], 1)
    case Prune(tenant, cutoff) =>
      var gone := set id | id in rows && Expired(rows[id], tenant, cutoff);
      Executed(rows - gone, |gone|)
    case DropInstance(tenant, endpointIds) =>
      var gone := set id | id in rows && rows[id].tenant == tenant && rows[id].endpointId in endpointIds;
      Executed(rows - gone, |gone|)
  }

  /** The cascade takes the tenant's rows at these endpoints, whatever their status, and no others. */
  lemma CascadeTakesEndpoints(rows: Rows, tenant: string, endpointIds: set<string>, id: string)
    ensures var after := Exec(rows, DropInstance(tenant, endpointIds)).rows;
            && (id in after <==> id in rows && !(rows[id].tenant == tenant && rows[id].endpointId in endpointIds))
            && (id in after ==> after[id] == rows[id])
  {
  }

  /** The statements that remove rows. */
  predicate Deletes(s: Statement) {
    s.Prune? || s.DropInstance?
  }

  function ExecAll(rows: Rows, run: seq<Statement>): Rows
    decreases |run|
  {
    if run == [] then rows else ExecAll(Exec(rows, run[0]).rows, run[1..])
  }

  lemma {:induction false} ExecAllAppend(rows: Rows, first: seq<Statement>, second: seq<Statement>)
    ensures ExecAll(rows, first + second) == ExecAll(ExecAll(rows, first), second)
    decreases |first|
  {
    if first == [] {
      assert first + second == second;
    } else {
      assert (first + second)[1..] == first[1..] + second;
      ExecAllAppend(Exec(rows, first[0]).rows, first[1..], second);
    }
  }

  // ---------------------------------------------------------------- invariant

  predicate RowValid(row: Row) {
    && (row.token.Some? <==> row.status == Processing)
    && (row.lease.Some? <==> row.status == Processing)
    && row.attempts == row.version >= 0
    && (row.status == Pending <==> row.version == 0)
    && (row.permanent ==> row.status == Failed)
    && (row.status == Delivered ==> row.payload == WIPED && row.deliveredAt.Some?)
  }

  /** A row no statement may touch again, except to remove it. */
  predicate Final(row: Row) {
    row.status == Delivered || row.permanent
  }

  ghost predicate UniqueKeys(rows: Rows) {
    forall a, b | a in rows && b in rows && SameKey(rows[a], rows[b].tenant, rows[b].eventId, rows[b].endpointId) ::
      a == b
  }

  ghost predicate Valid(rows: Rows) {
    && (forall id | id in rows :: RowValid(rows[id]))
    && (forall a, b | a in rows && b in rows && rows[a].token.Some? && rows[a].token == rows[b].token :: a == b)
    && UniqueKeys(rows)
  }

  predicate TokenInUse(rows: Rows, token: string) {
    exists id | id in rows :: rows[id].token == Some(token)
  }

  /** Every claim of the run brings a token of its own. */
  ghost predicate FreshTokens(run: seq<Statement>) {
    forall i, j | 0 <= i < j < |run| && run[i].Claim? && run[j].Claim? :: run[i].token != run[j].token
  }

  lemma RowsStayValid(rows: Rows, s: Statement)
    requires forall id | id in rows :: RowValid(rows[id])
    ensures forall id | id in Exec(rows, s).rows :: RowValid(Exec(rows, s).rows[id])
  {
  }

  lemma TokensStayApart(rows: Rows, s: Statement, a: string, b: string)
    requires Valid(rows) && (s.Claim? ==> !TokenInUse(rows, s.token))
    requires a in Exec(rows, s).rows && b in Exec(rows, s).rows
    requires Exec(rows, s).rows[a].token.Some? && Exec(rows, s).rows[a].token == Exec(rows, s).rows[b].token
    ensures a == b
  {
  }

  lemma ValidKept(rows: Rows, s: Statement)
    requires Valid(rows) && (s.Claim? ==> !TokenInUse(rows, s.token))
    ensures Valid(Exec(rows, s).rows)
  {
    var after := Exec(rows, s).rows;
    RowsStayValid(rows, s);
    UniqueKeysKept(rows, s);
    forall a, b | a in after && b in after && after[a].token.Some? && after[a].token == after[b].token
      ensures a == b
    {
      TokensStayApart(rows, s, a, b);
    }
  }

  lemma TokensComeFromClaims(rows: Rows, s: Statement, token: string)
    requires TokenInUse(Exec(rows, s).rows, token)
    ensures TokenInUse(rows, token) || (s.Claim? && s.token == token)
  {
    var id :| id in Exec(rows, s).rows && Exec(rows, s).rows[id].token == Some(token);
  }

  /** In every run with fresh tokens, every reachable table is valid, and holds only tokens the run issued. */
  lemma {:induction false} ReachableIsValid(run: seq<Statement>)
    requires FreshTokens(run)
    ensures Valid(ExecAll(map[], run))
    ensures forall token | TokenInUse(ExecAll(map[], run), token) ::
              exists i :: 0 <= i < |run| && run[i].Claim? && run[i].token == token
  {
    if run != [] {
      var n := |run| - 1;
      var before := ExecAll(map[], run[..n]);
      ReachableIsValid(run[..n]);
      assert run == run[..n] + [run[n]];
      ExecAllAppend(map[], run[..n], [run[n]]);
      assert forall i | 0 <= i < n :: run[..n][i] == run[i];
      ValidKept(before, run[n]);
      assert ExecAll(before, [run[n]]) == Exec(before, run[n]).rows;
      forall token | TokenInUse(Exec(before, run[n]).rows, token)
        ensures exists i :: 0 <= i < |run| && run[i].Claim? && run[i].token == token
      {
        TokensComeFromClaims(before, run[n], token);
        if TokenInUse(before, token) {
          var i :| 0 <= i < n && run[..n][i].Claim? && run[..n][i].token == token;
          assert run[i].token == token;
        }
      }
    }
  }

  /** Which rows of a valid table a claim takes: pending, retryable, or processing past its lease. */
  lemma ClaimableRows(rows: Rows, id: string, token: string, now: Time, lease: Time)
    requires Valid(rows) && id in rows
    ensures Exec(rows, Claim(rows[id].tenant, id, token, now, lease)).affected == 1 <==>
            match rows[id].status
            case Pending => true
            case Processing => rows[id].lease.value <= now
            case Failed => !rows[id].permanent
            case Delivered => false
  {
  }

  // ---------------------------------------------------------------- one row over time

  /** The row exists at the start, after every statement, and at the end. */
  predicate Alive(rows: Rows, run: seq<Statement>, id: string)
    decreases |run|
  {
    id in rows && (run == [] || Alive(Exec(rows, run[0]).rows, run[1..], id))
  }

  predicate Issues(run: seq<Statement>, token: string) {
    exists s | s in run :: s.Claim? && s.token == token
  }

  /** What one statement can do to a row that survives it. */
  lemma RowStep(rows: Rows, s: Statement, id: string)
    requires id in rows && RowValid(rows[id]) && id in Exec(rows, s).rows
    ensures
      var before, after := rows[id], Exec(rows, s).rows[id];
      && (after == before
          || (!Final(before) && s.Claim? && s.id == id && after.version == before.version + 1
              && after.token == Some(s.token)
              && after.payload == before.payload)
          || (s.Complete? && s.id == id && before.token == Some(s.token) && before.version == s.version == after.version
              && after.token.None? && after.status == Delivered)
          || (s.Fail? && s.id == id && before.token == Some(s.token) && before.version == s.version == after.version
              && after.token.None? && after.permanent == s.permanent && after.payload == before.payload))
      && (after.tenant, after.eventId, after.endpointId, after.createdAt)
         == (before.tenant, before.eventId, before.endpointId, before.createdAt)
      && RowValid(after)
  {
  }

  /**
   While a row lives its version never falls, it only gains a token through a
   higher version, a final row never changes again, and the payload is the one
   stored at birth until the row is delivered.
   */
  lemma {:induction false} RowProgress(rows: Rows, run: seq<Statement>, id: string)
    requires Alive(rows, run, id) && RowValid(rows[id])
    ensures id in ExecAll(rows, run)
    ensures
      var before, after := rows[id], ExecAll(rows, run)[id];
      && before.version <= after.version
      && (before.token.None? && after.token.Some? ==> before.version < after.version)
      && (Final(before) ==> after == before)
      && (after.status != Delivered ==> after.payload == before.payload)
      && RowValid(after)
    decreases |run|
  {
    if run != [] {
      RowStep(rows, run[0], id);
      RowProgress(Exec(rows, run[0]).rows, run[1..], id);
    }
  }

  /**
   From birth to claim: whatever runs in between, a claim of a stored delivery
   finds the url and body it was created with, every header, and its own id.
   */
  lemma ClaimsFindTheBirthPayload(rows: Rows, tenant: string, item: NewDelivery, between: seq<Statement>,
                                  claim: Statement)
    requires Exec(rows, Insert(tenant, item)).affected == 1
    requires Alive(Exec(rows, Insert(tenant, item)).rows, between, item.id)
    requires claim.Claim? && claim.id == item.id
    requires Exec(ExecAll(Exec(rows, Insert(tenant, item)).rows, between), claim).affected == 1
    ensures
      var found := Exec(ExecAll(Exec(rows, Insert(tenant, item)).rows, between), claim).rows[item.id];
      && found.tenant == tenant && found.eventId == item.eventId && found.endpointId == item.endpointId
      && found.createdAt == item.createdAt
      && found.payload.url == item.payload.url && found.payload.body == item.payload.body
      && found.payload.headers == item.payload.headers["X-Arandu-Delivery-ID" := item.id]
  {
    var born := Exec(rows, Insert(tenant, item)).rows;
    RowProgress(born, between, item.id);
    IdentityStays(born, between, item.id);
  }

  /** A row keeps its tenant, event, endpoint and birth time as long as it lives. */
  lemma {:induction false} IdentityStays(rows: Rows, run: seq<Statement>, id: string)
    requires Alive(rows, run, id) && RowValid(rows[id])
    ensures id in ExecAll(rows, run)
    ensures var before, after := rows[id], ExecAll(rows, run)[id];
            && after.tenant == before.tenant && after.eventId == before.eventId
            && after.endpointId == before.endpointId && after.createdAt == before.createdAt
    decreases |run|
  {
    if run != [] {
      RowStep(rows, run[0], id);
      IdentityStays(Exec(rows, run[0]).rows, run[1..], id);
    }
  }

  /** A token, once gone from the table, never comes back unless a claim brings it. */
  lemma {:induction false} RetiredTokenStaysRetired(rows: Rows, run: seq<Statement>, token: string)
    requires !TokenInUse(rows, token) && !Issues(run, token)
    ensures !TokenInUse(ExecAll(rows, run), token)
    decreases |run|
  {
    if run != [] {
      assert run[0] in run;
      assert forall s | s in run[1..] :: s in run;
      RetiredTokenStaysRetired(Exec(rows, run[0]).rows, run[1..], token);
    }
  }

  /** A row that carries a token at the end of a run that does not issue it was that very row all along. */
  lemma {:induction false} HeldRowIsUntouched(rows: Rows, run: seq<Statement>, id: string, token: string)
    requires !Issues(run, token)
    requires id in ExecAll(rows, run) && ExecAll(rows, run)[id].token == Some(token)
    ensures id in rows && rows[id] == ExecAll(rows, run)[id]
    decreases |run|
  {
    if run != [] {
      var next := Exec(rows, run[0]).rows;
      assert forall s | s in run[1..] :: s in run;
      HeldRowIsUntouched(next, run[1..], id, token);
      assert run[0] in run;
    }
  }

  /** While a claim's lease lasts, no other claim takes its row: until its own outcome the row stands as claimed. */
  lemma {:induction false} LeaseExcludesClaims(rows: Rows, run: seq<Statement>, id: string, token: string, until: Time)
    requires Alive(rows, run, id) && RowValid(rows[id])
    requires rows[id].token == Some(token) && rows[id].lease == Some(until)
    requires forall s | s in run && s.Claim? && s.id == id :: s.now < until
    requires forall s | s in run && (s.Complete? || s.Fail?) && s.id == id :: s.token != token
    ensures id in ExecAll(rows, run) && ExecAll(rows, run)[id] == rows[id]
    decreases |run|
  {
    if run != [] {
      assert run[0] in run && forall s | s in run[1..] :: s in run;
      LeaseExcludesClaims(Exec(rows, run[0]).rows, run[1..], id, token, until);
    }
  }

  // ---------------------------------------------------------------- fencing

  /** An outcome statement that changed its row. */
  predicate Effective(rows: Rows, s: Statement) {
    (s.Complete? || s.Fail?) && Exec(rows, s).affected == 1
  }

  /**
   An outcome that changes anything carries the token and version the row has at
   that moment; any other changes nothing.
   */
  lemma OutcomesAreFenced(rows: Rows, s: Statement)
    requires s.Complete? || s.Fail?
    ensures Exec(rows, s).rows != rows ==> Current(rows, s.tenant, s.id, s.token, s.version)
    ensures Current(rows, s.tenant, s.id, s.token, s.version) ==> Effective(rows, s) && Exec(rows, s).rows != rows
    ensures forall id | id in rows && id != s.id :: id in Exec(rows, s).rows && Exec(rows, s).rows[id] == rows[id]
  {
    if Current(rows, s.tenant, s.id, s.token, s.version) {
      assert Exec(rows, s).rows[s.id].token.None?;
    }
  }

  /**
   Two effective outcomes of one delivery, whatever ran in between: the earlier
   one was a retryable failure and carried a smaller version. So at most one
   Complete takes effect, and nothing takes effect after it.
   */
  lemma OutcomesAreOrdered(rows: Rows, first: Statement, between: seq<Statement>, second: Statement)
    requires Valid(rows) && Effective(rows, first) && (second.Complete? || second.Fail?) && second.id == first.id
    requires Alive(Exec(rows, first).rows, between, first.id)
    requires Effective(ExecAll(Exec(rows, first).rows, between), second)
    ensures first.Fail? && !first.permanent
    ensures first.version < second.version
  {
    RowStep(rows, first, first.id);
    RowProgress(Exec(rows, first).rows, between, first.id);
  }

  /**
   A claim decides at most one outcome in the whole run, even if its row is
   pruned and a row of the same id is created again.
   */
  lemma ClaimDecidesOnce(rows: Rows, first: Statement, between: seq<Statement>, second: Statement)
    requires Valid(rows) && Effective(rows, first)
    requires (second.Complete? || second.Fail?) && second.token == first.token
    requires !Issues(between, first.token)
    ensures !Effective(ExecAll(Exec(rows, first).rows, between), second)
  {
    var after := Exec(rows, first).rows;
    assert !TokenInUse(after, first.token);
    RetiredTokenStaysRetired(after, between, first.token);
  }

  /**
   The three statements of Claim with other workers' statements between them.
   If the fence read finds the token, the Find in the middle read the very row
   the update wrote: the token was current at that point.
   */
  lemma ClaimReadsItsOwnRow(rows: Rows, claim: Statement, first: seq<Statement>, second: seq<Statement>)
    requires Valid(rows) && claim.Claim? && Exec(rows, claim).affected == 1
    requires !TokenInUse(rows, claim.token) && !Issues(first, claim.token) && !Issues(second, claim.token)
    requires TokenInUse(ExecAll(ExecAll(Exec(rows, claim).rows, first), second), claim.token)
    ensures
      var written := Exec(rows, claim).rows;
      var atFind := ExecAll(written, first);
      var atFence := ExecAll(atFind, second);
      && claim.id in atFind && claim.id in atFence
      && written[claim.id] == atFind[claim.id] == atFence[claim.id]
      && atFind[claim.id].token == Some(claim.token)
      && atFind[claim.id].payload == rows[claim.id].payload
      && atFind[claim.id].version == rows[claim.id].version + 1
  {
    var written := Exec(rows, claim).rows;
    var atFind := ExecAll(written, first);
    var atFence := ExecAll(atFind, second);
    var id :| id in atFence && atFence[id].token == Some(claim.token);
    HeldRowIsUntouched(atFind, second, id, claim.token);
    HeldRowIsUntouched(written, first, id, claim.token);
  }

  // ---------------------------------------------------------------- one row per event and endpoint

  function RowsOf(rows: Rows, tenant: string, eventId: string, endpointId: string): set<string> {
    set id | id in rows && SameKey(rows[id], tenant, eventId, endpointId)
  }

  lemma KeysKeptByStatement(rows: Rows, s: Statement, tenant: string, eventId: string, endpointId: string)
    requires RowsOf(rows, tenant, eventId, endpointId) != {} && !Deletes(s)
    ensures RowsOf(Exec(rows, s).rows, tenant, eventId, endpointId) == RowsOf(rows, tenant, eventId, endpointId)
  {
    var known :| known in RowsOf(rows, tenant, eventId, endpointId);
    assert KeyTaken(rows, tenant, eventId, endpointId);
  }

  /**
   Nothing but Prune and the deletion of the instance removes a row, and no row
   ever changes its event, endpoint or tenant.
   */
  lemma {:induction false} KeysAreKept(rows: Rows, run: seq<Statement>, tenant: string, eventId: string,
                                       endpointId: string)
    requires RowsOf(rows, tenant, eventId, endpointId) != {}
    requires forall s | s in run :: !Deletes(s)
    ensures RowsOf(ExecAll(rows, run), tenant, eventId, endpointId) == RowsOf(rows, tenant, eventId, endpointId)
    decreases |run|
  {
    if run != [] {
      assert run[0] in run;
      KeysKeptByStatement(rows, run[0], tenant, eventId, endpointId);
      assert forall s | s in run[1..] :: s in run;
      KeysAreKept(Exec(rows, run[0]).rows, run[1..], tenant, eventId, endpointId);
    }
  }

  /** No other insert of the run claims this delivery's id for a different event or endpoint. */
  predicate OwnsId(run: seq<Statement>, tenant: string, item: NewDelivery) {
    forall s | s in run && s.Insert? && s.item.id == item.id ::
      s.tenant == tenant && s.item.eventId == item.eventId && s.item.endpointId == item.endpointId
  }

  lemma OneRowPerKey(rows: Rows, tenant: string, eventId: string, endpointId: string)
    requires UniqueKeys(rows) && RowsOf(rows, tenant, eventId, endpointId) != {}
    ensures |RowsOf(rows, tenant, eventId, endpointId)| == 1
  {
    var id :| id in RowsOf(rows, tenant, eventId, endpointId);
    assert RowsOf(rows, tenant, eventId, endpointId) == {id};
  }

  /** An insert leaves a row for its key, unless its id already stands for another key. */
  lemma InsertLeavesARow(rows: Rows, tenant: string, item: NewDelivery)
    ensures RowsOf(Exec(rows, Insert(tenant, item)).rows, tenant, item.eventId, item.endpointId) != {}
            <==> RowsOf(rows, tenant, item.eventId, item.endpointId) != {} || item.id !in rows
  {
    var after := Exec(rows, Insert(tenant, item)).rows;
    if KeyTaken(rows, tenant, item.eventId, item.endpointId) {
      var id :| id in rows && SameKey(rows[id], tenant, item.eventId, item.endpointId);
      assert id in RowsOf(rows, tenant, item.eventId, item.endpointId);
    } else if item.id !in rows {
      assert item.id in RowsOf(after, tenant, item.eventId, item.endpointId);
    }
  }

  lemma UniqueKeysKept(rows: Rows, s: Statement)
    requires UniqueKeys(rows)
    ensures UniqueKeys(Exec(rows, s).rows)
  {
  }

  /** A statement other than the owner's insert does not bring the id into the table. */
  lemma IdStaysFree(rows: Rows, s: Statement, tenant: string, item: NewDelivery)
    requires item.id !in rows && OwnsId([s], tenant, item)
    ensures item.id !in Exec(rows, s).rows || RowsOf(Exec(rows, s).rows, tenant, item.eventId, item.endpointId) != {}
  {
    assert s in [s];
    if item.id in Exec(rows, s).rows {
      assert item.id in RowsOf(Exec(rows, s).rows, tenant, item.eventId, item.endpointId);
    }
  }

  /**
   However often one event is created for one endpoint, and whatever other
   statements run in between, except those that remove rows, exactly one row
   stands for it.
   */
  lemma {:induction false} CreateStoresOneRow(rows: Rows, run: seq<Statement>, tenant: string, item: NewDelivery)
    requires UniqueKeys(rows)
    requires RowsOf(rows, tenant, item.eventId, item.endpointId) != {} || item.id !in rows
    requires Insert(tenant, item) in run && OwnsId(run, tenant, item)
    requires forall s | s in run :: !Deletes(s)
    ensures |RowsOf(ExecAll(rows, run), tenant, item.eventId, item.endpointId)| == 1
    decreases |run|
  {
    var s, next := run[0], Exec(rows, run[0]).rows;
    assert s in run && (forall other | other in run[1..] :: other in run);
    UniqueKeysKept(rows, s);
    if RowsOf(rows, tenant, item.eventId, item.endpointId) != {} {
      KeysKeptByStatement(rows, s, tenant, item.eventId, item.endpointId);
    } else if s == Insert(tenant, item) {
      InsertLeavesARow(rows, tenant, item);
    } else {
      IdStaysFree(rows, s, tenant, item);
    }
    if RowsOf(next, tenant, item.eventId, item.endpointId) != {} {
      UniqueKeysKeptByRun(next, run[1..]);
      KeysAreKept(next, run[1..], tenant, item.eventId, item.endpointId);
      OneRowPerKey(ExecAll(next, run[1..]), tenant, item.eventId, item.endpointId);
    } else {
      CreateStoresOneRow(next, run[1..], tenant, item);
    }
  }

  lemma {:induction false} UniqueKeysKeptByRun(rows: Rows, run: seq<Statement>)
    requires UniqueKeys(rows)
    ensures UniqueKeys(ExecAll(rows, run))
    decreases |run|
  {
    if run != [] {
      UniqueKeysKept(rows, run[0]);
      UniqueKeysKeptByRun(Exec(rows, run[0]).rows, run[1..]);
    }
  }
}
