/**
 The alias table: every known way of writing an address leads to one row, and
 the rows of one canonical address are rewritten together.
 */
module AddressMappings {
  import opened Results

  type Time = int

  /** The tenant and instance a caller works in. */
  datatype Scope = Scope(tenant: string, instance: int)

  datatype Slot = Slot(scope: Scope, alias: string)

  datatype Row = Row(phone: string, canonical: string, lid: Option<string>, resolvedAt: Time, expiresAt: Time)

  type Table = map<Slot, Row>

  /** What callers store and get back. */
  datatype Mapping = Mapping(row: Row, aliases: seq<string>)

  predicate Leads(t: Table, scope: Scope, canonical: string, slot: Slot) {
    slot in t && slot.scope == scope && t[slot].canonical == canonical
  }

  function Without(t: Table, scope: Scope, canonical: string): Table {
    map slot | slot in t && !Leads(t, scope, canonical, slot) :: t[slot]
  }

  function AliasesOf(t: Table, scope: Scope, canonical: string): set<string> {
    set slot | slot in t && Leads(t, scope, canonical, slot) :: slot.alias
  }

  /** The table once the first `n` aliases of a mapping are written; empty ones are skipped. */
  function Written(t: Table, scope: Scope, m: Mapping, n: nat): Table
    requires n <= |m.aliases|
  {
    if n == 0 then t
    else
      var before := Written(t, scope, m, n - 1);
      if m.aliases[n - 1] == "" then before else before[Slot(scope, m.aliases[n - 1]) := m.row]
  }

  function Upserted(t: Table, scope: Scope, m: Mapping): Table {
    Written(Without(t, scope, m.row.canonical), scope, m, |m.aliases|)
  }

  /** The aliases a mapping asks for. */
  function Given(m: Mapping): set<string> {
    set alias | alias in m.aliases && alias != ""
  }

  lemma {:induction false} WrittenRows(t: Table, scope: Scope, m: Mapping, n: nat, slot: Slot)
    requires n <= |m.aliases|
    ensures var given := slot.scope == scope && slot.alias != "" && slot.alias in m.aliases[..n];
            var after := Written(t, scope, m, n);
      && (slot in after <==> given || slot in t)
      && (given ==> after[slot] == m.row)
      && (!given && slot in t ==> after[slot] == t[slot])
  {
    if n > 0 {
      WrittenRows(t, scope, m, n - 1, slot);
      assert m.aliases[..n] == m.aliases[..n - 1] + [m.aliases[n - 1]];
    }
  }

  /** Row by row: the given aliases lead to the mapping, its other aliases are gone, and the rest stands. */
  lemma UpsertedRows(t: Table, scope: Scope, m: Mapping, slot: Slot)
    ensures var given := slot.scope == scope && slot.alias in Given(m);
            var after := Upserted(t, scope, m);
      && (slot in after <==> given || (slot in t && !Leads(t, scope, m.row.canonical, slot)))
      && (given ==> after[slot] == m.row)
      && (!given && slot in after ==> after[slot] == t[slot])
  {
    WrittenRows(Without(t, scope, m.row.canonical), scope, m, |m.aliases|, slot);
    assert m.aliases[..|m.aliases|] == m.aliases;
  }

  /**
   After an upsert the aliases of the address are exactly the non-empty ones
   given; every other address keeps its aliases except those taken over, and
   other instances keep everything.
   */
  lemma UpsertSetsTheAliases(t: Table, scope: Scope, m: Mapping, other: Scope, canonical: string)
    ensures AliasesOf(Upserted(t, scope, m), scope, m.row.canonical) == Given(m)
    ensures canonical != m.row.canonical ==>
              AliasesOf(Upserted(t, scope, m), scope, canonical) == AliasesOf(t, scope, canonical) - Given(m)
    ensures other != scope ==> AliasesOf(Upserted(t, scope, m), other, canonical) == AliasesOf(t, other, canonical)
  {
    UpsertedAlias(t, scope, m);
    if other != scope {
      UpsertedElsewhere(t, scope, m, other, canonical);
    }
    if canonical != m.row.canonical {
      UpsertedElsewhere(t, scope, m, scope, canonical);
    }
  }

  lemma UpsertedAlias(t: Table, scope: Scope, m: Mapping)
    ensures AliasesOf(Upserted(t, scope, m), scope, m.row.canonical) == Given(m)
  {
    var after := Upserted(t, scope, m);
    forall alias ensures alias in AliasesOf(after, scope, m.row.canonical) <==> alias in Given(m) {
      UpsertedRows(t, scope, m, Slot(scope, alias));
    }
  }

  lemma UpsertedElsewhere(t: Table, scope: Scope, m: Mapping, other: Scope, canonical: string)
    requires other != scope || canonical != m.row.canonical
    ensures AliasesOf(Upserted(t, scope, m), other, canonical) ==
            AliasesOf(t, other, canonical) - if other == scope then Given(m) else {}
  {
    var after := Upserted(t, scope, m);
    forall alias
      ensures alias in AliasesOf(after, other, canonical) <==>
              alias in AliasesOf(t, other, canonical) && !(other == scope && alias in Given(m))
    {
      UpsertedRows(t, scope, m, Slot(other, alias));
    }
  }

  // ---------------------------------------------------------------- runs

  datatype Statement =
    | Upsert(scope: Scope, mapping: Mapping)
    | DeleteByCanonical(scope: Scope, canonical: string)
    | DropInstance(scope: Scope)

  function Exec(t: Table, s: Statement): Table {
    match s
    case Upsert(scope, m) => Upserted(t, scope, m)
    case DeleteByCanonical(scope, canonical) => Without(t, scope, canonical)
    case DropInstance(scope) => map slot | slot in t && slot.scope != scope :: t[slot]
  }

  /** Deleting an instance takes all its aliases and none of any other. */
  lemma DeletedInstanceHasNoAliases(t: Table, scope: Scope, slot: Slot)
    ensures var after := Exec(t, DropInstance(scope));
            && (slot in after <==> slot in t && slot.scope != scope)
            && (slot in after ==> after[slot] == t[slot])
  {
  }

  function ExecAll(t: Table, run: seq<Statement>): Table
    decreases |run|
  {
    if run == [] then t else ExecAll(Exec(t, run[0]), run[1..])
  }

  /** All rows of one canonical address say the same, and no alias is empty. */
  ghost predicate Agreeing(t: Table) {
    && (forall a, b | a in t && b in t && a.scope == b.scope && t[a].canonical == t[b].canonical :: t[a] == t[b])
    && (forall a | a in t :: a.alias != "")
  }

  lemma StepAgrees(t: Table, s: Statement)
    requires Agreeing(t)
    ensures Agreeing(Exec(t, s))
  {
    if s.Upsert? {
      forall a | a in Exec(t, s)
        ensures a.alias != "" && (a.scope == s.scope && Exec(t, s)[a].canonical == s.mapping.row.canonical ==>
                                  Exec(t, s)[a] == s.mapping.row)
        ensures Exec(t, s)[a] != s.mapping.row || a.scope != s.scope ==> a in t && Exec(t, s)[a] == t[a]
      {
        UpsertedRows(t, s.scope, s.mapping, a);
      }
    }
  }

  lemma {:induction false} RunAgrees(t: Table, run: seq<Statement>)
    requires Agreeing(t)
    ensures Agreeing(ExecAll(t, run))
    decreases |run|
  {
    if run != [] {
      StepAgrees(t, run[0]);
      RunAgrees(Exec(t, run[0]), run[1..]);
    }
  }

  // ---------------------------------------------------------------- sorted alias lists

  /** Text order, character by character. */
  predicate Less(a: string, b: string) {
    b != "" && (a == "" || a[0] < b[0] || (a[0] == b[0] && Less(a[1..], b[1..])))
  }

  /** The first difference decides; a beginning comes before what it begins. */
  lemma {:induction false} FirstDifferenceDecides(a: string, b: string, i: nat)
    requires i <= |a| && i <= |b| && a[..i] == b[..i]
    requires i < |a| && i < |b| ==> a[i] != b[i]
    ensures Less(a, b) <==> i < |b| && (i == |a| || a[i] < b[i])
    decreases i
  {
    if i > 0 {
      assert a[..i][0] == b[..i][0] && a[1..][..i - 1] == a[..i][1..] == b[..i][1..] == b[1..][..i - 1];
      FirstDifferenceDecides(a[1..], b[1..], i - 1);
    }
  }

  lemma {:induction false} LessIsOneWay(a: string, b: string)
    ensures !(Less(a, b) && Less(b, a))
  {
    if a != "" && b != "" {
      LessIsOneWay(a[1..], b[1..]);
    }
  }

  predicate Sorted(s: seq<string>) {
    forall i, j | 0 <= i < j < |s| :: Less(s[i], s[j])
  }

  predicate Lists(s: seq<string>, aliases: set<string>) {
    Sorted(s) && (forall alias | alias in s :: alias in aliases) && (forall alias | alias in aliases :: alias in s)
  }

  /** Aliases have one sorted list. */
  lemma {:induction false} SortedListIsUnique(a: seq<string>, b: seq<string>, aliases: set<string>)
    requires Lists(a, aliases) && Lists(b, aliases)
    ensures a == b
    decreases |a|
  {
    assert a != [] ==> a[0] in b;
    assert b != [] ==> b[0] in a;
    if a != [] {
      assert a[0] in b && b[0] in a;
      var i :| 0 <= i < |b| && b[i] == a[0];
      var j :| 0 <= j < |a| && a[j] == b[0];
      LessIsOneWay(a[0], b[0]);
      assert a[0] == b[0];
      LessIsOneWay(a[0], a[0]);
      TailLists(a, aliases);
      TailLists(b, aliases);
      SortedListIsUnique(a[1..], b[1..], aliases - {a[0]});
      assert a == [a[0]] + a[1..] && b == [b[0]] + b[1..];
    }
  }

  lemma {:induction false} LessIsTotal(a: string, b: string)
    ensures a == b || Less(a, b) || Less(b, a)
  {
    if a != "" && b != "" && a[0] == b[0] {
      LessIsTotal(a[1..], b[1..]);
      assert a == [a[0]] + a[1..] && b == [b[0]] + b[1..];
    }
  }

  lemma {:induction false} LessGoesOn(a: string, b: string, c: string)
    requires Less(a, b) && Less(b, c)
    ensures Less(a, c)
  {
    if a != "" && a[0] == b[0] == c[0] {
      LessGoesOn(a[1..], b[1..], c[1..]);
    }
  }

  /** Every set of aliases has a sorted list. */
  lemma {:induction false} SortedListExists(aliases: set<string>)
    ensures exists s :: Lists(s, aliases)
    decreases |aliases|
  {
    if aliases == {} {
      assert Lists([], aliases);
    } else {
      var least := LeastAlias(aliases);
      SortedListExists(aliases - {least});
      var rest :| Lists(rest, aliases - {least});
      forall j | 0 <= j < |rest| ensures Less(least, rest[j]) {
        assert rest[j] in rest;
      }
      assert Lists([least] + rest, aliases);
    }
  }

  lemma {:induction false} LeastAlias(aliases: set<string>) returns (least: string)
    requires aliases != {}
    ensures least in aliases && forall other | other in aliases && other != least :: Less(least, other)
    decreases |aliases|
  {
    least :| least in aliases;
    if aliases != {least} {
      var best := LeastAlias(aliases - {least});
      LessIsTotal(least, best);
      var any := least;
      least := if Less(any, best) then any else best;
      forall other | other in aliases && other != least ensures Less(least, other) {
        if other != any && other != best && least == any {
          LessGoesOn(any, best, other);
        }
      }
    }
  }

  lemma TailLists(s: seq<string>, aliases: set<string>)
    requires Lists(s, aliases) && s != []
    ensures Lists(s[1..], aliases - {s[0]})
  {
    LessIsOneWay(s[0], s[0]);
    forall alias | alias in aliases && alias != s[0] ensures alias in s[1..] {
      var i :| 0 <= i < |s| && s[i] == alias;
      assert s[1..][i - 1] == alias;
    }
  }

  // ---------------------------------------------------------------- the repository

  datatype Error = NotFound | DatabaseError

  class Repository {
    var table: Table

    constructor ()
      ensures table == map[]
    {
      table := map[];
    }

    /** Statements of others. */
    method Others(run: seq<Statement>)
      modifies this
      ensures table == ExecAll(old(table), run)
    {
      for i := 0 to |run|
        invariant ExecAll(table, run[i..]) == ExecAll(old(table), run)
      {
        table := Exec(table, run[i]);
        assert run[i..][1..] == run[i + 1..];
      }
    }

    /**
     Rewrites the rows of one address. When a statement fails, here the
     `failAt`-th, the transaction leaves nothing of it behind.
     */
    method Upsert(scope: Scope, m: Mapping, failAt: Option<nat>) returns (r: Result<(), Error>)
      modifies this
      ensures r.Ok? ==> table == Upserted(old(table), scope, m)
      ensures r.Ok? ==> AliasesOf(table, scope, m.row.canonical) == Given(m)
      ensures r.Err? ==> table == old(table)
      ensures r == Err(DatabaseError) <==>
              && failAt.Some?
              && (failAt.value == 0 || (failAt.value <= |m.aliases| && m.aliases[failAt.value - 1] != ""))
      ensures r.Err? ==> r.error == DatabaseError
    {
      UpsertedAlias(table, scope, m);
      var saved := table;
      if failAt == Some(0) {
        return Err(DatabaseError);
      }
      table := Without(table, scope, m.row.canonical);
      ghost var cleared := table;
      for i := 0 to |m.aliases|
        invariant table == Written(cleared, scope, m, i)
        invariant failAt.Some? && 0 < failAt.value <= i ==> m.aliases[failAt.value - 1] == ""
      {
        if m.aliases[i] != "" {
          if failAt == Some(i + 1) {
            table := saved;
            return Err(DatabaseError);
          }
          table := table[Slot(scope, m.aliases[i]) := m.row];
        }
      }
      r := Ok(());
    }

    /**
     Reads the row of an alias and then, in a second statement, the aliases of
     the address it leads to; `listed` is what that statement returns, in order.
     */
    method FindByAlias(scope: Scope, alias: string, between: seq<Statement>, listed: seq<string>)
      returns (r: Result<Mapping, Error>)
      requires Slot(scope, alias) in table ==>
              Lists(listed, AliasesOf(ExecAll(table, between), scope, table[Slot(scope, alias)].canonical))
      modifies this
      ensures r.Ok? <==> Slot(scope, alias) in old(table)
      ensures r.Err? ==> r == Err(NotFound) && table == old(table)
      ensures r.Ok? ==> r.value.row == old(table)[Slot(scope, alias)] && table == ExecAll(old(table), between)
      ensures r.Ok? ==> Lists(r.value.aliases, AliasesOf(table, scope, r.value.row.canonical))
      ensures r.Ok? && between == [] ==> alias in r.value.aliases
    {
      if Slot(scope, alias) !in table {
        return Err(NotFound);
      }
      var row := table[Slot(scope, alias)];
      Others(between);
      var aliases := [];
      for i := 0 to |listed|
        invariant aliases == listed[..i]
      {
        aliases := aliases + [listed[i]];
      }
      if between == [] {
        assert Leads(table, scope, row.canonical, Slot(scope, alias));
        assert alias in AliasesOf(table, scope, row.canonical);
      }
      r := Ok(Mapping(row, aliases));
    }

    method DeleteByCanonicalJid(scope: Scope, canonical: string)
      modifies this
      ensures table == Without(old(table), scope, canonical)
      ensures AliasesOf(table, scope, canonical) == {}
      ensures table == map slot | slot in old(table)
              && !(slot.scope == scope && old(table)[slot].canonical == canonical)
                                :: old(table)[slot]
    {
      table := Without(table, scope, canonical);
    }
  }

  /** What a lookup finds in a table that stands still. */
  ghost predicate Finds(t: Table, scope: Scope, alias: string, m: Mapping) {
    && Slot(scope, alias) in t
    && m.row == t[Slot(scope, alias)]
    && Lists(m.aliases, AliasesOf(t, scope, m.row.canonical))
  }

  /**
   In every table that repository calls can produce, all aliases of one
   canonical address lead to the same mapping with the same alias list.
   */
  lemma AliasesResolveAlike(run: seq<Statement>, scope: Scope, a: string, b: string, x: Mapping, y: Mapping)
    requires Finds(ExecAll(map[], run), scope, a, x) && Finds(ExecAll(map[], run), scope, b, y)
    ensures x == y <==> x.row.canonical == y.row.canonical
    ensures a in x.aliases && (b in x.aliases <==> x == y)
  {
    var t := ExecAll(map[], run);
    RunAgrees(map[], run);
    assert Leads(t, scope, x.row.canonical, Slot(scope, a)) && Leads(t, scope, y.row.canonical, Slot(scope, b));
    if x.row.canonical == y.row.canonical {
      assert t[Slot(scope, a)] == t[Slot(scope, b)];
      SortedListIsUnique(x.aliases, y.aliases, AliasesOf(t, scope, x.row.canonical));
    }
    assert b in AliasesOf(t, scope, y.row.canonical);
  }

  /** A lookup by any alias given to an upsert returns the mapping stored, with exactly those aliases. */
  lemma LookupAfterUpsert(t: Table, scope: Scope, m: Mapping, alias: string, found: Mapping)
    requires Finds(Upserted(t, scope, m), scope, alias, found) && alias in Given(m)
    ensures found.row == m.row && Lists(found.aliases, Given(m))
  {
    UpsertedRows(t, scope, m, Slot(scope, alias));
    UpsertedAlias(t, scope, m);
  }

  /** A mapping without a usable alias deletes the address. */
  lemma NoAliasesDeletes(t: Table, scope: Scope, m: Mapping)
    requires Given(m) == {}
    ensures Upserted(t, scope, m) == Without(t, scope, m.row.canonical)
  {
    forall slot
      ensures slot in Upserted(t, scope, m) <==> slot in Without(t, scope, m.row.canonical)
      ensures slot in Upserted(t, scope, m) ==> Upserted(t, scope, m)[slot] == t[slot]
    {
      UpsertedRows(t, scope, m, slot);
    }
  }
}
