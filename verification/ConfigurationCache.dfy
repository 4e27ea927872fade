/**
 The dispatcher's short-lived memory of webhook configurations, in front of a
 table that this process and others write. A lookup that misses reads the table
 and stores what it read in two separate steps.
 */
module ConfigurationCache {
  import opened Results

  type Time = int
  type Key = int

  datatype Config = Config(url: string, enabled: bool, events: map<string, bool>)

  /** A remembered answer, also the one that there is no configuration. */
  datatype Entry = Entry(value: Option<Config>, readAt: Time, filledAt: Time)

  /** A lookup that has read the table and not stored its answer yet. */
  datatype Fill = Fill(key: Key, value: Option<Config>, readAt: Time)

  /** A read of the table, as it happened. */
  datatype Read = Read(key: Key, value: Option<Config>, at: Time)

  datatype Answer = Answer(key: Key, value: Option<Config>, readAt: Time, filledAt: Time, at: Time)

  datatype World = World(
    ttl: Time, now: Time, table: map<Key, Config>, cache: map<Key, Entry>, fills: map<nat, Fill>,
    log: seq<Read>, answers: seq<Answer>)

  const DEFAULT_TTL := 5_000_000_000

  function NewWorld(ttl: Time, table: map<Key, Config>, now: Time): World {
    World(if ttl == 0 then DEFAULT_TTL else ttl, now, table, map[], map[], [], [])
  }

  /** A window that is not positive turns the cache off: every lookup reads through. */
  predicate Enabled(w: World) { w.ttl > 0 }

  function Held(w: World, key: Key): Option<Config> {
    if key in w.table then Some(w.table[key]) else None
  }

  predicate Remembered(w: World, key: Key) {
    Enabled(w) && key in w.cache && w.now < w.cache[key].filledAt + w.ttl
  }

  datatype Action =
    | Tick(to: Time)
    | Write(key: Key, config: Option<Config>)
    | Forget(key: Key)
    | Lookup(caller: nat, key: Key)
    | Remember(caller: nat, stored: bool)

  function Put(table: map<Key, Config>, key: Key, config: Option<Config>): map<Key, Config> {
    if config.Some? then table[key := config.value] else table - {key}
  }

  function LookupStep(w: World, caller: nat, key: Key): World {
    if caller in w.fills then w
    else if Remembered(w, key) then
      var e := w.cache[key];
      w.(answers := w.answers + [Answer(key, e.value, e.readAt, e.filledAt, w.now)])
    else
      var read := w.(log := w.log + [Read(key, Held(w, key), w.now)]);
      if Enabled(w) then read.(fills := w.fills[caller := Fill(key, Held(w, key), w.now)])
      else read.(answers := w.answers + [Answer(key, Held(w, key), w.now, w.now, w.now)])
  }

  /** The answer goes to the caller whether or not the cache took it. */
  function RememberStep(w: World, caller: nat, stored: bool): World {
    if caller !in w.fills then w
    else
      var f := w.fills[caller];
      w.(fills := w.fills - {caller},
         cache := if stored then w.cache[f.key := Entry(f.value, f.readAt, w.now)] else w.cache,
         answers := w.answers + [Answer(f.key, f.value, f.readAt, w.now, w.now)])
  }

  function Next(w: World, a: Action): World {
    match a
    case Tick(to) => w.(now := if to > w.now then to else w.now)
    case Write(key, config) => w.(table := Put(w.table, key, config))
    case Forget(key) => w.(cache := w.cache - {key})
    case Lookup(caller, key) => LookupStep(w, caller, key)
    case Remember(caller, stored) => RememberStep(w, caller, stored)
  }

  /** A write is to one configuration, a tick moves the clock on, and nothing else does either. */
  lemma WhatStepsLeave(w: World, a: Action, key: Key)
    ensures Held(Next(w, a), key) == if a.Write? && a.key == key then a.config else Held(w, key)
    ensures Next(w, a).now == if a.Tick? && a.to > w.now then a.to else w.now
    ensures key in w.cache && key !in Next(w, a).cache <==> key in w.cache && a == Forget(key)
    ensures key in Next(w, a).cache && !(a.Remember? && a.stored) ==>
              key in w.cache && Next(w, a).cache[key] == w.cache[key]
  {
  }

  function NextAll(w: World, run: seq<Action>): World
    decreases |run|
  {
    if run == [] then w else NextAll(Next(w, run[0]), run[1..])
  }

  // ---------------------------------------------------------------- answers are recent

  /** The answer was read from the table, and the fill that remembered it is inside the window. */
  ghost predicate Recent(w: World, a: Answer) {
    && Read(a.key, a.value, a.readAt) in w.log
    && a.readAt <= a.filledAt <= a.at
    && (a.at == a.filledAt || a.at < a.filledAt + w.ttl)
  }

  ghost predicate Sourced(w: World) {
    && (forall key | key in w.cache ::
          && Read(key, w.cache[key].value, w.cache[key].readAt) in w.log
          && w.cache[key].readAt <= w.cache[key].filledAt <= w.now)
    && (forall caller | caller in w.fills ::
          var f := w.fills[caller]; Read(f.key, f.value, f.readAt) in w.log && f.readAt <= w.now)
  }

  ghost predicate AllRecent(w: World) {
    forall a | a in w.answers :: Recent(w, a)
  }

  lemma StepKeeps(w: World, a: Action)
    requires Sourced(w) && AllRecent(w)
    ensures Sourced(Next(w, a)) && AllRecent(Next(w, a))
  {
    assert forall r | r in w.log :: r in Next(w, a).log;
    if a.Lookup? && a.caller !in w.fills && !Remembered(w, a.key) {
      var read := Read(a.key, Held(w, a.key), w.now);
      assert Next(w, a).log[|w.log|] == read;
    }
  }

  lemma {:induction false} RunKeeps(w: World, run: seq<Action>)
    requires Sourced(w) && AllRecent(w)
    ensures Sourced(NextAll(w, run)) && AllRecent(NextAll(w, run)) && NextAll(w, run).ttl == w.ttl
    decreases |run|
  {
    if run != [] {
      StepKeeps(w, run[0]);
      RunKeeps(Next(w, run[0]), run[1..]);
    }
  }

  lemma FirstStep(w: World, run: seq<Action>, i: nat)
    requires 0 < i <= |run|
    ensures NextAll(w, run[..i]) == NextAll(Next(w, run[0]), run[1..][..i - 1])
  {
    assert run[..i][0] == run[0] && run[..i][1..] == run[1..][..i - 1];
  }

  /** Some moment of the run at which the table held this value. */
  ghost predicate WasHeld(w: World, run: seq<Action>, key: Key, value: Option<Config>, at: Time) {
    exists i | 0 <= i <= |run| :: NextAll(w, run[..i]).now == at && Held(NextAll(w, run[..i]), key) == value
  }

  /** A logged read tells what the table held at that moment of the run. */
  lemma {:induction false} ReadsAreTrue(w: World, run: seq<Action>, r: Read)
    requires r in NextAll(w, run).log && r !in w.log
    ensures WasHeld(w, run, r.key, r.value, r.at)
    decreases |run|
  {
    var next := Next(w, run[0]);
    if r in next.log {
      assert NextAll(w, run[..0]) == w;
    } else {
      ReadsAreTrue(next, run[1..], r);
      var i :| 0 <= i <= |run[1..]| && NextAll(next, run[1..][..i]).now == r.at
          && Held(NextAll(next, run[1..][..i]), r.key) == r.value;
      FirstStep(w, run, i + 1);
      assert NextAll(w, run[..i + 1]).now == r.at;
    }
  }

  /**
   Over every run, each answer, "not found" included, is what the table held
   when the answer was read, and it is given within the window after the fill
   that remembered it.
   */
  lemma AnswersAreRecent(ttl: Time, table: map<Key, Config>, start: Time, run: seq<Action>, a: Answer)
    requires a in NextAll(NewWorld(ttl, table, start), run).answers
    ensures WasHeld(NewWorld(ttl, table, start), run, a.key, a.value, a.readAt)
    ensures a.readAt <= a.filledAt <= a.at
    ensures a.at == a.filledAt || a.at < a.filledAt + if ttl == 0 then 5_000_000_000 else ttl
  {
    var w := NewWorld(ttl, table, start);
    RunKeeps(w, run);
    ReadsAreTrue(w, run, Read(a.key, a.value, a.readAt));
  }

  // ---------------------------------------------------------------- when a write takes effect

  /** What a lookup that starts now would be told. */
  function Told(w: World, key: Key): Option<Config> {
    if Remembered(w, key) then w.cache[key].value else Held(w, key)
  }

  /** Runs in which nobody writes this configuration. */
  predicate Quiet(run: seq<Action>, key: Key) {
    forall a | a in run :: !(a.Write? && a.key == key)
  }

  /** No lookup of this configuration is between its read and its answer. */
  predicate NoneInFlight(w: World, key: Key) {
    forall caller | caller in w.fills :: w.fills[caller].key != key
  }

  ghost predicate FillsAgree(w: World, key: Key, value: Option<Config>) {
    forall caller | caller in w.fills && w.fills[caller].key == key :: w.fills[caller].value == value
  }

  predicate CacheAgrees(w: World, key: Key, value: Option<Config>) {
    key in w.cache ==> w.cache[key].value == value
  }

  lemma {:induction false} AgreementStays(w: World, run: seq<Action>, key: Key, value: Option<Config>)
    requires Quiet(run, key) && Held(w, key) == value && FillsAgree(w, key, value)
    ensures Held(NextAll(w, run), key) == value && FillsAgree(NextAll(w, run), key, value)
    ensures CacheAgrees(w, key, value) ==> CacheAgrees(NextAll(w, run), key, value)
    decreases |run|
  {
    if run != [] {
      assert run[0] in run && forall a | a in run[1..] :: a in run;
      AgreementStays(Next(w, run[0]), run[1..], key, value);
    }
  }

  /**
   Once a write is committed and its entry forgotten, every later lookup is told
   what was written exactly when no lookup is left in flight that read
   something else before.
   */
  lemma WhenAWriteTakesEffect(w: World, key: Key, value: Option<Config>)
    requires Enabled(w) && Held(w, key) == value && key !in w.cache
    ensures (forall run | Quiet(run, key) :: Told(NextAll(w, run), key) == value) <==> FillsAgree(w, key, value)
  {
    if FillsAgree(w, key, value) {
      forall run | Quiet(run, key) ensures Told(NextAll(w, run), key) == value {
        AgreementStays(w, run, key, value);
      }
    } else {
      var caller :| caller in w.fills && w.fills[caller].key == key && w.fills[caller].value != value;
      var run := [Remember(caller, true)];
      assert run[1..] == [] && NextAll(w, run) == Next(w, run[0]);
      assert Quiet(run, key) && Told(NextAll(w, run), key) != value;
    }
  }

  /**
   A configuration that this process sets is in effect as soon as it has been
   forgotten, whatever ran between the commit and that moment, when no lookup of
   it was in flight at the commit.
   */
  lemma SetTakesEffect(w: World, key: Key, config: Config, between: seq<Action>, later: seq<Action>)
    requires NoneInFlight(w, key)
    requires Quiet(between, key) && Quiet(later, key)
    ensures Told(NextAll(Next(NextAll(Next(w, Write(key, Some(config))), between), Forget(key)), later),
                 key) == Some(config)
  {
    var committed := Next(w, Write(key, Some(config)));
    AgreementStays(committed, between, key, Some(config));
    var forgotten := Next(NextAll(committed, between), Forget(key));
    AgreementStays(forgotten, later, key, Some(config));
  }

  /**
   A failing input: a lookup reads that there is no configuration, one is set and
   forgotten, and then the lookup remembers what it read.
   */
  lemma StraddlingLookupIsStale(key: Key, config: Config, now: Time)
    ensures
      var reading := Next(NewWorld(DEFAULT_TTL, map[], now), Lookup(0, key));
      var done := Next(Next(reading, Write(key, Some(config))), Forget(key));
      var w := Next(done, Remember(0, true));
      Held(w, key) == Some(config) && Told(w, key) == None
  {
  }

  /** What the cache may still say of a configuration that was written elsewhere at `since`. */
  ghost predicate OldOrRight(w: World, key: Key, value: Option<Config>, since: Time) {
    && Held(w, key) == value && FillsAgree(w, key, value)
    && (key in w.cache ==> w.cache[key].value == value || w.cache[key].filledAt <= since)
  }

  lemma StaysOldOrRight(w: World, a: Action, key: Key, value: Option<Config>, since: Time)
    requires OldOrRight(w, key, value, since) && !(a.Write? && a.key == key)
    ensures OldOrRight(Next(w, a), key, value, since)
  {
  }

  lemma {:induction false} RunStaysOldOrRight(w: World, run: seq<Action>, key: Key, value: Option<Config>, since: Time)
    requires OldOrRight(w, key, value, since) && Quiet(run, key)
    ensures OldOrRight(NextAll(w, run), key, value, since) && NextAll(w, run).ttl == w.ttl
    decreases |run|
  {
    if run != [] {
      assert run[0] in run && forall a | a in run[1..] :: a in run;
      StaysOldOrRight(w, run[0], key, value, since);
      RunStaysOldOrRight(Next(w, run[0]), run[1..], key, value, since);
    }
  }

  /**
   A write by another process, which forgets nothing here, is noticed once a
   window has passed since, when no lookup of it was in flight.
   */
  lemma OthersAreNoticed(w: World, key: Key, value: Option<Config>, run: seq<Action>)
    requires Sourced(w) && Quiet(run, key)
    requires NoneInFlight(w, key)
    requires NextAll(Next(w, Write(key, value)), run).now >= w.now + w.ttl
    ensures Told(NextAll(Next(w, Write(key, value)), run), key) == value
  {
    RunStaysOldOrRight(Next(w, Write(key, value)), run, key, value, w.now);
  }

  // ---------------------------------------------------------------- the service

  /** What a caller asks to be stored: `events` only when the request names them. */
  datatype Input = Input(url: Option<string>, enabled: Option<bool>, events: Option<map<string, bool>>)

  datatype Error = InvalidUrl | InvalidEvent | InvalidInput | InstanceNotFound | DatabaseError | ReadFailed

  /** Naming no events at all clears them; naming some changes those and keeps the rest. */
  function Merged(current: map<string, bool>, events: Option<map<string, bool>>): map<string, bool> {
    if events.None? then current else if events.value == map[] then map[] else current + events.value
  }

  /** Event by event: a named event has the named value, any other the value it had; naming none clears all. */
  predicate Merges(events: map<string, bool>, current: Option<Config>, named: Option<map<string, bool>>) {
    if named == Some(map[]) then events == map[]
    else
      && (named.Some? ==> forall e | e in named.value :: e in events && events[e] == named.value[e])
      && (forall e | e in events && (named.Some? ==> e !in named.value) ::
            current.Some? && e in current.value.events && events[e] == current.value.events[e])
      && (current.Some? ==> forall e | e in current.value.events :: e in events)
  }

  function Stored(current: Option<Config>, input: Input): Config
    requires input.url.Some?
  {
    Config(input.url.value, if input.enabled.Some? then input.enabled.value else true,
           Merged(if current.Some? then current.value.events else map[], input.events))
  }

  /** The refusals that come before the transaction; `url` is absent when it does not normalize. */
  function Refusal(input: Input, knownEvents: set<string>, canSign: bool): Option<Error> {
    if input.url.None? then Some(InvalidUrl)
    else if input.events.Some? && !(input.events.value.Keys <= knownEvents) then Some(InvalidEvent)
    else if !canSign && input.enabled != Some(false) then Some(InvalidInput)
    else None
  }

  class Webhooks {
    var world: World

    constructor (ttl: Time, table: map<Key, Config>, now: Time)
      ensures world == World(if ttl == 0 then 5_000_000_000 else ttl, now, table, map[], map[], [], [])
    {
      world := NewWorld(ttl, table, now);
    }

    /** Steps of others. */
    method Others(run: seq<Action>)
      modifies this
      ensures world == NextAll(old(world), run)
    {
      for i := 0 to |run|
        invariant NextAll(world, run[i..]) == NextAll(old(world), run)
      {
        world := Next(world, run[i]);
        assert run[i..][1..] == run[i + 1..];
      }
    }

    /** The row and its events, written in one transaction. */
    method StoreConfiguration(key: Key, input: Input, failAt: Option<nat>) returns (r: Result<Config, Error>)
      requires input.url.Some?
      modifies this
      ensures r.Err? ==> r == Err(DatabaseError) && world == old(world)
      ensures r.Err? <==> failAt == Some(1) || (failAt == Some(2) && input.events.Some?)
      ensures r.Ok? ==> r.value == Stored(Held(old(world), key), input)
      ensures r.Ok? ==> world == Next(old(world), Write(key, Some(r.value)))
    {
      var saved := world;
      var current := Config(input.url.value, if input.enabled.Some? then input.enabled.value else true, map[]);
      if key in world.table {
        current := current.(events := world.table[key].events);
      }
      world := world.(table := world.table[key := current]);
      if failAt == Some(1) {
        world := saved;
        return Err(DatabaseError);
      }
      if input.events.Some? {
        if input.events.value == map[] {
          current := current.(events := map[]);
        } else {
          current := current.(events := current.events + input.events.value);
        }
        world := world.(table := world.table[key := current]);
        if failAt == Some(2) {
          world := saved;
          return Err(DatabaseError);
        }
      }
      r := Ok(current);
    }

    /**
     Stores a configuration and forgets what the cache says of it. The row and
     its events are written together or, when the `failAt`-th statement fails,
     not at all. With no lookup in flight and no other writer in between, the new
     configuration is in effect when the call returns.
     */
    method Set(instance: Option<Key>, input: Input, knownEvents: set<string>, canSign: bool, failAt: Option<nat>,
               between: seq<Action>)
      returns (r: Result<Config, Error>)
      modifies this
      ensures r.Err? ==> world == old(world)
      ensures Refusal(input, knownEvents, canSign).Some? ==> r == Err(Refusal(input, knownEvents, canSign).value)
      ensures Refusal(input, knownEvents, canSign).None? ==>
        && (r == Err(DatabaseError) <==>
              failAt == Some(0)
              || (instance.Some? && (failAt == Some(1) || (failAt == Some(2) && input.events.Some?))))
        && (r == Err(InstanceNotFound) <==> failAt != Some(0) && instance.None?)
        && (r.Err? ==> r.error == DatabaseError || r.error == InstanceNotFound)
      ensures r.Ok? ==>
        && instance.Some? && input.url.Some?
        && r.value == Stored(Held(old(world), instance.value), input)
        && world == Next(NextAll(Next(old(world), Write(instance.value, Some(r.value))), between),
                         Forget(instance.value))
        && instance.value !in world.cache
      ensures r.Ok? ==>
        && r.value.url == input.url.value
        && (input.enabled.Some? ==> r.value.enabled == input.enabled.value) && (input.enabled.None? ==> r.value.enabled)
        && Merges(r.value.events, Held(old(world), instance.value), input.events)
      ensures r.Ok? && between == [] ==>
        world == old(world).(table := old(world).table[instance.value := r.value],
                             cache := old(world).cache - {instance.value})
      ensures r.Ok? && Quiet(between, instance.value) ==> Held(world, instance.value) == Some(r.value)
      ensures r.Ok? && Quiet(between, instance.value)
              && NoneInFlight(old(world), instance.value) ==>
        Told(world, instance.value) == Some(r.value) && FillsAgree(world, instance.value, Some(r.value))
    {
      if input.url.None? {
        return Err(InvalidUrl);
      }
      if input.events.Some? && !(input.events.value.Keys <= knownEvents) {
        return Err(InvalidEvent);
      }
      var enabled := true;
      if input.enabled.Some? {
        enabled := input.enabled.value;
      }
      if enabled && !canSign {
        return Err(InvalidInput);
      }
      if failAt == Some(0) {
        return Err(DatabaseError);
      }
      if instance.None? {
        return Err(InstanceNotFound);
      }
      var key := instance.value;
      ghost var before := world;
      r := StoreConfiguration(key, input, failAt);
      if r.Err? {
        return;
      }
      if Quiet(between, key) {
        HeldStays(world, between, key);
        if NoneInFlight(before, key) {
          AgreementStays(world, between, key, Some(r.value));
        }
      }
      Others(between);
      world := world.(cache := world.cache - {key});
    }

    /**
     Answers from the cache inside the window and otherwise from the table. The
     answer is the table's at the moment of the read even when the cache does
     not take it, and a failed read is not remembered.
     */
    method Lookup(caller: nat, key: Key, readFails: bool, stored: bool, between: seq<Action>)
      returns (r: Result<Option<Config>, Error>)
      requires caller !in world.fills && forall a | a in between :: !(a.Remember? && a.caller == caller)
      modifies this
      ensures
        var w := old(world);
        var hit := w.ttl > 0 && key in w.cache && w.now < w.cache[key].filledAt + w.ttl;
        && (r.Err? <==> readFails && !hit)
        && (r.Ok? ==> r.value == if hit then w.cache[key].value else if key in w.table then Some(w.table[key])
            else None)
        && (r.Ok? && (hit || (!stored && between == [])) ==> world.cache == w.cache)
        && (r.Ok? && !hit && w.ttl <= 0 ==> world.cache == w.cache && world.fills == w.fills)
        && (r.Ok? && (hit || between == []) ==>
              && |world.answers| == |w.answers| + 1 && world.answers[..|w.answers|] == w.answers
              && world.answers[|w.answers|].key == key && world.answers[|w.answers|].value == r.value
              && world.answers[|w.answers|].at == w.now
              && world.log == if hit then w.log else w.log + [Read(key, r.value, w.now)])
      ensures r.Err? || Remembered(old(world), key) ==>
              world.table == old(world).table && world.cache == old(world).cache
      ensures caller !in world.fills
      ensures r.Ok? && !Remembered(old(world), key) && Enabled(old(world)) ==>
        world == Next(NextAll(Next(old(world), Action.Lookup(caller, key)), between), Remember(caller, stored))
      ensures r.Ok? && !Remembered(old(world), key) && Enabled(old(world)) && stored ==>
        key in world.cache && world.cache[key] == Entry(r.value, old(world).now, world.now)
    {
      if Enabled(world) && key in world.cache && world.now < world.cache[key].filledAt + world.ttl {
        var entry := world.cache[key];
        world := Next(world, Action.Lookup(caller, key));
        return Ok(entry.value);
      }
      if readFails {
        return Err(ReadFailed);
      }
      var value := Held(world, key);
      world := Next(world, Action.Lookup(caller, key));
      if Enabled(world) {
        FillStays(world, between, caller);
        Others(between);
        world := Next(world, Remember(caller, stored));
      }
      r := Ok(value);
    }
  }

  lemma {:induction false} HeldStays(w: World, run: seq<Action>, key: Key)
    requires Quiet(run, key)
    ensures Held(NextAll(w, run), key) == Held(w, key)
    decreases |run|
  {
    if run != [] {
      assert run[0] in run && forall a | a in run[1..] :: a in run;
      HeldStays(Next(w, run[0]), run[1..], key);
    }
  }

  lemma {:induction false} FillStays(w: World, run: seq<Action>, caller: nat)
    requires caller in w.fills && forall a | a in run :: !(a.Remember? && a.caller == caller)
    ensures caller in NextAll(w, run).fills && NextAll(w, run).fills[caller] == w.fills[caller]
    decreases |run|
  {
    if run != [] {
      assert run[0] in run && forall a | a in run[1..] :: a in run;
      FillStays(Next(w, run[0]), run[1..], caller);
    }
  }
}
