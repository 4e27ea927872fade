/**
 Handles of the initial contact syncs, one background run per connected
 instance. A handle is registered under a lock; the calls that cancel take
 handles out under the lock and fire their cancel functions after it.
 */
module ContactSyncs {
  datatype Syncs = Syncs(
    entries: map<string, nat>,      // the registered handle of each instance
    home: map<nat, string>,         // the instance of every handle made so far
    live: set<nat>,                 // syncs that have not returned yet
    cancelled: set<nat>,
    held: map<nat, set<nat>>)       // handles taken out by a call that has not fired them yet

  const NO_SYNCS := Syncs(map[], map[], {}, {}, map[])

  datatype Action =
    | Start(instance: string, handle: nat)
    | Take(call: nat, instance: string)
    | TakeAll(call: nat)
    | Fire(call: nat, handle: nat)
    | Return(call: nat)
    | Finish(handle: nat)
    | Clear(handle: nat)
    | ClientGone(handle: nat)

  predicate IsEntry(s: Syncs, h: nat) {
    h in s.home && s.home[h] in s.entries && s.entries[s.home[h]] == h
  }

  predicate Held(s: Syncs, h: nat) {
    exists call | call in s.held :: h in s.held[call]
  }

  function EntriesOf(s: Syncs, instance: string): set<nat> {
    if instance in s.entries then {s.entries[instance]} else {}
  }

  function Next(s: Syncs, a: Action): Syncs {
    match a
    case Start(instance, h) =>
      if h in s.home then s
      else s.(entries := s.entries[instance := h], home := s.home[h := instance], live := s.live + {h},
              cancelled := s.cancelled + EntriesOf(s, instance))
    case Take(call, instance) =>
      if call in s.held then s
      else s.(entries := s.entries - {instance}, held := s.held[call := EntriesOf(s, instance)])
    case TakeAll(call) =>
      if call in s.held then s else s.(entries := map[], held := s.held[call := s.entries.Values])
    case Fire(call, h) =>
      if call !in s.held || h !in s.held[call] then s
      else s.(cancelled := s.cancelled + {h}, held := s.held[call := s.held[call] - {h}])
    case Return(call) =>
      if call !in s.held || s.held[call] != {} then s else s.(held := s.held - {call})
    case Finish(h) => s.(live := s.live - {h})
    case Clear(h) =>
      if h in s.live || !IsEntry(s, h) then s else s.(entries := s.entries - {s.home[h]})
    case ClientGone(h) => s.(cancelled := s.cancelled + {h})
  }

  function NextAll(s: Syncs, run: seq<Action>): Syncs
    decreases |run|
  {
    if run == [] then s else NextAll(Next(s, run[0]), run[1..])
  }

  /** The cancel functions fired in this order, each after the steps that others take first. */
  ghost function FireRun(call: nat, order: seq<nat>, between: seq<seq<Action>>): seq<Action>
    decreases |order|
  {
    if order == [] then []
    else
      var n := |order| - 1;
      FireRun(call, order[..n], between) + (if n < |between| then between[n] else []) + [Fire(call, order[n])]
  }

  lemma {:induction false} NextAllJoins(s: Syncs, first: seq<Action>, second: seq<Action>)
    ensures NextAll(s, first + second) == NextAll(NextAll(s, first), second)
    decreases |first|
  {
    if first == [] {
      assert first + second == second;
    } else {
      assert (first + second)[1..] == first[1..] + second;
      NextAllJoins(Next(s, first[0]), first[1..], second);
    }
  }

  lemma NextAllAppends(s: Syncs, first: seq<Action>, second: seq<Action>, last: Action)
    ensures NextAll(s, first + second + [last]) == Next(NextAll(NextAll(s, first), second), last)
  {
    NextAllJoins(s, first + second, [last]);
    NextAllJoins(s, first, second);
    assert [last][1..] == [];
  }

  function Min(a: nat, b: nat): nat { if a < b then a else b }

  /** A sync that still runs can be reached: it is cancelled, or a call is about to cancel it. */
  predicate OnItsWayOut(s: Syncs, h: nat) {
    h in s.cancelled || Held(s, h)
  }

  ghost predicate AllReachable(s: Syncs) {
    && (forall i | i in s.entries :: IsEntry(s, s.entries[i]) && s.home[s.entries[i]] == i)
    && (forall h | h in s.live :: h in s.home && (IsEntry(s, h) || OnItsWayOut(s, h)))
  }

  /** What was held stays held or is cancelled. */
  lemma HeldUntilFired(s: Syncs, a: Action, h: nat)
    requires OnItsWayOut(s, h)
    ensures OnItsWayOut(Next(s, a), h)
  {
    if Held(s, h) {
      var call :| call in s.held && h in s.held[call];
      assert h in Next(s, a).cancelled || (call in Next(s, a).held && h in Next(s, a).held[call]);
    }
  }

  lemma TakenIsHeld(s: Syncs, a: Action, h: nat)
    requires IsEntry(s, h) && !IsEntry(Next(s, a), h) && !a.Clear?
    ensures OnItsWayOut(Next(s, a), h)
  {
    if a.Take? || a.TakeAll? {
      assert s.entries[s.home[h]] in s.entries.Values;
      assert h in Next(s, a).held[a.call];
    }
  }

  lemma StepKeeps(s: Syncs, a: Action)
    requires AllReachable(s)
    ensures AllReachable(Next(s, a))
  {
    forall h | h in Next(s, a).live
      ensures IsEntry(Next(s, a), h) || OnItsWayOut(Next(s, a), h)
    {
      if h in s.live && !IsEntry(Next(s, a), h) {
        if IsEntry(s, h) { TakenIsHeld(s, a, h); } else { HeldUntilFired(s, a, h); }
      }
    }
  }

  /**
   Over every interleaving, a sync still running is the registered one of its
   instance, or cancelled already, or held by the call about to cancel it.
   */
  lemma {:induction false} RunningSyncsAreReachable(s: Syncs, run: seq<Action>)
    requires AllReachable(s)
    ensures AllReachable(NextAll(s, run))
    decreases |run|
  {
    if run != [] {
      StepKeeps(s, run[0]);
      RunningSyncsAreReachable(Next(s, run[0]), run[1..]);
    }
  }

  /** So no instance ever has two syncs that run on undisturbed. */
  lemma OneSyncPerInstance(run: seq<Action>, a: nat, b: nat)
    requires a in NextAll(NO_SYNCS, run).live && !OnItsWayOut(NextAll(NO_SYNCS, run), a)
    requires b in NextAll(NO_SYNCS, run).live && !OnItsWayOut(NextAll(NO_SYNCS, run), b)
    ensures a in NextAll(NO_SYNCS, run).home && b in NextAll(NO_SYNCS, run).home
    ensures NextAll(NO_SYNCS, run).home[a] == NextAll(NO_SYNCS, run).home[b] ==> a == b
  {
    RunningSyncsAreReachable(NO_SYNCS, run);
  }

  /** A handle that lost its place never gets it back. */
  lemma {:induction false} OutForGood(s: Syncs, run: seq<Action>, h: nat)
    requires h in s.home && !IsEntry(s, h) && (OnItsWayOut(s, h) || h !in s.live)
    ensures var t := NextAll(s, run);
            h in t.home && !IsEntry(t, h) && (OnItsWayOut(t, h) || h !in t.live)
    decreases |run|
  {
    if run != [] {
      if OnItsWayOut(s, h) { HeldUntilFired(s, run[0], h); }
      OutForGood(Next(s, run[0]), run[1..], h);
    }
  }

  /**
   Shutting down reaches every sync: whatever happens after all handles were
   taken out, once no call is left that still holds one, every sync that was
   running then has been cancelled or has returned.
   */
  lemma ShutdownStopsEverySync(run: seq<Action>, call: nat, later: seq<Action>, h: nat)
    requires h in NextAll(NO_SYNCS, run).live && call !in NextAll(NO_SYNCS, run).held
    requires NextAll(Next(NextAll(NO_SYNCS, run), TakeAll(call)), later).held == map[]
    ensures var t := NextAll(Next(NextAll(NO_SYNCS, run), TakeAll(call)), later);
            h in t.cancelled || h !in t.live
  {
    var s := NextAll(NO_SYNCS, run);
    RunningSyncsAreReachable(NO_SYNCS, run);
    if IsEntry(s, h) { TakenIsHeld(s, TakeAll(call), h); } else { HeldUntilFired(s, TakeAll(call), h); }
    OutForGood(Next(s, TakeAll(call)), later, h);
  }

  /**
   A sync that ends never removes its successor: the registered handle stays
   registered until a call takes it out, another one replaces it, or it ends itself.
   */
  lemma {:induction false} OnlyItsOwnEndClearsAnEntry(s: Syncs, run: seq<Action>, h: nat)
    requires AllReachable(s) && IsEntry(s, h)
    requires Clear(h) !in run && forall a | a in run ::
               !a.TakeAll? && !(a.Take? && a.instance == s.home[h]) && !(a.Start? && a.instance == s.home[h])
    ensures IsEntry(NextAll(s, run), h)
    decreases |run|
  {
    if run != [] {
      StepKeeps(s, run[0]);
      assert run[0] in run && forall a | a in run[1..] :: a in run;
      assert Next(s, run[0]).home[h] == s.home[h];
      OnlyItsOwnEndClearsAnEntry(Next(s, run[0]), run[1..], h);
    }
  }

  /** A sync that returned never runs again, and one that was cancelled stays cancelled. */
  lemma {:induction false} EndsAreFinal(s: Syncs, run: seq<Action>, h: nat)
    requires h in s.home
    ensures h !in s.live ==> h !in NextAll(s, run).live
    ensures h in s.cancelled ==> h in NextAll(s, run).cancelled
    decreases |run|
  {
    if run != [] {
      EndsAreFinal(Next(s, run[0]), run[1..], h);
    }
  }

  /** The end of a sync, and the loss of its client, each decide it once and for all. */
  lemma EndedOrCancelledForGood(s: Syncs, run: seq<Action>, h: nat)
    requires h in s.home
    ensures h !in NextAll(Next(s, Finish(h)), run).live
    ensures h in NextAll(Next(s, ClientGone(h)), run).cancelled
  {
    EndsAreFinal(Next(s, Finish(h)), run, h);
    EndsAreFinal(Next(s, ClientGone(h)), run, h);
  }

  class Service {
    var syncs: Syncs

    constructor ()
      ensures syncs == NO_SYNCS
    {
      syncs := NO_SYNCS;
    }

    /** Steps of other goroutines. */
    method Others(steps: seq<Action>)
      modifies this
      ensures syncs == NextAll(old(syncs), steps)
    {
      for i := 0 to |steps|
        invariant NextAll(syncs, steps[i..]) == NextAll(old(syncs), steps)
      {
        syncs := Next(syncs, steps[i]);
        assert steps[i..][1..] == steps[i + 1..];
      }
    }

    /** A new sync takes the place of the one registered for the instance and cancels it. */
    method StartContactSync(instance: string, handle: nat)
      requires AllReachable(syncs) && handle !in syncs.home
      modifies this
      ensures AllReachable(syncs) && syncs == Next(old(syncs), Start(instance, handle))
      ensures syncs.entries == old(syncs).entries[instance := handle]
      ensures syncs.home == old(syncs).home[handle := instance] && syncs.live == old(syncs).live + {handle}
      ensures syncs.cancelled == old(syncs).cancelled
                                 + if instance in old(syncs).entries then {old(syncs).entries[instance]} else {}
      ensures syncs.held == old(syncs).held
      ensures forall h | h in old(syncs).live && old(syncs).home[h] == instance :: OnItsWayOut(syncs, h)
    {
      StepKeeps(syncs, Start(instance, handle));
      forall h | h in syncs.live && syncs.home[h] == instance
        ensures OnItsWayOut(Next(syncs, Start(instance, handle)), h)
      {
        if OnItsWayOut(syncs, h) { HeldUntilFired(syncs, Start(instance, handle), h); }
      }
      var cancelled := syncs.cancelled;
      if instance in syncs.entries {
        cancelled := cancelled + {syncs.entries[instance]};
      }
      syncs := syncs.(entries := syncs.entries[instance := handle], home := syncs.home[handle := instance],
                      live := syncs.live + {handle}, cancelled := cancelled);
    }

    /** Whatever others do in between, the handle taken out is cancelled when the call returns. */
    method CancelContactSync(call: nat, instance: string, between: seq<Action>)
      requires AllReachable(syncs) && call !in syncs.held
      requires forall a | a in between :: !Concerns(a, call)
      modifies this
      ensures AllReachable(syncs) && call !in syncs.held
      ensures forall h | h in old(syncs).live && old(syncs).home[h] == instance ::
                h !in syncs.live || OnItsWayOut(syncs, h)
      ensures instance in old(syncs).entries ==> old(syncs).entries[instance] in syncs.cancelled
      ensures
        var found := if instance in old(syncs).entries then {old(syncs).entries[instance]} else {};
        var taken := old(syncs).(entries := old(syncs).entries - {instance}, held := old(syncs).held[call := found]);
        var t := NextAll(taken, between);
        syncs == t.(cancelled := t.cancelled + found, held := t.held - {call})
    {
      var taken := EntriesOf(syncs, instance);
      var present := instance in syncs.entries;
      var h := if present then syncs.entries[instance] else 0;
      StepKeeps(syncs, Take(call, instance));
      TakenOut(syncs, call, instance, between);
      RunningSyncsAreReachable(Next(syncs, Take(call, instance)), between);
      syncs := syncs.(entries := syncs.entries - {instance}, held := syncs.held[call := taken]);
      Others(between);
      CallKeepsItsHandles(Next(old(syncs), Take(call, instance)), between, call);
      if present {
        StepKeeps(syncs, Fire(call, h));
        FiredStaysOut(old(syncs), syncs, Fire(call, h), instance);
        syncs := syncs.(cancelled := syncs.cancelled + {h}, held := syncs.held[call := syncs.held[call] - {h}]);
      }
      StepKeeps(syncs, Return(call));
      FiredStaysOut(old(syncs), syncs, Return(call), instance);
      syncs := syncs.(held := syncs.held - {call});
    }

    /** Takes every handle out at once and cancels them one by one, with the others running in between. */
    method CancelAllContactSyncs(call: nat, between: seq<seq<Action>>) returns (ghost order: seq<nat>)
      requires AllReachable(syncs) && call !in syncs.held
      requires forall run, a | run in between && a in run :: !Concerns(a, call)
      modifies this
      ensures AllReachable(syncs) && call !in syncs.held
      ensures old(syncs).entries.Values <= syncs.cancelled
      ensures |order| == |old(syncs).entries.Values| && forall h | h in old(syncs).entries.Values :: h in order
      ensures var taken := old(syncs).(entries := map[], held := old(syncs).held[call := old(syncs).entries.Values]);
              var fired := NextAll(taken, FireRun(call, order, between));
              syncs == fired.(held := fired.held - {call})
    {
      var cancels := syncs.entries.Values;
      StepKeeps(syncs, TakeAll(call));
      syncs := syncs.(entries := map[], held := syncs.held[call := cancels]);
      ghost var taken := syncs;
      order := [];
      var pending, turn := cancels, 0;
      while pending != {}
        invariant AllReachable(syncs) && call in syncs.held && syncs.held[call] == pending
        invariant cancels - pending <= syncs.cancelled
        invariant pending <= cancels && |order| == |cancels| - |pending|
        invariant forall h | h in cancels - pending :: h in order
        invariant turn == Min(|order|, |between|)
        invariant syncs == NextAll(taken, FireRun(call, order, between))
      {
        ghost var others := if turn < |between| then between[turn] else [];
        ghost var before := FireRun(call, order, between);
        if turn < |between| {
          RunningSyncsAreReachable(syncs, between[turn]);
          CallKeepsItsHandles(syncs, between[turn], call);
          Others(between[turn]);
          turn := turn + 1;
        }
        var h :| h in pending;
        pending := pending - {h};
        StepKeeps(syncs, Fire(call, h));
        syncs := syncs.(cancelled := syncs.cancelled + {h}, held := syncs.held[call := pending]);
        NextAllAppends(taken, before, others, Fire(call, h));
        assert (order + [h])[..|order|] == order;
        order := order + [h];
      }
      StepKeeps(syncs, Return(call));
      syncs := syncs.(held := syncs.held - {call});
    }

    /** Run by a sync that has ended: clears its own entry and no other. */
    method ClearContactSync(handle: nat)
      requires AllReachable(syncs) && handle in syncs.home && handle !in syncs.live
      modifies this
      ensures AllReachable(syncs) && !IsEntry(syncs, handle)
      ensures forall h | h != handle && IsEntry(old(syncs), h) :: IsEntry(syncs, h)
      ensures syncs == old(syncs).(entries := syncs.entries)
      ensures var instance := old(syncs).home[handle];
              syncs.entries == if instance in old(syncs).entries && old(syncs).entries[instance] == handle
                               then old(syncs).entries - {instance} else old(syncs).entries
    {
      StepKeeps(syncs, Clear(handle));
      var instance := syncs.home[handle];
      if instance in syncs.entries && syncs.entries[instance] == handle {
        syncs := syncs.(entries := syncs.entries - {instance});
      }
    }
  }

  /** Only the call itself fires what it holds and returns. */
  predicate Concerns(a: Action, call: nat) {
    (a.Take? || a.TakeAll? || a.Fire? || a.Return?) && a.call == call
  }

  lemma {:induction false} CallKeepsItsHandles(s: Syncs, run: seq<Action>, call: nat)
    requires call in s.held && forall a | a in run :: !Concerns(a, call)
    ensures call in NextAll(s, run).held && NextAll(s, run).held[call] == s.held[call]
    ensures s.cancelled <= NextAll(s, run).cancelled
    decreases |run|
  {
    if run != [] {
      assert run[0] in run && forall a | a in run[1..] :: a in run;
      CallKeepsItsHandles(Next(s, run[0]), run[1..], call);
    }
  }

  lemma TakenOut(s: Syncs, call: nat, instance: string, run: seq<Action>)
    requires AllReachable(s) && call !in s.held
    ensures forall h | h in s.live && s.home[h] == instance ::
              var t := NextAll(Next(s, Take(call, instance)), run);
              OnItsWayOut(t, h) || h !in t.live
  {
    forall h | h in s.live && s.home[h] == instance
      ensures var t := NextAll(Next(s, Take(call, instance)), run); OnItsWayOut(t, h) || h !in t.live
    {
      if IsEntry(s, h) { TakenIsHeld(s, Take(call, instance), h); } else { HeldUntilFired(s, Take(call, instance), h); }
      OutForGood(Next(s, Take(call, instance)), run, h);
    }
  }

  lemma FiredStaysOut(before: Syncs, s: Syncs, a: Action, instance: string)
    requires forall h | h in before.live :: h in before.home
    requires forall h | h in before.live && before.home[h] == instance :: h !in s.live || OnItsWayOut(s, h)
    requires a.Fire? || a.Return?
    ensures forall h | h in before.live && before.home[h] == instance ::
            h !in Next(s, a).live || OnItsWayOut(Next(s, a), h)
  {
    forall h | h in before.live && before.home[h] == instance && OnItsWayOut(s, h)
      ensures OnItsWayOut(Next(s, a), h)
    {
      HeldUntilFired(s, a, h);
    }
  }
}
