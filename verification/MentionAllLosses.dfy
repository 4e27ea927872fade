/**
 What durable mention-all does not promise: exactly when a process ends without
 a result, and exactly when its sends and its recorded outcome can disagree.
 */
module MentionAllLosses {
  import opened MentionAll
  import opened MentionAllProperties

  // ---------------------------------------------------------------- lost outcomes

  /**
   The removals that record no outcome: of an expired or undecodable snapshot, by
   the cleanup job, with its instance.
   */
  predicate Discards(s: State, a: Action, p: string) {
    p in s.db.snapshots &&
    match a
    case Drop(job, commit) =>
      commit && At(s, job, Process) && s.runs[job].process == p && s.runs[job].progress.Dropping?
    case Expire(job, commit) =>
      commit && At(s, job, Cleanup) && s.runs[job].process == p && s.runs[job].progress.Expiring?
    case DeleteInstance(instanceId) => s.db.snapshots[p].instanceId == instanceId
    case _ => false
  }

  predicate Discarded(s: State, run: seq<Action>, p: string)
    decreases |run|
  {
    run != [] && (Discards(s, run[0], p) || Discarded(Next(s, run[0]), run[1..], p))
  }

  /** The process was enqueued, its snapshot is gone, and no outcome was committed. */
  predicate Lost(s: State, p: string) {
    p in s.history && p !in s.db.snapshots && !Decided(s.db, p)
  }

  /** The queue's own moves and the lookups of the handlers leave the snapshots alone. */
  lemma QueueKeepsSnapshots(s: State, a: Action)
    requires OfQueue(a)
    ensures Next(s, a).db.snapshots == s.db.snapshots
  {
  }

  lemma LookupsKeepSnapshots(s: State, a: Action)
    requires LooksUp(a) || a.Send?
    ensures Next(s, a).db.snapshots == s.db.snapshots
  {
  }

  lemma EnqueueRecords(s: State, process: string, snap: Snapshot, p: string)
    ensures p in s.db.snapshots ==> p in EnqueueStep(s, process, snap).db.snapshots
    ensures p !in s.history && p in EnqueueStep(s, process, snap).history ==>
            p in EnqueueStep(s, process, snap).db.snapshots
  {
  }

  lemma OthersKeepSnapshots(s: State, a: Action, p: string)
    requires !a.Finish? && !a.Drop? && !a.Expire? && !a.DeleteInstance? && p in s.db.snapshots
    ensures p in Next(s, a).db.snapshots
  {
    if a.Enqueue? {
      EnqueueRecords(s, a.process, a.snap, p);
    } else if OfQueue(a) {
      QueueKeepsSnapshots(s, a);
    } else if LooksUp(a) || a.Send? {
      LookupsKeepSnapshots(s, a);
    }
  }

  lemma RemovalsDiscard(s: State, job: string, commit: bool, p: string)
    requires p in s.db.snapshots
    ensures p !in DropStep(s, job, commit).db.snapshots ==> Discards(s, Drop(job, commit), p)
    ensures p !in ExpireStep(s, job, commit).db.snapshots ==> Discards(s, Expire(job, commit), p)
  {
  }

  lemma OnlyClosingRemoves(s: State, a: Action, p: string)
    requires p in s.db.snapshots && p !in Next(s, a).db.snapshots
    ensures Discards(s, a, p) || a.Finish?
  {
    match a
    case Drop(job, commit) => RemovalsDiscard(s, job, commit, p);
    case Expire(job, commit) => RemovalsDiscard(s, job, commit, p);
    case Finish(_, _) =>
    case DeleteInstance(_) =>
    case _ => OthersKeepSnapshots(s, a, p);
  }

  lemma FinishDecides(s: State, job: string, commit: bool, p: string)
    requires p in s.db.snapshots && p !in FinishStep(s, job, commit).db.snapshots
    ensures Decided(FinishStep(s, job, commit).db, p)
  {
    var outcomes := FinishStep(s, job, commit).db.outcomes;
    assert outcomes[|outcomes| - 1] in outcomes && outcomes[|outcomes| - 1].process == p;
  }

  lemma DiscardRemoves(s: State, a: Action, p: string)
    requires Discards(s, a, p)
    ensures p !in Next(s, a).db.snapshots && Next(s, a).db.outcomes == s.db.outcomes
  {
  }

  lemma {:induction false} GoneStaysGone(s: State, run: seq<Action>, p: string)
    requires p in s.history && p !in s.db.snapshots
    ensures p in NextAll(s, run).history && p !in NextAll(s, run).db.snapshots && !Discarded(s, run, p)
    decreases |run|
  {
    if run != [] {
      HistoryStays(s, run[0], p);
      if p in Next(s, run[0]).db.snapshots {
        NoSnapshotReturns(s, run[0], p);
      }
      GoneStaysGone(Next(s, run[0]), run[1..], p);
    }
  }

  /** What a step from an accounted process leaves: accounted for still, or discarded. */
  lemma StepLosesByDiscard(s: State, a: Action, p: string)
    requires Inv(s) && !Lost(s, p)
    ensures Lost(Next(s, a), p) <==> Discards(s, a, p)
  {
    var t := Next(s, a);
    if Discards(s, a, p) {
      DiscardRemoves(s, a, p);
      HistoryStays(s, a, p);
    } else if p in s.db.snapshots && p !in t.db.snapshots {
      OnlyClosingRemoves(s, a, p);
      FinishDecides(s, a.job, a.commit, p);
    } else if p !in s.history && p in t.history {
      if a.Enqueue? {
        EnqueueRecords(s, a.process, a.snap, p);
      } else {
        HistoryIsOnlyEnqueued(s, a);
      }
    } else if Decided(s.db, p) {
      DecidedStays(s, [a], p);
      assert [a][1..] == [] && NextAll(t, []) == t && NextAll(s, [a]) == t;
    }
  }

  lemma DecidedStays(s: State, run: seq<Action>, p: string)
    requires Decided(s.db, p)
    ensures Decided(NextAll(s, run).db, p)
  {
    OutcomesOnlyGrow(s, run);
    var o :| o in s.db.outcomes && o.process == p;
    assert o in NextAll(s, run).db.outcomes;
  }

  /**
   What became of a process, over every run: its snapshot is still stored
   exactly when it was neither discarded nor decided.
   */
  lemma {:induction false} StoredUntilDecidedOrDiscarded(s: State, run: seq<Action>, p: string)
    requires Inv(s) && !Lost(s, p)
    ensures var t := NextAll(s, run);
            p in t.history ==> (p in t.db.snapshots <==> !Discarded(s, run, p) && !Decided(t.db, p))
    decreases |run|
  {
    if run != [] {
      var next := Next(s, run[0]);
      StepLosesByDiscard(s, run[0], p);
      StepKeeps(s, run[0]);
      if Lost(next, p) {
        GoneStaysGone(next, run[1..], p);
      } else {
        StoredUntilDecidedOrDiscarded(next, run[1..], p);
      }
    }
  }

  /** Nothing else loses a process: without a discard it is pending or has its outcome, never neither and never both. */
  lemma NothingElseLosesAProcess(run: seq<Action>, p: string)
    requires p in NextAll(START, run).history && !Discarded(START, run, p)
    ensures p in NextAll(START, run).db.snapshots <==> !Decided(NextAll(START, run).db, p)
  {
    StoredUntilDecidedOrDiscarded(START, run, p);
  }

  /** The job's attempt has read the snapshot and may still commit an outcome. */
  predicate Holds(s: State, job: string, p: string) {
    && job in s.runs && s.runs[job].kind == Process && s.runs[job].process == p
    && (s.runs[job].progress.Loaded? || s.runs[job].progress.Unsent?
        || s.runs[job].progress.Executed? || s.runs[job].progress.Failed?)
  }

  predicate AttemptHolds(s: State, p: string) {
    exists job | job in s.runs :: Holds(s, job, p)
  }

  /** Discards of the run never overtake an attempt that holds the snapshot. */
  predicate NoOvertaking(s: State, run: seq<Action>, p: string)
    decreases |run|
  {
    run == [] || ((Discards(s, run[0], p) ==> !AttemptHolds(s, p)) && NoOvertaking(Next(s, run[0]), run[1..], p))
  }

  lemma QueueTakesUpNothing(s: State, a: Action, job: string, p: string)
    requires OfQueue(a) || Outside(a)
    ensures Holds(Next(s, a), job, p) ==> Holds(s, job, p)
  {
  }

  lemma LookupsTakeUpNothing(s: State, a: Action, job: string, p: string)
    requires LooksUp(a) && !a.Find?
    ensures Holds(Next(s, a), job, p) ==> Holds(s, job, p)
  {
  }

  lemma ActsTakeUpNothing(s: State, a: Action, job: string, p: string)
    requires Acts(a)
    ensures Holds(Next(s, a), job, p) ==> Holds(s, job, p)
  {
  }

  lemma OnlyFindTakesUp(s: State, a: Action, job: string, p: string)
    requires !a.Find? && Holds(Next(s, a), job, p)
    ensures Holds(s, job, p)
  {
    if OfQueue(a) || Outside(a) {
      QueueTakesUpNothing(s, a, job, p);
    } else if LooksUp(a) {
      LookupsTakeUpNothing(s, a, job, p);
    } else {
      ActsTakeUpNothing(s, a, job, p);
    }
  }

  lemma FindTakesUpStored(s: State, found: string, now: Time, retention: Time, job: string, p: string)
    requires p !in s.db.snapshots && Holds(FindStep(s, found, now, retention), job, p)
    ensures Holds(s, job, p)
  {
  }

  lemma NoAttemptTakesUp(s: State, a: Action, p: string)
    requires !AttemptHolds(s, p) && (p !in s.db.snapshots || Discards(s, a, p))
    ensures !AttemptHolds(Next(s, a), p)
  {
    if AttemptHolds(Next(s, a), p) {
      var job :| job in Next(s, a).runs && Holds(Next(s, a), job, p);
      if a.Find? {
        FindTakesUpStored(s, a.job, a.now, a.retention, job, p);
      } else {
        OnlyFindTakesUp(s, a, job, p);
      }
    }
  }

  lemma OnlyHoldersDecide(s: State, job: string, commit: bool, p: string)
    requires !Holds(s, job, p)
    ensures Decided(FinishStep(s, job, commit).db, p) ==> Decided(s.db, p)
  {
  }

  lemma NoAttemptDecides(s: State, a: Action, p: string)
    requires !AttemptHolds(s, p)
    ensures Decided(Next(s, a).db, p) ==> Decided(s.db, p)
  {
    if a.Finish? {
      OnlyHoldersDecide(s, a.job, a.commit, p);
    } else {
      OnlyFinishDecides(s, a);
    }
  }

  lemma {:induction false} LostStaysLost(s: State, run: seq<Action>, p: string)
    requires Lost(s, p) && !AttemptHolds(s, p)
    ensures Lost(NextAll(s, run), p)
    decreases |run|
  {
    if run != [] {
      HistoryStays(s, run[0], p);
      if p in Next(s, run[0]).db.snapshots {
        NoSnapshotReturns(s, run[0], p);
      }
      NoAttemptTakesUp(s, run[0], p);
      NoAttemptDecides(s, run[0], p);
      LostStaysLost(Next(s, run[0]), run[1..], p);
    }
  }

  lemma {:induction false} LossesByRun(s: State, run: seq<Action>, p: string)
    requires Inv(s) && !Lost(s, p) && NoOvertaking(s, run, p)
    ensures Lost(NextAll(s, run), p) <==> Discarded(s, run, p)
    decreases |run|
  {
    if run != [] {
      var next := Next(s, run[0]);
      StepLosesByDiscard(s, run[0], p);
      StepKeeps(s, run[0]);
      if Discards(s, run[0], p) {
        NoAttemptTakesUp(s, run[0], p);
        LostStaysLost(next, run[1..], p);
      } else {
        LossesByRun(next, run[1..], p);
      }
    }
  }

  /**
   Without overtaking, a discard alone decides: the process ends without a final
   result exactly when it was discarded.
   */
  lemma DiscardedIsLost(run: seq<Action>, p: string)
    requires NoOvertaking(START, run, p)
    ensures Lost(NextAll(START, run), p) <==> Discarded(START, run, p)
  {
    LossesByRun(START, run, p);
  }

  /** A finish that commits an outcome of the process, whether or not its snapshot is still stored. */
  predicate Closes(s: State, a: Action, p: string) {
    match a
    case Finish(job, commit) =>
      && commit && Holds(s, job, p)
      && (match s.runs[job].progress
          case Executed(snap, existing) => existing || CanInsert(s.db, snap)
          case Failed(_, invalid) => invalid || s.runs[job].attempt >= MAX_TRIES
          case _ => false)
    case _ => false
  }

  predicate EverCloses(s: State, run: seq<Action>, p: string)
    decreases |run|
  {
    run != [] && (Closes(s, run[0], p) || EverCloses(Next(s, run[0]), run[1..], p))
  }

  lemma FinishCloses(s: State, job: string, commit: bool, p: string)
    requires !Decided(s.db, p)
    ensures Decided(FinishStep(s, job, commit).db, p) <==> Closes(s, Finish(job, commit), p)
  {
    var outcomes := FinishStep(s, job, commit).db.outcomes;
    if outcomes != s.db.outcomes {
      assert outcomes[|s.db.outcomes|] in outcomes;
    }
  }

  lemma {:induction false} DecidedByClosing(s: State, run: seq<Action>, p: string)
    requires !Decided(s.db, p)
    ensures Decided(NextAll(s, run).db, p) <==> EverCloses(s, run, p)
    decreases |run|
  {
    if run != [] {
      var next := Next(s, run[0]);
      if run[0].Finish? {
        FinishCloses(s, run[0].job, run[0].commit, p);
      } else {
        OnlyFinishDecides(s, run[0]);
      }
      if Decided(next.db, p) {
        DecidedStays(next, run[1..], p);
      } else {
        DecidedByClosing(next, run[1..], p);
      }
    }
  }

  lemma {:induction false} DiscardedWasEnqueued(s: State, run: seq<Action>, p: string)
    requires Inv(s) && Discarded(s, run, p)
    ensures p in NextAll(s, run).history
    decreases |run|
  {
    StepKeeps(s, run[0]);
    if p in s.history {
      HistoryStaysByRun(s, run, p);
    } else {
      DiscardedWasEnqueued(Next(s, run[0]), run[1..], p);
    }
  }

  /**
   Exactly when a process ends without any final result, over every run, also
   those in which a cleanup or a deletion overtakes an attempt: its snapshot was
   discarded and no attempt committed an outcome.
   */
  lemma WhenOutcomesAreLost(run: seq<Action>, p: string)
    ensures Lost(NextAll(START, run), p) <==> Discarded(START, run, p) && !EverCloses(START, run, p)
  {
    StoredUntilDecidedOrDiscarded(START, run, p);
    DecidedByClosing(START, run, p);
    if Discarded(START, run, p) {
      DiscardedWasEnqueued(START, run, p);
    }
  }

  function Enqueued(p: string, snap: Snapshot): State {
    Next(START, Enqueue(p, snap))
  }

  /** A failing input: the first attempt finds the snapshot expired and removes it. */
  lemma ExpiryLosesTheOutcome(p: string, snap: Snapshot, now: Time, retention: Time)
    requires snap.messageJob != snap.cleanupJob && snap.readable && now >= snap.createdAt + retention
    ensures
      var job := snap.messageJob;
      var found := Next(Next(Enqueued(p, snap), Reserve(job)), Find(job, now, retention));
      Lost(Next(found, Drop(job, true)), p)
  {
    var job := snap.messageJob;
    var reserved := ReserveStep(Enqueued(p, snap), job);
    assert reserved.runs == map[job := Run(Process, p, 1, Fresh)] && reserved.db.snapshots == map[p := snap];
  }

  /** Another: the retention job removes the snapshot before any attempt. */
  lemma CleanupLosesTheOutcome(p: string, snap: Snapshot)
    requires snap.messageJob != snap.cleanupJob
    ensures
      var job := snap.cleanupJob;
      var found := Next(Next(Enqueued(p, snap), Reserve(job)), FindForCleanup(job));
      Lost(Next(found, Expire(job, true)), p)
  {
    var job := snap.cleanupJob;
    var reserved := ReserveStep(Enqueued(p, snap), job);
    assert reserved.runs == map[job := Run(Cleanup, p, 1, Fresh)] && reserved.db.snapshots == map[p := snap];
  }

  /** The message job's attempt has read the snapshot, and the retention job is about to remove it. */
  function Overtaking(p: string, snap: Snapshot, now: Time, retention: Time): State {
    var loaded := Next(Next(Enqueued(p, snap), Reserve(snap.messageJob)), Find(snap.messageJob, now, retention));
    Next(Next(loaded, Reserve(snap.cleanupJob)), FindForCleanup(snap.cleanupJob))
  }

  /** Such a state is reached: the attempt is under way and the cleanup job has found the snapshot. */
  lemma OvertakingState(p: string, snap: Snapshot, now: Time, retention: Time)
    requires snap.messageJob != snap.cleanupJob && snap.readable && now < snap.createdAt + retention
    ensures
      var s := Overtaking(p, snap, now, retention);
      && s.db.snapshots == map[p := snap] && s.db.outcomes == [] && s.history == map[p := snap]
      && s.runs == map[snap.messageJob := Run(Process, p, 1, Loaded(snap)),
                       snap.cleanupJob := Run(Cleanup, p, 1, Expiring(snap.messageJob))]
  {
    var reserved := ReserveStep(Enqueued(p, snap), snap.messageJob);
    assert reserved.runs == map[snap.messageJob := Run(Process, p, 1, Fresh)];
    var loaded := FindStep(reserved, snap.messageJob, now, retention);
    assert loaded.runs == map[snap.messageJob := Run(Process, p, 1, Loaded(snap))];
    var both := ReserveStep(loaded, snap.cleanupJob);
    assert both.runs[snap.cleanupJob] == Run(Cleanup, p, 1, Fresh) && both.db.snapshots == map[p := snap];
  }

  /** Another, reached above: a cleanup overtakes the attempt, which then crashes. */
  lemma OvertakenAndCrashed(s: State, job: string, cleanup: string, p: string)
    requires p in s.history && !Decided(s.db, p) && Holds(s, job, p)
    requires At(s, cleanup, Cleanup) && s.runs[cleanup].progress.Expiring? && s.runs[cleanup].process == p
    ensures AttemptHolds(s, p) && Lost(Next(Next(s, Expire(cleanup, true)), Crash(job)), p)
  {
    var expired := ExpireStep(s, cleanup, true);
    assert p !in expired.db.snapshots && expired.db.outcomes == s.db.outcomes && expired.history == s.history;
  }

  /** And the deletion of the instance takes the snapshot along. */
  lemma DeletionLosesTheOutcome(p: string, snap: Snapshot)
    requires snap.messageJob != snap.cleanupJob
    ensures Lost(Next(Enqueued(p, snap), DeleteInstance(snap.instanceId)), p)
  {
    assert Enqueued(p, snap).db.snapshots == map[p := snap];
  }

  /** A cleanup that overtakes an attempt discards the snapshot, and the outcome still comes. */
  lemma OvertakenAttemptDecides(s: State, job: string, cleanup: string, p: string)
    requires At(s, job, Process) && s.runs[job].process == p && s.runs[job].progress.Executed?
    requires s.runs[job].progress.existing || CanInsert(s.db, s.runs[job].progress.snap)
    requires Discards(s, Expire(cleanup, true), p)
    ensures Decided(Next(Next(s, Expire(cleanup, true)), Finish(job, true)).db, p)
  {
    var between := ExpireStep(s, cleanup, true);
    var outcomes := FinishStep(between, job, true).db.outcomes;
    assert between.runs[job] == s.runs[job];
    assert outcomes[|outcomes| - 1].process == p && outcomes[|outcomes| - 1] in outcomes;
  }

  // ---------------------------------------------------------------- failed and yet sent

  predicate WasSent(s: State, p: string) {
    exists x | x in s.sends :: x.process == p
  }

  predicate Succeeded(s: State, p: string) {
    exists o | o in s.db.outcomes :: o.Success? && o.process == p
  }

  /** The attempt has had its send accepted and is about to commit the success. */
  predicate Pending(s: State, job: string) {
    job in s.runs && s.runs[job].progress.Executed? && !s.runs[job].progress.existing
  }

  predicate AttemptPending(s: State, p: string) {
    p in s.history && Pending(s, s.history[p].messageJob)
  }

  /** Whatever was sent for the process is on record as a success, or about to be. */
  predicate SendsClear(s: State, p: string) {
    WasSent(s, p) ==> Succeeded(s, p) || AttemptPending(s, p)
  }

  /** WhatsApp takes a message and reports an error, or an attempt whose message was taken crashes or rolls back. */
  predicate Muddles(s: State, a: Action, p: string) {
    match a
    case Send(job, outcome) =>
      && outcome.AcceptedButReportedFailed?
      && At(s, job, Process) && s.runs[job].process == p && s.runs[job].progress.Unsent?
    case Finish(job, commit) =>
      && WasSent(s, p) && AttemptPending(s, p) && job == s.history[p].messageJob
      && (!commit || InsertConflict(s, job))
    case Crash(job) => WasSent(s, p) && AttemptPending(s, p) && job == s.history[p].messageJob
    case _ => false
  }

  lemma QueueKeepsPending(s: State, a: Action, job: string)
    requires Outside(a) || (OfQueue(a) && !a.Crash?)
    ensures Pending(Next(s, a), job) == Pending(s, job)
  {
  }

  lemma LookupsKeepPending(s: State, a: Action, job: string)
    requires LooksUp(a)
    ensures Pending(Next(s, a), job) == Pending(s, job)
  {
  }

  lemma RemovalsKeepPending(s: State, a: Action, job: string)
    requires a.Drop? || a.Expire?
    ensures Pending(Next(s, a), job) == Pending(s, job)
  {
  }

  lemma OthersKeepPending(s: State, a: Action, job: string)
    requires !a.Send? && !a.Finish? && !a.Crash?
    ensures Pending(Next(s, a), job) == Pending(s, job)
  {
    if Outside(a) || OfQueue(a) {
      QueueKeepsPending(s, a, job);
    } else if LooksUp(a) {
      LookupsKeepPending(s, a, job);
    } else {
      RemovalsKeepPending(s, a, job);
    }
  }

  lemma QueueSendsNothing(s: State, a: Action)
    requires OfQueue(a) || Outside(a)
    ensures Next(s, a).sends == s.sends
  {
  }

  lemma HandlersSendNothing(s: State, a: Action)
    requires LooksUp(a) || (Acts(a) && !a.Send?)
    ensures Next(s, a).sends == s.sends
  {
  }

  lemma OnlySendSends(s: State, a: Action)
    requires !a.Send?
    ensures Next(s, a).sends == s.sends
  {
    if OfQueue(a) || Outside(a) {
      QueueSendsNothing(s, a);
    } else {
      HandlersSendNothing(s, a);
    }
  }

  lemma OthersKeepClear(s: State, a: Action, p: string)
    requires !a.Send? && !a.Finish? && !a.Crash? && (WasSent(s, p) ==> p in s.history)
    ensures SendsClear(Next(s, a), p) == SendsClear(s, p)
  {
    OnlySendSends(s, a);
    OnlyFinishDecides(s, a);
    if p in s.history {
      HistoryStays(s, a, p);
      OthersKeepPending(s, a, s.history[p].messageJob);
    }
  }

  lemma OtherSend(s: State, job: string, outcome: SendAnswer, p: string)
    requires JobKnown(s, job) && SendsClear(s, p) && job in s.runs && s.runs[job].process != p
    ensures SendsClear(SendStep(s, job, outcome), p)
  {
  }

  lemma OwnSend(s: State, job: string, outcome: SendAnswer, p: string)
    requires JobKnown(s, job) && SendsClear(s, p) && At(s, job, Process) && s.runs[job].process == p
    requires s.runs[job].progress.Unsent?
    ensures SendsClear(SendStep(s, job, outcome), p) <==> !outcome.AcceptedButReportedFailed?
  {
    var t := SendStep(s, job, outcome);
    assert !Decided(s.db, p) && !AttemptPending(s, p);
    if outcome.Accepted? || outcome.AcceptedButReportedFailed? {
      assert t.sends[|s.sends|] in t.sends && t.sends[|s.sends|].process == p;
    }
  }

  lemma SendKeepsClear(s: State, job: string, outcome: SendAnswer, p: string)
    requires JobKnown(s, job) && SendsClear(s, p)
    ensures SendsClear(SendStep(s, job, outcome), p) <==> !Muddles(s, Send(job, outcome), p)
  {
    if At(s, job, Process) && s.runs[job].progress.Unsent? {
      if s.runs[job].process == p {
        OwnSend(s, job, outcome, p);
      } else {
        OtherSend(s, job, outcome, p);
      }
    }
  }

  lemma SuccessStays(s: State, job: string, commit: bool, p: string)
    requires Succeeded(s, p)
    ensures Succeeded(FinishStep(s, job, commit), p)
  {
    FinishDecidesOnce(s, job, commit);
    var o :| o in s.db.outcomes && o.Success? && o.process == p;
    assert o in FinishStep(s, job, commit).db.outcomes;
  }

  /** The finish of another attempt, or of one with nothing to commit, leaves the process's pending success alone. */
  lemma OtherFinish(s: State, job: string, commit: bool, p: string)
    requires SendsClear(s, p) && !(AttemptPending(s, p) && job == s.history[p].messageJob)
    ensures SendsClear(FinishStep(s, job, commit), p)
  {
    if Succeeded(s, p) {
      SuccessStays(s, job, commit, p);
    }
  }

  lemma OwnFinish(s: State, job: string, commit: bool, p: string)
    requires JobKnown(s, job) && AttemptPending(s, p) && job == s.history[p].messageJob && s.runs[job].process == p
    requires !Succeeded(s, p) && WasSent(s, p)
    ensures SendsClear(FinishStep(s, job, commit), p) <==> commit && !InsertConflict(s, job)
  {
    var t := FinishStep(s, job, commit);
    assert !AttemptPending(t, p);
    if commit && !InsertConflict(s, job) {
      assert t.db.outcomes[|s.db.outcomes|] in t.db.outcomes && t.db.outcomes[|s.db.outcomes|].process == p;
    }
  }

  lemma FinishKeepsClear(s: State, job: string, commit: bool, p: string)
    requires JobKnown(s, job) && SendsClear(s, p)
    requires AttemptPending(s, p) ==> !Succeeded(s, p) && s.runs[s.history[p].messageJob].process == p
    ensures SendsClear(FinishStep(s, job, commit), p) <==> !Muddles(s, Finish(job, commit), p)
  {
    if !(AttemptPending(s, p) && job == s.history[p].messageJob) {
      OtherFinish(s, job, commit, p);
    } else if WasSent(s, p) {
      OwnFinish(s, job, commit, p);
    }
  }

  lemma CrashKeepsClear(s: State, job: string, p: string)
    requires SendsClear(s, p) && (AttemptPending(s, p) ==> !Succeeded(s, p))
    ensures SendsClear(s.(runs := s.runs - {job}), p) <==> !Muddles(s, Crash(job), p)
  {
  }

  lemma StepKeepsClear(s: State, a: Action, p: string)
    requires Inv(s) && SendsClear(s, p)
    ensures SendsClear(Next(s, a), p) <==> !Muddles(s, a, p)
  {
    if AttemptPending(s, p) {
      PendingIsUndecided(s, p);
    }
    if a.Send? {
      JobIsKnown(s, a.job);
      SendKeepsClear(s, a.job, a.outcome, p);
    } else if a.Finish? {
      JobIsKnown(s, a.job);
      FinishKeepsClear(s, a.job, a.commit, p);
    } else if a.Crash? {
      JobIsKnown(s, a.job);
      CrashKeepsClear(s, a.job, p);
    } else {
      OthersKeepClear(s, a, p);
    }
  }

  predicate AlwaysClear(s: State, run: seq<Action>, p: string)
    decreases |run|
  {
    SendsClear(s, p) && (run == [] || AlwaysClear(Next(s, run[0]), run[1..], p))
  }

  predicate NeverMuddled(s: State, run: seq<Action>, p: string)
    decreases |run|
  {
    run == [] || (!Muddles(s, run[0], p) && NeverMuddled(Next(s, run[0]), run[1..], p))
  }

  lemma {:induction false} RunKeepsClear(s: State, run: seq<Action>, p: string)
    requires Inv(s) && SendsClear(s, p)
    ensures AlwaysClear(s, run, p) <==> NeverMuddled(s, run, p)
    ensures NeverMuddled(s, run, p) ==> SendsClear(NextAll(s, run), p)
    decreases |run|
  {
    if run != [] {
      StepKeepsClear(s, run[0], p);
      StepKeeps(s, run[0]);
      if SendsClear(Next(s, run[0]), p) {
        RunKeepsClear(Next(s, run[0]), run[1..], p);
      }
    }
  }

  /**
   Throughout a run all sends of a process are on record as its success, or about
   to be, exactly when no message was taken and reported failed and no attempt
   with an accepted send crashed or rolled back.
   */
  lemma WhenSendsAreOnRecord(run: seq<Action>, p: string)
    ensures AlwaysClear(START, run, p) <==> NeverMuddled(START, run, p)
  {
    RunKeepsClear(START, run, p);
  }

  /** In such a run no failure is committed for a process that was sent. */
  lemma UnmuddledFailuresAreUnsent(run: seq<Action>, p: string)
    requires NeverMuddled(START, run, p) && Failure(p) in NextAll(START, run).db.outcomes
    ensures !WasSent(NextAll(START, run), p)
  {
    RunKeepsClear(START, run, p);
    RunKeeps(START, run);
    ClearFailureIsUnsent(NextAll(START, run), p);
  }

  lemma PendingIsUndecided(s: State, p: string)
    requires RunsKnow(s) && JobsOwned(s) && IdsIssued(s) && AttemptPending(s, p)
    ensures !Decided(s.db, p) && s.runs[s.history[p].messageJob].process == p
  {
    var job := s.history[p].messageJob;
    assert s.issued[job] == (Process, p) && Owns(s, job, s.runs[job].kind, s.runs[job].process);
    assert RunKnows(s, s.runs[job]);
  }

  lemma SuccessIsNoFailure(s: State, p: string)
    requires OutcomesSound(s) && Succeeded(s, p)
    ensures Failure(p) !in s.db.outcomes
  {
    var o :| o in s.db.outcomes && o.Success? && o.process == p;
    var k :| 0 <= k < |s.db.outcomes| && s.db.outcomes[k] == o;
    forall i | 0 <= i < |s.db.outcomes| ensures s.db.outcomes[i] != Failure(p) {
      assert i < k ==> s.db.outcomes[i].process != s.db.outcomes[k].process;
      assert k < i ==> s.db.outcomes[k].process != s.db.outcomes[i].process;
    }
  }

  lemma ClearFailureIsUnsent(s: State, p: string)
    requires Inv(s) && SendsClear(s, p) && Failure(p) in s.db.outcomes
    ensures !WasSent(s, p)
  {
    assert Decided(s.db, p);
    if AttemptPending(s, p) {
      PendingIsUndecided(s, p);
    } else if Succeeded(s, p) {
      SuccessIsNoFailure(s, p);
    }
  }

  /** A committed failure of a process that was sent. */
  predicate FailedThoughSent(s: State, p: string) {
    Failure(p) in s.db.outcomes && WasSent(s, p)
  }

  /**
   The step that commits one: the failure of an attempt, final or the last, when an
   earlier or this send was taken.
   */
  predicate FailsSent(s: State, a: Action, p: string) {
    match a
    case Finish(job, commit) =>
      && commit && At(s, job, Process) && s.runs[job].process == p && s.runs[job].progress.Failed?
      && (s.runs[job].progress.invalid || s.runs[job].attempt >= MAX_TRIES)
      && WasSent(s, p)
    case _ => false
  }

  predicate EverFailsSent(s: State, run: seq<Action>, p: string)
    decreases |run|
  {
    run != [] && (FailsSent(s, run[0], p) || EverFailsSent(Next(s, run[0]), run[1..], p))
  }

  lemma FinishFailsSent(s: State, job: string, commit: bool, p: string)
    requires !FailedThoughSent(s, p)
    ensures FailedThoughSent(FinishStep(s, job, commit), p) <==> FailsSent(s, Finish(job, commit), p)
  {
    var t := FinishStep(s, job, commit);
    if t.db.outcomes != s.db.outcomes {
      assert t.db.outcomes[|s.db.outcomes|] in t.db.outcomes;
    }
  }

  /** Nothing is sent for a process once its failure is committed. */
  lemma NoSendAfterFailure(s: State, job: string, outcome: SendAnswer, p: string)
    requires (job in s.runs ==> RunKnows(s, s.runs[job])) && !FailedThoughSent(s, p)
    ensures !FailedThoughSent(SendStep(s, job, outcome), p)
  {
    if Failure(p) in s.db.outcomes {
      assert Decided(s.db, p);
    }
  }

  lemma StepFailsSent(s: State, a: Action, p: string)
    requires Inv(s) && !FailedThoughSent(s, p)
    ensures FailedThoughSent(Next(s, a), p) <==> FailsSent(s, a, p)
  {
    if a.Finish? {
      FinishFailsSent(s, a.job, a.commit, p);
    } else if a.Send? {
      NoSendAfterFailure(s, a.job, a.outcome, p);
    } else {
      OnlySendSends(s, a);
      OnlyFinishDecides(s, a);
    }
  }

  lemma {:induction false} SendsOnlyGrow(s: State, run: seq<Action>)
    ensures s.sends <= NextAll(s, run).sends
    decreases |run|
  {
    if run != [] {
      if !run[0].Send? {
        OnlySendSends(s, run[0]);
      }
      SendsOnlyGrow(Next(s, run[0]), run[1..]);
    }
  }

  lemma FailedThoughSentStays(s: State, run: seq<Action>, p: string)
    requires FailedThoughSent(s, p)
    ensures FailedThoughSent(NextAll(s, run), p)
  {
    OutcomesOnlyGrow(s, run);
    SendsOnlyGrow(s, run);
    var x :| x in s.sends && x.process == p;
    assert x in NextAll(s, run).sends;
  }

  lemma {:induction false} FailuresByRun(s: State, run: seq<Action>, p: string)
    requires Inv(s) && !FailedThoughSent(s, p)
    ensures FailedThoughSent(NextAll(s, run), p) <==> EverFailsSent(s, run, p)
    decreases |run|
  {
    if run != [] {
      var next := Next(s, run[0]);
      StepFailsSent(s, run[0], p);
      StepKeeps(s, run[0]);
      if FailedThoughSent(next, p) {
        FailedThoughSentStays(next, run[1..], p);
      } else {
        FailuresByRun(next, run[1..], p);
      }
    }
  }

  /**
   Exactly when "failed" does not mean "not sent", over every run: an attempt
   that is final or the last one fails and commits the failure although a message
   of the process was taken before.
   */
  lemma WhenFailedMeansUnsent(run: seq<Action>, p: string)
    ensures var t := NextAll(START, run);
            Failure(p) in t.db.outcomes && WasSent(t, p) <==> EverFailsSent(START, run, p)
  {
    FailuresByRun(START, run, p);
  }

  /** A failing input: the last attempt's message is taken, the call reports an error, and the failure is committed. */
  lemma SentAndFailed(s: State, job: string)
    requires At(s, job, Process) && s.runs[job].progress.Unsent? && s.runs[job].attempt >= MAX_TRIES
    ensures
      var t := Next(Next(s, Send(job, AcceptedButReportedFailed)), Finish(job, true));
      WasSent(t, s.runs[job].process) && Failure(s.runs[job].process) in t.db.outcomes
  {
    var p := s.runs[job].process;
    var sent := SendStep(s, job, AcceptedButReportedFailed);
    assert sent.sends[|s.sends|] == Sent(p, s.runs[job].progress.snap.messageId);
    var t := FinishStep(sent, job, true);
    assert t.sends == sent.sends && t.sends[|s.sends|] in t.sends;
    assert t.db.outcomes[|s.db.outcomes|] == Failure(p);
  }
}
