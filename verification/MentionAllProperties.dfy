/** What durable mention-all guarantees over every run of the queue, the handlers and the crashes. */
module MentionAllProperties {
  import opened Results
  import opened MentionAll

  // ---------------------------------------------------------------- outcomes

  /**
   Every run from an empty database: a process has at most one committed
   outcome; a process whose snapshot is still stored has none; a committed
   success has its message row, under the id enqueued for it, as long as its
   instance exists.
   */
  lemma OneOutcomePerProcess(run: seq<Action>)
    ensures
      var t := NextAll(START, run);
      && (forall i, k | 0 <= i < k < |t.db.outcomes| :: t.db.outcomes[i].process != t.db.outcomes[k].process)
      && (forall p | p in t.db.snapshots :: !Decided(t.db, p))
      && (forall o | o in t.db.outcomes && o.Success? ::
            o.process in t.history && (o.instanceId, o.messageId) == Key(t.history[o.process])
            && HasRow(t.db, o.instanceId, o.messageId))
  {
    RunKeeps(START, run);
  }

  /** A stored snapshot always has its cleanup job in the queue: nothing orphans it. */
  lemma SnapshotsAreNeverOrphaned(run: seq<Action>)
    ensures
      var t := NextAll(START, run);
      forall p | p in t.db.snapshots ::
        var job := t.db.snapshots[p].cleanupJob;
        job in t.db.jobs && t.db.jobs[job].kind == Cleanup && t.db.jobs[job].process == p
  {
    RunKeeps(START, run);
    var t := NextAll(START, run);
    forall p | p in t.db.snapshots
      ensures t.db.jobs[t.db.snapshots[p].cleanupJob].kind == Cleanup
              && t.db.jobs[t.db.snapshots[p].cleanupJob].process == p
    {
      var job := t.db.snapshots[p].cleanupJob;
      assert t.issued[job] == (Cleanup, p);
      assert Owns(t, job, t.db.jobs[job].kind, t.db.jobs[job].process);
    }
  }

  lemma QueueDecidesNothing(s: State, a: Action)
    requires OfQueue(a)
    ensures Next(s, a).db.outcomes == s.db.outcomes
  {
  }

  lemma LookupsDecideNothing(s: State, a: Action)
    requires LooksUp(a)
    ensures Next(s, a).db.outcomes == s.db.outcomes
  {
  }

  lemma ActsDecideNothing(s: State, a: Action)
    requires Outside(a) || (Acts(a) && !a.Finish?)
    ensures Next(s, a).db.outcomes == s.db.outcomes
  {
  }

  lemma OnlyFinishDecides(s: State, a: Action)
    requires !a.Finish?
    ensures Next(s, a).db.outcomes == s.db.outcomes
  {
    if OfQueue(a) {
      QueueDecidesNothing(s, a);
    } else if LooksUp(a) {
      LookupsDecideNothing(s, a);
    } else {
      ActsDecideNothing(s, a);
    }
  }

  lemma FinishDecidesOnce(s: State, job: string, commit: bool)
    ensures s.db.outcomes <= FinishStep(s, job, commit).db.outcomes
  {
  }

  /** A committed outcome is never withdrawn or changed. */
  lemma {:induction false} OutcomesOnlyGrow(s: State, run: seq<Action>)
    ensures s.db.outcomes <= NextAll(s, run).db.outcomes
    decreases |run|
  {
    if run != [] {
      if run[0].Finish? {
        FinishDecidesOnce(s, run[0].job, run[0].commit);
      } else {
        OnlyFinishDecides(s, run[0]);
      }
      OutcomesOnlyGrow(Next(s, run[0]), run[1..]);
    }
  }

  // ---------------------------------------------------------------- sends

  function SendsOf(s: State, process: string): seq<Sent> {
    Filter(s.sends, process)
  }

  function Filter(sends: seq<Sent>, process: string): seq<Sent> {
    if sends == [] then []
    else if sends[|sends| - 1].process == process then Filter(sends[..|sends| - 1], process) + [sends[|sends| - 1]]
    else Filter(sends[..|sends| - 1], process)
  }

  lemma FilterAppend(sends: seq<Sent>, x: Sent, process: string)
    ensures Filter(sends + [x], process) ==
            if x.process == process then Filter(sends, process) + [x] else Filter(sends, process)
  {
    assert (sends + [x])[..|sends|] == sends;
  }

  /** All sends of one process, over every run, carry the one message id stored when it was enqueued. */
  lemma OneMessageIdPerProcess(run: seq<Action>)
    ensures
      var t := NextAll(START, run);
      forall x | x in t.sends :: x.process in t.history && x.messageId == t.history[x.process].messageId
  {
    RunKeeps(START, run);
  }

  /** No attempt of the process is past its message lookup with the answer "no row". */
  ghost predicate NotAboutToSend(s: State, process: string) {
    && process in s.history && Key(s.history[process]) in s.db.messages
    && (s.history[process].messageJob in s.runs ==> !s.runs[s.history[process].messageJob].progress.Unsent?)
  }

  lemma NotAboutToSendKept(s: State, job: string, t: State, process: string)
    requires Inv(s) && NotAboutToSend(s, process)
    requires t == s || Advances(s, job, t) || Settles(s, job, t) || Requeues(s, job, t)
    ensures NotAboutToSend(t, process) && SendsOf(t, process) == SendsOf(s, process)
  {
    JobIsKnown(s, job);
    var own := s.history[process].messageJob;
    assert own != job ==> (own in t.runs - {job} <==> own in t.runs) && (own in s.runs - {job} <==> own in s.runs);
    if Advances(s, job, t) && t.sends != s.sends {
      FilterAppend(s.sends, Sent(s.runs[job].process, s.runs[job].progress.snap.messageId), process);
    }
  }

  /**
   Once the message row exists, attempts that begin later never send again,
   whatever else happens short of deleting the instance and its rows.
   */
  lemma {:induction false} NoSendAfterTheRowExists(s: State, run: seq<Action>, process: string)
    requires Inv(s) && process in s.history && Key(s.history[process]) in s.db.messages
    requires s.history[process].messageJob !in s.runs
    requires DeleteInstance(s.history[process].instanceId) !in run
    ensures SendsOf(NextAll(s, run), process) == SendsOf(s, process)
  {
    NoSendWhileQuiet(s, run, process);
  }

  lemma QuietStep(s: State, a: Action, process: string)
    requires Inv(s) && NotAboutToSend(s, process) && a != DeleteInstance(s.history[process].instanceId)
    ensures NotAboutToSend(Next(s, a), process) && SendsOf(Next(s, a), process) == SendsOf(s, process)
  {
    if !Outside(a) {
      StepShape(s, a);
      NotAboutToSendKept(s, a.job, Next(s, a), process);
    }
  }

  lemma {:induction false} NoSendWhileQuiet(s: State, run: seq<Action>, process: string)
    requires Inv(s) && NotAboutToSend(s, process)
    requires DeleteInstance(s.history[process].instanceId) !in run
    ensures SendsOf(NextAll(s, run), process) == SendsOf(s, process)
    decreases |run|
  {
    if run != [] {
      assert run[0] in run;
      QuietStep(s, run[0], process);
      HistoryStays(s, run[0], process);
      StepKeeps(s, run[0]);
      NoSendWhileQuiet(Next(s, run[0]), run[1..], process);
    }
  }

  // ---------------------------------------------------------------- progress

  /** A crash, a failed statement, a transaction that does not commit, or the deletion of an instance. */
  predicate Faulty(s: State, a: Action) {
    match a
    case Drop(_, commit) => !commit
    case Expire(_, commit) => !commit
    case Finish(job, commit) => !commit || InsertConflict(s, job)
    case StatementFails(_) => true
    case Crash(_) => true
    case DeleteInstance(_) => true
    case _ => false
  }

  /** Someone else stored the message row between the lookup and the insert. */
  predicate InsertConflict(s: State, job: string) {
    && job in s.runs && s.runs[job].progress.Executed?
    && SuccessTx(s.db, s.runs[job].process, s.runs[job].progress.snap, s.runs[job].progress.existing).None?
  }

  predicate FaultFree(s: State, run: seq<Action>)
    decreases |run|
  {
    run == [] || (!Faulty(s, run[0]) && FaultFree(Next(s, run[0]), run[1..]))
  }

  /** The message job of a stored snapshot is queued with attempts to spare. */
  ghost predicate HasAttempts(s: State, process: string)
    requires process in s.history
  {
    var job := s.history[process].messageJob;
    && job in s.db.jobs && s.db.jobs[job].attempts <= MAX_TRIES
    && (job !in s.runs ==> s.db.jobs[job].attempts < MAX_TRIES)
    && (job in s.runs ==> s.runs[job].attempt == s.db.jobs[job].attempts
                          && (s.runs[job].progress == Returning(false) ==> s.runs[job].attempt < MAX_TRIES))
  }

  /** The cleanup job of a removed snapshot is gone, or its handler has only to return. */
  ghost predicate CleanupOver(s: State, process: string)
    requires process in s.history
  {
    var job := s.history[process].cleanupJob;
    job in s.db.jobs ==> job in s.runs && s.runs[job].progress == Returning(true)
  }

  ghost predicate ProcessOnTrack(s: State, process: string)
    requires process in s.history
  {
    if process in s.db.snapshots then HasAttempts(s, process) else CleanupOver(s, process)
  }

  /** A lookup returns an error only when the snapshot is gone. */
  lemma LookupErrors(s: State, a: Action)
    requires LooksUp(a) && !a.StatementFails? && At(s, a.job, Process) && s.runs[a.job].progress != Returning(false)
    requires Next(s, a).runs[a.job].progress == Returning(false)
    ensures s.runs[a.job].process !in s.db.snapshots
  {
  }

  lemma FinishErrors(s: State, a: Action)
    requires Acts(a) && !Faulty(s, a) && At(s, a.job, Process) && s.runs[a.job].progress != Returning(false)
    requires Next(s, a).runs[a.job].progress == Returning(false)
    ensures s.runs[a.job].attempt < MAX_TRIES
  {
  }

  /** Without a fault, a handler returns an error only with attempts to spare, or when the snapshot is gone. */
  lemma ErrorsLeaveAttempts(s: State, a: Action)
    requires !Faulty(s, a) && !Outside(a) && At(s, a.job, Process) && s.runs[a.job].progress != Returning(false)
    requires !a.Reserve? && !a.Return? && !a.GiveUp? && !a.Requeue?
    requires a.job in Next(s, a).runs && Next(s, a).runs[a.job].progress == Returning(false)
    ensures s.runs[a.job].process !in s.db.snapshots || s.runs[a.job].attempt < MAX_TRIES
  {
    if LooksUp(a) {
      LookupErrors(s, a);
    } else {
      FinishErrors(s, a);
    }
  }

  lemma AttemptsKeptByRun(s: State, a: Action, process: string)
    requires !Outside(a) && JobKnown(s, a.job) && !Faulty(s, a)
    requires IdsIssued(s) && process in s.history && process in s.db.snapshots && HasAttempts(s, process)
    requires !a.Reserve? && !a.Return? && !a.GiveUp? && !a.Requeue?
    requires Advances(s, a.job, Next(s, a))
    ensures HasAttempts(Next(s, a), process)
  {
    if a.job == s.history[process].messageJob {
      assert s.issued[a.job] == (Process, process);
      if Next(s, a).runs[a.job].progress == Returning(false) && s.runs[a.job].progress != Returning(false) {
        ErrorsLeaveAttempts(s, a);
      }
    }
  }

  lemma SettledIsOver(s: State, job: string, t: State, process: string)
    requires IdsIssued(s) && JobKnown(s, job) && process in s.history && ProcessOnTrack(s, process)
            && Settles(s, job, t)
    ensures ProcessOnTrack(t, process)
  {
    var p := s.runs[job].process;
    assert s.issued[s.history[p].messageJob] == (Process, p) && s.issued[s.history[p].cleanupJob] == (Cleanup, p);
    assert s.issued[s.history[process].messageJob] == (Process, process)
        && s.issued[s.history[process].cleanupJob] == (Cleanup, process);
  }

  lemma ReserveKeepsTrack(s: State, job: string, process: string)
    requires JobKnown(s, job) && IdsIssued(s) && process in s.history && ProcessOnTrack(s, process)
    ensures ProcessOnTrack(ReserveStep(s, job), process)
  {
  }

  lemma FinishedKeepsTrack(s: State, job: string, process: string)
    requires JobKnown(s, job) && IdsIssued(s) && process in s.history && ProcessOnTrack(s, process)
    requires job in s.runs && s.runs[job].progress == Returning(true)
    ensures ProcessOnTrack(ReturnStep(s, job), process)
  {
    assert ReturnStep(s, job).runs == s.runs - {job} && ReturnStep(s, job).db.jobs == s.db.jobs - {job};
  }

  lemma UnfinishedKeepsTrack(s: State, job: string, process: string)
    requires JobKnown(s, job) && IdsIssued(s) && process in s.history && ProcessOnTrack(s, process)
    requires job in s.runs && s.runs[job].progress == Returning(false)
    ensures ProcessOnTrack(ReturnStep(s, job), process)
  {
    assert ReturnStep(s, job).runs == s.runs - {job};
  }

  lemma ReturnKeepsTrack(s: State, job: string, process: string)
    requires JobKnown(s, job) && IdsIssued(s) && process in s.history && ProcessOnTrack(s, process)
    ensures ProcessOnTrack(ReturnStep(s, job), process)
  {
    if job in s.runs && s.runs[job].progress.Returning? {
      if s.runs[job].progress.ok {
        FinishedKeepsTrack(s, job, process);
      } else {
        UnfinishedKeepsTrack(s, job, process);
      }
    }
  }

  lemma DeadLettersKeepTrack(s: State, job: string, process: string)
    requires JobKnown(s, job) && IdsIssued(s) && process in s.history && ProcessOnTrack(s, process)
    ensures ProcessOnTrack(GiveUpStep(s, job), process)
    ensures ProcessOnTrack(RequeueStep(s, job), process)
  {
  }

  lemma EnqueueKeepsTrack(s: State, process: string, snap: Snapshot, p: string)
    requires Inv(s) && (p in s.history ==> ProcessOnTrack(s, p))
    ensures var t := EnqueueStep(s, process, snap); p in t.history ==> ProcessOnTrack(t, p)
  {
    JobIsKnown(s, snap.messageJob);
    JobIsKnown(s, snap.cleanupJob);
  }

  ghost predicate OnTrack(s: State) {
    forall p | p in s.history :: ProcessOnTrack(s, p)
  }

  lemma TrackKept(s: State, a: Action, p: string)
    requires !Outside(a)
    requires IdsIssued(s) && SnapshotsGuarded(s) && JobKnown(s, a.job)
    requires p in s.history && ProcessOnTrack(s, p) && !Faulty(s, a)
    ensures p in Next(s, a).history && ProcessOnTrack(Next(s, a), p)
  {
    if a.Reserve? {
      ReserveKeepsTrack(s, a.job, p);
    } else if a.Return? {
      ReturnKeepsTrack(s, a.job, p);
    } else if a.GiveUp? || a.Requeue? {
      DeadLettersKeepTrack(s, a.job, p);
    } else if a.job in s.runs {
      RunStepShape(s, a);
      if Settles(s, a.job, Next(s, a)) {
        SettledIsOver(s, a.job, Next(s, a), p);
      } else if Advances(s, a.job, Next(s, a)) {
        if p in s.db.snapshots {
          AttemptsKeptByRun(s, a, p);
        } else {
          OverStaysOver(s, a.job, Next(s, a), p);
        }
      }
    } else {
      RunlessStepIsIdle(s, a);
    }
  }

  lemma OverStaysOver(s: State, job: string, t: State, p: string)
    requires p in s.history && p !in s.db.snapshots && CleanupOver(s, p) && Advances(s, job, t)
    ensures p !in t.db.snapshots && CleanupOver(t, p)
  {
  }

  lemma EchoKeepsTrack(s: State, instanceId: int, messageId: string, p: string)
    requires p in s.history && ProcessOnTrack(s, p)
    ensures p in EchoStep(s, instanceId, messageId).history && ProcessOnTrack(EchoStep(s, instanceId, messageId), p)
  {
  }

  lemma OneProcessKeptOnTrack(s: State, a: Action, p: string)
    requires Inv(s) && OnTrack(s) && !Faulty(s, a) && p in Next(s, a).history
    ensures ProcessOnTrack(Next(s, a), p)
  {
    if a.Enqueue? {
      EnqueueKeepsTrack(s, a.process, a.snap, p);
    } else {
      HistoryIsOnlyEnqueued(s, a);
      if a.Echo? {
        EchoKeepsTrack(s, a.instanceId, a.messageId, p);
      } else {
        JobIsKnown(s, a.job);
        TrackKept(s, a, p);
      }
    }
  }

  lemma TrackKeptByStep(s: State, a: Action)
    requires Inv(s) && OnTrack(s) && !Faulty(s, a)
    ensures Inv(Next(s, a)) && OnTrack(Next(s, a))
  {
    StepKeeps(s, a);
    forall p | p in Next(s, a).history
      ensures ProcessOnTrack(Next(s, a), p)
    {
      OneProcessKeptOnTrack(s, a, p);
    }
  }

  lemma QueueKeepsHistory(s: State, a: Action)
    requires OfQueue(a)
    ensures Next(s, a).history == s.history
  {
  }

  lemma LookupsKeepHistory(s: State, a: Action)
    requires LooksUp(a)
    ensures Next(s, a).history == s.history
  {
  }

  lemma ActsKeepHistory(s: State, a: Action)
    requires Acts(a) || a.Echo? || a.DeleteInstance?
    ensures Next(s, a).history == s.history
  {
  }

  lemma HistoryIsOnlyEnqueued(s: State, a: Action)
    requires !a.Enqueue?
    ensures Next(s, a).history == s.history
  {
    if OfQueue(a) {
      QueueKeepsHistory(s, a);
    } else if LooksUp(a) {
      LookupsKeepHistory(s, a);
    } else {
      ActsKeepHistory(s, a);
    }
  }

  lemma {:induction false} TrackKeptByRun(s: State, run: seq<Action>)
    requires Inv(s) && OnTrack(s) && FaultFree(s, run)
    ensures Inv(NextAll(s, run)) && OnTrack(NextAll(s, run))
    decreases |run|
  {
    if run != [] {
      TrackKeptByStep(s, run[0]);
      TrackKeptByRun(Next(s, run[0]), run[1..]);
    }
  }

  /** Whether the step begins an attempt of the job. */
  predicate Begins(s: State, a: Action, job: string) {
    a == Reserve(job) && job in s.db.jobs && job !in s.runs
  }

  function AttemptsBegun(s: State, run: seq<Action>, job: string): nat
    decreases |run|
  {
    if run == [] then 0
    else (if Begins(s, run[0], job) then 1 else 0) + AttemptsBegun(Next(s, run[0]), run[1..], job)
  }

  lemma QueueCounts(s: State, job: string, process: string)
    requires JobKnown(s, job) && IdsIssued(s) && process in s.db.snapshots && process in s.history
            && HasAttempts(s, process)
    ensures
      var own := s.history[process].messageJob;
      var reserved, returned := ReserveStep(s, job), ReturnStep(s, job);
      && own in reserved.db.jobs
      && reserved.db.jobs[own].attempts == s.db.jobs[own].attempts + (if Begins(s, Reserve(job), own) then 1 else 0)
      && own in returned.db.jobs && returned.db.jobs[own] == s.db.jobs[own]
  {
  }

  lemma DeadLettersCount(s: State, job: string, process: string)
    requires JobKnown(s, job) && process in s.db.snapshots && process in s.history && HasAttempts(s, process)
    ensures
      var own := s.history[process].messageJob;
      && own in GiveUpStep(s, job).db.jobs && GiveUpStep(s, job).db.jobs[own] == s.db.jobs[own]
      && own in RequeueStep(s, job).db.jobs && RequeueStep(s, job).db.jobs[own] == s.db.jobs[own]
  {
  }

  /** A handler's step leaves the message job of every snapshot that stays stored as it was. */
  lemma ShapesDoNotCount(s: State, job: string, t: State, process: string)
    requires IdsIssued(s) && process in s.history && (job in s.runs ==> s.runs[job].process in s.history)
    requires t == s || Advances(s, job, t) || Settles(s, job, t)
    requires process in t.db.snapshots && HasAttempts(s, process)
    ensures process in s.db.snapshots
    ensures s.history[process].messageJob in t.db.jobs
    ensures t.db.jobs[s.history[process].messageJob] == s.db.jobs[s.history[process].messageJob]
  {
    assert s.issued[s.history[process].messageJob] == (Process, process);
  }

  lemma NoSnapshotReturns(s: State, a: Action, process: string)
    requires process in s.history && process in Next(s, a).db.snapshots
    ensures process in s.db.snapshots
  {
  }

  lemma HandlerDoesNotCount(s: State, a: Action, process: string)
    requires !Outside(a) && !a.Reserve? && !a.Return? && !a.Crash? && !a.GiveUp? && !a.Requeue?
    requires IdsIssued(s) && SnapshotsGuarded(s) && JobKnown(s, a.job)
    requires process in s.history && process in Next(s, a).db.snapshots && HasAttempts(s, process)
    ensures s.history[process].messageJob in Next(s, a).db.jobs
    ensures Next(s, a).db.jobs[s.history[process].messageJob] == s.db.jobs[s.history[process].messageJob]
  {
    if a.job in s.runs {
      RunStepShape(s, a);
      ShapesDoNotCount(s, a.job, Next(s, a), process);
    } else {
      RunlessStepIsIdle(s, a);
    }
  }

  lemma EnqueueDoesNotCount(s: State, process: string, snap: Snapshot, p: string)
    requires IdsIssued(s) && p in s.history && HasAttempts(s, p)
    ensures HasAttempts(EnqueueStep(s, process, snap), p)
    ensures EnqueueStep(s, process, snap).db.jobs[s.history[p].messageJob] == s.db.jobs[s.history[p].messageJob]
  {
    assert s.issued[s.history[p].messageJob] == (Process, p);
  }

  /** What a step leaves in the queue for the message job of a stored snapshot. */
  ghost predicate Counts(s: State, a: Action, t: State, process: string)
    requires process in s.history
  {
    var own := s.history[process].messageJob;
    && own in s.db.jobs && own in t.db.jobs
    && t.db.jobs[own].attempts == s.db.jobs[own].attempts + (if Begins(s, a, own) then 1 else 0)
  }

  lemma QueueStepCounts(s: State, a: Action, process: string)
    requires (a.Reserve? || a.Return? || a.GiveUp? || a.Requeue?) && JobKnown(s, a.job)
    requires IdsIssued(s) && process in s.history && process in s.db.snapshots && HasAttempts(s, process)
    ensures Counts(s, a, Next(s, a), process)
  {
    if a.Reserve? || a.Return? {
      QueueCounts(s, a.job, process);
    } else {
      DeadLettersCount(s, a.job, process);
    }
  }

  lemma OutsideStepCounts(s: State, a: Action, process: string)
    requires a.Enqueue? || a.Echo?
    requires IdsIssued(s) && process in s.history && HasAttempts(s, process)
    ensures Counts(s, a, Next(s, a), process)
  {
    if a.Enqueue? {
      EnqueueDoesNotCount(s, a.process, a.snap, process);
    }
  }

  lemma HandlerStepCounts(s: State, a: Action, process: string)
    requires !Outside(a) && !a.Reserve? && !a.Return? && !a.Crash? && !a.GiveUp? && !a.Requeue?
    requires IdsIssued(s) && SnapshotsGuarded(s) && JobKnown(s, a.job)
    requires process in s.history && process in Next(s, a).db.snapshots && HasAttempts(s, process)
    ensures Counts(s, a, Next(s, a), process)
  {
    HandlerDoesNotCount(s, a, process);
  }

  /** Of all fault-free steps only the queue's reservation counts an attempt. */
  lemma StepCounts(s: State, a: Action, process: string)
    requires Inv(s) && !Faulty(s, a)
    requires process in s.history && process in s.db.snapshots && HasAttempts(s, process)
    requires process in Next(s, a).db.snapshots
    ensures Counts(s, a, Next(s, a), process)
  {
    if a.Enqueue? || a.Echo? {
      OutsideStepCounts(s, a, process);
    } else {
      JobIsKnown(s, a.job);
      if a.Reserve? || a.Return? || a.GiveUp? || a.Requeue? {
        QueueStepCounts(s, a, process);
      } else {
        HandlerStepCounts(s, a, process);
      }
    }
  }

  lemma HistoryStays(s: State, a: Action, process: string)
    requires process in s.history
    ensures process in Next(s, a).history && Next(s, a).history[process] == s.history[process]
  {
    if !a.Enqueue? {
      HistoryIsOnlyEnqueued(s, a);
    }
  }

  lemma {:induction false} AttemptsAreCounted(s: State, run: seq<Action>, process: string)
    requires Inv(s) && OnTrack(s) && FaultFree(s, run) && process in s.history
    requires process in NextAll(s, run).db.snapshots
    ensures process in s.db.snapshots
    ensures
      var own, t := s.history[process].messageJob, NextAll(s, run);
      && own in t.db.jobs
      && t.db.jobs[own].attempts == s.db.jobs[own].attempts + AttemptsBegun(s, run, own)
    decreases |run|
  {
    if run == [] {
      assert ProcessOnTrack(s, process);
    } else {
      TrackKeptByStep(s, run[0]);
      HistoryStays(s, run[0], process);
      AttemptsAreCounted(Next(s, run[0]), run[1..], process);
      NoSnapshotReturns(s, run[0], process);
      assert ProcessOnTrack(s, process);
      StepCounts(s, run[0], process);
    }
  }

  lemma {:induction false} HistoryStaysByRun(s: State, run: seq<Action>, process: string)
    requires process in s.history
    ensures process in NextAll(s, run).history && NextAll(s, run).history[process] == s.history[process]
    decreases |run|
  {
    if run != [] {
      HistoryStays(s, run[0], process);
      HistoryStaysByRun(Next(s, run[0]), run[1..], process);
    }
  }

  /**
   Progress: in a run without faults, a process loses its snapshot and its
   cleanup job within five attempts of being enqueued. Five minus the attempts
   begun is the measure: it is never negative while the snapshot is stored, and
   positive while no attempt is in flight.
   */
  lemma RemovedWithinFiveAttempts(s: State, process: string, snap: Snapshot, run: seq<Action>)
    requires Inv(s) && OnTrack(s) && EnqueueStep(s, process, snap) != s
    requires FaultFree(EnqueueStep(s, process, snap), run)
    ensures
      var t := NextAll(EnqueueStep(s, process, snap), run);
      var begun := AttemptsBegun(EnqueueStep(s, process, snap), run, snap.messageJob);
      && (process in t.db.snapshots ==> begun <= 5 && (snap.messageJob !in t.runs ==> begun < 5))
      && (process !in t.db.snapshots ==> snap.cleanupJob in t.db.jobs ==>
            snap.cleanupJob in t.runs && t.runs[snap.cleanupJob].progress == Returning(true))
  {
    EnqueueStarts(s, process, snap);
    CountedFromEnqueue(EnqueueStep(s, process, snap), run, process);
  }

  lemma CountedFromEnqueue(s: State, run: seq<Action>, process: string)
    requires Inv(s) && OnTrack(s) && FaultFree(s, run)
    requires process in s.db.snapshots && process in s.history && s.history[process].messageJob in s.db.jobs
    requires s.db.jobs[s.history[process].messageJob].attempts == 0
    ensures
      var t, snap := NextAll(s, run), s.history[process];
      var begun := AttemptsBegun(s, run, snap.messageJob);
      && (process in t.db.snapshots ==> begun <= 5 && (snap.messageJob !in t.runs ==> begun < 5))
      && (process !in t.db.snapshots ==> snap.cleanupJob in t.db.jobs ==>
            snap.cleanupJob in t.runs && t.runs[snap.cleanupJob].progress == Returning(true))
  {
    TrackKeptByRun(s, run);
    HistoryStaysByRun(s, run, process);
    assert ProcessOnTrack(NextAll(s, run), process);
    if process in NextAll(s, run).db.snapshots {
      AttemptsAreCounted(s, run, process);
    }
  }

  /** Where the progress result starts: every state a fault-free run reaches. */
  lemma FaultFreeRunsAreOnTrack(run: seq<Action>)
    requires FaultFree(START, run)
    ensures Inv(NextAll(START, run)) && OnTrack(NextAll(START, run))
  {
    TrackKeptByRun(START, run);
  }

  lemma EnqueueStarts(s: State, process: string, snap: Snapshot)
    requires Inv(s) && OnTrack(s) && EnqueueStep(s, process, snap) != s
    ensures
      var t := EnqueueStep(s, process, snap);
      && Inv(t) && OnTrack(t) && process in t.db.snapshots && process in t.history && t.history[process] == snap
      && snap.messageJob in t.db.jobs && t.db.jobs[snap.messageJob].attempts == 0
  {
    EnqueueKeepsTables(s, process, snap);
    EnqueueKeepsJobs(s, process, snap);
    forall p | p in EnqueueStep(s, process, snap).history
      ensures ProcessOnTrack(EnqueueStep(s, process, snap), p)
    {
      EnqueueKeepsTrack(s, process, snap, p);
    }
    EnqueueStores(s, process, snap);
  }

  lemma EnqueueStores(s: State, process: string, snap: Snapshot)
    requires EnqueueStep(s, process, snap) != s
    ensures
      var t := EnqueueStep(s, process, snap);
      && process in t.db.snapshots && process in t.history && t.history[process] == snap
      && snap.messageJob in t.db.jobs && t.db.jobs[snap.messageJob].attempts == 0
  {
  }
}
