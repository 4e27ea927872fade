/**
 The mention-all handlers as the processor runs them, statement by statement on
 the tables, with every transaction rolled back when one of its statements fails.
 */
module MentionAllHandlers {
  import opened Results
  import opened MentionAll

  /**
   What the world answers during one attempt; failsAt numbers the failing statement
   of the closing transaction, 0 for none.
   */
  datatype Answers = Answers(findFails: bool, idsFail: bool, lookupFails: bool, instance: InstanceAnswer,
                             send: SendAnswer, failsAt: nat)

  /** processMentionAllJob: what the attempt knows when it is about to be closed. */
  function Execution(db: Db, snap: Snapshot, w: Answers): Progress {
    if w.lookupFails || w.instance.InstanceMissing? then Failed(snap, false)
    else if w.instance.InstanceReplaced? then Failed(snap, true)
    else if Key(snap) in db.messages then Executed(snap, true)
    else
      match w.send
      case NotAttempted(invalid) => Failed(snap, invalid)
      case Rejected => Failed(snap, false)
      case Accepted => Executed(snap, false)
      case AcceptedButReportedFailed => Failed(snap, false)
  }

  predicate ReachesSend(db: Db, snap: Snapshot, w: Answers) {
    !w.lookupFails && w.instance.InstanceFound? && Key(snap) !in db.messages
  }

  function SentBy(db: Db, process: string, snap: Snapshot, w: Answers): seq<Sent> {
    if ReachesSend(db, snap, w) && (w.send.Accepted? || w.send.AcceptedButReportedFailed?)
    then [Sent(process, snap.messageId)] else []
  }

  datatype Ending = Ending(db: Db, sends: seq<Sent>, ok: bool)

  /** The transaction that closes an attempt, if it may be closed and commits. */
  function Closing(db: Db, process: string, attempt: int, execution: Progress, commits: bool): Option<Db>
    requires execution.Executed? || execution.Failed?
  {
    if !commits then None
    else if execution.Executed? then SuccessTx(db, process, execution.snap, execution.existing)
    else if execution.invalid || attempt >= MAX_TRIES then Some(FailureTx(db, process, execution.snap))
    else None
  }

  function Ended(db: Db, sends: seq<Sent>, closed: Option<Db>): Ending {
    Ending(if closed.Some? then closed.value else db, sends, closed.Some?)
  }

  /** One attempt of a message job, uninterrupted: the tables, the sends and the handler's answer. */
  function Attempt(db: Db, sends: seq<Sent>, process: string, attempt: int, now: Time, retention: Time,
                   w: Answers): Ending {
    if w.findFails then Ending(db, sends, false)
    else if process !in db.snapshots then Ending(db, sends, true)
    else
      var snap := db.snapshots[process];
      if !snap.readable && w.idsFail then Ending(db, sends, false)
      else if !snap.readable || now >= snap.createdAt + retention then
        Ended(db, sends, if w.failsAt == 0 then Some(DropTx(db, process, snap.messageJob, snap.cleanupJob)) else None)
      else
        Ended(db, sends + SentBy(db, process, snap, w),
              Closing(db, process, attempt, Execution(db, snap, w), w.failsAt == 0))
  }

  // ---------------------------------------------------------------- an attempt is a piece of a run

  function CloseSteps(db: Db, job: string, snap: Snapshot, w: Answers): seq<Action> {
    [LookupStep(job, w)] +
    if ReachesSend(db, snap, w) then [Send(job, w.send)] + [Finish(job, w.failsAt == 0)]
    else [Finish(job, w.failsAt == 0)]
  }

  function AttemptSteps(db: Db, job: string, process: string, now: Time, retention: Time, w: Answers): seq<Action> {
    if w.findFails then [StatementFails(job)]
    else if process !in db.snapshots then [Find(job, now, retention)]
    else
      [Find(job, now, retention)] + RestSteps(db, job, db.snapshots[process], now, retention, w)
  }

  lemma NextAllSplit(s: State, a: Action, rest: seq<Action>)
    ensures NextAll(s, [a] + rest) == NextAll(Next(s, a), rest)
  {
    assert ([a] + rest)[1..] == rest;
  }

  lemma FinishCloses(s: State, job: string, commits: bool)
    requires At(s, job, Process) && (s.runs[job].progress.Executed? || s.runs[job].progress.Failed?)
    ensures
      var e := Ended(s.db, s.sends,
                     Closing(s.db, s.runs[job].process, s.runs[job].attempt, s.runs[job].progress, commits));
      FinishStep(s, job, commits) == Move(s, job, Returning(e.ok)).(db := e.db)
  {
  }

  /** The lookups, and the send if there is one, leave the run with the execution and add its send. */
  lemma LookupExecutes(s: State, job: string, w: Answers)
    requires At(s, job, Process) && s.runs[job].progress.Loaded?
    ensures
      var snap := s.runs[job].progress.snap;
      var checked := if w.lookupFails then StatementFailsStep(s, job) else CheckStep(s, job, w.instance);
      checked == Move(s, job, if ReachesSend(s.db, snap, w) then Unsent(snap) else Execution(s.db, snap, w))
  {
  }

  lemma SendExecutes(s: State, job: string, w: Answers)
    requires At(s, job, Process) && s.runs[job].progress.Unsent? && ReachesSend(s.db, s.runs[job].progress.snap, w)
    ensures
      var snap := s.runs[job].progress.snap;
      SendStep(s, job, w.send)
      == Move(s, job, Execution(s.db, snap, w)).(sends := s.sends + SentBy(s.db, s.runs[job].process, snap, w))
  {
  }

  ghost predicate Closes(s: State, job: string, snap: Snapshot, w: Answers, t: State)
    requires job in s.runs
  {
    var run := s.runs[job];
    var e := Ended(s.db, s.sends + SentBy(s.db, run.process, snap, w),
                   Closing(s.db, run.process, run.attempt, Execution(s.db, snap, w), w.failsAt == 0));
    t == Move(s, job, Returning(e.ok)).(db := e.db, sends := e.sends)
  }

  lemma FinishEnds(s: State, job: string, snap: Snapshot, w: Answers)
    requires At(s, job, Process)
    ensures
      var sends := s.sends + SentBy(s.db, s.runs[job].process, snap, w);
      var executed := Move(s, job, Execution(s.db, snap, w)).(sends := sends);
      Closes(s, job, snap, w, NextAll(executed, [Finish(job, w.failsAt == 0)]))
  {
    var sends := s.sends + SentBy(s.db, s.runs[job].process, snap, w);
    var executed := Move(s, job, Execution(s.db, snap, w)).(sends := sends);
    FinishCloses(executed, job, w.failsAt == 0);
    LastStep(executed, Finish(job, w.failsAt == 0), FinishStep(executed, job, w.failsAt == 0));
  }

  lemma StepThen(s: State, a: Action, rest: seq<Action>, t: State, u: State)
    requires Next(s, a) == t && NextAll(t, rest) == u
    ensures NextAll(s, [a] + rest) == u
  {
    NextAllSplit(s, a, rest);
  }

  lemma SendThenFinish(s: State, job: string, w: Answers)
    requires At(s, job, Process) && s.runs[job].progress.Unsent? && ReachesSend(s.db, s.runs[job].progress.snap, w)
    ensures Closes(s, job, s.runs[job].progress.snap, w,
                   NextAll(s, [Send(job, w.send)] + [Finish(job, w.failsAt == 0)]))
  {
    var snap := s.runs[job].progress.snap;
    var sends := s.sends + SentBy(s.db, s.runs[job].process, snap, w);
    var executed := Move(s, job, Execution(s.db, snap, w)).(sends := sends);
    SendExecutes(s, job, w);
    FinishEnds(s, job, snap, w);
    StepThen(s, Send(job, w.send), [Finish(job, w.failsAt == 0)], executed,
             NextAll(executed, [Finish(job, w.failsAt == 0)]));
  }

  function LookupStep(job: string, w: Answers): Action {
    if w.lookupFails then StatementFails(job) else Check(job, w.instance)
  }

  lemma LookupStepMoves(s: State, job: string, w: Answers)
    requires At(s, job, Process) && s.runs[job].progress.Loaded?
    ensures
      var snap := s.runs[job].progress.snap;
      var reached := if ReachesSend(s.db, snap, w) then Unsent(snap) else Execution(s.db, snap, w);
      Next(s, LookupStep(job, w)) == Move(s, job, reached)
  {
    LookupExecutes(s, job, w);
  }

  lemma ClosesWithSend(s: State, job: string, w: Answers)
    requires At(s, job, Process) && s.runs[job].progress.Loaded? && ReachesSend(s.db, s.runs[job].progress.snap, w)
    ensures var snap := s.runs[job].progress.snap; Closes(s, job, snap, w, NextAll(s, CloseSteps(s.db, job, snap, w)))
  {
    var checked := Move(s, job, Unsent(s.runs[job].progress.snap));
    var rest := [Send(job, w.send)] + [Finish(job, w.failsAt == 0)];
    LookupStepMoves(s, job, w);
    SendThenFinish(checked, job, w);
    StepThen(s, LookupStep(job, w), rest, checked, NextAll(checked, rest));
  }

  lemma ClosesWithoutSend(s: State, job: string, w: Answers)
    requires At(s, job, Process) && s.runs[job].progress.Loaded? && !ReachesSend(s.db, s.runs[job].progress.snap, w)
    ensures var snap := s.runs[job].progress.snap; Closes(s, job, snap, w, NextAll(s, CloseSteps(s.db, job, snap, w)))
  {
    var snap := s.runs[job].progress.snap;
    var checked := Move(s, job, Execution(s.db, snap, w));
    var rest := [Finish(job, w.failsAt == 0)];
    LookupStepMoves(s, job, w);
    FinishEnds(s, job, snap, w);
    StepThen(s, LookupStep(job, w), rest, checked, NextAll(checked, rest));
  }

  lemma CloseStepsClose(s: State, job: string, w: Answers)
    requires At(s, job, Process) && s.runs[job].progress.Loaded?
    ensures var snap := s.runs[job].progress.snap; Closes(s, job, snap, w, NextAll(s, CloseSteps(s.db, job, snap, w)))
  {
    if ReachesSend(s.db, s.runs[job].progress.snap, w) {
      ClosesWithSend(s, job, w);
    } else {
      ClosesWithoutSend(s, job, w);
    }
  }

  lemma LastStep(s: State, a: Action, t: State)
    requires Next(s, a) == t
    ensures NextAll(s, [a]) == t
  {
    NextAllSplit(s, a, []);
    assert [a] + [] == [a];
  }

  lemma DropEnds(s: State, job: string, commits: bool)
    requires At(s, job, Process) && s.runs[job].progress.Dropping?
    ensures
      var d := s.runs[job].progress;
      var dropped := DropTx(s.db, s.runs[job].process, d.messageJob, d.cleanupJob);
      var e := Ended(s.db, s.sends, if commits then Some(dropped) else None);
      NextAll(s, [Drop(job, commits)]) == Move(s, job, Returning(e.ok)).(db := e.db)
  {
    LastStep(s, Drop(job, commits), DropStep(s, job, commits));
  }

  /** What Find tells the run about a snapshot that is stored. */
  lemma FindMoves(s: State, job: string, now: Time, retention: Time)
    requires At(s, job, Process) && s.runs[job].progress.Fresh? && s.runs[job].process in s.db.snapshots
    ensures
      var snap := s.db.snapshots[s.runs[job].process];
      FindStep(s, job, now, retention) ==
        Move(s, job, if !snap.readable then Unreadable
                     else if now >= snap.createdAt + retention then Dropping(snap.messageJob, snap.cleanupJob)
                     else Loaded(snap))
  {
  }

  lemma UnreadableIsDropped(s: State, job: string, commits: bool)
    requires At(s, job, Process) && s.runs[job].progress.Unreadable? && s.runs[job].process in s.db.snapshots
    ensures
      var snap := s.db.snapshots[s.runs[job].process];
      var dropped := DropTx(s.db, s.runs[job].process, snap.messageJob, snap.cleanupJob);
      var e := Ended(s.db, s.sends, if commits then Some(dropped) else None);
      NextAll(s, [FindIds(job), Drop(job, commits)]) == Move(s, job, Returning(e.ok)).(db := e.db)
  {
    var snap := s.db.snapshots[s.runs[job].process];
    assert FindIdsStep(s, job) == Move(s, job, Dropping(snap.messageJob, snap.cleanupJob));
    DropEnds(FindIdsStep(s, job), job, commits);
    NextAllSplit(s, FindIds(job), [Drop(job, commits)]);
    assert [FindIds(job)] + [Drop(job, commits)] == [FindIds(job), Drop(job, commits)];
  }

  /** The steps after Find, when the snapshot is stored. */
  function RestSteps(db: Db, job: string, snap: Snapshot, now: Time, retention: Time, w: Answers): seq<Action> {
    if !snap.readable then (if w.idsFail then [StatementFails(job)] else [FindIds(job), Drop(job, w.failsAt == 0)])
    else if now >= snap.createdAt + retention then [Drop(job, w.failsAt == 0)]
    else CloseSteps(db, job, snap, w)
  }

  ghost predicate Attempted(s: State, job: string, now: Time, retention: Time, w: Answers, t: State)
    requires job in s.runs
  {
    var e := Attempt(s.db, s.sends, s.runs[job].process, s.runs[job].attempt, now, retention, w);
    t == Move(s, job, Returning(e.ok)).(db := e.db, sends := e.sends)
  }

  lemma UnreadableAttempt(s: State, job: string, now: Time, retention: Time, w: Answers)
    requires At(s, job, Process) && s.runs[job].progress.Unreadable? && !w.findFails
            && s.runs[job].process in s.db.snapshots
    requires !s.db.snapshots[s.runs[job].process].readable
    ensures Attempted(s, job, now, retention, w,
                      NextAll(s, RestSteps(s.db, job, s.db.snapshots[s.runs[job].process], now, retention, w)))
  {
    if w.idsFail {
      LastStep(s, StatementFails(job), StatementFailsStep(s, job));
    } else {
      UnreadableIsDropped(s, job, w.failsAt == 0);
    }
  }

  lemma ReadableAttempt(s: State, job: string, now: Time, retention: Time, w: Answers)
    requires At(s, job, Process) && !w.findFails && s.runs[job].process in s.db.snapshots
    requires s.db.snapshots[s.runs[job].process].readable
    requires
      var snap := s.db.snapshots[s.runs[job].process];
      s.runs[job].progress ==
      if now >= snap.createdAt + retention then Dropping(snap.messageJob, snap.cleanupJob) else Loaded(snap)
    ensures Attempted(s, job, now, retention, w,
                      NextAll(s, RestSteps(s.db, job, s.db.snapshots[s.runs[job].process], now, retention, w)))
  {
    if now >= s.db.snapshots[s.runs[job].process].createdAt + retention {
      DropEnds(s, job, w.failsAt == 0);
    } else {
      CloseStepsClose(s, job, w);
    }
  }

  lemma StoredAttemptIsARun(s: State, job: string, now: Time, retention: Time, w: Answers)
    requires At(s, job, Process) && s.runs[job].progress.Fresh? && !w.findFails && s.runs[job].process in s.db.snapshots
    ensures Attempted(s, job, now, retention, w,
                      NextAll(s, AttemptSteps(s.db, job, s.runs[job].process, now, retention, w)))
  {
    var snap := s.db.snapshots[s.runs[job].process];
    var found := FindStep(s, job, now, retention);
    var rest := RestSteps(s.db, job, snap, now, retention, w);
    FindMoves(s, job, now, retention);
    if !snap.readable {
      UnreadableAttempt(found, job, now, retention, w);
    } else {
      ReadableAttempt(found, job, now, retention, w);
    }
    StepThen(s, Find(job, now, retention), rest, found, NextAll(found, rest));
  }

  /** The attempt the handler makes is a piece of a run: everything proved of runs holds of it. */
  lemma AttemptIsARun(s: State, job: string, now: Time, retention: Time, w: Answers)
    requires At(s, job, Process) && s.runs[job].progress.Fresh?
    ensures Attempted(s, job, now, retention, w,
                      NextAll(s, AttemptSteps(s.db, job, s.runs[job].process, now, retention, w)))
  {
    if w.findFails {
      LastStep(s, StatementFails(job), StatementFailsStep(s, job));
    } else if s.runs[job].process !in s.db.snapshots {
      LastStep(s, Find(job, now, retention), FindStep(s, job, now, retention));
    } else {
      StoredAttemptIsARun(s, job, now, retention, w);
    }
  }

  function CleanupSteps(db: Db, job: string, process: string, findFails: bool, failsAt: nat): seq<Action> {
    if findFails then [StatementFails(job)]
    else if process !in db.snapshots then [FindForCleanup(job)]
    else [FindForCleanup(job)] + [Expire(job, failsAt == 0)]
  }

  /** So is the cleanup: it takes the snapshot and its message job, or nothing when something fails. */
  lemma CleanupIsARun(s: State, job: string, findFails: bool, failsAt: nat)
    requires At(s, job, Cleanup) && s.runs[job].progress.Fresh?
    ensures
      var process := s.runs[job].process;
      var ok := !findFails && (process in s.db.snapshots ==> failsAt == 0);
      var t := NextAll(s, CleanupSteps(s.db, job, process, findFails, failsAt));
      && t == Move(s, job, Returning(ok)).(db := t.db)
      && t.db == if !ok || process !in s.db.snapshots then s.db
                 else s.db.(snapshots := s.db.snapshots - {process},
                            jobs := s.db.jobs - {s.db.snapshots[process].messageJob})
  {
    var process := s.runs[job].process;
    if findFails {
      LastStep(s, StatementFails(job), StatementFailsStep(s, job));
    } else if process !in s.db.snapshots {
      LastStep(s, FindForCleanup(job), FindForCleanupStep(s, job));
    } else {
      var found := Move(s, job, Expiring(s.db.snapshots[process].messageJob));
      assert FindForCleanupStep(s, job) == found;
      LastStep(found, Expire(job, failsAt == 0), ExpireStep(found, job, failsAt == 0));
      StepThen(s, FindForCleanup(job), [Expire(job, failsAt == 0)], found, ExpireStep(found, job, failsAt == 0));
    }
  }

  /**
   A snapshot that is gone means the work is done, except between the two reads of
   one that does not decode: then the attempt ends in an error.
   */
  lemma Vanished(s: State, job: string, now: Time, retention: Time)
    requires job in s.runs && s.runs[job].process !in s.db.snapshots
    ensures At(s, job, Process) && s.runs[job].progress.Fresh? ==>
              Next(s, Find(job, now, retention)) == Move(s, job, Returning(true))
    ensures At(s, job, Process) && s.runs[job].progress.Unreadable? ==>
              Next(s, FindIds(job)) == Move(s, job, Returning(false))
    ensures At(s, job, Cleanup) && s.runs[job].progress.Fresh? ==>
              Next(s, FindForCleanup(job)) == Move(s, job, Returning(true))
  {
  }

  // ---------------------------------------------------------------- the queue

  /** A job is taken up when it is queued and not running, and every taking up counts. */
  lemma TakingUp(s: State, job: string)
    ensures job in s.db.jobs && job !in s.runs ==>
              var t, was := Next(s, Reserve(job)), s.db.jobs[job];
              && t.runs == s.runs[job := Run(was.kind, was.process, was.attempts + 1, Fresh)]
              && t.db == s.db.(jobs := s.db.jobs[job := was.(attempts := was.attempts + 1)])
    ensures job !in s.db.jobs || job in s.runs ==> Next(s, Reserve(job)) == s
  {
  }

  /**
   A run that ends well takes its job along. One that ends in an error leaves it
   for another attempt, unless it was the fifth of a message job: that becomes a
   dead letter. A cleanup job never does.
   */
  lemma Finishing(s: State, job: string)
    requires job in s.runs && s.runs[job].progress.Returning?
    ensures
      var t, was := Next(s, Return(job)), s.runs[job];
      && job !in t.runs && t.runs == s.runs - {job} && t.db.snapshots == s.db.snapshots
      && t.db.outcomes == s.db.outcomes
      && (was.progress.ok ==> t.db.jobs == s.db.jobs - {job} && t.dead == s.dead)
      && (!was.progress.ok && (was.kind == Cleanup || was.attempt < 5) ==> t.db == s.db && t.dead == s.dead)
      && (!was.progress.ok && was.kind == Process && was.attempt >= 5 && job in s.db.jobs ==>
            t.db.jobs == s.db.jobs - {job} && t.dead == s.dead[job := s.db.jobs[job]])
  {
  }

  /** A message job used up by crashes is given up without running; a retry by hand starts counting from zero. */
  lemma GivingUp(s: State, job: string)
    ensures job in s.db.jobs && job !in s.runs && s.db.jobs[job].kind == Process && s.db.jobs[job].attempts >= 5 ==>
              var t := Next(s, GiveUp(job));
              t == s.(db := s.db.(jobs := s.db.jobs - {job}), dead := s.dead[job := s.db.jobs[job]])
    ensures job in s.db.jobs && (s.db.jobs[job].kind == Cleanup || s.db.jobs[job].attempts < 5) ==>
              Next(s, GiveUp(job)) == s
    ensures job in s.dead && job !in s.db.jobs ==>
              var t := Next(s, Requeue(job));
              && t.dead == s.dead - {job}
              && t.db == s.db.(jobs := s.db.jobs[job := Job(s.dead[job].kind, s.dead[job].process, 0)])
    ensures Next(s, Crash(job)) == s.(runs := s.runs - {job})
  {
  }

  /** A deleted instance takes its own snapshots and message rows along, and leaves jobs and outcomes. */
  lemma Deleting(s: State, instanceId: int, process: string, row: (int, string))
    ensures
      var t := Next(s, DeleteInstance(instanceId));
      && (process in t.db.snapshots <==>
            process in s.db.snapshots && s.db.snapshots[process].instanceId != instanceId)
      && (process in t.db.snapshots ==> t.db.snapshots[process] == s.db.snapshots[process])
      && (row in t.db.messages <==> row in s.db.messages && row.0 != instanceId)
      && t.db.deleted == s.db.deleted + {instanceId}
      && t == s.(db := t.db) && t.db.jobs == s.db.jobs && t.db.outcomes == s.db.outcomes
    ensures instanceId !in s.db.deleted ==>
              Next(s, Echo(instanceId, row.1)) == s.(db := s.db.(messages := s.db.messages + {(instanceId, row.1)}))
    ensures instanceId in s.db.deleted ==> Next(s, Echo(instanceId, row.1)) == s
  {
  }

  predicate AnswersFail(w: Answers) {
    w.findFails || w.idsFail || w.failsAt != 0
  }

  /** A snapshot whose instance is gone; the deletion of an instance leaves none. */
  predicate Orphaned(db: Db, process: string) {
    process in db.snapshots && db.snapshots[process].instanceId in db.deleted
  }

  /** The characters strings.TrimSpace removes. */
  predicate IsSpace(c: char) {
    var n := c as int;
    || 9 <= n <= 13 || n == 0x20 || n == 0x85 || n == 0xA0 || n == 0x1680 || 0x2000 <= n <= 0x200A
    || n == 0x2028 || n == 0x2029 || n == 0x202F || n == 0x205F || n == 0x3000
  }

  predicate Blank(s: string) {
    forall i | 0 <= i < |s| :: IsSpace(s[i])
  }

  /** Exactly the white space of Unicode is blank; one visible ASCII character is enough not to be. */
  lemma WhatIsBlank(s: string, i: nat)
    ensures Blank("") && Blank("\t\n\U{000B}\U{000C}\r \U{0085}\U{00A0}\U{1680}")
    ensures Blank("\U{2028}\U{2029}\U{202F}\U{205F}\U{3000}")
    ensures Blank("\U{2000}\U{2001}\U{2002}\U{2003}\U{2004}\U{2005}\U{2006}\U{2007}\U{2008}\U{2009}\U{200A}")
    ensures i < |s| && '!' <= s[i] <= '~' ==> !Blank(s)
  {
  }

  /** Job ids are UUIDs. */
  predicate NoBlankIds(jobs: map<string, Job>) {
    forall j | j in jobs :: !Blank(j)
  }

  /** The attempt finds a snapshot that decodes and has not expired. */
  predicate UnderWay(db: Db, process: string, now: Time, retention: Time, w: Answers) {
    !w.findFails && process in db.snapshots && db.snapshots[process].readable
    && now < db.snapshots[process].createdAt + retention
  }

  predicate NoRowYet(db: Db, process: string)
    requires process in db.snapshots
  {
    (db.snapshots[process].instanceId, db.snapshots[process].messageId) !in db.messages
  }

  /** What goes wrong may go right next time: a lookup, the instance, or the send. */
  predicate Curable(db: Db, process: string, w: Answers)
    requires process in db.snapshots
  {
    || w.lookupFails || w.instance.InstanceMissing?
    || (w.instance.InstanceFound? && NoRowYet(db, process)
        && (w.send.Rejected? || w.send.AcceptedButReportedFailed? || w.send == NotAttempted(false)))
  }

  /** The instance is another one now, or the snapshot turns out to be undecodable. */
  predicate Incurable(db: Db, process: string, w: Answers)
    requires process in db.snapshots
  {
    !w.lookupFails
    && (w.instance.InstanceReplaced?
        || (w.instance.InstanceFound? && NoRowYet(db, process) && w.send == NotAttempted(true)))
  }

  /** The message is there already, or is taken now. */
  predicate Done(db: Db, process: string, w: Answers)
    requires process in db.snapshots
  {
    !w.lookupFails && w.instance.InstanceFound? && (w.send.Accepted? || !NoRowYet(db, process))
  }

  lemma AttemptNeverHalfway(db: Db, sends: seq<Sent>, process: string, attempt: int, now: Time, retention: Time,
                            w: Answers)
    ensures
      var e := Attempt(db, sends, process, attempt, now, retention, w);
      && (e.ok ==> process !in e.db.snapshots)
      && (!e.ok ==> e.db == db)
      && db.outcomes <= e.db.outcomes && |e.db.outcomes| <= |db.outcomes| + 1
      && (e.db.outcomes != db.outcomes ==> process in db.snapshots && e.db.outcomes[|db.outcomes|].process == process)
      && sends <= e.sends && |e.sends| <= |sends| + 1
      && (e.sends != sends ==> process in db.snapshots && Key(db.snapshots[process]) !in db.messages
                               && e.sends[|sends|] == Sent(process, db.snapshots[process].messageId))
      && (attempt >= 5 && !AnswersFail(w) && !Orphaned(db, process) ==> e.ok)
  {
  }

  lemma AttemptRetries(db: Db, sends: seq<Sent>, process: string, attempt: int, now: Time, retention: Time, w: Answers)
    ensures
      var e := Attempt(db, sends, process, attempt, now, retention, w);
      && (UnderWay(db, process, now, retention, w) && Curable(db, process, w) ==>
            && (attempt < 5 ==> !e.ok && e.db == db)
            && (attempt >= 5 && w.failsAt == 0 ==> e.ok && e.db.outcomes == db.outcomes + [Failure(process)]))
      && (UnderWay(db, process, now, retention, w) && Incurable(db, process, w) ==>
            w.failsAt == 0 ==> e.ok && e.db.outcomes == db.outcomes + [Failure(process)])
      && (UnderWay(db, process, now, retention, w) && Done(db, process, w) && e.ok ==>
            var snap := db.snapshots[process];
            && e.db.outcomes == db.outcomes + [Success(process, snap.instanceId, snap.messageId)]
            && (snap.instanceId, snap.messageId) in e.db.messages && snap.cleanupJob !in e.db.jobs)
      && (process in db.snapshots && !w.findFails && db.snapshots[process].readable
          && now >= db.snapshots[process].createdAt + retention ==>
            e.db.outcomes == db.outcomes && e.sends == sends && (e.ok <==> w.failsAt == 0))
  {
  }

  class Processor {
    var snapshots: map<string, Snapshot>
    var jobs: map<string, Job>
    var messages: set<(int, string)>
    var outcomes: seq<Outcome>
    var deleted: set<int>
    var sends: seq<Sent>

    constructor ()
      ensures Database() == Db(map[], map[], {}, [], {}) && sends == []
    {
      snapshots, jobs, messages, outcomes, deleted, sends := map[], map[], {}, [], {}, [];
    }

    function Database(): Db
      reads this
    {
      Db(snapshots, jobs, messages, outcomes, deleted)
    }

    method Rollback(before: Db)
      requires before.deleted == deleted
      modifies `snapshots, `jobs, `messages, `outcomes
      ensures Database() == before
    {
      snapshots, jobs, messages, outcomes := before.snapshots, before.jobs, before.messages, before.outcomes;
    }

    method Enqueue(process: string, snap: Snapshot, failsAt: nat) returns (ok: bool)
      modifies `snapshots, `jobs, `messages, `outcomes
      ensures ok <==> CanStore(old(Database()), process, snap) && failsAt == 0
      ensures Database() == if ok then EnqueueTx(old(Database()), process, snap) else old(Database())
      ensures ok <==>
              && failsAt == 0 && process !in old(snapshots) && snap.instanceId !in deleted
              && forall p | p in old(snapshots) ::
                   old(snapshots)[p].instanceId != snap.instanceId || old(snapshots)[p].messageId != snap.messageId
      ensures ok ==>
              && snapshots == old(snapshots)[process := snap]
              && jobs == old(jobs)[snap.messageJob := Job(Process, process, 0)]
                                  [snap.cleanupJob := Job(Cleanup, process, 0)]
              && messages == old(messages) && outcomes == old(outcomes)
    {
      var before := Database();
      var taken := process in snapshots || exists p | p in snapshots :: Key(snapshots[p]) == Key(snap);
      if failsAt == 1 || snap.instanceId in deleted || taken {
        return false;
      }
      snapshots := snapshots[process := snap];
      if failsAt == 2 {
        Rollback(before);
        return false;
      }
      jobs := jobs[snap.messageJob := Job(Process, process, 0)];
      if failsAt >= 3 {
        Rollback(before);
        return false;
      }
      jobs := jobs[snap.cleanupJob := Job(Cleanup, process, 0)];
      return true;
    }

    method FinalizeSuccess(process: string, snap: Snapshot, existing: bool, failsAt: nat) returns (ok: bool)
      modifies `snapshots, `jobs, `messages, `outcomes
      ensures ok <==> SuccessTx(old(Database()), process, snap, existing).Some? && failsAt == 0
      ensures Database() == if ok then SuccessTx(old(Database()), process, snap, existing).value else old(Database())
      ensures ok <==>
              && failsAt == 0
              && (existing || ((snap.instanceId, snap.messageId) !in old(messages) && snap.instanceId !in deleted))
      ensures ok ==>
              && snapshots == old(snapshots) - {process} && jobs == old(jobs) - {snap.cleanupJob}
              && messages == old(messages) + (if existing then {} else {(snap.instanceId, snap.messageId)})
              && outcomes == old(outcomes) + [Success(process, snap.instanceId, snap.messageId)]
    {
      var before := Database();
      if !existing && (failsAt == 1 || Key(snap) in messages || snap.instanceId in deleted) {
        return false;
      }
      if !existing {
        messages := messages + {Key(snap)};
      }
      if failsAt == 1 || failsAt == 2 {
        Rollback(before);
        return false;
      }
      outcomes := outcomes + [Success(process, snap.instanceId, snap.messageId)];
      if failsAt == 3 {
        Rollback(before);
        return false;
      }
      jobs := jobs - {snap.cleanupJob};
      if failsAt >= 4 {
        Rollback(before);
        return false;
      }
      snapshots := snapshots - {process};
      return true;
    }

    method FinalizeFailure(process: string, snap: Snapshot, failsAt: nat) returns (ok: bool)
      modifies `snapshots, `jobs, `messages, `outcomes
      ensures ok <==> failsAt == 0
      ensures Database() == if ok then FailureTx(old(Database()), process, snap) else old(Database())
      ensures ok ==>
              && snapshots == old(snapshots) - {process} && jobs == old(jobs) - {snap.cleanupJob}
              && messages == old(messages) && outcomes == old(outcomes) + [Failure(process)]
    {
      var before := Database();
      if failsAt == 1 {
        return false;
      }
      outcomes := outcomes + [Failure(process)];
      if failsAt == 2 {
        Rollback(before);
        return false;
      }
      jobs := jobs - {snap.cleanupJob};
      if failsAt >= 3 {
        Rollback(before);
        return false;
      }
      snapshots := snapshots - {process};
      return true;
    }

    method RemoveSnapshotAndJobs(process: string, messageJob: string, cleanupJob: string, failsAt: nat)
      returns (ok: bool)
      modifies `snapshots, `jobs, `messages, `outcomes
      ensures ok <==> failsAt == 0
      ensures !ok ==> Database() == old(Database())
      ensures ok ==>
              && snapshots == old(snapshots) - {process}
              && jobs == old(jobs) - (set id | id in {messageJob, cleanupJob} && !Blank(id))
              && messages == old(messages) && outcomes == old(outcomes)
      ensures ok && NoBlankIds(old(jobs)) ==> Database() == DropTx(old(Database()), process, messageJob, cleanupJob)
    {
      var before := Database();
      var ids := [messageJob, cleanupJob];
      for i := 0 to |ids|
        invariant Database() == before.(jobs := before.jobs - (set k | 0 <= k < i && !Blank(ids[k]) :: ids[k]))
      {
        if Blank(ids[i]) {
          continue;
        }
        if failsAt == i + 1 {
          Rollback(before);
          return false;
        }
        jobs := jobs - {ids[i]};
      }
      assert (set k | 0 <= k < |ids| && !Blank(ids[k]) :: ids[k])
          == (set id | id in {messageJob, cleanupJob} && !Blank(id)) by {
        assert ids[0] == messageJob && ids[1] == cleanupJob;
      }
      if failsAt >= 1 {
        Rollback(before);
        return false;
      }
      snapshots := snapshots - {process};
      return true;
    }

    /** Cleanup removes the snapshot and its message job, or, on any error, nothing; a missing snapshot is done. */
    method HandleCleanup(process: string, findFails: bool, failsAt: nat) returns (ok: bool)
      modifies `snapshots, `jobs, `messages, `outcomes
      ensures ok ==> process !in snapshots && outcomes == old(outcomes) && messages == old(messages)
      ensures ok <==> !findFails && (process in old(snapshots) ==> failsAt == 0)
      ensures Database() == if ok && process in old(snapshots)
                            then CleanupTx(old(Database()), process, old(snapshots)[process].messageJob)
                            else old(Database())
      ensures ok && process in old(snapshots) ==>
              && snapshots == old(snapshots) - {process}
              && jobs == old(jobs) - {old(snapshots)[process].messageJob}
    {
      if findFails {
        return false;
      }
      if process !in snapshots {
        return true;
      }
      var before := Database();
      var messageJob := snapshots[process].messageJob;
      if failsAt == 1 {
        return false;
      }
      jobs := jobs - {messageJob};
      if failsAt >= 2 {
        Rollback(before);
        return false;
      }
      snapshots := snapshots - {process};
      return true;
    }

    method RunAttempt(process: string, attempt: int, now: Time, retention: Time, w: Answers) returns (ok: bool)
      requires NoBlankIds(jobs)
      modifies this
      ensures Ending(Database(), sends, ok) == Attempt(old(Database()), old(sends), process, attempt, now, retention, w)
    {
      if w.findFails {
        return false;
      }
      if process !in snapshots {
        return true;
      }
      var snap := snapshots[process];
      if !snap.readable {
        if w.idsFail {
          return false;
        }
        ok := RemoveSnapshotAndJobs(process, snap.messageJob, snap.cleanupJob, w.failsAt);
        return;
      }
      if now >= snap.createdAt + retention {
        ok := RemoveSnapshotAndJobs(process, snap.messageJob, snap.cleanupJob, w.failsAt);
        return;
      }
      var execution := ProcessMentionAll(process, snap, w);
      if execution.Failed? {
        if execution.invalid || attempt >= MAX_TRIES {
          ok := FinalizeFailure(process, snap, w.failsAt);
          return;
        }
        return false;
      }
      ok := FinalizeSuccess(process, snap, execution.existing, w.failsAt);
    }

    /**
     One attempt of the message job, run without interruption. A nil return
     means the snapshot is gone, an error means nothing was committed; an
     attempt adds at most one outcome and at most one send, and no send where a
     message row exists already. Attempts one to four that fail leave everything
     for the next; the fifth commits the failure, and a failure that no attempt
     can cure is committed at once.
     */
    method Handle(process: string, attempts: int, now: Time, retention: Time, w: Answers) returns (ok: bool)
      requires NoBlankIds(jobs)
      modifies this
      ensures Ending(Database(), sends, ok)
              == Attempt(old(Database()), old(sends), process, if attempts < 1 then 1 else attempts, now, retention, w)
      ensures ok ==> process !in snapshots
      ensures !ok ==> Database() == old(Database())
      ensures old(outcomes) <= outcomes && |outcomes| <= |old(outcomes)| + 1
      ensures outcomes != old(outcomes) ==> process in old(snapshots) && outcomes[|old(outcomes)|].process == process
      ensures old(sends) <= sends && |sends| <= |old(sends)| + 1
      ensures sends != old(sends) ==> process in old(snapshots) && Key(old(snapshots)[process]) !in old(messages)
                                      && sends[|old(sends)|] == Sent(process, old(snapshots)[process].messageId)
      ensures attempts >= 5 && !AnswersFail(w) && !Orphaned(old(Database()), process) ==> ok
      ensures UnderWay(old(Database()), process, now, retention, w) && Curable(old(Database()), process, w) ==>
              && (attempts < 5 ==> !ok && process in snapshots && outcomes == old(outcomes))
              && (attempts >= 5 && w.failsAt == 0 ==> ok && outcomes == old(outcomes) + [Failure(process)])
      ensures UnderWay(old(Database()), process, now, retention, w) && Incurable(old(Database()), process, w) ==>
              w.failsAt == 0 ==> ok && outcomes == old(outcomes) + [Failure(process)]
      ensures UnderWay(old(Database()), process, now, retention, w) && Done(old(Database()), process, w) ==>
              var snap := old(snapshots)[process];
              ok ==> outcomes == old(outcomes) + [Success(process, snap.instanceId, snap.messageId)]
                     && (snap.instanceId, snap.messageId) in messages && snap.cleanupJob !in jobs
      ensures process in old(snapshots) && !w.findFails && old(snapshots)[process].readable
              && now >= old(snapshots)[process].createdAt + retention ==>
              outcomes == old(outcomes) && sends == old(sends) && (ok <==> w.failsAt == 0)
    {
      AttemptNeverHalfway(Database(), sends, process, if attempts < 1 then 1 else attempts, now, retention, w);
      AttemptRetries(Database(), sends, process, if attempts < 1 then 1 else attempts, now, retention, w);
      ok := RunAttempt(process, if attempts < 1 then 1 else attempts, now, retention, w);
    }

    /** Look up the instance and the message row, and send only when there is no row. */
    method ProcessMentionAll(process: string, snap: Snapshot, w: Answers) returns (execution: Progress)
      modifies `sends
      ensures execution == Execution(Database(), snap, w) && sends == old(sends) + SentBy(Database(), process, snap, w)
      ensures execution.Executed? || execution.Failed?
      ensures execution.Executed? && execution.existing <==> execution.Executed? && Key(snap) in messages
      ensures execution == Executed(snap, false) ==> sends == old(sends) + [Sent(process, snap.messageId)]
    {
      if w.lookupFails || w.instance.InstanceMissing? {
        return Failed(snap, false);
      }
      if w.instance.InstanceReplaced? {
        return Failed(snap, true);
      }
      if Key(snap) in messages {
        return Executed(snap, true);
      }
      match w.send {
        case NotAttempted(invalid) => return Failed(snap, invalid);
        case Rejected => return Failed(snap, false);
        case Accepted =>
          sends := sends + [Sent(process, snap.messageId)];
          return Executed(snap, false);
        case AcceptedButReportedFailed =>
          sends := sends + [Sent(process, snap.messageId)];
          return Failed(snap, false);
      }
    }
  }
}
