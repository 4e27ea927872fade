/**
 Durable mention-all: a transactional outbox. A run is a sequence of atomic
 steps: transactions, single statements, and the queue's own moves. Handlers of
 different jobs interleave; any handler may crash between two steps.

 The queue keeps its contract: at most one run of a job at a time, one attempt
 counted per run, and a job leaves the queue only when it is deleted, when its
 handler returns nil, or when its tries are used up (never for a cleanup job).
 */
module MentionAll {
  import opened Results

  type Time = int

  const MAX_TRIES := 5

  /** A stored snapshot; readable says whether its encoded columns still decode. */
  datatype Snapshot = Snapshot(messageJob: string, cleanupJob: string, instanceId: int, messageId: string,
                               createdAt: Time, readable: bool)

  datatype JobKind = Process | Cleanup

  datatype Job = Job(kind: JobKind, process: string, attempts: nat)

  datatype Outcome =
    | Success(process: string, instanceId: int, messageId: string)
    | Failure(process: string)

  /** The tables, and the ids of the instances that were deleted; ids are never given again. */
  datatype Db = Db(
    snapshots: map<string, Snapshot>, jobs: map<string, Job>, messages: set<(int, string)>, outcomes: seq<Outcome>,
    deleted: set<int>)

  // ---------------------------------------------------------------- transactions

  function Key(snap: Snapshot): (int, string) {
    (snap.instanceId, snap.messageId)
  }

  /**
   The unique keys of the snapshot table, process and message within an instance,
   and its reference to the instance.
   */
  predicate CanStore(db: Db, process: string, snap: Snapshot) {
    && process !in db.snapshots && snap.instanceId !in db.deleted
    && (forall p | p in db.snapshots :: Key(db.snapshots[p]) != Key(snap))
  }

  function EnqueueTx(db: Db, process: string, snap: Snapshot): Db {
    db.(snapshots := db.snapshots[process := snap],
        jobs := db.jobs[snap.messageJob := Job(Process, process, 0)][snap.cleanupJob := Job(Cleanup, process, 0)])
  }

  /** Whether the message row of this snapshot can be inserted: it is not there yet, and its instance still is. */
  predicate CanInsert(db: Db, snap: Snapshot) {
    Key(snap) !in db.messages && snap.instanceId !in db.deleted
  }

  /** finalizeSuccess commits unless it has to insert a message row and cannot. */
  function SuccessTx(db: Db, process: string, snap: Snapshot, existing: bool): Option<Db> {
    if !existing && !CanInsert(db, snap) then None
    else Some(db.(snapshots := db.snapshots - {process}, jobs := db.jobs - {snap.cleanupJob},
                  messages := if existing then db.messages else db.messages + {Key(snap)},
                  outcomes := db.outcomes + [Success(process, snap.instanceId, snap.messageId)]))
  }

  function FailureTx(db: Db, process: string, snap: Snapshot): Db {
    db.(snapshots := db.snapshots - {process}, jobs := db.jobs - {snap.cleanupJob},
        outcomes := db.outcomes + [Failure(process)])
  }

  /** removeSnapshotAndJobs: no outcome is recorded. */
  function DropTx(db: Db, process: string, messageJob: string, cleanupJob: string): Db {
    db.(snapshots := db.snapshots - {process}, jobs := db.jobs - {messageJob, cleanupJob})
  }

  function CleanupTx(db: Db, process: string, messageJob: string): Db {
    db.(snapshots := db.snapshots - {process}, jobs := db.jobs - {messageJob})
  }

  /** Deleting an instance takes its snapshots and message rows along; the queue knows nothing of it. */
  function DeleteInstanceTx(db: Db, instanceId: int): Db {
    db.(snapshots := (map p | p in db.snapshots && db.snapshots[p].instanceId != instanceId :: db.snapshots[p]),
        messages := (set m | m in db.messages && m.0 != instanceId),
        deleted := db.deleted + {instanceId})
  }

  // ---------------------------------------------------------------- steps

  /** How far the one run of a job has come. */
  datatype Progress =
    | Fresh
    | Unreadable
    | Dropping(messageJob: string, cleanupJob: string)
    | Loaded(snap: Snapshot)
    | Unsent(snap: Snapshot)
    | Executed(snap: Snapshot, existing: bool)
    | Failed(snap: Snapshot, invalid: bool)
    | Expiring(messageJob: string)
    | Returning(ok: bool)

  datatype Run = Run(kind: JobKind, process: string, attempt: nat, progress: Progress)

  datatype Sent = Sent(process: string, messageId: string)

  /** The database, the runs in flight, the dead letters, and the history of everything enqueued and sent. */
  datatype State = State(db: Db, runs: map<string, Run>, dead: map<string, Job>, history: map<string, Snapshot>,
                         issued: map<string, (JobKind, string)>, sends: seq<Sent>)

  datatype InstanceAnswer = InstanceMissing | InstanceReplaced | InstanceFound

  /** Everything between the message lookup and the answer of the send call. */
  datatype SendAnswer = NotAttempted(invalid: bool) | Rejected | Accepted | AcceptedButReportedFailed

  datatype Action =
    | Enqueue(process: string, snap: Snapshot)
    | Reserve(job: string)
    | Find(job: string, now: Time, retention: Time)
    | FindIds(job: string)
    | Drop(job: string, commit: bool)
    | Check(job: string, answer: InstanceAnswer)
    | Send(job: string, outcome: SendAnswer)
    | Finish(job: string, commit: bool)
    | FindForCleanup(job: string)
    | Expire(job: string, commit: bool)
    | StatementFails(job: string)
    | Return(job: string)
    | Crash(job: string)
    | GiveUp(job: string)
    | Requeue(job: string)
    | Echo(instanceId: int, messageId: string)
    | DeleteInstance(instanceId: int)

  /** Steps of callers rather than of the queue and its handlers. */
  predicate Outside(a: Action) {
    a.Enqueue? || a.Echo? || a.DeleteInstance?
  }

  /** The queue's own moves. */
  predicate OfQueue(a: Action) {
    a.Reserve? || a.Return? || a.Crash? || a.GiveUp? || a.Requeue?
  }

  /** The steps of a handler in flight, in two halves: what it looks up, and what it does. */
  predicate LooksUp(a: Action) {
    a.Find? || a.FindIds? || a.Check? || a.FindForCleanup? || a.StatementFails?
  }

  predicate Acts(a: Action) {
    a.Drop? || a.Send? || a.Finish? || a.Expire?
  }

  function Move(s: State, job: string, progress: Progress): State
    requires job in s.runs
  {
    s.(runs := s.runs[job := s.runs[job].(progress := progress)])
  }

  predicate At(s: State, job: string, kind: JobKind) {
    job in s.runs && s.runs[job].kind == kind
  }

  /** The snapshot and both jobs are stored together or not at all. */
  function EnqueueStep(s: State, process: string, snap: Snapshot): State {
    if process in s.history || snap.messageJob in s.issued || snap.cleanupJob in s.issued
       || snap.messageJob == snap.cleanupJob || !CanStore(s.db, process, snap) then s
    else s.(db := EnqueueTx(s.db, process, snap), history := s.history[process := snap],
            issued := s.issued[snap.messageJob := (Process, process)][snap.cleanupJob := (Cleanup, process)])
  }

  function ReserveStep(s: State, job: string): State {
    if job !in s.db.jobs || job in s.runs then s
    else
      var taken := s.db.jobs[job].(attempts := s.db.jobs[job].attempts + 1);
      s.(db := s.db.(jobs := s.db.jobs[job := taken]),
         runs := s.runs[job := Run(taken.kind, taken.process, taken.attempts, Fresh)])
  }

  function FindStep(s: State, job: string, now: Time, retention: Time): State {
    if !At(s, job, Process) || !s.runs[job].progress.Fresh? then s
    else
      var process := s.runs[job].process;
      if process !in s.db.snapshots then Move(s, job, Returning(true))
      else
        var snap := s.db.snapshots[process];
        if !snap.readable then Move(s, job, Unreadable)
        else if now >= snap.createdAt + retention then Move(s, job, Dropping(snap.messageJob, snap.cleanupJob))
        else Move(s, job, Loaded(snap))
  }

  /** The job ids of a snapshot whose other columns do not decode. */
  function FindIdsStep(s: State, job: string): State {
    if !At(s, job, Process) || !s.runs[job].progress.Unreadable? then s
    else
      var process := s.runs[job].process;
      if process !in s.db.snapshots then Move(s, job, Returning(false))
      else Move(s, job, Dropping(s.db.snapshots[process].messageJob, s.db.snapshots[process].cleanupJob))
  }

  function DropStep(s: State, job: string, commit: bool): State {
    if !At(s, job, Process) || !s.runs[job].progress.Dropping? then s
    else if !commit then Move(s, job, Returning(false))
    else
      var at := s.runs[job];
      Move(s, job, Returning(true)).(db := DropTx(s.db, at.process, at.progress.messageJob, at.progress.cleanupJob))
  }

  /** The instance lookup, then the lookup of the message row. */
  function CheckStep(s: State, job: string, answer: InstanceAnswer): State {
    if !At(s, job, Process) || !s.runs[job].progress.Loaded? then s
    else
      var snap := s.runs[job].progress.snap;
      match answer
      case InstanceMissing => Move(s, job, Failed(snap, false))
      case InstanceReplaced => Move(s, job, Failed(snap, true))
      case InstanceFound => Move(s, job, if Key(snap) in s.db.messages then Executed(snap, true) else Unsent(snap))
  }

  function SendStep(s: State, job: string, outcome: SendAnswer): State {
    if !At(s, job, Process) || !s.runs[job].progress.Unsent? then s
    else
      var snap := s.runs[job].progress.snap;
      var sent := s.sends + [Sent(s.runs[job].process, snap.messageId)];
      match outcome
      case NotAttempted(invalid) => Move(s, job, Failed(snap, invalid))
      case Rejected => Move(s, job, Failed(snap, false))
      case Accepted => Move(s, job, Executed(snap, false)).(sends := sent)
      case AcceptedButReportedFailed => Move(s, job, Failed(snap, false)).(sends := sent)
  }

  /** finalizeSuccess, finalizeFailure, or an error that leaves the job for another attempt. */
  function FinishStep(s: State, job: string, commit: bool): State {
    if !At(s, job, Process) then s
    else
      var at := s.runs[job];
      match at.progress
      case Executed(snap, existing) =>
        var done := SuccessTx(s.db, at.process, snap, existing);
        if commit && done.Some? then Move(s, job, Returning(true)).(db := done.value)
        else Move(s, job, Returning(false))
      case Failed(snap, invalid) =>
        if (invalid || at.attempt >= MAX_TRIES) && commit
        then Move(s, job, Returning(true)).(db := FailureTx(s.db, at.process, snap))
        else Move(s, job, Returning(false))
      case _ => s
  }

  function FindForCleanupStep(s: State, job: string): State {
    if !At(s, job, Cleanup) || !s.runs[job].progress.Fresh? then s
    else
      var process := s.runs[job].process;
      if process !in s.db.snapshots then Move(s, job, Returning(true))
      else Move(s, job, Expiring(s.db.snapshots[process].messageJob))
  }

  function ExpireStep(s: State, job: string, commit: bool): State {
    if !At(s, job, Cleanup) || !s.runs[job].progress.Expiring? then s
    else if !commit then Move(s, job, Returning(false))
    else Move(s, job, Returning(true)).(db := CleanupTx(s.db, s.runs[job].process, s.runs[job].progress.messageJob))
  }

  /**
   A lookup that errors: before the snapshot is loaded the handler returns,
   afterwards the attempt counts as failed.
   */
  function StatementFailsStep(s: State, job: string): State {
    if job !in s.runs then s
    else
      match s.runs[job].progress
      case Fresh => Move(s, job, Returning(false))
      case Unreadable => Move(s, job, Returning(false))
      case Loaded(snap) => Move(s, job, Failed(snap, false))
      case _ => s
  }

  /** The queue takes the handler's answer. */
  function ReturnStep(s: State, job: string): State {
    if job !in s.runs || !s.runs[job].progress.Returning? then s
    else
      var ended := s.(runs := s.runs - {job});
      if s.runs[job].progress.ok then ended.(db := s.db.(jobs := s.db.jobs - {job}))
      else if s.runs[job].kind == Process && s.runs[job].attempt >= MAX_TRIES && job in s.db.jobs
      then ended.(db := s.db.(jobs := s.db.jobs - {job}), dead := s.dead[job := s.db.jobs[job]])
      else ended
  }

  /** A message job whose tries were used up by crashes becomes a dead letter without running again. */
  function GiveUpStep(s: State, job: string): State {
    if job !in s.db.jobs || job in s.runs || s.db.jobs[job].kind == Cleanup || s.db.jobs[job].attempts < MAX_TRIES
    then s
    else s.(db := s.db.(jobs := s.db.jobs - {job}), dead := s.dead[job := s.db.jobs[job]])
  }

  /** queue:retry. */
  function RequeueStep(s: State, job: string): State {
    if job !in s.dead || job in s.db.jobs then s
    else s.(dead := s.dead - {job}, db := s.db.(jobs := s.db.jobs[job := s.dead[job].(attempts := 0)]))
  }

  /** WhatsApp's echo of a message is stored by another part of the module. */
  function EchoStep(s: State, instanceId: int, messageId: string): State {
    if instanceId in s.db.deleted then s else s.(db := s.db.(messages := s.db.messages + {(instanceId, messageId)}))
  }

  function Next(s: State, a: Action): State {
    match a
    case Enqueue(process, snap) => EnqueueStep(s, process, snap)
    case Reserve(job) => ReserveStep(s, job)
    case Find(job, now, retention) => FindStep(s, job, now, retention)
    case FindIds(job) => FindIdsStep(s, job)
    case Drop(job, commit) => DropStep(s, job, commit)
    case Check(job, answer) => CheckStep(s, job, answer)
    case Send(job, outcome) => SendStep(s, job, outcome)
    case Finish(job, commit) => FinishStep(s, job, commit)
    case FindForCleanup(job) => FindForCleanupStep(s, job)
    case Expire(job, commit) => ExpireStep(s, job, commit)
    case StatementFails(job) => StatementFailsStep(s, job)
    case Return(job) => ReturnStep(s, job)
    case Crash(job) => s.(runs := s.runs - {job})
    case GiveUp(job) => GiveUpStep(s, job)
    case Requeue(job) => RequeueStep(s, job)
    case Echo(instanceId, messageId) => EchoStep(s, instanceId, messageId)
    case DeleteInstance(instanceId) => s.(db := DeleteInstanceTx(s.db, instanceId))
  }

  function NextAll(s: State, run: seq<Action>): State
    decreases |run|
  {
    if run == [] then s else NextAll(Next(s, run[0]), run[1..])
  }

  const START := State(Db(map[], map[], {}, [], {}), map[], map[], map[], map[], [])

  // ---------------------------------------------------------------- invariant

  /** The id the process was given for a job of this kind. */
  ghost predicate Owns(s: State, job: string, kind: JobKind, process: string) {
    && process in s.history
    && job == (if kind == Process then s.history[process].messageJob else s.history[process].cleanupJob)
  }

  predicate Decided(db: Db, process: string) {
    exists o | o in db.outcomes :: o.process == process
  }

  ghost predicate IdsIssued(s: State) {
    forall p | p in s.history ::
      && s.history[p].messageJob in s.issued && s.issued[s.history[p].messageJob] == (Process, p)
      && s.history[p].cleanupJob in s.issued && s.issued[s.history[p].cleanupJob] == (Cleanup, p)
  }

  ghost predicate JobsOwned(s: State) {
    && (forall j | j in s.db.jobs :: Owns(s, j, s.db.jobs[j].kind, s.db.jobs[j].process))
    && (forall j | j in s.dead :: Owns(s, j, s.dead[j].kind, s.dead[j].process) && s.dead[j].kind == Process)
    && (forall j | j in s.runs :: Owns(s, j, s.runs[j].kind, s.runs[j].process))
  }

  /** A stored snapshot is as enqueued, still undecided, and has its cleanup job in the queue. */
  ghost predicate SnapshotsGuarded(s: State) {
    forall p | p in s.db.snapshots ::
      && p in s.history && s.db.snapshots[p] == s.history[p]
      && s.history[p].cleanupJob in s.db.jobs
      && !Decided(s.db, p)
  }

  /** The message row is there, unless it went with its instance. */
  predicate HasRow(db: Db, instanceId: int, messageId: string) {
    (instanceId, messageId) in db.messages || instanceId in db.deleted
  }

  /** What a run in flight knows. */
  ghost predicate RunKnows(s: State, run: Run) {
    run.process in s.history &&
    match run.progress
    case Fresh => true
    case Unreadable => run.kind == Process
    case Dropping(messageJob, cleanupJob) =>
      && run.kind == Process
      && messageJob == s.history[run.process].messageJob && cleanupJob == s.history[run.process].cleanupJob
    case Loaded(snap) => run.kind == Process && snap == s.history[run.process] && !Decided(s.db, run.process)
    case Unsent(snap) => run.kind == Process && snap == s.history[run.process] && !Decided(s.db, run.process)
    case Executed(snap, existing) =>
      && run.kind == Process && snap == s.history[run.process] && !Decided(s.db, run.process)
      && (existing ==> HasRow(s.db, snap.instanceId, snap.messageId))
    case Failed(snap, _) => run.kind == Process && snap == s.history[run.process] && !Decided(s.db, run.process)
    case Expiring(messageJob) => run.kind == Cleanup && messageJob == s.history[run.process].messageJob
    case Returning(ok) => ok ==> run.process !in s.db.snapshots
  }

  ghost predicate RunsKnow(s: State) {
    forall j | j in s.runs :: RunKnows(s, s.runs[j])
  }

  ghost predicate OutcomesSound(s: State) {
    && (forall i, k | 0 <= i < k < |s.db.outcomes| :: s.db.outcomes[i].process != s.db.outcomes[k].process)
    && (forall o | o in s.db.outcomes :: o.process in s.history)
    && (forall o | o in s.db.outcomes && o.Success? ::
          && (o.instanceId, o.messageId) == Key(s.history[o.process])
          && HasRow(s.db, o.instanceId, o.messageId))
  }

  ghost predicate SendsSound(s: State) {
    forall x | x in s.sends :: x.process in s.history && x.messageId == s.history[x.process].messageId
  }

  ghost predicate Inv(s: State) {
    IdsIssued(s) && JobsOwned(s) && SnapshotsGuarded(s) && RunsKnow(s) && OutcomesSound(s) && SendsSound(s)
  }

  // ---------------------------------------------------------------- the shapes of a step

  /** The run goes on with something it may know; at most a send is added. */
  ghost predicate Advances(s: State, job: string, t: State) {
    && job in s.runs && job in t.runs && !s.runs[job].progress.Returning?
    && t == Move(s, job, t.runs[job].progress).(sends := t.sends)
    && RunKnows(s, t.runs[job])
    && (t.sends == s.sends
        || (s.runs[job].progress.Unsent?
            && t.sends == s.sends + [Sent(s.runs[job].process, s.runs[job].progress.snap.messageId)]))
    && (t.runs[job].progress.Unsent? ==> Key(t.runs[job].progress.snap) !in s.db.messages)
  }

  /** The run committed one of the four finalizing transactions of its process. */
  ghost predicate Settles(s: State, job: string, t: State) {
    job in s.runs && s.runs[job].process in s.history &&
    var p, db := s.runs[job].process, t.db;
    && t == Move(s, job, Returning(true)).(db := db)
    && db.snapshots == s.db.snapshots - {p}
    && (db.jobs == s.db.jobs - {s.history[p].cleanupJob}
        || db.jobs == s.db.jobs - {s.history[p].messageJob, s.history[p].cleanupJob}
        || (db.jobs == s.db.jobs - {s.history[p].messageJob} && s.runs[job].kind == Cleanup))
    && s.db.messages <= db.messages && db.deleted == s.db.deleted
    && (db.outcomes == s.db.outcomes
        || (s.runs[job].kind == Process && !Decided(s.db, p)
            && exists o :: db.outcomes == s.db.outcomes + [o] && OutcomeOf(s, p, o, db)))
  }

  ghost predicate OutcomeOf(s: State, p: string, o: Outcome, db: Db) {
    && p in s.history && o.process == p
    && (o.Success? ==> (o.instanceId, o.messageId) == Key(s.history[p]) && HasRow(db, o.instanceId, o.messageId))
  }

  /** Only the queue's entries for this job change. */
  ghost predicate Requeues(s: State, job: string, t: State) {
    && t == s.(db := s.db.(jobs := t.db.jobs), runs := t.runs, dead := t.dead)
    && t.db.jobs - {job} == s.db.jobs - {job}
    && t.runs - {job} == s.runs - {job}
    && t.dead - {job} == s.dead - {job}
    && (job in t.db.jobs ==> Owns(s, job, t.db.jobs[job].kind, t.db.jobs[job].process))
    && (job in t.dead ==> Owns(s, job, t.dead[job].kind, t.dead[job].process) && t.dead[job].kind == Process)
    && (job in t.runs ==>
          || (job in s.runs && t.runs[job] == s.runs[job])
          || (job in s.db.jobs && t.runs[job] == Run(s.db.jobs[job].kind, s.db.jobs[job].process,
                                                     s.db.jobs[job].attempts + 1, Fresh)))
    && (job in s.db.jobs && s.db.jobs[job].kind == Cleanup && job !in t.db.jobs ==>
        s.db.jobs[job].process !in s.db.snapshots)
  }

  lemma FindShapes(s: State, job: string, now: Time, retention: Time)
    requires SnapshotsGuarded(s) && job in s.runs && RunKnows(s, s.runs[job])
    ensures FindStep(s, job, now, retention) == s || Advances(s, job, FindStep(s, job, now, retention))
    ensures FindForCleanupStep(s, job) == s || Advances(s, job, FindForCleanupStep(s, job))
  {
  }

  lemma FindIdsShapes(s: State, job: string)
    requires SnapshotsGuarded(s) && job in s.runs && RunKnows(s, s.runs[job])
    ensures FindIdsStep(s, job) == s || Advances(s, job, FindIdsStep(s, job))
    ensures StatementFailsStep(s, job) == s || Advances(s, job, StatementFailsStep(s, job))
  {
  }

  lemma SendShapes(s: State, job: string, answer: InstanceAnswer, outcome: SendAnswer)
    requires job in s.runs && RunKnows(s, s.runs[job])
    ensures CheckStep(s, job, answer) == s || Advances(s, job, CheckStep(s, job, answer))
    ensures SendStep(s, job, outcome) == s || Advances(s, job, SendStep(s, job, outcome))
  {
  }

  lemma FinishShape(s: State, job: string, commit: bool)
    requires job in s.runs && RunKnows(s, s.runs[job])
    ensures var t := FinishStep(s, job, commit); t == s || Advances(s, job, t) || Settles(s, job, t)
  {
    var p := s.runs[job].process;
    assert OutcomeOf(s, p, Failure(p), s.db);
    if s.runs[job].progress.Executed? {
      var done := SuccessTx(s.db, p, s.runs[job].progress.snap, s.runs[job].progress.existing);
      assert done.Some? ==> OutcomeOf(s, p, Success(p, s.history[p].instanceId, s.history[p].messageId), done.value);
    }
  }

  lemma RemovalShapes(s: State, job: string, commit: bool)
    requires job in s.runs && RunKnows(s, s.runs[job])
    ensures var t := DropStep(s, job, commit); t == s || Advances(s, job, t) || Settles(s, job, t)
    ensures var t := ExpireStep(s, job, commit); t == s || Advances(s, job, t) || Settles(s, job, t)
  {
  }

  /** The queue, the run and the dead letters agree on whose job this is. */
  ghost predicate JobKnown(s: State, job: string) {
    && (job in s.db.jobs ==> Owns(s, job, s.db.jobs[job].kind, s.db.jobs[job].process))
    && (job in s.runs ==> Owns(s, job, s.runs[job].kind, s.runs[job].process) && RunKnows(s, s.runs[job]))
    && (job in s.dead ==> Owns(s, job, s.dead[job].kind, s.dead[job].process) && s.dead[job].kind == Process)
    && (job in s.runs && job in s.db.jobs ==>
        s.runs[job].kind == s.db.jobs[job].kind && s.runs[job].process == s.db.jobs[job].process)
  }

  lemma JobIsKnown(s: State, job: string)
    requires IdsIssued(s) && JobsOwned(s) && RunsKnow(s)
    ensures JobKnown(s, job)
  {
    if job in s.runs && job in s.db.jobs {
      assert Owns(s, job, s.runs[job].kind, s.runs[job].process)
          && Owns(s, job, s.db.jobs[job].kind, s.db.jobs[job].process);
    }
  }

  lemma QueueShapes(s: State, job: string)
    requires JobKnown(s, job)
    ensures ReserveStep(s, job) == s || Requeues(s, job, ReserveStep(s, job))
    ensures Requeues(s, job, s.(runs := s.runs - {job}))
    ensures GiveUpStep(s, job) == s || Requeues(s, job, GiveUpStep(s, job))
  {
  }

  lemma ReturnShape(s: State, job: string)
    requires JobKnown(s, job)
    ensures ReturnStep(s, job) == s || Requeues(s, job, ReturnStep(s, job))
  {
    if job in s.runs && s.runs[job].progress.Returning? {
      if s.runs[job].progress.ok {
        FinishedShape(s, job);
      } else {
        UnfinishedShape(s, job);
      }
    }
  }

  lemma FinishedShape(s: State, job: string)
    requires JobKnown(s, job) && job in s.runs && s.runs[job].progress == Returning(true)
    ensures Requeues(s, job, ReturnStep(s, job))
  {
    assert ReturnStep(s, job).runs == s.runs - {job} && ReturnStep(s, job).db.jobs == s.db.jobs - {job};
  }

  lemma UnfinishedShape(s: State, job: string)
    requires JobKnown(s, job) && job in s.runs && s.runs[job].progress == Returning(false)
    ensures Requeues(s, job, ReturnStep(s, job))
  {
    assert ReturnStep(s, job).runs == s.runs - {job};
  }

  lemma RequeueShape(s: State, job: string)
    requires JobKnown(s, job)
    ensures RequeueStep(s, job) == s || Requeues(s, job, RequeueStep(s, job))
  {
  }

  lemma RunStepShape(s: State, a: Action)
    requires SnapshotsGuarded(s) && !Outside(a) && a.job in s.runs && RunKnows(s, s.runs[a.job])
    requires !a.Reserve? && !a.Return? && !a.Crash? && !a.GiveUp? && !a.Requeue?
    ensures Next(s, a) == s || Advances(s, a.job, Next(s, a)) || Settles(s, a.job, Next(s, a))
  {
    match a
    case Find(job, now, retention) => FindShapes(s, job, now, retention);
    case FindIds(job) => FindIdsShapes(s, job);
    case FindForCleanup(job) => FindShapes(s, job, 0, 0);
    case StatementFails(job) => FindIdsShapes(s, job);
    case Check(job, answer) => SendShapes(s, job, answer, Rejected);
    case Send(job, outcome) => SendShapes(s, job, InstanceFound, outcome);
    case Finish(job, commit) => FinishShape(s, job, commit);
    case Drop(job, commit) => RemovalShapes(s, job, commit);
    case Expire(job, commit) => RemovalShapes(s, job, commit);
  }

  lemma RunlessStepIsIdle(s: State, a: Action)
    requires !Outside(a) && a.job !in s.runs
    requires !a.Reserve? && !a.Return? && !a.Crash? && !a.GiveUp? && !a.Requeue?
    ensures Next(s, a) == s
  {
  }

  /** Every step of the queue and its handlers has one of the three shapes. */
  lemma StepShape(s: State, a: Action)
    requires Inv(s) && !Outside(a)
    ensures Next(s, a) == s || Advances(s, a.job, Next(s, a)) || Settles(s, a.job, Next(s, a))
            || Requeues(s, a.job, Next(s, a))
  {
    JobIsKnown(s, a.job);
    if a.Reserve? || a.Return? || a.Crash? || a.GiveUp? || a.Requeue? {
      QueueShapes(s, a.job);
      ReturnShape(s, a.job);
      RequeueShape(s, a.job);
    } else if a.job in s.runs {
      RunStepShape(s, a);
    } else {
      RunlessStepIsIdle(s, a);
    }
  }

  // ---------------------------------------------------------------- every shape keeps the invariant

  lemma AdvanceKeeps(s: State, job: string, t: State)
    requires Inv(s) && Advances(s, job, t)
    ensures Inv(t)
  {
    forall j | j in t.runs
      ensures RunKnows(t, t.runs[j]) && Owns(t, j, t.runs[j].kind, t.runs[j].process)
    {
      assert RunKnows(s, t.runs[j]);
      assert Owns(s, j, s.runs[j].kind, s.runs[j].process);
    }
    OwnersStay(s, t);
  }

  lemma OwnersStay(s: State, t: State)
    requires JobsOwned(s) && t.history == s.history
    requires forall j | j in t.db.jobs :: j in s.db.jobs && t.db.jobs[j] == s.db.jobs[j]
    requires t.dead == s.dead
    requires forall j | j in t.runs :: Owns(t, j, t.runs[j].kind, t.runs[j].process)
    ensures JobsOwned(t)
  {
    assert forall j | j in t.db.jobs :: Owns(s, j, s.db.jobs[j].kind, s.db.jobs[j].process);
    assert forall j | j in t.dead :: Owns(s, j, s.dead[j].kind, s.dead[j].process);
  }

  lemma DecidedAfter(s: State, job: string, t: State, q: string)
    requires Settles(s, job, t)
    ensures q != s.runs[job].process ==> Decided(t.db, q) == Decided(s.db, q)
  {
    if t.db.outcomes != s.db.outcomes {
      var o :| t.db.outcomes == s.db.outcomes + [o] && OutcomeOf(s, s.runs[job].process, o, t.db);
    }
  }

  lemma SettleKeepsSnapshots(s: State, job: string, t: State)
    requires IdsIssued(s) && SnapshotsGuarded(s) && Settles(s, job, t)
    ensures SnapshotsGuarded(t)
  {
    forall q | q in t.db.snapshots
      ensures t.history[q].cleanupJob in t.db.jobs && !Decided(t.db, q)
    {
      DecidedAfter(s, job, t, q);
      assert s.issued[s.history[q].cleanupJob] == (Cleanup, q);
    }
  }

  lemma SettleKeepsRuns(s: State, job: string, t: State)
    requires JobsOwned(s) && RunsKnow(s) && Settles(s, job, t)
    ensures RunsKnow(t)
  {
    forall j | j in t.runs && j != job
      ensures RunKnows(t, t.runs[j])
    {
      assert RunKnows(s, s.runs[j]);
      DecidedAfter(s, job, t, s.runs[j].process);
      assert Owns(s, j, s.runs[j].kind, s.runs[j].process) && Owns(s, job, s.runs[job].kind, s.runs[job].process);
    }
  }

  lemma SettleKeepsOutcomes(s: State, job: string, t: State)
    requires OutcomesSound(s) && Settles(s, job, t)
    ensures OutcomesSound(t)
  {
    if t.db.outcomes != s.db.outcomes {
      var o :| t.db.outcomes == s.db.outcomes + [o] && OutcomeOf(s, s.runs[job].process, o, t.db);
      assert forall i | 0 <= i < |s.db.outcomes| :: s.db.outcomes[i] in s.db.outcomes;
    }
  }

  lemma SettleKeeps(s: State, job: string, t: State)
    requires Inv(s) && Settles(s, job, t)
    ensures Inv(t)
  {
    SettleKeepsSnapshots(s, job, t);
    SettleKeepsRuns(s, job, t);
    SettleKeepsOutcomes(s, job, t);
    forall j | j in t.runs
      ensures Owns(t, j, t.runs[j].kind, t.runs[j].process)
    {
      assert Owns(s, j, s.runs[j].kind, s.runs[j].process);
    }
    OwnersStay(s, t);
  }

  lemma RequeueKeeps(s: State, job: string, t: State)
    requires Inv(s) && Requeues(s, job, t)
    ensures Inv(t)
  {
    JobIsKnown(s, job);
    RequeueKeepsOwners(s, job, t);
    RequeueKeepsRuns(s, job, t);
    forall p | p in t.db.snapshots
      ensures t.history[p].cleanupJob in t.db.jobs
    {
      CleanupJobKind(s, p);
      var cleanup := s.history[p].cleanupJob;
      assert cleanup != job ==> cleanup in s.db.jobs - {job};
    }
  }

  lemma CleanupJobKind(s: State, p: string)
    requires IdsIssued(s) && JobsOwned(s) && SnapshotsGuarded(s) && p in s.db.snapshots
    ensures s.db.jobs[s.history[p].cleanupJob].kind == Cleanup && s.db.jobs[s.history[p].cleanupJob].process == p
  {
    var job := s.history[p].cleanupJob;
    assert s.issued[job] == (Cleanup, p);
    assert Owns(s, job, s.db.jobs[job].kind, s.db.jobs[job].process);
  }

  lemma RequeueKeepsOwners(s: State, job: string, t: State)
    requires JobsOwned(s) && JobKnown(s, job) && Requeues(s, job, t)
    ensures JobsOwned(t)
  {
    forall j | j in t.db.jobs
      ensures Owns(t, j, t.db.jobs[j].kind, t.db.jobs[j].process)
    {
      if j != job {
        assert j in t.db.jobs - {job} && (t.db.jobs - {job})[j] == (s.db.jobs - {job})[j];
        assert Owns(s, j, s.db.jobs[j].kind, s.db.jobs[j].process);
      }
    }
    forall j | j in t.runs
      ensures Owns(t, j, t.runs[j].kind, t.runs[j].process)
    {
      if j != job {
        assert j in t.runs - {job} && (t.runs - {job})[j] == (s.runs - {job})[j];
        assert Owns(s, j, s.runs[j].kind, s.runs[j].process);
      }
    }
    forall j | j in t.dead
      ensures Owns(t, j, t.dead[j].kind, t.dead[j].process) && t.dead[j].kind == Process
    {
      if j != job {
        assert j in t.dead - {job} && (t.dead - {job})[j] == (s.dead - {job})[j];
        assert Owns(s, j, s.dead[j].kind, s.dead[j].process);
      }
    }
  }

  lemma RequeueKeepsRuns(s: State, job: string, t: State)
    requires RunsKnow(s) && JobKnown(s, job) && Requeues(s, job, t)
    ensures RunsKnow(t)
  {
    forall j | j in t.runs
      ensures RunKnows(t, t.runs[j])
    {
      if j != job {
        assert j in t.runs - {job} && (t.runs - {job})[j] == (s.runs - {job})[j];
        assert RunKnows(s, s.runs[j]);
      }
    }
  }

  lemma RowsOnlyGrow(s: State, t: State, run: Run)
    requires t == s.(db := s.db.(messages := t.db.messages)) && s.db.messages <= t.db.messages
    requires RunKnows(s, run)
    ensures RunKnows(t, run)
  {
  }

  lemma RowsGoWithInstances(s: State, instanceId: int, run: Run)
    requires RunKnows(s, run)
    ensures RunKnows(s.(db := DeleteInstanceTx(s.db, instanceId)), run)
  {
  }

  lemma RowsKeepTables(s: State, t: State)
    requires t == s.(db := s.db.(messages := t.db.messages)) && s.db.messages <= t.db.messages
    requires IdsIssued(s) && SnapshotsGuarded(s) && OutcomesSound(s) && SendsSound(s)
    ensures IdsIssued(t) && SnapshotsGuarded(t) && OutcomesSound(t) && SendsSound(t)
  {
  }

  lemma EchoKeeps(s: State, instanceId: int, messageId: string)
    requires Inv(s)
    ensures Inv(EchoStep(s, instanceId, messageId))
  {
    if instanceId !in s.db.deleted {
      var t := s.(db := s.db.(messages := s.db.messages + {(instanceId, messageId)}));
      forall j | j in t.runs
        ensures RunKnows(t, t.runs[j])
      {
        RowsOnlyGrow(s, t, s.runs[j]);
      }
      RowsKeepTables(s, t);
      OwnersAreSame(s, t);
    }
  }

  lemma DeletionKeeps(s: State, instanceId: int)
    requires Inv(s)
    ensures Inv(s.(db := DeleteInstanceTx(s.db, instanceId)))
  {
    var t := s.(db := DeleteInstanceTx(s.db, instanceId));
    forall j | j in t.runs
      ensures RunKnows(t, t.runs[j])
    {
      RowsGoWithInstances(s, instanceId, s.runs[j]);
    }
    OwnersAreSame(s, t);
  }

  lemma OwnersAreSame(s: State, t: State)
    requires JobsOwned(s) && t.history == s.history && t.db.jobs == s.db.jobs && t.dead == s.dead && t.runs == s.runs
    ensures JobsOwned(t)
  {
    forall j | j in t.runs
      ensures Owns(t, j, t.runs[j].kind, t.runs[j].process)
    {
      assert Owns(s, j, s.runs[j].kind, s.runs[j].process);
    }
    OwnersStay(s, t);
  }

  lemma EnqueueKeepsIds(s: State, process: string, snap: Snapshot)
    requires IdsIssued(s)
    ensures IdsIssued(EnqueueStep(s, process, snap))
  {
  }

  lemma EnqueueKeepsSnapshots(s: State, process: string, snap: Snapshot)
    requires SnapshotsGuarded(s) && OutcomesSound(s)
    ensures SnapshotsGuarded(EnqueueStep(s, process, snap))
  {
    if EnqueueStep(s, process, snap) != s {
      assert !Decided(s.db, process);
    }
  }

  lemma EnqueueKeepsHistory(s: State, process: string, snap: Snapshot)
    requires OutcomesSound(s) && SendsSound(s)
    ensures OutcomesSound(EnqueueStep(s, process, snap)) && SendsSound(EnqueueStep(s, process, snap))
  {
  }

  lemma EnqueueKeepsTables(s: State, process: string, snap: Snapshot)
    requires IdsIssued(s) && SnapshotsGuarded(s) && OutcomesSound(s) && SendsSound(s)
    ensures
      var t := EnqueueStep(s, process, snap);
      IdsIssued(t) && SnapshotsGuarded(t) && OutcomesSound(t) && SendsSound(t)
  {
    EnqueueKeepsIds(s, process, snap);
    EnqueueKeepsSnapshots(s, process, snap);
    EnqueueKeepsHistory(s, process, snap);
  }

  lemma EnqueueKeepsJobs(s: State, process: string, snap: Snapshot)
    requires IdsIssued(s) && JobsOwned(s) && RunsKnow(s)
    ensures JobsOwned(EnqueueStep(s, process, snap)) && RunsKnow(EnqueueStep(s, process, snap))
  {
    var t := EnqueueStep(s, process, snap);
    if t != s {
      forall j | j in t.db.jobs
        ensures Owns(t, j, t.db.jobs[j].kind, t.db.jobs[j].process)
      {
        if j != snap.messageJob && j != snap.cleanupJob {
          assert Owns(s, j, s.db.jobs[j].kind, s.db.jobs[j].process);
        }
      }
      forall j | j in t.runs
        ensures Owns(t, j, t.runs[j].kind, t.runs[j].process) && RunKnows(t, t.runs[j])
      {
        assert Owns(s, j, s.runs[j].kind, s.runs[j].process) && RunKnows(s, s.runs[j]);
      }
      forall j | j in t.dead
        ensures Owns(t, j, t.dead[j].kind, t.dead[j].process)
      {
        assert Owns(s, j, s.dead[j].kind, s.dead[j].process);
      }
    }
  }

  lemma StepKeeps(s: State, a: Action)
    requires Inv(s)
    ensures Inv(Next(s, a))
  {
    if a.Enqueue? {
      EnqueueKeepsTables(s, a.process, a.snap);
      EnqueueKeepsJobs(s, a.process, a.snap);
    } else if a.Echo? {
      EchoKeeps(s, a.instanceId, a.messageId);
    } else if a.DeleteInstance? {
      DeletionKeeps(s, a.instanceId);
    } else {
      StepShape(s, a);
      ShapesKeep(s, a.job, Next(s, a));
    }
  }

  lemma ShapesKeep(s: State, job: string, t: State)
    requires Inv(s) && (t == s || Advances(s, job, t) || Settles(s, job, t) || Requeues(s, job, t))
    ensures Inv(t)
  {
    if Advances(s, job, t) {
      AdvanceKeeps(s, job, t);
    } else if Settles(s, job, t) {
      SettleKeeps(s, job, t);
    } else if Requeues(s, job, t) {
      RequeueKeeps(s, job, t);
    }
  }

  lemma {:induction false} RunKeeps(s: State, run: seq<Action>)
    requires Inv(s)
    ensures Inv(NextAll(s, run))
    decreases |run|
  {
    if run != [] {
      StepKeeps(s, run[0]);
      RunKeeps(Next(s, run[0]), run[1..]);
    }
  }
}
