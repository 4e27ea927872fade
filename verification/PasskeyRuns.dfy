/**
 Passkey pairing as a run: challenge requests, submissions and confirmations
 interleave with each other and with the QR channel. Commands hold the command
 mutex across their client call; the QR channel writes without it.
 */
module PasskeyRuns {
  import opened Results
  import opened Passkey

  datatype Phase =
    | Requesting                          // a challenge request that took the mutex
    | Fetching                            // waiting for the client's key
    | Submitting(requestId: string, valid: bool)
    | Sending(requestId: string)          // the assertion was accepted and is on its way
    | AwaitingLock                        // a recorded confirmation waiting for the mutex
    | Confirming
    | Leaving                             // about to unlock

  datatype Session = Session(
    pairing: Pairing, mutex: Option<nat>, commands: map<nat, Phase>,
    issued: set<string>, accepted: seq<string>, sent: seq<string>)

  const NEW_SESSION := Session(UNPAIRED, None, map[], {}, [], [])

  datatype Action =
    | StartRequest(cmd: nat)
    | Begin(cmd: nat, now: Time)
    | Fetched(cmd: nat, result: FetchResult, freshId: string, now: Time)
    | StartSubmit(cmd: nat, requestId: string, valid: bool)
    | Reserve(cmd: nat, now: Time)
    | Answered(cmd: nat, ok: bool)
    | QrChallenge(key: int, freshId: string, now: Time)
    | QrFailure
    | QrCompletion
    | QrConfirmation(cmd: nat, code: string, skip: bool)
    | LockConfirmation(cmd: nat)
    | Confirmed(cmd: nat, ok: bool)
    | Unlock(cmd: nat)

  predicate In(s: Session, cmd: nat, phase: Phase) {
    cmd in s.commands && s.commands[cmd] == phase
  }

  function Go(s: Session, cmd: nat, phase: Phase, pairing: Pairing): Session {
    s.(commands := s.commands[cmd := phase], pairing := pairing)
  }

  /** A fresh id is new and not empty. */
  predicate IsFresh(s: Session, id: string) {
    id != "" && id !in s.issued
  }

  /** TryLock: a command that finds the mutex taken gives up. */
  function TryLock(s: Session, cmd: nat, phase: Phase): Session {
    if s.mutex.Some? || cmd in s.commands then s
    else Go(s, cmd, phase, s.pairing).(mutex := Some(cmd))
  }

  function FetchedStep(s: Session, cmd: nat, result: FetchResult, freshId: string, now: Time): Session {
    match result
    case FetchFailed(error) => Go(s, cmd, Leaving, MarkFailed(s.pairing, Some(error)))
    case NoKey => Go(s, cmd, Leaving, MarkFailed(s.pairing, None))
    case Key(timeout) =>
      if !IsFresh(s, freshId) then s
      else Go(s, cmd, Leaving, SetChallenge(timeout, freshId, now)).(issued := s.issued + {freshId})
  }

  function ReserveStep(s: Session, cmd: nat, now: Time): Session {
    if cmd !in s.commands || !s.commands[cmd].Submitting? then s
    else
      var id := s.commands[cmd].requestId;
      var (pairing, refused) := ReserveAssertion(s.pairing, id, s.commands[cmd].valid, now);
      if refused.Some? then Go(s, cmd, Leaving, pairing)
      else Go(s, cmd, Sending(id), pairing).(accepted := s.accepted + [id])
  }

  function AnsweredStep(s: Session, cmd: nat, ok: bool): Session {
    if cmd !in s.commands || !s.commands[cmd].Sending? then s
    else
      Go(s, cmd, Leaving, if ok then s.pairing.(state := AwaitingConfirmation) else MarkFailed(s.pairing, Some("send")))
      .(sent := s.sent + [s.commands[cmd].requestId])
  }

  function ConfirmedStep(s: Session, cmd: nat, ok: bool): Session {
    if !In(s, cmd, Confirming) then s
    else
      Go(s, cmd, Leaving, if ok then s.pairing.(state := ConfirmationSent) else MarkFailed(s.pairing, Some("confirm")))
  }

  function Next(s: Session, a: Action): Session {
    match a
    case StartRequest(cmd) => TryLock(s, cmd, Requesting)
    case Begin(cmd, now) =>
      if !In(s, cmd, Requesting) then s
      else
        var (pairing, answer) := BeginFetch(s.pairing, now);
        Go(s, cmd, if answer.Fetch? then Fetching else Leaving, pairing)
    case Fetched(cmd, result, freshId, now) =>
      if !In(s, cmd, Fetching) then s else FetchedStep(s, cmd, result, freshId, now)
    case StartSubmit(cmd, requestId, valid) => TryLock(s, cmd, Submitting(requestId, valid))
    case Reserve(cmd, now) => ReserveStep(s, cmd, now)
    case Answered(cmd, ok) => AnsweredStep(s, cmd, ok)
    case QrChallenge(key, freshId, now) =>
      if !IsFresh(s, freshId) then s else s.(pairing := SetChallenge(key, freshId, now), issued := s.issued + {freshId})
    case QrFailure => s.(pairing := MarkFailed(s.pairing, None))
    case QrCompletion => s.(pairing := s.pairing.(state := Completed))
    case QrConfirmation(cmd, code, skip) =>
      var recorded := s.(pairing := SetConfirmation(s.pairing, code, skip));
      if skip || cmd in s.commands then recorded else recorded.(commands := s.commands[cmd := AwaitingLock])
    case LockConfirmation(cmd) =>
      if !In(s, cmd, AwaitingLock) || s.mutex.Some? then s else Go(s, cmd, Confirming, s.pairing).(mutex := Some(cmd))
    case Confirmed(cmd, ok) => ConfirmedStep(s, cmd, ok)
    case Unlock(cmd) => if !In(s, cmd, Leaving) then s else s.(commands := s.commands - {cmd}, mutex := None)
  }

  /** What the steps of a challenge request leave, by the phase the command was in. */
  lemma WhatRequestsLeave(s: Session, cmd: nat, now: Time, result: FetchResult, freshId: string)
    ensures s.mutex.None? && cmd !in s.commands ==>
              Next(s, StartRequest(cmd)) == s.(mutex := Some(cmd), commands := s.commands[cmd := Requesting])
    ensures s.mutex.Some? || cmd in s.commands ==> Next(s, StartRequest(cmd)) == s
    ensures cmd in s.commands && s.commands[cmd].Requesting? ==>
              var t, p := Next(s, Begin(cmd, now)), s.pairing;
              var awaited := p.state == AwaitingAssertion && p.key.Some? && !p.consumed;
              var fetches := p.state == Unset || p.state == Idle || p.state == State.Failed || p.state == Expired
                             || (awaited && now >= p.expiresAt);
              && t.commands == s.commands[cmd := if fetches then Fetching else Leaving]
              && t.pairing == if fetches then Pairing(FetchingChallenge, "", None, 0, false, "", false, None) else p
    ensures cmd in s.commands && s.commands[cmd].Fetching? ==>
              var t := Next(s, Fetched(cmd, result, freshId, now));
              && (result.Key? && freshId != "" && freshId !in s.issued ==>
                    && t.pairing.state == AwaitingAssertion && t.pairing.requestId == freshId && !t.pairing.consumed
                    && t.pairing.key == Some(result.timeout) && t.issued == s.issued + {freshId}
                    && t.commands == s.commands[cmd := Leaving])
              && (!result.Key? ==>
                    && t.pairing.state == State.Failed && t.pairing.requestId == s.pairing.requestId
                    && t.issued == s.issued && t.commands == s.commands[cmd := Leaving])
  {
  }

  /** What the steps of a submission and of a confirmation leave. */
  lemma WhatAnswersLeave(s: Session, cmd: nat, now: Time, ok: bool)
    ensures cmd in s.commands && s.commands[cmd].Submitting? ==>
              var t, p, id := Next(s, Reserve(cmd, now)), s.pairing, s.commands[cmd].requestId;
              var taken := id != "" && p.key.Some? && p.requestId == id && p.state == AwaitingAssertion && !p.consumed
                           && now < p.expiresAt && s.commands[cmd].valid;
              && t.commands == s.commands[cmd := if taken then Sending(id) else Leaving]
              && t.accepted == s.accepted + (if taken then [id] else [])
              && (taken ==> t.pairing == p.(consumed := true, state := SubmittingAssertion))
              && (!taken ==>
                    t.pairing == if id != "" && p.key.Some? && p.requestId == id && p.state == AwaitingAssertion
                                    && !p.consumed && now >= p.expiresAt then p.(state := Expired) else p)
    ensures cmd in s.commands && s.commands[cmd].Sending? ==>
              var t := Next(s, Answered(cmd, ok));
              && t.sent == s.sent + [s.commands[cmd].requestId] && t.commands == s.commands[cmd := Leaving]
              && t.pairing.state == if ok then AwaitingConfirmation else State.Failed
    ensures cmd in s.commands && s.commands[cmd].Confirming? ==>
              var t := Next(s, Confirmed(cmd, ok));
              && t.commands == s.commands[cmd := Leaving]
              && t.pairing.state == if ok then ConfirmationSent else State.Failed
    ensures cmd in s.commands && s.commands[cmd].AwaitingLock? && s.mutex.None? ==>
              Next(s, LockConfirmation(cmd)) == s.(mutex := Some(cmd), commands := s.commands[cmd := Confirming])
    ensures cmd in s.commands && s.commands[cmd].Leaving? ==>
              Next(s, Unlock(cmd)) == s.(mutex := None, commands := s.commands - {cmd})
  {
  }

  /** What the QR channel leaves: it moves the pairing at any time, whoever holds the mutex. */
  lemma WhatTheChannelLeaves(s: Session, cmd: nat, key: int, freshId: string, now: Time, code: string, skip: bool)
    ensures freshId != "" && freshId !in s.issued ==>
              var t := Next(s, QrChallenge(key, freshId, now));
              && t.pairing.state == AwaitingAssertion && t.pairing.requestId == freshId && !t.pairing.consumed
              && t == s.(pairing := t.pairing, issued := s.issued + {freshId})
    ensures Next(s, QrFailure) == s.(pairing := s.pairing.(state := State.Failed))
    ensures Next(s, QrCompletion) == s.(pairing := s.pairing.(state := Completed))
    ensures var t := Next(s, QrConfirmation(cmd, code, skip));
            && t.pairing == s.pairing.(state := AwaitingConfirmation, code := code, skipHandoff := skip)
            && t.mutex == s.mutex
            && t.commands == if skip || cmd in s.commands then s.commands else s.commands[cmd := AwaitingLock]
  {
  }

  function NextAll(s: Session, run: seq<Action>): Session
    decreases |run|
  {
    if run == [] then s else NextAll(Next(s, run[0]), run[1..])
  }

  // ---------------------------------------------------------------- invariant

  ghost predicate NoRepeats(ids: seq<string>) {
    forall i, j | 0 <= i < j < |ids| :: ids[i] != ids[j]
  }

  /** An id, once accepted, can be accepted again only if it were open again. */
  ghost predicate SingleUse(s: Session) {
    && Sound(s.pairing)
    && (s.pairing.requestId != "" ==> s.pairing.requestId in s.issued)
    && (forall id | id in s.accepted :: id in s.issued)
    && NoRepeats(s.accepted)
    && (s.pairing.requestId in s.accepted ==> s.pairing.state != AwaitingAssertion)
  }

  /** The mutex is held by the command that is inside a client call or about to make one. */
  ghost predicate Exclusive(s: Session) {
    && (forall cmd | cmd in s.commands && !s.commands[cmd].AwaitingLock? :: s.mutex == Some(cmd))
  }

  ghost predicate SentOnce(s: Session) {
    && (forall id | id in s.sent :: id in s.accepted)
    && NoRepeats(s.sent)
    && (forall cmd | cmd in s.commands && s.commands[cmd].Sending? ::
          s.commands[cmd].requestId in s.accepted && s.commands[cmd].requestId !in s.sent)
  }

  /** While the state says the confirmation was sent, no submission and no fetch is in flight. */
  ghost predicate ConfirmationQuiet(s: Session) {
    s.pairing.state == ConfirmationSent ==>
        forall cmd | cmd in s.commands :: !s.commands[cmd].Sending? && !s.commands[cmd].Fetching?
  }

  ghost predicate Inv(s: Session) {
    SingleUse(s) && Exclusive(s) && SentOnce(s) && ConfirmationQuiet(s)
  }

  lemma StepKeepsSingleUse(s: Session, a: Action)
    requires SingleUse(s)
    ensures SingleUse(Next(s, a))
  {
    if a.Reserve? && a.cmd in s.commands && s.commands[a.cmd].Submitting? {
      WhenAssertionsAreAccepted(s.pairing, s.commands[a.cmd].requestId, s.commands[a.cmd].valid, a.now);
    }
  }

  lemma StepKeepsExclusive(s: Session, a: Action)
    requires Exclusive(s)
    ensures Exclusive(Next(s, a))
  {
  }

  lemma StepKeepsSentOnce(s: Session, a: Action)
    requires SingleUse(s) && Exclusive(s) && SentOnce(s)
    ensures SentOnce(Next(s, a))
  {
    if a.Reserve? && a.cmd in s.commands && s.commands[a.cmd].Submitting? {
      WhenAssertionsAreAccepted(s.pairing, s.commands[a.cmd].requestId, s.commands[a.cmd].valid, a.now);
    }
  }

  lemma StepKeepsQuiet(s: Session, a: Action)
    requires Exclusive(s) && ConfirmationQuiet(s)
    ensures ConfirmationQuiet(Next(s, a))
  {
  }

  lemma {:induction false} RunKeeps(s: Session, run: seq<Action>)
    requires Inv(s)
    ensures Inv(NextAll(s, run))
    decreases |run|
  {
    if run != [] {
      StepKeepsSingleUse(s, run[0]);
      StepKeepsExclusive(s, run[0]);
      StepKeepsSentOnce(s, run[0]);
      StepKeepsQuiet(s, run[0]);
      RunKeeps(Next(s, run[0]), run[1..]);
    }
  }

  // ---------------------------------------------------------------- results

  /**
   Over every interleaving, given fresh ids: each request id is accepted at most
   once and sent at most once, every sent one was accepted, and a challenge that
   is awaited is unconsumed and has a key and an id.
   */
  lemma RequestIdsAreSingleUse(run: seq<Action>)
    ensures
      var s := NextAll(NEW_SESSION, run);
      && NoRepeats(s.accepted) && NoRepeats(s.sent)
      && (forall id | id in s.sent :: id in s.accepted)
      && Sound(s.pairing)
  {
    RunKeeps(NEW_SESSION, run);
  }

  /** The mutex excludes: at most one command at a time is past it. */
  lemma OneCommandAtATime(run: seq<Action>, a: nat, b: nat)
    requires a in NextAll(NEW_SESSION, run).commands && b in NextAll(NEW_SESSION, run).commands
    requires !NextAll(NEW_SESSION, run).commands[a].AwaitingLock?
            && !NextAll(NEW_SESSION, run).commands[b].AwaitingLock?
    ensures a == b
  {
    RunKeeps(NEW_SESSION, run);
  }

  /** Steps of submissions, challenge requests and the mutex: everything but the QR channel and confirmations. */
  predicate IsCommandStep(a: Action) {
    !a.QrChallenge? && !a.QrFailure? && !a.QrCompletion? && !a.QrConfirmation? && !a.Confirmed?
  }

  lemma CommandStepKeepsConfirmation(s: Session, a: Action)
    requires ConfirmationQuiet(s) && s.pairing.state == ConfirmationSent && IsCommandStep(a)
    ensures Next(s, a).pairing == s.pairing
  {
  }

  lemma {:induction false} ConfirmationStands(s: Session, later: seq<Action>)
    requires Exclusive(s) && ConfirmationQuiet(s) && s.pairing.state == ConfirmationSent
    requires forall a | a in later :: IsCommandStep(a)
    ensures NextAll(s, later).pairing == s.pairing
    decreases |later|
  {
    if later != [] {
      assert later[0] in later && forall a | a in later[1..] :: a in later;
      CommandStepKeepsConfirmation(s, later[0]);
      StepKeepsExclusive(s, later[0]);
      StepKeepsQuiet(s, later[0]);
      ConfirmationStands(Next(s, later[0]), later[1..]);
    }
  }

  /**
   Once the confirmation is sent, no submission and no challenge request moves
   the pairing, however many steps they take and whenever they began: only the
   QR channel or another confirmation does.
   */
  lemma SubmissionsNeverUndoConfirmation(run: seq<Action>, later: seq<Action>)
    requires NextAll(NEW_SESSION, run).pairing.state == ConfirmationSent
    requires forall a | a in later :: IsCommandStep(a)
    ensures NextAll(NextAll(NEW_SESSION, run), later).pairing == NextAll(NEW_SESSION, run).pairing
  {
    RunKeeps(NEW_SESSION, run);
    ConfirmationStands(NextAll(NEW_SESSION, run), later);
  }

  // ---------------------------------------------------------------- confirmations and consumed challenges

  predicate SomeSending(s: Session) {
    exists cmd | cmd in s.commands :: s.commands[cmd].Sending?
  }

  /** A confirmation is awaited, or an assertion is on its way, only for a consumed challenge. */
  predicate Consumed(s: Session) {
    s.pairing.state == AwaitingConfirmation || SomeSending(s) ==> s.pairing.consumed
  }

  /**
   The two ways in which the QR channel breaks that: it confirms an open challenge,
   or replaces one being answered.
   */
  predicate Unsettles(s: Session, a: Action) {
    || (a.QrConfirmation? && !s.pairing.consumed)
    || (a.QrChallenge? && IsFresh(s, a.freshId) && SomeSending(s))
  }

  lemma WhenConsumptionIsKept(s: Session, a: Action)
    requires Exclusive(s) && Consumed(s)
    ensures Consumed(Next(s, a)) <==> !Unsettles(s, a)
  {
    var t := Next(s, a);
    if a.QrChallenge? || a.QrFailure? || a.QrCompletion? || a.QrConfirmation? {
      QrKeepsSending(s, a);
    } else if SomeSending(t) && !SomeSending(s) {
      assert a.Reserve? && t.pairing.consumed;
    }
  }

  lemma QrKeepsSending(s: Session, a: Action)
    requires a.QrChallenge? || a.QrFailure? || a.QrCompletion? || a.QrConfirmation?
    ensures SomeSending(Next(s, a)) == SomeSending(s)
  {
    if SomeSending(s) {
      var cmd :| cmd in s.commands && s.commands[cmd].Sending?;
      assert cmd in Next(s, a).commands && Next(s, a).commands[cmd].Sending?;
    }
  }

  predicate AlwaysConsumed(s: Session, run: seq<Action>)
    decreases |run|
  {
    Consumed(s) && (run == [] || AlwaysConsumed(Next(s, run[0]), run[1..]))
  }

  predicate NeverUnsettled(s: Session, run: seq<Action>)
    decreases |run|
  {
    run == [] || (!Unsettles(s, run[0]) && NeverUnsettled(Next(s, run[0]), run[1..]))
  }

  lemma {:induction false} ConsumedThroughRuns(s: Session, run: seq<Action>)
    requires Exclusive(s) && Consumed(s)
    ensures AlwaysConsumed(s, run) <==> NeverUnsettled(s, run)
    decreases |run|
  {
    if run != [] {
      WhenConsumptionIsKept(s, run[0]);
      StepKeepsExclusive(s, run[0]);
      if Consumed(Next(s, run[0])) {
        ConsumedThroughRuns(Next(s, run[0]), run[1..]);
      }
    }
  }

  /**
   Throughout a run the challenge being answered or confirmed is consumed
   exactly when the QR channel neither confirms an open challenge nor replaces
   one while its assertion is being sent.
   */
  lemma WhenAnsweredChallengesStayConsumed(run: seq<Action>)
    ensures AlwaysConsumed(NEW_SESSION, run) <==> NeverUnsettled(NEW_SESSION, run)
  {
    ConsumedThroughRuns(NEW_SESSION, run);
  }

  /** A confirmation awaited for a challenge nobody answered. */
  predicate Unanswered(s: Session) {
    s.pairing.state == AwaitingConfirmation && !s.pairing.consumed
  }

  /** A confirmation, or WhatsApp's acceptance of an assertion, that meets an unconsumed challenge. */
  predicate Misconfirms(s: Session, a: Action) {
    && !s.pairing.consumed
    && (a.QrConfirmation? || (a.Answered? && a.ok && a.cmd in s.commands && s.commands[a.cmd].Sending?))
  }

  lemma WhenConfirmationIsUnanswered(s: Session, a: Action)
    requires !Unanswered(s)
    ensures Unanswered(Next(s, a)) <==> Misconfirms(s, a)
  {
  }

  predicate EverUnanswered(s: Session, run: seq<Action>)
    decreases |run|
  {
    Unanswered(s) || (run != [] && EverUnanswered(Next(s, run[0]), run[1..]))
  }

  predicate EverMisconfirmed(s: Session, run: seq<Action>)
    decreases |run|
  {
    run != [] && (Misconfirms(s, run[0]) || EverMisconfirmed(Next(s, run[0]), run[1..]))
  }

  /**
   "Awaiting confirmation implies a consumed challenge" fails in a run exactly when
   one of those two steps occurs in it.
   */
  lemma {:induction false} WhenConfirmationsAreUnanswered(s: Session, run: seq<Action>)
    requires !Unanswered(s)
    ensures EverUnanswered(s, run) <==> EverMisconfirmed(s, run)
    decreases |run|
  {
    if run != [] {
      WhenConfirmationIsUnanswered(s, run[0]);
      if !Unanswered(Next(s, run[0])) {
        WhenConfirmationsAreUnanswered(Next(s, run[0]), run[1..]);
      }
    }
  }

  /** "Awaiting confirmation" does not imply a consumed challenge: the QR channel can confirm an open one. */
  lemma ConfirmationWithoutSubmission(key: int, id: string, now: Time, code: string)
    requires id != ""
    ensures
      var s := Next(Next(NEW_SESSION, QrChallenge(key, id, now)), QrConfirmation(0, code, true));
      s.pairing.state == AwaitingConfirmation && !s.pairing.consumed && s.pairing.requestId == id
  {
    assert IsFresh(NEW_SESSION, id);
  }

  lemma StepNeverIdles(s: Session, a: Action)
    requires s.pairing.state != Idle
    ensures Next(s, a).pairing.state != Idle
  {
  }

  /** The documented idle state is never reached: a session starts in none and moves through the others. */
  lemma {:induction false} IdleIsNeverReached(s: Session, run: seq<Action>)
    requires s.pairing.state != Idle
    ensures NextAll(s, run).pairing.state != Idle
    decreases |run|
  {
    if run != [] {
      StepNeverIdles(s, run[0]);
      IdleIsNeverReached(Next(s, run[0]), run[1..]);
    }
  }

  function Begun(id: string, now: Time): Session {
    Next(Next(NEW_SESSION, QrChallenge(600_000, id, now)), StartSubmit(0, id, true))
  }

  /** The other failing kind: a second challenge arrives while the first is being answered, and stays unconsumed. */
  lemma OvertakenSubmission(id: string, other: string, now: Time)
    requires id != "" && other != "" && id != other
    ensures
      var sending := Next(Begun(id, now), Reserve(0, now));
      var s := Next(Next(sending, QrChallenge(600_000, other, now)), Answered(0, true));
      s.pairing.state == AwaitingConfirmation && !s.pairing.consumed && s.pairing.requestId == other
  {
    assert IsFresh(NEW_SESSION, id);
    var begun := Begun(id, now);
    assert begun.commands == map[0 := Submitting(id, true)] && begun.issued == {id};
    var sending := Next(begun, Reserve(0, now));
    assert sending.commands[0] == Sending(id) && IsFresh(sending, other);
  }
}
