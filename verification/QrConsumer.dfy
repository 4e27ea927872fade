/**
 The goroutine that drains the QR channel of one pairing: what it shows, what
 it tells the call that started the pairing, and when it stops.
 */
module QrConsumer {
  import opened Results
  import opened Passkey

  /**
   One turn of the consumer's loop: what the channel or the context delivered,
   with the answers of the calls made while handling it. `Command` is a turn of
   somebody else, an API command that left the pairing in the given condition.
   */
  datatype Event =
    | Command(left: Pairing)
    | Code(code: string, image: Option<string>)
    | PasskeyRequest(key: Option<int>, requestId: string, now: Time)
    | PasskeyResponse(confirmation: Option<(string, bool)>, sent: bool)
    | Paired
    | TimedOut
    | Outdated
    | PairingError
    | Unexpected
    | Closed
    | ContextDone(loggedIn: bool, deadline: bool)

  datatype Failure =
    | TimeoutFailure | OutdatedFailure | PairingFailure | ClosedFailure | CancelledFailure
    | ImageFailure | NoKeyFailure | ConfirmationFailure

  /** What a turn leaves of the pairing. */
  function Wrote(p: Pairing, e: Event): Pairing {
    match e
    case Command(left) => left
    case PasskeyRequest(Some(key), id, now) => SetChallenge(key, id, now)
    case PasskeyRequest(None, _, _) => MarkFailed(p, Some("passkey request without public key"))
    case PasskeyResponse(None, _) => MarkFailed(p, Some("passkey confirmation missing"))
    case PasskeyResponse(Some((code, skip)), sent) =>
      var recorded := SetConfirmation(p, code, skip);
      if skip then recorded
      else if sent then recorded.(state := ConfirmationSent)
      else MarkFailed(recorded, Some("confirmation"))
    case Paired => p.(state := Completed)
    case PairingError => if InProgress(p) then MarkFailed(p, Some("pairing failed")) else p
    case _ => p
  }

  /** The pairing after the first `n` turns. */
  function PairingAfter(p: Pairing, events: seq<Event>, n: nat): Pairing
    requires n <= |events|
  {
    if n == 0 then p else Wrote(PairingAfter(p, events, n - 1), events[n - 1])
  }

  /** A code is taken up unless a passkey pairing is under way when it arrives. */
  predicate TakenUp(p: Pairing, events: seq<Event>, i: nat)
    requires i < |events|
  {
    events[i].Code? && !InProgress(PairingAfter(p, events, i))
  }

  datatype Shown = Shown(count: nat, code: string, image: string)

  /** The codes taken up and drawn in the first `n` turns, in order. */
  function ShownAfter(p: Pairing, events: seq<Event>, n: nat): seq<Shown>
    requires n <= |events|
  {
    if n == 0 then []
    else
      var shown := ShownAfter(p, events, n - 1);
      if TakenUp(p, events, n - 1) && events[n - 1].image.Some?
      then shown + [Shown(|shown| + 1, events[n - 1].code, events[n - 1].image.value)]
      else shown
  }

  /** Shown codes are numbered 1, 2, ... without gaps. */
  lemma {:induction false} ShownCodesAreNumbered(p: Pairing, events: seq<Event>, n: nat, k: nat)
    requires n <= |events| && k < |ShownAfter(p, events, n)|
    ensures ShownAfter(p, events, n)[k].count == k + 1
  {
    if k < |ShownAfter(p, events, n - 1)| {
      ShownCodesAreNumbered(p, events, n - 1, k);
    }
  }

  /** A code taken up and drawn is shown, in the place its turn gives it, and stays shown. */
  lemma {:induction false} TakenUpCodesAreShown(p: Pairing, events: seq<Event>, i: nat, n: nat)
    requires i < n <= |events|
    ensures ShownAfter(p, events, i) <= ShownAfter(p, events, n)
    ensures TakenUp(p, events, i) && events[i].image.Some? ==>
              var k := |ShownAfter(p, events, i)|;
              k < |ShownAfter(p, events, n)|
                  && ShownAfter(p, events, n)[k] == Shown(k + 1, events[i].code, events[i].image.value)
  {
    if i < n - 1 {
      TakenUpCodesAreShown(p, events, i, n - 1);
    }
  }

  /** The five states in which a passkey pairing is under way and a new code would only confuse. */
  predicate Hides(state: State) {
    || state == FetchingChallenge || state == AwaitingAssertion || state == SubmittingAssertion
    || state == AwaitingConfirmation || state == ConfirmationSent
  }

  lemma WhichStatesHideCodes(p: Pairing, events: seq<Event>, i: nat)
    requires i < |events| && events[i].Code?
    ensures var state := PairingAfter(p, events, i).state;
            && (Hides(state) ==> ShownAfter(p, events, i + 1) == ShownAfter(p, events, i))
            && (!Hides(state) && events[i].image.Some? ==>
                  var k := |ShownAfter(p, events, i)|;
                  ShownAfter(p, events, i + 1) ==
                  ShownAfter(p, events, i) + [Shown(k + 1, events[i].code, events[i].image.value)])
            && (events[i].image.None? ==> ShownAfter(p, events, i + 1) == ShownAfter(p, events, i))
  {
  }

  /** A code met by a hiding state adds nothing; a code met by any other state, and drawn, is shown in its place. */
  ghost predicate CodesFollowStates(p: Pairing, events: seq<Event>, n: nat)
    requires n <= |events|
  {
    forall i | 0 <= i < n && events[i].Code? :: CodeFollowsState(p, events, i, ShownAfter(p, events, n))
  }

  predicate CodeFollowsState(p: Pairing, events: seq<Event>, i: nat, shown: seq<Shown>)
    requires i < |events| && events[i].Code?
  {
    var k := |ShownAfter(p, events, i)|;
    && (Hides(PairingAfter(p, events, i).state) ==> ShownAfter(p, events, i + 1) == ShownAfter(p, events, i))
    && (!Hides(PairingAfter(p, events, i).state) && events[i].image.Some? ==>
          k < |shown| && shown[k] == Shown(k + 1, events[i].code, events[i].image.value))
  }

  lemma CodesAndStates(p: Pairing, events: seq<Event>, n: nat)
    requires n <= |events|
    ensures CodesFollowStates(p, events, n)
  {
    forall i | 0 <= i < n && events[i].Code?
      ensures CodeFollowsState(p, events, i, ShownAfter(p, events, n))
    {
      TakenUpCodesAreShown(p, events, i, n);
    }
  }

  /** What each turn leaves of the pairing, by state. */
  lemma WhatTurnsLeave(p: Pairing, e: Event)
    ensures e.Command? ==> Wrote(p, e) == e.left
    ensures e.Paired? ==> Wrote(p, e).state == Completed
    ensures e.PasskeyRequest? && e.key.Some? ==>
              var q := Wrote(p, e);
              q.state == AwaitingAssertion && q.requestId == e.requestId && q.key == e.key && !q.consumed
    ensures e.PasskeyRequest? && e.key.None? ==> Wrote(p, e).state == State.Failed
    ensures e.PasskeyResponse? && e.confirmation.None? ==> Wrote(p, e).state == State.Failed
    ensures e.PasskeyResponse? && e.confirmation.Some? ==>
              var q, skip := Wrote(p, e), e.confirmation.value.1;
              && q.code == e.confirmation.value.0 && q.skipHandoff == skip
              && q.state == if skip then AwaitingConfirmation else if e.sent then ConfirmationSent else State.Failed
    ensures e.PairingError? ==>
              Wrote(p, e).state ==
              if Hides(p.state) then State.Failed else p.state
    ensures e.Code? || e.TimedOut? || e.Outdated? || e.Unexpected? || e.Closed? || e.ContextDone? ==> Wrote(p, e) == p
  {
  }

  predicate Succeeds(e: Event) {
    e.Paired? || (e.ContextDone? && e.loggedIn)
  }

  /** The failure a turn ends with, if it ends with one. */
  function Failing(e: Event, takenUp: bool): Option<Failure> {
    match e
    case Code(_, image) => if takenUp && image.None? then Some(ImageFailure) else None
    case PasskeyRequest(key, _, _) => if key.None? then Some(NoKeyFailure) else None
    case PasskeyResponse(confirmation, sent) =>
      if confirmation.None? then Some(PairingFailure)
      else if !confirmation.value.1 && !sent then Some(ConfirmationFailure) else None
    case TimedOut => Some(TimeoutFailure)
    case Outdated => Some(OutdatedFailure)
    case PairingError => Some(PairingFailure)
    case Unexpected => Some(PairingFailure)
    case Closed => Some(ClosedFailure)
    case ContextDone(loggedIn, deadline) =>
      if loggedIn then None else if deadline then Some(TimeoutFailure) else Some(CancelledFailure)
    case _ => None
  }

  function FailureOf(p: Pairing, events: seq<Event>, i: nat): Option<Failure>
    requires i < |events|
  {
    Failing(events[i], TakenUp(p, events, i))
  }

  /** The code that fills the quota ends the pairing too, without a failure for the caller. */
  predicate FillsQuota(p: Pairing, events: seq<Event>, i: nat, limit: int)
    requires i < |events|
  {
    TakenUp(p, events, i) && events[i].image.Some? && |ShownAfter(p, events, i + 1)| >= limit
  }

  predicate Ends(p: Pairing, events: seq<Event>, i: nat, limit: int)
    requires i < |events|
  {
    Succeeds(events[i]) || FailureOf(p, events, i).Some? || FillsQuota(p, events, i, limit)
  }

  /** Every other answer of a turn: whether it fails the pairing or completes it. */
  method Handle(p: Pairing, e: Event) returns (failure: Option<Failure>, success: bool)
    ensures failure == Failing(e, !InProgress(p))
    ensures success <==> Succeeds(e)
  {
    failure, success := None, false;
    match e {
      case Command(_) =>
      case Code(_, image) =>
        if !InProgress(p) && image.None? { failure := Some(ImageFailure); }
      case PasskeyRequest(key, _, _) =>
        if key.None? { failure := Some(NoKeyFailure); }
      case PasskeyResponse(confirmation, sent) =>
        if confirmation.None? {
          failure := Some(PairingFailure);
        } else if !confirmation.value.1 && !sent {
          failure := Some(ConfirmationFailure);
        }
      case Paired => success := true;
      case TimedOut => failure := Some(TimeoutFailure);
      case Outdated => failure := Some(OutdatedFailure);
      case PairingError => failure := Some(PairingFailure);
      case Unexpected => failure := Some(PairingFailure);
      case Closed => failure := Some(ClosedFailure);
      case ContextDone(loggedIn, deadline) =>
        success := loggedIn;
        if !loggedIn {
          failure := Some(if deadline then TimeoutFailure else CancelledFailure);
        }
    }
  }

  /**
   The consumer takes turns up to the first that ends the pairing. It shows
   exactly the codes taken up until then, numbered 1, 2, ... and at most as many
   as the limit; it hands its caller the first of them, or, when none was shown,
   the failure the pairing ended with, and never both. So the caller hears
   nothing at all just when the pairing succeeds before a code was shown.
   */
  method Consume(p: Pairing, events: seq<Event>, limit: int)
    returns (shown: seq<Shown>, firstCode: Option<Shown>, firstError: Option<Failure>, terminalSuccess: bool,
             ended: bool,
             turns: nat, pairing: Pairing)
    ensures turns <= |events|
    ensures forall i | 0 <= i < turns - 1 :: !Ends(p, events, i, limit)
    ensures ended <==> turns > 0 && Ends(p, events, turns - 1, limit)
    ensures !ended ==> turns == |events|
    ensures pairing == PairingAfter(p, events, turns)
    ensures shown == ShownAfter(p, events, turns)
    ensures |shown| <= if limit >= 1 then limit else 1
    ensures firstCode == if shown == [] then None else Some(shown[0])
    ensures firstError == if ended && shown == [] then FailureOf(p, events, turns - 1) else None
    ensures terminalSuccess <==> ended && Succeeds(events[turns - 1])
    ensures firstCode.None? || firstError.None?
    ensures CodesFollowStates(p, events, turns)
    ensures ended ==> (firstCode.None? && firstError.None? <==> shown == [] && terminalSuccess)
    ensures ended ==> (firstCode.None? && firstError.None? <==>
                       Succeeds(events[turns - 1]) && forall i | 0 <= i < turns - 1 :: !Drawn(p, events, i))
  {
    shown, firstCode, firstError, terminalSuccess, ended, turns, pairing := [], None, None, false, false, 0, p;
    var count, firstSent := 0, false;
    while turns < |events| && !ended
      invariant turns <= |events|
      invariant forall i | 0 <= i < turns - 1 :: !Ends(p, events, i, limit)
      invariant ended <==> turns > 0 && Ends(p, events, turns - 1, limit)
      invariant pairing == PairingAfter(p, events, turns)
      invariant shown == ShownAfter(p, events, turns)
      invariant !ended ==> count == |shown|
      invariant !ended ==> |shown| == 0 || |shown| < limit
      invariant |shown| <= if limit >= 1 then limit else 1
      invariant firstSent <==> shown != []
      invariant firstCode == if shown == [] then None else Some(shown[0])
      invariant firstError == if ended && shown == [] then FailureOf(p, events, turns - 1) else None
      invariant terminalSuccess <==> ended && Succeeds(events[turns - 1])
      invariant ended && shown == [] ==> terminalSuccess || firstError.Some?
    {
      var e, takenUp := events[turns], events[turns].Code? && !InProgress(pairing);
      var failure, success := Handle(pairing, e);
      pairing, turns := Wrote(pairing, e), turns + 1;
      if takenUp {
        count := count + 1;
        if e.image.Some? {
          var drawn := Shown(count, e.code, e.image.value);
          shown := shown + [drawn];
          if !firstSent {
            firstSent, firstCode := true, Some(drawn);
          }
          ended := count >= limit;
        }
      }
      if success {
        ended, terminalSuccess := true, true;
      } else if failure.Some? {
        ended, firstError := true, if firstSent then None else failure;
      }
    }
    CodesAndStates(p, events, turns);
    if ended {
      WhenTheCallerHearsNothing(p, events, turns - 1, limit);
    }
  }

  /**
   A turn never both completes and fails the pairing, and one that does neither
   and is no command's leaves a passkey pairing under way if one was.
   */
  lemma TurnsEndOrGoOn(p: Pairing, e: Event)
    ensures !(Succeeds(e) && Failing(e, !InProgress(p)).Some?)
    ensures InProgress(p) && !e.Command? && !Succeeds(e) && Failing(e, false).None? ==> InProgress(Wrote(p, e))
  {
  }

  /**
   Once a passkey pairing is under way, whatever the channel brings next,
   further requests and confirmations included, no code is taken up until the
   pairing ends or a command changes it.
   */
  lemma {:induction false} PasskeyHidesCodes(p: Pairing, events: seq<Event>, i: nat, j: nat, limit: int)
    requires i <= j <= |events| && Hides(PairingAfter(p, events, i).state)
    requires forall k | i <= k < j :: !events[k].Command? && !Ends(p, events, k, limit)
    ensures Hides(PairingAfter(p, events, j).state)
    ensures j < |events| ==> !TakenUp(p, events, j) && ShownAfter(p, events, j + 1) == ShownAfter(p, events, j)
    decreases j
  {
    if i < j {
      PasskeyHidesCodes(p, events, i, j - 1, limit);
      TurnsEndOrGoOn(PairingAfter(p, events, j - 1), events[j - 1]);
    }
  }

  /** A passkey request with a key puts a pairing under way, whatever it was before. */
  lemma RequestsStartPasskeys(p: Pairing, events: seq<Event>, i: nat)
    requires i < |events| && events[i].PasskeyRequest? && events[i].key.Some?
    ensures InProgress(PairingAfter(p, events, i + 1))
  {
  }

  /** So after a passkey request with a key no code is taken up until the pairing ends or a command changes it. */
  lemma RequestsHideCodes(p: Pairing, events: seq<Event>, i: nat, j: nat, limit: int)
    requires i < j < |events| && events[i].PasskeyRequest? && events[i].key.Some?
    requires forall k | i < k < j :: !events[k].Command? && !Ends(p, events, k, limit)
    ensures !TakenUp(p, events, j)
  {
    RequestsStartPasskeys(p, events, i);
    PasskeyHidesCodes(p, events, i + 1, j, limit);
  }

  /** A code was taken up and drawn at this turn. */
  predicate Drawn(p: Pairing, events: seq<Event>, i: nat)
    requires i < |events|
  {
    TakenUp(p, events, i) && events[i].image.Some?
  }

  lemma {:induction false} NothingShown(p: Pairing, events: seq<Event>, n: nat)
    requires n <= |events|
    ensures ShownAfter(p, events, n) == [] <==> forall i | 0 <= i < n :: !Drawn(p, events, i)
  {
    if n > 0 {
      NothingShown(p, events, n - 1);
      assert Drawn(p, events, n - 1) ==> ShownAfter(p, events, n) != [];
    }
  }

  /** The caller is told the first code shown by the end of the pairing or else the failure the pairing ends with. */
  predicate CallerHears(p: Pairing, events: seq<Event>, last: nat)
    requires last < |events|
  {
    ShownAfter(p, events, last + 1) != [] || FailureOf(p, events, last).Some?
  }

  /**
   Exactly when the call that started the pairing is never answered: when the
   first turn to end the pairing completes it and no code was drawn before.
   */
  lemma WhenTheCallerHearsNothing(p: Pairing, events: seq<Event>, last: nat, limit: int)
    requires last < |events| && Ends(p, events, last, limit)
    ensures !CallerHears(p, events, last) <==>
            Succeeds(events[last]) && forall i | 0 <= i < last :: !Drawn(p, events, i)
  {
    NothingShown(p, events, last);
    NothingShown(p, events, last + 1);
    TurnsEndOrGoOn(PairingAfter(p, events, last), events[last]);
    if FillsQuota(p, events, last, limit) {
      assert Drawn(p, events, last);
    }
  }

  /** A failing input: the phone pairs before the first code arrives. */
  lemma PairedBeforeTheFirstCode(p: Pairing, limit: int)
    ensures Ends(p, [Paired], 0, limit) && !CallerHears(p, [Paired], 0)
  {
    assert FailureOf(p, [Paired], 0) == None && !Drawn(p, [Paired], 0);
    NothingShown(p, [Paired], 1);
  }
}
