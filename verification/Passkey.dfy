/**
 The passkey part of a pairing session: its data, the writes made to it under
 the session lock, and the session object itself.
 */
module Passkey {
  import opened Results

  type Time = int

  datatype State =
    | Unset | Idle | FetchingChallenge | AwaitingAssertion | SubmittingAssertion
    | AwaitingConfirmation | ConfirmationSent | Completed | Failed | Expired

  /** The stored key stands for its timeout in milliseconds. */
  datatype Pairing = Pairing(state: State, requestId: string, key: Option<int>, expiresAt: Time, consumed: bool,
                             code: string, skipHandoff: bool, lastError: Option<string>)

  const UNPAIRED := Pairing(Unset, "", None, 0, false, "", false, None)

  datatype Error =
    | NotActive | RequestMismatch | InvalidState | AlreadyUsed | ChallengeExpired | InvalidAssertion
    | ServiceUnavailable | NotAvailable | ClientNotConnected | InstanceConnected

  // ---------------------------------------------------------------- challenge lifetime

  const MILLISECOND := 1_000_000
  const MINUTE := 60_000 * MILLISECOND
  const DEFAULT_TTL := 10 * MINUTE
  const MAX_TTL := 15 * MINUTE

  /** Signed 64-bit wrap-around. */
  function Wrap64(n: int): (r: int)
    ensures -0x8000_0000_0000_0000 <= r < 0x8000_0000_0000_0000
    ensures -0x8000_0000_0000_0000 <= n < 0x8000_0000_0000_0000 ==> r == n
  {
    (n + 0x8000_0000_0000_0000) % 0x1_0000_0000_0000_0000 - 0x8000_0000_0000_0000
  }

  function ChallengeTtl(key: Option<int>): int {
    if key.None? then DEFAULT_TTL
    else
      var ttl := Wrap64(key.value * MILLISECOND);
      if ttl <= 0 then DEFAULT_TTL else if ttl > MAX_TTL then MAX_TTL else ttl
  }

  /**
   A challenge lives at least a moment and at most a quarter of an hour. It
   lives exactly as long as the key asks, capped, unless the timeout is not
   positive or too large for a 64-bit duration.
   */
  lemma ChallengeLifetime(key: Option<int>)
    ensures 0 < ChallengeTtl(key) <= MAX_TTL
    ensures key.Some? && 0 < key.value <= 9_223_372_036_854 ==>
              ChallengeTtl(key) == if key.value <= 900_000 then key.value * MILLISECOND else MAX_TTL
    ensures key.Some? && -9_223_372_036_854 <= key.value <= 0 ==> ChallengeTtl(key) == DEFAULT_TTL
  {
  }

  /** What a key's timeout asks for: the default when it is not positive, and no more than the cap. */
  function AskedTtl(timeout: int): int {
    if timeout <= 0 then DEFAULT_TTL else if timeout > 900_000 then MAX_TTL else timeout * MILLISECOND
  }

  /**
   Exactly when a challenge lives as long as asked: always for a timeout within
   the cap; otherwise when the product, as 64 bits hold it, still falls on the
   same side.
   */
  lemma WhenLifetimeIsAsAsked(timeout: int)
    ensures var product := Wrap64(timeout * MILLISECOND);
            ChallengeTtl(Some(timeout)) == AskedTtl(timeout) <==>
              if timeout <= 0 then product <= 0 || product == DEFAULT_TTL else timeout <= 900_000 || product >= MAX_TTL
  {
  }

  /** A failing instance: this timeout of 584 years gives a challenge of less than a millisecond. */
  lemma HugeTimeoutWraps()
    ensures ChallengeTtl(Some(18_446_744_073_710)) == 448_384 && AskedTtl(18_446_744_073_710) == MAX_TTL
  {
  }

  // ---------------------------------------------------------------- writes under the session lock

  function SetChallenge(key: int, requestId: string, now: Time): Pairing {
    UNPAIRED.(state := AwaitingAssertion, requestId := requestId, key := Some(key),
              expiresAt := now + ChallengeTtl(Some(key)))
  }

  datatype FetchAnswer = Existing | Fetch | Refused

  predicate OpenChallenge(p: Pairing, now: Time) {
    p.key.Some? && p.state == AwaitingAssertion && !p.consumed && now < p.expiresAt
  }

  function BeginFetch(p: Pairing, now: Time): (Pairing, FetchAnswer) {
    if OpenChallenge(p, now) then (p, Existing)
    else
      var state := if p.key.Some? && p.state == AwaitingAssertion && !p.consumed then Expired else p.state;
      if state == Idle || state == Expired || state == Failed || state == Unset
      then (UNPAIRED.(state := FetchingChallenge), Fetch)
      else (p, Refused)
  }

  function ReserveAssertion(p: Pairing, requestId: string, valid: bool, now: Time): (Pairing, Option<Error>) {
    if p.requestId == "" || p.key.None? then (p, Some(NotActive))
    else if p.requestId != requestId then (p, Some(RequestMismatch))
    else if p.state != AwaitingAssertion then (p, Some(InvalidState))
    else if p.consumed then (p, Some(AlreadyUsed))
    else if now >= p.expiresAt then (p.(state := Expired), Some(ChallengeExpired))
    else if !valid then (p, Some(InvalidAssertion))
    else (p.(consumed := true, state := SubmittingAssertion), None)
  }

  function MarkFailed(p: Pairing, error: Option<string>): Pairing {
    p.(state := State.Failed, lastError := if error.Some? then error else p.lastError)
  }

  function SetConfirmation(p: Pairing, code: string, skip: bool): Pairing {
    p.(state := AwaitingConfirmation, code := code, skipHandoff := skip)
  }

  predicate InProgress(p: Pairing) {
    p.state == FetchingChallenge || p.state == AwaitingAssertion || p.state == SubmittingAssertion
    || p.state == AwaitingConfirmation || p.state == ConfirmationSent
  }

  /** An open challenge is unconsumed and has a key and an id. */
  predicate Sound(p: Pairing) {
    p.state == AwaitingAssertion ==> !p.consumed && p.key.Some? && p.requestId != ""
  }

  /**
   In a sound session an assertion is accepted exactly when it answers the open
   challenge in time. The "already used" answer never comes: a consumed
   challenge is no longer awaited, so a second submission meets the wrong state.
   */
  lemma WhenAssertionsAreAccepted(p: Pairing, requestId: string, valid: bool, now: Time)
    requires Sound(p)
    ensures ReserveAssertion(p, requestId, valid, now).1.None? <==>
            p.state == AwaitingAssertion && p.requestId == requestId && now < p.expiresAt && valid
    ensures ReserveAssertion(p, requestId, valid, now).1 != Some(AlreadyUsed)
    ensures var again := ReserveAssertion(ReserveAssertion(p, requestId, valid, now).0, requestId, true, now).1;
            ReserveAssertion(p, requestId, valid, now).1.None? ==> again == Some(InvalidState)
  {
  }

  // ---------------------------------------------------------------- writes of the QR channel

  /** What the QR channel may do to the session while a command waits for its client. */
  datatype QrWrite =
    | Challenge(key: int, requestId: string, now: Time)
    | Confirmation(code: string, skip: bool)
    | Failure(error: Option<string>)
    | Completion

  function QrApply(p: Pairing, w: QrWrite): Pairing {
    match w
    case Challenge(key, requestId, now) => SetChallenge(key, requestId, now)
    case Confirmation(code, skip) => SetConfirmation(p, code, skip)
    case Failure(error) => MarkFailed(p, error)
    case Completion => p.(state := Completed)
  }

  /** What each write leaves: a new challenge starts over, the others keep the challenge that is there. */
  lemma WhatQrWritesLeave(p: Pairing, w: QrWrite)
    ensures w.Challenge? && -9_223_372_036_854 <= w.key <= 9_223_372_036_854 ==>
              QrApply(p, w) == Pairing(AwaitingAssertion, w.requestId, Some(w.key),
                                       w.now + (if w.key <= 0 then 600_000_000_000
                                                else if w.key > 900_000 then 900_000_000_000 else w.key * 1_000_000),
                                       false, "", false, None)
    ensures !w.Challenge? ==>
              var q := QrApply(p, w);
              && (q.requestId, q.key, q.expiresAt, q.consumed) == (p.requestId, p.key, p.expiresAt, p.consumed)
              && q.state == (match w
                             case Confirmation(_, _) => AwaitingConfirmation
                             case Failure(_) => State.Failed
                             case Completion => Completed
                             case Challenge(_, _, _) => q.state)
              && (q.code, q.skipHandoff) == (if w.Confirmation? then (w.code, w.skip) else (p.code, p.skipHandoff))
              && q.lastError == if w.Failure? && w.error.Some? then w.error else p.lastError
  {
    if w.Challenge? {
      ChallengeLifetime(Some(w.key));
    }
  }

  function QrApplyAll(p: Pairing, writes: seq<QrWrite>): Pairing
    decreases |writes|
  {
    if writes == [] then p else QrApplyAll(QrApply(p, writes[0]), writes[1..])
  }

  /** Request ids are made fresh and are never empty. */
  predicate IdsNotEmpty(writes: seq<QrWrite>) {
    forall w | w in writes && w.Challenge? :: w.requestId != ""
  }

  lemma {:induction false} QrKeepsSound(p: Pairing, writes: seq<QrWrite>)
    requires Sound(p) && IdsNotEmpty(writes)
    ensures Sound(QrApplyAll(p, writes))
    decreases |writes|
  {
    if writes != [] {
      assert writes[0] in writes && (forall w | w in writes[1..] :: w in writes);
      QrKeepsSound(QrApply(p, writes[0]), writes[1..]);
    }
  }

  /** What the command finds of the instance's client. */
  datatype Client = Client(connected: bool, loggedIn: bool, linked: bool)

  /** Only a connected client without a login or a device can be paired. */
  function NotReady(client: Option<Client>): Option<Error> {
    if client.None? || !client.value.connected then Some(ClientNotConnected)
    else if client.value.loggedIn || client.value.linked then Some(InstanceConnected)
    else None
  }

  datatype FetchResult = FetchFailed(error: string) | NoKey | Key(timeout: int)

  class PairingSession {
    var passkey: Pairing
    var commandLocked: bool

    constructor ()
      ensures passkey == Pairing(Unset, "", None, 0, false, "", false, None) && !commandLocked
    {
      passkey, commandLocked := UNPAIRED, false;
    }

    /** The QR channel writes while a command that holds the mutex waits for its client. */
    method QrWrites(writes: seq<QrWrite>)
      requires commandLocked
      modifies `passkey
      ensures passkey == QrApplyAll(old(passkey), writes)
    {
      for i := 0 to |writes|
        invariant QrApplyAll(passkey, writes[i..]) == QrApplyAll(old(passkey), writes)
      {
        passkey := QrApply(passkey, writes[i]);
        assert writes[i..][1..] == writes[i + 1..];
      }
    }

    /**
     A challenge request answers with an open challenge and leaves the mutex as
     it was: the one that is open already, or a new one under the fresh id.
     Whatever the QR channel wrote while the key was fetched is overwritten by
     the outcome of the fetch.
     */
    method RequestChallenge(client: Option<Client>, now: Time, fetched: FetchResult, freshId: string, later: Time,
                            between: seq<QrWrite>)
      returns (r: Result<(string, int), Error>)
      requires Sound(passkey) && IdsNotEmpty(between) && freshId != ""
      modifies this
      ensures Sound(passkey) && commandLocked == old(commandLocked)
      ensures NotReady(client).Some? ==> r == Err(NotReady(client).value) && passkey == old(passkey)
      ensures NotReady(client).None? && old(commandLocked) ==> r == Err(InvalidState) && passkey == old(passkey)
      ensures r.Ok? ==> passkey.state == AwaitingAssertion && r.value == (passkey.requestId, passkey.expiresAt)
      ensures r.Ok? ==> r.value.0 == if OpenChallenge(old(passkey), now) then old(passkey).requestId else freshId
      ensures r.Ok? && !OpenChallenge(old(passkey), now) ==>
              fetched.Key? && later < passkey.expiresAt <= later + MAX_TTL
      ensures !old(commandLocked) && (r == Err(ServiceUnavailable) || r == Err(NotAvailable)) ==>
              passkey.state == State.Failed
      ensures !old(commandLocked) && r == Err(InvalidState) ==> passkey == old(passkey)
      ensures NotReady(client).None? && !old(commandLocked) && OpenChallenge(old(passkey), now) ==>
              r.Ok? && passkey == old(passkey)
      ensures NotReady(client).None? && !old(commandLocked) ==>
        var p := old(passkey);
        var awaited := p.state == AwaitingAssertion && p.key.Some? && !p.consumed;
        && (awaited && now < p.expiresAt ==> r == Ok((p.requestId, p.expiresAt)) && passkey == p)
        && ((p.state == Unset || p.state == Idle || p.state == State.Failed || p.state == Expired
             || (awaited && now >= p.expiresAt)) ==>
              && (fetched.Key? ==> r.Ok? && r.value.0 == freshId && passkey.requestId == freshId && !passkey.consumed
                                   && passkey.key == Some(fetched.timeout) && passkey.code == ""
                                   && !passkey.skipHandoff && passkey.lastError.None?)
              && (fetched.FetchFailed? ==> r == Err(ServiceUnavailable) && passkey.lastError == Some(fetched.error))
              && (fetched.NoKey? ==> r == Err(NotAvailable) && passkey.lastError.Some?)
              && (!fetched.Key? ==>
                    var begun := Pairing(FetchingChallenge, "", None, 0, false, "", false, None);
                    passkey == QrApplyAll(begun, between).(state := State.Failed, lastError := passkey.lastError)))
        && ((p.state == FetchingChallenge || p.state == SubmittingAssertion || p.state == AwaitingConfirmation
             || p.state == ConfirmationSent || p.state == Completed) ==> r == Err(InvalidState))
      ensures r.Ok? && !OpenChallenge(old(passkey), now)
              && -9_223_372_036_854 <= fetched.timeout <= 9_223_372_036_854 ==>
              passkey.expiresAt == later + (if fetched.timeout <= 0 then 600_000_000_000
                                            else if fetched.timeout > 900_000 then 900_000_000_000
                                            else fetched.timeout * 1_000_000)
    {
      if client.None? || !client.value.connected {
        return Err(ClientNotConnected);
      }
      if client.value.loggedIn || client.value.linked {
        return Err(InstanceConnected);
      }
      if commandLocked {
        return Err(InvalidState);
      }
      commandLocked := true;
      var (begun, answer) := BeginFetch(passkey, now);
      passkey := begun;
      if answer.Refused? {
        commandLocked := false;
        return Err(InvalidState);
      }
      if answer.Existing? {
        commandLocked := false;
        return Ok((passkey.requestId, passkey.expiresAt));
      }
      QrWrites(between);
      QrKeepsSound(begun, between);
      match fetched {
        case FetchFailed(error) =>
          passkey := MarkFailed(passkey, Some(error));
          r := Err(ServiceUnavailable);
        case NoKey =>
          passkey := MarkFailed(passkey, Some("passkey not available"));
          r := Err(NotAvailable);
        case Key(timeout) =>
          passkey := SetChallenge(timeout, freshId, later);
          ChallengeLifetime(Some(timeout));
          r := Ok((passkey.requestId, passkey.expiresAt));
      }
      commandLocked := false;
    }

    /**
     A submission sends the assertion exactly when the open challenge accepts
     it; the answer of WhatsApp then decides the state, whatever the QR channel
     wrote in between.
     */
    method SubmitAssertion(client: Option<Client>, requestId: string, valid: bool, now: Time, accepted: bool,
                           between: seq<QrWrite>)
      returns (r: Result<State, Error>, sent: bool)
      requires Sound(passkey) && IdsNotEmpty(between)
      modifies this
      ensures Sound(passkey) && commandLocked == old(commandLocked)
      ensures NotReady(client).Some? ==> r == Err(NotReady(client).value) && !sent && passkey == old(passkey)
      ensures NotReady(client).None? && old(commandLocked) ==>
              r == Err(InvalidState) && !sent && passkey == old(passkey)
      ensures NotReady(client).None? && !old(commandLocked) ==>
                (sent <==> && old(passkey).state == AwaitingAssertion && old(passkey).requestId == requestId
                           && now < old(passkey).expiresAt && valid)
      ensures sent ==> r == (if accepted then Ok(AwaitingConfirmation) else Err(ServiceUnavailable))
      ensures sent ==> passkey.state == if accepted then AwaitingConfirmation else State.Failed
      ensures sent && (forall w | w in between :: !w.Challenge?) ==> passkey.consumed && passkey.requestId == requestId
      ensures !sent ==> r.Err?
      ensures !sent && NotReady(client).None? && !old(commandLocked) ==>
        var p := old(passkey);
        r.error == if p.requestId == "" || p.key.None? then NotActive
                   else if p.requestId != requestId then RequestMismatch
                   else if p.state != AwaitingAssertion then InvalidState
                   else if now >= p.expiresAt then ChallengeExpired
                   else InvalidAssertion
      ensures sent ==>
        var q := QrApplyAll(old(passkey).(state := SubmittingAssertion, consumed := true), between);
        passkey == q.(state := if accepted then AwaitingConfirmation else State.Failed,
                      lastError := if accepted then q.lastError else passkey.lastError)
      ensures sent && !accepted ==> passkey.lastError.Some?
      ensures !sent && r != Err(ChallengeExpired) ==> passkey == old(passkey)
      ensures r == Err(ChallengeExpired) ==> passkey == old(passkey).(state := Expired)
    {
      if client.None? || !client.value.connected {
        return Err(ClientNotConnected), false;
      }
      if client.value.loggedIn || client.value.linked {
        return Err(InstanceConnected), false;
      }
      if commandLocked {
        return Err(InvalidState), false;
      }
      commandLocked := true;
      WhenAssertionsAreAccepted(passkey, requestId, valid, now);
      var (reserved, refused) := ReserveAssertion(passkey, requestId, valid, now);
      passkey := reserved;
      if refused.Some? {
        commandLocked := false;
        return Err(refused.value), false;
      }
      QrWrites(between);
      QrKeepsSound(reserved, between);
      QrKeepsConsumed(reserved, between);
      sent := true;
      if accepted {
        passkey := passkey.(state := AwaitingConfirmation);
        r := Ok(AwaitingConfirmation);
      } else {
        passkey := MarkFailed(passkey, Some("send failed"));
        r := Err(ServiceUnavailable);
      }
      commandLocked := false;
    }
  }

  lemma {:induction false} QrKeepsConsumed(p: Pairing, writes: seq<QrWrite>)
    requires p.consumed
    ensures (forall w | w in writes :: !w.Challenge?) ==>
              QrApplyAll(p, writes).consumed && QrApplyAll(p, writes).requestId == p.requestId
    decreases |writes|
  {
    if writes != [] && !writes[0].Challenge? {
      QrKeepsConsumed(QrApply(p, writes[0]), writes[1..]);
      assert forall w | w in writes[1..] :: w in writes;
    }
    if writes != [] && writes[0].Challenge? {
      assert writes[0] in writes;
    }
  }
}
