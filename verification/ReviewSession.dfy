/** The review login of one document and its single-flight refresh (packages/shared/src/reviewSession.ts). */
module ReviewSession {
  import opened Common

  type Token = nat
  type FlightId = nat

  /** `refresh` is None in a tab that was duplicated: it holds no refresh token. */
  datatype Stored = Stored(sessionId: string, access: Token, refresh: Option<Token>)

  /** What one call of `refresh` brings back. */
  datatype Outcome = Tokens(access: Token, refresh: Token) | IncompleteBody | RefreshFailed

  datatype Detail = Expired | Unrecoverable | OtherDetail

  /** A refresh that was started: the token it presented, the epoch it captured, whether its answer came. */
  datatype Flight = Flight(token: Token, sessionId: string, epoch: nat, returned: bool)

  /** The module's variables, the flights under way, and the refresh tokens presented so far, in order. */
  datatype State = State(
    memory: Option<Stored>,
    flight: Option<FlightId>,
    epoch: nat,
    known: set<Token>,
    flights: seq<Flight>,
    presented: seq<Token>)

  datatype Step =
    | Login(session: Stored)
    | Logout
    | Unauthorized(detail: Detail)
    | RefreshFor(expected: Token)
    | Returns(id: FlightId, outcome: Outcome)
    | Settles(id: FlightId)

  /** A new document holds nothing, or what the reload handed over. */
  predicate IsStart(s: State) {
    s.flight.None? && s.flights == [] && s.presented == []
  }

  /** All that is asked of the server: it never hands back a refresh token that was already exchanged. */
  predicate Fresh(s: State, t: Token) {
    t !in s.presented
  }

  predicate Enabled(s: State, step: Step) {
    match step
    case Login(session) => session.refresh.Some? ==> Fresh(s, session.refresh.value)
    case Returns(id, outcome) =>
      && id < |s.flights| && !s.flights[id].returned
      && (outcome.Tokens? ==> Fresh(s, outcome.refresh))
    case Settles(id) => id < |s.flights| && s.flights[id].returned
    case _ => true
  }

  // ------------------------------------------------------------ what each function does

  /** `rememberReviewSession` */
  function Remembered(s: State, session: Stored): State {
    s.(memory := Some(session), known := s.known + {session.access})
  }

  /** `clearReviewSession`: a later answer of a flight belongs to an earlier epoch. */
  function Cleared(s: State): State {
    s.(memory := None, flight := None, epoch := s.epoch + 1, known := {})
  }

  /** `refreshReviewSession` up to its await: it presents a token only when no flight is under way. */
  function AfterRefreshFor(s: State, expected: Token): State {
    if s.memory.None? || s.memory.value.refresh.None? then s
    else if s.memory.value.refresh.value != expected || s.flight.Some? then s
    else
      s.(flight := Some(|s.flights|),
         flights := s.flights + [Flight(expected, s.memory.value.sessionId, s.epoch, false)],
         presented := s.presented + [expected])
  }

  /** The end of `authorizedReviewFetch`: a 401 and its detail, read after the request came back. */
  function AfterUnauthorized(s: State, detail: Detail): State {
    match detail
    case OtherDetail => s
    case Unrecoverable => Cleared(s)
    case Expired =>
      if s.memory.None? || s.memory.value.refresh.None? then Cleared(s)
      else AfterRefreshFor(s, s.memory.value.refresh.value)
  }

  /** The flight after its await. Its answer counts only in the epoch that started it. */
  function AfterReturn(s: State, id: FlightId, outcome: Outcome): State
    requires id < |s.flights|
  {
    var flight := s.flights[id];
    var back := s.(flights := s.flights[id := flight.(returned := true)]);
    if s.epoch != flight.epoch then back
    else if outcome.Tokens? then Remembered(back, Stored(flight.sessionId, outcome.access, Some(outcome.refresh)))
    else Cleared(back)
  }

  /** The handler that forgets the flight, one microtask later. */
  function AfterSettle(s: State, id: FlightId): State {
    if s.flight == Some(id) then s.(flight := None) else s
  }

  function Do(s: State, step: Step): State
    requires Enabled(s, step)
  {
    match step
    case Login(session) => Remembered(s, session)
    case Logout => Cleared(s)
    case Unauthorized(detail) => AfterUnauthorized(s, detail)
    case RefreshFor(expected) => AfterRefreshFor(s, expected)
    case Returns(id, outcome) => AfterReturn(s, id, outcome)
    case Settles(id) => AfterSettle(s, id)
  }

  predicate PossibleRun(s: State, steps: seq<Step>)
    decreases |steps|
  {
    steps == [] || (Enabled(s, steps[0]) && PossibleRun(Do(s, steps[0]), steps[1..]))
  }

  function AfterRun(s: State, steps: seq<Step>): State
    requires PossibleRun(s, steps)
    decreases |steps|
  {
    if steps == [] then s else AfterRun(Do(s, steps[0]), steps[1..])
  }

  // ------------------------------------------------------------ no token twice

  predicate Distinct(s: seq<Token>) {
    forall i, j :: 0 <= i < j < |s| ==> s[i] != s[j]
  }

  /** A presented token that is still held belongs to the flight under way, whose answer has not come. */
  predicate Inv(s: State) {
    && Distinct(s.presented)
    && (s.flight.Some? ==> s.flight.value < |s.flights| && s.flights[s.flight.value].epoch == s.epoch)
    && (forall i :: 0 <= i < |s.flights| ==> s.flights[i].epoch <= s.epoch)
    && (s.memory.Some? && s.memory.value.refresh.Some? && s.memory.value.refresh.value in s.presented ==>
          s.flight.Some? && !s.flights[s.flight.value].returned)
  }

  lemma StepKeeps(s: State, step: Step)
    requires Inv(s) && Enabled(s, step)
    ensures Inv(Do(s, step))
  {
  }

  lemma {:induction false} EveryRunKeeps(s: State, steps: seq<Step>)
    requires Inv(s) && PossibleRun(s, steps)
    ensures Inv(AfterRun(s, steps))
    decreases |steps|
  {
    hide Inv, Enabled, Do;
    if steps != [] {
      StepKeeps(s, steps[0]);
      EveryRunKeeps(Do(s, steps[0]), steps[1..]);
    }
  }

  /**
   * However concurrent requests, late 401s, logouts, logins and answers interleave, no refresh token is
   * presented twice.
   */
  lemma NoTokenIsPresentedTwice(start: State, steps: seq<Step>)
    requires IsStart(start) && PossibleRun(start, steps)
    ensures var presented := AfterRun(start, steps).presented;
      forall i, j :: 0 <= i < j < |presented| ==> presented[i] != presented[j]
  {
    EveryRunKeeps(start, steps);
  }

  // ------------------------------------------------------------ logout sticks

  predicate NoLogin(steps: seq<Step>) {
    forall i :: 0 <= i < |steps| ==> !steps[i].Login?
  }

  predicate LoggedOut(s: State) {
    s.memory.None? && forall i :: 0 <= i < |s.flights| && !s.flights[i].returned ==> s.flights[i].epoch < s.epoch
  }

  lemma {:induction false} StaysLoggedOut(s: State, steps: seq<Step>)
    requires LoggedOut(s) && PossibleRun(s, steps) && NoLogin(steps)
    ensures AfterRun(s, steps).memory.None? && AfterRun(s, steps).presented == s.presented
    decreases |steps|
  {
    if steps != [] {
      assert !steps[0].Login?;
      assert NoLogin(steps[1..]);
      assert LoggedOut(Do(s, steps[0]));
      StaysLoggedOut(Do(s, steps[0]), steps[1..]);
    }
  }

  /** After a logout no late answer brings the credentials back, and nothing is presented, until a new login. */
  lemma LogoutSticks(start: State, before: seq<Step>, after: seq<Step>)
    requires IsStart(start) && PossibleRun(start, before)
    requires var s := Cleared(AfterRun(start, before)); PossibleRun(s, after) && NoLogin(after)
    ensures var s := Cleared(AfterRun(start, before));
      AfterRun(s, after).memory.None? && AfterRun(s, after).presented == s.presented
  {
    EveryRunKeeps(start, before);
    StaysLoggedOut(Cleared(AfterRun(start, before)), after);
  }

  // ------------------------------------------------------------ the module's variables

  class ReviewDocument {
    var memory: Option<Stored>
    var refreshFlight: Option<FlightId>
    var sessionEpoch: nat
    var knownAccessTokens: set<Token>
    var flights: seq<Flight>
    var presented: seq<Token>

    function View(): State
      reads this
    {
      State(memory, refreshFlight, sessionEpoch, knownAccessTokens, flights, presented)
    }

    constructor (handedOver: Option<Stored>)
      ensures IsStart(View()) && memory == handedOver
    {
      memory, refreshFlight, sessionEpoch := handedOver, None, 0;
      knownAccessTokens := if handedOver.Some? then {handedOver.value.access} else {};
      flights, presented := [], [];
    }

    method RememberReviewSession(session: Stored)
      modifies this
      ensures View() == Remembered(old(View()), session)
    {
      memory := Some(session);
      knownAccessTokens := knownAccessTokens + {session.access};
    }

    method ClearReviewSession()
      modifies this
      ensures View() == Cleared(old(View()))
    {
      sessionEpoch := sessionEpoch + 1;
      memory := None;
      knownAccessTokens := {};
      refreshFlight := None;
    }

    /** The login a request's token belongs to: the one held now, if the token is or was its access token. */
    method SessionForToken(requested: Token) returns (session: Option<Stored>)
      ensures session.Some? <==> memory.Some? && (requested == memory.value.access || requested in knownAccessTokens)
      ensures session.Some? ==> session == memory
    {
      if memory.Some? && (requested == memory.value.access || requested in knownAccessTokens) {
        return memory;
      }
      session := None;
    }

    /** The flight joined or started; None when the promise settled at once. */
    method RefreshReviewSession(expected: Token) returns (joined: Option<FlightId>)
      modifies this
      ensures View() == AfterRefreshFor(old(View()), expected)
      ensures joined.Some? ==> joined == refreshFlight
    {
      if memory.None? || memory.value.refresh.None? {
        return None;
      }
      if memory.value.refresh.value != expected {
        return None;
      }
      if refreshFlight.Some? {
        return refreshFlight;
      }
      refreshFlight := Some(|flights|);
      flights := flights + [Flight(expected, memory.value.sessionId, sessionEpoch, false)];
      presented := presented + [expected];
      joined := refreshFlight;
    }

    method FlightReturned(id: FlightId, outcome: Outcome)
      requires id < |flights|
      modifies this
      ensures View() == AfterReturn(old(View()), id, outcome)
    {
      var flight := flights[id];
      flights := flights[id := flight.(returned := true)];
      if sessionEpoch != flight.epoch {
        return;
      }
      if outcome.Tokens? {
        RememberReviewSession(Stored(flight.sessionId, outcome.access, Some(outcome.refresh)));
      } else {
        ClearReviewSession();
      }
    }

    method FlightSettled(id: FlightId)
      modifies this
      ensures View() == AfterSettle(old(View()), id)
    {
      if refreshFlight == Some(id) {
        refreshFlight := None;
      }
    }
  }
}
