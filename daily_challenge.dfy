/** The client's daily-challenge hook: the game-state record, the updaters
    applied to it after a verified guess and on "next attempt", the merge of
    a revealed answer into the challenge record, and a class holding the
    hook's four pieces of state whose methods apply those updaters. */
module DailyChallenge {
  import opened Basics
  import Server

  // ---------------------------------------------------------------------
  // The game-state record and its updaters
  // ---------------------------------------------------------------------

  datatype GameState = GameState(
    attempts: nat,
    isComplete: bool,
    currentGuess: Option<string>,
    showResult: bool,
    points: int)

  const InitialGameState := GameState(0, false, None, false, 0)

  /** `Math.max(30 - attempts * 10, 10)`: 30 for a correct first attempt,
      20 for the second, 10 from the third on. */
  function PointsFor(priorAttempts: nat): (p: int)
    ensures 10 <= p <= 30
    ensures priorAttempts < 2 ==> p == 30 - 10 * priorAttempts
    ensures priorAttempts >= 2 ==> p == 10
  {
    Max(30 - priorAttempts * 10, 10)
  }

  /** The updater applied after the server judged `guess`: one more attempt,
      the guess on display, and the game complete when the guess was correct
      or was the third or a later one; a correct guess earns the points of
      its attempt, a wrong one keeps the points there were. */
  function Judged(prev: GameState, guess: string, correct: bool): (r: GameState)
    ensures r.attempts == prev.attempts + 1
    ensures r.currentGuess == Some(guess) && r.showResult
    ensures r.isComplete <==> correct || r.attempts >= 3
    ensures correct ==> r.points == PointsFor(prev.attempts)
    ensures !correct ==> r.points == prev.points
  {
    prev.(attempts := prev.attempts + 1,
          currentGuess := Some(guess),
          showResult := true,
          isComplete := correct || prev.attempts >= 2,
          points := if correct then PointsFor(prev.attempts) else prev.points)
  }

  /** The updater of nextAttempt: it clears the guess display and nothing else. */
  function ResetDisplay(prev: GameState): (r: GameState)
    ensures r.currentGuess.None? && !r.showResult
    ensures r.(currentGuess := prev.currentGuess, showResult := prev.showResult) == prev
  {
    prev.(showResult := false, currentGuess := None)
  }

  // ---------------------------------------------------------------------
  // Every sequence of user actions that reach the game state
  // ---------------------------------------------------------------------

  /** A guess the server judged, or a click on "next attempt". Submissions
      that fail, or that happen before a challenge is loaded, leave the game
      state as it is and so are not events here. */
  datatype Event = Submitted(guess: string, correct: bool) | NextAttempt

  function Apply(s: GameState, e: Event): GameState
  {
    match e
    case Submitted(g, c) => Judged(s, g, c)
    case NextAttempt => ResetDisplay(s)
  }

  /** The game state after the given events, starting from the initial record. */
  function Run(events: seq<Event>): GameState
  {
    if events == [] then InitialGameState
    else Apply(Run(events[..|events| - 1]), events[|events| - 1])
  }

  /** How many guesses were judged. */
  function Submissions(events: seq<Event>): nat
  {
    if events == [] then 0
    else Submissions(events[..|events| - 1]) + (if events[|events| - 1].Submitted? then 1 else 0)
  }

  /** For the last correct guess, how many guesses had been judged before it. */
  function LastCorrect(events: seq<Event>): Option<nat>
  {
    if events == [] then None
    else
      var e := events[|events| - 1];
      if e.Submitted? && e.correct then Some(Submissions(events[..|events| - 1]))
      else LastCorrect(events[..|events| - 1])
  }

  /** Whether the last judged guess was correct, if there was one. */
  function LastVerdict(events: seq<Event>): Option<bool>
  {
    if events == [] then None
    else if events[|events| - 1].Submitted? then Some(events[|events| - 1].correct)
    else LastVerdict(events[..|events| - 1])
  }

  /** Each judged guess raises `attempts` by exactly one; nothing else does. */
  lemma {:induction false} AttemptsCountSubmissions(events: seq<Event>)
    ensures Run(events).attempts == Submissions(events)
  {
    if events != [] {
      AttemptsCountSubmissions(events[..|events| - 1]);
    }
  }

  /** `points` is what the last correct guess earned, or 0 if none was correct:
      a wrong guess never changes it, a correct one overwrites it. */
  lemma {:induction false} PointsTrackLastCorrectGuess(events: seq<Event>)
    ensures Run(events).points == match LastCorrect(events)
                                  case None => 0
                                  case Some(k) => PointsFor(k)
  {
    if events != [] {
      var prefix := events[..|events| - 1];
      PointsTrackLastCorrectGuess(prefix);
      AttemptsCountSubmissions(prefix);
    }
  }

  /** Starting from 0, `points` is always 0, 10, 20 or 30, and 0 exactly when
      no guess was correct. */
  lemma PointsStayInRange(events: seq<Event>)
    ensures 0 <= Run(events).points <= 30
    ensures Run(events).points % 10 == 0
    ensures Run(events).points == 0 <==> LastCorrect(events).None?
  {
    PointsTrackLastCorrectGuess(events);
  }

  /** `isComplete` is decided by the latest judged guess alone: it was
      correct, or it was the third or a later guess. */
  lemma {:induction false} CompletionRule(events: seq<Event>)
    ensures Run(events).isComplete <==>
      match LastVerdict(events)
      case None => false
      case Some(correct) => correct || Submissions(events) >= 3
  {
    if events != [] {
      var prefix := events[..|events| - 1];
      CompletionRule(prefix);
      AttemptsCountSubmissions(prefix);
      if !events[|events| - 1].Submitted? {
        assert Submissions(events) == Submissions(prefix);
      }
    }
  }

  /** From the third judged guess on, the game is complete, and stays so. */
  lemma CompleteAfterThree(events: seq<Event>)
    requires Submissions(events) >= 3
    ensures Run(events).isComplete
  {
    CompletionRule(events);
    LastVerdictExists(events);
  }

  lemma {:induction false} LastVerdictExists(events: seq<Event>)
    requires Submissions(events) > 0
    ensures LastVerdict(events).Some?
  {
    if !events[|events| - 1].Submitted? {
      LastVerdictExists(events[..|events| - 1]);
    }
  }

  /** Before the third guess completion is not monotone: a correct first
      guess completes the game, a wrong second guess undoes that. */
  lemma CompletionNotMonotone()
    ensures Run([Submitted("strike", true)]).isComplete
    ensures !Run([Submitted("strike", true), Submitted("strike", false)]).isComplete
  {
    var one := [Submitted("strike", true)];
    var two := one + [Submitted("strike", false)];
    assert two[..1] == one;
    assert one[..0] == [];
  }

  /** Nothing stops guessing after a correct guess; a second correct guess
      overwrites 30 points with 20. */
  lemma PointsCanDrop()
    ensures Run([Submitted("strike", true)]).points == 30
    ensures Run([Submitted("strike", true), Submitted("strike", true)]).points == 20
  {
    var one := [Submitted("strike", true)];
    var two := one + [Submitted("strike", true)];
    assert two[..1] == one;
    assert one[..0] == [];
  }

  /** The result display follows the latest event: after a judged guess it
      shows that guess, after "next attempt" it is cleared. */
  lemma DisplayFollowsLastEvent(events: seq<Event>)
    requires events != []
    ensures events[|events| - 1].Submitted? ==>
      Run(events).currentGuess == Some(events[|events| - 1].guess) && Run(events).showResult
    ensures events[|events| - 1].NextAttempt? ==>
      Run(events).currentGuess.None? && !Run(events).showResult
  {
  }

  /** Running one more event applies it to the state before it. */
  lemma RunAppend(events: seq<Event>, e: Event)
    ensures Run(events + [e]) == Apply(Run(events), e)
    ensures Submissions(events + [e]) == Submissions(events) + (if e.Submitted? then 1 else 0)
  {
    assert (events + [e])[..|events|] == events;
  }

  // ---------------------------------------------------------------------
  // The challenge record and the call to the verify endpoint
  // ---------------------------------------------------------------------

  /** The challenge record: today's response, plus what a wrong guess reveals. */
  datatype Challenge = Challenge(
    info: Server.TodayChallenge,
    standingPins: Option<seq<int>>,
    answer: Option<string>)

  /** The challenge updater run after a judged guess. */
  function Revealed(c: Challenge, v: Server.Verdict): (r: Challenge)
    ensures r.info == c.info
    ensures !v.correct && v.standingPins.Some? ==>
      r.standingPins == v.standingPins && r.answer == Some(v.answer)
    ensures v.correct || v.standingPins.None? ==> r == c
  {
    if !v.correct && v.standingPins.Some? then
      c.(standingPins := v.standingPins, answer := Some(v.answer))
    else c
  }

  const FetchChallengeFailed := "Failed to fetch challenge"
  const VerifyGuessFailed := "Failed to verify guess"

  /** The verify call as the hook sees it: the judged verdict, or the message
      of the error it catches. It is given the guess and the challenge date. */
  type Verifier = (string, string) -> Result<Server.Verdict, string>

  /** A reply that is not 2xx becomes the error "Failed to verify guess". */
  function ReadVerifyReply(reply: Server.VerifyReply): (r: Result<Server.Verdict, string>)
    ensures reply.VerifyOk? ==> r == Ok(reply.verdict)
    ensures reply.VerifyFailed? ==> r == Err(VerifyGuessFailed)
  {
    match reply
    case VerifyOk(v) => Ok(v)
    case VerifyFailed(_, _) => Err(VerifyGuessFailed)
  }

  /** The verifier when the backend answers every request (no network failure). */
  function ServerVerifier(db: Server.Database): Verifier
  {
    (guess: string, date: string) =>
      ReadVerifyReply(Server.Verify(db, Server.VerifyRequest(Some(guess), Some(date))))
  }

  /** Against the backend, a guess is judged exactly when it is not empty and
      the date has a row, and then it is judged against the stored answer,
      ignoring letter case. */
  lemma ServerVerifierJudgesStoredAnswer(db: Server.Database, guess: string, date: string)
    ensures guess == "" || date == "" || date !in db ==>
      ServerVerifier(db)(guess, date) == Err(VerifyGuessFailed)
    ensures guess != "" && date != "" && date in db ==>
      ServerVerifier(db)(guess, date) ==
        Ok(Server.Verdict(Server.LowerCase(guess) == Server.LowerCase(db[date].answer),
                          db[date].answer, db[date].standingPins))
  {
  }

  /** The date the today endpoint hands out is one the verify endpoint knows. */
  lemma TodayDateIsVerifiable(db: Server.Database, nowIso: string, guess: string)
    requires Server.Today(db, nowIso).TodayFound?
    requires Server.Today(db, nowIso).challenge.date != "" && guess != ""
    ensures ServerVerifier(db)(guess, Server.Today(db, nowIso).challenge.date).Ok?
  {
    ServerVerifierJudgesStoredAnswer(db, guess, Server.Today(db, nowIso).challenge.date);
  }

  /** What submitGuess returns: undefined with no challenge, null on failure,
      otherwise the verdict. */
  datatype SubmitOutcome = NoChallenge | Failed | Answered(verdict: Server.Verdict)

  // ---------------------------------------------------------------------
  // The hook's state
  // ---------------------------------------------------------------------

  class Hook {
    var challenge: Option<Challenge>
    var loading: bool
    var error: Option<string>
    var gameState: GameState
    /** The judged guesses and "next attempt" clicks so far. */
    ghost var history: seq<Event>

    /** The game state is the run of the events so far, so every lemma about
        `Run` holds of it. */
    ghost predicate Valid()
      reads this
    {
      gameState == Run(history)
    }

    constructor ()
      ensures Valid() && history == []
      ensures challenge.None? && loading && error.None? && gameState == InitialGameState
    {
      challenge := None;
      loading := true;
      error := None;
      gameState := InitialGameState;
      history := [];
    }

    /** The mount effect once the fetch of today's challenge settled: the
        reply, or the message of a network failure. */
    method LoadChallenge(fetched: Result<Server.TodayReply, string>)
      requires Valid()
      modifies this
      ensures Valid() && history == old(history)
      ensures !loading && gameState == old(gameState)
      ensures fetched.Ok? && fetched.value.TodayFound? ==>
        challenge == Some(Challenge(fetched.value.challenge, None, None)) && error == old(error)
      ensures fetched.Ok? && fetched.value.TodayNotFound? ==>
        challenge == old(challenge) && error == Some(FetchChallengeFailed)
      ensures fetched.Err? ==> challenge == old(challenge) && error == Some(fetched.error)
    {
      loading := true;
      match fetched {
        case Ok(reply) =>
          if reply.TodayFound? {
            challenge := Some(Challenge(reply.challenge, None, None));
          } else {
            error := Some(FetchChallengeFailed);
          }
        case Err(message) =>
          error := Some(message);
      }
      loading := false;
    }

    method SubmitGuess(guess: string, verify: Verifier) returns (outcome: SubmitOutcome)
      requires Valid()
      modifies this
      ensures Valid()
      ensures outcome.Answered? ==> history == old(history) + [Submitted(guess, outcome.verdict.correct)]
      ensures !outcome.Answered? ==> history == old(history)
      ensures loading == old(loading)
      ensures old(challenge).None? ==>
        outcome == NoChallenge && challenge == old(challenge) &&
        error == old(error) && gameState == old(gameState)
      ensures old(challenge).Some? && verify(guess, old(challenge).value.info.date).Err? ==>
        outcome == Failed && challenge == old(challenge) &&
        error == Some(verify(guess, old(challenge).value.info.date).error) &&
        gameState == old(gameState)
      ensures old(challenge).Some? && verify(guess, old(challenge).value.info.date).Ok? ==>
        var v := verify(guess, old(challenge).value.info.date).value;
        outcome == Answered(v) && error == old(error) &&
        gameState == Judged(old(gameState), guess, v.correct) &&
        challenge == Some(Revealed(old(challenge).value, v))
    {
      if challenge.None? {
        return NoChallenge;
      }
      var result := verify(guess, challenge.value.info.date);
      match result {
        case Err(message) =>
          error := Some(message);
          outcome := Failed;
        case Ok(v) =>
          RunAppend(history, Submitted(guess, v.correct));
          gameState := Judged(gameState, guess, v.correct);
          history := history + [Submitted(guess, v.correct)];
          challenge := Some(Revealed(challenge.value, v));
          outcome := Answered(v);
      }
    }

    method NextAttempt()
      requires Valid()
      modifies this
      ensures Valid() && history == old(history) + [Event.NextAttempt]
      ensures gameState == ResetDisplay(old(gameState))
      ensures challenge == old(challenge) && error == old(error) && loading == old(loading)
    {
      RunAppend(history, Event.NextAttempt);
      gameState := ResetDisplay(gameState);
      history := history + [Event.NextAttempt];
    }
  }

  /** What the lemmas over `Run` promise, for the hook's own state: `attempts`
      counts the judged guesses, `points` is 0, 10, 20 or 30 and is what the
      last correct guess earned, and from the third judged guess on the game
      is complete. */
  lemma HookKeepsGameRules(h: Hook)
    requires h.Valid()
    ensures h.gameState.attempts == Submissions(h.history)
    ensures 0 <= h.gameState.points <= 30 && h.gameState.points % 10 == 0
    ensures h.gameState.points == match LastCorrect(h.history)
                                  case None => 0
                                  case Some(k) => PointsFor(k)
    ensures h.gameState.attempts >= 3 ==> h.gameState.isComplete
  {
    AttemptsCountSubmissions(h.history);
    PointsTrackLastCorrectGuess(h.history);
    PointsStayInRange(h.history);
    if h.gameState.attempts >= 3 {
      CompleteAfterThree(h.history);
    }
  }
}
