# Bowlingdle daily challenge, modelled in Dafny

Bowlingdle is a daily prediction game: the viewer watches a bowling delivery
that freezes just before impact, guesses whether it is a strike, and then
sees the rest of the video. This project models the logic of its client and
server:

- the game-state record of the daily-challenge hook and the updaters a
  judged guess and "next attempt" apply to it; the merge of a revealed answer
  into the challenge record; and the hook's state as a class (`daily_challenge.dfy`);
- the pin selector: the fixed ten-pin layout, toggling pins in the selection,
  and the four-way result classification (`pin_selector.dfy`);
- the MP4 player in use, whose completion signal is level-triggered
  (`mp4_player.dfy`), and the deprecated YouTube player, whose signal is
  edge-triggered by a shared flag and fires 0.15 s early (`youtube_player.dfy`);
- the server's two challenge endpoints over a database given as a map from
  date to row (`server.dfy`).

`basics.dfy` and `playback.dfy` hold shared value types: Option/Result, the
video phase, and a time value with the `Number(x) || 0` coercion.

Each component with state is a class whose fields are that state. Its methods
change the fields, and their `ensures` tie the new state to a pure step
function of the old state. The lemmas are about those step functions and
about sequences of steps.

The model follows the hook and the players as they are written, where the
app that uses them expects something else:

- The hook scores 30, 20 or 10 points for a correct guess, by attempt.
  App.jsx expects `submitStrikeGuess` and `submitPinsGuess`, a `phase` of
  `guess`, `pins` or `complete`, a `score` out of 100 and a `pinsScore`
  (App.jsx:15-16, 29, 112-183). The hook returns none of these.
- The MP4 player signals completion on every tick at or past the boundary,
  not once per phase.
- The app passes `gameState.videoPhase`, a field the game state does not have.
  This is the `Other` phase. In it the phase-sync effect neither seeks nor
  plays and the tick never signals; replay still seeks to the freeze time.

Three behaviours of the code as written are stated as lemmas:

- Nothing in the hook stops guessing after a correct guess. `points` is
  overwritten by every later correct guess (`PointsCanDrop`), and `isComplete`
  can go back to false before the third guess (`CompletionNotMonotone`).
- The JavaScript Set keeps insertion order. Toggling a selected pin twice
  restores the selection's members but moves the pin to the end
  (`ToggleTwiceCanReorder`).
- In the YouTube player, replay clears `isPlaying` but does not pause the
  player (`ReplayDoesNotPause`). The seek in the ready callback reads the
  readiness from before the ready event, so it never seeks
  (`ReadySeekHasNoEffect`).

## Model

| member | source | states |
|---|---|---|
| Playback.Seconds | bowlingdle/bowling-challenge/frontend/src/components/BowlingMP4Player.jsx:17 | a time that is missing or not a number reads as 0; a finite number reads as itself |
| Server.IsoDate | bowlingdle/bowling-challenge/backend/server.js:16 | the date key is a prefix of the timestamp with no 'T' in it, followed by a 'T' when it is shorter than the timestamp |
| Server.IsoDateBeforeFirstT | bowlingdle/bowling-challenge/backend/server.js:16 | the date key is exactly the part of the timestamp before its first 'T' |
| Server.TodayStatus | bowlingdle/bowling-challenge/backend/server.js:24-34 | a found challenge is sent with status 200, the not-found reply with status 404 |
| Server.Today | bowlingdle/bowling-challenge/backend/server.js:23-40 | status 404 with the error message and today's key exactly when no row has that key; otherwise the response carries that row's date, video id and three times |
| Server.TodayHidesAnswer | bowlingdle/bowling-challenge/backend/server.js:34-40 | two databases that differ only in answers and standing pins give the same today response, so that response does not reveal them |
| Server.LowerCase | bowlingdle/bowling-challenge/backend/server.js:66 | lower-cases each character and keeps the length |
| Server.Present | bowlingdle/bowling-challenge/backend/server.js:52 | a body field is truthy exactly when it is given and is not the empty string |
| Server.Verify | bowlingdle/bowling-challenge/backend/server.js:52-72 | 400 exactly when the guess or the date is missing or empty; 404 exactly when both are present and the date has no row; otherwise the stored answer and pins, with `correct` true exactly when the guess and the answer are equal after lower-casing |
| Server.VerifyIgnoresCase | bowlingdle/bowling-challenge/backend/server.js:66 | two guesses with the same lower-cased form get the same response |
| Server.UpperCasedAnswerIsCorrect | bowlingdle/bowling-challenge/backend/server.js:66 | the stored answer written in upper case is judged correct |
| DailyChallenge.Judged | bowlingdle/bowling-challenge/frontend/src/hooks/useDailyChallenge.js:60-67 | a judged guess adds one attempt, shows the guess and the result, completes the game exactly when it was correct or was the third or a later guess, and sets `points` to its attempt's score when correct and keeps them when wrong; the lemmas over `Run` below lift this to every sequence of events |
| DailyChallenge.PointsFor | bowlingdle/bowling-challenge/frontend/src/hooks/useDailyChallenge.js:66 | a correct guess earns 30 on the first attempt, 20 on the second and 10 from the third on; always between 10 and 30 |
| DailyChallenge.AttemptsCountSubmissions | bowlingdle/bowling-challenge/frontend/src/hooks/useDailyChallenge.js:62 | after any sequence of judged guesses and "next attempt" clicks, `attempts` is the number of judged guesses |
| DailyChallenge.PointsTrackLastCorrectGuess | bowlingdle/bowling-challenge/frontend/src/hooks/useDailyChallenge.js:66 | `points` is what the last correct guess earned for its attempt number, or 0 when no guess was correct, so wrong guesses never change it |
| DailyChallenge.PointsStayInRange | bowlingdle/bowling-challenge/frontend/src/hooks/useDailyChallenge.js:60-67 | from the initial record, `points` is always one of 0, 10, 20 and 30, and is 0 exactly when no guess was correct |
| DailyChallenge.CompletionRule | bowlingdle/bowling-challenge/frontend/src/hooks/useDailyChallenge.js:65 | `isComplete` holds exactly when the latest judged guess was correct or was the third or a later one |
| DailyChallenge.CompleteAfterThree | bowlingdle/bowling-challenge/frontend/src/hooks/useDailyChallenge.js:65 | once three guesses have been judged, `isComplete` holds, whatever follows |
| DailyChallenge.CompletionNotMonotone | bowlingdle/bowling-challenge/frontend/src/hooks/useDailyChallenge.js:65 | a correct first guess completes the game; a wrong second guess makes it incomplete again |
| DailyChallenge.PointsCanDrop | bowlingdle/bowling-challenge/frontend/src/hooks/useDailyChallenge.js:60-67 | two correct guesses in a row give 30 points and then 20, because nothing blocks the second guess |
| DailyChallenge.DisplayFollowsLastEvent | bowlingdle/bowling-challenge/frontend/src/hooks/useDailyChallenge.js:60-92 | after a judged guess the state shows that guess with the result visible; after "next attempt" no guess is shown and the result is hidden |
| DailyChallenge.ResetDisplay | bowlingdle/bowling-challenge/frontend/src/hooks/useDailyChallenge.js:86-92 | "next attempt" clears the current guess and hides the result, and changes no other field |
| DailyChallenge.Revealed | bowlingdle/bowling-challenge/frontend/src/hooks/useDailyChallenge.js:70-76 | the challenge gets the answer and the standing pins only after a wrong guess whose reply has pins; otherwise it is unchanged; today's fields are always kept |
| DailyChallenge.ReadVerifyReply | bowlingdle/bowling-challenge/frontend/src/hooks/useDailyChallenge.js:54-58 | a judged reply yields its verdict; any failed reply becomes the error "Failed to verify guess" |
| DailyChallenge.ServerVerifierJudgesStoredAnswer | bowlingdle/bowling-challenge/backend/server.js:52-72 | through the backend, a guess gets a verdict exactly when guess and date are non-empty and the date has a row; the verdict is the stored answer and pins, with a case-insensitive `correct`; otherwise the hook gets the error "Failed to verify guess" |
| DailyChallenge.TodayDateIsVerifiable | bowlingdle/bowling-challenge/backend/server.js:14-72 | a non-empty date handed out by the today endpoint is accepted by the verify endpoint for any non-empty guess |
| DailyChallenge.Hook.constructor | bowlingdle/bowling-challenge/frontend/src/hooks/useDailyChallenge.js:6-15 | no challenge and no error, loading, and the initial game state: 0 attempts, incomplete, no guess, result hidden, 0 points; the history of events is empty |
| DailyChallenge.Hook.LoadChallenge | bowlingdle/bowling-challenge/frontend/src/hooks/useDailyChallenge.js:18-36 | loading ends; a found challenge is stored with nothing revealed yet; a 404 sets the error "Failed to fetch challenge"; a network failure sets its own message; the game state is untouched and so is the history |
| DailyChallenge.Hook.SubmitGuess | bowlingdle/bowling-challenge/frontend/src/hooks/useDailyChallenge.js:39-83 | with no challenge, nothing changes and the result is undefined; when the verify call fails, only the error is set and the result is null; otherwise the game state takes the judged updater (attempts + 1, the guess shown, completion and points as above), the challenge takes the reveal merge, and the verdict is returned; the game state stays the run of the history, which gains the judged guess exactly when a verdict is returned |
| DailyChallenge.Hook.NextAttempt | bowlingdle/bowling-challenge/frontend/src/hooks/useDailyChallenge.js:86-92 | the game state takes the display-reset updater; the challenge, the error and the loading flag are unchanged; the history gains the click and the game state stays its run |
| DailyChallenge.HookKeepsGameRules | bowlingdle/bowling-challenge/frontend/src/hooks/useDailyChallenge.js:60-67 | for the hook's own state: `attempts` counts the judged guesses, `points` is 0, 10, 20 or 30 and is what the last correct guess earned, and the game is complete from the third judged guess on |
| PinSelector.LayoutHoldsEachPinOnce | bowlingdle/bowling-challenge/frontend/src/components/PinSelector.jsx:7-12 | four rows of 4, 3, 2 and 1 pins that together hold each of the pins 1 to 10 exactly once |
| PinSelector.Without | bowlingdle/bowling-challenge/frontend/src/components/PinSelector.jsx:19 | deleting a pin removes exactly that pin, keeps the selection free of duplicates, and leaves it as it was when the pin is absent |
| PinSelector.Toggled | bowlingdle/bowling-challenge/frontend/src/components/PinSelector.jsx:17-22 | toggling flips whether the pin is selected, leaves every other pin's membership as it was, and keeps the selection free of duplicates |
| PinSelector.ToggleTwiceRestoresMembers | bowlingdle/bowling-challenge/frontend/src/components/PinSelector.jsx:17-23 | toggling the same pin twice restores which pins are selected |
| PinSelector.ToggleTwiceRestoresNewPin | bowlingdle/bowling-challenge/frontend/src/components/PinSelector.jsx:17-23 | toggling an unselected pin twice restores the selection exactly, order included |
| PinSelector.ToggleTwiceCanReorder | bowlingdle/bowling-challenge/frontend/src/components/PinSelector.jsx:17-24 | toggling a selected pin twice can change the order of the reported array: [1, 2] becomes [2, 1] |
| PinSelector.Selector.constructor | bowlingdle/bowling-challenge/frontend/src/components/PinSelector.jsx:4 | the selection starts empty |
| PinSelector.Selector.TogglePin | bowlingdle/bowling-challenge/frontend/src/components/PinSelector.jsx:14-25 | when disabled or showing the answer, nothing changes and nothing is reported; otherwise the selection is toggled and the reported array is exactly the new selection |
| PinSelector.Selector.HandleSubmit | bowlingdle/bowling-challenge/frontend/src/components/PinSelector.jsx:27-29 | the submitted array holds exactly the selected pins, each once |
| PinSelector.StyleOf | bowlingdle/bowling-challenge/frontend/src/components/PinSelector.jsx:31-61 | with the answer and the guess shown, each pin is in exactly one of four classes, fixed by whether it stands and whether it was guessed; with the answer alone, a pin is "standing" exactly when it is in the answer; otherwise it is "selected" exactly when selected |
| PinSelector.Ring | bowlingdle/bowling-challenge/frontend/src/components/PinSelector.jsx:63-69 | getPinBorder: a pin is ringed only while answers are shown and a guess is given, and then exactly when it is one of the guessed pins |
| PinSelector.RingMarksGuesses | bowlingdle/bowling-challenge/frontend/src/components/PinSelector.jsx:63-69 | the ring appears only when answers are shown and a guess is given, exactly on the guessed pins; in results mode it marks exactly the two guessed classes |
| PinSelector.ResultClassesSeparate | bowlingdle/bowling-challenge/frontend/src/components/PinSelector.jsx:37-45 | in results mode two pins get the same class exactly when they agree on standing and on guessed |
| Mp4Player.Entered | bowlingdle/bowling-challenge/frontend/src/components/BowlingMP4Player.jsx:16-24 | entering `initial` seeks to the start time and pauses; entering `reveal` seeks to the freeze time and plays; any other phase changes nothing |
| Mp4Player.Ticked | bowlingdle/bowling-challenge/frontend/src/components/BowlingMP4Player.jsx:32-45 | the shown time follows the video; the tick signals exactly when the phase is `initial` or `reveal` and the position is at or past its boundary (freeze or end time); it signals that phase and pauses; otherwise the play state is kept |
| Mp4Player.Boundary | bowlingdle/bowling-challenge/frontend/src/components/BowlingMP4Player.jsx:36-40 | a tick stops at the coerced freeze time in `initial` and at the coerced end time in `reveal`; in any other phase it has no boundary; `Ticked` and `LevelTriggered` count signals against it |
| Mp4Player.PlayPaused | bowlingdle/bowling-challenge/frontend/src/components/BowlingMP4Player.jsx:50-59 | play/pause flips the play state and changes nothing else |
| Mp4Player.PhaseStart | bowlingdle/bowling-challenge/frontend/src/components/BowlingMP4Player.jsx:63 | replay's target: the coerced start time in `initial`, the coerced freeze time in every other phase, the undefined one included |
| Mp4Player.Replayed | bowlingdle/bowling-challenge/frontend/src/components/BowlingMP4Player.jsx:61-67 | replay moves to the phase's start boundary, shows that time and pauses |
| Mp4Player.ReplayRewindsPhase | bowlingdle/bowling-challenge/frontend/src/components/BowlingMP4Player.jsx:63 | replay goes back to the start time in `initial` and to the freeze time in `reveal`, paused |
| Mp4Player.MissingTimesReadAsZero | bowlingdle/bowling-challenge/frontend/src/components/BowlingMP4Player.jsx:16-40 | with missing start and freeze times, entering either phase seeks to 0, and every tick at a position of 0 or more in `initial` signals |
| Mp4Player.LevelTriggered | bowlingdle/bowling-challenge/frontend/src/components/BowlingMP4Player.jsx:32-45 | over any run of ticks, the number of signals is the number of samples at or past the phase boundary; it is 0 in any other phase, so there is no once-only guarantee |
| Mp4Player.RepeatsWhileAtBoundary | bowlingdle/bowling-challenge/frontend/src/components/BowlingMP4Player.jsx:36-39 | a video standing at or past the boundary signals on every tick |
| Mp4Player.InitialHoldsAtFreeze | bowlingdle/bowling-challenge/frontend/src/components/BowlingMP4Player.jsx:36-39 | after a tick in `initial`, a video at or past the freeze time is paused |
| Mp4Player.Player.constructor | bowlingdle/bowling-challenge/frontend/src/components/BowlingMP4Player.jsx:7-25 | the shown time starts at the start time, paused; with a video element, the phase-sync effect then runs once |
| Mp4Player.Player.SyncPhase | bowlingdle/bowling-challenge/frontend/src/components/BowlingMP4Player.jsx:11-25 | runs the phase-sync effect on the current props |
| Mp4Player.Player.Rerender | bowlingdle/bowling-challenge/frontend/src/components/BowlingMP4Player.jsx:25 | new props are stored; the phase-sync effect reruns only when the phase, the start time or the freeze time changed and the element exists |
| Mp4Player.Player.Tick | bowlingdle/bowling-challenge/frontend/src/components/BowlingMP4Player.jsx:28-48 | with a video element, one tick as above, returning the signalled phase; without one, nothing happens |
| Mp4Player.Player.HandlePlayPause | bowlingdle/bowling-challenge/frontend/src/components/BowlingMP4Player.jsx:50-59 | flips the play state; does nothing without a video element |
| Mp4Player.Player.HandleReplay | bowlingdle/bowling-challenge/frontend/src/components/BowlingMP4Player.jsx:61-67 | replays as above; does nothing without a video element |
| YouTubePlayer.Seeked | bowlingdle/bowling-challenge/frontend/src/components/BowlingVideoPlayer.jsx:93-97 | a seek moves the position and the shown time only when the player exists and is ready |
| YouTubePlayer.Readied | bowlingdle/bowling-challenge/frontend/src/components/BowlingVideoPlayer.jsx:63-68 | the ready event sets readiness and starts polling and changes nothing else, so the initial seek has no effect |
| YouTubePlayer.Ticked | bowlingdle/bowling-challenge/frontend/src/components/BowlingVideoPlayer.jsx:68-85 | a tick does nothing unless polling; it never signals before the boundary less 0.15 s (freeze in `initial`, end in `reveal`) or while the flag is set; once polling with the flag clear, it signals exactly at or past that point; a signal sets the flag and pauses; no signal leaves the flag and the play state as they were; while polling with a player, the position and the shown time follow the player; readiness, polling, the player's existence and `isPlaying` are kept |
| YouTubePlayer.Paused | bowlingdle/bowling-challenge/frontend/src/components/BowlingVideoPlayer.jsx:112 | pausing stops the player when it exists |
| YouTubePlayer.PhaseStart | bowlingdle/bowling-challenge/frontend/src/components/BowlingVideoPlayer.jsx:102 | play's rewind target and replay's seek target: the start time in `initial`, otherwise the freeze time, which is where `initial` ends |
| YouTubePlayer.PhaseEnd | bowlingdle/bowling-challenge/frontend/src/components/BowlingVideoPlayer.jsx:103 | the position from which play rewinds: the freeze time in `initial`, otherwise the end time |
| YouTubePlayer.Played | bowlingdle/bowling-challenge/frontend/src/components/BowlingVideoPlayer.jsx:99-110 | play does nothing unless the player is ready; otherwise it rewinds to the phase start when at or past the phase end, clears the flag and plays; a rewind also sets the shown time to the phase start, otherwise the shown time is kept; readiness, polling, the player's existence and `isPlaying` are kept |
| YouTubePlayer.Replayed | bowlingdle/bowling-challenge/frontend/src/components/BowlingVideoPlayer.jsx:114-119 | replay seeks to the phase start if the player is ready; it always clears `isPlaying` and the flag; it leaves the player's play state as it was; a ready seek sets the shown time to the phase start, otherwise it is kept; readiness, polling and the player's existence are kept |
| YouTubePlayer.ReadySeekHasNoEffect | bowlingdle/bowling-challenge/frontend/src/components/BowlingVideoPlayer.jsx:63-68 | the ready step is the seek to the start time, ignored because the readiness it reads is still false, followed by setting readiness and polling; the position and the shown time stay as they were |
| YouTubePlayer.ReplayDoesNotPause | bowlingdle/bowling-challenge/frontend/src/components/BowlingVideoPlayer.jsx:114-119 | after replay a playing player goes on playing while `isPlaying` is false |
| YouTubePlayer.AtMostOncePerArming | bowlingdle/bowling-challenge/frontend/src/components/BowlingVideoPlayer.jsx:75-83 | with no play or replay in between, any run of ticks in any phases signals at most once; with the flag already set it never signals; after a signal the flag stays set |
| YouTubePlayer.InitialSignalsExactlyOnce | bowlingdle/bowling-challenge/frontend/src/components/BowlingVideoPlayer.jsx:73-78 | polling with the flag clear, ticks in `initial` signal exactly once when some sample reaches the freeze time less 0.15 s, and never otherwise |
| YouTubePlayer.TriggersWithinBuffer | bowlingdle/bowling-challenge/frontend/src/components/BowlingVideoPlayer.jsx:73-75 | a tick 0.1 s before the freeze time signals; a tick 0.2 s before it does not |
| YouTubePlayer.PlayRearms | bowlingdle/bowling-challenge/frontend/src/components/BowlingVideoPlayer.jsx:108 | after play, a tick in `initial` at or past the freeze time less 0.15 s signals again |
| YouTubePlayer.RevealSilencedByInitialFlag | bowlingdle/bowling-challenge/frontend/src/components/BowlingVideoPlayer.jsx:75-82 | the flag is shared: once `initial` has signalled, a tick in `reveal` past the end time does not signal |
| YouTubePlayer.VideoPlayer.constructor | bowlingdle/bowling-challenge/frontend/src/components/BowlingVideoPlayer.jsx:5-12 | no player, not ready, not polling, flag clear, shown time at the start time |
| YouTubePlayer.VideoPlayer.PlayerCreated | bowlingdle/bowling-challenge/frontend/src/components/BowlingVideoPlayer.jsx:38-39 | the player object now exists; nothing else changes |
| YouTubePlayer.VideoPlayer.OnPlayerReady | bowlingdle/bowling-challenge/frontend/src/components/BowlingVideoPlayer.jsx:63-68 | the state takes the ready step |
| YouTubePlayer.VideoPlayer.OnPlayerStateChange | bowlingdle/bowling-challenge/frontend/src/components/BowlingVideoPlayer.jsx:88-90 | `isPlaying` follows the player's reported state; nothing else changes |
| YouTubePlayer.VideoPlayer.Tick | bowlingdle/bowling-challenge/frontend/src/components/BowlingVideoPlayer.jsx:68-85 | one tick as above, returning the signalled phase |
| YouTubePlayer.VideoPlayer.HandlePause | bowlingdle/bowling-challenge/frontend/src/components/BowlingVideoPlayer.jsx:112 | the state takes the pause step |
| YouTubePlayer.VideoPlayer.SeekTo | bowlingdle/bowling-challenge/frontend/src/components/BowlingVideoPlayer.jsx:93-97 | the state takes the guarded seek |
| YouTubePlayer.VideoPlayer.HandlePlay | bowlingdle/bowling-challenge/frontend/src/components/BowlingVideoPlayer.jsx:99-110 | the state takes the play step |
| YouTubePlayer.VideoPlayer.HandleReplay | bowlingdle/bowling-challenge/frontend/src/components/BowlingVideoPlayer.jsx:114-119 | the state takes the replay step |

## Left out

- Network and JSON: each fetch is a parameter. The today fetch is the reply or
  a failure message. The verify call is a function from guess and date to a
  verdict or an error message. `ServerVerifier` builds that function from the
  server model, for a backend that always answers.
- The database: a map from date key to row. Query failures, and the 500
  response they cause, are not modelled. The date column is taken to come
  back as the same key string. The conversion of SQL dates and numerics into
  JavaScript values is omitted.
- Express routing, CORS, `listen`, logging and the health endpoint: plumbing.
- Server.LowerCase: maps only A-Z. JavaScript's `toLowerCase` also maps
  non-ASCII letters. Non-string guesses, which make `toLowerCase` throw, are
  not modelled either.
- Playback.Seconds: takes a time either as a finite number or as a value that
  `Number` cannot read. The parsing of numeric strings and infinite values is
  not modelled.
- The clock: the today handler takes the current ISO timestamp as an argument.
- Timers and React scheduling: each polling tick is a discrete step given the
  media position it reads. Also left out: how often ticks happen, interval
  set-up and tear-down, and effect ordering. The YouTube player's interval
  keeps the phase and times of the render that created it. The model passes
  the phase to each tick explicitly.
- Media: positions are given, not simulated. The MP4 model folds the video
  element's play state and `isPlaying` into one flag, since the component
  always changes them together. A video that ends by itself, and a `play()`
  that is refused, are not modelled.
- Uncoerced YouTube time props: the YouTube player does not coerce them, and
  the model takes them as numbers. With a missing freeze or end time the
  comparisons against NaN are always false, so that player never signals and
  play never rewinds; the model does not capture that case.
- YouTube script loading and player construction: a single "player created"
  step. The `start` player parameter (a whole-second cue point) is not modelled.
- The optional `onPinsSelected` callback: TogglePin returns the array it would
  receive, whether or not the callback is set.
- Rendering: CSS class strings beyond the classification, labels and
  `toFixed` formatting. Also the submit button's visibility, which depends
  on `isComplete`. App.jsx, ScoreBoard.jsx, GuessPanel.jsx and VideoPlayer.jsx
  are presentation only and are not part of this model.
- The 50 + 50 strike-and-pins scoring, its rounding, and the `guess → pins →
  complete` phases: no code implements them.
