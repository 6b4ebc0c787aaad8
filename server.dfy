/** The two challenge endpoints of the backend, as functions from the
    database (a map from a date key to its row) and the request to the
    response object the handler sends. */
module Server {
  import opened Basics
  import opened Playback

  /** One row of daily_challenges; its date column is the key it is stored under. */
  datatype Row = Row(
    videoId: string,
    startTime: TimeValue,
    freezeTime: TimeValue,
    endTime: TimeValue,
    answer: string,
    standingPins: Option<seq<int>>)

  type Database = map<string, Row>

  // ---------------------------------------------------------------------
  // GET /api/challenge/today
  // ---------------------------------------------------------------------

  /** `iso.split('T')[0]`: everything before the first 'T', or the whole
      string when it has none. */
  function IsoDate(iso: string): (d: string)
    ensures d <= iso
    ensures 'T' !in d
    ensures |d| < |iso| ==> iso[|d|] == 'T'
  {
    if iso == [] || iso[0] == 'T' then [] else [iso[0]] + IsoDate(iso[1..])
  }

  /** The date key is exactly the prefix up to the first 'T'. */
  lemma IsoDateBeforeFirstT(iso: string, k: nat)
    requires k < |iso| && iso[k] == 'T' && 'T' !in iso[..k]
    ensures IsoDate(iso) == iso[..k]
  {
    var d := IsoDate(iso);
    assert |d| == k;
    assert d == iso[..|d|];
  }

  /** The part of GET today's response the client sees: no answer, no pins. */
  datatype TodayChallenge = TodayChallenge(
    date: string,
    videoId: string,
    startTime: TimeValue,
    freezeTime: TimeValue,
    endTime: TimeValue)

  datatype TodayReply =
    | TodayFound(challenge: TodayChallenge)
    | TodayNotFound(error: string, date: string)

  const NoChallengeToday := "No challenge found for today"

  function TodayStatus(r: TodayReply): (status: nat)
    ensures r.TodayFound? ==> status == 200
    ensures r.TodayNotFound? ==> status == 404
  {
    if r.TodayFound? then 200 else 404
  }

  /** The today handler, given the current time as an ISO timestamp. */
  function Today(db: Database, nowIso: string): (r: TodayReply)
    ensures r.TodayNotFound? <==> IsoDate(nowIso) !in db
    ensures TodayStatus(r) == 404 <==> IsoDate(nowIso) !in db
    ensures r.TodayNotFound? ==> r == TodayNotFound(NoChallengeToday, IsoDate(nowIso))
    ensures r.TodayFound? ==>
      var row := db[IsoDate(nowIso)];
      && r.challenge.date == IsoDate(nowIso)
      && r.challenge.videoId == row.videoId
      && r.challenge.startTime == row.startTime
      && r.challenge.freezeTime == row.freezeTime
      && r.challenge.endTime == row.endTime
  {
    var today := IsoDate(nowIso);
    if today !in db then
      TodayNotFound(NoChallengeToday, today)
    else
      var row := db[today];
      TodayFound(TodayChallenge(today, row.videoId, row.startTime, row.freezeTime, row.endTime))
  }

  /** Two databases that agree on everything except answers and standing pins. */
  ghost predicate SameExceptSecrets(db1: Database, db2: Database)
  {
    && db1.Keys == db2.Keys
    && forall d :: d in db1 ==>
         db1[d].(answer := "", standingPins := None) == db2[d].(answer := "", standingPins := None)
  }

  /** The today response cannot depend on the answer or the standing pins. */
  lemma TodayHidesAnswer(db1: Database, db2: Database, nowIso: string)
    requires SameExceptSecrets(db1, db2)
    ensures Today(db1, nowIso) == Today(db2, nowIso)
  {
  }

  // ---------------------------------------------------------------------
  // POST /api/challenge/verify
  // ---------------------------------------------------------------------

  /** A request body; a field the client left out is None. */
  datatype VerifyRequest = VerifyRequest(guess: Option<string>, date: Option<string>)

  datatype Verdict = Verdict(correct: bool, answer: string, standingPins: Option<seq<int>>)

  datatype VerifyReply =
    | VerifyOk(verdict: Verdict)
    | VerifyFailed(status: nat, error: string)

  const GuessAndDateRequired := "Guess and date are required"
  const ChallengeNotFound := "Challenge not found"

  /** JavaScript truthiness of a string field: present and not empty. */
  predicate Present(v: Option<string>)
    ensures Present(v) <==> v.Some? && |v.value| > 0
  {
    v.Some? && v.value != ""
  }

  /** `toLowerCase` on one character; only A-Z is mapped. */
  function LowerChar(c: char): char
  {
    if 'A' <= c <= 'Z' then (c as int + 32) as char else c
  }

  function UpperChar(c: char): char
  {
    if 'a' <= c <= 'z' then (c as int - 32) as char else c
  }

  function LowerCase(s: string): (l: string)
    ensures |l| == |s|
    ensures forall i :: 0 <= i < |s| ==> l[i] == LowerChar(s[i])
  {
    if s == [] then [] else [LowerChar(s[0])] + LowerCase(s[1..])
  }

  function UpperCase(s: string): (u: string)
    ensures |u| == |s|
    ensures forall i :: 0 <= i < |s| ==> u[i] == UpperChar(s[i])
  {
    if s == [] then [] else [UpperChar(s[0])] + UpperCase(s[1..])
  }

  /** The verify handler. */
  function Verify(db: Database, req: VerifyRequest): (r: VerifyReply)
    ensures r == VerifyFailed(400, GuessAndDateRequired) <==> !Present(req.guess) || !Present(req.date)
    ensures r == VerifyFailed(404, ChallengeNotFound) <==>
      Present(req.guess) && Present(req.date) && req.date.value !in db
    ensures r.VerifyOk? <==> Present(req.guess) && Present(req.date) && req.date.value in db
    ensures r.VerifyOk? ==>
      var row := db[req.date.value];
      && r.verdict.answer == row.answer
      && r.verdict.standingPins == row.standingPins
      && (r.verdict.correct <==> LowerCase(req.guess.value) == LowerCase(row.answer))
  {
    if !Present(req.guess) || !Present(req.date) then
      VerifyFailed(400, GuessAndDateRequired)
    else if req.date.value !in db then
      VerifyFailed(404, ChallengeNotFound)
    else
      var row := db[req.date.value];
      VerifyOk(Verdict(LowerCase(req.guess.value) == LowerCase(row.answer), row.answer, row.standingPins))
  }

  /** Two guesses that differ only in letter case get the same response. */
  lemma VerifyIgnoresCase(db: Database, g1: string, g2: string, date: string)
    requires LowerCase(g1) == LowerCase(g2)
    ensures Verify(db, VerifyRequest(Some(g1), Some(date))) == Verify(db, VerifyRequest(Some(g2), Some(date)))
  {
  }

  lemma {:induction false} LowerOfUpper(s: string)
    ensures LowerCase(UpperCase(s)) == LowerCase(s)
  {
    forall i | 0 <= i < |s|
      ensures LowerCase(UpperCase(s))[i] == LowerCase(s)[i]
    {
      var c := s[i];
      if 'a' <= c <= 'z' {
        assert UpperChar(c) as int == c as int - 32;
      }
    }
  }

  /** The stored answer, typed in any letter case, is judged correct. */
  lemma UpperCasedAnswerIsCorrect(db: Database, date: string)
    requires date in db && date != "" && db[date].answer != ""
    ensures var r := Verify(db, VerifyRequest(Some(UpperCase(db[date].answer)), Some(date)));
            r.VerifyOk? && r.verdict.correct
  {
    LowerOfUpper(db[date].answer);
  }
}
