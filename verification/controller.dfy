/**
 * The search controller: `fetchUserDetails` with its try/catch/finally, and
 * the click handler that runs it only for a valid username. The network is
 * a parameter, `respond`, giving the outcome of the POST for a username.
 */
module Controller {
  import opened Wrappers
  import opened Api
  import opened Validator
  import opened Presenter

  const IdleText := "Search"
  const BusyText := "Searching..."

  /** The button shows the idle state: "Search" and enabled. */
  predicate IsIdle(v: ViewState) {
    v.buttonText == IdleText && !v.buttonDisabled
  }

  /** The page while the request is outstanding: busy button, results reset. */
  function Searching(v: ViewState): ViewState {
    Reset(v.(buttonText := BusyText, buttonDisabled := true))
  }

  /** The rest of the `try` block after the `await fetch`, starting from `s`. */
  function Attempt(s: ViewState, result: FetchResult): Step {
    match result
    case NetworkError(m) => Step(s, Some(FetchRejected(m)))
    case NotOk => Step(s, Some(FetchFailed))
    case Ok(NotJson(e)) => Step(s, Some(BadJson(e)))
    case Ok(Json(data)) => Displayed(s, data)
  }

  /** The `catch`: the error's message becomes the stats area's text. */
  function Caught(step: Step): ViewState {
    match step.thrown
    case None => step.view
    case Some(f) => step.view.(statsMessage := Some(Message(f)))
  }

  /** The `finally`: the button goes back to "Search", enabled. */
  function Settled(v: ViewState): ViewState {
    v.(buttonText := IdleText, buttonDisabled := false)
  }

  /** `fetchUserDetails(username)`, start to end, as one step. */
  function AfterFetch(v: ViewState, username: string, respond: string -> FetchResult): ViewState {
    Settled(Caught(Attempt(Searching(v), respond(username))))
  }

  /** The click handler on the search button. */
  function AfterClick(v: ViewState, input: string, respond: string -> FetchResult): ViewState {
    match ValidateUsername(input)
    case Accepted => AfterFetch(v, input, respond)
    case Rejected(alert) => v.(alerts := v.alerts + [alert])
  }

  /** While the lookup is outstanding the button is busy and no old result is shown. */
  lemma SearchingState(v: ViewState)
    ensures var s := Searching(v);
      s.buttonText == "Searching..." && s.buttonDisabled &&
      s.easy == s.medium == s.hard == Circle("0/0", Zero) && s.cards == [] &&
      s.statsMessage == v.statsMessage && s.alerts == v.alerts
  {
  }

  /**
   * On every exit path (a rejected request, a non-success status, a body that
   * is not JSON, a null user, a short array, success) the button ends as
   * "Search" and enabled, and no alert is raised.
   */
  lemma CleanupOnEveryPath(v: ViewState, username: string, respond: string -> FetchResult)
    ensures IsIdle(AfterFetch(v, username, respond))
    ensures AfterFetch(v, username, respond).alerts == v.alerts
  {
  }

  /**
   * A non-success status shows exactly "Unable to fetch the user details",
   * with reset circles and no cards.
   */
  lemma NotOkShowsFixedMessage(v: ViewState, username: string, respond: string -> FetchResult)
    requires respond(username) == NotOk
    ensures var r := AfterFetch(v, username, respond);
      r.statsMessage == Some("Unable to fetch the user details") &&
      r.easy == r.medium == r.hard == Circle("0/0", Zero) && r.cards == []
  {
  }

  /**
   * A rejected request (network failure, refusal by the relay) shows the
   * rejection's own message, with reset circles and no cards.
   */
  lemma NetworkErrorShowsItsMessage(v: ViewState, username: string, respond: string -> FetchResult)
    requires respond(username).NetworkError?
    ensures var r := AfterFetch(v, username, respond);
      r.statsMessage == Some(respond(username).message) &&
      r.easy == r.medium == r.hard == Circle("0/0", Zero) && r.cards == [] && IsIdle(r)
  {
  }

  /** A body that is not JSON shows the parser's error text, with reset circles and no cards. */
  lemma NotJsonShowsParserText(v: ViewState, username: string, respond: string -> FetchResult)
    requires respond(username).Ok? && respond(username).body.NotJson?
    ensures var r := AfterFetch(v, username, respond);
      r.statsMessage == Some(respond(username).body.syntaxError) &&
      r.easy == r.medium == r.hard == Circle("0/0", Zero) && r.cards == [] && IsIdle(r)
  {
  }

  /**
   * Too few entries in `allQuestionsCount` or `acSubmissionNum` show the
   * undefined-read error for `count`, and nothing of the response is rendered.
   */
  lemma ShortCountsSurfaced(v: ViewState, username: string, respond: string -> FetchResult)
    requires respond(username).Ok? && respond(username).body.Json?
    requires var data := respond(username).body.data;
      |data.allQuestionsCount| < 4 ||
      (data.matchedUser.Some? && |data.matchedUser.value.submitStats.acSubmissionNum| < 4)
    ensures var r := AfterFetch(v, username, respond);
      r.statsMessage == Some("Cannot read properties of undefined (reading 'count')") &&
      r.easy == r.medium == r.hard == Circle("0/0", Zero) && r.cards == [] && IsIdle(r)
  {
    assert Message(UndefinedRead("count")) == "Cannot read properties of undefined (reading 'count')";
  }

  /**
   * Too few entries in `totalSubmissionNum` alone show the undefined-read
   * error for `submissions`, after the circles have taken the response's
   * counts; no cards are shown.
   */
  lemma ShortTotalsSurfaced(v: ViewState, username: string, respond: string -> FetchResult)
    requires respond(username).Ok? && respond(username).body.Json?
    requires var data := respond(username).body.data;
      |data.allQuestionsCount| >= 4 && data.matchedUser.Some? &&
      |data.matchedUser.value.submitStats.acSubmissionNum| >= 4 &&
      |data.matchedUser.value.submitStats.totalSubmissionNum| < 4
    ensures var data := respond(username).body.data;
      var all := data.allQuestionsCount;
      var solved := data.matchedUser.value.submitStats.acSubmissionNum;
      var r := AfterFetch(v, username, respond);
      r.statsMessage == Some("Cannot read properties of undefined (reading 'submissions')") &&
      r.easy == Circle(ProgressLabel(solved[1].count, all[1].count), Fraction(solved[1].count, all[1].count)) &&
      r.medium == Circle(ProgressLabel(solved[2].count, all[2].count), Fraction(solved[2].count, all[2].count)) &&
      r.hard == Circle(ProgressLabel(solved[3].count, all[3].count), Fraction(solved[3].count, all[3].count)) &&
      r.cards == [] && IsIdle(r)
  {
    assert Message(UndefinedRead("submissions")) == "Cannot read properties of undefined (reading 'submissions')";
  }

  /**
   * An unknown user (null `matchedUser`) surfaces the null-read error in the
   * stats area; nothing of the response is rendered and the button is idle.
   */
  lemma UnknownUserSurfaced(v: ViewState, username: string, respond: string -> FetchResult)
    requires respond(username).Ok? && respond(username).body.Json?
    requires var data := respond(username).body.data;
      |data.allQuestionsCount| >= 4 && data.matchedUser.None?
    ensures var r := AfterFetch(v, username, respond);
      r.statsMessage == Some("Cannot read properties of null (reading 'submitStats')") &&
      r.easy == r.medium == r.hard == Circle("0/0", Zero) && r.cards == [] && IsIdle(r)
  {
    assert Message(NullRead("submitStats")) == "Cannot read properties of null (reading 'submitStats')";
  }

  /**
   * The lookup throws exactly when the request is rejected, the status is not
   * a success, the body is not JSON or an entry it reads is missing; a failure
   * writes exactly the thrown error's message into the stats area, and a
   * success leaves an earlier text in place.
   */
  lemma MessageOnlyOnFailure(v: ViewState, username: string, respond: string -> FetchResult)
    ensures var result := respond(username);
      var succeeds := result.Ok? && result.body.Json? && Readable(result.body.data);
      var step := Attempt(Searching(v), result);
      var r := AfterFetch(v, username, respond);
      (succeeds <==> step.thrown.None?) &&
      (succeeds ==> r.statsMessage == v.statsMessage) &&
      (step.thrown.Some? ==> r.statsMessage == Some(Message(step.thrown.value)))
  {
  }

  /**
   * A successful lookup shows the response: the circles of entries 1 to 3
   * and the four submission cards.
   */
  lemma SuccessfulLookup(v: ViewState, username: string, respond: string -> FetchResult)
    requires respond(username).Ok? && respond(username).body.Json?
    requires Readable(respond(username).body.data)
    ensures var data := respond(username).body.data;
      var all := data.allQuestionsCount;
      var stats := data.matchedUser.value.submitStats;
      var solved := stats.acSubmissionNum;
      var r := AfterFetch(v, username, respond);
      r.easy.text == ProgressLabel(solved[1].count, all[1].count) &&
      r.medium.text == ProgressLabel(solved[2].count, all[2].count) &&
      r.hard.text == ProgressLabel(solved[3].count, all[3].count) &&
      r.cards == CardsOf(stats.totalSubmissionNum) && |r.cards| == 4 &&
      r.statsMessage == v.statsMessage && IsIdle(r)
  {
  }

  /** What a lookup shows does not depend on what an earlier lookup showed. */
  lemma NoStaleResults(v1: ViewState, v2: ViewState, username: string, respond: string -> FetchResult)
    ensures var r1, r2 := AfterFetch(v1, username, respond), AfterFetch(v2, username, respond);
      r1.easy == r2.easy && r1.medium == r2.medium && r1.hard == r2.hard && r1.cards == r2.cards
  {
  }

  /**
   * A rejected username only raises its alert: no search starts and nothing
   * else on the page changes.
   */
  lemma RejectedClickOnlyAlerts(v: ViewState, input: string, respond: string -> FetchResult)
    requires !IsUsername(input)
    ensures AfterClick(v, input, respond) ==
      v.(alerts := v.alerts + [if IsBlank(input) then "Username should not be empty" else "Invalid Username"])
  {
  }

  /** A valid username starts exactly one lookup, for that username, and raises no alert. */
  lemma AcceptedClickSearches(v: ViewState, input: string, respond: string -> FetchResult)
    requires IsUsername(input)
    ensures AfterClick(v, input, respond) == AfterFetch(v, input, respond)
    ensures AfterClick(v, input, respond).alerts == v.alerts
  {
  }

  /** From an idle page, a click of any kind leaves the button idle again. */
  lemma ClickKeepsIdle(v: ViewState, input: string, respond: string -> FetchResult)
    requires IsIdle(v)
    ensures IsIdle(AfterClick(v, input, respond))
  {
  }
}
