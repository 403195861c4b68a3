/**
 * The page's elements as the fields of one object, and the script's
 * functions as the methods that assign them step by step. Each method is
 * proved to leave the object in the state the Presenter and Controller
 * functions describe.
 */
module Page {
  import opened Wrappers
  import opened Api
  import opened Validator
  import opened Presenter
  import opened Controller

  class View {
    var buttonText: string
    var buttonDisabled: bool
    var easyLabel: string
    var mediumLabel: string
    var hardLabel: string
    var easyFill: Fill
    var mediumFill: Fill
    var hardFill: Fill
    var cards: seq<Card>
    var statsMessage: Option<string>
    var alerts: seq<string>

    /** The fields as one value. */
    function State(): ViewState
      reads this
    {
      ViewState(buttonText, buttonDisabled,
                Circle(easyLabel, easyFill), Circle(mediumLabel, mediumFill), Circle(hardLabel, hardFill),
                cards, statsMessage, alerts)
    }

    /** The page as its markup first shows it. */
    constructor (initial: ViewState)
      ensures State() == initial
    {
      buttonText, buttonDisabled := initial.buttonText, initial.buttonDisabled;
      easyLabel, easyFill := initial.easy.text, initial.easy.fill;
      mediumLabel, mediumFill := initial.medium.text, initial.medium.fill;
      hardLabel, hardFill := initial.hard.text, initial.hard.fill;
      cards, statsMessage, alerts := initial.cards, initial.statsMessage, initial.alerts;
    }

    /** `resetUI`. */
    method ResetUI()
      modifies this
      ensures State() == Reset(old(State()))
    {
      easyFill := Zero;
      mediumFill := Zero;
      hardFill := Zero;
      easyLabel := "0/0";
      mediumLabel := "0/0";
      hardLabel := "0/0";
      cards := [];
    }

    /** `updateProgress(solved, total, label, circle)` on the circle of `which`. */
    method UpdateProgress(solved: int, total: int, which: Difficulty)
      modifies this
      ensures State() == WithProgress(old(State()), which, solved, total)
    {
      match which
      case Easy =>
        easyFill := Fraction(solved, total);
        easyLabel := ProgressLabel(solved, total);
      case Medium =>
        mediumFill := Fraction(solved, total);
        mediumLabel := ProgressLabel(solved, total);
      case Hard =>
        hardFill := Fraction(solved, total);
        hardLabel := ProgressLabel(solved, total);
    }

    /** `displayUserData(parsedData)`; `thrown` is the error it throws, if any. */
    method DisplayUserData(data: ResponseData) returns (thrown: Option<Failure>)
      modifies this
      ensures Step(State(), thrown) == Displayed(old(State()), data)
    {
      var all := data.allQuestionsCount;
      if |all| < 4 {
        return Some(UndefinedRead("count"));
      }
      var totalEasy, totalMedium, totalHard := all[1].count, all[2].count, all[3].count;
      if data.matchedUser.None? {
        return Some(NullRead("submitStats"));
      }
      var stats := data.matchedUser.value.submitStats;
      if |stats.acSubmissionNum| < 4 {
        return Some(UndefinedRead("count"));
      }
      var solvedEasy := stats.acSubmissionNum[1].count;
      var solvedMedium := stats.acSubmissionNum[2].count;
      var solvedHard := stats.acSubmissionNum[3].count;
      UpdateProgress(solvedEasy, totalEasy, Easy);
      UpdateProgress(solvedMedium, totalMedium, Medium);
      UpdateProgress(solvedHard, totalHard, Hard);
      if |stats.totalSubmissionNum| < 4 {
        return Some(UndefinedRead("submissions"));
      }
      cards := CardsOf(stats.totalSubmissionNum);
      thrown := None;
    }

    /** `fetchUserDetails(username)`, with the request's outcome given by `respond`. */
    method FetchUserDetails(username: string, respond: string -> FetchResult)
      modifies this
      ensures State() == AfterFetch(old(State()), username, respond)
    {
      // try
      buttonText := BusyText;
      buttonDisabled := true;
      ResetUI();
      var thrown: Option<Failure>;
      match respond(username) {
        case NetworkError(m) =>
          thrown := Some(FetchRejected(m));
        case NotOk =>
          thrown := Some(FetchFailed);
        case Ok(NotJson(e)) =>
          thrown := Some(BadJson(e));
        case Ok(Json(data)) =>
          thrown := DisplayUserData(data);
      }
      // catch
      if thrown.Some? {
        statsMessage := Some(Message(thrown.value));
      }
      // finally
      buttonText := IdleText;
      buttonDisabled := false;
    }

    /** The search button's click handler, reading `input` from the text field. */
    method OnSearchClick(input: string, respond: string -> FetchResult)
      modifies this
      ensures State() == AfterClick(old(State()), input, respond)
    {
      match ValidateUsername(input)
      case Accepted =>
        FetchUserDetails(input, respond);
      case Rejected(alert) =>
        alerts := alerts + [alert];
    }
  }
}
