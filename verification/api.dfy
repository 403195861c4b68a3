/**
 * The GraphQL response the page reads, the outcome of its one POST request,
 * and the errors the lookup can end in, with the text each one shows.
 */
module Api {
  import opened Wrappers

  /** One entry of `allQuestionsCount`. */
  datatype QuestionCount = QuestionCount(difficulty: string, count: int)

  /** One entry of `acSubmissionNum` or `totalSubmissionNum`. */
  datatype SubmissionCount = SubmissionCount(difficulty: string, count: int, submissions: int)

  datatype SubmitStats = SubmitStats(acSubmissionNum: seq<SubmissionCount>, totalSubmissionNum: seq<SubmissionCount>)

  datatype MatchedUser = MatchedUser(submitStats: SubmitStats)

  /** `parsedData.data`; `matchedUser` is null when no user has the name. */
  datatype ResponseData = ResponseData(allQuestionsCount: seq<QuestionCount>, matchedUser: Option<MatchedUser>)

  /** What `response.json()` yields: the data, or the parser's error text. */
  datatype Body = Json(data: ResponseData) | NotJson(syntaxError: string)

  /**
   * The result of the POST: `fetch` itself rejected (a network failure or a
   * refusal by the relay, with the error's message), a non-success status,
   * or a success with its body.
   */
  datatype FetchResult = NetworkError(message: string) | NotOk | Ok(body: Body)

  /** The errors the lookup's `try` block can throw. */
  datatype Failure =
    | FetchRejected(message: string)     // the rejection of `await fetch(...)`
    | FetchFailed                        // thrown on a non-success status
    | BadJson(syntaxError: string)       // `response.json()` rejected the body
    | NullRead(property: string)         // a property read on null
    | UndefinedRead(property: string)    // a property read on a missing array entry

  const FetchFailedMessage := "Unable to fetch the user details"

  /** `error.message` of each failure. */
  function Message(f: Failure): string {
    match f
    case FetchRejected(m) => m
    case FetchFailed => FetchFailedMessage
    case BadJson(e) => e
    case NullRead(p) => "Cannot read properties of null (reading '" + p + "')"
    case UndefinedRead(p) => "Cannot read properties of undefined (reading '" + p + "')"
  }
}
