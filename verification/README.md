# Leet-Metrics search widget, modelled in Dafny

Leet-Metrics is a browser script. A user types a LeetCode username and presses
Search. The script checks the name, disables the button while it POSTs a GraphQL
query, and fills in three progress circles (Easy, Medium, Hard, each with a
`solved/total` label) and four summary cards from the response. On any failure it
shows the error text in the stats area. In every case it puts the button back to
"Search", enabled.

The model has these modules:

- `Validator` (validator.dfy): `validateUsername`. This covers JavaScript's `trim`
  with ECMAScript's white-space set, an anchored matcher for `^[a-zA-Z0-9_-]{1,15}$`,
  and the two alert texts.
- `Decimal` (decimal.dfy): the decimal text that `${n}` produces for a whole
  number, and the reading of it back.
- `Api` (api.dfy): the response shape (`allQuestionsCount`, a nullable `matchedUser`
  with `acSubmissionNum` and `totalSubmissionNum`). It also holds the outcome of the
  request (`NetworkError` when `fetch` itself rejects, `NotOk`, or `Ok` with a JSON
  body or a body JSON parsing rejects) and the
  errors the `try` block can throw, each with its message.
- `Presenter` (presenter.dfy): the page as a value (`ViewState`). It gives `resetUI`,
  `updateProgress` and `displayUserData` as functions on that value. `displayUserData`
  keeps the script's order of reads and writes, so a read of a missing entry throws
  at the same point.
- `Controller` (controller.dfy): `fetchUserDetails` as try / catch / finally, and
  the click handler. The network is a parameter `respond: string -> FetchResult`,
  which is the outcome of the POST for a given username.
- `Page` (page.dfy): class `View`. Its fields are the page's elements: button text
  and disabled flag, three labels, three fills, cards, the stats-area error text,
  and the alerts raised. Its methods assign those fields step by step, as the script
  does. Each method is proved to reach the state that the matching `Presenter` or
  `Controller` function describes.

Two behaviours of the script a reader might not expect; the model follows the code
in both:

- `displayUserData` updates the three circles before it reads `totalSubmissionNum`
  (script.js:98-107). So a response whose `totalSubmissionNum` is short leaves new
  labels next to an error (`Presenter.DisplayPartial`).
- The stats area's error text is never cleared. A successful lookup after a failed
  one leaves the old error text in place (`Controller.MessageOnlyOnFailure`,
  `Controller.SuccessfulLookup`).

## Model

| member | source | states |
|---|---|---|
| `Validator.LeadingBlanks` | script.js:14 | the count is the length of the white-space prefix that `trim` removes: all of it white space, and the next character is not |
| `Validator.TrailingBlanks` | script.js:14 | the count is the length of the white-space suffix that `trim` removes: all of it white space, and the character before it is not |
| `Validator.Trim` | script.js:14 | `trim` yields the piece that follows the leading white space, with no white space at either end and only white space after it; it is empty exactly when the input is blank |
| `Validator.MatchRunIff` | script.js:19-20 | the anchored matcher for `[a-zA-Z0-9_-]{min,max}` accepts exactly the strings whose length is within the bounds and whose every character is in the class |
| `Validator.RegexTestIff` | script.js:19-20 | `regex.test` with `^[a-zA-Z0-9_-]{1,15}$` holds exactly for 1 to 15 characters from the class |
| `Validator.ValidateUsername` | script.js:13-25 | accepts exactly the 1-15 character names over `[A-Za-z0-9_-]`; alerts "Username should not be empty" exactly for blank input (whitespace-only included), and "Invalid Username" for every other rejection (16 or more characters, any other character) |
| `Validator.PaddedNameRejected` | script.js:19-24 | the pattern is tested on the untrimmed input, so a name with one white-space character before or after it is rejected, as invalid unless the name is blank |
| `Decimal.NatTextRoundTrip` | script.js:83 | the decimal text of a natural number is a non-empty run of digits with no leading zero (it is the shortest text) and reads back as the number |
| `Decimal.IntTextRoundTrip` | script.js:83 | the text `${n}` of an integer count (taken as exact and below 1e21 in magnitude, where JavaScript writes plain digits) has a minus sign exactly when `n` is negative, then the shortest run of digits, and reads back as `n` |
| `Presenter.LabelRoundTrip` | script.js:83 | a `solved/total` label splits at its first `/` back into exactly the two numbers it was written from |
| `Presenter.PercentWithinBounds` | script.js:81 | when 0 <= solved <= total and total > 0, `(solved/total)*100` is defined and lies between 0 and 100 |
| `Presenter.ExampleCircle` | script.js:81-83 | worked example: 100 solved of 800 gives the label "100/800" and 12.5% |
| `Presenter.ResetClears` | script.js:122-133 | after `resetUI` every label is "0/0", every circle is at 0%, the card list is empty, and the button, error text and alerts are unchanged |
| `Presenter.ResetLabelIsZeroOfZero` | script.js:127-129 | worked example: the reset label "0/0" is the label of 0 solved out of 0 and reads back as that pair |
| `Presenter.ResetIdempotent` | script.js:122-133 | resetting twice gives the same page as resetting once |
| `Presenter.CardsInOrder` | script.js:103-108 | exactly four cards: "Overall Submissions", "Overall Easy Submissions", "Overall Medium Submissions", "Overall Hard Submissions", with the `submissions` of `totalSubmissionNum` entries 0, 1, 2, 3 in that order |
| `Presenter.DisplayThrowsIff` | script.js:87-107 | `displayUserData` throws exactly when `allQuestionsCount`, `acSubmissionNum` or `totalSubmissionNum` has fewer than four entries or `matchedUser` is null; the null-read error comes exactly from a null `matchedUser` |
| `Presenter.DisplaySuccess` | script.js:87-119 | on a readable response the Easy, Medium and Hard circles show solved/total from entries 1, 2, 3 of `acSubmissionNum` and `allQuestionsCount`, the cards are the four submission cards, and nothing outside the results area changes |
| `Presenter.DisplayIgnoresAllBucket` | script.js:88-100 | entry 0 of `allQuestionsCount` and `acSubmissionNum` never affects the page: two responses that differ only there display identically |
| `Presenter.DisplayPartial` | script.js:98-107 | with a short `totalSubmissionNum`, all three circles (label and fill) already show entries 1 to 3 of the solved and total counts when the missing read throws, and the old cards remain |
| `Controller.SearchingState` | script.js:34-38 | while the lookup is in progress the button reads "Searching..." and is disabled, the circles are at "0/0" and 0%, and there are no cards |
| `Controller.CleanupOnEveryPath` | script.js:74-77 | on every exit path (rejected request, success, non-OK status, unparsable body, null user, short arrays) the button ends as "Search" and enabled, and no alert is raised |
| `Controller.NetworkErrorShowsItsMessage` | script.js:61-77 | when `await fetch(...)` rejects, the stats area shows that error's own message, with "0/0" circles, no cards and the button idle |
| `Controller.NotJsonShowsParserText` | script.js:66-77 | a body that is not JSON shows the parser's error text, with "0/0" circles, no cards and the button idle |
| `Controller.ShortCountsSurfaced` | script.js:88-96 | too few entries in `allQuestionsCount` or `acSubmissionNum` show exactly "Cannot read properties of undefined (reading 'count')", render nothing of the response and leave the button idle |
| `Controller.ShortTotalsSurfaced` | script.js:98-108 | too few entries in `totalSubmissionNum` alone show exactly "Cannot read properties of undefined (reading 'submissions')" after all three circles (label and fill) took entries 1 to 3 of the response's counts; no cards are shown |
| `Controller.NotOkShowsFixedMessage` | script.js:63-72 | a non-OK status shows exactly "Unable to fetch the user details", with "0/0" circles and no cards, because `displayUserData` is never reached |
| `Controller.UnknownUserSurfaced` | script.js:69-77 | a null `matchedUser` shows the null-read error in the stats area, renders nothing from the response, and leaves the button idle |
| `Controller.MessageOnlyOnFailure` | script.js:61-73 | the lookup throws exactly when the request is rejected, the status is not OK, the body is not JSON or an entry is missing; a failure writes exactly the thrown error's message, and a success leaves the earlier text in place |
| `Controller.SuccessfulLookup` | script.js:61-69 | a successful lookup shows the labels of entries 1 to 3 and exactly the four submission cards, with the button idle |
| `Controller.NoStaleResults` | script.js:37-38 | the circles and cards after a lookup do not depend on what the page showed before it |
| `Controller.RejectedClickOnlyAlerts` | script.js:135-141 | a name the validator rejects only appends its alert; no search starts and nothing else changes |
| `Controller.AcceptedClickSearches` | script.js:135-141 | a valid name starts the lookup for exactly that name, and raises no alert |
| `Controller.ClickKeepsIdle` | script.js:135-141 | from an idle button, any click leaves the button idle ("Search", enabled) once the lookup it starts has finished (the lookup is one step here; in the script the handler returns while the lookup is still pending) |
| `Page.View.constructor` | script.js:2-11 | the view starts out as the given page state |
| `Page.View.ResetUI` | script.js:122-133 | the fields become the reset page state |
| `Page.View.UpdateProgress` | script.js:80-84 | only the chosen circle's label and fill change, to `solved/total` and the pair (solved, total) |
| `Page.View.DisplayUserData` | script.js:87-119 | the fields and the thrown error are exactly what `displayUserData` leaves on the page |
| `Page.View.FetchUserDetails` | script.js:28-78 | the fields end as the lookup's try / catch / finally leaves them |
| `Page.View.OnSearchClick` | script.js:135-141 | the fields end as the click handler leaves them |

## Left out

- The request itself is not modelled: `fetch`, the proxy and target URLs, `Headers`, the GraphQL query text, `JSON.stringify` and `response.json()` (script.js:44-66). Its outcome is the parameter `respond`: a rejection with its message, a non-OK status, a body that is not JSON, or the JSON data.
- `console.log` (script.js:67, 110) is not modelled. `alert` is modelled as an appended message. Card HTML templates and `innerHTML` are modelled as a sequence of `Card` records and an error text.
- The CSS property string `${progressDegree}%` is not modelled. The fill keeps the pair (solved, total), and `Presenter.Percent` gives the exact real percentage. Floating-point rounding is not modelled. A zero total gives no value, where JavaScript gets NaN or Infinity.
- Counts are exact integers. JavaScript numbers are doubles: JSON integers above 2^53 are rounded when parsed, and `${n}` writes magnitudes of 1e21 or more in exponent form ("1e+21"). The model takes counts to be safe integers below 1e21, where both agree with it. Non-integer or non-numeric JSON values, and a missing or null `data`, are not modelled.
- Runtime `TypeError` texts use the V8 wording ("Cannot read properties of null (reading 'submitStats')"). Other engines word them differently. A JSON syntax error's text is taken from the body outcome as given.
- Each lookup is one atomic step. The `await` suspension and the race between overlapping lookups are not modelled, and neither is a second click while the button is disabled.
- The `DOMContentLoaded` wiring and element lookups (script.js:1-11) are not modelled. The page's initial state is a constructor parameter. The page markup (index.html) is not part of this model, so the model does not say whether the error paragraph written into the stats area also replaces the circles and the cards there.
- JavaScript strings are UTF-16, and Dafny's are sequences of Unicode scalar values. For the username check the two agree: no character outside the Basic Multilingual Plane is white space or in the username class.
