/**
 * The results area of the page as a value, and what `resetUI`,
 * `updateProgress` and `displayUserData` do to it.
 */
module Presenter {
  import opened Wrappers
  import opened Decimal
  import opened Api

  /** The `--progress-degree` of a circle: the literal `0%` or solved/total. */
  datatype Fill = Zero | Fraction(solved: int, total: int)

  /** A progress circle and the text of its `solved/total` label. */
  datatype Circle = Circle(text: string, fill: Fill)

  /** One summary card: the `label` of the script's card data as its title, and the number. */
  datatype Card = Card(title: string, value: int)

  datatype Difficulty = Easy | Medium | Hard

  /**
   * Everything the script writes: the search button, the three circles,
   * the cards, the error paragraph of the stats area and the alerts raised.
   */
  datatype ViewState = ViewState(
    buttonText: string,
    buttonDisabled: bool,
    easy: Circle,
    medium: Circle,
    hard: Circle,
    cards: seq<Card>,
    statsMessage: Option<string>,
    alerts: seq<string>)

  const ResetCircle := Circle("0/0", Zero)

  const CardLabels := ["Overall Submissions", "Overall Easy Submissions",
                       "Overall Medium Submissions", "Overall Hard Submissions"]

  /** The label `${solved}/${total}`. */
  function ProgressLabel(solved: int, total: int): string {
    IntText(solved) + "/" + IntText(total)
  }

  /** The position of the first `c` in `s`, or |s| when there is none. */
  function IndexOf(s: string, c: char): (i: nat)
    ensures i <= |s|
    ensures i < |s| ==> s[i] == c
    ensures forall k :: 0 <= k < i ==> s[k] != c
  {
    if s == [] then 0 else if s[0] == c then 0 else 1 + IndexOf(s[1..], c)
  }

  /** Reads a `solved/total` label back into its two numbers. */
  function ParseLabel(s: string): Option<(int, int)> {
    var i := IndexOf(s, '/');
    if i == |s| then None
    else match (ParseInt(s[..i]), ParseInt(s[i + 1..]))
      case (Some(solved), Some(total)) => Some((solved, total))
      case _ => None
  }

  /** Every progress label reads back as the pair it was written from. */
  lemma {:induction false} LabelRoundTrip(solved: int, total: int)
    ensures ParseLabel(ProgressLabel(solved, total)) == Some((solved, total))
  {
    IntTextRoundTrip(solved);
    IntTextRoundTrip(total);
    var a, b := IntText(solved), IntText(total);
    var s := ProgressLabel(solved, total);
    assert s[|a|] == '/';
    forall k | 0 <= k < |a| ensures s[k] != '/' {
      assert s[k] == a[k];
    }
    assert IndexOf(s, '/') == |a|;
    assert s[..|a|] == a;
    assert s[|a| + 1..] == b;
  }

  /** The fill as a percentage, `(solved/total)*100`; None where JavaScript gets NaN or Infinity. */
  function Percent(f: Fill): Option<real> {
    match f
    case Zero => Some(0.0)
    case Fraction(solved, total) =>
      if total == 0 then None else Some((solved as real / total as real) * 100.0)
  }

  /** A circle whose solved count lies within its total shows between 0% and 100%. */
  lemma PercentWithinBounds(solved: int, total: int)
    requires 0 <= solved <= total && 0 < total
    ensures Percent(Fraction(solved, total)).Some?
    ensures 0.0 <= Percent(Fraction(solved, total)).value <= 100.0
  {
  }

  /** The easy circle of a user with 100 of 800 easy problems solved. */
  lemma ExampleCircle()
    ensures ProgressLabel(100, 800) == "100/800"
    ensures Percent(Fraction(100, 800)) == Some(12.5)
  {
  }

  /** `resetUI`. */
  function Reset(v: ViewState): ViewState {
    v.(easy := ResetCircle, medium := ResetCircle, hard := ResetCircle, cards := [])
  }

  /** After a reset the circles show `0/0` at 0% and there are no cards; nothing else changes. */
  lemma ResetClears(v: ViewState)
    ensures var r := Reset(v);
      r.easy.text == "0/0" && r.medium.text == "0/0" && r.hard.text == "0/0" &&
      Percent(r.easy.fill) == Some(0.0) && Percent(r.medium.fill) == Some(0.0) &&
      Percent(r.hard.fill) == Some(0.0) && r.cards == [] &&
      r.buttonText == v.buttonText && r.buttonDisabled == v.buttonDisabled &&
      r.statsMessage == v.statsMessage && r.alerts == v.alerts
  {
  }

  /** The reset label is the label of zero solved out of zero. */
  lemma ResetLabelIsZeroOfZero()
    ensures ProgressLabel(0, 0) == ResetCircle.text
    ensures ParseLabel(ResetCircle.text) == Some((0, 0))
  {
  }

  lemma ResetIdempotent(v: ViewState)
    ensures Reset(Reset(v)) == Reset(v)
  {
  }

  /** `updateProgress` on the circle of one difficulty. */
  function WithProgress(v: ViewState, d: Difficulty, solved: int, total: int): ViewState {
    var c := Circle(ProgressLabel(solved, total), Fraction(solved, total));
    match d
    case Easy => v.(easy := c)
    case Medium => v.(medium := c)
    case Hard => v.(hard := c)
  }

  /** The four cards built from `totalSubmissionNum`. */
  function CardsOf(totals: seq<SubmissionCount>): seq<Card>
    requires |totals| >= 4
  {
    seq(4, i requires 0 <= i < 4 => Card(CardLabels[i], totals[i].submissions))
  }

  /** The four cards come in the fixed order, with the submissions of entries 0 to 3. */
  lemma CardsInOrder(totals: seq<SubmissionCount>)
    requires |totals| >= 4
    ensures |CardsOf(totals)| == 4
    ensures CardsOf(totals)[0] == Card("Overall Submissions", totals[0].submissions)
    ensures CardsOf(totals)[1] == Card("Overall Easy Submissions", totals[1].submissions)
    ensures CardsOf(totals)[2] == Card("Overall Medium Submissions", totals[2].submissions)
    ensures CardsOf(totals)[3] == Card("Overall Hard Submissions", totals[3].submissions)
  {
  }

  /** What `displayUserData` leaves behind, and the error it throws if it throws. */
  datatype Step = Step(view: ViewState, thrown: Option<Failure>)

  /** The response has every entry `displayUserData` reads. */
  predicate Readable(data: ResponseData) {
    |data.allQuestionsCount| >= 4 && data.matchedUser.Some? &&
    |data.matchedUser.value.submitStats.acSubmissionNum| >= 4 &&
    |data.matchedUser.value.submitStats.totalSubmissionNum| >= 4
  }

  /**
   * `displayUserData`, in the order the script evaluates it: the question
   * totals, then the solved counts, then the three circles, then the
   * submission totals, then the cards. A read of a missing entry throws at
   * that point, keeping whatever was already written.
   */
  function Displayed(v: ViewState, data: ResponseData): Step {
    var all := data.allQuestionsCount;
    if |all| < 4 then Step(v, Some(UndefinedRead("count")))
    else match data.matchedUser
      case None => Step(v, Some(NullRead("submitStats")))
      case Some(user) =>
        var solved := user.submitStats.acSubmissionNum;
        if |solved| < 4 then Step(v, Some(UndefinedRead("count")))
        else
          var v1 := WithProgress(v, Easy, solved[1].count, all[1].count);
          var v2 := WithProgress(v1, Medium, solved[2].count, all[2].count);
          var v3 := WithProgress(v2, Hard, solved[3].count, all[3].count);
          var totals := user.submitStats.totalSubmissionNum;
          if |totals| < 4 then Step(v3, Some(UndefinedRead("submissions")))
          else Step(v3.(cards := CardsOf(totals)), None)
  }

  /** `displayUserData` throws exactly when an entry it reads is missing. */
  lemma DisplayThrowsIff(v: ViewState, data: ResponseData)
    ensures Displayed(v, data).thrown.None? <==> Readable(data)
    ensures Displayed(v, data).thrown == Some(NullRead("submitStats")) <==>
      |data.allQuestionsCount| >= 4 && data.matchedUser.None?
  {
  }

  /**
   * On a readable response the circles show the solved and total counts of
   * entries 1, 2 and 3 (Easy, Medium, Hard), the cards are replaced by the
   * four submission cards, and nothing outside the results area changes.
   */
  lemma DisplaySuccess(v: ViewState, data: ResponseData)
    requires Readable(data)
    ensures var all := data.allQuestionsCount;
      var stats := data.matchedUser.value.submitStats;
      var solved := stats.acSubmissionNum;
      var r := Displayed(v, data).view;
      r.easy == Circle(ProgressLabel(solved[1].count, all[1].count), Fraction(solved[1].count, all[1].count)) &&
      r.medium == Circle(ProgressLabel(solved[2].count, all[2].count), Fraction(solved[2].count, all[2].count)) &&
      r.hard == Circle(ProgressLabel(solved[3].count, all[3].count), Fraction(solved[3].count, all[3].count)) &&
      r.cards == CardsOf(stats.totalSubmissionNum) &&
      r.buttonText == v.buttonText && r.buttonDisabled == v.buttonDisabled &&
      r.statsMessage == v.statsMessage && r.alerts == v.alerts
  {
  }

  /** Two responses that differ only in entry 0 of their counts. */
  predicate SameBeyondFirst(d1: ResponseData, d2: ResponseData) {
    |d1.allQuestionsCount| == |d2.allQuestionsCount| &&
    (forall i :: 1 <= i < |d1.allQuestionsCount| ==> d1.allQuestionsCount[i] == d2.allQuestionsCount[i]) &&
    d1.matchedUser.Some? == d2.matchedUser.Some? &&
    (d1.matchedUser.Some? ==>
      var s1, s2 := d1.matchedUser.value.submitStats, d2.matchedUser.value.submitStats;
      |s1.acSubmissionNum| == |s2.acSubmissionNum| &&
      (forall i :: 1 <= i < |s1.acSubmissionNum| ==> s1.acSubmissionNum[i] == s2.acSubmissionNum[i]) &&
      s1.totalSubmissionNum == s2.totalSubmissionNum)
  }

  /**
   * Entry 0 (All) of `allQuestionsCount` and `acSubmissionNum` is read but
   * never shown: changing it changes nothing on the page.
   */
  lemma DisplayIgnoresAllBucket(v: ViewState, d1: ResponseData, d2: ResponseData)
    requires SameBeyondFirst(d1, d2)
    ensures Displayed(v, d1) == Displayed(v, d2)
  {
  }

  /**
   * When the question and solved counts are all present but
   * `totalSubmissionNum` is short, the three circles are already updated
   * when the read of the missing entry throws; the old cards stay.
   */
  lemma DisplayPartial(v: ViewState, data: ResponseData)
    requires |data.allQuestionsCount| >= 4 && data.matchedUser.Some?
    requires |data.matchedUser.value.submitStats.acSubmissionNum| >= 4
    requires |data.matchedUser.value.submitStats.totalSubmissionNum| < 4
    ensures var all := data.allQuestionsCount;
      var solved := data.matchedUser.value.submitStats.acSubmissionNum;
      var r := Displayed(v, data);
      r.thrown == Some(UndefinedRead("submissions")) &&
      r.view.easy == Circle(ProgressLabel(solved[1].count, all[1].count), Fraction(solved[1].count, all[1].count)) &&
      r.view.medium == Circle(ProgressLabel(solved[2].count, all[2].count), Fraction(solved[2].count, all[2].count)) &&
      r.view.hard == Circle(ProgressLabel(solved[3].count, all[3].count), Fraction(solved[3].count, all[3].count)) &&
      r.view.cards == v.cards
  {
  }
}
