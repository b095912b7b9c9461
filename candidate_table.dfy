/**
 * The candidate table: the overall-performance scorer, the text of the
 * "Overall Performance" cell, and the choice between the empty-data notice
 * and one row per candidate.
 */
module CandidateTable {
  import opened Wrappers
  import opened Averages

  /**
   * One interview evaluation as ingested from the CSV file. A category score
   * is the number `parseFloat` reads from the stored text, or None when the
   * text is absent, empty or not a number.
   */
  datatype CandidateEvaluation = CandidateEvaluation(
    contactName: string,
    phoneNumber: string,
    emailAddress: Option<string>,
    dateTime: string,
    result: string,
    experienceScore: Option<real>,
    compassionScore: Option<real>,
    professionalismScore: Option<real>,
    safetyScore: Option<real>)

  /** The rating bands, lowest first; NotRated is shown as "N/A". */
  datatype Rating = NotRated | Poor | BelowAverage | Average | Good | Exceptional

  datatype OverallPerformance = OverallPerformance(score: real, rating: Rating)

  /** The text the source uses for each rating. */
  function Label(r: Rating): (text: string)
    ensures text == "N/A" <==> r == NotRated
  {
    match r
    case NotRated => "N/A"
    case Poor => "Poor"
    case BelowAverage => "Below Average"
    case Average => "Average"
    case Good => "Good"
    case Exceptional => "Exceptional"
  }

  /** Different ratings read differently, so the cell text determines the rating. */
  lemma LabelInjective(a: Rating, b: Rating)
    requires Label(a) == Label(b)
    ensures a == b
  {
  }

  /** Position of a band in the order Poor < Below Average < ... < Exceptional. */
  function Rank(r: Rating): nat
  {
    match r
    case NotRated => 0
    case Poor => 1
    case BelowAverage => 2
    case Average => 3
    case Good => 4
    case Exceptional => 5
  }

  /** The four category scores in the order the source lists them. */
  function CategoryScores(c: CandidateEvaluation): (s: seq<Option<real>>)
    ensures |s| == 4
    ensures s[0] == c.experienceScore && s[1] == c.compassionScore
    ensures s[2] == c.professionalismScore && s[3] == c.safetyScore
  {
    [c.experienceScore, c.compassionScore, c.professionalismScore, c.safetyScore]
  }

  /** A category counts towards the average only when it parsed to a value above 0. */
  predicate Contributes(o: Option<real>)
  {
    o.Some? && o.value > 0.0
  }

  /** The contributing scores, in their original order (the `filter(s => s > 0)`). */
  function Contributing(s: seq<Option<real>>): (r: seq<real>)
    ensures |r| <= |s|
    ensures forall i :: 0 <= i < |r| ==> r[i] > 0.0
    ensures forall i :: 0 <= i < |s| && Contributes(s[i]) ==> s[i].value in r
    ensures r == [] <==> forall i :: 0 <= i < |s| ==> !Contributes(s[i])
  {
    if s == [] then []
    else if Contributes(s[0]) then [s[0].value] + Contributing(s[1..])
    else Contributing(s[1..])
  }

  /** How often `x` is kept: as often as `Some(x)` occurs when `x` is positive, never otherwise. */
  lemma {:induction false} ContributingCount(s: seq<Option<real>>, x: real)
    ensures multiset(Contributing(s))[x] == if x > 0.0 then multiset(s)[Some(x)] else 0
  {
    if s != [] {
      ContributingCount(s[1..], x);
      assert s == [s[0]] + s[1..];
      assert multiset(s)[Some(x)] == multiset([s[0]])[Some(x)] + multiset(s[1..])[Some(x)];
      if Contributes(s[0]) {
        assert Contributing(s) == [s[0].value] + Contributing(s[1..]);
        assert multiset(Contributing(s))[x]
            == multiset([s[0].value])[x] + multiset(Contributing(s[1..]))[x];
      }
    }
  }

  /** Reordering the categories reorders, and nothing more, the contributing scores. */
  lemma ContributingPermutation(s: seq<Option<real>>, t: seq<Option<real>>)
    requires multiset(s) == multiset(t)
    ensures multiset(Contributing(s)) == multiset(Contributing(t))
  {
    forall x: real
      ensures multiset(Contributing(s))[x] == multiset(Contributing(t))[x]
    {
      ContributingCount(s, x);
      ContributingCount(t, x);
    }
  }

  /**
   * The band of a rounded score, tried top-down so that each threshold value
   * belongs to the higher band.
   */
  function Band(score: real): (r: Rating)
    ensures r != NotRated
    ensures r == Exceptional <==> 4.5 <= score
    ensures r == Good <==> 3.5 <= score < 4.5
    ensures r == Average <==> 2.5 <= score < 3.5
    ensures r == BelowAverage <==> 1.5 <= score < 2.5
    ensures r == Poor <==> score < 1.5
  {
    if score >= 4.5 then Exceptional
    else if score >= 3.5 then Good
    else if score >= 2.5 then Average
    else if score >= 1.5 then BelowAverage
    else Poor
  }

  /** A higher score never lands in a lower band. */
  lemma BandMonotone(a: real, b: real)
    requires a <= b
    ensures Rank(Band(a)) <= Rank(Band(b))
  {
  }

  /**
   * `calculateOverallScore` over the list of parsed category scores: "N/A"
   * when nothing contributes, otherwise the mean rounded to a tenth and the
   * band of that rounded value.
   */
  function OverallOf(s: seq<Option<real>>): (r: OverallPerformance)
    ensures r.rating == NotRated <==> forall i :: 0 <= i < |s| ==> !Contributes(s[i])
    ensures r.rating == NotRated ==> r.score == 0.0
    ensures r.rating != NotRated ==>
              var m := Mean(Contributing(s));
              && m - 0.05 < r.score <= m + 0.05
              && IsTenths(r.score)
              && r.score >= 0.0
              && r.rating == Band(r.score)
  {
    var kept := Contributing(s);
    if |kept| == 0 then OverallPerformance(0.0, NotRated)
    else
      MeanPositive(kept);
      var rounded := RoundTenth(Mean(kept));
      OverallPerformance(rounded, Band(rounded))
  }

  /** `calculateOverallScore(candidate)`. */
  function CalculateOverallScore(c: CandidateEvaluation): (r: OverallPerformance)
    ensures r.rating == NotRated <==>
              !Contributes(c.experienceScore) && !Contributes(c.compassionScore)
              && !Contributes(c.professionalismScore) && !Contributes(c.safetyScore)
    ensures r.rating == NotRated ==> r == OverallPerformance(0.0, NotRated)
    ensures 0.0 <= r.score
  {
    OverallOf(CategoryScores(c))
  }

  /** The result does not depend on the order in which the categories are listed. */
  lemma OverallOrderIndependent(s: seq<Option<real>>, t: seq<Option<real>>)
    requires multiset(s) == multiset(t)
    ensures OverallOf(s) == OverallOf(t)
  {
    ContributingPermutation(s, t);
    var a, b := Contributing(s), Contributing(t);
    assert |a| == |multiset(a)| == |multiset(b)| == |b|;
    if |a| > 0 {
      MeanPermutation(a, b);
    }
  }

  /**
   * On the 0..5 scale the overall score stays on the scale, and never falls
   * below the rounded smallest contributing score.
   */
  lemma OverallWithinScale(s: seq<Option<real>>)
    requires forall i :: 0 <= i < |s| && s[i].Some? ==> s[i].value <= 5.0
    requires exists i :: 0 <= i < |s| && Contributes(s[i])
    ensures var kept := Contributing(s);
            |kept| > 0 && RoundTenth(Min(kept)) <= OverallOf(s).score <= 5.0
  {
    var kept := Contributing(s);
    forall j | 0 <= j < |kept|
      ensures kept[j] <= 5.0
    {
      ContributedFrom(s, j);
    }
    MeanAtMost(kept, 5.0);
    MeanAtLeast(kept, Min(kept));
    RoundTenthMonotone(Mean(kept), 5.0);
    RoundTenthFixes(5.0);
    RoundTenthMonotone(Min(kept), Mean(kept));
  }

  /** Every contributing score is the value of some category. */
  lemma {:induction false} ContributedFrom(s: seq<Option<real>>, j: nat)
    requires j < |Contributing(s)|
    ensures exists i :: 0 <= i < |s| && s[i] == Some(Contributing(s)[j])
  {
    if Contributes(s[0]) {
      if j > 0 {
        ContributedFrom(s[1..], j - 1);
        var i :| 0 <= i < |s[1..]| && s[1..][i] == Some(Contributing(s[1..])[j - 1]);
        assert s[i + 1] == Some(Contributing(s)[j]);
      } else {
        assert s[0] == Some(Contributing(s)[0]);
      }
    } else {
      ContributedFrom(s[1..], j);
      var i :| 0 <= i < |s[1..]| && s[1..][i] == Some(Contributing(s[1..])[j]);
      assert s[i + 1] == Some(Contributing(s)[j]);
    }
  }

  /** A candidate whose only positive score is tiny is still scored, rounds to 0.0 and is rated Poor. */
  lemma TinyAverageRoundsToZero()
    ensures OverallOf([Some(0.04), None, Some(0.0), Some(-1.0)]) == OverallPerformance(0.0, Poor)
  {
    var s := [Some(0.04), None, Some(0.0), Some(-1.0)];
    assert Contributing(s) == [0.04];
    assert Mean([0.04]) == 0.04;
    RoundTenthUnique(0.04, 0.0);
  }

  /** Four full marks give 5.0, Exceptional. */
  lemma FullMarksAreExceptional()
    ensures OverallOf([Some(5.0), Some(5.0), Some(5.0), Some(5.0)]) == OverallPerformance(5.0, Exceptional)
  {
    var s := [Some(5.0), Some(5.0), Some(5.0), Some(5.0)];
    assert Contributing(s) == [5.0, 5.0, 5.0, 5.0];
    assert Mean([5.0, 5.0, 5.0, 5.0]) == 5.0;
    RoundTenthFixes(5.0);
  }

  /** Unrated categories do not drag the average down: 3, 0, 3 and absent give 3.0, Average. */
  lemma UnratedCategoriesIgnored()
    ensures OverallOf([Some(3.0), Some(0.0), Some(3.0), None]) == OverallPerformance(3.0, Average)
  {
    var s := [Some(3.0), Some(0.0), Some(3.0), None];
    assert Contributing(s) == [3.0, 3.0];
    assert Mean([3.0, 3.0]) == 3.0;
    RoundTenthFixes(3.0);
  }

  /** The band is taken from the rounded score: a mean of 1.49 rounds to 1.5, Below Average. */
  lemma RoundedScoreDecidesBand()
    ensures OverallOf([Some(1.49), None, None, None]) == OverallPerformance(1.5, BelowAverage)
  {
    var s := [Some(1.49), None, None, None];
    assert Contributing(s) == [1.49];
    assert Mean([1.49]) == 1.49;
    RoundTenthUnique(1.49, 1.5);
  }

  /** Nothing caps a category at 5: a lone 7 is kept and gives 7.0, Exceptional. */
  lemma ScoresAboveFiveKept()
    ensures OverallOf([Some(7.0), None, None, None]) == OverallPerformance(7.0, Exceptional)
  {
    var s := [Some(7.0), None, None, None];
    assert Contributing(s) == [7.0];
    assert Mean([7.0]) == 7.0;
    RoundTenthFixes(7.0);
  }

  // ----- the "Overall Performance" cell -----

  predicate IsDigit(ch: char)
  {
    '0' <= ch <= '9'
  }

  function DigitChar(d: nat): (ch: char)
    requires d < 10
    ensures IsDigit(ch)
  {
    ('0' as int + d) as char
  }

  function DigitValue(ch: char): nat
    requires IsDigit(ch)
  {
    ch as int - '0' as int
  }

  /** The decimal digits of `n`, most significant first, without leading zeros. */
  function NatToDecimal(n: nat): (r: string)
    ensures |r| >= 1
    ensures forall i :: 0 <= i < |r| ==> IsDigit(r[i])
    ensures r[0] == '0' ==> n == 0
    decreases n
  {
    if n < 10 then [DigitChar(n)] else NatToDecimal(n / 10) + [DigitChar(n % 10)]
  }

  /** The number a string of decimal digits denotes. */
  function DecimalValue(s: string): nat
    requires forall i :: 0 <= i < |s| ==> IsDigit(s[i])
  {
    if s == [] then 0 else DecimalValue(s[..|s| - 1]) * 10 + DigitValue(s[|s| - 1])
  }

  /** Reading back the digits written for `n` gives `n`. */
  lemma {:induction false} DecimalRoundTrip(n: nat)
    ensures DecimalValue(NatToDecimal(n)) == n
    decreases n
  {
    var r := NatToDecimal(n);
    if n >= 10 {
      DecimalRoundTrip(n / 10);
      assert r[..|r| - 1] == NatToDecimal(n / 10);
    }
  }

  /** Text with one digit after the point, as `toFixed(1)` writes a non-negative number. */
  predicate IsFixed1(t: string)
  {
    && |t| >= 3
    && t[|t| - 2] == '.'
    && (forall i :: 0 <= i < |t| - 2 ==> IsDigit(t[i]))
    && IsDigit(t[|t| - 1])
  }

  /** The number a one-decimal text denotes. */
  function Fixed1Value(t: string): real
    requires IsFixed1(t)
  {
    DecimalValue(t[..|t| - 2]) as real + DigitValue(t[|t| - 1]) as real / 10.0
  }

  /** `x.toFixed(1)` for a non-negative `x`: the text reads back as `x` rounded to a tenth. */
  function ToFixed1(x: real): (t: string)
    requires x >= 0.0
    ensures IsFixed1(t)
    ensures t[0] == '0' ==> t[1] == '.'
    ensures Fixed1Value(t) == RoundTenth(x)
  {
    var k := (x * 10.0 + 0.5).Floor;
    assert k >= 0;
    var whole, tenth := k / 10, k % 10;
    var t := NatToDecimal(whole) + "." + [DigitChar(tenth)];
    assert t[..|t| - 2] == NatToDecimal(whole);
    DecimalRoundTrip(whole);
    assert k == 10 * whole + tenth;
    assert k as real / 10.0 == whole as real + tenth as real / 10.0;
    t
  }

  /**
   * The "Overall Performance" cell: "<score> / 5.0 - <rating>" for a positive
   * score, "N/A" otherwise.
   */
  function PerformanceCell(o: OverallPerformance): (t: string)
    ensures t == "N/A" <==> o.score <= 0.0
    ensures o.score > 0.0 ==>
              exists n :: 3 <= n < |t| && IsFixed1(t[..n])
                          && (t[0] == '0' ==> t[1] == '.')
                          && Fixed1Value(t[..n]) == RoundTenth(o.score)
                          && t[n..] == " / 5.0 - " + Label(o.rating)
  {
    if o.score > 0.0 then
      var num := ToFixed1(o.score);
      var t := num + " / 5.0 - " + Label(o.rating);
      assert t[..|num|] == num && t[|num|..] == " / 5.0 - " + Label(o.rating);
      assert t != "N/A" by { assert |t| > 3; }
      t
    else "N/A"
  }

  /**
   * A candidate's cell reads "N/A" exactly when no category contributes or
   * the mean of the contributing ones is below 0.05 and so rounds to 0.0.
   */
  lemma CellNotApplicable(c: CandidateEvaluation)
    ensures var s := CategoryScores(c);
            PerformanceCell(CalculateOverallScore(c)) == "N/A" <==>
              (Contributing(s) == [] || Mean(Contributing(s)) < 0.05)
  {
    var s := CategoryScores(c);
    var kept := Contributing(s);
    if kept != [] {
      var m := Mean(kept);
      MeanPositive(kept);
      var k := (m * 10.0 + 0.5).Floor;
      assert RoundTenth(m) == k as real / 10.0;
      if m < 0.05 {
        assert k == 0;
      } else {
        assert k >= 1;
      }
    }
  }

  // ----- the table -----

  /** One table row; `index` is the row's position in the candidate list. */
  datatype Row = Row(
    index: nat,
    name: string,
    status: string,
    phone: string,
    email: string,
    interviewDate: string,
    performance: string)

  /** What the table component renders: the empty-data notice, or one row per candidate. */
  datatype TableView = EmptyNotice | Rows(rows: seq<Row>)

  /** `emailAddress || "N/A"`: an absent or empty address shows as "N/A". */
  function EmailCell(e: Option<string>): (text: string)
    ensures text != ""
    ensures text == "N/A" || e == Some(text)
    ensures e.Some? && e.value != "" ==> text == e.value
  {
    if e.Some? && e.value != "" then e.value else "N/A"
  }

  /** The cells of row `i`, column by column. */
  function RowOf(i: nat, c: CandidateEvaluation): (row: Row)
    ensures row.index == i && row.name == c.contactName && row.status == c.result
    ensures row.phone == c.phoneNumber && row.interviewDate == c.dateTime
    ensures row.email == EmailCell(c.emailAddress)
    ensures row.performance == PerformanceCell(CalculateOverallScore(c))
  {
    Row(i, c.contactName, c.result, c.phoneNumber, EmailCell(c.emailAddress), c.dateTime,
        PerformanceCell(CalculateOverallScore(c)))
  }

  /** The table for a candidate list: the notice when it is empty, else its rows in list order. */
  function RenderTable(cs: seq<CandidateEvaluation>): (v: TableView)
    ensures v == EmptyNotice <==> |cs| == 0
    ensures v.Rows? ==>
              && |v.rows| == |cs|
              && forall i :: 0 <= i < |cs| ==>
                   && v.rows[i].index == i
                   && v.rows[i].name == cs[i].contactName
                   && v.rows[i].status == cs[i].result
                   && v.rows[i].phone == cs[i].phoneNumber
                   && v.rows[i].email == EmailCell(cs[i].emailAddress)
                   && v.rows[i].interviewDate == cs[i].dateTime
                   && v.rows[i].performance == PerformanceCell(CalculateOverallScore(cs[i]))
  {
    if |cs| == 0 then EmptyNotice
    else Rows(seq(|cs|, i requires 0 <= i < |cs| => RowOf(i, cs[i])))
  }
}
