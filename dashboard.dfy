/** The dashboard's derived values: the readiness score, the radar-chart data and
    the four module cards, each a function of the current scores. */
module DashboardScreen {
  import opened Types
  import JsMath

  /** The readiness score: the mean of the four scores, rounded as `Math.round` does. */
  function OverallScore(s: OverallScores): (r: int)
    ensures 8 * r <= 2 * (s.resume + s.technical + s.communication + s.aptitude) + 4 < 8 * r + 8
  {
    JsMath.RoundDiv(s.resume + s.technical + s.communication + s.aptitude, 4)
  }

  /** Scores that are percentages give a readiness score that is a percentage. */
  lemma OverallScoreBounds(s: OverallScores)
    requires forall k :: 0 <= ScoreOf(s, k) <= 100
    ensures 0 <= OverallScore(s) <= 100
  {
    assert 0 <= ScoreOf(s, ResumeScore) && 0 <= ScoreOf(s, TechnicalScore);
    assert 0 <= ScoreOf(s, CommunicationScore) && 0 <= ScoreOf(s, AptitudeScore);
    assert ScoreOf(s, ResumeScore) <= 100 && ScoreOf(s, TechnicalScore) <= 100;
    assert ScoreOf(s, CommunicationScore) <= 100 && ScoreOf(s, AptitudeScore) <= 100;
  }

  /** Four equal scores give that score as readiness. */
  lemma OverallScoreOfEqual(v: int)
    ensures OverallScore(OverallScores(v, v, v, v)) == v
  {
    JsMath.RoundDivUnique(4 * v, 4, v);
  }

  /** Raising one score never lowers the readiness score. */
  lemma OverallScoreMonotone(s: OverallScores, k: ScoreKind, v: int)
    requires v >= ScoreOf(s, k)
    ensures OverallScore(WithScore(s, k, v)) >= OverallScore(s)
  {
    var t := WithScore(s, k, v);
    assert forall k' :: k' != k ==> ScoreOf(t, k') == ScoreOf(s, k');
    assert ScoreOf(t, ResumeScore) >= ScoreOf(s, ResumeScore);
    assert ScoreOf(t, TechnicalScore) >= ScoreOf(s, TechnicalScore);
    assert ScoreOf(t, CommunicationScore) >= ScoreOf(s, CommunicationScore);
    assert ScoreOf(t, AptitudeScore) >= ScoreOf(s, AptitudeScore);
  }

  /** One axis of the capability radar chart. */
  datatype ChartPoint = ChartPoint(subject: string, a: int, fullMark: int)

  /** The axes of the chart, in the order they are drawn. */
  const ChartKinds: seq<ScoreKind> := [ResumeScore, TechnicalScore, CommunicationScore, AptitudeScore]
  const ChartSubjects: seq<string> := ["Resume Fit", "Technical", "Communication", "Aptitude"]

  /** The chart data: one point per module in the fixed axis order, each out of 100. */
  function ChartData(s: OverallScores): (d: seq<ChartPoint>)
    ensures |d| == 4
    ensures forall i :: 0 <= i < 4 ==>
      d[i] == ChartPoint(ChartSubjects[i], ScoreOf(s, ChartKinds[i]), 100)
  {
    [ ChartPoint("Resume Fit", s.resume, 100),
      ChartPoint("Technical", s.technical, 100),
      ChartPoint("Communication", s.communication, 100),
      ChartPoint("Aptitude", s.aptitude, 100) ]
  }

  /** The large figure on a card: `N%` for a positive score, `-` otherwise. */
  function ScoreText(v: int): string {
    if v > 0 then JsMath.DecimalString(v) + "%" else "-"
  }

  /** A card's figure is `-` exactly for a module not yet scored, and a scored
      card's figure reads back as its score followed by `%`. */
  lemma ScoreTextMeaning(v: int)
    ensures ScoreText(v) == "-" <==> v <= 0
    ensures v > 0 ==> |ScoreText(v)| >= 2 && ScoreText(v)[|ScoreText(v)| - 1] == '%'
    ensures v > 0 ==>
      && JsMath.IsDigits(ScoreText(v)[..|ScoreText(v)| - 1])
      && JsMath.ParseDecimal(ScoreText(v)[..|ScoreText(v)| - 1]) == v
  {
    if v > 0 {
      var t := ScoreText(v);
      assert t[..|t| - 1] == JsMath.DecimalString(v);
      JsMath.ParseDecimalString(v);
      assert t != "-" by { assert t[|t| - 1] == '%'; }
    }
  }

  /** Two positive scores are shown with the same figure only when they are equal. */
  lemma ScoreTextInjective(v: int, w: int)
    requires v > 0 && w > 0 && ScoreText(v) == ScoreText(w)
    ensures v == w
  {
    var t := ScoreText(v);
    assert t[..|t| - 1] == JsMath.DecimalString(v);
    assert ScoreText(w)[..|t| - 1] == JsMath.DecimalString(w);
    JsMath.DecimalStringInjective(v, w);
  }

  /** One module card of the dashboard grid. */
  datatype Card = Card(
    title: string,
    scoreText: string,
    completed: bool,
    buttonLabel: string,
    target: AppState)

  /** The cards in grid order. */
  const CardKinds: seq<ScoreKind> := [ResumeScore, TechnicalScore, AptitudeScore, CommunicationScore]

  /** The screen each card's button opens. */
  function CardTarget(k: ScoreKind): (v: AppState)
    ensures v != Login && v != Dashboard && v != RoleSelection && v != Results
  {
    match k
    case ResumeScore => ResumeAnalysis
    case TechnicalScore => TechAssessment
    case AptitudeScore => AptitudeTest
    case CommunicationScore => CommunicationCoach
  }

  /** Different cards open different screens. */
  lemma CardTargetInjective(k: ScoreKind, k': ScoreKind)
    requires CardTarget(k) == CardTarget(k')
    ensures k == k'
  {
  }

  function CardTitle(k: ScoreKind): string {
    match k
    case ResumeScore => "Resume Analysis"
    case TechnicalScore => "Technical Assessment"
    case AptitudeScore => "Aptitude Test"
    case CommunicationScore => "Communication"
  }

  /** Only the resume card offers a retake, and only once it has a score. */
  function ButtonLabel(k: ScoreKind, v: int): string {
    if k == ResumeScore && v > 0 then "Retake" else "Start"
  }

  /** The card of module `k`: ticked exactly when its score is positive,
      showing `-` exactly when it is not (otherwise the score's figure), reading
      "Retake" only for a scored resume and "Start" everywhere else, and
      opening the module's own screen. */
  function MakeCard(s: OverallScores, k: ScoreKind): (c: Card)
    ensures c.completed <==> ScoreOf(s, k) > 0
    ensures c.scoreText == "-" <==> !c.completed
    ensures c.buttonLabel == "Retake" <==> k == ResumeScore && c.completed
    ensures c.buttonLabel == (if k == ResumeScore && ScoreOf(s, k) > 0 then "Retake" else "Start")
    ensures c.scoreText == ScoreText(ScoreOf(s, k))
    ensures c.target == CardTarget(k) && c.title == CardTitle(k)
  {
    var v := ScoreOf(s, k);
    ScoreTextMeaning(v);
    Card(CardTitle(k), ScoreText(v), v > 0, ButtonLabel(k, v), CardTarget(k))
  }

  /** The four cards, one per module, in grid order. */
  function Cards(s: OverallScores): (cs: seq<Card>)
    ensures |cs| == 4
    ensures forall i :: 0 <= i < 4 ==> cs[i] == MakeCard(s, CardKinds[i])
  {
    [ MakeCard(s, ResumeScore), MakeCard(s, TechnicalScore),
      MakeCard(s, AptitudeScore), MakeCard(s, CommunicationScore) ]
  }

  /** The header's role line: the chosen role's name, or "Not Selected". */
  function TargetRoleLabel(u: UserProfile): (t: string)
    ensures t == "Not Selected" <==> u.targetRole.None?
    ensures u.targetRole.Some? ==> t == RoleName(u.targetRole.value)
  {
    match u.targetRole
    case Some(r) => RoleName(r)
    case None => "Not Selected"
  }
}
