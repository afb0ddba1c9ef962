/** Enumerations and records shared by the screens of the placement-preparation
    front end, together with the small failure-compatible wrappers the rest of
    the model uses. */
module Types {

  datatype Option<+T> = None | Some(value: T) {
    function GetOr(default: T): T {
      match this
      case Some(v) => v
      case None => default
    }
  }

  datatype Result<+T> = Success(value: T) | Failure(error: string)

  /** The screens the application can show. */
  datatype AppState =
    | Login
    | Dashboard
    | RoleSelection
    | ResumeAnalysis
    | AptitudeTest
    | TechAssessment
    | CommunicationCoach
    | Results

  /** The target job roles a student can prepare for. */
  datatype JobRole =
    | SoftwareEngineer
    | DataScientist
    | ProductManager
    | UxDesigner
    | MarketingManager

  /** The display string each role carries. */
  function RoleName(r: JobRole): string {
    match r
    case SoftwareEngineer => "Software Engineer"
    case DataScientist => "Data Scientist"
    case ProductManager => "Product Manager"
    case UxDesigner => "UX Designer"
    case MarketingManager => "Marketing Manager"
  }

  datatype UserProfile = UserProfile(
    name: string,
    email: string,
    targetRole: Option<JobRole>,
    resumeText: string)

  /** The resume report returned by the remote analysis service. */
  datatype AtsResult = AtsResult(
    score: int,
    matchPercentage: int,
    missingKeywords: seq<string>,
    suggestions: seq<string>)

  /** One multiple-choice question; `correctAnswer` indexes `options`. */
  datatype Question = Question(
    id: int,
    question: string,
    options: seq<string>,
    correctAnswer: int,
    explanation: string,
    topic: string)

  /** The four module scores; the model keeps them as integers. */
  datatype OverallScores = OverallScores(
    resume: int,
    aptitude: int,
    technical: int,
    communication: int)

  /** The keys of OverallScores. */
  datatype ScoreKind = ResumeScore | AptitudeScore | TechnicalScore | CommunicationScore

  function ScoreOf(s: OverallScores, k: ScoreKind): int {
    match k
    case ResumeScore => s.resume
    case AptitudeScore => s.aptitude
    case TechnicalScore => s.technical
    case CommunicationScore => s.communication
  }

  /** The record copy `{...s, [k]: v}`: score `k` becomes `v`, no other score moves. */
  function WithScore(s: OverallScores, k: ScoreKind, v: int): (r: OverallScores)
    ensures ScoreOf(r, k) == v
    ensures forall k' :: k' != k ==> ScoreOf(r, k') == ScoreOf(s, k')
  {
    match k
    case ResumeScore => s.(resume := v)
    case AptitudeScore => s.(aptitude := v)
    case TechnicalScore => s.(technical := v)
    case CommunicationScore => s.(communication := v)
  }
}
