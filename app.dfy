/** The application shell: which screen is shown, the student's profile and the
    four module scores, and the handlers that move between screens. */
module App {
  import opened Types

  const InitialUser: UserProfile :=
    UserProfile("Student User", "student@example.com", None, "")

  const InitialScores: OverallScores := OverallScores(0, 0, 0, 0)

  /** The top navigation bar is drawn on every screen except the login screen. */
  predicate ShowsTopBar(v: AppState) {
    v != Login
  }

  /** The screens that host a module with its own cancel button. */
  predicate IsModuleScreen(v: AppState) {
    v == ResumeAnalysis || v == AptitudeTest || v == TechAssessment || v == CommunicationCoach
  }

  class Shell {
    var appState: AppState
    var user: UserProfile
    var scores: OverallScores

    constructor ()
      ensures appState == Login && !ShowsTopBar(appState)
      ensures user == InitialUser && user.targetRole == None
      ensures scores == InitialScores
      ensures forall k :: ScoreOf(scores, k) == 0
    {
      appState := Login;
      user := InitialUser;
      scores := InitialScores;
    }

    /** Signing in leads to the role choice. */
    method HandleLogin()
      modifies this
      ensures appState == RoleSelection && ShowsTopBar(appState)
      ensures user == old(user) && scores == old(scores)
    {
      appState := RoleSelection;
    }

    /** Choosing a role records it, keeps the rest of the profile, and opens the dashboard. */
    method HandleRoleSelect(role: JobRole)
      modifies this
      ensures user.targetRole == Some(role)
      ensures user.name == old(user.name) && user.email == old(user.email)
      ensures user.resumeText == old(user.resumeText)
      ensures scores == old(scores) && appState == Dashboard
    {
      user := user.(targetRole := Some(role));
      appState := Dashboard;
    }

    /** Stores one module's score and returns to the dashboard. */
    method UpdateScore(k: ScoreKind, score: int)
      modifies this
      ensures scores == WithScore(old(scores), k, score)
      ensures ScoreOf(scores, k) == score
      ensures forall k' :: k' != k ==> ScoreOf(scores, k') == ScoreOf(old(scores), k')
      ensures user == old(user) && appState == Dashboard
    {
      scores := WithScore(scores, k, score);
      appState := Dashboard;
    }

    /** A finished resume analysis keeps the reported resume content and its
        score. The result may arrive after the student has left the screen, so
        any screen may be showing; `captured` is the profile as it was when the
        analysis was started, which is what gets written back. */
    method OnResumeAnalyzed(captured: UserProfile, result: AtsResult, text: string)
      modifies this
      ensures user == captured.(resumeText := text)
      ensures user.name == captured.name && user.email == captured.email
      ensures user.targetRole == captured.targetRole && user.resumeText == text
      ensures scores == WithScore(old(scores), ResumeScore, result.score)
      ensures appState == Dashboard
    {
      user := captured.(resumeText := text);
      UpdateScore(ResumeScore, result.score);
    }

    /** A finished aptitude test or technical assessment stores its score under its own key. */
    method OnAssessmentComplete(score: int)
      requires appState == AptitudeTest || appState == TechAssessment
      modifies this
      ensures old(appState) == AptitudeTest ==> scores == WithScore(old(scores), AptitudeScore, score)
      ensures old(appState) == TechAssessment ==> scores == WithScore(old(scores), TechnicalScore, score)
      ensures user == old(user) && appState == Dashboard
    {
      if appState == AptitudeTest {
        UpdateScore(AptitudeScore, score);
      } else {
        UpdateScore(TechnicalScore, score);
      }
    }

    /** A finished interview stores the communication score. The coach also
        reports when it is torn down mid-interview, so any screen may be showing. */
    method OnCoachComplete(score: int)
      modifies this
      ensures scores == WithScore(old(scores), CommunicationScore, score)
      ensures user == old(user) && appState == Dashboard
    {
      UpdateScore(CommunicationScore, score);
    }

    /** Cancelling any module returns to the dashboard and changes nothing else. */
    method Cancel()
      requires IsModuleScreen(appState)
      modifies this
      ensures appState == Dashboard && user == old(user) && scores == old(scores)
    {
      appState := Dashboard;
    }

    /** A dashboard card opens the screen it names. */
    method Navigate(view: AppState)
      requires appState == Dashboard
      modifies this
      ensures appState == view && user == old(user) && scores == old(scores)
    {
      appState := view;
    }

    /** The logo in the top bar leads back to the dashboard. */
    method GoHome()
      requires ShowsTopBar(appState)
      modifies this
      ensures appState == Dashboard && user == old(user) && scores == old(scores)
    {
      appState := Dashboard;
    }

    /** Logging out returns to the login screen and keeps the profile and scores. */
    method Logout()
      requires ShowsTopBar(appState)
      modifies this
      ensures appState == Login && !ShowsTopBar(appState)
      ensures user == old(user) && scores == old(scores)
    {
      appState := Login;
    }
  }
}
