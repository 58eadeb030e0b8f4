/** The root component of App.tsx: swipe navigation over a fixed order of screens,
    the gesture threshold, the login guard, the in-memory issue list, the translation
    lookup and the screen dispatch. Rendering and styling are not modelled. */
module App {
  import opened Common

  /** The screens reachable by swiping, left to right. */
  const ScreenOrder: seq<string> := ["dashboard", "events", "reports", "issues", "video", "settings"]

  lemma ScreenOrderDistinct()
    ensures Distinct(ScreenOrder)
  {
  }

  /** Where a left swipe leads from `current`. A screen outside the order has index -1,
      which is below the last index, so the swipe lands on the first screen of the order. */
  function NextScreen(current: string): (next: string)
    ensures next in ScreenOrder
  {
    var i := IndexOf(ScreenOrder, current);
    if i < |ScreenOrder| - 1 then ScreenOrder[i + 1] else current
  }

  /** Where a right swipe leads from `current`: the previous screen of the order, if any. */
  function PrevScreen(current: string): (prev: string)
    ensures prev in ScreenOrder || prev == current
  {
    var i := IndexOf(ScreenOrder, current);
    if i > 0 then ScreenOrder[i - 1] else current
  }

  lemma {:induction false} NextScreenAdvances(k: nat)
    requires k < |ScreenOrder| - 1
    ensures NextScreen(ScreenOrder[k]) == ScreenOrder[k + 1]
  {
    ScreenOrderDistinct();
    IndexOfDistinct(ScreenOrder, k);
  }

  lemma NextScreenStopsAtLast()
    ensures NextScreen("settings") == "settings"
  {
    ScreenOrderDistinct();
    IndexOfDistinct(ScreenOrder, |ScreenOrder| - 1);
  }

  /** The index -1 quirk: from any screen outside the order, 'welcome' and 'login'
      included, a left swipe opens the dashboard without going through login. */
  lemma NextScreenOutsideOrder(current: string)
    requires current !in ScreenOrder
    ensures NextScreen(current) == "dashboard"
  {
  }

  lemma {:induction false} PrevScreenRetreats(k: nat)
    requires 0 < k < |ScreenOrder|
    ensures PrevScreen(ScreenOrder[k]) == ScreenOrder[k - 1]
  {
    ScreenOrderDistinct();
    IndexOfDistinct(ScreenOrder, k);
  }

  lemma PrevScreenStaysPut(current: string)
    requires current == "dashboard" || current !in ScreenOrder
    ensures PrevScreen(current) == current
  {
  }

  /** Inside the order, except on its last screen, a right swipe undoes a left swipe. */
  lemma {:induction false} SwipeLeftThenRight(k: nat)
    requires k < |ScreenOrder| - 1
    ensures PrevScreen(NextScreen(ScreenOrder[k])) == ScreenOrder[k]
  {
    NextScreenAdvances(k);
    PrevScreenRetreats(k + 1);
  }

  /** Inside the order, except on its first screen, a left swipe undoes a right swipe. */
  lemma {:induction false} SwipeRightThenLeft(k: nat)
    requires 0 < k < |ScreenOrder|
    ensures NextScreen(PrevScreen(ScreenOrder[k])) == ScreenOrder[k]
  {
    PrevScreenRetreats(k);
    NextScreenAdvances(k - 1);
  }

  /** The states a pan gesture handler reports (react-native-gesture-handler's `State`). */
  datatype GestureState = Undetermined | Failed | Began | Cancelled | Active | End

  datatype Swipe = SwipeLeft | SwipeRight | NoSwipe

  /** Which swipe a gesture event triggers: only a finished gesture counts, and only when
      its horizontal travel exceeds 50 points in either direction. */
  function GestureSwipe(state: GestureState, translationX: real): (s: Swipe)
    ensures s == SwipeRight <==> state == End && translationX > 50.0
    ensures s == SwipeLeft <==> state == End && translationX < -50.0
    ensures -50.0 <= translationX <= 50.0 ==> s == NoSwipe
  {
    if state != End then NoSwipe
    else if translationX > 50.0 then SwipeRight
    else if translationX < -50.0 then SwipeLeft
    else NoSwipe
  }

  /** The characters `String.prototype.trim` removes: white space and line terminators. */
  predicate IsTrimmed(c: char) {
    || c == '\t' || c == '\n' || c == '\U{0B}' || c == '\U{0C}' || c == '\r'
    || c == ' ' || c == '\U{A0}' || c == '\U{1680}' || ('\U{2000}' <= c <= '\U{200A}')
    || c == '\U{2028}' || c == '\U{2029}' || c == '\U{202F}' || c == '\U{205F}'
    || c == '\U{3000}' || c == '\U{FEFF}'
  }

  /** Every character of `s` is one that trim removes. */
  predicate IsBlank(s: string) {
    forall i :: 0 <= i < |s| ==> IsTrimmed(s[i])
  }

  function TrimStart(s: string): (r: string)
    ensures |r| <= |s| && r == s[|s| - |r|..]
    ensures IsBlank(s[..|s| - |r|])
    ensures r != [] ==> !IsTrimmed(r[0])
  {
    if s != [] && IsTrimmed(s[0]) then
      var r := TrimStart(s[1..]);
      assert s[..|s| - |r|] == [s[0]] + s[1..][..|s| - 1 - |r|];
      r
    else s
  }

  function TrimEnd(s: string): (r: string)
    ensures |r| <= |s| && r == s[..|r|]
    ensures IsBlank(s[|r|..])
    ensures r != [] ==> !IsTrimmed(r[|r| - 1])
  {
    if s != [] && IsTrimmed(s[|s| - 1]) then
      var r := TrimEnd(s[..|s| - 1]);
      assert s[|r|..] == s[..|s| - 1][|r|..] + [s[|s| - 1]];
      r
    else s
  }

  /** `String.prototype.trim`. */
  function Trim(s: string): (r: string)
    ensures |r| <= |s|
    ensures r == "" <==> IsBlank(s)
    ensures r != [] ==> !IsTrimmed(r[0]) && !IsTrimmed(r[|r| - 1])
  {
    TrimEmptyIffBlank(s);
    TrimEnd(TrimStart(s))
  }

  /** `newIssue.trim()` is falsy exactly when the text is empty or only white space. */
  lemma TrimEmptyIffBlank(s: string)
    ensures TrimEnd(TrimStart(s)) == "" <==> IsBlank(s)
  {
    var t := TrimStart(s);
    if t != "" {
      assert !IsTrimmed(t[0]);
      assert t[0..] == t;
      assert s[|s| - |t|] == t[0];
    } else {
      assert s[..|s|] == s;
    }
  }

  /** `t(key)`: the entry for `key` in the selected language's table, or `key` itself when
      the language or the key is missing, or the entry is the empty string (`|| key`). */
  function Translate(translations: map<string, map<string, string>>, language: string, key: string): (r: string)
    ensures language in translations && key in translations[language] && translations[language][key] != "" ==>
              r == translations[language][key]
    ensures language in translations && key in translations[language] && translations[language][key] == "" ==>
              r == key
    ensures !(language in translations && key in translations[language]) ==> r == key
  {
    if language in translations && key in translations[language] && translations[language][key] != ""
    then translations[language][key]
    else key
  }

  /** A label never comes out empty for a non-empty key. */
  lemma TranslateNeverEmpty(translations: map<string, map<string, string>>, language: string, key: string)
    requires key != ""
    ensures Translate(translations, language, key) != ""
  {
  }

  /** The screens `renderCurrentScreen` can draw. */
  datatype View = WelcomeView | LoginView | DashboardView | EventsView | ReportsView
                | IssuesView | VideoView | SettingsView

  /** `renderCurrentScreen`: the view drawn for a screen name; unknown names draw the welcome screen. */
  function RenderedView(screen: string): (v: View)
    ensures screen in KnownScreens ==> ScreenName(v) == screen
    ensures screen !in KnownScreens ==> v == WelcomeView
  {
    match screen
    case "welcome" => WelcomeView
    case "login" => LoginView
    case "dashboard" => DashboardView
    case "events" => EventsView
    case "reports" => ReportsView
    case "issues" => IssuesView
    case "video" => VideoView
    case "settings" => SettingsView
    case _ => WelcomeView
  }

  /** The screen name that selects each view. */
  function ScreenName(v: View): (screen: string)
    ensures screen in KnownScreens
  {
    match v
    case WelcomeView => "welcome"
    case LoginView => "login"
    case DashboardView => "dashboard"
    case EventsView => "events"
    case ReportsView => "reports"
    case IssuesView => "issues"
    case VideoView => "video"
    case SettingsView => "settings"
  }

  const KnownScreens: set<string> := {"welcome", "login", "dashboard", "events", "reports", "issues", "video", "settings"}

  /** Each view is drawn for its own name, and only names of views are known screens. */
  lemma RenderRoundTrip(v: View)
    ensures RenderedView(ScreenName(v)) == v
    ensures ScreenName(v) in KnownScreens
  {
  }

  lemma RenderUnknownIsWelcome(screen: string)
    requires screen !in KnownScreens
    ensures RenderedView(screen) == WelcomeView
  {
  }

  /** Every screen of the swipe order is drawn by its own, non-welcome view. */
  lemma {:induction false} SwipeScreensRender(k: nat)
    requires k < |ScreenOrder|
    ensures ScreenName(RenderedView(ScreenOrder[k])) == ScreenOrder[k]
    ensures RenderedView(ScreenOrder[k]) != WelcomeView
  {
    assert ScreenOrder[k] in ScreenOrder;
  }

  /** One entry of the in-memory issue list. */
  datatype Issue = Issue(id: int, text: string, date: string)

  /** The component's state (its `useState` hooks). */
  class AppState {
    var currentScreen: string
    var email: string
    var password: string
    var issues: seq<Issue>
    var newIssue: string
    var isDarkMode: bool
    var selectedLanguage: string

    constructor ()
      ensures currentScreen == "welcome" && email == "" && password == ""
      ensures issues == [] && newIssue == "" && isDarkMode && selectedLanguage == "English"
    {
      currentScreen := "welcome";
      email, password := "", "";
      issues, newIssue := [], "";
      isDarkMode := true;
      selectedLanguage := "English";
    }

    /** `handleSwipeLeft`. */
    method HandleSwipeLeft()
      modifies this`currentScreen
      ensures currentScreen == NextScreen(old(currentScreen))
    {
      var i := IndexOf(ScreenOrder, currentScreen);
      if i < |ScreenOrder| - 1 {
        currentScreen := ScreenOrder[i + 1];
      }
    }

    /** `handleSwipeRight`. */
    method HandleSwipeRight()
      modifies this`currentScreen
      ensures currentScreen == PrevScreen(old(currentScreen))
    {
      var i := IndexOf(ScreenOrder, currentScreen);
      if i > 0 {
        currentScreen := ScreenOrder[i - 1];
      }
    }

    /** `onGestureEvent`: a finished pan swipes by its horizontal travel. */
    method OnGestureEvent(state: GestureState, translationX: real)
      modifies this`currentScreen
      ensures GestureSwipe(state, translationX) == SwipeRight ==> currentScreen == PrevScreen(old(currentScreen))
      ensures GestureSwipe(state, translationX) == SwipeLeft ==> currentScreen == NextScreen(old(currentScreen))
      ensures GestureSwipe(state, translationX) == NoSwipe ==> currentScreen == old(currentScreen)
    {
      if state == End {
        if translationX > 50.0 {
          HandleSwipeRight();
        } else if translationX < -50.0 {
          HandleSwipeLeft();
        }
      }
    }

    /** `handleLogin`: opens the dashboard only when both fields are non-empty. */
    method HandleLogin()
      modifies this`currentScreen
      ensures email != "" && password != "" ==> currentScreen == "dashboard"
      ensures email == "" || password == "" ==> currentScreen == old(currentScreen)
    {
      if email != "" && password != "" {
        currentScreen := "dashboard";
      }
    }

    /** `handleSubmitIssue`, with `Date.now()` and the formatted date given as `now` and `today`:
        blank text changes nothing; other text is appended untrimmed and the input is cleared. */
    method HandleSubmitIssue(now: int, today: string)
      modifies this`issues, this`newIssue
      ensures IsBlank(old(newIssue)) ==> issues == old(issues) && newIssue == old(newIssue)
      ensures !IsBlank(old(newIssue)) ==> issues == old(issues) + [Issue(now, old(newIssue), today)] && newIssue == ""
    {
      if Trim(newIssue) != "" {
        issues := issues + [Issue(now, newIssue, today)];
        newIssue := "";
      }
    }

    /** `t(key)` for the selected language. */
    function T(translations: map<string, map<string, string>>, key: string): (r: string)
      reads this
      ensures key != "" ==> r != ""
    {
      Translate(translations, selectedLanguage, key)
    }
  }
}
