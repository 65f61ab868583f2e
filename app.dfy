/**
 * The screen router of src/App.tsx: the current screen, the back stack, the
 * active bottom-navigation tab, the badge modal, and the data the router
 * hands to the session results and mistake detail screens.
 *
 * Navigation data is `any` in the source; here it is a value of the type
 * parameter `D`, and an absent (or falsy) argument is `None`.
 */
module App {
  import opened Wrappers

  datatype Screen =
    | Splash | Onboarding | Home | Capture | CaptureDetails | MistakeDetail | Practice
    | SessionResults | Review | Progress | Settings | EriProgress | EnglishMission | MissionChoice

  datatype Tab = HomeTab | CaptureTab | ReviewTab | ProgressTab

  /** What a screen asks `handleNavigate` for: the badge modal, or a screen. */
  datatype Target = BadgeUnlocked | Go(screen: Screen)

  /** `screensWithBottomNav.includes(currentScreen)`. */
  predicate ShowBottomNav(s: Screen): (r: bool)
    ensures r ==> !IsIntro(s)
  {
    s == Home || s == Review || s == Progress
  }

  /** The screens that are never pushed onto the back stack. */
  predicate IsIntro(s: Screen) {
    s == Splash || s == Onboarding
  }

  /** `tabScreenMap`: each tab opens the screen of the same name. */
  function TabScreen(tab: Tab): (s: Screen)
    ensures !IsIntro(s)
    ensures ShowBottomNav(s) <==> tab != CaptureTab
  {
    match tab
    case HomeTab => Home
    case CaptureTab => Capture
    case ReviewTab => Review
    case ProgressTab => Progress
  }

  /** Different tabs open different screens. */
  lemma TabScreenInjective(t1: Tab, t2: Tab)
    requires TabScreen(t1) == TabScreen(t2)
    ensures t1 == t2
  {
  }

  class Router<D> {
    var currentScreen: Screen
    var activeTab: Tab
    var navigationStack: seq<Screen>
    var selectedMistake: Option<D>
    var showBadgeModal: bool
    var sessionSummary: Option<D>

    /** The back stack never holds the splash or onboarding screen. */
    ghost predicate Valid()
      reads this
    {
      forall i :: 0 <= i < |navigationStack| ==> !IsIntro(navigationStack[i])
    }

    /** The app starts on the splash screen with nothing to go back to. */
    constructor ()
      ensures Valid()
      ensures currentScreen == Splash && activeTab == HomeTab && navigationStack == []
      ensures selectedMistake == None && !showBadgeModal && sessionSummary == None
    {
      currentScreen := Splash;
      activeTab := HomeTab;
      navigationStack := [];
      selectedMistake := None;
      showBadgeModal := false;
      sessionSummary := None;
    }

    /** handleNavigate. */
    method Navigate(target: Target, data: Option<D>)
      requires Valid()
      modifies this
      ensures Valid()
      ensures activeTab == old(activeTab)
      ensures target == BadgeUnlocked ==>
              && showBadgeModal
              && currentScreen == old(currentScreen) && navigationStack == old(navigationStack)
              && selectedMistake == old(selectedMistake) && sessionSummary == old(sessionSummary)
      ensures target.Go? ==>
              && currentScreen == target.screen
              && showBadgeModal == old(showBadgeModal)
              && navigationStack == (if IsIntro(old(currentScreen)) then old(navigationStack)
                                     else old(navigationStack) + [old(currentScreen)])
      ensures target.Go? && data.Some? && target.screen == SessionResults ==>
              sessionSummary == data && selectedMistake == old(selectedMistake)
      ensures target.Go? && data.Some? && target.screen != SessionResults ==>
              selectedMistake == data && sessionSummary == old(sessionSummary)
      ensures target.Go? && data.None? ==>
              selectedMistake == old(selectedMistake) && sessionSummary == old(sessionSummary)
    {
      if target == BadgeUnlocked {
        showBadgeModal := true;
        return;
      }
      if !IsIntro(currentScreen) {
        navigationStack := navigationStack + [currentScreen];
      }
      if target.screen == SessionResults && data.Some? {
        sessionSummary := data;
      } else if data.Some? {
        selectedMistake := data;
      }
      currentScreen := target.screen;
    }

    /** handleBack: pop the last screen, or fall back to home. */
    method Back()
      requires Valid()
      modifies this
      ensures Valid()
      ensures !IsIntro(currentScreen)
      ensures old(navigationStack) != [] ==>
              && currentScreen == old(navigationStack)[|old(navigationStack)| - 1]
              && navigationStack == old(navigationStack)[..|old(navigationStack)| - 1]
              && activeTab == old(activeTab)
      ensures old(navigationStack) == [] ==>
              currentScreen == Home && activeTab == HomeTab && navigationStack == []
      ensures selectedMistake == old(selectedMistake) && sessionSummary == old(sessionSummary)
      ensures showBadgeModal == old(showBadgeModal)
    {
      if |navigationStack| > 0 {
        var previousScreen := navigationStack[|navigationStack| - 1];
        navigationStack := navigationStack[..|navigationStack| - 1];
        currentScreen := previousScreen;
      } else {
        currentScreen := Home;
        activeTab := HomeTab;
      }
    }

    /** handleTabChange: switching tabs forgets the back stack. */
    method TabChange(tab: Tab)
      requires Valid()
      modifies this
      ensures Valid()
      ensures activeTab == tab && navigationStack == [] && currentScreen == TabScreen(tab)
      ensures selectedMistake == old(selectedMistake) && sessionSummary == old(sessionSummary)
      ensures showBadgeModal == old(showBadgeModal)
    {
      activeTab := tab;
      navigationStack := [];
      currentScreen := TabScreen(tab);
    }

    /** The splash screen's onComplete. */
    method SplashComplete()
      requires Valid() && currentScreen == Splash
      modifies this`currentScreen
      ensures Valid() && currentScreen == Onboarding
    {
      currentScreen := Onboarding;
    }

    /** The onboarding screen's onComplete. */
    method OnboardingComplete()
      requires Valid() && currentScreen == Onboarding
      modifies this`currentScreen, this`activeTab
      ensures Valid() && currentScreen == Home && activeTab == HomeTab
    {
      currentScreen := Home;
      activeTab := HomeTab;
    }

    /** The badge modal's onClose. */
    method CloseBadgeModal()
      modifies this`showBadgeModal
      ensures !showBadgeModal
    {
      showBadgeModal := false;
    }
  }

  /** Going to a screen and back again returns to where the user was, with
      the same back stack. */
  method NavigateAndBack<D>(r: Router<D>, screen: Screen, data: Option<D>)
    requires r.Valid() && !IsIntro(r.currentScreen)
    modifies r
    ensures r.Valid()
    ensures r.currentScreen == old(r.currentScreen) && r.navigationStack == old(r.navigationStack)
    ensures r.activeTab == old(r.activeTab)
  {
    r.Navigate(Go(screen), data);
    r.Back();
  }

  /** From launch, the splash and onboarding screens lead to home with the
      bottom navigation on, and are never reachable again by going back. */
  method Launch<D>() returns (r: Router<D>)
    ensures fresh(r) && r.Valid()
    ensures r.currentScreen == Home && r.activeTab == HomeTab && r.navigationStack == []
    ensures ShowBottomNav(r.currentScreen)
  {
    r := new Router<D>();
    r.SplashComplete();
    r.OnboardingComplete();
  }
}
