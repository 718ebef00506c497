/**
 * The vault page (app/page.tsx): which screen is shown, which of the three
 * modals is open, and what the user last selected. Every handler the page
 * passes to a view is an event that overwrites some of those fields.
 *
 * `PageState` and `Step` are the specification; the class `VaultPage` holds
 * the seven state fields and has one method per handler, each proved to
 * perform `Step`. `Enabled` says which events the views rendered in a state
 * can raise; traces are sequences of enabled events from the initial state.
 */
module Navigation {
  import opened Wrappers
  import opened FolderSheet

  datatype Screen = Onboarding | Auth | Dashboard | Settings | Folder | Viewer | Activity | FolderDetail

  /** The item kinds the folder detail view offers to add. */
  datatype ItemKind = TextItem | VoiceItem | PhotoItem | ScanItem

  /**
   * The seven state fields. `selectedFolderSecurity` is declared in the
   * source as a security level but holds whatever string its setter was
   * given, so it is a string here.
   */
  datatype PageState = PageState(
    currentScreen: Screen,
    showRestrictedModal: bool,
    showNewFolderSheet: bool,
    showIdentityModal: bool,
    selectedFolder: string,
    selectedFile: string,
    selectedFolderSecurity: string)

  const SecurityLevels: set<string> := {"standard", "enhanced", "maximum"}

  const Initial: PageState := PageState(Onboarding, false, false, false, "", "", "enhanced")

  datatype Event =
    | OnboardingComplete                      // Onboarding's onComplete
    | Authenticate                            // handleAuthenticate
    | FolderClick(folderName: string)         // handleFolderClick
    | UnlockFolder                            // handleUnlockFolder
    | CloseRestrictedModal                    // RestrictedAccessModal's onClose
    | SettingsClick                           // handleSettingsClick
    | ActivityClick                           // handleActivityClick
    | BackToDashboard                         // handleBackToDashboard
    | FileClick(fileName: string)             // handleFileClick
    | IdentityVerified                        // handleIdentityVerified
    | CloseIdentityModal                      // IdentityVerificationModal's onClose
    | ViewerBack                              // SecureViewer's onBack
    | LockDocument                            // handleLockDocument
    | NewFolderClick                          // Dashboard's onNewFolderClick
    | CloseNewFolderSheet                     // NewFolderSheet's onClose
    | CreateFolder(folderName: string, securityLevel: string)  // handleCreateFolder
    | AddItem(kind: ItemKind)                 // handleAddItemToFolder

  /**
   * Which events the rendered views can raise in state `s`: a screen's
   * callbacks while that screen is current, a modal's callbacks while its
   * flag is set. No view receives `handleActivityClick`.
   */
  predicate Enabled(s: PageState, e: Event) {
    match e
    case OnboardingComplete => s.currentScreen == Onboarding
    case Authenticate => s.currentScreen == Auth
    case FolderClick(_) => s.currentScreen == Dashboard
    case SettingsClick => s.currentScreen == Dashboard
    case NewFolderClick => s.currentScreen == Dashboard
    case ActivityClick => false
    case BackToDashboard => s.currentScreen in {Settings, Folder, Activity, FolderDetail}
    case FileClick(_) => s.currentScreen == Folder
    case ViewerBack => s.currentScreen == Viewer
    case LockDocument => s.currentScreen == Viewer
    case AddItem(_) => s.currentScreen == FolderDetail
    case UnlockFolder => s.showRestrictedModal
    case CloseRestrictedModal => s.showRestrictedModal
    case IdentityVerified => s.showIdentityModal
    case CloseIdentityModal => s.showIdentityModal
    case CreateFolder(_, _) => s.showNewFolderSheet
    case CloseNewFolderSheet => s.showNewFolderSheet
  }

  /** What each handler writes. */
  function Step(s: PageState, e: Event): PageState {
    match e
    case OnboardingComplete => s.(currentScreen := Auth)
    case Authenticate => s.(currentScreen := Dashboard)
    case FolderClick(name) => s.(selectedFolder := name, showRestrictedModal := true)
    case UnlockFolder => s.(showRestrictedModal := false, currentScreen := Folder)
    case CloseRestrictedModal => s.(showRestrictedModal := false)
    case SettingsClick => s.(currentScreen := Settings)
    case ActivityClick => s.(currentScreen := Activity)
    case BackToDashboard => s.(currentScreen := Dashboard)
    case FileClick(name) => s.(selectedFile := name, showIdentityModal := true)
    case IdentityVerified => s.(showIdentityModal := false, currentScreen := Viewer)
    case CloseIdentityModal => s.(showIdentityModal := false)
    case ViewerBack => s.(currentScreen := Folder)
    case LockDocument => s.(currentScreen := Folder)
    case NewFolderClick => s.(showNewFolderSheet := true)
    case CloseNewFolderSheet => s.(showNewFolderSheet := false)
    case CreateFolder(name, level) =>
      s.(selectedFolder := name, selectedFolderSecurity := level, currentScreen := FolderDetail)
    case AddItem(_) => s
  }

  /** The state after the events of `t`, in order. */
  function Run(s: PageState, t: seq<Event>): PageState
    decreases |t|
  {
    if t == [] then s else Step(Run(s, t[..|t| - 1]), t[|t| - 1])
  }

  /** Every event of `t` is enabled in the state it is raised in. */
  predicate ValidTrace(s: PageState, t: seq<Event>)
    decreases |t|
  {
    t == [] || (ValidTrace(s, t[..|t| - 1]) && Enabled(Run(s, t[..|t| - 1]), t[|t| - 1]))
  }

  /** What holds in every reachable state. */
  predicate Inv(s: PageState) {
    && s.currentScreen != Activity
    && (s.currentScreen in {Onboarding, Auth} ==>
          !s.showRestrictedModal && !s.showNewFolderSheet && !s.showIdentityModal)
  }

  lemma StepPreservesInv(s: PageState, e: Event)
    requires Inv(s) && Enabled(s, e)
    ensures Inv(Step(s, e))
  {
  }

  /** Every state a trace reaches satisfies `Inv`. */
  lemma {:induction false} TraceInv(t: seq<Event>)
    requires ValidTrace(Initial, t)
    ensures Inv(Run(Initial, t))
  {
    if t != [] {
      TraceInv(t[..|t| - 1]);
      StepPreservesInv(Run(Initial, t[..|t| - 1]), t[|t| - 1]);
    }
  }

  /** The activity screen is never shown: no view can raise the event that selects it. */
  lemma {:induction false} ActivityUnreachable(t: seq<Event>)
    requires ValidTrace(Initial, t)
    ensures Run(Initial, t).currentScreen != Activity
  {
    TraceInv(t);
  }

  /** In a reachable state on the onboarding screen, the only event is onComplete, and it leads to `auth`. */
  lemma OnboardingLeadsOnlyToAuth(s: PageState, e: Event)
    requires Inv(s) && s.currentScreen == Onboarding && Enabled(s, e)
    ensures e == OnboardingComplete && Step(s, e).currentScreen == Auth
  {
  }

  /** In a reachable state on the auth screen, the only event is authenticate, and it leads to `dashboard`. */
  lemma OnlyAuthenticateLeavesAuth(s: PageState, e: Event)
    requires Inv(s) && s.currentScreen == Auth && Enabled(s, e)
    ensures e == Authenticate && Step(s, e).currentScreen == Dashboard
  {
  }

  /** `t` raises onComplete at some position and authenticate at a later one. */
  ghost predicate OnboardedThenAuthenticated(t: seq<Event>) {
    exists i, j :: 0 <= i < j < |t| && t[i] == OnboardingComplete && t[j] == Authenticate
  }

  /**
   * Any trace that leaves the onboarding and auth screens (to the dashboard
   * or anything behind it) completed onboarding and then authenticated.
   */
  lemma {:induction false} DashboardNeedsOnboardingThenAuth(t: seq<Event>)
    requires ValidTrace(Initial, t)
    ensures Run(Initial, t).currentScreen != Onboarding ==> OnboardingComplete in t
    ensures Run(Initial, t).currentScreen !in {Onboarding, Auth} ==> OnboardedThenAuthenticated(t)
  {
    if t != [] {
      var p := t[..|t| - 1];
      var e := t[|t| - 1];
      var s := Run(Initial, p);
      DashboardNeedsOnboardingThenAuth(p);
      TraceInv(p);
      assert t == p + [e];
      if s.currentScreen != Onboarding {
        assert OnboardingComplete in p;
      }
      if s.currentScreen !in {Onboarding, Auth} {
        var i, j :| 0 <= i < j < |p| && p[i] == OnboardingComplete && p[j] == Authenticate;
        assert t[i] == OnboardingComplete && t[j] == Authenticate;
      } else if s.currentScreen == Auth && Run(Initial, t).currentScreen != Auth {
        var i :| 0 <= i < |p| && p[i] == OnboardingComplete;
        assert t[i] == OnboardingComplete && t[|t| - 1] == Authenticate;
      }
    }
  }

  /** Only identity verification enters the viewer from another screen. */
  lemma ViewerOnlyThroughVerification(s: PageState, e: Event)
    requires Enabled(s, e) && s.currentScreen != Viewer && Step(s, e).currentScreen == Viewer
    ensures e == IdentityVerified && s.showIdentityModal
  {
  }

  /** `t` clicks some file and later completes identity verification. */
  ghost predicate ClickedThenVerified(t: seq<Event>) {
    exists i, j :: 0 <= i < j < |t| && t[i].FileClick? && t[j] == IdentityVerified
  }

  /** `t` clicks some folder and later unlocks it. */
  ghost predicate ClickedThenUnlocked(t: seq<Event>) {
    exists i, j :: 0 <= i < j < |t| && t[i].FolderClick? && t[j] == UnlockFolder
  }

  /**
   * Folder contents (and anything opened from them) are shown only after a
   * folder click followed by an unlock.
   */
  lemma {:induction false} FolderNeedsClickThenUnlock(t: seq<Event>)
    requires ValidTrace(Initial, t)
    ensures Run(Initial, t).showRestrictedModal ==> exists i :: 0 <= i < |t| && t[i].FolderClick?
    ensures Run(Initial, t).showIdentityModal || Run(Initial, t).currentScreen in {Folder, Viewer} ==>
      ClickedThenUnlocked(t)
  {
    if t != [] {
      var p := t[..|t| - 1];
      var e := t[|t| - 1];
      var s := Run(Initial, p);
      var s' := Run(Initial, t);
      FolderNeedsClickThenUnlock(p);
      if s'.showRestrictedModal && !e.FolderClick? {
        var i :| 0 <= i < |p| && p[i].FolderClick?;
        assert t[i] == p[i];
      }
      if s'.showIdentityModal || s'.currentScreen in {Folder, Viewer} {
        if s.showIdentityModal || s.currentScreen in {Folder, Viewer} {
          var i, j :| 0 <= i < j < |p| && p[i].FolderClick? && p[j] == UnlockFolder;
          assert t[i] == p[i] && t[j] == p[j];
        } else {
          assert e == UnlockFolder;
          var i :| 0 <= i < |p| && p[i].FolderClick?;
          assert t[i] == p[i];
        }
      }
    }
  }

  /** The viewer is shown only after a file click followed by identity verification. */
  lemma {:induction false} ViewerNeedsUnlockAndVerification(t: seq<Event>)
    requires ValidTrace(Initial, t)
    ensures Run(Initial, t).showIdentityModal ==> exists i :: 0 <= i < |t| && t[i].FileClick?
    ensures Run(Initial, t).currentScreen == Viewer ==> ClickedThenVerified(t)
  {
    if t != [] {
      var p := t[..|t| - 1];
      var e := t[|t| - 1];
      var s := Run(Initial, p);
      var s' := Run(Initial, t);
      ViewerNeedsUnlockAndVerification(p);
      if s'.showIdentityModal && !e.FileClick? {
        var i :| 0 <= i < |p| && p[i].FileClick?;
        assert t[i] == p[i];
      }
      if s'.currentScreen == Viewer {
        if s.currentScreen == Viewer {
          var i, j :| 0 <= i < j < |p| && p[i].FileClick? && p[j] == IdentityVerified;
          assert t[i] == p[i] && t[j] == p[j];
        } else {
          var i :| 0 <= i < |p| && p[i].FileClick?;
          assert t[i] == p[i];
        }
      }
    }
  }

  /**
   * Creating a folder from the sheet (onCreate, then onClose) opens that
   * folder's detail screen with the sheet closed, and leaves the folder
   * type's id in `selectedFolderSecurity`, which is not a security level.
   */
  lemma SheetCreateOpensFolderDetail(s: PageState, name: string, t: FolderType)
    requires s.showNewFolderSheet
    ensures var create := [CreateFolder(name, TypeId(t)), CloseNewFolderSheet];
      && ValidTrace(s, create)
      && Run(s, create).currentScreen == FolderDetail
      && !Run(s, create).showNewFolderSheet
      && Run(s, create).selectedFolder == name
      && Run(s, create).selectedFolderSecurity == TypeId(t)
      && Run(s, create).selectedFolderSecurity !in SecurityLevels
  {
    var e1 := CreateFolder(name, TypeId(t));
    var s1 := Step(s, e1);
    Extend(s, [], e1);
    assert [] + [e1] == [e1];
    assert Run(s, [e1]) == s1;
    Extend(s, [e1], CloseNewFolderSheet);
    assert [e1] + [CloseNewFolderSheet] == [e1, CloseNewFolderSheet];
  }

  /** Appending an enabled event to a valid trace. */
  lemma Extend(s: PageState, t: seq<Event>, e: Event)
    requires ValidTrace(s, t) && Enabled(Run(s, t), e)
    ensures ValidTrace(s, t + [e]) && Run(s, t + [e]) == Step(Run(s, t), e)
  {
    assert (t + [e])[..|t|] == t;
  }

  /** A valid trace from the initial state, extended by one enabled event. */
  lemma Then(t: seq<Event>, e: Event) returns (t': seq<Event>)
    requires ValidTrace(Initial, t) && Enabled(Run(Initial, t), e)
    ensures ValidTrace(Initial, t') && Run(Initial, t') == Step(Run(Initial, t), e)
  {
    Extend(Initial, t, e);
    t' := t + [e];
  }

  /** Every screen except `activity` is shown at the end of some trace. */
  lemma EveryScreenButActivityReachable(sc: Screen)
    requires sc != Activity
    ensures exists t :: ValidTrace(Initial, t) && Run(Initial, t).currentScreen == sc
  {
    var t0: seq<Event> := [];
    assert ValidTrace(Initial, t0) && Run(Initial, t0) == Initial;
    if sc == Onboarding { return; }
    var t1 := Then(t0, OnboardingComplete);
    if sc == Auth { return; }
    var t2 := Then(t1, Authenticate);
    if sc == Dashboard { return; }
    if sc == Settings {
      var t3 := Then(t2, SettingsClick);
      return;
    }
    if sc == FolderDetail {
      var t3 := Then(t2, NewFolderClick);
      var t4 := Then(t3, CreateFolder("f", "documentos"));
      return;
    }
    var t3 := Then(t2, FolderClick("f"));
    var t4 := Then(t3, UnlockFolder);
    if sc == Folder { return; }
    var t5 := Then(t4, FileClick("x"));
    var t6 := Then(t5, IdentityVerified);
  }

  /** The callbacks only the dashboard's rendered grid and header can raise. */
  predicate DashboardEvent(e: Event) {
    e.FolderClick? || e == SettingsClick || e == NewFolderClick
  }

  /**
   * The page as written: it renders the dashboard without `folders`, whose
   * first render fails before any dashboard callback exists. Without
   * dashboard events the page never gets past `dashboard`, and no modal or
   * sheet ever opens.
   */
  lemma {:induction false} AsWrittenStopsAtDashboard(t: seq<Event>)
    requires ValidTrace(Initial, t)
    requires forall i :: 0 <= i < |t| ==> !DashboardEvent(t[i])
    ensures Run(Initial, t).currentScreen in {Onboarding, Auth, Dashboard}
    ensures !Run(Initial, t).showRestrictedModal && !Run(Initial, t).showIdentityModal
    ensures !Run(Initial, t).showNewFolderSheet
  {
    if t != [] {
      var p := t[..|t| - 1];
      assert forall i :: 0 <= i < |p| ==> p[i] == t[i];
      AsWrittenStopsAtDashboard(p);
    }
  }

  class VaultPage {
    var currentScreen: Screen
    var showRestrictedModal: bool
    var showNewFolderSheet: bool
    var showIdentityModal: bool
    var selectedFolder: string
    var selectedFile: string
    var selectedFolderSecurity: string

    function State(): PageState
      reads this
    {
      PageState(currentScreen, showRestrictedModal, showNewFolderSheet, showIdentityModal,
                selectedFolder, selectedFile, selectedFolderSecurity)
    }

    /** Onboarding screen, no modal open, nothing selected, security `enhanced`. */
    constructor ()
      ensures State() == Initial
    {
      currentScreen := Onboarding;
      showRestrictedModal, showNewFolderSheet, showIdentityModal := false, false, false;
      selectedFolder, selectedFile := "", "";
      selectedFolderSecurity := "enhanced";
    }

    /** Onboarding's `onComplete`. */
    method CompleteOnboarding()
      requires Enabled(State(), OnboardingComplete)
      modifies this
      ensures State() == Step(old(State()), OnboardingComplete)
    {
      currentScreen := Auth;
    }

    method HandleAuthenticate()
      requires Enabled(State(), Authenticate)
      modifies this
      ensures State() == Step(old(State()), Authenticate)
    {
      currentScreen := Dashboard;
    }

    method HandleFolderClick(folderName: string)
      requires Enabled(State(), FolderClick(folderName))
      modifies this
      ensures State() == Step(old(State()), FolderClick(folderName))
      ensures currentScreen == old(currentScreen)
    {
      selectedFolder := folderName;
      showRestrictedModal := true;
    }

    method HandleUnlockFolder()
      requires Enabled(State(), UnlockFolder)
      modifies this
      ensures State() == Step(old(State()), UnlockFolder)
    {
      showRestrictedModal := false;
      currentScreen := Folder;
    }

    /** RestrictedAccessModal's `onClose`: clears that modal's flag and nothing else. */
    method CloseRestricted()
      requires Enabled(State(), CloseRestrictedModal)
      modifies this
      ensures State() == old(State()).(showRestrictedModal := false)
    {
      showRestrictedModal := false;
    }

    method HandleSettingsClick()
      requires Enabled(State(), SettingsClick)
      modifies this
      ensures State() == Step(old(State()), SettingsClick)
    {
      currentScreen := Settings;
    }

    /** Defined in the source but handed to no view: nothing can raise it. */
    method HandleActivityClick()
      modifies this
      ensures State() == Step(old(State()), ActivityClick)
    {
      currentScreen := Activity;
    }

    /** The `onBack` of settings, folder contents, activity and folder detail. */
    method HandleBackToDashboard()
      requires Enabled(State(), BackToDashboard)
      modifies this
      ensures State() == Step(old(State()), BackToDashboard)
      ensures currentScreen == Dashboard
    {
      currentScreen := Dashboard;
    }

    method HandleFileClick(fileName: string)
      requires Enabled(State(), FileClick(fileName))
      modifies this
      ensures State() == Step(old(State()), FileClick(fileName))
      ensures currentScreen == old(currentScreen)
    {
      selectedFile := fileName;
      showIdentityModal := true;
    }

    method HandleIdentityVerified()
      requires Enabled(State(), IdentityVerified)
      modifies this
      ensures State() == Step(old(State()), IdentityVerified)
    {
      showIdentityModal := false;
      currentScreen := Viewer;
    }

    /** IdentityVerificationModal's `onClose`: clears that modal's flag and nothing else. */
    method CloseIdentity()
      requires Enabled(State(), CloseIdentityModal)
      modifies this
      ensures State() == old(State()).(showIdentityModal := false)
    {
      showIdentityModal := false;
    }

    /** SecureViewer's `onBack`. */
    method ViewerGoBack()
      requires Enabled(State(), ViewerBack)
      modifies this
      ensures State() == Step(old(State()), ViewerBack)
      ensures currentScreen == Folder
    {
      currentScreen := Folder;
    }

    /** SecureViewer's `onLock`: the "Lock Now" button and the expired countdown. */
    method HandleLockDocument()
      requires Enabled(State(), LockDocument)
      modifies this
      ensures State() == Step(old(State()), LockDocument)
      ensures currentScreen == Folder
    {
      currentScreen := Folder;
    }

    /** Dashboard's `onNewFolderClick`. */
    method OpenNewFolderSheet()
      requires Enabled(State(), NewFolderClick)
      modifies this
      ensures State() == Step(old(State()), NewFolderClick)
    {
      showNewFolderSheet := true;
    }

    /** NewFolderSheet's `onClose`: clears that sheet's flag and nothing else. */
    method CloseFolderSheet()
      requires Enabled(State(), CloseNewFolderSheet)
      modifies this
      ensures State() == old(State()).(showNewFolderSheet := false)
    {
      showNewFolderSheet := false;
    }

    /**
     * NewFolderSheet's `onCreate`. The second argument lands in
     * `selectedFolderSecurity` unchecked; the sheet passes a folder type there.
     */
    method HandleCreateFolder(folderName: string, securityLevel: string)
      requires Enabled(State(), CreateFolder(folderName, securityLevel))
      modifies this
      ensures State() == Step(old(State()), CreateFolder(folderName, securityLevel))
    {
      selectedFolder := folderName;
      selectedFolderSecurity := securityLevel;
      currentScreen := FolderDetail;
    }

    /** FolderDetailView's `onAddItem`: only logs. */
    method HandleAddItemToFolder(kind: ItemKind)
      requires Enabled(State(), AddItem(kind))
      modifies this
      ensures State() == old(State())
    {
    }
  }
}
