/** The page: the screen flow sign-in → logo animation → quiz → app, the
    session resumed from storage when the page loads, the handlers the screens
    call back into, and the free plan's monthly upload quota. */
module Page {
  import opened Records
  import opened SessionStore
  import BillUpload
  import AuthScreen
  import Quiz
  import PricingPlans

  datatype AppState = AtAuth | AtAnimation | AtQuiz | AtApp

  datatype Tab = PlansTab | UploadTab | DashboardTab

  /** The page's in-memory state. */
  datatype Session = Session(appState: AppState, user: Option<User>, bills: seq<Bill>,
                             quizData: Option<QuizData>, activeTab: Tab, currentPlan: Plan)

  /** The state before storage is read. */
  const InitialSession: Session := Session(AtAuth, None, [], None, UploadTab, Free)

  // ---------------------------------------------------------------------------
  // The free quota

  /** The bill was created in the calendar month and year of `now`. */
  predicate CreatedIn(b: Bill, now: Stamp)
  {
    b.created.year == now.year && b.created.month == now.month
  }

  /** The bills created in the month of `now`, in list order. */
  function ThisMonth(bills: seq<Bill>, now: Stamp): (r: seq<Bill>)
    ensures |r| <= |bills|
    ensures forall b :: b in r <==> b in bills && CreatedIn(b, now)
  {
    if bills == [] then []
    else (if CreatedIn(bills[0], now) then [bills[0]] else []) + ThisMonth(bills[1..], now)
  }

  /** Paid plans upload without limit; the free plan only while fewer than
      `FreeMonthlyQuota` bills were created this month. */
  function CanUpload(plan: Plan, bills: seq<Bill>, now: Stamp): (r: bool)
    ensures plan != Free ==> r
    ensures plan == Free ==> (r <==> |ThisMonth(bills, now)| < FreeMonthlyQuota)
  {
    if plan == Free then |ThisMonth(bills, now)| < FreeMonthlyQuota else true
  }

  lemma {:induction false} ThisMonthAppend(a: seq<Bill>, b: seq<Bill>, now: Stamp)
    ensures ThisMonth(a + b, now) == ThisMonth(a, now) + ThisMonth(b, now)
  {
    if a == [] {
      assert a + b == b;
    } else {
      assert (a + b)[0] == a[0];
      assert (a + b)[1..] == a[1..] + b;
      ThisMonthAppend(a[1..], b, now);
    }
  }

  /** Only the creation stamps matter: the typed period, amounts, image and id
      of the bills never affect the count. */
  lemma {:induction false} CountIgnoresAllButCreation(a: seq<Bill>, b: seq<Bill>, now: Stamp)
    requires |a| == |b|
    requires forall i :: 0 <= i < |a| ==> a[i].created == b[i].created
    ensures |ThisMonth(a, now)| == |ThisMonth(b, now)|
  {
    if a != [] {
      CountIgnoresAllButCreation(a[1..], b[1..], now);
    }
  }

  /** A bill accepted by the free plan's guard leaves at most `FreeMonthlyQuota`
      bills in the month. */
  lemma GatedSubmitKeepsQuota(bills: seq<Bill>, b: Bill, now: Stamp)
    requires CanUpload(Free, bills, now)
    ensures |ThisMonth(bills + [b], now)| <= FreeMonthlyQuota
  {
    ThisMonthAppend(bills, [b], now);
    assert [b][1..] == [];
  }

  /** Removing bills never raises a month's count. */
  lemma {:induction false} RemoveNeverRaisesCount(bills: seq<Bill>, id: string, now: Stamp)
    ensures |ThisMonth(BillUpload.RemoveById(bills, id), now)| <= |ThisMonth(bills, now)|
  {
    if bills != [] {
      RemoveNeverRaisesCount(bills[1..], id, now);
      if bills[0].id != id {
        assert BillUpload.RemoveById(bills, id) == [bills[0]] + BillUpload.RemoveById(bills[1..], id);
        ThisMonthAppend([bills[0]], BillUpload.RemoveById(bills[1..], id), now);
        assert [bills[0]][1..] == [];
      }
    }
  }

  /** With no bill created in the current month (a new month, or bills only from
      the same month of another year) the free plan may upload again. */
  lemma QuotaResetsInNewMonth(bills: seq<Bill>, now: Stamp)
    requires forall b :: b in bills ==> !CreatedIn(b, now)
    ensures ThisMonth(bills, now) == []
    ensures CanUpload(Free, bills, now)
  {
  }

  /** The guard admits a third bill where the plan's description advertises two:
      with the advertised number of bills this month the free plan may still
      upload, and it is refused only once the third bill exists. */
  lemma EnforcedQuotaExceedsAdvertised(bills: seq<Bill>, b: Bill, now: Stamp)
    requires |ThisMonth(bills, now)| == PricingPlans.AdvertisedFreeLimit
    requires CreatedIn(b, now)
    ensures CanUpload(Free, bills, now)
    ensures !CanUpload(Free, bills + [b], now)
  {
    ThisMonthAppend(bills, [b], now);
    assert [b][1..] == [];
  }

  // ---------------------------------------------------------------------------
  // Resuming a session from storage

  /** What the page shows after reading storage: no stored user keeps the
      sign-in screen; a stored user goes to the app exactly when a completed quiz
      is stored, and to the quiz otherwise. Bills are loaded, and the dashboard
      tab opened, only on the way into the app and only when the bills slot
      exists. A stored plan is loaded whether or not a user is stored. */
  function Startup(items: map<string, Entry>): (r: Session)
    ensures r.user == UserIn(items)
    ensures r.appState != AtAnimation
    ensures r.user.None? ==> r.appState == AtAuth && r.quizData == None
    ensures r.user.Some? ==> (r.appState == AtApp <==> QuizIn(items).Some? && QuizIn(items).value.completed)
    ensures r.user.Some? ==> r.quizData == QuizIn(items)
    ensures r.activeTab == DashboardTab <==> r.appState == AtApp && BillsIn(items).Some?
    ensures r.activeTab != DashboardTab ==> r.activeTab == UploadTab && r.bills == []
    ensures r.activeTab == DashboardTab ==> r.bills == BillsIn(items).value
    ensures PlanIn(items).Some? ==> r.currentPlan == PlanIn(items).value
    ensures PlanIn(items).None? ==> r.currentPlan == InitialSession.currentPlan
  {
    var s := InitialSession;
    var s := if PlanIn(items).Some? then s.(currentPlan := PlanIn(items).value) else s;
    match UserIn(items)
    case None => s
    case Some(u) =>
      match QuizIn(items)
      case None => s.(user := Some(u), appState := AtQuiz)
      case Some(q) =>
        if !q.completed then s.(user := Some(u), quizData := Some(q), appState := AtQuiz)
        else
          match BillsIn(items)
          case None => s.(user := Some(u), quizData := Some(q), appState := AtApp)
          case Some(bs) => s.(user := Some(u), quizData := Some(q), appState := AtApp,
                              bills := bs, activeTab := DashboardTab)
  }

  /** The screen flow's own invariant: a user exactly off the sign-in screen,
      quiz answers whenever the app is shown, no bills on the sign-in screen. */
  ghost predicate Flow(s: Session)
  {
    (s.appState == AtAuth <==> s.user.None?) &&
    (s.appState == AtApp ==> s.quizData.Some?) &&
    (s.appState == AtAuth ==> s.bills == [])
  }

  /** Storage agrees with memory: the stored user is the signed-in one, the
      stored answers are those the app runs on, non-empty bills are stored, and a
      stored plan is the current one. */
  ghost predicate Mirrors(items: map<string, Entry>, s: Session)
  {
    (s.user.Some? ==> UserIn(items) == s.user) &&
    (s.appState == AtApp ==> QuizIn(items) == s.quizData) &&
    (s.bills != [] ==> BillsIn(items) == Some(s.bills)) &&
    (PlanIn(items).Some? ==> PlanIn(items) == Some(s.currentPlan))
  }

  /** The storage writes that follow the load: the current plan is written back. */
  function AfterMount(items: map<string, Entry>): (w: map<string, Entry>)
    ensures PlanIn(w) == Some(Startup(items).currentPlan)
    ensures UserIn(w) == UserIn(items) && QuizIn(w) == QuizIn(items) && BillsIn(w) == BillsIn(items)
  {
    ReadAfterWrite(items, User("", ""), [], QuizData(false, [], "", 0), Startup(items).currentPlan);
    items[PlanKey := PlanEntry(Startup(items).currentPlan)]
  }

  /** The resumed session obeys the flow and agrees with storage after the mount writes. */
  lemma StartupMirrors(items: map<string, Entry>)
    ensures Flow(Startup(items))
    ensures Mirrors(AfterMount(items), Startup(items))
  {
  }

  /** Loading the page a second time resumes the same session. */
  lemma ReloadIsStable(items: map<string, Entry>)
    ensures Startup(AfterMount(items)) == Startup(items)
    ensures AfterMount(AfterMount(items)) == AfterMount(items)
  {
    var w := AfterMount(items);
    assert Startup(w).currentPlan == Startup(items).currentPlan;
  }

  /** After the four keys are removed, loading the page starts from scratch,
      whatever plan was in use before. */
  lemma ReloadAfterLogout(items: map<string, Entry>)
    ensures Startup(items - {UserKey, QuizKey, BillsKey, PlanKey}) == InitialSession
  {
    var w := items - {UserKey, QuizKey, BillsKey, PlanKey};
    assert UserKey !in w && PlanKey !in w;
  }

  /** Reloading while in the app with bills resumes the same user, answers and
      bills on the dashboard tab; the plan survives only if its slot is stored. */
  lemma ReloadRestoresSession(items: map<string, Entry>, s: Session)
    requires Flow(s) && Mirrors(items, s)
    requires s.appState == AtApp && s.quizData.value.completed && s.bills != []
    ensures Startup(items).appState == AtApp
    ensures Startup(items).user == s.user && Startup(items).quizData == s.quizData
    ensures Startup(items).bills == s.bills && Startup(items).activeTab == DashboardTab
    ensures PlanIn(items).Some? ==> Startup(items).currentPlan == s.currentPlan
    ensures PlanIn(items).None? ==> Startup(items).currentPlan == Free
  {
    assert UserIn(items) == s.user;
    assert QuizIn(items) == s.quizData;
  }

  // ---------------------------------------------------------------------------
  // The page

  class Home {
    var appState: AppState
    var user: Option<User>
    var bills: seq<Bill>
    var quizData: Option<QuizData>
    var activeTab: Tab
    var currentPlan: Plan
    const store: Storage

    function Snapshot(): Session
      reads this
    {
      Session(appState, user, bills, quizData, activeTab, currentPlan)
    }

    ghost predicate Valid()
      reads this, store
    {
      store.Valid() && Flow(Snapshot()) && Mirrors(store.items, Snapshot())
    }

    /** Whether the bill form may add a bill in the month of `now`. */
    function CanUploadBill(now: Stamp): bool
      reads this
    {
      CanUpload(currentPlan, bills, now)
    }

    /** Mounting the page: the initial state, then the load from storage, then
        the two save effects (bills written back when non-empty, the plan
        always written). */
    constructor (store: Storage)
      requires store.Valid()
      modifies store
      ensures this.store == store && Valid()
      ensures Snapshot() == Startup(old(store.items))
      ensures store.items == AfterMount(old(store.items))
    {
      appState, user, bills, quizData, activeTab, currentPlan := AtAuth, None, [], None, UploadTab, Free;
      this.store := store;
      new;
      ghost var items0 := store.items;
      var storedUser, storedBills := UserIn(store.items), BillsIn(store.items);
      var storedQuiz, storedPlan := QuizIn(store.items), PlanIn(store.items);
      if storedUser.Some? {
        user := storedUser;
        if storedQuiz.Some? {
          quizData := storedQuiz;
          if storedQuiz.value.completed {
            appState := AtApp;
            if storedBills.Some? {
              bills := storedBills.value;
              activeTab := DashboardTab;
            }
          } else {
            appState := AtQuiz;
          }
        } else {
          appState := AtQuiz;
        }
      }
      if storedPlan.Some? {
        currentPlan := storedPlan.value;
      }
      assert Snapshot() == Startup(items0);
      if |bills| > 0 {
        store.SetItem(BillsKey, BillsEntry(bills));
        assert store.items == items0;
      }
      store.SetItem(PlanKey, PlanEntry(currentPlan));
      StartupMirrors(items0);
    }

    /** The sign-in screen reports an identity it has already stored. */
    method HandleLogin(email: string, name: string)
      requires Valid() && appState == AtAuth
      requires UserIn(store.items) == Some(User(email, name))
      modifies this
      ensures Valid()
      ensures Snapshot() == old(Snapshot()).(user := Some(User(email, name)), appState := AtAnimation)
    {
      user := Some(User(email, name));
      appState := AtAnimation;
    }

    method HandleAnimationComplete()
      requires Valid() && appState == AtAnimation
      modifies this
      ensures Valid()
      ensures Snapshot() == old(Snapshot()).(appState := AtQuiz)
    {
      appState := AtQuiz;
    }

    method HandleQuizComplete(data: QuizData)
      requires Valid() && appState == AtQuiz
      modifies this, store
      ensures Valid()
      ensures Snapshot() == old(Snapshot()).(quizData := Some(data), appState := AtApp, activeTab := PlansTab)
      ensures store.items == old(store.items)[QuizKey := QuizEntry(data)]
    {
      quizData := Some(data);
      store.SetItem(QuizKey, QuizEntry(data));
      appState := AtApp;
      activeTab := PlansTab;
      ReadAfterWrite(old(store.items), User("", ""), [], data, Free);
    }

    /** The bill list is replaced; a non-empty list opens the dashboard and is
        saved, an empty one leaves the tab and the stored bills as they were. */
    method HandleBillsUpdate(newBills: seq<Bill>)
      requires Valid() && appState == AtApp
      modifies this, store
      ensures Valid()
      ensures Snapshot() == old(Snapshot()).(bills := newBills,
                activeTab := if |newBills| > 0 then DashboardTab else old(activeTab))
      ensures store.items == if |newBills| > 0 then old(store.items)[BillsKey := BillsEntry(newBills)]
                             else old(store.items)
    {
      bills := newBills;
      if |newBills| > 0 {
        activeTab := DashboardTab;
        store.SetItem(BillsKey, BillsEntry(newBills));
        ReadAfterWrite(old(store.items), User("", ""), newBills, QuizData(false, [], "", 0), Free);
      }
    }

    /** The plan is replaced and the upload tab opened; the plan slot is written
        only when the value changed. */
    method HandleSelectPlan(plan: Plan)
      requires Valid() && appState == AtApp
      modifies this, store
      ensures Valid()
      ensures Snapshot() == old(Snapshot()).(currentPlan := plan, activeTab := UploadTab)
      ensures store.items == if plan != old(currentPlan) then old(store.items)[PlanKey := PlanEntry(plan)]
                             else old(store.items)
    {
      var changed := plan != currentPlan;
      currentPlan := plan;
      activeTab := UploadTab;
      if changed {
        store.SetItem(PlanKey, PlanEntry(plan));
        ReadAfterWrite(old(store.items), User("", ""), [], QuizData(false, [], "", 0), plan);
      }
    }

    /** All four keys are removed and the user, answers and bills cleared; the
        plan and the tab stay in memory. */
    method HandleLogout()
      requires Valid() && appState == AtApp
      modifies this, store
      ensures Valid()
      ensures Snapshot() == old(Snapshot()).(user := None, quizData := None, bills := [], appState := AtAuth)
      ensures store.items == old(store.items) - {UserKey, QuizKey, BillsKey, PlanKey}
    {
      store.RemoveItem(UserKey);
      store.RemoveItem(QuizKey);
      store.RemoveItem(BillsKey);
      store.RemoveItem(PlanKey);
      assert store.items == old(store.items) - {UserKey, QuizKey, BillsKey, PlanKey};
      user := None;
      quizData := None;
      bills := [];
      appState := AtAuth;
    }

    /** Clicking a tab, or the upgrade link that opens the plans tab. */
    method SelectTab(t: Tab)
      requires Valid()
      modifies this
      ensures Valid()
      ensures Snapshot() == old(Snapshot()).(activeTab := t)
    {
      activeTab := t;
    }

    // -------------------------------------------------------------------------
    // The screens wired to the handlers

    /** Submitting the sign-in form: the form's fields stay and its error shows
        the first failing check; a rejected form changes nothing on the page, an
        accepted one stores the identity and moves to the animation. */
    method SubmitCredentials(form: AuthScreen.AuthForm) returns (login: Option<User>)
      requires Valid() && appState == AtAuth
      modifies this, form, store
      ensures Valid()
      ensures form.isLogin == old(form.isLogin) && form.email == old(form.email) &&
              form.password == old(form.password) && form.name == old(form.name)
      ensures match AuthScreen.Validate(old(form.isLogin), old(form.email), old(form.password), old(form.name))
              case Rejected(e) => login == None && form.error == AuthScreen.Message(e) &&
                                  Snapshot() == old(Snapshot()) && store.items == old(store.items)
              case Accepted(u) => login == Some(u) && form.error == "" &&
                                  Snapshot() == old(Snapshot()).(user := Some(u), appState := AtAnimation) &&
                                  store.items == old(store.items)[UserKey := UserEntry(u)]
    {
      login := form.Submit(store);
      if login.Some? {
        ReadAfterWrite(old(store.items), login.value, [], QuizData(false, [], "", 0), Free);
        HandleLogin(login.value.email, login.value.name);
      }
    }

    /** Finishing the quiz: with the last step reached and a residents option
        chosen, the completed answers are stored and the app opens on the plans
        tab; otherwise nothing changes. */
    method FinishQuiz(form: Quiz.QuizForm)
      requires Valid() && appState == AtQuiz && form.Valid()
      modifies this, store
      ensures Valid()
      ensures form.step == Quiz.LastStep && form.residents != "" ==>
        var data := QuizData(true, form.selectedAppliances, form.houseSize, Quiz.ResidentsOf(form.residents));
        Snapshot() == old(Snapshot()).(quizData := Some(data), appState := AtApp, activeTab := PlansTab) &&
        1 <= data.residents <= 5 &&
        store.items == old(store.items)[QuizKey := QuizEntry(data)]
      ensures !(form.step == Quiz.LastStep && form.residents != "") ==>
        Snapshot() == old(Snapshot()) && store.items == old(store.items)
    {
      var data := form.Finish();
      if data.Some? {
        HandleQuizComplete(data.value);
      }
    }

    /** Submitting the bill form with the quota decided on the current month:
        an empty field alerts first, then a refused quota; otherwise exactly one
        bill built from the form is appended, the list is saved, the dashboard
        opens and the form is cleared. A free account never goes past the quota
        this way. */
    method SubmitBill(form: BillUpload.BillForm, id: string, now: Stamp, parseNumber: string -> real)
      returns (outcome: BillUpload.SubmitOutcome)
      requires Valid() && appState == AtApp
      modifies this, form, store
      ensures Valid()
      ensures outcome == BillUpload.MissingFieldsAlert <==>
        old(form.month == "" || form.consumption == "" || form.value == "")
      ensures outcome == BillUpload.LimitAlert <==>
        old(form.month != "" && form.consumption != "" && form.value != "") &&
        !CanUpload(old(currentPlan), old(bills), now)
      ensures outcome.Submitted? ==>
        var added := Bill(id, old(form.month), parseNumber(old(form.consumption)), parseNumber(old(form.value)),
                          BillUpload.ImageOf(old(form.imagePreview)), now);
        outcome.bills == old(bills) + [added] &&
        Snapshot() == old(Snapshot()).(bills := old(bills) + [added], activeTab := DashboardTab) &&
        store.items == old(store.items)[BillsKey := BillsEntry(bills)] &&
        form.month == "" && form.consumption == "" && form.value == "" && form.imagePreview == None
      ensures !outcome.Submitted? ==>
        Snapshot() == old(Snapshot()) && store.items == old(store.items) &&
        form.month == old(form.month) && form.consumption == old(form.consumption) &&
        form.value == old(form.value) && form.imagePreview == old(form.imagePreview)
      ensures currentPlan == Free && |ThisMonth(old(bills), now)| <= FreeMonthlyQuota ==>
        |ThisMonth(bills, now)| <= FreeMonthlyQuota
    {
      var canUpload := CanUploadBill(now);
      outcome := form.Submit(bills, canUpload, id, now, parseNumber);
      if outcome.Submitted? {
        var added := outcome.bills[|bills|];
        assert outcome.bills == bills + [added];
        if currentPlan == Free {
          GatedSubmitKeepsQuota(bills, added, now);
        }
        HandleBillsUpdate(outcome.bills);
      }
    }

    /** Removing a bill by id: the filtered list replaces the old one, and no
        month's count goes up. */
    method RemoveBill(id: string)
      requires Valid() && appState == AtApp
      modifies this, store
      ensures Valid()
      ensures var remaining := BillUpload.RemoveById(old(bills), id);
        Snapshot() == old(Snapshot()).(bills := remaining,
                                       activeTab := if remaining != [] then DashboardTab else old(activeTab))
      ensures forall now :: |ThisMonth(bills, now)| <= |ThisMonth(old(bills), now)|
      ensures store.items == if bills != [] then old(store.items)[BillsKey := BillsEntry(bills)]
                             else old(store.items)
    {
      var remaining := BillUpload.RemoveById(bills, id);
      forall now: Stamp
        ensures |ThisMonth(remaining, now)| <= |ThisMonth(bills, now)|
      {
        RemoveNeverRaisesCount(bills, id, now);
      }
      HandleBillsUpdate(remaining);
    }

    /** Choosing a plan on the plans tab: Pro only opens the checkout and leaves
        the page untouched; any other plan becomes the current one. So the
        current plan never becomes Pro this way. */
    method ChoosePlan(panel: PricingPlans.PricingPanel, plan: Plan) returns (effect: PricingPlans.Effect)
      requires Valid() && appState == AtApp
      modifies this, panel, store
      ensures Valid()
      ensures effect == PricingPlans.EffectOf(plan) && panel.selectedPlan == plan
      ensures plan == Pro ==> Snapshot() == old(Snapshot()) && store.items == old(store.items)
      ensures plan != Pro ==>
        Snapshot() == old(Snapshot()).(currentPlan := plan, activeTab := UploadTab) &&
        store.items == if plan != old(currentPlan) then old(store.items)[PlanKey := PlanEntry(plan)]
                       else old(store.items)
      ensures currentPlan == Pro ==> old(currentPlan) == Pro
    {
      effect := panel.SelectPlan(plan);
      if effect.ReportPlan? {
        HandleSelectPlan(effect.plan);
      }
    }
  }
}
