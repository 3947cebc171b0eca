/** The guided tour of the application (src/context/TutorialContext.tsx): a
    fixed list of eleven steps and a provider that keeps whether the tour is
    running, the index of the current step and the tab on show. Advancing to a
    step whose id names a section switches to that section's tab. */
module Tutorial {
  import opened Base
  import opened Text

  datatype Position = Top | Bottom | Left | Right

  /** One step of the tour; `hasAction` says whether the step carries an
      action callback (the callbacks themselves do nothing). */
  datatype TutorialStep = TutorialStep(id: string, target: string, title: string, position: Position, hasAction: bool)

  const Steps: seq<TutorialStep> := [
    TutorialStep("welcome", "app-header", "👋 Bem-vindo ao MARGENT!", Bottom, false),
    TutorialStep("dashboard", "dashboard-metrics", "📊 Dashboard Inteligente", Bottom, false),
    TutorialStep("campaigns-nav", "nav-campaigns", "🎯 Gestão de Campanhas", Right, true),
    TutorialStep("campaigns-list", "campaigns-table", "📈 Campanhas Otimizadas", Top, false),
    TutorialStep("funnel-nav", "nav-funnel", "🔄 Funil de Vendas", Right, true),
    TutorialStep("funnel-chart", "funnel-visualization", "🎯 Funil Inteligente", Left, false),
    TutorialStep("calendar-nav", "nav-calendar", "📅 Calendário Editorial", Right, true),
    TutorialStep("calendar-content", "calendar-view", "✨ Conteúdo Automatizado", Top, false),
    TutorialStep("chat-nav", "nav-chat", "💬 Chat Inteligente", Right, true),
    TutorialStep("chat-demo", "chat-input", "🤖 Inteligência Conversacional", Top, false),
    TutorialStep("conclusion", "app-header", "🚀 Pronto para Decolar!", Bottom, false)
  ]

  const LastStep: int := |Steps| - 1

  /** The tab a step switches to: the first section named in its id, in the
      order campaigns, funnel, calendar, chat; none for other ids. */
  function TabFor(stepId: string): (tab: Option<string>)
    ensures tab.Some? ==> tab.value in {"campaigns", "funnel", "calendar", "chat"}
    ensures tab.Some? ==> Contains(stepId, tab.value)
    ensures tab == Some("campaigns") <==> Contains(stepId, "campaigns")
    ensures tab == Some("funnel") <==> !Contains(stepId, "campaigns") && Contains(stepId, "funnel")
    ensures tab == Some("calendar") <==>
              !Contains(stepId, "campaigns") && !Contains(stepId, "funnel") && Contains(stepId, "calendar")
    ensures tab.None? <==>
              !Contains(stepId, "campaigns") && !Contains(stepId, "funnel") && !Contains(stepId, "calendar")
              && !Contains(stepId, "chat")
  {
    if Contains(stepId, "campaigns") then Some("campaigns")
    else if Contains(stepId, "funnel") then Some("funnel")
    else if Contains(stepId, "calendar") then Some("calendar")
    else if Contains(stepId, "chat") then Some("chat")
    else None
  }

  /** The provider's three pieces of state. */
  datatype TutorialState = TutorialState(isActive: bool, currentStep: int, activeTab: string)

  /** The step index always names a step. */
  predicate InRange(st: TutorialState)
  {
    0 <= st.currentStep <= LastStep
  }

  /** The state a fresh provider starts in. */
  const Initial: TutorialState := TutorialState(false, 0, "dashboard")

  /** `startTutorial()`. */
  function Started(st: TutorialState): TutorialState
  {
    TutorialState(true, 0, "dashboard")
  }

  /** `endTutorial()`: the tab on show is kept. */
  function Ended(st: TutorialState): TutorialState
  {
    st.(isActive := false, currentStep := 0)
  }

  /** `nextStep()`: moves to the next step and its tab, or ends the tour at the
      last step. It does not look at whether the tour is running. */
  function Advanced(st: TutorialState): TutorialState
    requires InRange(st)
  {
    if st.currentStep < LastStep then
      var next := Steps[st.currentStep + 1];
      var tab := match TabFor(next.id) case Some(t) => t case None => st.activeTab;
      st.(currentStep := st.currentStep + 1, activeTab := tab)
    else Ended(st)
  }

  /** `prevStep()`: moves back one step, never below the first; the tab stays. */
  function Retreated(st: TutorialState): TutorialState
  {
    if st.currentStep > 0 then st.(currentStep := st.currentStep - 1) else st
  }

  /** Every operation keeps the step index in range. */
  lemma OperationsKeepRange(st: TutorialState)
    requires InRange(st)
    ensures InRange(Initial) && InRange(Started(st)) && InRange(Ended(st))
    ensures InRange(Advanced(st)) && InRange(Retreated(st))
    ensures Advanced(st).isActive == (st.isActive && st.currentStep < LastStep)
  {
  }

  /** What each operation does to the three fields: starting resets all
      three, ending keeps the tab, going back keeps the tab and the running
      flag and stops at the first step, and advancing before the last step
      moves one step on without touching the running flag. */
  lemma OperationEffects(st: TutorialState)
    requires InRange(st)
    ensures Started(st) == TutorialState(true, 0, "dashboard")
    ensures Ended(st) == TutorialState(false, 0, st.activeTab)
    ensures Retreated(st).isActive == st.isActive && Retreated(st).activeTab == st.activeTab
    ensures Retreated(st).currentStep == if st.currentStep > 0 then st.currentStep - 1 else 0
    ensures st.currentStep < LastStep ==>
              Advanced(st).currentStep == st.currentStep + 1 && Advanced(st).isActive == st.isActive
    ensures st.currentStep == LastStep ==> Advanced(st) == Ended(st)
  {
  }

  /** `nextStep()` called `k` times in a row. */
  function Walk(st: TutorialState, k: nat): (r: TutorialState)
    requires InRange(st)
    ensures InRange(r)
    decreases k
  {
    if k == 0 then st
    else
      var prev := Walk(st, k - 1);
      OperationsKeepRange(prev);
      Advanced(prev)
  }

  /** The tab on show at each step of a tour walked from its start. */
  const TourTabs: seq<string> :=
    ["dashboard", "dashboard", "campaigns", "campaigns", "funnel", "funnel",
     "calendar", "calendar", "chat", "chat", "chat"]

  /** The tab each step switches to, if any: the section steps to their
      section, the welcome, dashboard and conclusion steps to none. */
  const StepSections: seq<Option<string>> :=
    [None, None, Some("campaigns"), Some("campaigns"), Some("funnel"), Some("funnel"),
     Some("calendar"), Some("calendar"), Some("chat"), Some("chat"), None]

  /** The section tests pick the listed tab for every step. */
  lemma StepTab(i: int)
    requires 0 <= i <= LastStep
    ensures TabFor(Steps[i].id) == StepSections[i]
  {
    var id := Steps[i].id;
    if i == 0 || i == 1 || i == 10 {
      OverviewSteps(id);
    } else if i == 2 || i == 3 {
      CampaignSteps(id);
    } else if i == 4 || i == 5 {
      FunnelSteps(id);
    } else if i == 6 || i == 7 {
      CalendarSteps(id);
    } else {
      ChatSteps(id);
    }
  }

  /** The welcome, dashboard and conclusion steps switch no tab. */
  lemma OverviewSteps(id: string)
    requires id == "welcome" || id == "dashboard" || id == "conclusion"
    ensures TabFor(id) == None
  {
    if id == "dashboard" {
      NoSectionIn(id, 'c', 'f', 'c', 'c');
    } else {
      NoSectionIn(id, 'a', 'f', 'a', 'h');
    }
  }

  /** The two campaign steps switch to the campaigns tab. */
  lemma CampaignSteps(id: string)
    requires id == "campaigns-nav" || id == "campaigns-list"
    ensures TabFor(id) == Some("campaigns")
  {
    StartsWith(id, "campaigns");
  }

  /** The two funnel steps switch to the funnel tab. */
  lemma FunnelSteps(id: string)
    requires id == "funnel-nav" || id == "funnel-chart"
    ensures TabFor(id) == Some("funnel")
  {
    FunnelSection(id);
  }

  /** The two calendar steps switch to the calendar tab. */
  lemma CalendarSteps(id: string)
    requires id == "calendar-nav" || id == "calendar-content"
    ensures TabFor(id) == Some("calendar")
  {
    CalendarSection(id);
  }

  /** The two chat steps switch to the chat tab. */
  lemma ChatSteps(id: string)
    requires id == "chat-nav" || id == "chat-demo"
    ensures TabFor(id) == Some("chat")
  {
    ChatSection(id);
  }

  /** An id starting with "funnel" and lacking a `p` switches to the funnel tab. */
  lemma FunnelSection(id: string)
    requires 'p' !in id && |id| >= 6 && id[..6] == "funnel"
    ensures TabFor(id) == Some("funnel")
  {
    MissingCharNotContained(id, "campaigns", 'p');
    StartsWith(id, "funnel");
  }

  /** An id starting with "calendar" and lacking `p` and `f` switches to the calendar tab. */
  lemma CalendarSection(id: string)
    requires 'p' !in id && 'f' !in id && |id| >= 8 && id[..8] == "calendar"
    ensures TabFor(id) == Some("calendar")
  {
    MissingCharNotContained(id, "campaigns", 'p');
    MissingCharNotContained(id, "funnel", 'f');
    StartsWith(id, "calendar");
  }

  /** An id starting with "chat" and lacking `p`, `f` and `l` switches to the chat tab. */
  lemma ChatSection(id: string)
    requires 'p' !in id && 'f' !in id && 'l' !in id && |id| >= 4 && id[..4] == "chat"
    ensures TabFor(id) == Some("chat")
  {
    MissingCharNotContained(id, "campaigns", 'p');
    MissingCharNotContained(id, "funnel", 'f');
    MissingCharNotContained(id, "calendar", 'l');
    StartsWith(id, "chat");
  }

  /** An id lacking one letter of each section name switches no tab. */
  lemma NoSectionIn(id: string, a: char, b: char, c: char, d: char)
    requires a in "campaigns" && a !in id
    requires b in "funnel" && b !in id
    requires c in "calendar" && c !in id
    requires d in "chat" && d !in id
    ensures TabFor(id) == None
  {
    MissingCharNotContained(id, "campaigns", a);
    MissingCharNotContained(id, "funnel", b);
    MissingCharNotContained(id, "calendar", c);
    MissingCharNotContained(id, "chat", d);
  }

  /** A string contains each of its prefixes. */
  lemma StartsWith(s: string, prefix: string)
    requires |prefix| <= |s| && s[..|prefix|] == prefix
    ensures Contains(s, prefix)
  {
    assert OccursAt(s, prefix, 0);
  }

  /** Along the tour, each step shows the tab it switches to, or keeps the
      tab of the step before. */
  lemma TourTabStep(k: int)
    requires 0 < k <= LastStep
    ensures TourTabs[k] == match StepSections[k] case Some(t) => t case None => TourTabs[k - 1]
  {
  }

  /** Walking the tour from its start shows, after `k` steps, step `k` with
      the tab of the last section reached. */
  lemma {:induction false} TourFromStart(st: TutorialState, k: nat)
    requires k <= LastStep
    ensures Walk(Started(st), k) == TutorialState(true, k, TourTabs[k])
  {
    if k > 0 {
      var prev := Walk(Started(st), k - 1);
      TourFromStart(st, k - 1);
      assert Walk(Started(st), k) == Advanced(prev);
      TourAdvance(k);
    }
  }

  /** One step along the tour, from step `k - 1` with its tab to step `k`
      with its tab. */
  lemma TourAdvance(k: int)
    requires 0 < k <= LastStep
    ensures Advanced(TutorialState(true, k - 1, TourTabs[k - 1])) == TutorialState(true, k, TourTabs[k])
  {
    StepTab(k);
    TourTabStep(k);
  }

  /** One more step after the conclusion ends the tour and leaves the chat tab
      on show. */
  lemma TourEnds(st: TutorialState)
    ensures Walk(Started(st), LastStep + 1) == TutorialState(false, 0, "chat")
  {
    TourFromStart(st, LastStep);
  }

  /** Going back after going forward returns to the same step but not to the
      same tab: the tab switched to on the way forward stays. */
  lemma BackAfterForward(st: TutorialState)
    requires InRange(st) && st.currentStep < LastStep
    ensures Retreated(Advanced(st)).currentStep == st.currentStep
    ensures Retreated(Advanced(st)).activeTab == Advanced(st).activeTab
  {
  }

  /** Advancing while the tour is not running still moves through the steps
      and does not start the tour. */
  lemma AdvanceWhileInactive(st: TutorialState)
    requires InRange(st) && !st.isActive && st.currentStep < LastStep
    ensures !Advanced(st).isActive && Advanced(st).currentStep == st.currentStep + 1
  {
  }

  /** The tutorial provider's state, updated in place by its operations. */
  class TutorialProvider {
    var isActive: bool
    var currentStep: int
    var activeTab: string

    ghost predicate Valid()
      reads this
    {
      InRange(State())
    }

    function State(): TutorialState
      reads this
    {
      TutorialState(isActive, currentStep, activeTab)
    }

    constructor ()
      ensures State() == Initial && Valid()
    {
      isActive := false;
      currentStep := 0;
      activeTab := "dashboard";
    }

    method StartTutorial()
      modifies this
      ensures State() == Started(old(State())) && Valid()
    {
      isActive := true;
      currentStep := 0;
      activeTab := "dashboard";
    }

    method NextStep()
      requires Valid()
      modifies this
      ensures State() == Advanced(old(State())) && Valid()
    {
      if currentStep < |Steps| - 1 {
        var next := Steps[currentStep + 1];
        var tab := TabFor(next.id);
        if tab.Some? {
          activeTab := tab.value;
        }
        currentStep := currentStep + 1;
      } else {
        EndTutorial();
      }
    }

    method PrevStep()
      requires Valid()
      modifies this
      ensures State() == Retreated(old(State())) && Valid()
    {
      if currentStep > 0 {
        currentStep := currentStep - 1;
      }
    }

    method EndTutorial()
      modifies this
      ensures State() == Ended(old(State())) && Valid()
    {
      isActive := false;
      currentStep := 0;
    }

    method SetActiveTab(tab: string)
      modifies this
      ensures State() == old(State()).(activeTab := tab)
    {
      activeTab := tab;
    }
  }
}
