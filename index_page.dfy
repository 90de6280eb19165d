/**
 * The inbox page: which conversation is selected, which single panel a
 * mobile viewport shows, and whether the sidebar is collapsed. The viewport
 * classification is an input to every event. The page's effect, which moves a
 * wide viewport with a selection to the thread panel, runs after the events
 * that change what it depends on: a selection and a change of viewport.
 */
module IndexPage {
  import opened Wrappers
  import opened MockData

  /** The panel a mobile viewport shows. */
  datatype Panel = ConversationList | ConversationView | UserDetails

  /** A snapshot of the page's three state cells. */
  datatype PageState = PageState(selected: Option<Conversation>, activePanel: Panel, sidebarCollapsed: bool)

  /** Which regions of the page render, and which navigation controls they carry. */
  datatype Layout = Layout(
    list: bool,
    thread: bool,
    details: bool,
    emptyState: bool,
    backButton: bool,
    detailsButton: bool,
    closeButton: bool)

  /** On mobile, the thread and details panels are only ever entered with a selection. */
  predicate PanelHasSelection(s: PageState) {
    s.activePanel != ConversationList ==> s.selected.Some?
  }

  /** What the effect establishes: wide with a selection means the thread panel. */
  predicate Normalised(s: PageState, isMobile: bool) {
    !isMobile && s.selected.Some? ==> s.activePanel == ConversationView
  }

  function CountTrue(a: bool, b: bool, c: bool): nat {
    (if a then 1 else 0) + (if b then 1 else 0) + (if c then 1 else 0)
  }

  /**
   * The rendering conditions of the four regions. The thread's back and
   * details buttons and the details' close button exist only on mobile.
   * Wide: the list always, thread and details exactly with a selection, the
   * placeholder exactly without one. Mobile: never the placeholder, and
   * while the panel has a selection exactly one region, the active panel.
   */
  function LayoutOf(s: PageState, isMobile: bool): (v: Layout)
    ensures !isMobile ==> v.list && (v.thread <==> s.selected.Some?) && (v.details <==> s.selected.Some?)
    ensures !isMobile ==> (v.emptyState <==> s.selected.None?) && !(v.emptyState && v.thread)
    ensures !isMobile ==> !v.backButton && !v.detailsButton && !v.closeButton
    ensures isMobile ==> !v.emptyState
    ensures isMobile && PanelHasSelection(s) ==>
              && CountTrue(v.list, v.thread, v.details) == 1
              && (v.list <==> s.activePanel == ConversationList)
              && (v.thread <==> s.activePanel == ConversationView)
              && (v.details <==> s.activePanel == UserDetails)
    ensures v.backButton == v.detailsButton && (v.backButton <==> isMobile && v.thread)
    ensures v.closeButton <==> isMobile && v.details
  {
    var list := !isMobile || s.activePanel == ConversationList;
    var thread := (!isMobile || s.activePanel == ConversationView) && s.selected.Some?;
    var details := (!isMobile || s.activePanel == UserDetails) && s.selected.Some?;
    var emptyState := s.selected.None? && !isMobile;
    Layout(list, thread, details, emptyState, isMobile && thread, isMobile && thread, isMobile && details)
  }

  /** The page component's state. */
  class Index {
    var selectedConversation: Option<Conversation>
    var activePanel: Panel
    var sidebarCollapsed: bool

    function State(): PageState
      reads this
    {
      PageState(selectedConversation, activePanel, sidebarCollapsed)
    }

    /** Nothing selected, the list panel active, the sidebar expanded. */
    constructor ()
      ensures State() == PageState(None, ConversationList, false)
      ensures PanelHasSelection(State()) && Normalised(State(), true) && Normalised(State(), false)
    {
      selectedConversation := None;
      activePanel := ConversationList;
      sidebarCollapsed := false;
    }

    /** The effect: on a wide viewport with a selection, switch to the thread panel. */
    method ScreenSizeEffect(isMobile: bool)
      modifies this`activePanel
      ensures activePanel == if !isMobile && selectedConversation.Some? then ConversationView else old(activePanel)
      ensures Normalised(State(), isMobile)
      ensures old(PanelHasSelection(State())) ==> PanelHasSelection(State())
    {
      if !isMobile && selectedConversation.Some? {
        activePanel := ConversationView;
      }
    }

    /**
     * Clicking a conversation in the list records it; on mobile the handler
     * shows the thread, on a wide viewport the effect does, so either way the
     * thread panel is active afterwards. The sidebar is untouched.
     */
    method SelectConversation(conversation: Conversation, isMobile: bool)
      modifies this
      ensures selectedConversation == Some(conversation)
      ensures activePanel == ConversationView
      ensures sidebarCollapsed == old(sidebarCollapsed)
      ensures PanelHasSelection(State()) && Normalised(State(), isMobile)
    {
      selectedConversation := Some(conversation);
      if isMobile {
        activePanel := ConversationView;
      }
      ScreenSizeEffect(isMobile);
    }

    /** A change of viewport classification runs the effect and nothing else. */
    method ViewportChanged(isMobile: bool)
      modifies this
      ensures selectedConversation == old(selectedConversation) && sidebarCollapsed == old(sidebarCollapsed)
      ensures activePanel == if !isMobile && selectedConversation.Some? then ConversationView else old(activePanel)
      ensures Normalised(State(), isMobile)
      ensures old(PanelHasSelection(State())) ==> PanelHasSelection(State())
    {
      ScreenSizeEffect(isMobile);
    }

    /**
     * The thread's back button (wired only on mobile): back to the list,
     * keeping the selection.
     */
    method BackToList(isMobile: bool)
      requires isMobile
      modifies this`activePanel
      ensures activePanel == ConversationList
      ensures selectedConversation == old(selectedConversation) && sidebarCollapsed == old(sidebarCollapsed)
      ensures PanelHasSelection(State()) && Normalised(State(), isMobile)
    {
      activePanel := ConversationList;
    }

    /**
     * The thread's details button (wired only on mobile, on a thread that
     * renders only with a selection): show the customer details.
     */
    method ToggleUserDetails(isMobile: bool)
      requires isMobile && selectedConversation.Some?
      modifies this`activePanel
      ensures activePanel == UserDetails
      ensures selectedConversation == old(selectedConversation) && sidebarCollapsed == old(sidebarCollapsed)
      ensures PanelHasSelection(State()) && Normalised(State(), isMobile)
    {
      activePanel := UserDetails;
    }

    /**
     * The details' close button (wired only on mobile, on a panel that renders
     * only with a selection): back to the thread.
     */
    method CloseUserDetails(isMobile: bool)
      requires isMobile && selectedConversation.Some?
      modifies this`activePanel
      ensures activePanel == ConversationView
      ensures selectedConversation == old(selectedConversation) && sidebarCollapsed == old(sidebarCollapsed)
      ensures PanelHasSelection(State()) && Normalised(State(), isMobile)
    {
      activePanel := ConversationView;
    }

    /** The sidebar and header toggles flip the collapsed flag and nothing else. */
    method ToggleSidebar()
      modifies this`sidebarCollapsed
      ensures sidebarCollapsed == !old(sidebarCollapsed)
      ensures selectedConversation == old(selectedConversation) && activePanel == old(activePanel)
    {
      sidebarCollapsed := !sidebarCollapsed;
    }
  }

  /**
   * A compact walk through the panels, then a widening: select, open details,
   * close them, go back, select again, open details, widen, narrow again.
   */
  method PanelNavigationScenario(x: Conversation)
  {
    var page := new Index();
    assert LayoutOf(page.State(), false).emptyState;
    page.SelectConversation(x, true);
    assert page.State() == PageState(Some(x), ConversationView, false);
    page.ToggleUserDetails(true);
    assert page.activePanel == UserDetails && LayoutOf(page.State(), true).details;
    page.CloseUserDetails(true);
    assert page.activePanel == ConversationView;
    page.BackToList(true);
    assert page.State() == PageState(Some(x), ConversationList, false);
    page.ToggleSidebar();
    page.ToggleSidebar();
    assert page.State() == PageState(Some(x), ConversationList, false);
    page.SelectConversation(x, true);
    page.ToggleUserDetails(true);
    page.ViewportChanged(false);
    var wide := LayoutOf(page.State(), false);
    assert wide.list && wide.thread && wide.details && !wide.emptyState;
    page.ViewportChanged(true);
    assert LayoutOf(page.State(), true).thread;
  }
}
