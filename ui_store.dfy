/** The UI preferences store: whether the sidebar is collapsed, the colour theme and the language. */
module UiStore {

  datatype Theme = Light | Dark
  datatype Language = Vi | En

  class Store {
    var sidebarCollapsed: bool
    var theme: Theme
    var language: Language

    /** Sidebar expanded, light theme, Vietnamese. */
    constructor()
      ensures !sidebarCollapsed && theme == Light && language == Vi
    {
      sidebarCollapsed, theme, language := false, Light, Vi;
    }

    /** Flips the sidebar; the other preferences are unchanged. */
    method ToggleSidebar()
      modifies this
      ensures sidebarCollapsed == !old(sidebarCollapsed)
      ensures theme == old(theme) && language == old(language)
    {
      sidebarCollapsed := !sidebarCollapsed;
    }

    method SetSidebarCollapsed(collapsed: bool)
      modifies this
      ensures sidebarCollapsed == collapsed
      ensures theme == old(theme) && language == old(language)
    {
      sidebarCollapsed := collapsed;
    }

    method SetTheme(t: Theme)
      modifies this
      ensures theme == t
      ensures sidebarCollapsed == old(sidebarCollapsed) && language == old(language)
    {
      theme := t;
    }

    method SetLanguage(l: Language)
      modifies this
      ensures language == l
      ensures sidebarCollapsed == old(sidebarCollapsed) && theme == old(theme)
    {
      language := l;
    }
  }

  /** Toggling the sidebar twice leaves every preference as it was. */
  method ToggleTwiceRestores(ui: Store)
    modifies ui
    ensures ui.sidebarCollapsed == old(ui.sidebarCollapsed)
    ensures ui.theme == old(ui.theme) && ui.language == old(ui.language)
  {
    ui.ToggleSidebar();
    ui.ToggleSidebar();
  }

  /** Setting the sidebar state twice to the same value is the same as setting it once. */
  method SetCollapsedTwice(ui: Store, collapsed: bool)
    modifies ui
    ensures ui.sidebarCollapsed == collapsed
    ensures ui.theme == old(ui.theme) && ui.language == old(ui.language)
  {
    ui.SetSidebarCollapsed(collapsed);
    var once := ui.sidebarCollapsed;
    ui.SetSidebarCollapsed(collapsed);
    assert ui.sidebarCollapsed == once;
  }
}
