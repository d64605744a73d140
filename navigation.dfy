/** The page shell's state (App's currentPage, isMobileMenuOpen and
    isScrolled), the NavBar and Footer handlers that change it, and the page
    identifiers the site's built-in controls navigate to. */
module Navigation {
  import opened Router

  /** The navbar pins itself and changes style once the window has been
      scrolled past this many pixels. */
  const ScrollThreshold: real := 10.0

  /** NavBar's navItems, in order: the targets of the desktop links and of
      the mobile-menu links. */
  const NavItemPages: seq<string> := [
    "home", "about", "services", "portfolio", "team", "pricing", "blog", "contact"
  ]

  /** The `page` field of each entry of projects, the target of its card. */
  const ProjectPages: seq<string> := [
    "case-study", "portfolio", "portfolio", "portfolio", "portfolio", "portfolio"
  ]

  /** The footer's logo link and its four quick links. */
  const FooterPages: seq<string> := ["home", "about", "services", "portfolio", "contact"]

  /** The remaining buttons and links: the navbar logo, the desktop and mobile
      "Start Project" buttons, the hero's two buttons, "View all projects", and
      the call-to-action section's two buttons. */
  const ButtonPages: seq<string> := [
    "home", "contact", "contact", "services", "portfolio", "portfolio", "contact", "services"
  ]

  /** Every page identifier that a control defined in app.jsx navigates to.
      The controls of the page components app.jsx only refers to are unknown. */
  const WiredPages: seq<string> := NavItemPages + ProjectPages + FooterPages + ButtonPages

  /** No control defined in app.jsx leads to the NotFound page: every
      target it sets is one the router recognises. */
  lemma WiredPagesRouted(p: string)
    requires p in WiredPages
    ensures Route(p) != NotFoundPage
  {
  }

  /** The shell's state, updated in place by the navigation handlers. */
  class Shell {
    var currentPage: string
    var isMobileMenuOpen: bool
    var isScrolled: bool

    /** The initial state: the home page, menu closed, not scrolled. */
    constructor ()
      ensures currentPage == "home" && !isMobileMenuOpen && !isScrolled
      ensures RenderPage() == HomePage
    {
      currentPage := "home";
      isMobileMenuOpen := false;
      isScrolled := false;
    }

    /** renderPage: the view shown depends on currentPage alone. */
    function RenderPage(): (v: View)
      reads this
      ensures v == NotFoundPage <==> currentPage !in RoutedPages
    {
      Route(currentPage)
    }

    /** A desktop nav link, the logo, a "Start Project" or section button, a
        project card or a footer link: set the page and nothing else. */
    method SetPage(page: string)
      modifies this
      ensures currentPage == page && RenderPage() == Route(page)
      ensures isMobileMenuOpen == old(isMobileMenuOpen) && isScrolled == old(isScrolled)
    {
      currentPage := page;
    }

    /** A mobile-menu link or the mobile "Start Project" button: set the page
        and close the menu, as one transition. */
    method SetPageFromMobileMenu(page: string)
      modifies this
      ensures currentPage == page && RenderPage() == Route(page)
      ensures !isMobileMenuOpen && isScrolled == old(isScrolled)
    {
      currentPage := page;
      isMobileMenuOpen := false;
    }

    /** The menu button: open a closed menu or close an open one. */
    method ToggleMobileMenu()
      modifies this
      ensures isMobileMenuOpen == !old(isMobileMenuOpen)
      ensures currentPage == old(currentPage) && isScrolled == old(isScrolled)
    {
      isMobileMenuOpen := !isMobileMenuOpen;
    }

    /** The scroll listener: record whether the window's vertical offset is
        past the threshold. */
    method OnScroll(scrollY: real)
      modifies this
      ensures isScrolled <==> scrollY > ScrollThreshold
      ensures currentPage == old(currentPage) && isMobileMenuOpen == old(isMobileMenuOpen)
    {
      isScrolled := scrollY > ScrollThreshold;
    }
  }

  /** Pressing the menu button twice leaves the menu as it was. */
  method ToggleTwice(shell: Shell)
    modifies shell
    ensures shell.isMobileMenuOpen == old(shell.isMobileMenuOpen)
    ensures shell.currentPage == old(shell.currentPage) && shell.isScrolled == old(shell.isScrolled)
  {
    shell.ToggleMobileMenu();
    shell.ToggleMobileMenu();
  }
}
