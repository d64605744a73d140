/** The view router: App's renderPage switch, from the current page identifier
    to the one view that is rendered for it. */
module Router {

  /** The views renderPage can produce. BlogPostPage carries the index into
      blogPosts of the post it shows. */
  datatype View =
    | HomePage
    | AboutPage
    | ServicesPage
    | PortfolioPage
    | CaseStudyPage
    | TeamPage
    | PricingPage
    | BlogPage
    | BlogPostPage(post: nat)
    | ContactPage
    | NotFoundPage

  /** The page identifiers the router recognises, in the order of the
      switch's cases. */
  const RoutedPages: seq<string> := [
    "home", "about", "services", "portfolio", "case-study", "team",
    "pricing", "blog", "blog-post-1", "blog-post-2", "blog-post-3", "contact"
  ]

  /** The views of the switch's cases: the case for RoutedPages[i] returns
      RoutedViews[i]. Together the two lists are the routing table. */
  const RoutedViews: seq<View> := [
    HomePage, AboutPage, ServicesPage, PortfolioPage, CaseStudyPage, TeamPage,
    PricingPage, BlogPage, BlogPostPage(0), BlogPostPage(1), BlogPostPage(2), ContactPage
  ]

  /** The identifier of the k-th blog post page (k counted from 1). */
  function BlogPostId(k: nat): string
    requires 1 <= k <= 9
  {
    "blog-post-" + [('0' as int + k) as char]
  }

  /** renderPage: a switch on the page identifier with a NotFound default.
      A recognised identifier selects exactly the view the table pairs it
      with, that view is selected by no other identifier, and every other
      string falls through to NotFoundPage. */
  function Route(page: string): (v: View)
    ensures forall i :: 0 <= i < |RoutedPages| ==> (page == RoutedPages[i] <==> v == RoutedViews[i])
    ensures v == NotFoundPage <==> page !in RoutedPages
  {
    if page == "home" then HomePage
    else if page == "about" then AboutPage
    else if page == "services" then ServicesPage
    else if page == "portfolio" then PortfolioPage
    else if page == "case-study" then CaseStudyPage
    else if page == "team" then TeamPage
    else if page == "pricing" then PricingPage
    else if page == "blog" then BlogPage
    else if page == "blog-post-1" then BlogPostPage(0)
    else if page == "blog-post-2" then BlogPostPage(1)
    else if page == "blog-post-3" then BlogPostPage(2)
    else if page == "contact" then ContactPage
    else NotFoundPage
  }

  /** Only the fallback is shared: two identifiers that route to the same
      view other than NotFoundPage are the same identifier, so the twelve
      identifiers select twelve distinct views. */
  lemma RouteInjective(p: string, q: string)
    requires Route(p) == Route(q) != NotFoundPage
    ensures p == q
  {
    var i :| 0 <= i < |RoutedPages| && RoutedPages[i] == p;
    assert Route(p) == RoutedViews[i];
  }

  /** `blog-post-k` shows blogPosts[k - 1], for k = 1, 2, 3. */
  lemma RouteBlogPost(k: nat)
    requires 1 <= k <= 3
    ensures Route(BlogPostId(k)) == BlogPostPage(k - 1)
  {
    assert RoutedPages[7 + k] == BlogPostId(k);
  }
}
