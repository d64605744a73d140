# Q-digital site: view router and testimonial carousel

The Q-digital site is a single-page marketing site written as one React
component file. Almost all of it is markup and styling. This project models
its two pieces of behaviour and proves properties of them:

- **The view router.** `App` keeps a `currentPage` identifier, and
  `renderPage` switches on it. The switch picks one of twelve views, with a
  `NotFoundPage` default. Around it sit the navigation handlers of `NavBar`,
  the hero, the project cards, the call-to-action section and `Footer`, the
  mobile-menu toggle, and the scroll flag of the navbar.
- **The testimonial carousel.** `TestimonialsSection` keeps `currentSlide` and
  `isAutoPlaying`. An interval timer advances the slide while auto-playing.
  There are previous, play/pause and next buttons, and one dot per slide.

Modules:

- `Router` (router.dfy) holds the `View` datatype and `Route`, the
  `renderPage` switch. `Route` is specified against a separate routing table:
  the list `RoutedPages` of identifiers and the list `RoutedViews` of the views
  they select, position by position. `BlogPostPage(post)`
  carries the index into `blogPosts` of the post it shows.
- `Navigation` (navigation.dfy) holds the class `Shell`. Its fields are
  `currentPage`, `isMobileMenuOpen` and `isScrolled`, and its methods are the
  handlers that update them. The module also lists, as constants, every page
  target wired into the controls defined in app.jsx.
- `Carousel` (carousel.dfy) holds the class `Slides`, the carousel's state
  updated in place by its handlers. It also holds a pure model of the same
  transitions: `Step` for one event and `Run` for a sequence of events. Each
  method of `Slides` is specified by `Step`. The lemmas about sequences of
  events are stated over `Run`.

The carousel keeps its slide count `count` general (any `count >= 1`). In the
source it is `testimonials.length`, which is 3 (`TestimonialCount`).
JavaScript's `%` truncates toward zero and Dafny's is Euclidean. They agree
here, because every dividend the source forms is non-negative:
`prev + 1` and `prev - 1 + length` with `0 <= prev`.

The next and previous buttons flip `isAutoPlaying` as well as moving the slide.
Pressing next while paused therefore resumes auto-play. The model reproduces
this as written.

## Model

| member | source | states |
|---|---|---|
| `Router.Route` | app.jsx:48-76 | Each of the twelve identifiers `home` … `contact` selects exactly the view the routing table pairs it with, and that view is selected by no other string. A string is routed to `NotFoundPage` if and only if it is not one of the twelve. |
| `Router.RouteInjective` | app.jsx:48-76 | Two strings that route to the same view other than `NotFoundPage` are equal, so the twelve identifiers give twelve distinct views. |
| `Router.RouteBlogPost` | app.jsx:66-71 | `blog-post-k` shows `BlogPostPage` with `blogPosts[k-1]`, for k = 1, 2, 3. |
| `Navigation.WiredPagesRouted` | app.jsx:97-106 | No control defined in app.jsx reaches `NotFoundPage`. Every target wired in app.jsx is a routed identifier: the nav items, the project cards' `page` fields (348-385), the logo, hero, "View all projects" and call-to-action buttons, and the footer links (651, 677-680). |
| `Navigation.Shell.constructor` | app.jsx:36-38 | The initial state is page `home`, mobile menu closed, not scrolled, and the home page is rendered. |
| `Navigation.Shell.RenderPage` | app.jsx:48-77 | The rendered view depends only on `currentPage`. It is `NotFoundPage` exactly when `currentPage` is not a routed identifier. |
| `Navigation.Shell.SetPage` | app.jsx:121 | A desktop nav link, logo, button, project card or footer link sets `currentPage` to its target and renders that target's view. It leaves the menu flag and the scroll flag unchanged. |
| `Navigation.Shell.SetPageFromMobileMenu` | app.jsx:157-160 | A mobile-menu link, or the mobile "Start Project" button (167-170), sets `currentPage` to its target and closes the menu in the same transition. It leaves the scroll flag unchanged. |
| `Navigation.Shell.ToggleMobileMenu` | app.jsx:142 | The menu button negates `isMobileMenuOpen` and changes nothing else. |
| `Navigation.ToggleTwice` | app.jsx:142 | Pressing the menu button twice restores the menu flag, and the page and scroll flag are untouched. |
| `Navigation.Shell.OnScroll` | app.jsx:41-43 | After a scroll event, `isScrolled` holds exactly when `scrollY > 10`. The page and the menu flag are untouched. |
| `Carousel.NextIndex` | app.jsx:512-514 | The next index stays in `[0, N)`. It is `i + 1`, except that `N - 1` wraps to `0`. |
| `Carousel.PrevIndex` | app.jsx:516-518 | The previous index stays in `[0, N)`. It is `i - 1`, except that `0` wraps to `N - 1`. |
| `Carousel.PrevUndoesNext` | app.jsx:512-518 | Previous undoes next on the index, and next undoes previous. |
| `Carousel.Step` | app.jsx:502-597 | Every transition (tick, previous, play/pause, next, and a dot of an existing slide) keeps `0 <= currentSlide < N`. A tick never changes the mode, and it changes the slide only while auto-playing. |
| `Carousel.Run` | app.jsx:502-597 | After any sequence of ticks and clicks, the slide index is still in `[0, N)`. |
| `Carousel.TicksAdvance` | app.jsx:502-510 | While auto-playing with no clicks, k ticks advance the slide by exactly k modulo N and keep auto-play on. |
| `Carousel.TicksWhilePaused` | app.jsx:502-510 | While paused, any number of ticks changes nothing. |
| `Carousel.FullCycle` | app.jsx:505-507 | N ticks in auto-play return to the starting slide. |
| `Carousel.CycleShowsEachOnce` | app.jsx:505-507 | Within one cycle of auto-play no slide repeats: after j and after k ticks, with j < k < N, the slides differ. So N ticks show every testimonial exactly once. |
| `Carousel.ThreeSlideScenario` | app.jsx:562-586 | With three testimonials, starting at slide 0 and auto-playing: next gives slide 1 paused, next again gives slide 2 auto-playing, and a tick then wraps to slide 0. |
| `Carousel.Slides.constructor` | app.jsx:499-500 | The carousel starts at slide 0 and auto-playing. |
| `Carousel.Slides.TimerTick` | app.jsx:505-507 | A timer tick advances the slide with wraparound if auto-playing, and does nothing otherwise. The mode is unchanged. |
| `Carousel.Slides.PrevButton` | app.jsx:563-566 | The previous button negates `isAutoPlaying` and moves to the previous slide, wrapping at 0. |
| `Carousel.Slides.PlayPauseButton` | app.jsx:573 | Play/pause negates `isAutoPlaying` and leaves `currentSlide` unchanged. |
| `Carousel.Slides.NextButton` | app.jsx:580-583 | The next button negates `isAutoPlaying` and moves to the next slide, wrapping at N. |
| `Carousel.Slides.DotButton` | app.jsx:594-597 | Dot i sets `currentSlide = i` and `isAutoPlaying = false`. |

## Left out

- Markup, Tailwind classes, icons, images and copy are left out. This includes the testimonials' text, the project titles and the navigation labels; only the navigation targets are kept. None of it has behaviour.
- The slide transform (`translateX`) and the active-dot highlight are left out, because they are rendering only.
- Registering and removing the window scroll listener is left out. Only the threshold test it applies is modelled (`OnScroll`).
- `scrollY` is modelled as a `real`, not as an IEEE double.
- `setInterval`/`clearInterval` and the 5000 ms period are left out. A tick is an abstract event that takes effect only while `isAutoPlaying` holds. This is exactly when the effect arms an interval, so the model does not keep a separate timer handle.
- Timer phase is left out. Re-arming the interval after a mode change restarts its 5000 ms count. The model cannot see this, because it has no clock.
- The carousel's lifecycle is left out, and `Shell` and `Slides` are not linked. `TestimonialsSection` is part of `HomePage` (app.jsx:191). Leaving `home` unmounts it, and coming back remounts it at slide 0, auto-playing. The model does not capture this reset. It also does not state that no tick arrives after unmounting.
- React batching and the render cycle are left out. Each click handler's setter calls are one atomic transition.
- The components `HomePage`, `AboutPage`, `BlogPostPage`, `NotFoundPage` and the rest, and the `blogPosts` array, are treated as opaque view constructors. Most of them are not defined in the file. The navigation done inside `PortfolioPage` and `BlogPage` is not part of this model either. Both receive `setCurrentPage` (app.jsx:57, 65) but are not defined in app.jsx, so their targets are unknown. This includes the blog page's links to `blog-post-k`.
- A carousel with no slides is left out: `Carousel.Slides.constructor` requires at least one. The source uses a fixed list of three, and with zero testimonials its `%` would produce `NaN`.
- The condition that the mobile menu is open is not modelled as a precondition of `Navigation.Shell.SetPageFromMobileMenu`. In the source its links are only rendered while the menu is open, but the handler itself makes no such check.
