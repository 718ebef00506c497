/**
 * The onboarding carousel (app/components/Onboarding.tsx): three slides
 * stepped by the primary button, a skip button, and the login options
 * that replace the carousel once the user gets past it.
 */
module OnboardingFlow {
  /** `slides.length`. */
  const SlideCount: nat := 3

  /** The component's two pieces of state. */
  datatype Carousel = Carousel(currentSlide: int, showLoginOptions: bool)

  const Initial: Carousel := Carousel(0, false)

  /**
   * The buttons. The primary button and "Saltar" are only rendered with the
   * carousel; "Ingresar con correo" only with the login options.
   */
  datatype Event = NextPressed | SkipPressed | EmailPressed

  predicate Enabled(c: Carousel, e: Event) {
    match e
    case NextPressed => !c.showLoginOptions
    case SkipPressed => !c.showLoginOptions
    case EmailPressed => c.showLoginOptions
  }

  /** `nextSlide`, `skip`, and the email button, which only calls `onComplete`. */
  function Step(c: Carousel, e: Event): Carousel {
    match e
    case NextPressed =>
      if c.currentSlide < SlideCount - 1 then c.(currentSlide := c.currentSlide + 1)
      else c.(showLoginOptions := true)
    case SkipPressed => c.(showLoginOptions := true)
    case EmailPressed => c
  }

  /** The primary button's text. */
  function PrimaryLabel(c: Carousel): string {
    if c.currentSlide == SlideCount - 1 then "Empezar" else "Siguiente"
  }

  function Run(t: seq<Event>): Carousel
    decreases |t|
  {
    if t == [] then Initial else Step(Run(t[..|t| - 1]), t[|t| - 1])
  }

  predicate ValidTrace(t: seq<Event>)
    decreases |t|
  {
    t == [] || (ValidTrace(t[..|t| - 1]) && Enabled(Run(t[..|t| - 1]), t[|t| - 1]))
  }

  function Count(t: seq<Event>, e: Event): nat
    decreases |t|
  {
    if t == [] then 0 else Count(t[..|t| - 1], e) + (if t[|t| - 1] == e then 1 else 0)
  }

  /** The slide index is always one of the three slides. */
  predicate Inv(c: Carousel) {
    0 <= c.currentSlide < SlideCount
  }

  /**
   * `nextSlide` advances by one below the last slide and otherwise reveals
   * the login options on the same slide; `skip` reveals them from any
   * slide; no step leaves the slides or hides the options again.
   */
  lemma StepFacts(c: Carousel, e: Event)
    requires Inv(c)
    ensures Inv(Step(c, e))
    ensures c.showLoginOptions ==> Step(c, e).showLoginOptions
    ensures e == NextPressed && c.currentSlide < SlideCount - 1 ==>
      Step(c, e) == Carousel(c.currentSlide + 1, c.showLoginOptions)
    ensures e == NextPressed && c.currentSlide == SlideCount - 1 ==>
      Step(c, e) == Carousel(c.currentSlide, true)
    ensures e == SkipPressed ==> Step(c, e) == Carousel(c.currentSlide, true)
  {
  }

  /** The primary button reads "Empezar" exactly on the last slide. */
  lemma PrimaryLabelOnLastSlide(c: Carousel)
    requires Inv(c)
    ensures PrimaryLabel(c) == "Empezar" <==> c.currentSlide == 2
    ensures PrimaryLabel(c) == "Empezar" ==> Step(c, NextPressed).showLoginOptions
  {
    assert |"Empezar"| != |"Siguiente"|;
  }

  /**
   * Along any trace: the slide is the number of primary presses, capped
   * at the last slide; the login options show only after a skip or a
   * third primary press; and `onComplete` is reached only from them.
   */
  lemma {:induction false} TraceFacts(t: seq<Event>)
    requires ValidTrace(t)
    ensures var c := Run(t);
      && Inv(c)
      && c.currentSlide == (if Count(t, NextPressed) < SlideCount then Count(t, NextPressed) else SlideCount - 1)
      && Count(t, NextPressed) <= SlideCount
      && (!c.showLoginOptions ==> Count(t, SkipPressed) == 0 && Count(t, NextPressed) < SlideCount && Count(t, EmailPressed) == 0)
      && (c.showLoginOptions ==> Count(t, SkipPressed) == 1 || Count(t, NextPressed) == SlideCount)
      && Count(t, SkipPressed) + (if Count(t, NextPressed) == SlideCount then 1 else 0) <= 1
  {
    if t != [] {
      TraceFacts(t[..|t| - 1]);
    }
  }

  /** The options never hide again once shown: a later state of the same trace shows them too. */
  lemma {:induction false} LoginOptionsStay(t: seq<Event>, n: nat)
    requires ValidTrace(t) && n <= |t| && Run(t[..n]).showLoginOptions
    ensures Run(t).showLoginOptions
    decreases |t|
  {
    if |t| > n {
      var u := t[..|t| - 1];
      assert u[..n] == t[..n];
      LoginOptionsStay(u, n);
    } else {
      assert t[..n] == t;
    }
  }

  lemma Then(t: seq<Event>, e: Event) returns (t': seq<Event>)
    requires ValidTrace(t) && Enabled(Run(t), e)
    ensures t' == t + [e] && ValidTrace(t') && Run(t') == Step(Run(t), e)
    ensures forall x :: Count(t', x) == Count(t, x) + if x == e then 1 else 0
  {
    t' := t + [e];
    assert t'[..|t'| - 1] == t;
  }

  /** Both ways out work: three primary presses, or one skip, then the email button. */
  lemma BothWaysReachComplete()
    ensures exists t :: ValidTrace(t) && Count(t, NextPressed) == 3 && Count(t, SkipPressed) == 0 && Count(t, EmailPressed) == 1
    ensures exists t :: ValidTrace(t) && Count(t, NextPressed) == 0 && Count(t, SkipPressed) == 1 && Count(t, EmailPressed) == 1
  {
    var a1 := Then([], NextPressed);
    var a2 := Then(a1, NextPressed);
    var a3 := Then(a2, NextPressed);
    var a4 := Then(a3, EmailPressed);
    assert Count(a4, NextPressed) == 3 && Count(a4, SkipPressed) == 0 && Count(a4, EmailPressed) == 1;
    var b1 := Then([], SkipPressed);
    var b2 := Then(b1, EmailPressed);
    assert Count(b2, NextPressed) == 0 && Count(b2, SkipPressed) == 1 && Count(b2, EmailPressed) == 1;
  }

  class Onboarding {
    var currentSlide: int
    var showLoginOptions: bool

    function State(): Carousel
      reads this
    {
      Carousel(currentSlide, showLoginOptions)
    }

    constructor ()
      ensures State() == Initial
    {
      currentSlide := 0;
      showLoginOptions := false;
    }

    /** `nextSlide`, behind the primary button. */
    method NextSlide()
      requires Enabled(State(), NextPressed)
      modifies this
      ensures State() == Step(old(State()), NextPressed)
    {
      if currentSlide < SlideCount - 1 {
        currentSlide := currentSlide + 1;
      } else {
        showLoginOptions := true;
      }
    }

    /** `skip`, behind "Saltar". */
    method Skip()
      requires Enabled(State(), SkipPressed)
      modifies this
      ensures State() == Step(old(State()), SkipPressed)
    {
      showLoginOptions := true;
    }

    /** "Ingresar con correo": returns whether `onComplete` was called; nothing changes. */
    method PressEmail() returns (completed: bool)
      ensures completed <==> showLoginOptions
    {
      completed := showLoginOptions;
    }
  }
}
