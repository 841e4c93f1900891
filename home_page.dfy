/** The home page: the carousel of chef types, shown three to a slide group,
    with its next/previous buttons, the automatic advance on wide screens and
    the dot buttons; and the redirect of the hire-a-chef search form. */
module HomePage {
  import opened Wrappers
  import opened JsUri

  /** The number of chef types shown (`chefTypes.length`). */
  const ChefTypeCount := 5
  const CardsPerGroup := 3
  /** The width below which the page counts as mobile. */
  const MobileWidth := 768

  /** `Math.ceil(a / b)` for a non-negative `a` and a positive `b`. */
  function CeilDiv(a: nat, b: nat): (r: nat)
    requires b > 0
    ensures r * b >= a && (r > 0 ==> (r - 1) * b < a)
  {
    (a + b - 1) / b
  }

  /** The number of slide groups: enough groups of three for all chef types. */
  function SlideGroups(): (n: nat)
    ensures n == 2
  {
    CeilDiv(ChefTypeCount, CardsPerGroup)
  }

  /** JavaScript's `%`, which keeps the sign of the dividend. */
  function JsRem(a: int, n: int): (r: int)
    requires n > 0
    ensures a >= 0 ==> 0 <= r < n && r == a % n
    ensures a < 0 ==> -n < r <= 0
  {
    if a >= 0 then a % n else -((-a) % n)
  }

  /** The updater of `nextSlide` and of the automatic advance. */
  function NextIndex(s: int): int {
    JsRem(s + 1, SlideGroups())
  }

  /** The updater of `prevSlide`. */
  function PrevIndex(s: int): int {
    JsRem(s - 1 + SlideGroups(), SlideGroups())
  }

  predicate InRange(s: int) {
    0 <= s < SlideGroups()
  }

  /** Both steps keep a slide index in range and go round the groups. */
  lemma StepsStayInRange(s: int)
    requires InRange(s)
    ensures InRange(NextIndex(s)) && InRange(PrevIndex(s))
    ensures NextIndex(s) == (s + 1) % SlideGroups() && PrevIndex(s) == (s - 1 + SlideGroups()) % SlideGroups()
  {
  }

  /** The previous-slide step undoes the next-slide step, and the other way
      round. */
  lemma PrevUndoesNext(s: int)
    requires InRange(s)
    ensures PrevIndex(NextIndex(s)) == s && NextIndex(PrevIndex(s)) == s
  {
  }

  /** Going forward as many times as there are groups returns to the start. */
  lemma {:induction false} NextCycles(s: int, k: nat)
    requires InRange(s)
    ensures InRange(NextIterate(s, k)) && NextIterate(s, k) == (s + k) % SlideGroups()
  {
    if k > 0 {
      NextCycles(s, k - 1);
    }
  }

  /** `k` presses of the next button. */
  function NextIterate(s: int, k: nat): int {
    if k == 0 then s else NextIndex(NextIterate(s, k - 1))
  }

  /** The carousel state of the page. */
  class Carousel {
    var currentSlide: int
    var isMobile: bool

    /** The first group is shown; the width is not yet measured. */
    constructor ()
      ensures currentSlide == 0 && !isMobile && InRange(currentSlide)
    {
      currentSlide := 0;
      isMobile := false;
    }

    /** `checkMobile`: measures the window width. */
    method CheckMobile(innerWidth: int)
      modifies this
      ensures isMobile == (innerWidth < MobileWidth) && currentSlide == old(currentSlide)
    {
      isMobile := innerWidth < MobileWidth;
    }

    /** `nextSlide` */
    method NextSlide()
      modifies this
      ensures currentSlide == NextIndex(old(currentSlide)) && isMobile == old(isMobile)
      ensures old(InRange(currentSlide)) ==> InRange(currentSlide)
    {
      var s := currentSlide;
      currentSlide := NextIndex(s);
      if InRange(s) {
        StepsStayInRange(s);
      }
    }

    /** `prevSlide` */
    method PrevSlide()
      modifies this
      ensures currentSlide == PrevIndex(old(currentSlide)) && isMobile == old(isMobile)
      ensures old(InRange(currentSlide)) ==> InRange(currentSlide)
    {
      var s := currentSlide;
      currentSlide := PrevIndex(s);
      if InRange(s) {
        StepsStayInRange(s);
      }
    }

    /** One tick of the four-second timer: it runs only when the page is not
        on a mobile screen, and then takes the next-slide step. */
    method AutoAdvanceTick()
      modifies this
      ensures isMobile == old(isMobile)
      ensures old(isMobile) ==> currentSlide == old(currentSlide)
      ensures !old(isMobile) ==> currentSlide == NextIndex(old(currentSlide))
    {
      if !isMobile {
        currentSlide := NextIndex(currentSlide);
      }
    }

    /** A dot button: the dots are rendered one per group, each setting the
        slide to its own index. */
    method SelectDot(index: nat)
      requires index < SlideGroups()
      modifies this
      ensures currentSlide == index && InRange(currentSlide) && isMobile == old(isMobile)
    {
      currentSlide := index;
    }
  }

  /** The page the hire-a-chef form sends the visitor to. */
  const SearchPath := "/findchef"

  /** The redirect of the hire-a-chef form: the search text as the `search`
      parameter, encoded; without a search, the bare search page. */
  function SearchRedirect(search: string): (url: string)
    ensures search == "" ==> url == SearchPath
    ensures search != "" ==> url == SearchPath + "?search=" + EncodeUriComponent(search)
  {
    if search != "" then SearchPath + "?search=" + EncodeUriComponent(search) else SearchPath
  }

  /** The `search` parameter of the redirect carries exactly the text typed,
      and nothing in it can end the parameter early. */
  lemma SearchRedirectCarriesQuery(search: string)
    requires search != ""
    ensures var url := SearchRedirect(search);
      var value := url[|SearchPath + "?search="|..];
      && DecodeUriComponent(value) == Some(search)
      && forall i :: 0 <= i < |value| ==> value[i] != '&' && value[i] != '#' && value[i] != ' '
  {
    var prefix := SearchPath + "?search=";
    var url := SearchRedirect(search);
    assert url[|prefix|..] == EncodeUriComponent(search);
    DecodeUriOfEncode(search);
  }
}
