/** The slide-deck viewer (flowchart2/src/components/deck/deck-navigator.tsx): a clamped slide index
    with Previous/Next commands and a notes drawer that can be toggled. */
module DeckNavigator {
  import opened Wrappers

  /** A slide. The MDX source and component overrides are rendering concerns and are not modelled;
      `notes` is the optional field the navigator reads. */
  datatype DeckSlide = DeckSlide(id: string, slideLabel: string, notes: Option<string>)

  const DEFAULT_NOTES := "Keep this drawer ready for quick definitions, facilitation cues, or follow-up actions. The copy can flex per slide without crowding the main canvas."

  /** `activeSlide.notes ?? defaultNotes`: nullish, so an empty `notes` string is still shown. */
  function NotesFor(slide: DeckSlide): (text: string)
    ensures slide.notes.Some? ==> text == slide.notes.value
    ensures slide.notes.None? ==> text == DEFAULT_NOTES
  {
    slide.notes.GetOr(DEFAULT_NOTES)
  }

  function Max(a: int, b: int): int { if a >= b then a else b }
  function Min(a: int, b: int): int { if a <= b then a else b }

  /** The `goPrevious` updater `Math.max(0, value - 1)`: stays in range, and stays put exactly on the first slide. */
  function PreviousIndex(i: int): (r: int)
    ensures 0 <= i ==> 0 <= r <= i
    ensures 0 <= i ==> (r == i <==> i == 0)
    ensures 0 < i ==> r == i - 1
  {
    Max(0, i - 1)
  }

  /** The `goNext` updater `Math.min(total - 1, value + 1)`: stays in range, and stays put exactly on the last slide. */
  function NextIndex(i: int, total: int): (r: int)
    ensures i < total ==> i <= r < total
    ensures i < total ==> (r == i <==> i == total - 1)
    ensures i < total - 1 ==> r == i + 1
  {
    Min(total - 1, i + 1)
  }

  /** Previous undoes Next, and Next undoes Previous, away from the ends. */
  lemma PreviousNextInverse(i: int, total: int)
    requires 0 <= i < total
    ensures i < total - 1 ==> PreviousIndex(NextIndex(i, total)) == i
    ensures 0 < i ==> NextIndex(PreviousIndex(i), total) == i
  {
  }

  class Navigator {
    const slides: seq<DeckSlide>
    var index: int
    var referenceOpen: bool

    /** `slides[index]` is read with no guard, so the deck is non-empty and the index in range. */
    ghost predicate Valid()
      reads this
    {
      0 <= index < |slides|
    }

    constructor (slides: seq<DeckSlide>)
      requires |slides| > 0
      ensures Valid()
      ensures this.slides == slides && index == 0 && !referenceOpen
    {
      this.slides := slides;
      index := 0;
      referenceOpen := false;
    }

    function Total(): nat
      reads this
    {
      |slides|
    }

    /** The notes shown in the drawer. */
    function SlideNotes(): (text: string)
      reads this
      requires Valid()
      ensures slides[index].notes.Some? ==> text == slides[index].notes.value
      ensures slides[index].notes.None? ==> text == DEFAULT_NOTES
    {
      NotesFor(slides[index])
    }

    /** Previous is disabled exactly when it would not move. */
    function IsFirst(): (b: bool)
      reads this
      requires Valid()
      ensures b <==> PreviousIndex(index) == index
    {
      index == 0
    }

    /** Next is hidden exactly when it would not move. */
    function IsLast(): (b: bool)
      reads this
      requires Valid()
      ensures b <==> NextIndex(index, Total()) == index
    {
      index == Total() - 1
    }

    /** The Next control is rendered only when not on the last slide. */
    function NextOffered(): (b: bool)
      reads this
      requires Valid()
      ensures b <==> index < Total() - 1
    {
      !IsLast()
    }

    method GoPrevious()
      requires Valid()
      modifies this`index
      ensures Valid()
      ensures index == PreviousIndex(old(index))
      ensures old(index) == 0 ==> index == 0
    {
      index := PreviousIndex(index);
    }

    method GoNext()
      requires Valid()
      modifies this`index
      ensures Valid()
      ensures index == NextIndex(old(index), Total())
      ensures old(index) == Total() - 1 ==> index == old(index)
    {
      index := NextIndex(index, Total());
    }

    method ToggleReference()
      modifies this`referenceOpen
      ensures referenceOpen == !old(referenceOpen)
    {
      referenceOpen := !referenceOpen;
    }
  }

  /** Toggling the drawer twice restores it and never moves the slide index. */
  method ToggleTwiceRestores(nav: Navigator)
    requires nav.Valid()
    modifies nav
    ensures nav.referenceOpen == old(nav.referenceOpen) && nav.index == old(nav.index)
    ensures nav.Valid()
  {
    nav.ToggleReference();
    nav.ToggleReference();
  }

  /** A three-slide deck: Next twice reaches the last slide, where Next is no longer offered. */
  method ThreeSlideScenario()
  {
    var s := DeckSlide("slide-01", "Greeting", None);
    var nav := new Navigator([s, s.(id := "slide-02"), s.(id := "slide-03")]);
    assert nav.IsFirst() && nav.NextOffered();
    nav.GoPrevious();
    assert nav.index == 0;
    nav.GoNext();
    nav.GoNext();
    assert nav.index == 2 && nav.IsLast() && !nav.NextOffered();
    nav.GoNext();
    assert nav.index == 2;
    assert nav.SlideNotes() == DEFAULT_NOTES;
  }
}
