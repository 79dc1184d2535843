/** The deck chooser (flowchart2/src/components/deck/deck-selection.tsx): a primary deck picked by
    slug, the other decks as cards, and the rules for disabled cards, links and badges. */
module DeckSelection {
  import opened Wrappers
  import opened Strings
  import opened Seqs

  datatype DeckOption = DeckOption(
    slug: string,
    title: string,
    description: string,
    href: Option<string>,
    comingSoon: Option<bool>)

  const PRIMARY_SLUG := "orientation"
  const FALLBACK_HREF := "/decks"
  const OPEN_LABEL := "Open deck"
  const PREPARING_LABEL := "Preparing materials"

  const DECK_OPTIONS: seq<DeckOption> := [
    DeckOption("orientation", "Clean Digital x Chatobserver",
      "Spin-out structure overview covering operator/channel roles, economics, and the execution checklist.",
      Some("/deck"), None),
    DeckOption("eot", "EOT Perspective",
      "Tailored walkthrough for the Employee Ownership Trust trustees, focused on beneficiary outcomes and governance.",
      Some("/decks/eot"), None),
    DeckOption("board", "Board Perspective",
      "Board-level view covering fiduciary questions, risk posture, and resolution mechanics.",
      Some("/decks/board"), None),
    DeckOption("employee", "Employee Perspective",
      "Internal narrative for the Clean Digital team: what changes, how upside flows, and how to stay aligned.",
      None, Some(true))
  ]

  predicate IsPrimary(deck: DeckOption) { deck.slug == PRIMARY_SLUG }

  /** `DECK_OPTIONS.find(deck => deck.slug === "orientation")`. */
  function PrimaryDeck(options: seq<DeckOption>): (r: Option<DeckOption>)
    ensures r.None? <==> forall i :: 0 <= i < |options| ==> !IsPrimary(options[i])
    ensures r.Some? ==> exists i :: 0 <= i < |options| && options[i] == r.value && IsPrimary(options[i])
                                    && forall j :: 0 <= j < i ==> !IsPrimary(options[j])
  {
    Find(options, IsPrimary)
  }

  /** `DECK_OPTIONS.filter(deck => deck.slug !== "orientation")`. */
  function SecondaryDecks(options: seq<DeckOption>): (r: seq<DeckOption>)
    ensures forall i :: 0 <= i < |r| ==> r[i] in options && !IsPrimary(r[i])
    ensures forall i :: 0 <= i < |options| && !IsPrimary(options[i]) ==> options[i] in r
  {
    Filter(options, (d: DeckOption) => !IsPrimary(d))
  }

  /** The secondary decks keep their original relative order. */
  lemma SecondaryInOrder(options: seq<DeckOption>)
    ensures IsSubsequence(SecondaryDecks(options), options)
  {
    FilterIsSubsequence(options, (d: DeckOption) => !IsPrimary(d));
  }

  /** Each deck with another slug is kept as often as it occurs; the "orientation" deck is dropped. */
  lemma SecondaryCounts(options: seq<DeckOption>, deck: DeckOption)
    ensures multiset(SecondaryDecks(options))[deck] == if IsPrimary(deck) then 0 else multiset(options)[deck]
  {
    FilterCount(options, (d: DeckOption) => !IsPrimary(d), deck);
  }

  function CountPrimary(options: seq<DeckOption>): nat
    decreases |options|
  {
    if |options| == 0 then 0
    else (if IsPrimary(options[0]) then 1 else 0) + CountPrimary(options[1..])
  }

  function AsMultiset(d: Option<DeckOption>): multiset<DeckOption> {
    if d.Some? then multiset{d.value} else multiset{}
  }

  /** With at most one orientation deck, the primary deck and the secondary decks together are
      exactly the options, each once. */
  lemma {:induction false} PrimaryAndSecondaryPartition(options: seq<DeckOption>)
    requires CountPrimary(options) <= 1
    ensures AsMultiset(PrimaryDeck(options)) + multiset(SecondaryDecks(options)) == multiset(options)
    decreases |options|
  {
    if |options| > 0 {
      var head, rest := options[0], options[1..];
      assert options == [head] + rest;
      assert multiset(options) == multiset{head} + multiset(rest);
      FindCons(options, IsPrimary);
      if IsPrimary(head) {
        NoPrimaryMeansNone(rest);
        FilterKeepsAll(rest, (d: DeckOption) => !IsPrimary(d));
        assert SecondaryDecks(options) == rest;
        assert AsMultiset(PrimaryDeck(options)) == multiset{head};
      } else {
        PrimaryAndSecondaryPartition(rest);
        assert SecondaryDecks(options) == [head] + SecondaryDecks(rest);
        assert multiset(SecondaryDecks(options)) == multiset{head} + multiset(SecondaryDecks(rest));
        assert PrimaryDeck(options) == PrimaryDeck(rest);
      }
    }
  }

  lemma {:induction false} NoPrimaryMeansNone(options: seq<DeckOption>)
    requires CountPrimary(options) == 0
    ensures forall i :: 0 <= i < |options| ==> !IsPrimary(options[i])
    decreases |options|
  {
    if |options| > 0 {
      NoPrimaryMeansNone(options[1..]);
      forall i | 1 <= i < |options| ensures !IsPrimary(options[i]) {
        assert options[i] == options[1..][i - 1];
      }
    }
  }

  /** How a secondary deck is rendered: a disabled group, or a link with its target. */
  datatype Card = Card(slug: string, disabled: bool, actionLabel: string, comingSoonBadge: bool, target: Option<string>)

  /** `!deck.href`: truthiness, so an empty `href` also disables the card. */
  predicate IsDisabled(deck: DeckOption) { !IsTruthy(deck.href) }

  /** The primary link target `href ?? "/decks"` (nullish: an empty `href` is kept). */
  function PrimaryTarget(deck: DeckOption): (t: string)
    ensures deck.href.Some? ==> t == deck.href.value
    ensures deck.href.None? ==> t == FALLBACK_HREF
  {
    deck.href.GetOr(FALLBACK_HREF)
  }

  function CardFor(deck: DeckOption): (c: Card)
    ensures c.slug == deck.slug
    ensures c.disabled <==> !IsTruthy(deck.href)
    ensures c.actionLabel == (if c.disabled then PREPARING_LABEL else OPEN_LABEL)
    ensures c.comingSoonBadge <==> deck.comingSoon == Some(true)
    ensures c.target.Some? <==> !c.disabled
    // An enabled card links to its own non-empty href: the "/decks" fallback is never taken here.
    ensures c.target.Some? ==> deck.href.Some? && c.target.value == deck.href.value && c.target.value != ""
  {
    var disabled := IsDisabled(deck);
    Card(deck.slug, disabled,
      if !disabled then OPEN_LABEL else PREPARING_LABEL,
      deck.comingSoon == Some(true),
      if disabled then None else Some(deck.href.GetOr(FALLBACK_HREF)))
  }

  /** With the given decks, orientation is the primary deck and links to "/deck". */
  lemma ShippedPrimary()
    ensures PrimaryDeck(DECK_OPTIONS) == Some(DECK_OPTIONS[0])
    ensures PrimaryTarget(DECK_OPTIONS[0]) == "/deck"
  {
    assert IsPrimary(DECK_OPTIONS[0]);
  }

  /** With the given decks, the other three follow in their original order. */
  lemma ShippedSecondaries()
    ensures SecondaryDecks(DECK_OPTIONS) == DECK_OPTIONS[1..]
  {
    var rest := DECK_OPTIONS[1..];
    assert !IsPrimary(rest[0]) && !IsPrimary(rest[1]) && !IsPrimary(rest[2]);
    FilterKeepsAll(rest, (d: DeckOption) => !IsPrimary(d));
    assert IsPrimary(DECK_OPTIONS[0]);
    assert DECK_OPTIONS[1..] == rest;
  }

  /** With the given decks, only "employee" is disabled and only it carries the coming-soon badge. */
  lemma ShippedCards()
    ensures forall i :: 1 <= i < |DECK_OPTIONS| ==>
      (CardFor(DECK_OPTIONS[i]).disabled <==> DECK_OPTIONS[i].slug == "employee")
    ensures forall i :: 1 <= i < |DECK_OPTIONS| ==>
      (CardFor(DECK_OPTIONS[i]).comingSoonBadge <==> DECK_OPTIONS[i].slug == "employee")
  {
  }
}
