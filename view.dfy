/** What the App component renders for a state: which of its four screens,
    and on the browsing screen which cards and whether the match modal. */
module View {
  import opened Types
  import opened Transitions

  /** One FighterCard element: the position it was rendered for, its fighter,
      whether it is the top card and the animation class it receives. */
  datatype Card = Card(index: nat, fighter: Fighter, isTopCard: bool, animationClass: string)

  datatype Screen =
    | LoadingScreen
    | ErrorScreen(message: string)
    | EndScreen
    | BrowsingScreen(cards: seq<Card>, modal: Option<Fighter>)

  /** JavaScript truthiness of the `string | null` error field. */
  predicate ErrorShown(error: Option<string>) {
    error.Some? && error.value != ""
  }

  /** The card the map callback builds for position i. */
  function CardAt(fighters: seq<Fighter>, current: nat, animationClass: string, i: nat): Card
    requires i < |fighters|
  {
    Card(i, fighters[i], i == current, if i == current then animationClass else NoAnimation)
  }

  /** `fighters.map` from position i on, with the callback returning null for
      the positions before the current card and after the next one. The
      cards kept are the positions lo .. hi - 1, where lo is i raised to the
      current index and hi is the current index plus two, cut at the end. */
  function MapCardsFrom(fighters: seq<Fighter>, current: nat, animationClass: string, i: nat): (cards: seq<Card>)
    ensures var lo := if i < current then current else i;
            var hi := if current + 2 < |fighters| then current + 2 else |fighters|;
            && |cards| == (if lo < hi then hi - lo else 0)
            && forall k :: 0 <= k < |cards| ==>
                 lo + k < |fighters| && cards[k] == CardAt(fighters, current, animationClass, lo + k)
    decreases |fighters| - i
  {
    if i >= |fighters| then []
    else
      var rest := MapCardsFrom(fighters, current, animationClass, i + 1);
      if i < current || i > current + 1 then rest
      else [CardAt(fighters, current, animationClass, i)] + rest
  }

  /** The cards under the header: nothing for an empty list, otherwise the
      current card (on top, with the animation class) and the next one (without
      it), as far as the list reaches; never more than two. */
  function VisibleCards(fighters: seq<Fighter>, current: nat, animationClass: string): (cards: seq<Card>)
    ensures |cards| <= 2
    ensures |cards| == (if current >= |fighters| then 0 else if current + 1 < |fighters| then 2 else 1)
    ensures forall k :: 0 <= k < |cards| ==>
              && current + k < |fighters|
              && cards[k].index == current + k
              && cards[k].fighter == fighters[current + k]
              && cards[k].isTopCard == (k == 0)
              && cards[k].animationClass == (if k == 0 then animationClass else NoAnimation)
  {
    if |fighters| > 0 then MapCardsFrom(fighters, current, animationClass, 0) else []
  }

  /** The early returns of App fix a precedence: loading, then the error
      message, then the end screen (every card seen of a non-empty list),
      and otherwise the browsing view with its cards and the modal. */
  function Render(s: State): (screen: Screen)
    ensures screen.LoadingScreen? <==> s.isLoading
    ensures screen.ErrorScreen? <==> !s.isLoading && ErrorShown(s.error)
    ensures screen.ErrorScreen? ==> screen.message == s.error.value
    ensures screen.EndScreen? <==>
              !s.isLoading && !ErrorShown(s.error) && s.currentIndex >= |s.fighters| && |s.fighters| > 0
    ensures screen.BrowsingScreen? ==>
              && screen.cards == VisibleCards(s.fighters, s.currentIndex, s.animationClass)
              && screen.modal == s.matchedFighter
              && (s.fighters == [] || s.currentIndex < |s.fighters|)
  {
    if s.isLoading then LoadingScreen
    else if ErrorShown(s.error) then ErrorScreen(s.error.value)
    else if s.currentIndex >= |s.fighters| && |s.fighters| > 0 then EndScreen
    else BrowsingScreen(VisibleCards(s.fighters, s.currentIndex, s.animationClass), s.matchedFighter)
  }

  /** On the browsing screen of a non-empty list the top card is the one at
      the current index, and it is the only card that carries the animation. */
  lemma BrowsingShowsCurrentCard(s: State)
    requires Render(s).BrowsingScreen? && s.fighters != []
    ensures var cards := Render(s).cards;
            && 1 <= |cards| <= 2
            && cards[0].index == s.currentIndex && cards[0].fighter == s.fighters[s.currentIndex]
            && cards[0].isTopCard && cards[0].animationClass == s.animationClass
            && forall k :: 1 <= k < |cards| ==> !cards[k].isTopCard && cards[k].animationClass == NoAnimation
  {
  }

  /** Every error the controller sets is shown: under the invariant, an error
      screen appears exactly when a fetch has finished with an error. */
  lemma ErrorScreenIffError(s: State)
    requires Valid(s)
    ensures Render(s).ErrorScreen? <==> !s.isLoading && s.error != None
  {
  }
}
