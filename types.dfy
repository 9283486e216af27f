/** Values the swipe/match controller of the App component works with. */
module Types {

  datatype Option<+T> = None | Some(value: T)

  /** A generated fighter profile. The controller only moves profiles around;
      of their attributes only the name is read (for a card's key). */
  datatype Fighter = Fighter(name: string)

  /** The two swipe buttons: 'left' rejects, 'right' challenges. */
  datatype Direction = Left | Right

  /** A callback handed to setTimeout and not yet run, with the values its
      closure captured when the gesture was made. */
  datatype Timer =
    | MatchCallback(captured: Option<Fighter>)        // the 250 ms callback
    | AnimationEndCallback(direction: Direction)  // the 500 ms callback

  /** How the awaited call to the profile generator ended. */
  datatype FetchOutcome =
    | Fetched(batch: seq<Fighter>)
    | Threw

  const NoAnimation: string := ""
  const SwipeLeftClass: string := "animate-swipe-left"
  const SwipeRightClass: string := "animate-swipe-right"

  /** Shown when the generator returned an empty list. */
  const EmptyResultMessage: string := "Neizdevās ielādēt cīkstoņus. Mēģiniet vēlreiz."
  /** Shown when the generator threw. */
  const FetchFailedMessage: string := "Notika kļūda, ielādējot cīkstoņus."

  /** The three values of the animation class are distinct strings. */
  lemma AnimationClassesDistinct()
    ensures NoAnimation != SwipeLeftClass && NoAnimation != SwipeRightClass
    ensures SwipeLeftClass != SwipeRightClass
  {
  }

  /** The animation class a gesture in direction d starts. */
  function AnimationFor(d: Direction): (c: string)
    ensures c != NoAnimation
    ensures c == SwipeRightClass <==> d == Right
    ensures c == SwipeLeftClass <==> d == Left
  {
    AnimationClassesDistinct();
    match d
    case Right => SwipeRightClass
    case Left => SwipeLeftClass
  }

  /** JavaScript indexing `xs[i]`: the element, or undefined (None) past the end. */
  function ElementAt(xs: seq<Fighter>, i: nat): (r: Option<Fighter>)
    ensures r.Some? <==> i < |xs|
    ensures r.Some? ==> r.value == xs[i]
  {
    if i < |xs| then Some(xs[i]) else None
  }
}
