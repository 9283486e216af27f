/** The App component's state and what each event does to it, as pure
    functions (state, event) -> state. The class in module Component runs the
    same transitions by assigning its fields. */
module Transitions {
  import opened Types

  /** The six useState fields of App, plus the setTimeout callbacks that are
      scheduled and have not run yet, earliest deadline first. */
  datatype State = State(
    fighters: seq<Fighter>,
    currentIndex: nat,
    isLoading: bool,
    error: Option<string>,
    matchedFighter: Option<Fighter>,
    animationClass: string,
    timers: seq<Timer>)

  /** The useState initial values, before the mount effect runs. */
  const Initial: State := State([], 0, true, None, None, NoAnimation, [])

  /** Everything that can happen to the component: a button press, a timer
      callback running, the two halves of fetchFighters, closing the modal. */
  datatype Event =
    | Swipe(direction: Direction)
    | TimerFires
    | FetchStarted
    | FetchResolved(outcome: FetchOutcome)
    | CloseModal

  /** The timers a gesture schedules when it is not dropped: for 'right' the
      match callback (capturing the card under the gesture) and then the end
      of the animation; for 'left' only the end of the animation. */
  function Scheduled(s: State, d: Direction): (ts: seq<Timer>)
    ensures |ts| == (if d == Right then 2 else 1)
    ensures ts[|ts| - 1] == AnimationEndCallback(d)
    ensures d == Right ==> ts[0] == MatchCallback(ElementAt(s.fighters, s.currentIndex))
  {
    match d
    case Right => [MatchCallback(ElementAt(s.fighters, s.currentIndex)), AnimationEndCallback(Right)]
    case Left => [AnimationEndCallback(Left)]
  }

  /** The synchronous part of fetchFighters, up to the await. */
  function StartFetch(s: State): (r: State)
    ensures r.isLoading && r.error == None && r.matchedFighter == None && r.currentIndex == 0
    ensures r.fighters == s.fighters && r.animationClass == s.animationClass && r.timers == s.timers
  {
    s.(isLoading := true, error := None, matchedFighter := None, currentIndex := 0)
  }

  /** The part of fetchFighters after the await, including the finally block. */
  function ResolveFetch(s: State, outcome: FetchOutcome): (r: State)
    ensures !r.isLoading
    ensures outcome == Fetched([]) ==> r.error == Some(EmptyResultMessage) && r.fighters == s.fighters
    ensures outcome == Threw ==> r.error == Some(FetchFailedMessage) && r.fighters == s.fighters
    ensures outcome.Fetched? && outcome.batch != [] ==> r.fighters == outcome.batch && r.error == s.error
    ensures r.currentIndex == s.currentIndex && r.matchedFighter == s.matchedFighter
    ensures r.animationClass == s.animationClass && r.timers == s.timers
  {
    var s' :=
      match outcome
      case Fetched(batch) =>
        if |batch| == 0 then s.(error := Some(EmptyResultMessage)) else s.(fighters := batch)
      case Threw => s.(error := Some(FetchFailedMessage));
    s'.(isLoading := false)
  }

  /** handleSwipe: dropped while an animation class is set; otherwise starts
      the animation and schedules its timers, changing nothing else yet. */
  function HandleSwipe(s: State, d: Direction): (r: State)
    ensures s.animationClass != NoAnimation ==> r == s
    ensures s.animationClass == NoAnimation ==>
              r.animationClass == AnimationFor(d) && r.timers == s.timers + Scheduled(s, d)
    ensures r.fighters == s.fighters && r.currentIndex == s.currentIndex
    ensures r.matchedFighter == s.matchedFighter
    ensures r.isLoading == s.isLoading && r.error == s.error
  {
    if s.animationClass != NoAnimation then s
    else s.(animationClass := AnimationFor(d), timers := s.timers + Scheduled(s, d))
  }

  /** The 250 ms callback: shows the card its closure captured. */
  function ShowMatch(s: State, captured: Option<Fighter>): (r: State)
    ensures r.matchedFighter == captured
    ensures r.(matchedFighter := s.matchedFighter) == s
  {
    s.(matchedFighter := captured)
  }

  /** The 500 ms callback: clears the animation; after a 'left' gesture it
      also moves to the next card, counting from the latest index. */
  function EndAnimation(s: State, d: Direction): (r: State)
    ensures r.animationClass == NoAnimation
    ensures r.currentIndex == (if d == Left then s.currentIndex + 1 else s.currentIndex)
    ensures r.matchedFighter == s.matchedFighter && r.fighters == s.fighters
    ensures r.isLoading == s.isLoading && r.error == s.error && r.timers == s.timers
  {
    var s' := s.(animationClass := NoAnimation);
    if d == Left then s'.(currentIndex := s.currentIndex + 1) else s'
  }

  /** The scheduler runs the pending callback with the earliest deadline. */
  function FireTimer(s: State): (r: State)
    ensures s.timers == [] ==> r == s
    ensures s.timers != [] && s.timers[0].MatchCallback? ==>
              r == ShowMatch(s, s.timers[0].captured).(timers := s.timers[1..])
    ensures s.timers != [] && s.timers[0].AnimationEndCallback? ==>
              r == EndAnimation(s, s.timers[0].direction).(timers := s.timers[1..])
  {
    if s.timers == [] then s
    else
      var rest := s.(timers := s.timers[1..]);
      match s.timers[0]
      case MatchCallback(captured) => ShowMatch(rest, captured)
      case AnimationEndCallback(d) => EndAnimation(rest, d)
  }

  /** closeMatchModal: hides the modal and moves on, whatever the state. */
  function CloseMatchModal(s: State): (r: State)
    ensures r.matchedFighter == None && r.currentIndex == s.currentIndex + 1
    ensures r.fighters == s.fighters && r.animationClass == s.animationClass && r.timers == s.timers
    ensures r.isLoading == s.isLoading && r.error == s.error
  {
    s.(matchedFighter := None, currentIndex := s.currentIndex + 1)
  }

  /** One event. The index only moves by a finished 'left' gesture or by
      closing the modal (one step), or back to 0 when a fetch starts; the
      list of fighters is only ever replaced by a non-empty fetch result. */
  function Step(s: State, e: Event): (r: State)
    ensures || r.currentIndex == s.currentIndex
            || (e == FetchStarted && r.currentIndex == 0)
            || (r.currentIndex == s.currentIndex + 1 &&
                (e == CloseModal || (e == TimerFires && s.timers != [] && s.timers[0] == AnimationEndCallback(Left))))
    ensures r.fighters == s.fighters || (e.FetchResolved? && e.outcome.Fetched? && r.fighters == e.outcome.batch != [])
  {
    match e
    case Swipe(d) => HandleSwipe(s, d)
    case TimerFires => FireTimer(s)
    case FetchStarted => StartFetch(s)
    case FetchResolved(outcome) => ResolveFetch(s, outcome)
    case CloseModal => CloseMatchModal(s)
  }

  /** A run of events, in order. */
  function Run(s: State, events: seq<Event>): State
    decreases |events|
  {
    if events == [] then s else Run(Step(s, events[0]), events[1..])
  }

  /** The pending timers agree with the animation class: none while no
      animation runs; the end-of-animation callback of the one gesture in
      flight while one does, preceded by its match callback after a 'right'
      gesture until that has run. */
  predicate TimersMatchAnimation(animationClass: string, timers: seq<Timer>) {
    if animationClass == NoAnimation then timers == []
    else if animationClass == SwipeLeftClass then timers == [AnimationEndCallback(Left)]
    else
      && animationClass == SwipeRightClass
      && (|| timers == [AnimationEndCallback(Right)]
          || (|timers| == 2 && timers[0].MatchCallback? && timers[1] == AnimationEndCallback(Right)))
  }

  /** The state invariant: at most one gesture in flight, and the error is
      either absent or one of the two fixed messages. */
  predicate Valid(s: State) {
    && TimersMatchAnimation(s.animationClass, s.timers)
    && (s.error == None || s.error == Some(EmptyResultMessage) || s.error == Some(FetchFailedMessage))
  }

  /** Nothing in flight: no animation, no pending timer, no modal. */
  predicate Idle(s: State) {
    s.animationClass == NoAnimation && s.timers == [] && s.matchedFighter == None
  }

  lemma InitialValid()
    ensures Valid(Initial) && Idle(Initial) && Initial.isLoading
  {
  }

  /** Every event keeps the invariant. */
  lemma StepPreservesValid(s: State, e: Event)
    requires Valid(s)
    ensures Valid(Step(s, e))
  {
  }

  lemma {:induction false} RunPreservesValid(s: State, events: seq<Event>)
    requires Valid(s)
    ensures Valid(Run(s, events))
    decreases |events|
  {
    if events != [] {
      StepPreservesValid(s, events[0]);
      RunPreservesValid(Step(s, events[0]), events[1..]);
    }
  }

  /** While a gesture is in flight (a timer is pending), a new gesture
      changes nothing and schedules nothing. */
  lemma GestureDroppedWhileInFlight(s: State, d: Direction)
    requires Valid(s) && s.timers != []
    ensures HandleSwipe(s, d) == s
  {
  }

  lemma {:induction false} RunAppend(s: State, a: seq<Event>, b: seq<Event>)
    ensures Run(s, a + b) == Run(Run(s, a), b)
    decreases |a|
  {
    if a == [] {
      assert a + b == b;
    } else {
      assert (a + b)[0] == a[0];
      assert (a + b)[1..] == a[1..] + b;
      RunAppend(Step(s, a[0]), a[1..], b);
    }
  }

  /** The events of one completed decision: a 'left' gesture and its timer;
      or a 'right' gesture, its two timers and closing the modal. */
  function DecisionEvents(d: Direction): seq<Event> {
    if d == Left then [Swipe(Left), TimerFires]
    else [Swipe(Right), TimerFires, TimerFires, CloseModal]
  }

  function Decisions(ds: seq<Direction>): seq<Event>
    decreases |ds|
  {
    if ds == [] then [] else DecisionEvents(ds[0]) + Decisions(ds[1..])
  }

  /** A completed decision, from an idle state, advances by exactly one card
      and leaves everything else as it was. */
  lemma DecisionAdvances(s: State, d: Direction)
    requires Idle(s)
    ensures Run(s, DecisionEvents(d)) == s.(currentIndex := s.currentIndex + 1)
  {
    var es := DecisionEvents(d);
    var s1 := Step(s, es[0]);
    var s2 := Step(s1, es[1]);
    assert Run(s, es) == Run(s2, es[2..]);
    if d == Right {
      var s3 := Step(s2, es[2]);
      var s4 := Step(s3, es[3]);
      assert Run(s2, es[2..]) == Run(s3, es[3..]);
      assert Run(s3, es[3..]) == Run(s4, []);
    }
  }

  /** n completed decisions from an idle state advance by exactly n cards. */
  lemma {:induction false} DecisionsAdvance(s: State, ds: seq<Direction>)
    requires Idle(s)
    ensures Run(s, Decisions(ds)) == s.(currentIndex := s.currentIndex + |ds|)
    decreases |ds|
  {
    if ds != [] {
      RunAppend(s, DecisionEvents(ds[0]), Decisions(ds[1..]));
      DecisionAdvances(s, ds[0]);
      DecisionsAdvance(s.(currentIndex := s.currentIndex + 1), ds[1..]);
    }
  }
}
