/** The App component as an object: its six state fields and the timer queue
    are updated in place by one method per event, each following the setX
    calls of its handler. Every method is proved to perform exactly the
    transition of the same name in module Transitions. ShowMatch and
    EndAnimation are the bodies of the two timer callbacks, run by FireTimer
    once it has taken the callback off the queue; the event methods
    (StartFetch, ResolveFetch, HandleSwipe, FireTimer, CloseMatchModal) also
    keep the invariant. */
module Component {
  import opened Types
  import Transitions

  class App {
    var fighters: seq<Fighter>
    var currentIndex: nat
    var isLoading: bool
    var error: Option<string>
    var matchedFighter: Option<Fighter>
    var animationClass: string
    /** Callbacks handed to setTimeout and not yet run, earliest deadline first. */
    var timers: seq<Timer>

    /** The fields as one value. */
    function Model(): Transitions.State
      reads this
    {
      Transitions.State(fighters, currentIndex, isLoading, error, matchedFighter, animationClass, timers)
    }

    ghost predicate Valid()
      reads this
    {
      Transitions.Valid(Model())
    }

    /** The useState initial values. */
    constructor ()
      ensures Model() == Transitions.Initial && Valid()
    {
      fighters := [];
      currentIndex := 0;
      isLoading := true;
      error := None;
      matchedFighter := None;
      animationClass := NoAnimation;
      timers := [];
      Transitions.InitialValid();
    }

    /** fetchFighters up to the await (also what the mount effect runs). */
    method StartFetch()
      requires Valid()
      modifies this
      ensures Model() == Transitions.StartFetch(old(Model())) && Valid()
    {
      isLoading := true;
      error := None;
      matchedFighter := None;
      currentIndex := 0;
    }

    /** fetchFighters after the await: the result, the catch and the finally. */
    method ResolveFetch(outcome: FetchOutcome)
      requires Valid()
      modifies this
      ensures Model() == Transitions.ResolveFetch(old(Model()), outcome) && Valid()
    {
      match outcome {
        case Fetched(batch) =>
          if |batch| == 0 {
            error := Some(EmptyResultMessage);
          } else {
            fighters := batch;
          }
        case Threw =>
          error := Some(FetchFailedMessage);
      }
      isLoading := false;
    }

    /** handleSwipe: ignored during an animation; otherwise starts the
        animation and hands its callbacks to the timer queue. */
    method HandleSwipe(direction: Direction)
      requires Valid()
      modifies this
      ensures Model() == Transitions.HandleSwipe(old(Model()), direction) && Valid()
    {
      if animationClass != NoAnimation {
        return;
      }
      if direction == Right {
        animationClass := SwipeRightClass;
        timers := timers + [MatchCallback(ElementAt(fighters, currentIndex))];
      } else {
        animationClass := SwipeLeftClass;
      }
      timers := timers + [AnimationEndCallback(direction)];
    }

    /** The 250 ms callback, with the card its closure captured. */
    method ShowMatch(captured: Option<Fighter>)
      modifies this
      ensures Model() == Transitions.ShowMatch(old(Model()), captured)
    {
      matchedFighter := captured;
    }

    /** The 500 ms callback; the index update is functional, on the latest value. */
    method EndAnimation(direction: Direction)
      modifies this
      ensures Model() == Transitions.EndAnimation(old(Model()), direction)
    {
      animationClass := NoAnimation;
      if direction == Left {
        currentIndex := currentIndex + 1;
      }
    }

    /** The scheduler runs the pending callback whose deadline comes first. */
    method FireTimer()
      requires Valid() && timers != []
      modifies this
      ensures Model() == Transitions.FireTimer(old(Model())) && Valid()
    {
      var t := timers[0];
      timers := timers[1..];
      match t {
        case MatchCallback(captured) => ShowMatch(captured);
        case AnimationEndCallback(d) => EndAnimation(d);
      }
      Transitions.StepPreservesValid(old(Model()), Transitions.TimerFires);
    }

    /** closeMatchModal: no check that a modal is open. */
    method CloseMatchModal()
      requires Valid()
      modifies this
      ensures Model() == Transitions.CloseMatchModal(old(Model())) && Valid()
    {
      matchedFighter := None;
      currentIndex := currentIndex + 1;
    }
  }
}
