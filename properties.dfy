/** What the App component promises over several events: the two gesture
    cycles, reloading, reaching the end screen, and two interleavings that the
    timers without cancellation allow. */
module Properties {
  import opened Types
  import opened Transitions
  import opened View

  /** A 'left' gesture sets its animation class at once; when its 500 ms
      callback runs the class is cleared and the index is one higher. The
      modal is never touched. */
  lemma LeftSwipeCycle(s: State)
    requires Valid(s) && s.animationClass == NoAnimation
    ensures var a := Step(s, Swipe(Left));
            && a.animationClass == SwipeLeftClass && a.currentIndex == s.currentIndex
            && a.matchedFighter == s.matchedFighter
            && var b := Step(a, TimerFires);
               && b.animationClass == NoAnimation && b.currentIndex == s.currentIndex + 1
               && b.matchedFighter == s.matchedFighter && Valid(b)
  {
  }

  /** A 'right' gesture sets its animation class; its 250 ms callback shows
      the card that was current at the gesture; its 500 ms callback clears
      the class. The index does not move during the whole cycle. */
  lemma RightSwipeCycle(s: State)
    requires Valid(s) && s.animationClass == NoAnimation && s.currentIndex < |s.fighters|
    ensures var a := Step(s, Swipe(Right));
            && a.animationClass == SwipeRightClass && a.currentIndex == s.currentIndex
            && var b := Step(a, TimerFires);
               && b.matchedFighter == Some(s.fighters[s.currentIndex])
               && b.currentIndex == s.currentIndex && b.animationClass == SwipeRightClass
               && var c := Step(b, TimerFires);
                  && c.animationClass == NoAnimation && c.currentIndex == s.currentIndex
                  && c.matchedFighter == Some(s.fighters[s.currentIndex]) && Valid(c)
  {
  }

  /** Closing the modal always moves on, so closing it twice moves on twice:
      the handler is not idempotent. */
  lemma CloseMatchModalTwice(s: State)
    ensures CloseMatchModal(CloseMatchModal(s)).currentIndex == s.currentIndex + 2
    ensures CloseMatchModal(CloseMatchModal(s)) != CloseMatchModal(s)
  {
  }

  /** A reload shows the loading screen until it resolves, and then the
      first card of a non-empty result (in front of no modal), or one of the
      two error messages, with the previous fighters kept. */
  lemma ReloadOutcome(s: State, outcome: FetchOutcome)
    ensures Render(StartFetch(s)) == LoadingScreen
    ensures var r := ResolveFetch(StartFetch(s), outcome);
            && r.currentIndex == 0 && r.matchedFighter == None && !r.isLoading
            && (outcome.Fetched? && outcome.batch != [] ==>
                  && r.fighters == outcome.batch
                  && Render(r) == BrowsingScreen(VisibleCards(outcome.batch, 0, s.animationClass), None)
                  && Render(r).cards[0].fighter == outcome.batch[0])
            && (outcome == Fetched([]) ==>
                  r.fighters == s.fighters && Render(r) == ErrorScreen(EmptyResultMessage))
            && (outcome == Threw ==>
                  r.fighters == s.fighters && Render(r) == ErrorScreen(FetchFailedMessage))
  {
  }

  /** From the first card of a batch with nothing in flight, the screen
      stays on browsing, showing card k on top after k decisions, until as
      many decisions as there are fighters reach the end screen. */
  lemma {:induction false} DecisionsReachEndScreen(s: State, ds: seq<Direction>)
    requires Idle(s) && !s.isLoading && s.error == None
    requires s.currentIndex == 0 && 0 < |s.fighters| && |ds| <= |s.fighters|
    ensures var r := Run(s, Decisions(ds));
            && r == s.(currentIndex := |ds|)
            && (|ds| == |s.fighters| ==> Render(r) == EndScreen)
            && (|ds| < |s.fighters| ==>
                  && Render(r).BrowsingScreen?
                  && Render(r).cards[0].fighter == s.fighters[|ds|]
                  && Render(r).cards[0].isTopCard)
  {
    DecisionsAdvance(s, ds);
  }

  /** N gestures to the left, each run to the end of its animation. */
  function LeftSwipes(n: nat): seq<Event> {
    Decisions(seq(n, _ => Left))
  }

  /** From index 0 of a batch of N > 0 fighters with no error, N completed
      'left' gestures reach the end screen. */
  lemma LeftSwipesReachEndScreen(s: State)
    requires Idle(s) && !s.isLoading && s.error == None
    requires s.currentIndex == 0 && |s.fighters| > 0
    ensures Render(Run(s, LeftSwipes(|s.fighters|))) == EndScreen
  {
    DecisionsReachEndScreen(s, seq(|s.fighters|, _ => Left));
  }

  /** Three fighters A, B, C: reject A, accept B (the modal shows B while the
      index stays on B), close the modal (C is on top), reject C: end screen. */
  lemma ThreeCardSession(a: Fighter, b: Fighter, c: Fighter)
    ensures var s0 := ResolveFetch(StartFetch(Initial), Fetched([a, b, c]));
            && var s1 := Run(s0, [Swipe(Left), TimerFires]);
               && s1.currentIndex == 1 && Render(s1).cards[0].fighter == b
               && var s2 := Run(s1, [Swipe(Right), TimerFires]);
                  && s2.matchedFighter == Some(b) && s2.currentIndex == 1
                  && Render(s2).modal == Some(b)
                  && var s3 := Run(s2, [TimerFires, CloseModal]);
                     && s3.currentIndex == 2 && s3.matchedFighter == None
                     && Render(s3).cards[0].fighter == c
                     && Render(Run(s3, [Swipe(Left), TimerFires])) == EndScreen
  {
  }

  /** A reload started while a 'right' gesture's 250 ms callback is pending
      does not cancel it: the callback then opens the modal on the card
      captured before the reload, although the reload had cleared the modal
      and reset the index. */
  lemma ReloadDoesNotCancelMatch(s: State)
    requires Valid(s) && s.animationClass == NoAnimation && s.currentIndex < |s.fighters|
    ensures var r := Run(s, [Swipe(Right), FetchStarted, TimerFires]);
            && r.currentIndex == 0 && r.isLoading
            && r.matchedFighter == Some(s.fighters[s.currentIndex])
  {
  }

  /** Closing the modal before the 500 ms callback of the 'right' gesture has
      run moves to the next card while the swipe-right class is still set, so
      the new top card is rendered with that class until the callback runs. */
  lemma EarlyCloseAnimatesNextCard(s: State)
    requires Idle(s) && !s.isLoading && s.error == None && s.currentIndex + 1 < |s.fighters|
    ensures var r := Run(s, [Swipe(Right), TimerFires, CloseModal]);
            && Render(r).BrowsingScreen?
            && Render(r).cards[0].fighter == s.fighters[s.currentIndex + 1]
            && Render(r).cards[0].animationClass == SwipeRightClass
  {
  }

  /** The component starts on the loading screen, and the mount effect's
      fetch keeps it there. */
  lemma MountShowsLoading()
    ensures Render(Initial) == LoadingScreen && Render(StartFetch(Initial)) == LoadingScreen
  {
  }
}
