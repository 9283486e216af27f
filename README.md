# Swipe/match controller of the "Ielu Cīkstonis" App component

The app fetches a batch of generated fighter profiles and shows them one at a
time as cards. The user rejects a card with a swipe to the left or challenges
it with a swipe to the right. A right swipe opens a "match" modal, and the
next card comes up when the modal is closed. All of the logic lives in the
`App` component in `App.tsx`. It is an event-driven state machine over six
`useState` fields: `fighters`, `currentIndex`, `isLoading`, `error`,
`matchedFighter` and `animationClass`. The handlers `fetchFighters`,
`handleSwipe` (with its two `setTimeout` callbacks) and `closeMatchModal`
change those fields, and the render code chooses one of four screens.

The model has five modules:

- `Types` (types.dfy): fighters, swipe directions, pending timer callbacks
  with the values their closures captured, fetch outcomes, the animation
  class names and the two error messages.
- `Transitions` (transitions.dfy): the state as a value (`State`: the six
  fields plus the queue of pending timer callbacks). It has one pure function
  per event: `StartFetch`, `ResolveFetch`, `HandleSwipe`, `ShowMatch` (the
  250 ms callback), `EndAnimation` (the 500 ms callback), `FireTimer` and
  `CloseMatchModal`. It also has `Step`/`Run` over event sequences, and the
  invariant `Valid`, which says at most one gesture is in flight and the
  pending timers agree with the animation class.
- `View` (view.dfy): `Render`, the screen choice, and `VisibleCards`, the
  card window built by the filtered `fighters.map`.
- `Component` (component.dfy): class `App`. Its fields are updated in place
  by one method per handler, in the order of the handler's `setX` calls.
  Each method is proved to perform the `Transitions` function of the same
  name. `ShowMatch` and `EndAnimation` are the bodies of the two timer
  callbacks, which `FireTimer` runs after taking the callback off the queue.
  The event methods `StartFetch`, `ResolveFetch`, `HandleSwipe`, `FireTimer`
  and `CloseMatchModal` are also proved to keep `Valid`.
- `Properties` (properties.dfy): facts that span several events. These cover
  the two gesture cycles, reloading, reaching the end screen after as many
  decisions as there are fighters, and interleavings that the uncancelled
  timers allow.

Timers are not modelled in real time. Each `setTimeout` appends its callback
to a first-in-first-out queue (`timers`), and a `TimerFires` event runs the
head of the queue. This order is exact: a new gesture is refused until the
previous gesture's 500 ms callback has run, and within one gesture the
250 ms callback comes before the 500 ms one.

Some behaviour of `App.tsx` is easy to misread, and the model keeps it as
written:

- Starting a fetch clears neither `fighters` nor `animationClass`.
- An empty or failed fetch keeps the previous `fighters`.
- Nothing resets the index when a fetch resolves. The index is reset when
  the fetch starts.
- `closeMatchModal` does not check for an open modal. It always advances the
  index, so it is not idempotent.
- The match modal is rendered only on the browsing screen.

## Model

| member | source | states |
|---|---|---|
| `Types.ElementAt` | App.tsx:48 | `fighters[currentIndex]` gives the fighter at that index, or undefined (None) exactly when the index is past the end |
| `Types.AnimationFor` | App.tsx:45-52 | a right swipe sets `animate-swipe-right` and a left swipe sets `animate-swipe-left`. The two are distinct, and neither is empty |
| `Transitions.Scheduled` | App.tsx:45-59 | a right swipe schedules two callbacks: the match callback, which captures the card at the gesture's index, and then the animation end. A left swipe schedules only the animation end |
| `Transitions.StartFetch` | App.tsx:17-21 | starting a fetch sets `isLoading` and clears `error` and `matchedFighter`. It resets the index to 0 and leaves `fighters`, `animationClass` and the pending timers unchanged |
| `Transitions.ResolveFetch` | App.tsx:22-34 | `isLoading` always ends false. An empty result sets the "failed to load" message and keeps the old fighters. A thrown failure sets the other message and keeps the old fighters. A non-empty result replaces the fighters and sets no error. Nothing else changes |
| `Transitions.HandleSwipe` | App.tsx:42-60 | while an animation class is set, the gesture changes nothing. Otherwise it sets the direction's class and appends its callbacks. It never changes the index, the modal, the fighters, loading or the error |
| `Transitions.ShowMatch` | App.tsx:47-49 | the 250 ms callback sets `matchedFighter` to the captured value and changes nothing else |
| `Transitions.EndAnimation` | App.tsx:54-59 | the 500 ms callback clears the animation class. After a left swipe it increments the index by exactly 1; after a right swipe it leaves the index alone. The modal is untouched |
| `Transitions.FireTimer` | App.tsx:47-59 | the earliest pending callback runs with the values it captured and is removed from the queue. With none pending, nothing changes |
| `Transitions.CloseMatchModal` | App.tsx:62-65 | clears the modal and increments the index by 1 unconditionally. Everything else is unchanged |
| `Transitions.Step` | App.tsx:17-65 | an event leaves the index unchanged, resets it to 0 (only when a fetch starts), or increments it by 1 (only a left swipe's 500 ms callback or closing the modal). `fighters` is replaced only by a non-empty fetch result |
| `Transitions.StepPreservesValid` | App.tsx:42-65 | every event keeps the invariant: at most one gesture in flight, the pending callbacks match the animation class, and the error is absent or one of the two messages |
| `Transitions.RunPreservesValid` | App.tsx:17-65 | any sequence of events keeps the invariant |
| `Transitions.GestureDroppedWhileInFlight` | App.tsx:43 | while any callback is pending, a swipe changes no state and schedules nothing |
| `Transitions.RunAppend` | App.tsx:17-65 | running two event sequences one after the other is the same as running their concatenation |
| `Transitions.DecisionAdvances` | App.tsx:45-65 | from an idle state, one completed decision moves to exactly the next card and changes nothing else. A left decision is a swipe plus its callback. A right decision is a swipe, both callbacks and closing the modal |
| `Transitions.DecisionsAdvance` | App.tsx:45-65 | n completed decisions from an idle state advance the index by exactly n |
| `View.MapCardsFrom` | App.tsx:103-115 | mapping from position i with the null filter keeps exactly the positions from max(i, current) up to but not including min(current + 2, length), in order, each built as a card for that position |
| `View.VisibleCards` | App.tsx:103-115 | at most two cards: the one at `currentIndex` on top, carrying the animation class, then the one at `currentIndex + 1` without it, as far as the list reaches. There are none for an empty list or an index past the end |
| `View.Render` | App.tsx:91-130 | loading first, then the error message (when `error` is truthy), then the end screen exactly when the index is at or past the end of a non-empty list, otherwise browsing with the visible cards and the modal |
| `View.BrowsingShowsCurrentCard` | App.tsx:103-115 | on the browsing screen of a non-empty list, the top card is the fighter at the current index, and it is the only card with the animation class |
| `View.ErrorScreenIffError` | App.tsx:92 | under the invariant, the error screen shows exactly when loading has finished with an error set |
| `Properties.LeftSwipeCycle` | App.tsx:50-58 | a left swipe sets `animate-swipe-left`. Its 500 ms callback clears the class and increments the index by exactly 1. `matchedFighter` is never touched |
| `Properties.RightSwipeCycle` | App.tsx:45-59 | a right swipe sets `animate-swipe-right`. At 250 ms the modal shows the card that was current at the gesture. At 500 ms the class clears. The index never moves |
| `Properties.CloseMatchModalTwice` | App.tsx:62-65 | closing the modal twice advances the index by 2, so the handler is not idempotent |
| `Properties.ReloadOutcome` | App.tsx:17-34 | a reload shows the loading screen. Then a non-empty result shows its first card on top with no modal. An empty result shows the "failed to load" message and a failure shows the other message, both keeping the old fighters. The index is 0 in every case |
| `Properties.DecisionsReachEndScreen` | App.tsx:45-93 | from card 0 of a non-empty batch with nothing in flight, fewer decisions than fighters keep the browsing screen, with card k on top after k decisions. Exactly as many decisions as fighters reach the end screen |
| `Properties.LeftSwipesReachEndScreen` | App.tsx:50-93 | from index 0 of a batch of N > 0 fighters with no error, N completed left swipes reach the end screen |
| `Properties.ThreeCardSession` | App.tsx:17-115 | with fighters A, B, C: reject A shows B. Accept B opens the modal on B with the index still on B. Closing it shows C, and rejecting C reaches the end screen |
| `Properties.ReloadDoesNotCancelMatch` | App.tsx:17-49 | a reload started while a right swipe's 250 ms callback is pending does not cancel it. The modal then opens on the card captured before the reload, after the reload has reset the index |
| `Properties.EarlyCloseAnimatesNextCard` | App.tsx:45-115 | if the modal is closed before the 500 ms callback runs, the next card is rendered on top and still carries `animate-swipe-right` |
| `Properties.MountShowsLoading` | App.tsx:12-40 | the component starts on the loading screen, and the mount effect's fetch keeps it there |
| `Component.App.constructor` | App.tsx:10-15 | the fields start at their `useState` values, with no timers pending |
| `Component.App.StartFetch` | App.tsx:17-21 | the fields become `Transitions.StartFetch` of the old state, and the invariant holds |
| `Component.App.ResolveFetch` | App.tsx:22-34 | the fields become `Transitions.ResolveFetch` of the old state and the outcome, and the invariant holds |
| `Component.App.HandleSwipe` | App.tsx:42-60 | the fields become `Transitions.HandleSwipe` of the old state, and the invariant holds |
| `Component.App.ShowMatch` | App.tsx:47-49 | the fields become `Transitions.ShowMatch` of the old state and the captured value |
| `Component.App.EndAnimation` | App.tsx:54-59 | the fields become `Transitions.EndAnimation` of the old state |
| `Component.App.FireTimer` | App.tsx:47-59 | the fields become `Transitions.FireTimer` of the old state, and the invariant holds |
| `Component.App.CloseMatchModal` | App.tsx:62-65 | the fields become `Transitions.CloseMatchModal` of the old state, and the invariant holds |

## Left out

- `generateFighters` (the remote profile generator in
  `services/geminiService`) is not part of this model. Its outcome is an
  input to `ResolveFetch`: a list, possibly empty, or a thrown failure.
- Fighter attributes other than the name are not modelled. `types.ts` is not
  part of this model, and the controller never reads those attributes.
- The JSX and CSS markup, the spinner, the icons, and the `FighterCard` and
  `MatchModal` components are not modelled. They are presentation only. The
  model keeps only the chosen screen, the rendered card indices with their
  `isTopCard` and `animationClass` props, and whether the modal is shown.
- Real time and the 250/500 ms durations are not modelled. Pending callbacks
  form a queue that runs in deadline order.
- `console.error` logging is not modelled. It has no effect on state.
- The React hooks machinery (`useCallback`, `useEffect`, re-rendering) is not
  modelled. Each event sees the state as of the latest render. React
  re-renders between the discrete click and timer events, so batching of the
  `setX` calls within one handler does not matter. The mount effect is the
  `FetchStarted` event.
- Unmounting is not modelled.
- Which events the screen makes available is not modelled. `Step` accepts
  every event in every state, which is a superset of what the buttons allow.
- The error screen (App.tsx:92) shows only the message and has no reload
  button, so in the source no event leads away from it. `Step` still accepts
  `FetchStarted` there, and `ReloadOutcome` holds from any state, but the UI
  offers a reload only from the end screen.
- The race between a reload and still-pending timers is not proved safe. It
  is an allowed interleaving, and `ReloadDoesNotCancelMatch` exhibits it.
- A `TimerFires` event with nothing pending leaves the state unchanged in
  `Transitions.FireTimer`. The scheduler never produces that event, and
  `Component.App.FireTimer` requires a pending callback.
