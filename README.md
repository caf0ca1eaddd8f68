# Compliance training demo: the flow controller

The repository is one React page, `pages/index.js`. It lets a visitor try two
styles of compliance training. In the *traditional locked* style, a progress
bar fills by 20 % every second, and then a knowledge check appears. In the
*adaptive pre-test* style, a question comes first, and a wrong answer leads
to a short learning module instead of a failure. Behind the markup is a small
state machine over five state cells: `mode`, `progress`, `timer`, `question`
and `result`. This project models that state machine and proves what it
does.

- `flow.dfy`, module `TrainingFlow`: the five cells as a `State` value (the
  `timer` cell becomes the boolean `timerLive`); one pure function per
  handler (`StartTraditional`, `Tick` for one firing of the interval,
  `StartAdaptive`, `HandleAnswer`, `CompleteLearning`, `Reset`); `Step`,
  which runs the handler an event triggers; `Enabled`, the page's render
  conditions, which decide when a button is on screen (lines 67, 102, 125,
  148 and 161 of `pages/index.js`) and when the interval can fire; and `Run`
  and `Legal` over event sequences.
- `reachability.dfy`, module `FlowReachability`: the reachable states
  described exactly by `Inv`, the facts every reachable state satisfies, the
  tick count to the knowledge check, a path back to the start from every
  reachable state, and two scenarios that show `handleAnswer` ignoring an
  earlier result.
- `controller.dfy`, module `ComplianceDemo`: class `Controller`, with the five
  cells as fields and one method per handler that overwrites them in place.
  Each method is specified by the matching pure function. `RunInterval` is
  the interval left to run until it cancels itself. Two session methods drive
  a fresh controller through each flow.

Two points of the code's behaviour that are easy to misread:

- The knowledge check appears on the sixth firing, not the fifth. The fifth
  firing only raises progress from 80 to 100, and the sixth sees
  `prev >= 100` (`pages/index.js:20-26`). See `QuestionOnSixthTick` and
  `RunInterval`.
- The learning module reached by a wrong first pre-test answer offers no
  reset. "Try Another Approach" is rendered only while a result is shown
  (`pages/index.js:161`, `176`), and on that path no result exists until
  "Complete Learning" is clicked. `Reset` itself works from any state
  (`ResetIdempotent`), but `Enabled` does not offer it there. On the other
  path, a correct pre-test answer followed by a wrong one, the pass stays:
  the learning module and the reset are on screen together
  (`AdaptivePassThenWrongShowsLearning`).

## Model

| member | source | states |
|---|---|---|
| TrainingFlow.StartTraditional | pages/index.js:14-29 | mode becomes traditional, progress 0, and an interval runs; question and result are unchanged |
| TrainingFlow.Tick | pages/index.js:19-27 | with no interval running nothing changes; below 100 a firing adds exactly 20 and changes nothing else; at 100 or more it sets progress to 100, stops the interval and shows the traditional question; mode and result are never touched |
| TrainingFlow.StartAdaptive | pages/index.js:32-35 | mode becomes adaptive and question pre-test; progress, result and timer are unchanged |
| TrainingFlow.HandleAnswer | pages/index.js:37-47 | in adaptive mode a correct answer passes and keeps the question, a wrong one opens the learning module and keeps the result; in any other mode the result is pass or fail by the answer and the question is kept; mode, progress and timer never change; the current result is never consulted |
| TrainingFlow.CompleteLearning | pages/index.js:153 | only the result changes, to pass |
| TrainingFlow.Reset | pages/index.js:49-56 | from any state the result is the initial state: select, progress 0, no question, no result, no interval |
| TrainingFlow.Step | pages/index.js:72-176 | wires each button's click and each firing of the interval to its handler; only the start buttons and the reset change the mode; only they and the interval change progress or the timer; only the firing, the adaptive start, the answers and the reset change the question; only the answers, "Complete Learning" and the reset change the result |
| TrainingFlow.Enabled | pages/index.js:67-176 | the render conditions: the start screen offers exactly the two approaches; while the bar loads only the interval acts; the learning module without a result offers only "Complete Learning" and no reset; a question screen offers both answers whatever the result; a shown result always offers the reset |
| FlowReachability.StepPreservesInv | pages/index.js:14-56 | every event the page can deliver keeps a state inside the reachable set, and only a reset moves the bar backwards |
| FlowReachability.LegalRunKeepsInv | pages/index.js:8-56 | every legal sequence of events from an invariant state ends in an invariant state |
| FlowReachability.ReachableFacts | pages/index.js:8-56 | after any legal sequence from the start, progress is one of 0, 20, …, 100; an interval runs only in the traditional flow with no question and no result; select mode means the initial state; a result is never shown without a question; the adaptive flow never fails |
| FlowReachability.StartTraditionalNeverOrphansInterval | pages/index.js:14-29 | whenever the traditional button can be clicked, no interval is running, so starting one never leaks another |
| FlowReachability.ResetNeverFindsLiveInterval | pages/index.js:49-56 | whenever the reset button can be clicked in a reachable state, no interval runs, so the guarded `clearInterval` never fires from the page and each interval is cancelled once, by its own last firing |
| FlowReachability.LoadingAcceptsOnlyTicks | pages/index.js:92-100 | while the bar loads, the only possible event is a firing of the interval |
| FlowReachability.TicksWhileLoading | pages/index.js:19-27 | n firings from progress p, with p + 20n at most 100, are all legal and raise progress to p + 20n, changing nothing else |
| FlowReachability.TicksUntilCheck | pages/index.js:19-27 | from progress p, 5 - p/20 firings bring the bar to 100 with no question; exactly one more stops the interval and shows the traditional question |
| FlowReachability.QuestionOnSixthTick | pages/index.js:18-28 | after choosing the traditional flow, the fifth firing leaves progress 100 and no question; the sixth shows the question and stops the interval |
| FlowReachability.ReplayReaches | pages/index.js:8-56 | every state satisfying the invariant is reached from the start by a legal sequence of events |
| FlowReachability.ReachableIffInv | pages/index.js:8-56 | a state is reachable if and only if it satisfies the invariant |
| FlowReachability.PathHomeReturns | pages/index.js:49-56 | from every reachable state, a legal sequence of events leads back to the initial state, so there is no dead end |
| FlowReachability.ResetIdempotent | pages/index.js:49-56 | reset gives the initial state from any state; resetting twice is the same as resetting once |
| FlowReachability.TraditionalResultCanBeOverwritten | pages/index.js:37-47 | after a correct answer in the traditional check, the answer buttons are still on screen, and a wrong answer turns the pass into a fail |
| FlowReachability.AdaptivePassThenWrongShowsLearning | pages/index.js:37-47 | after a correct pre-test answer, a wrong answer can still be given; it opens the learning module, the pass stays, and the reset is offered beside the learning module |
| ComplianceDemo.Controller.constructor | pages/index.js:8-12 | the five cells start as select, 0, no timer, no question, no result |
| ComplianceDemo.Controller.StartTraditional | pages/index.js:14-30 | the new state is StartTraditional of the old one |
| ComplianceDemo.Controller.Tick | pages/index.js:19-27 | the new state is Tick of the old one |
| ComplianceDemo.Controller.StartAdaptive | pages/index.js:32-35 | the new state is StartAdaptive of the old one |
| ComplianceDemo.Controller.HandleAnswer | pages/index.js:37-47 | the new state is HandleAnswer of the old one |
| ComplianceDemo.Controller.CompleteLearning | pages/index.js:153 | the new state is CompleteLearning of the old one |
| ComplianceDemo.Controller.Reset | pages/index.js:49-56 | the new state is Reset of the old one |
| ComplianceDemo.Controller.RunInterval | pages/index.js:18-28 | from a loading state at progress p, the interval fires 6 - p/20 times until it cancels itself; the result is the same as running those firings through Tick, and leaves progress 100, no interval and the traditional question, with mode and result unchanged |
| ComplianceDemo.TraditionalSession | pages/index.js:14-47 | choosing the traditional flow, waiting and answering takes six firings, and the result is pass for a correct answer and fail for a wrong one |
| ComplianceDemo.AdaptiveSession | pages/index.js:32-47 | choosing the adaptive flow always ends in a pass; the learning module is shown exactly when the pre-test answer was wrong |

## Left out

- Rendering: markup, layout, class names, texts and icons (`pages/index.js:58-184`). Only the render conditions are kept, as `Enabled`.
- The UI library components `Card`, `Button`, `Progress` and the `lucide-react` icons. They are foreign code and are not part of this model.
- Real time: the interval period of 1000 ms, `setInterval` and `clearInterval`. Each firing is an explicit `IntervalFires` event handled by `Tick`, and the `timer` cell is the boolean `timerLive`, so interval handles have no identity.
- React scheduling: batched state updates, stale closures, and the side effects inside the `setProgress` updater (lines 21-23). Under StrictMode the updater may run twice. The model runs every handler once, in order, on the current state.
- ComplianceDemo.Controller.StartTraditional: requires that no interval is running. The source would start a second interval and overwrite the handle of the first, which a boolean cell cannot represent. `StartTraditionalNeverOrphansInterval` shows that the page never offers the button in such a state.
- TrainingFlow.StartTraditional: applied to a state whose interval already runs, it yields one running interval, while the source would run two, each adding 20 per firing. The boolean `timerLive` cannot hold two handles. No click the page offers reaches that case (`StartTraditionalNeverOrphansInterval`).
- `progress` is an unbounded integer, while the source uses a JavaScript number. In every reachable state it stays between 0 and 100, so the difference never shows.
