/** The state machine behind the compliance-training demo page
    (pages/index.js): the component's five state cells and what each
    of its handlers does to them, written as pure functions. */
module TrainingFlow {

  /** The training approach on screen (`mode`). */
  datatype Mode = Select | Traditional | Adaptive

  /** The prompt on screen (`question`); `NoQuestion` is the source's null. */
  datatype Question = NoQuestion | TraditionalCheck | PreTest | Learning

  /** The outcome banner (`result`); `NoResult` is the source's null. */
  datatype Result = NoResult | Pass | Fail

  /** The five state cells. `timerLive` is true when the `timer` cell holds
      a running interval and false when it holds null. */
  datatype State = State(mode: Mode, progress: int, timerLive: bool, question: Question, result: Result)

  /** What reaches the component: a click on one of its buttons, or one
      firing of the running interval. */
  datatype Event =
    | StartTraditionalClick
    | IntervalFires
    | StartAdaptiveClick
    | AnswerClick(correct: bool)
    | CompleteLearningClick
    | TryAnotherApproachClick

  /** The values the five state cells start from. */
  function Init(): State
  {
    State(Select, 0, false, NoQuestion, NoResult)
  }

  /** `startTraditional`: switch to the locked flow, restart the progress
      bar and start an interval. It does not touch the question or the
      result, and it does not cancel an interval already running; since
      `timerLive` is one boolean, a second start here merges the two
      intervals into one. */
  function StartTraditional(s: State): (r: State)
    ensures r.mode == Traditional && r.progress == 0 && r.timerLive
    ensures r.question == s.question && r.result == s.result
  {
    s.(mode := Traditional, progress := 0, timerLive := true)
  }

  /** One firing of the interval, i.e. the `setProgress` updater. Below 100
      it only adds 20; the firing that finds 100 or more clamps progress to
      100, stops the interval and shows the knowledge check. Without a
      running interval nothing fires. */
  function Tick(s: State): (r: State)
    ensures !s.timerLive ==> r == s
    ensures s.timerLive && s.progress < 100 ==> r == s.(progress := s.progress + 20)
    ensures s.timerLive && s.progress >= 100 ==>
      r.progress == 100 && !r.timerLive && r.question == TraditionalCheck
    ensures r.mode == s.mode && r.result == s.result
  {
    if !s.timerLive then s
    else if s.progress >= 100 then
      s.(timerLive := false, question := TraditionalCheck, progress := 100)
    else
      s.(progress := s.progress + 20)
  }

  /** `startAdaptive`: switch to the pre-test flow. Progress, result and
      timer are left as they are. */
  function StartAdaptive(s: State): (r: State)
    ensures r.mode == Adaptive && r.question == PreTest
    ensures r.progress == s.progress && r.timerLive == s.timerLive && r.result == s.result
  {
    s.(mode := Adaptive, question := PreTest)
  }

  /** `handleAnswer(correct)`: it looks only at the mode, never at the
      current result, and it never clears the question. */
  function HandleAnswer(s: State, correct: bool): (r: State)
    ensures r.mode == s.mode && r.progress == s.progress && r.timerLive == s.timerLive
    ensures s.mode == Adaptive && correct ==> r.result == Pass && r.question == s.question
    ensures s.mode == Adaptive && !correct ==> r.question == Learning && r.result == s.result
    ensures s.mode != Adaptive ==>
      r.result == (if correct then Pass else Fail) && r.question == s.question
  {
    if s.mode == Adaptive then
      if correct then s.(result := Pass) else s.(question := Learning)
    else
      s.(result := if correct then Pass else Fail)
  }

  /** The "Complete Learning" click: it only sets the result to pass. */
  function CompleteLearning(s: State): (r: State)
    ensures r.result == Pass
    ensures r.mode == s.mode && r.progress == s.progress && r.timerLive == s.timerLive
    ensures r.question == s.question
  {
    s.(result := Pass)
  }

  /** `reset`: every cell back to its initial value, and the interval, if
      any, cleared. */
  function Reset(s: State): (r: State)
    ensures r == Init()
  {
    s.(mode := Select, progress := 0, question := NoQuestion, result := NoResult, timerLive := false)
  }

  /** The handler an event runs: each button's click handler, or the
      interval's updater. Only the start buttons and the reset change the
      mode; only they and the interval move the bar or start or stop the
      interval; only the answer buttons, "Complete Learning" and the reset
      change the result. */
  function Step(s: State, e: Event): (r: State)
    ensures r.mode != s.mode ==>
      e.StartTraditionalClick? || e.StartAdaptiveClick? || e.TryAnotherApproachClick?
    ensures r.progress != s.progress ==>
      e.StartTraditionalClick? || e.IntervalFires? || e.TryAnotherApproachClick?
    ensures r.timerLive != s.timerLive ==>
      e.StartTraditionalClick? || e.IntervalFires? || e.TryAnotherApproachClick?
    ensures r.question != s.question ==>
      e.IntervalFires? || e.StartAdaptiveClick? || e.AnswerClick? || e.TryAnotherApproachClick?
    ensures r.result != s.result ==>
      e.AnswerClick? || e.CompleteLearningClick? || e.TryAnotherApproachClick?
  {
    match e
    case StartTraditionalClick => StartTraditional(s)
    case IntervalFires => Tick(s)
    case StartAdaptiveClick => StartAdaptive(s)
    case AnswerClick(correct) => HandleAnswer(s, correct)
    case CompleteLearningClick => CompleteLearning(s)
    case TryAnotherApproachClick => Reset(s)
  }

  /** Whether the page can deliver the event in this state: a button is
      clickable only while the markup renders it, and the interval fires
      only while one is running. */
  predicate Enabled(s: State, e: Event)
    // the start screen offers exactly the two approaches
    ensures s == Init() ==>
      (Enabled(s, e) <==> e.StartTraditionalClick? || e.StartAdaptiveClick?)
    // while the bar loads with no question and no result, only the interval acts
    ensures s.mode == Traditional && s.timerLive && s.question == NoQuestion && s.result == NoResult ==>
      (Enabled(s, e) <==> e == IntervalFires)
    // the learning module without a result offers only "Complete Learning", no reset
    ensures s.mode != Select && !s.timerLive && s.question == Learning && s.result == NoResult ==>
      (Enabled(s, e) <==> e == CompleteLearningClick)
    // a question screen offers both answers, whatever the result
    ensures (s.question == TraditionalCheck || s.question == PreTest) && e.AnswerClick? ==> Enabled(s, e)
    // whenever a result is shown, the reset is offered
    ensures s.result != NoResult && e == TryAnotherApproachClick ==> Enabled(s, e)
  {
    match e
    case StartTraditionalClick => s.mode == Select
    case StartAdaptiveClick => s.mode == Select
    case IntervalFires => s.timerLive
    case AnswerClick(_) => s.question == TraditionalCheck || s.question == PreTest
    case CompleteLearningClick => s.question == Learning
    case TryAnotherApproachClick => s.result != NoResult
  }

  /** The state after handling the events in order. */
  function Run(s: State, es: seq<Event>): State
    decreases |es|
  {
    if es == [] then s else Run(Step(s, es[0]), es[1..])
  }

  /** Whether every event of the sequence is enabled when it arrives. */
  predicate Legal(s: State, es: seq<Event>)
    decreases |es|
  {
    es == [] || (Enabled(s, es[0]) && Legal(Step(s, es[0]), es[1..]))
  }

  /** `n` firings of the interval in a row. */
  function Ticks(n: nat): seq<Event>
  {
    seq(n, _ => IntervalFires)
  }
}
