/** Which states of the training flow a visitor can reach by clicking the
    buttons the page renders and waiting for the interval, and what holds
    in every one of them. */
module FlowReachability {
  import opened TrainingFlow

  /** The locked flow is waiting: the interval runs and the bar stands on a
      multiple of 20 between 0 and 100. */
  predicate Loading(s: State)
  {
    && s.mode == Traditional && s.timerLive
    && s.question == NoQuestion && s.result == NoResult
    && 0 <= s.progress <= 100 && s.progress % 20 == 0
  }

  /** The locked flow shows its knowledge check; the result may already
      have been given, since the buttons stay on screen. */
  predicate Checking(s: State)
  {
    s.mode == Traditional && !s.timerLive && s.progress == 100 && s.question == TraditionalCheck
  }

  /** The adaptive flow, at the pre-test or at the learning module. It can
      pass but never fail. */
  predicate InAdaptive(s: State)
  {
    && s.mode == Adaptive && !s.timerLive && s.progress == 0
    && (s.question == PreTest || s.question == Learning)
    && s.result != Fail
  }

  /** The reachable states: exactly these (ReachableIffInv). */
  predicate Inv(s: State)
  {
    s == Init() || Loading(s) || Checking(s) || InAdaptive(s)
  }

  /** A state some legal sequence of events leads to from the start. */
  ghost predicate Reachable(s: State)
  {
    exists es :: Legal(Init(), es) && Run(Init(), es) == s
  }

  /** Unfolding Run and Legal on a sequence that starts with `e`. */
  lemma Cons(s: State, e: Event, es: seq<Event>)
    ensures Run(s, [e] + es) == Run(Step(s, e), es)
    ensures Legal(s, [e] + es) <==> Enabled(s, e) && Legal(Step(s, e), es)
  {
  }

  /** Handling `a` then `b` is handling `a + b`. */
  lemma {:induction false} RunAppend(s: State, a: seq<Event>, b: seq<Event>)
    ensures Run(s, a + b) == Run(Run(s, a), b)
    ensures Legal(s, a + b) <==> Legal(s, a) && Legal(Run(s, a), b)
    decreases |a|
  {
    if a == [] {
      assert a + b == b;
    } else {
      assert a == [a[0]] + a[1..];
      assert a + b == [a[0]] + (a[1..] + b);
      Cons(s, a[0], a[1..] + b);
      Cons(s, a[0], a[1..]);
      RunAppend(Step(s, a[0]), a[1..], b);
    }
  }

  /** Every enabled event keeps a state inside Inv; apart from a reset,
      none moves the progress bar backwards. */
  lemma StepPreservesInv(s: State, e: Event)
    requires Inv(s) && Enabled(s, e)
    ensures Inv(Step(s, e))
    ensures e != TryAnotherApproachClick ==> Step(s, e).progress >= s.progress
  {
  }

  /** Inv holds after any legal sequence of events from an Inv state. */
  lemma {:induction false} LegalRunKeepsInv(s: State, es: seq<Event>)
    requires Inv(s) && Legal(s, es)
    ensures Inv(Run(s, es))
    decreases |es|
  {
    if es != [] {
      StepPreservesInv(s, es[0]);
      LegalRunKeepsInv(Step(s, es[0]), es[1..]);
    }
  }

  /** What holds in every reachable state: the bar stays on the 20-grid
      within [0, 100]; an interval runs only while the locked flow is
      loading with no question and no result; a result is never shown
      without a question; the adaptive flow never fails. */
  lemma ReachableFacts(es: seq<Event>)
    requires Legal(Init(), es)
    ensures var s := Run(Init(), es);
      && 0 <= s.progress <= 100 && s.progress % 20 == 0
      && (s.timerLive ==> s.mode == Traditional && s.question == NoQuestion && s.result == NoResult)
      && (s.mode == Select ==> s == Init())
      && (s.result != NoResult ==> s.question != NoQuestion)
      && (s.mode == Adaptive ==> s.result != Fail)
  {
    LegalRunKeepsInv(Init(), es);
  }

  /** `startTraditional` never overwrites a running interval: whenever its
      button can be clicked, the timer cell is null. */
  lemma StartTraditionalNeverOrphansInterval(es: seq<Event>)
    requires Legal(Init(), es + [StartTraditionalClick])
    ensures !Run(Init(), es).timerLive
  {
    RunAppend(Init(), es, [StartTraditionalClick]);
    LegalRunKeepsInv(Init(), es);
  }

  /** The reset button is on screen only when no interval runs, so the
      guarded `clearInterval` in `reset` never has a live interval to
      cancel when the page calls it: each interval is cancelled once, by
      its own last firing. */
  lemma ResetNeverFindsLiveInterval(s: State)
    requires Inv(s) && Enabled(s, TryAnotherApproachClick)
    ensures !s.timerLive
  {
  }

  /** While the locked flow loads, no button is on screen: the interval is
      the only thing that can happen, so it runs uninterrupted. This is the
      loading clause of Enabled's contract, restated for the Loading phase. */
  lemma LoadingAcceptsOnlyTicks(s: State, e: Event)
    requires Loading(s)
    ensures Enabled(s, e) <==> e == IntervalFires
  {
  }

  /** `Ticks(n + 1)` is `Ticks(n)` followed by one more firing. */
  lemma TicksSnoc(n: nat)
    ensures Ticks(n + 1) == Ticks(n) + [IntervalFires]
    ensures Ticks(n + 1) == [IntervalFires] + Ticks(n)
  {
  }

  /** While the bar is below 100, each firing adds exactly 20. */
  lemma {:induction false} TicksWhileLoading(s: State, n: nat)
    requires Loading(s) && s.progress + 20 * n <= 100
    ensures Legal(s, Ticks(n)) && Run(s, Ticks(n)) == s.(progress := s.progress + 20 * n)
    decreases n
  {
    if n > 0 {
      TicksSnoc(n - 1);
      Cons(s, IntervalFires, Ticks(n - 1));
      TicksWhileLoading(s.(progress := s.progress + 20), n - 1);
    }
  }

  /** From a loading state with the bar at p, the knowledge check appears
      after exactly 6 - p/20 firings: one firing per 20 to bring the bar
      to 100, then one more that finds 100 and stops the interval. One
      firing fewer leaves the bar at 100 with no question. */
  lemma TicksUntilCheck(s: State)
    requires Loading(s)
    ensures var n := 6 - s.progress / 20;
      && Legal(s, Ticks(n - 1)) && Run(s, Ticks(n - 1)) == s.(progress := 100)
      && Legal(s, Ticks(n))
      && Run(s, Ticks(n)) == s.(progress := 100, timerLive := false, question := TraditionalCheck)
  {
    var n := 6 - s.progress / 20;
    TicksWhileLoading(s, n - 1);
    TicksSnoc(n - 1);
    var t := s.(progress := 100);
    RunAppend(s, Ticks(n - 1), [IntervalFires]);
    Cons(t, IntervalFires, []);
  }

  /** After "Traditional Locked Approach" the fifth firing brings the bar to
      100 and the question appears only on the sixth. */
  lemma QuestionOnSixthTick()
    ensures Legal(Init(), [StartTraditionalClick] + Ticks(6))
    ensures var five := Run(Init(), [StartTraditionalClick] + Ticks(5));
      five.progress == 100 && five.timerLive && five.question == NoQuestion
    ensures var six := Run(Init(), [StartTraditionalClick] + Ticks(6));
      six.progress == 100 && !six.timerLive && six.question == TraditionalCheck
  {
    var s := StartTraditional(Init());
    TicksUntilCheck(s);
    Cons(Init(), StartTraditionalClick, Ticks(5));
    Cons(Init(), StartTraditionalClick, Ticks(6));
  }

  /** A legal sequence of events from the start that ends in `s`. */
  function ReplayTo(s: State): seq<Event>
  {
    if Loading(s) then
      [StartTraditionalClick] + Ticks(s.progress / 20)
    else if Checking(s) then
      [StartTraditionalClick] + Ticks(6) +
      (match s.result
       case NoResult => []
       case Pass => [AnswerClick(true)]
       case Fail => [AnswerClick(false)])
    else if InAdaptive(s) then
      [StartAdaptiveClick] +
      (if s.question == PreTest then
         (if s.result == Pass then [AnswerClick(true)] else [])
       else
         [AnswerClick(false)] + (if s.result == Pass then [CompleteLearningClick] else []))
    else
      []
  }

  /** Every Inv state is reached by ReplayTo. */
  lemma ReplayReaches(s: State)
    requires Inv(s)
    ensures Legal(Init(), ReplayTo(s)) && Run(Init(), ReplayTo(s)) == s
  {
    var t := StartTraditional(Init());
    var a := StartAdaptive(Init());
    if Loading(s) {
      TicksWhileLoading(t, s.progress / 20);
      Cons(Init(), StartTraditionalClick, Ticks(s.progress / 20));
    } else if Checking(s) {
      var check := t.(progress := 100, timerLive := false, question := TraditionalCheck);
      TicksUntilCheck(t);
      Cons(Init(), StartTraditionalClick, Ticks(6));
      var tail := match s.result
        case NoResult => []
        case Pass => [AnswerClick(true)]
        case Fail => [AnswerClick(false)];
      RunAppend(Init(), [StartTraditionalClick] + Ticks(6), tail);
      if tail != [] {
        Cons(check, tail[0], []);
      }
    } else if InAdaptive(s) {
      if s.question == PreTest {
        if s.result == Pass {
          Cons(a, AnswerClick(true), []);
          Cons(Init(), StartAdaptiveClick, [AnswerClick(true)]);
        } else {
          Cons(Init(), StartAdaptiveClick, []);
        }
      } else {
        var learning := HandleAnswer(a, false);
        if s.result == Pass {
          Cons(learning, CompleteLearningClick, []);
          Cons(a, AnswerClick(false), [CompleteLearningClick]);
          Cons(Init(), StartAdaptiveClick, [AnswerClick(false)] + [CompleteLearningClick]);
        } else {
          Cons(a, AnswerClick(false), []);
          Cons(Init(), StartAdaptiveClick, [AnswerClick(false)]);
        }
      }
    }
  }

  /** Inv is exactly the set of reachable states. */
  lemma ReachableIffInv(s: State)
    ensures Reachable(s) <==> Inv(s)
  {
    if Inv(s) {
      ReplayReaches(s);
    }
    if Reachable(s) {
      var es :| Legal(Init(), es) && Run(Init(), es) == s;
      LegalRunKeepsInv(Init(), es);
    }
  }

  /** A way back to the start from any reachable state: no state is a dead
      end. */
  function PathHome(s: State): seq<Event>
  {
    if s == Init() then []
    else if Loading(s) then Ticks(6 - s.progress / 20) + [AnswerClick(true), TryAnotherApproachClick]
    else if s.question == Learning then [CompleteLearningClick, TryAnotherApproachClick]
    else [AnswerClick(true), TryAnotherApproachClick]
  }

  /** PathHome is legal and returns to the initial state. */
  lemma PathHomeReturns(s: State)
    requires Inv(s)
    ensures Legal(s, PathHome(s)) && Run(s, PathHome(s)) == Init()
  {
    if s != Init() {
      var finish := if s.question == Learning then CompleteLearningClick else AnswerClick(true);
      var head := if Loading(s) then Ticks(6 - s.progress / 20) else [];
      var c := Run(s, head);
      if Loading(s) {
        TicksUntilCheck(s);
      }
      assert PathHome(s) == head + [finish, TryAnotherApproachClick];
      RunAppend(s, head, [finish, TryAnotherApproachClick]);
      Cons(c, finish, [TryAnotherApproachClick]);
      Cons(Step(c, finish), TryAnotherApproachClick, []);
    }
  }

  /** A reset from any state, reachable or not, restores the initial
      state (the contract of Reset), so a second reset changes nothing. */
  lemma ResetIdempotent(s: State)
    ensures Reset(s) == Init()
    ensures Reset(Reset(s)) == Reset(s)
  {
  }

  /** `handleAnswer` ignores the result: after the locked flow's check was
      answered correctly, its buttons are still on screen and a wrong
      answer turns the pass into a fail. */
  lemma TraditionalResultCanBeOverwritten()
    ensures var es := [StartTraditionalClick] + Ticks(6) + [AnswerClick(true), AnswerClick(false)];
      Legal(Init(), es) && Run(Init(), es).result == Fail
  {
    var t := StartTraditional(Init());
    var check := t.(progress := 100, timerLive := false, question := TraditionalCheck);
    TicksUntilCheck(t);
    Cons(Init(), StartTraditionalClick, Ticks(6));
    RunAppend(Init(), [StartTraditionalClick] + Ticks(6), [AnswerClick(true), AnswerClick(false)]);
    Cons(check, AnswerClick(true), [AnswerClick(false)]);
    Cons(HandleAnswer(check, true), AnswerClick(false), []);
  }

  /** After a correct pre-test answer the pre-test buttons stay on screen;
      a wrong answer then opens the learning module while the pass stays,
      so "Complete Learning" and "Try Another Approach" are on screen
      together. */
  lemma AdaptivePassThenWrongShowsLearning()
    ensures var es := [StartAdaptiveClick, AnswerClick(true), AnswerClick(false)];
      var s := Run(Init(), es);
      && Legal(Init(), es) && s.result == Pass && s.question == Learning
      && Enabled(s, CompleteLearningClick) && Enabled(s, TryAnotherApproachClick)
  {
  }
}
