/** The demo component as an object: the five state cells are fields, and
    each handler is a method that overwrites them in place, as the setters
    in pages/index.js do. Each method is specified by the pure handler of
    TrainingFlow that it implements. */
module ComplianceDemo {
  import F = TrainingFlow
  import R = FlowReachability

  class Controller {
    var mode: F.Mode
    var progress: int
    /** Whether the `timer` cell holds a running interval. */
    var timerLive: bool
    var question: F.Question
    var result: F.Result

    /** The five cells as one value. */
    function Cells(): F.State
      reads this
    {
      F.State(mode, progress, timerLive, question, result)
    }

    /** The `useState` initial values. */
    constructor ()
      ensures Cells() == F.Init()
    {
      mode := F.Select;
      progress := 0;
      timerLive := false;
      question := F.NoQuestion;
      result := F.NoResult;
    }

    /** `startTraditional`. It starts an interval without clearing the
        previous one, which a boolean cell cannot record: a caller must not
        start it while an interval runs. The page never does
        (R.StartTraditionalNeverOrphansInterval). */
    method StartTraditional()
      requires !timerLive
      modifies this
      ensures Cells() == F.StartTraditional(old(Cells()))
    {
      mode := F.Traditional;
      progress := 0;
      timerLive := true;
    }

    /** One firing of the interval; nothing happens when none runs. */
    method Tick()
      modifies this
      ensures Cells() == F.Tick(old(Cells()))
    {
      if timerLive {
        if progress >= 100 {
          timerLive := false;
          question := F.TraditionalCheck;
          progress := 100;
        } else {
          progress := progress + 20;
        }
      }
    }

    /** `startAdaptive`. */
    method StartAdaptive()
      modifies this
      ensures Cells() == F.StartAdaptive(old(Cells()))
    {
      mode := F.Adaptive;
      question := F.PreTest;
    }

    /** `handleAnswer(correct)`. */
    method HandleAnswer(correct: bool)
      modifies this
      ensures Cells() == F.HandleAnswer(old(Cells()), correct)
    {
      if mode == F.Adaptive {
        if correct {
          result := F.Pass;
        } else {
          question := F.Learning;
        }
      } else {
        result := if correct then F.Pass else F.Fail;
      }
    }

    /** The "Complete Learning" click. */
    method CompleteLearning()
      modifies this
      ensures Cells() == F.CompleteLearning(old(Cells()))
    {
      result := F.Pass;
    }

    /** `reset`: clears every cell and cancels the interval if one runs. */
    method Reset()
      modifies this
      ensures Cells() == F.Reset(old(Cells()))
    {
      mode := F.Select;
      progress := 0;
      question := F.NoQuestion;
      result := F.NoResult;
      timerLive := false;
    }

    /** The interval left to run while the locked flow loads: it fires until
        it cancels itself, which takes 6 - progress/20 firings, and leaves
        the knowledge check on screen with a full bar. Nothing else can
        happen meanwhile (R.LoadingAcceptsOnlyTicks). */
    method RunInterval() returns (firings: nat)
      requires R.Loading(Cells())
      modifies this
      ensures firings == 6 - old(progress) / 20
      ensures Cells() == F.Run(old(Cells()), F.Ticks(firings))
      ensures Cells() == old(Cells()).(progress := 100, timerLive := false, question := F.TraditionalCheck)
    {
      firings := 0;
      while timerLive
        invariant Cells() == F.Run(old(Cells()), F.Ticks(firings))
        invariant timerLive ==> R.Loading(Cells()) && Cells() == old(Cells()).(progress := progress)
        invariant timerLive ==> progress == old(progress) + 20 * firings
        invariant !timerLive ==> firings == 6 - old(progress) / 20
        invariant !timerLive ==>
          Cells() == old(Cells()).(progress := 100, timerLive := false, question := F.TraditionalCheck)
        decreases if timerLive then 200 - progress else 0
      {
        R.TicksSnoc(firings);
        R.RunAppend(old(Cells()), F.Ticks(firings), [F.IntervalFires]);
        R.Cons(Cells(), F.IntervalFires, []);
        Tick();
        firings := firings + 1;
      }
    }
  }

  /** A visit to the locked flow: choose it, wait for the knowledge check
      (six firings), answer. The answer alone decides the result. */
  method TraditionalSession(correct: bool) returns (outcome: F.Result, firings: nat)
    ensures firings == 6
    ensures outcome == (if correct then F.Pass else F.Fail)
  {
    var c := new Controller();
    c.StartTraditional();
    firings := c.RunInterval();
    c.HandleAnswer(correct);
    outcome := c.result;
  }

  /** A visit to the adaptive flow: answer the pre-test and, after a wrong
      answer, complete the learning module. Every such visit passes; the
      learning module is shown exactly when the pre-test answer was wrong. */
  method AdaptiveSession(knowsAnswer: bool) returns (outcome: F.Result, sawLearning: bool)
    ensures outcome == F.Pass
    ensures sawLearning == !knowsAnswer
  {
    var c := new Controller();
    c.StartAdaptive();
    c.HandleAnswer(knowsAnswer);
    sawLearning := c.question == F.Learning;
    if sawLearning {
      c.CompleteLearning();
    }
    outcome := c.result;
  }
}
