/**
 * `pup.api.package`: collect the project's metadata, then run every step
 * the dispatcher yields, in order, each between a "starting" and a
 * "completed" log line. Nothing is caught, so the first call that raises
 * ends the run.
 *
 * The dispatcher is given: which steps it yields, whether collecting the
 * metadata raises and which steps raise are its own business.
 */
module Driver {

  import opened Paths

  /** What `package` can be seen to do: its log lines and its calls into the dispatcher. */
  datatype Event =
    | PackageStarting(src: Path)
    | MetadataCollection            // `dsp.collect_src_metadata()`
    | StepStarting(step: string)
    | StepRun(step: string)         // `dsp.run_pluggable_step(step)`
    | StepCompleted(step: string)
    | PackageCompleted(src: Path)

  /** The events `package` records and whether it returned rather than raised. */
  datatype Trace = Trace(events: seq<Event>, completed: bool)

  /** One step that returns: its starting line, its run, its completed line. */
  function Bracket(step: string): seq<Event> {
    [StepStarting(step), StepRun(step), StepCompleted(step)]
  }

  /** The events of steps that all return, in order. */
  function Bracketed(steps: seq<string>): seq<Event>
    decreases |steps|
  {
    if steps == [] then [] else Bracketed(steps[..|steps| - 1]) + Bracket(steps[|steps| - 1])
  }

  /** The index of the first step that raises, or the number of steps when none does. */
  function FirstRaising(steps: seq<string>, raising: set<string>): (k: nat)
    ensures k <= |steps|
    ensures forall j :: 0 <= j < k ==> steps[j] !in raising
    ensures k < |steps| ==> steps[k] in raising
  {
    if steps == [] then 0
    else if steps[0] in raising then 0
    else 1 + FirstRaising(steps[1..], raising)
  }

  /** `package(src)` against a dispatcher that yields `steps`. */
  function PackageTrace(src: Path, steps: seq<string>, metadataRaises: bool, raising: set<string>): Trace {
    var head := [PackageStarting(src), MetadataCollection];
    if metadataRaises then Trace(head, false)
    else
      var k := FirstRaising(steps, raising);
      if k == |steps| then Trace(head + Bracketed(steps) + [PackageCompleted(src)], true)
      else Trace(head + Bracketed(steps[..k]) + [StepStarting(steps[k]), StepRun(steps[k])], false)
  }

  /**
   * The dispatcher and the log, as `package` sees them: both append to one
   * record of what happened, in order.
   */
  class Session {
    const steps: seq<string>
    const metadataRaises: bool
    const raising: set<string>
    var events: seq<Event>

    constructor (steps: seq<string>, metadataRaises: bool, raising: set<string>)
      ensures this.steps == steps && this.metadataRaises == metadataRaises && this.raising == raising
      ensures events == []
    {
      this.steps, this.metadataRaises, this.raising := steps, metadataRaises, raising;
      events := [];
    }

    /** An info line. */
    method Log(e: Event)
      modifies this`events
      ensures events == old(events) + [e]
    {
      events := events + [e];
    }

    /** `dsp.collect_src_metadata()`; `false` when it raises. */
    method CollectSrcMetadata() returns (ok: bool)
      modifies this`events
      ensures events == old(events) + [MetadataCollection]
      ensures ok == !metadataRaises
    {
      events := events + [MetadataCollection];
      ok := !metadataRaises;
    }

    /** `dsp.steps()`. */
    method Steps() returns (r: seq<string>)
      ensures r == steps
    {
      r := steps;
    }

    /** `dsp.run_pluggable_step(step)`; `false` when it raises. */
    method RunPluggableStep(step: string) returns (ok: bool)
      modifies this`events
      ensures events == old(events) + [StepRun(step)]
      ensures ok == (step !in raising)
    {
      events := events + [StepRun(step)];
      ok := step !in raising;
    }
  }

  /** `package(src)`: `false` when it raises. */
  method Package(src: Path, dsp: Session) returns (completed: bool)
    modifies dsp`events
    ensures dsp.events == old(dsp.events) + PackageTrace(src, dsp.steps, dsp.metadataRaises, dsp.raising).events
    ensures completed == PackageTrace(src, dsp.steps, dsp.metadataRaises, dsp.raising).completed
  {
    dsp.Log(PackageStarting(src));
    completed := dsp.CollectSrcMetadata();
    if !completed {
      return;
    }
    var steps := dsp.Steps();
    var i := 0;
    while i < |steps|
      invariant i <= |steps|
      invariant forall j :: 0 <= j < i ==> steps[j] !in dsp.raising
      invariant dsp.events == old(dsp.events) + [PackageStarting(src), MetadataCollection] + Bracketed(steps[..i])
    {
      var step := steps[i];
      dsp.Log(StepStarting(step));
      completed := dsp.RunPluggableStep(step);
      if !completed {
        assert FirstRaising(steps, dsp.raising) == i;
        return;
      }
      dsp.Log(StepCompleted(step));
      assert steps[..i + 1][..i] == steps[..i];
      i := i + 1;
    }
    assert steps[..i] == steps;
    assert FirstRaising(steps, dsp.raising) == |steps|;
    dsp.Log(PackageCompleted(src));
  }

  // ---------------------------------------------------------------------------
  // Properties

  /** The step names of the run events, in order. */
  function RunsOf(events: seq<Event>): seq<string> {
    if events == [] then []
    else (if events[0].StepRun? then [events[0].step] else []) + RunsOf(events[1..])
  }

  lemma {:induction false} RunsOfAppend(a: seq<Event>, b: seq<Event>)
    ensures RunsOf(a + b) == RunsOf(a) + RunsOf(b)
    decreases |a|
  {
    if a == [] {
      assert a + b == b;
    } else {
      assert (a + b)[1..] == a[1..] + b;
      RunsOfAppend(a[1..], b);
    }
  }

  /** Events other than runs contribute nothing. */
  lemma {:induction false} RunsOfQuiet(events: seq<Event>)
    requires forall i :: 0 <= i < |events| ==> !events[i].StepRun?
    ensures RunsOf(events) == []
    decreases |events|
  {
    if events != [] {
      RunsOfQuiet(events[1..]);
    }
  }

  /** A run between a quiet prefix and a quiet suffix contributes its own step only. */
  lemma RunsOfAround(before: seq<Event>, step: string, after: seq<Event>)
    requires forall i :: 0 <= i < |before| ==> !before[i].StepRun?
    requires forall i :: 0 <= i < |after| ==> !after[i].StepRun?
    ensures RunsOf(before + [StepRun(step)] + after) == [step]
  {
    RunsOfQuiet(before);
    RunsOfQuiet(after);
    RunsOfAppend(before, [StepRun(step)]);
    RunsOfAppend(before + [StepRun(step)], after);
    assert RunsOf([StepRun(step)]) == [step];
  }

  /** Bracketed steps run each of the steps once, in order. */
  lemma {:induction false} RunsOfBracketed(steps: seq<string>)
    ensures RunsOf(Bracketed(steps)) == steps
    decreases |steps|
  {
    if steps != [] {
      var last := steps[|steps| - 1];
      RunsOfBracketed(steps[..|steps| - 1]);
      RunsOfAppend(Bracketed(steps[..|steps| - 1]), Bracket(last));
      RunsOfAround([StepStarting(last)], last, [StepCompleted(last)]);
      assert steps[..|steps| - 1] + [last] == steps;
    }
  }

  /** Bracketed steps only start, run and complete steps. */
  lemma {:induction false} BracketedKinds(steps: seq<string>, e: Event)
    requires e in Bracketed(steps)
    ensures e.StepStarting? || e.StepRun? || e.StepCompleted?
    decreases |steps|
  {
    if steps != [] && e !in Bracket(steps[|steps| - 1]) {
      BracketedKinds(steps[..|steps| - 1], e);
    }
  }

  /** Bracketed steps begin with the first step's starting line. */
  lemma {:induction false} BracketedStartsWith(steps: seq<string>)
    ensures steps != [] ==> |Bracketed(steps)| >= 3 && Bracketed(steps)[0] == StepStarting(steps[0])
    decreases |steps|
  {
    if steps != [] {
      var init := steps[..|steps| - 1];
      BracketedStartsWith(init);
      if init != [] {
        assert init[0] == steps[0];
      }
    }
  }

  /** Within bracketed steps, each run sits between its own starting and completed lines. */
  lemma {:induction false} BracketedRuns(steps: seq<string>)
    ensures forall i :: 0 <= i < |Bracketed(steps)| && Bracketed(steps)[i].StepRun? ==>
      0 < i < |Bracketed(steps)| - 1
      && Bracketed(steps)[i - 1] == StepStarting(Bracketed(steps)[i].step)
      && Bracketed(steps)[i + 1] == StepCompleted(Bracketed(steps)[i].step)
    decreases |steps|
  {
    if steps != [] {
      var init, last := steps[..|steps| - 1], steps[|steps| - 1];
      BracketedRuns(init);
      var b, b0 := Bracketed(steps), Bracketed(init);
      assert b == b0 + Bracket(last);
      forall i | 0 <= i < |b| && b[i].StepRun?
        ensures 0 < i < |b| - 1 && b[i - 1] == StepStarting(b[i].step) && b[i + 1] == StepCompleted(b[i].step)
      {
        if i < |b0| {
          assert b0[i] == b[i] && b0[i].StepRun?;
          assert b[i - 1] == b0[i - 1] && b[i + 1] == b0[i + 1];
        } else {
          assert i == |b0| + 1;
        }
      }
    }
  }

  /**
   * The metadata is collected before any step runs, right after the
   * starting line, whatever happens next.
   */
  lemma MetadataFirst(src: Path, steps: seq<string>, metadataRaises: bool, raising: set<string>)
    ensures var t := PackageTrace(src, steps, metadataRaises, raising).events;
      |t| >= 2 && t[0] == PackageStarting(src) && t[1] == MetadataCollection
      && forall i :: 0 <= i < |t| && t[i].StepRun? ==> i >= 3
  {
    var t := PackageTrace(src, steps, metadataRaises, raising).events;
    if !metadataRaises {
      var k := FirstRaising(steps, raising);
      BracketedStartsWith(steps);
      BracketedStartsWith(steps[..k]);
      assert t[2].StepStarting? || t[2].PackageCompleted?;
    }
  }

  /**
   * When `package` returns, every step the dispatcher yields has been run
   * exactly once, in the order yielded, and the completed line comes last;
   * it returns exactly when neither the metadata nor any step raises.
   */
  lemma EveryStepOnceInOrder(src: Path, steps: seq<string>, metadataRaises: bool, raising: set<string>)
    ensures var r := PackageTrace(src, steps, metadataRaises, raising);
      r.completed <==> !metadataRaises && forall j :: 0 <= j < |steps| ==> steps[j] !in raising
    ensures var r := PackageTrace(src, steps, metadataRaises, raising);
      r.completed ==> RunsOf(r.events) == steps && r.events[|r.events| - 1] == PackageCompleted(src)
  {
    var head := [PackageStarting(src), MetadataCollection];
    if !metadataRaises && FirstRaising(steps, raising) == |steps| {
      RunsOfQuiet(head);
      RunsOfQuiet([PackageCompleted(src)]);
      RunsOfAppend(head, Bracketed(steps));
      RunsOfAppend(head + Bracketed(steps), [PackageCompleted(src)]);
      RunsOfBracketed(steps);
    }
  }

  /**
   * Every step's starting line comes right before its run, and, unless the
   * step raises, its completed line comes right after it.
   */
  lemma RunsAreBracketed(src: Path, steps: seq<string>, metadataRaises: bool, raising: set<string>)
    ensures var t := PackageTrace(src, steps, metadataRaises, raising).events;
      forall i :: 0 <= i < |t| && t[i].StepRun? ==>
        0 < i && t[i - 1] == StepStarting(t[i].step)
        && (t[i].step !in raising ==> i + 1 < |t| && t[i + 1] == StepCompleted(t[i].step))
  {
    if !metadataRaises {
      var k := FirstRaising(steps, raising);
      var b := if k == |steps| then Bracketed(steps) else Bracketed(steps[..k]);
      BracketedRuns(if k == |steps| then steps else steps[..k]);
      var t := PackageTrace(src, steps, metadataRaises, raising).events;
      var tail := if k == |steps| then [PackageCompleted(src)] else [StepStarting(steps[k]), StepRun(steps[k])];
      assert t == [PackageStarting(src), MetadataCollection] + b + tail;
      forall i | 0 <= i < |t| && t[i].StepRun?
        ensures 0 < i && t[i - 1] == StepStarting(t[i].step)
        ensures t[i].step !in raising ==> i + 1 < |t| && t[i + 1] == StepCompleted(t[i].step)
      {
        if i < 2 + |b| {
          assert i >= 2 && t[i] == b[i - 2] && b[i - 2].StepRun?;
          assert t[i - 1] == b[i - 3] && t[i + 1] == b[i - 1];
        } else {
          assert k < |steps| && i == |t| - 1 && t[i] == StepRun(steps[k]);
        }
      }
    }
  }

  /** The steps run before one raises: those before the first that raises, then that one. */
  lemma FailureRunsPrefix(src: Path, steps: seq<string>, raising: set<string>)
    requires FirstRaising(steps, raising) < |steps|
    ensures var r := PackageTrace(src, steps, false, raising);
      var k := FirstRaising(steps, raising);
      !r.completed && RunsOf(r.events) == steps[..k + 1] && steps[k] in raising
  {
    var k := FirstRaising(steps, raising);
    var head := [PackageStarting(src), MetadataCollection];
    RunsOfQuiet(head);
    RunsOfAppend(head, Bracketed(steps[..k]));
    RunsOfAppend(head + Bracketed(steps[..k]), [StepStarting(steps[k]), StepRun(steps[k])]);
    RunsOfBracketed(steps[..k]);
    RunsOfAround([StepStarting(steps[k])], steps[k], []);
    assert [StepStarting(steps[k])] + [StepRun(steps[k])] + [] == [StepStarting(steps[k]), StepRun(steps[k])];
    assert steps[..k] + [steps[k]] == steps[..k + 1];
  }

  /** A step that raises is the last thing that happens: not even the completed line follows. */
  lemma FailureHalts(src: Path, steps: seq<string>, raising: set<string>)
    requires FirstRaising(steps, raising) < |steps|
    ensures var t := PackageTrace(src, steps, false, raising).events;
      t[|t| - 1] == StepRun(steps[FirstRaising(steps, raising)]) && PackageCompleted(src) !in t
  {
    var k := FirstRaising(steps, raising);
    if PackageCompleted(src) in Bracketed(steps[..k]) {
      BracketedKinds(steps[..k], PackageCompleted(src));
    }
  }

  /** When collecting the metadata raises, no step runs at all. */
  lemma MetadataFailureHalts(src: Path, steps: seq<string>, raising: set<string>)
    ensures PackageTrace(src, steps, true, raising) == Trace([PackageStarting(src), MetadataCollection], false)
    ensures RunsOf(PackageTrace(src, steps, true, raising).events) == []
  {
    RunsOfQuiet([PackageStarting(src), MetadataCollection]);
  }
}
