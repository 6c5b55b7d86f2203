/**
 * The ordered step list both pipelines run: each step consumes the previous
 * step's output, and the first failure ends the run.
 */
module Pipeline {
  import opened Errors

  /** A message at any stage of a pipeline: its header mapping and its body. */
  datatype Message = Message(headers: map<string, string>, payload: string)

  /** The middleware steps the pipelines are built from. */
  datatype StepName = CreateAMQPMiddleware | ValidateMessageMiddleware | CreateMessageMiddleware

  /** A step: its name and what its `process` does, a transformation that may reject its input. */
  datatype Step = Step(name: StepName, run: Message -> Result<Message>)

  /** What an observer sees of a pipeline: a step being run on an input, a
      publication handed to the transport driver, a message handed to the processor. */
  datatype Event =
    | StepRan(step: StepName, input: Message)
    | Published(exchange: string, routingKey: string, message: Message)
    | HandedOff(message: Message)

  /** The output of the whole step list, or the error of the first step that failed. */
  function RunSteps(steps: seq<Step>, m: Message): Result<Message>
    decreases |steps|
  {
    if steps == [] then Ok(m)
    else match steps[0].run(m)
      case Err(e) => Err(e)
      case Ok(next) => RunSteps(steps[1..], next)
  }

  /** The steps that run on `m`, in order, each with the input it receives. */
  function StepEvents(steps: seq<Step>, m: Message): seq<Event>
    decreases |steps|
  {
    if steps == [] then []
    else
      var later := match steps[0].run(m)
        case Err(_) => []
        case Ok(next) => StepEvents(steps[1..], next);
      [StepRan(steps[0].name, m)] + later
  }

  /** The external side effects in a trace: every event other than a step run, in order. */
  function Effects(trace: seq<Event>): seq<Event>
    decreases |trace|
  {
    if trace == [] then []
    else (if trace[0].StepRan? then [] else [trace[0]]) + Effects(trace[1..])
  }

  /** Running `a + b` is running `a`, then, only if it succeeded, `b` on its output. */
  lemma {:induction false} RunStepsAppend(a: seq<Step>, b: seq<Step>, m: Message)
    ensures RunSteps(a + b, m) ==
      match RunSteps(a, m)
      case Err(e) => Err(e)
      case Ok(x) => RunSteps(b, x)
    ensures StepEvents(a + b, m) ==
      StepEvents(a, m) + (if RunSteps(a, m).Ok? then StepEvents(b, RunSteps(a, m).value) else [])
    decreases |a|
  {
    if a == [] {
      assert a + b == b;
    } else {
      assert (a + b)[0] == a[0];
      assert (a + b)[1..] == a[1..] + b;
      match a[0].run(m)
      case Err(_) =>
      case Ok(next) => RunStepsAppend(a[1..], b, next);
    }
  }

  /** The order and short-circuit contract of a run: steps run strictly in the
      declared order; the first receives `m` and each later one its predecessor's
      output; a failing step is the last to run and its error is the run's error;
      on success every step ran and the output is the last step's. */
  lemma {:induction false} StepEventsShape(steps: seq<Step>, m: Message)
    ensures |StepEvents(steps, m)| <= |steps|
    ensures forall i :: 0 <= i < |StepEvents(steps, m)| ==>
      StepEvents(steps, m)[i].StepRan? && StepEvents(steps, m)[i].step == steps[i].name
    ensures 0 < |steps| ==> 0 < |StepEvents(steps, m)| && StepEvents(steps, m)[0].input == m
    ensures forall i :: 0 <= i < |StepEvents(steps, m)| - 1 ==>
      steps[i].run(StepEvents(steps, m)[i].input) == Ok(StepEvents(steps, m)[i + 1].input)
    ensures RunSteps(steps, m).Ok? ==> |StepEvents(steps, m)| == |steps|
    ensures 0 < |StepEvents(steps, m)| ==>
      var last := |StepEvents(steps, m)| - 1;
      match steps[last].run(StepEvents(steps, m)[last].input)
      case Err(e) => RunSteps(steps, m) == Err(e)
      case Ok(out) => last == |steps| - 1 && RunSteps(steps, m) == Ok(out)
    decreases |steps|
  {
    if steps != [] {
      match steps[0].run(m)
      case Err(_) =>
      case Ok(next) =>
        var rest := StepEvents(steps[1..], next);
        StepEventsShape(steps[1..], next);
        var ev := StepEvents(steps, m);
        assert ev == [StepRan(steps[0].name, m)] + rest;
        forall i | 0 < i < |ev|
          ensures ev[i] == rest[i - 1] && steps[i] == steps[1..][i - 1]
        {
        }
        if 0 < |rest| {
          assert steps[0].run(ev[0].input) == Ok(ev[1].input);
        }
    }
  }

  /** One more step of a run: step `i` runs on the output of the first `i` steps, if they succeeded. */
  lemma RunStepsExtend(steps: seq<Step>, i: nat, m: Message)
    requires i < |steps|
    ensures RunSteps(steps[..i + 1], m) ==
      match RunSteps(steps[..i], m)
      case Err(e) => Err(e)
      case Ok(x) => steps[i].run(x)
    ensures StepEvents(steps[..i + 1], m) ==
      StepEvents(steps[..i], m) +
        (if RunSteps(steps[..i], m).Ok? then [StepRan(steps[i].name, RunSteps(steps[..i], m).value)] else [])
  {
    assert steps[..i] + [steps[i]] == steps[..i + 1];
    RunStepsAppend(steps[..i], [steps[i]], m);
    if RunSteps(steps[..i], m).Ok? {
      var x := RunSteps(steps[..i], m).value;
      assert [steps[i]][1..] == [];
      match steps[i].run(x)
      case Err(_) =>
      case Ok(y) =>
        assert RunSteps([steps[i]], x) == RunSteps([], y);
        assert StepEvents([steps[i]], x) == [StepRan(steps[i].name, x)] + StepEvents([], y);
    }
  }

  /** Once the first `i` steps have failed, the rest of the list never runs. */
  lemma RunStepsStopped(steps: seq<Step>, i: nat, m: Message)
    requires i <= |steps|
    requires RunSteps(steps[..i], m).Err?
    ensures RunSteps(steps, m) == RunSteps(steps[..i], m)
    ensures StepEvents(steps, m) == StepEvents(steps[..i], m)
  {
    assert steps[..i] + steps[i..] == steps;
    RunStepsAppend(steps[..i], steps[i..], m);
  }

  /** A two-step list, as both pipelines are built: the second step runs only
      when the first succeeded, and then on the first step's output. */
  lemma TwoStepRun(first: Step, second: Step, m: Message)
    ensures StepEvents([first, second], m) ==
      [StepRan(first.name, m)] + (if first.run(m).Ok? then [StepRan(second.name, first.run(m).value)] else [])
    ensures RunSteps([first, second], m) ==
      match first.run(m)
      case Err(e) => Err(e)
      case Ok(x) => second.run(x)
  {
    assert [first, second][1..] == [second];
    if first.run(m).Ok? {
      var x := first.run(m).value;
      assert [second][1..] == [];
      match second.run(x)
      case Err(_) =>
      case Ok(y) =>
        assert RunSteps([second], x) == RunSteps([], y);
        assert StepEvents([second], x) == [StepRan(second.name, x)] + StepEvents([], y);
    }
  }

  /** Steps are not side effects. */
  lemma {:induction false} StepsHaveNoEffects(steps: seq<Step>, m: Message)
    ensures Effects(StepEvents(steps, m)) == []
    decreases |steps|
  {
    if steps != [] {
      var first := [StepRan(steps[0].name, m)];
      match steps[0].run(m)
      case Err(_) =>
        assert StepEvents(steps, m) == first;
      case Ok(next) =>
        StepsHaveNoEffects(steps[1..], next);
        EffectsAppend(first, StepEvents(steps[1..], next));
    }
  }

  /** The side effects of a concatenated trace are those of its parts. */
  lemma {:induction false} EffectsAppend(a: seq<Event>, b: seq<Event>)
    ensures Effects(a + b) == Effects(a) + Effects(b)
    decreases |a|
  {
    if a == [] {
      assert a + b == b;
    } else {
      assert (a + b)[0] == a[0];
      assert (a + b)[1..] == a[1..] + b;
      EffectsAppend(a[1..], b);
    }
  }

  /** The loop shared by both pipelines: `msg = step.process(msg)` for every step
      in order, returning the final message and the steps that ran. */
  method RunPipeline(steps: seq<Step>, m: Message) returns (r: Result<Message>, ran: seq<Event>)
    ensures r == RunSteps(steps, m)
    ensures ran == StepEvents(steps, m)
  {
    var msg := m;
    ran := [];
    for i := 0 to |steps|
      invariant RunSteps(steps[..i], m) == Ok(msg)
      invariant ran == StepEvents(steps[..i], m)
    {
      ran := ran + [StepRan(steps[i].name, msg)];
      var out := steps[i].run(msg);
      RunStepsExtend(steps, i, m);
      if out.Err? {
        RunStepsStopped(steps, i + 1, m);
        return out, ran;
      }
      msg := out.value;
    }
    assert steps[..|steps|] == steps;
    r := Ok(msg);
  }
}
