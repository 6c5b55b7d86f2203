/**
 * The inbound pipeline: validate and construct an incoming message, then hand
 * it to the processor.
 */
module PreProcessing {
  import opened Errors
  import opened Pipeline

  /** What `process` reports: the first step failure, or success. */
  function InboundOutcome(steps: seq<Step>, m: Message): Outcome {
    match RunSteps(steps, m)
    case Err(e) => Fail(e)
    case Ok(_) => Pass
  }

  /** What `process` does: the steps that ran, then the hand-off of the final message, if any. */
  function InboundTrace(steps: seq<Step>, m: Message): seq<Event> {
    StepEvents(steps, m) +
      match RunSteps(steps, m)
      case Err(_) => []
      case Ok(out) => [HandedOff(out)]
  }

  /** The processor receives exactly one message, the last step's output, when
      every step succeeds, and nothing when one fails; the hand-off comes after
      every step run. */
  lemma InboundHandsOffOnce(steps: seq<Step>, m: Message)
    ensures Effects(InboundTrace(steps, m)) ==
      if RunSteps(steps, m).Ok? then [HandedOff(RunSteps(steps, m).value)] else []
    ensures InboundOutcome(steps, m) == Pass <==> RunSteps(steps, m).Ok?
    ensures RunSteps(steps, m).Ok? ==>
      InboundTrace(steps, m)[|InboundTrace(steps, m)| - 1] == HandedOff(RunSteps(steps, m).value)
  {
    var tail := match RunSteps(steps, m)
      case Err(_) => []
      case Ok(out) => [HandedOff(out)];
    StepsHaveNoEffects(steps, m);
    EffectsAppend(StepEvents(steps, m), tail);
    if RunSteps(steps, m).Ok? {
      assert Effects(tail) == Effects([HandedOff(RunSteps(steps, m).value)] + []);
    }
  }

  /** The inbound pipeline. `P` stands for the processor, whose `process` calls
      are recorded as `HandedOff` events. */
  class PreProcessor<P> {
    const processor: P
    const steps: seq<Step>
    var trace: seq<Event>

    constructor (processor: P, validate: Message -> Result<Message>, create: Message -> Result<Message>)
      ensures this.processor == processor
      ensures steps == [Step(ValidateMessageMiddleware, validate), Step(CreateMessageMiddleware, create)]
      ensures trace == []
    {
      this.processor := processor;
      steps := [Step(ValidateMessageMiddleware, validate), Step(CreateMessageMiddleware, create)];
      trace := [];
    }

    /** `process`: run the incoming steps in order, then hand their output to the processor. */
    method Process(amqpMessage: Message) returns (r: Outcome)
      modifies this`trace
      ensures r == InboundOutcome(steps, amqpMessage)
      ensures trace == old(trace) + InboundTrace(steps, amqpMessage)
    {
      var msg, ran := RunPipeline(steps, amqpMessage);
      trace := trace + ran;
      if msg.Err? {
        return Fail(msg.error);
      }
      trace := trace + [HandedOff(msg.value)];
      r := Pass;
    }
  }
}
