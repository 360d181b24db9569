/**
 * The greeter aggregate of `example_command`: a projection holding one flag,
 * `is_recording`, the three events that are applied to it in place, and the
 * three command handlers that read the projection and decide what to emit
 * into the aggregate context and what to reply.
 *
 * `Evolve` and `Emits` state, as functions, what applying an event and
 * handling a command do; the methods are proved against them, and the lemmas
 * at the end show that any run of commands emits a consistent event stream.
 */
module Greeter {
  import opened Wrappers
  import opened Proto

  /** The events the aggregate emits and is rebuilt from */
  datatype GreeterEvent =
    | GreetedEvent(message: Option<Greeting>)
    | StartedRecordingEvent
    | StoppedRecordingEvent
  {
    /** `apply_to`: a greeting leaves the projection alone, start and stop set the flag */
    method ApplyTo(projection: GreeterProjection)
      modifies projection
      ensures projection.isRecording == Evolve(old(projection.isRecording), this)
    {
      match this
      case GreetedEvent(_) =>
      case StartedRecordingEvent =>
        projection.isRecording := true;
      case StoppedRecordingEvent =>
        projection.isRecording := false;
    }
  }

  /** The flag after one event */
  function Evolve(isRecording: bool, e: GreeterEvent): bool
  {
    match e
    case GreetedEvent(_) => isRecording
    case StartedRecordingEvent => true
    case StoppedRecordingEvent => false
  }

  /** The flag after a sequence of events, applied first to last */
  function Fold(isRecording: bool, events: seq<GreeterEvent>): bool
    decreases |events|
  {
    if events == [] then isRecording else Fold(Evolve(isRecording, events[0]), events[1..])
  }

  /** `GreeterProjection`, the aggregate's state, a protobuf message updated in place */
  class GreeterProjection {
    var isRecording: bool

    /** `GreeterProjection::default()`: protobuf defaults, so not recording */
    constructor Default()
      ensures !isRecording
    {
      isRecording := false;
    }

    method Clone() returns (copy: GreeterProjection)
      ensures fresh(copy) && copy.isRecording == isRecording
    {
      copy := new GreeterProjection.Default();
      copy.isRecording := isRecording;
    }
  }

  /** `empty_projection`: the default projection with recording switched on */
  method EmptyProjection() returns (projection: GreeterProjection)
    ensures fresh(projection) && projection.isRecording
  {
    projection := new GreeterProjection.Default();
    projection.isRecording := true;
  }

  /**
   * `handle_sourcing_event`: apply the event to a copy of the projection and
   * return the copy; the projection passed in is not modified.
   */
  method HandleSourcingEvent(event: GreeterEvent, projection: GreeterProjection)
    returns (r: Option<GreeterProjection>)
    ensures r.Some? && fresh(r.value)
    ensures r.value.isRecording == Evolve(projection.isRecording, event)
  {
    var p := projection.Clone();
    event.ApplyTo(p);
    r := Some(p);
  }

  /**
   * The aggregate context a command handler works in: the current projection
   * and the events emitted so far.
   */
  class AggregateContext {
    const projection: GreeterProjection
    var emitted: seq<GreeterEvent>

    constructor (projection: GreeterProjection)
      ensures this.projection == projection && emitted == []
    {
      this.projection := projection;
      emitted := [];
    }

    /** `get_projection`: a copy of the current projection */
    method GetProjection() returns (p: GreeterProjection)
      ensures fresh(p) && p.isRecording == projection.isRecording
    {
      p := projection.Clone();
    }

    /** `emit`: append an event to those the command produced */
    method Emit(event: GreeterEvent)
      modifies this`emitted
      ensures emitted == old(emitted) + [event]
    {
      emitted := emitted + [event];
    }
  }

  /** The commands the aggregate handles */
  datatype Command = Greet(command: GreetCommand) | Record | Stop

  /** The message of a greet command, `"-/-"` when it carries no greeting */
  function MessageOf(command: GreetCommand): string
  {
    if command.message.Some? then command.message.value.message else "-/-"
  }

  /** The error a greet command with message `"ERROR"` fails with */
  const GREET_ERROR: string := "Panicked at reading 'ERROR'"

  /** The events a command emits when the projection's flag is `isRecording` */
  function Emits(isRecording: bool, c: Command): seq<GreeterEvent>
  {
    match c
    case Greet(g) => if MessageOf(g) == "ERROR" || !isRecording then [] else [GreetedEvent(g.message)]
    case Record => if isRecording then [] else [StartedRecordingEvent]
    case Stop => if isRecording then [StoppedRecordingEvent] else []
  }

  /**
   * `handle_greet_command`: a message of `"ERROR"` fails before the projection
   * is read; while not recording nothing is emitted and there is no reply;
   * while recording one `GreetedEvent` carrying the greeting is emitted and
   * the reply is `"ACK! "` followed by the message.
   */
  method HandleGreetCommand(command: GreetCommand, context: AggregateContext)
    returns (r: Result<Option<Acknowledgement>, string>)
    modifies context`emitted
    ensures MessageOf(command) == "ERROR" ==> r == Err(GREET_ERROR)
    ensures MessageOf(command) != "ERROR" && !context.projection.isRecording ==> r == Ok(None)
    ensures MessageOf(command) != "ERROR" && context.projection.isRecording ==>
      r == Ok(Some(Acknowledgement("ACK! " + MessageOf(command))))
    ensures context.emitted == old(context.emitted) + Emits(context.projection.isRecording, Greet(command))
  {
    var greeting := command.message;
    var message := MessageOf(command);
    if message == "ERROR" {
      return Err(GREET_ERROR);
    }
    var projection := context.GetProjection();
    if !projection.isRecording {
      return Ok(None);
    }
    context.Emit(GreetedEvent(greeting));
    r := Ok(Some(Acknowledgement("ACK! " + message)));
  }

  /** `handle_record_command`: nothing to do while recording; otherwise emit `StartedRecordingEvent` */
  method HandleRecordCommand(context: AggregateContext) returns (r: Option<Empty>)
    modifies context`emitted
    ensures r.Some? <==> !context.projection.isRecording
    ensures context.emitted == old(context.emitted) + Emits(context.projection.isRecording, Record)
  {
    var projection := context.GetProjection();
    if projection.isRecording {
      return None;
    }
    context.Emit(StartedRecordingEvent);
    r := Some(Empty);
  }

  /** `handle_stop_command`: nothing to do while not recording; otherwise emit `StoppedRecordingEvent` */
  method HandleStopCommand(context: AggregateContext) returns (r: Option<Empty>)
    modifies context`emitted
    ensures r.Some? <==> context.projection.isRecording
    ensures context.emitted == old(context.emitted) + Emits(context.projection.isRecording, Stop)
  {
    var projection := context.GetProjection();
    if !projection.isRecording {
      return None;
    }
    context.Emit(StoppedRecordingEvent);
    r := Some(Empty);
  }

  // ---------------------------------------------------------------------
  // What the handlers guarantee about the aggregate
  // ---------------------------------------------------------------------

  /**
   * Applying what a command emits: record leaves the aggregate recording,
   * stop leaves it stopped, a greet never changes the flag, and a command
   * emits at most one event.
   */
  lemma CommandEffects(isRecording: bool, c: Command)
    ensures |Emits(isRecording, c)| <= 1
    ensures c.Record? ==> Fold(isRecording, Emits(isRecording, c))
    ensures c.Stop? ==> !Fold(isRecording, Emits(isRecording, c))
    ensures c.Greet? ==> Fold(isRecording, Emits(isRecording, c)) == isRecording
  {
  }

  /**
   * An event stream is consistent with a starting flag when every
   * `StartedRecordingEvent` finds the aggregate stopped, every
   * `StoppedRecordingEvent` finds it recording, and every `GreetedEvent`
   * finds it recording.
   */
  predicate Consistent(isRecording: bool, events: seq<GreeterEvent>)
    decreases |events|
  {
    events == [] ||
    match events[0]
    case GreetedEvent(_) => isRecording && Consistent(isRecording, events[1..])
    case StartedRecordingEvent => !isRecording && Consistent(true, events[1..])
    case StoppedRecordingEvent => isRecording && Consistent(false, events[1..])
  }

  /** The events of a run of commands, each handled against the flag the earlier events left */
  function Run(isRecording: bool, commands: seq<Command>): seq<GreeterEvent>
    decreases |commands|
  {
    if commands == [] then []
    else
      var events := Emits(isRecording, commands[0]);
      events + Run(Fold(isRecording, events), commands[1..])
  }

  lemma {:induction false} ConsistentAppend(isRecording: bool, a: seq<GreeterEvent>, b: seq<GreeterEvent>)
    ensures Consistent(isRecording, a + b) <==> Consistent(isRecording, a) && Consistent(Fold(isRecording, a), b)
    ensures Fold(isRecording, a + b) == Fold(Fold(isRecording, a), b)
    decreases |a|
  {
    if a == [] {
      assert a + b == b;
    } else {
      assert (a + b)[0] == a[0];
      assert (a + b)[1..] == a[1..] + b;
      ConsistentAppend(Evolve(isRecording, a[0]), a[1..], b);
    }
  }

  /**
   * Whatever commands arrive, the aggregate never emits a start while
   * recording, a stop while stopped, or a greeting while stopped.
   */
  lemma {:induction false} RunIsConsistent(isRecording: bool, commands: seq<Command>)
    ensures Consistent(isRecording, Run(isRecording, commands))
    decreases |commands|
  {
    if commands != [] {
      var events := Emits(isRecording, commands[0]);
      RunIsConsistent(Fold(isRecording, events), commands[1..]);
      ConsistentAppend(isRecording, events, Run(Fold(isRecording, events), commands[1..]));
    }
  }

  /** From the initial projection, which is recording, the first recording event of any run is a stop */
  lemma FirstRecordingEventIsStop(commands: seq<Command>, i: nat)
    requires i < |Run(true, commands)| && !Run(true, commands)[i].GreetedEvent?
    requires forall j :: 0 <= j < i ==> Run(true, commands)[j].GreetedEvent?
    ensures Run(true, commands)[i] == StoppedRecordingEvent
  {
    RunIsConsistent(true, commands);
    GreetingsKeepFlag(true, Run(true, commands), i);
  }

  lemma {:induction false} GreetingsKeepFlag(isRecording: bool, events: seq<GreeterEvent>, i: nat)
    requires Consistent(isRecording, events)
    requires i < |events| && forall j :: 0 <= j < i ==> events[j].GreetedEvent?
    ensures Consistent(isRecording, events[i..])
    decreases i
  {
    if i > 0 {
      GreetingsKeepFlag(isRecording, events[1..], i - 1);
      assert events[1..][i - 1..] == events[i..];
    }
  }
}
