/**
 * The handler that supervises one forked test worker: it negotiates which of the
 * worker's two output pipes carries events, registers the background pumps, pumps
 * decoded events to the bus, buffers the diagnostic pipe and joins the pumps.
 *
 * Threads are replaced by an explicit list of registered pump tasks; running a task
 * is modelled by calling `PumpEvents` or `DrainErrorStream` with what its pipe yields.
 */
module StreamHandler {
  import opened Charsets
  import opened Events
  import opened Bus
  import opened Pump

  /** A registered background task and the pipe it reads. */
  datatype Task =
    | StderrPumper(source: Option<Pipe>)  // copies the diagnostic pipe into the buffer
    | EventPumper(source: Option<Pipe>)   // runs the event pump on the event pipe

  /** An exception that `start` does not catch and that therefore reaches its caller. */
  datatype Uncaught =
    | ClassCast    // the first decoded event is not a bootstrap record
    | NullPointer  // the first decode call returned null, or the record's channel is null
    | BusFailure   // posting the bootstrap record threw

  /** How `start` ends: both pumps registered, only the diagnostic drain, or thrown. */
  datatype StartOutcome = Running | Degraded | Escaped(cause: Uncaught)

  /** The bytes of `chunks` read one after another. */
  function Concat(chunks: seq<seq<byte>>): (bytes: seq<byte>)
    ensures |bytes| == 0 <==> forall i :: 0 <= i < |chunks| ==> chunks[i] == []
  {
    if chunks == [] then []
    else Concat(chunks[..|chunks| - 1]) + chunks[|chunks| - 1]
  }

  /** How many joins complete when the join at position `interruptAt` (if any) is interrupted. */
  function JoinCount(n: nat, interruptAt: Option<nat>): (k: nat)
    ensures k <= n
    ensures interruptAt.None? ==> k == n
    ensures interruptAt.Some? && interruptAt.value < n ==> k == interruptAt.value
  {
    if interruptAt.Some? && interruptAt.value < n then interruptAt.value else n
  }

  class LocalSlaveStreamHandler {
    /** The bus events are posted to. */
    const eventBus: EventBus
    /** The bootstrap record, once one was read. */
    var bootstrapPacket: Option<BootstrapEvent>
    /** The pipe events are read from (after the handshake). */
    var stdout: Option<Pipe>
    /** The pipe drained into the diagnostic buffer (after the handshake). */
    var stderr: Option<Pipe>
    /** The writer to the worker's input, handed out with every idle signal. */
    var stdin: Option<Writer>
    /** Every byte drained from the diagnostic pipe, in order. */
    var stderrBuffered: seq<byte>
    /** The registered background tasks, in registration order. */
    var pumpers: seq<Task>
    /** What has been printed to the warning stream. */
    ghost var warnings: seq<Warning>
    /** The tasks `Stop` has waited for, in the order it waited. */
    ghost var joined: seq<Task>

    constructor (eventBus: EventBus)
      ensures this.eventBus == eventBus
      ensures bootstrapPacket == None && stdout == None && stderr == None && stdin == None
      ensures stderrBuffered == [] && pumpers == [] && warnings == [] && joined == []
    {
      this.eventBus := eventBus;
      bootstrapPacket := None;
      stdout, stderr, stdin := None, None, None;
      stderrBuffered, pumpers, warnings, joined := [], [], [], [];
    }

    method SetProcessErrorStream(p: Pipe)
      modifies this`stderr
      ensures stderr == Some(p)
    {
      stderr := Some(p);
    }

    method SetProcessOutputStream(p: Pipe)
      modifies this`stdout
      ensures stdout == Some(p)
    {
      stdout := Some(p);
    }

    method SetProcessInputStream(p: Pipe)
      modifies this`stdin
      ensures stdin == Some(Writer(p))
    {
      stdin := Some(Writer(p));
    }

    /**
     * The handshake. `first` is what decoding one record from `stdout` yields.
     * A bootstrap record is stored, swaps the two output pipes if it names STDERR
     * as the event channel, is posted, and then the diagnostic drain and the event
     * pump are registered, in that order. An EOF or I/O failure instead prints a
     * warning (with a trace unless it was EOF) and registers only the drain of the
     * original `stderr`. A null result, a record of another type, or a throwing
     * post escapes.
     */
    method Start(first: Decoded) returns (outcome: StartOutcome)
      requires eventBus.Valid()
      modifies this`bootstrapPacket, this`stdout, this`stderr, this`pumpers, this`warnings, eventBus
      ensures eventBus.Valid()
      // A bootstrap record was read.
      ensures first.Read? && first.event.Bootstrap? && first.event.record.eventChannel.Some? ==>
        && bootstrapPacket == Some(first.event.record)
        && (first.event.record.eventChannel == Some(STDERR) ==>
              stdout == old(stderr) && stderr == old(stdout))
        && (first.event.record.eventChannel == Some(STDOUT) ==>
              stdout == old(stdout) && stderr == old(stderr))
        && eventBus.posted == old(eventBus.posted) + [EventMessage(first.event)]
        && warnings == old(warnings)
        && (|old(eventBus.posted)| in eventBus.failing ==>
              outcome == Escaped(BusFailure) && pumpers == old(pumpers))
        && (|old(eventBus.posted)| !in eventBus.failing ==>
              outcome == Running
              && pumpers == old(pumpers) + [StderrPumper(stderr), EventPumper(stdout)])
      // A record with a null channel is stored, then the switch on the channel fails.
      ensures first.Read? && first.event.Bootstrap? && first.event.record.eventChannel.None? ==>
        && outcome == Escaped(NullPointer) && bootstrapPacket == Some(first.event.record)
        && stdout == old(stdout) && stderr == old(stderr)
        && pumpers == old(pumpers) && warnings == old(warnings) && unchanged(eventBus)
      // Some other event came first: the cast fails before anything is stored.
      ensures first.Read? && !first.event.Bootstrap? ==>
        outcome == Escaped(ClassCast) && unchanged(this) && unchanged(eventBus)
      // A null record is stored, then dereferenced.
      ensures first.CleanEnd? ==>
        && outcome == Escaped(NullPointer) && bootstrapPacket == None
        && stdout == old(stdout) && stderr == old(stderr)
        && pumpers == old(pumpers) && warnings == old(warnings) && unchanged(eventBus)
      // The handshake failed: degraded, diagnostics only.
      ensures first.Eof? || first.IoFailure? ==>
        && outcome == Degraded
        && bootstrapPacket == old(bootstrapPacket)
        && stdout == old(stdout) && stderr == old(stderr)
        && unchanged(eventBus)
        && warnings == old(warnings) + [HandshakeFailed] + (if first.IoFailure? then [StackTrace] else [])
        && pumpers == old(pumpers) + [StderrPumper(old(stderr))]
    {
      match first {
        case Read(e) =>
          if !e.Bootstrap? {
            return Escaped(ClassCast);
          }
          var bootstrap := e.record;
          bootstrapPacket := Some(bootstrap);
          match bootstrap.eventChannel {
            case None =>
              return Escaped(NullPointer);
            case Some(STDERR) =>
              var tmp := stdout;
              stdout := stderr;
              stderr := tmp;
            case Some(STDOUT) =>
          }
          var threw := eventBus.Post(EventMessage(e));
          if threw {
            return Escaped(BusFailure);
          }
          pumpers := pumpers + [StderrPumper(stderr)];
          pumpers := pumpers + [EventPumper(stdout)];
          outcome := Running;
        case CleanEnd =>
          bootstrapPacket := None;
          outcome := Escaped(NullPointer);
        case Eof =>
          warnings := warnings + [HandshakeFailed];
          pumpers := pumpers + [StderrPumper(stderr)];
          outcome := Degraded;
        case IoFailure =>
          warnings := warnings + [HandshakeFailed];
          warnings := warnings + [StackTrace];
          pumpers := pumpers + [StderrPumper(stderr)];
          outcome := Degraded;
      }
    }

    /** Whether any diagnostic byte has been buffered. */
    function IsErrorStreamNonEmpty(): (nonEmpty: bool)
      reads this
      ensures nonEmpty <==> |stderrBuffered| > 0
    {
      |stderrBuffered| > 0
    }

    /**
     * The buffered diagnostic bytes as text: decoded with the bootstrap record's
     * charset when a record was received and the JVM supports that charset, and
     * with US-ASCII otherwise (in particular before or without a handshake).
     */
    function GetErrorStreamAsString(jvm: Jvm): (text: string)
      reads this
      ensures bootstrapPacket.Some? && bootstrapPacket.value.defaultCharsetName in jvm.supported ==>
        text == jvm.decode(stderrBuffered, bootstrapPacket.value.defaultCharsetName)
      ensures bootstrapPacket.None? || bootstrapPacket.value.defaultCharsetName !in jvm.supported ==>
        text == AsciiDecode(stderrBuffered)
        && |text| == |stderrBuffered|
        && forall i :: 0 <= i < |text| ==> IsAsciiOrReplacement(text[i])
      // A record naming US-ASCII gives the same text as the fallback.
      ensures jvm.WellFormed() && bootstrapPacket.Some? && bootstrapPacket.value.defaultCharsetName == US_ASCII ==>
        text == AsciiDecode(stderrBuffered)
    {
      if bootstrapPacket.Some? && bootstrapPacket.value.defaultCharsetName in jvm.supported then
        jvm.decode(stderrBuffered, bootstrapPacket.value.defaultCharsetName)
      else
        AsciiDecode(stderrBuffered)
    }

    /**
     * The event pump over the decode results of the event pipe. Every decoded event
     * is posted, an IDLE one as an idle signal carrying `stdin`, in decode order;
     * a throwing dispatch prints a warning and the loop goes on; the first clean
     * end, EOF or I/O failure ends it.
     */
    method PumpEvents(results: seq<Decoded>)
      requires eventBus.Valid()
      modifies this`warnings, eventBus
      ensures eventBus.Valid()
      ensures eventBus.posted == old(eventBus.posted) + Posts(EventsBefore(results), stdin)
      ensures warnings == old(warnings) + PumpWarnings(results, |old(eventBus.posted)|, eventBus.failing)
    {
      ghost var es := EventsBefore(results);
      ghost var base := |eventBus.posted|;
      ghost var failing := eventBus.failing;
      var i := 0;
      while i < |results| && results[i].Read?
        invariant i <= |es|
        invariant eventBus.Valid()
        invariant |eventBus.posted| == base + i
        invariant eventBus.posted == old(eventBus.posted) + Posts(es[..i], stdin)
        invariant warnings == old(warnings) + DispatchWarnings(i, base, failing)
      {
        assert i < |es| && es[i] == results[i].event;
        var event := results[i].event;
        ghost var postedBefore, warningsBefore := eventBus.posted, warnings;
        Dispatch(event);
        PostsStep(old(eventBus.posted), es, i, stdin, postedBefore, eventBus.posted);
        WarningsStep(old(warnings), i, base, failing, warningsBefore, warnings);
        i := i + 1;
      }
      assert i == |es| && es[..i] == es;
      PumpWarningsSplit(results, base, failing);
      if i < |results| {
        ReportEnd(results[i]);
      }
    }

    /** Prints what the pump prints when its stream stops with `end`. */
    method ReportEnd(end: Decoded)
      requires !end.Read?
      modifies this`warnings
      ensures warnings == old(warnings) + EndNotice(end)
    {
      match end {
        case Eof =>
          warnings := warnings + [EventStreamEof];
        case IoFailure =>
          warnings := warnings + [EventStreamError, StackTrace];
        case CleanEnd =>
      }
    }

    /**
     * Posts the message for one decoded event. A throwing dispatch is caught here:
     * it prints an error line and a trace, and the caller carries on.
     */
    method Dispatch(event: Event)
      requires eventBus.Valid()
      modifies this`warnings, eventBus
      ensures eventBus.Valid()
      ensures eventBus.posted == old(eventBus.posted) + [Translate(event, stdin)]
      ensures warnings == old(warnings) + DispatchNotice(|old(eventBus.posted)|, eventBus.failing)
    {
      var threw := eventBus.Post(Translate(event, stdin));
      if threw {
        warnings := warnings + [DispatchError, StackTrace];
      }
    }

    /** The diagnostic drain: every chunk read from its pipe is appended to the buffer. */
    method DrainErrorStream(chunks: seq<seq<byte>>)
      modifies this`stderrBuffered
      ensures stderrBuffered == old(stderrBuffered) + Concat(chunks)
    {
      var i := 0;
      while i < |chunks|
        invariant i <= |chunks|
        invariant stderrBuffered == old(stderrBuffered) + Concat(chunks[..i])
      {
        assert chunks[..i + 1][..i] == chunks[..i];
        stderrBuffered := stderrBuffered + chunks[i];
        i := i + 1;
      }
      assert chunks[..i] == chunks;
    }

    /**
     * Waits for every registered task once, in registration order. An interrupted
     * wait (at position `interruptAt`) abandons that task and all later ones.
     */
    method Stop(interruptAt: Option<nat>)
      modifies this`joined
      ensures joined == old(joined) + pumpers[..JoinCount(|pumpers|, interruptAt)]
    {
      var i := 0;
      while i < |pumpers|
        invariant i <= JoinCount(|pumpers|, interruptAt)
        invariant joined == old(joined) + pumpers[..i]
      {
        if interruptAt == Some(i) {
          return;
        }
        assert pumpers[..i + 1] == pumpers[..i] + [pumpers[i]];
        joined := joined + [pumpers[i]];
        i := i + 1;
      }
    }
  }
}
