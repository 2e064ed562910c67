/**
 * The values that cross the worker's pipes and the event bus: the bootstrap record,
 * decoded events, the outcome of one decode call, and the messages posted.
 */
module Events {
  import opened Charsets

  /** An OS pipe handle of the forked worker, told apart by identity only. */
  datatype Pipe = Pipe(id: nat)

  /** The writer the handler wraps around the worker's input pipe. */
  datatype Writer = Writer(target: Pipe)

  /** Which of the two output pipes carries the event protocol. */
  datatype EventChannel = STDOUT | STDERR

  /**
   * The first record a worker sends: its event channel (`None` when the record
   * carries a null channel) and its default charset name.
   */
  datatype BootstrapEvent = BootstrapEvent(eventChannel: Option<EventChannel>, defaultCharsetName: string)

  /**
   * A decoded event. Only the IDLE type means something to the handler; every other
   * type is an opaque payload, told apart by a type tag.
   */
  datatype Event =
    | Bootstrap(record: BootstrapEvent)
    | Idle
    | Opaque(typeTag: nat, payload: seq<byte>)

  /**
   * What one call of the deserializer yields: an event, `null` (a clean end),
   * an EOFException, or any other IOException.
   */
  datatype Decoded = Read(event: Event) | CleanEnd | Eof | IoFailure

  /** A message posted to the bus: a decoded event as is, or the idle signal. */
  datatype Message =
    | EventMessage(event: Event)
    | SlaveIdle(stdin: Option<Writer>)

  datatype Option<T> = None | Some(value: T)

  /** The kinds of line the handler prints to its warning stream. */
  datatype Warning =
    | HandshakeFailed   // couldn't establish event communication
    | StackTrace        // a failure's stack trace
    | DispatchError     // the bus threw while dispatching one event
    | EventStreamEof    // the event stream ended with an EOFException
    | EventStreamError  // the event stream failed with another IOException

  /**
   * The message the event pump posts for one decoded event: an IDLE event becomes
   * an idle signal carrying the writer to the worker's input, any other event is
   * posted unchanged.
   */
  function Translate(e: Event, stdin: Option<Writer>): (m: Message)
    ensures m.SlaveIdle? <==> e.Idle?
    ensures m.SlaveIdle? ==> m.stdin == stdin
    ensures m.EventMessage? ==> m.event == e
  {
    if e.Idle? then SlaveIdle(stdin) else EventMessage(e)
  }
}
