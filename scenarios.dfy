/**
 * Clients of the handler that follow a worker through its life, using only the
 * contracts above: a worker that declares STDERR as its event channel, an event
 * stream with a failing subscriber, and a worker that dies before the handshake.
 */
module Scenarios {
  import opened Charsets
  import opened Events
  import opened Bus
  import opened Pump
  import opened StreamHandler

  /**
   * The worker declares STDERR: events then come from the original stderr pipe and
   * diagnostics from the original stdout pipe, and `Stop` waits for both pumps.
   */
  method StderrChannel() {
    var bus := new EventBus({});
    var handler := new LocalSlaveStreamHandler(bus);
    handler.SetProcessOutputStream(Pipe(1));
    handler.SetProcessErrorStream(Pipe(2));

    var record := BootstrapEvent(Some(STDERR), "UTF-8");
    var outcome := handler.Start(Read(Bootstrap(record)));
    assert outcome == Running;
    assert handler.pumpers == [StderrPumper(Some(Pipe(1))), EventPumper(Some(Pipe(2)))];
    assert handler.bootstrapPacket == Some(record);
    assert bus.posted == [EventMessage(Bootstrap(record))];

    handler.Stop(None);
    assert handler.joined == handler.pumpers;
  }

  /**
   * The subscriber throws on the first event; the later events are still posted,
   * the IDLE one as an idle signal, and nothing after the EOF is read.
   */
  method FailingSubscriber() {
    var bus := new EventBus({0});
    var handler := new LocalSlaveStreamHandler(bus);
    handler.SetProcessInputStream(Pipe(3));

    var e1, e2 := Opaque(7, []), Opaque(8, [65]);
    var results := [Read(e1), Read(Idle), Read(e2), Eof, Read(Opaque(9, []))];
    assert !results[3].Read? && results[2].Read? && results[1].Read? && results[0].Read?;
    assert EventsBefore(results) == [e1, Idle, e2];
    var writer := Some(Writer(Pipe(3)));
    PostsAt([e1, Idle, e2], writer, 0);
    PostsAt([e1, Idle, e2], writer, 1);
    PostsAt([e1, Idle, e2], writer, 2);
    assert Posts([e1, Idle, e2], writer)
      == [EventMessage(e1), SlaveIdle(writer), EventMessage(e2)];
    assert DispatchWarnings(1, 0, {0}) == [DispatchError, StackTrace];
    assert DispatchWarnings(2, 0, {0}) == [DispatchError, StackTrace];
    assert DispatchWarnings(3, 0, {0}) == [DispatchError, StackTrace];
    assert EndWarnings(results) == [EventStreamEof];

    handler.PumpEvents(results);
    assert bus.posted == [EventMessage(e1), SlaveIdle(writer), EventMessage(e2)];
    assert handler.warnings == [DispatchError, StackTrace, EventStreamEof];
  }

  /**
   * The first decode call fails with EOFException: only the drain of the original
   * stderr is registered, nothing is posted, and the diagnostics are still readable
   * with the US-ASCII fallback.
   */
  method CrashBeforeHandshake(jvm: Jvm) {
    var bus := new EventBus({});
    var handler := new LocalSlaveStreamHandler(bus);
    handler.SetProcessOutputStream(Pipe(1));
    handler.SetProcessErrorStream(Pipe(2));
    assert !handler.IsErrorStreamNonEmpty();

    var outcome := handler.Start(Eof);
    assert outcome == Degraded;
    assert handler.pumpers == [StderrPumper(Some(Pipe(2)))];
    assert bus.posted == [];
    assert handler.warnings == [HandshakeFailed];

    handler.DrainErrorStream([[79], [75]]);
    assert Concat([[79], [75]]) == [79, 75];
    assert handler.IsErrorStreamNonEmpty();
    assert handler.GetErrorStreamAsString(jvm) == "OK";

    handler.Stop(None);
    assert handler.joined == [StderrPumper(Some(Pipe(2)))];
  }

  /**
   * The bootstrap record carries a null event channel: the record is stored, the
   * switch on its channel fails, nothing is posted or registered, and the record's
   * charset is still used to render the diagnostics.
   */
  method NullChannel() {
    var bus := new EventBus({});
    var handler := new LocalSlaveStreamHandler(bus);
    handler.SetProcessOutputStream(Pipe(1));
    handler.SetProcessErrorStream(Pipe(2));

    var record := BootstrapEvent(None, US_ASCII);
    var outcome := handler.Start(Read(Bootstrap(record)));
    assert outcome == Escaped(NullPointer);
    assert handler.bootstrapPacket == Some(record);
    assert handler.pumpers == [] && bus.posted == [];

    var jvm := Jvm({US_ASCII}, (bytes, name) => AsciiDecode(bytes));
    assert jvm.WellFormed();
    handler.DrainErrorStream([[72, 200]]);
    assert Concat([[72, 200]]) == [72, 200];
    assert handler.GetErrorStreamAsString(jvm) == ['H', REPLACEMENT];
  }
}
