# LocalSlaveStreamHandler, modelled in Dafny

`LocalSlaveStreamHandler` is the stream handler that the JUnit4 Ant task attaches to
every forked test worker (a "slave"). Ant hands it the worker's three pipes. The
handler then does four things:

- It reads one bootstrap record from the worker's stdout. The record says which output
  pipe carries the event protocol and which charset the worker uses.
- If the record names STDERR, it swaps the two pipes. It then posts the record to the
  event bus.
- It registers two background pumps. The first copies the diagnostic pipe into a byte
  buffer. The second decodes events from the event pipe and posts them to the bus. An
  IDLE event is replaced by a `SlaveIdle` message that carries the writer to the
  worker's stdin.
- When the handshake fails, only the diagnostic drain is registered. `stop` waits for
  every registered pump.

The model is one Dafny module per component:

- `Charsets` (charsets.dfy): bytes and the US-ASCII fallback decoder. The JVM's
  charset services are a value `Jvm`: the set of supported names and a decode function. A
  JVM is well-formed (`Jvm.WellFormed`) when it supports US-ASCII and decodes under that
  name exactly as `AsciiDecode` does; nothing else about its decoder is assumed.
- `Events` (events.dfy): the bootstrap record, decoded events, and the four outcomes of
  one decode call: an event, `null`, `EOFException` or another `IOException`. It also
  holds bus messages, warning kinds and `Translate`, the IDLE-to-`SlaveIdle` rule.
- `Bus` (bus.dfy): the event bus. It keeps a ghost log of every message handed to
  `post`, a counter of posts, and the set of log positions whose dispatch throws.
- `Pump` (pump.dfy): functions giving what the event pump posts and prints for a run of
  decode results, and lemmas about them.
- `StreamHandler` (stream_handler.dfy): the class with the Java fields. `Start`,
  `PumpEvents`, `DrainErrorStream` and `Stop` change those fields in place.
  `IsErrorStreamNonEmpty` and `GetErrorStreamAsString` are pure queries.
- `Scenarios` (scenarios.dfy): four verified clients.
  - In the first, the worker declares STDERR.
  - In the second, one subscriber throws.
  - In the third, the first decode call fails with `EOFException`.
  - In the fourth, the bootstrap record carries a null event channel.

Threads are replaced by the explicit list `pumpers`. Running a pump is modelled by
calling `PumpEvents` or `DrainErrorStream` with what its pipe yields. What the handler
prints to the warning stream and which tasks it has waited for are kept as the ghost
records `warnings` and `joined`.

Three behaviours of the code are easy to misread; the model follows the code:

- **No bootstrap frame.** What a worker that closes stdout before sending any frame
  produces depends on the deserializer, which the model leaves abstract. If the first
  decode call throws `EOFException` (or another `IOException`), `Start` returns
  `Degraded` and only the diagnostic drain is registered. If it returns `null`
  (LocalSlaveStreamHandler.java:62-65), the `null` is stored in `bootstrapPacket` and
  then dereferenced. The resulting `NullPointerException` is not an `IOException`, so
  it leaves `start` with nothing registered; `Start` returns `Escaped(NullPointer)`.
- **Interrupted stop.** One might expect `stop` to wait for every task. In the code
  (lines 157-163), an interrupted `join` abandons the remaining joins. `Stop` models
  this with the `interruptAt` parameter.
- **Uncaught exceptions in `start`.** Only `IOException` is caught. Three more cases
  leave `start` with nothing registered:
  - a first event that is not a bootstrap record (`ClassCastException`);
  - a bootstrap record whose event channel is null: it is stored (line 63), then the
    `switch` at line 65 throws a `NullPointerException`, so nothing is swapped or
    posted, but a later `getErrorStreamAsString` uses the stored record's charset;
  - a throwing `post` of the record.

## Model

| member | source | states |
|---|---|---|
| `Charsets.AsciiChar` | junit4-ant/src/main/java/com/carrotsearch/ant/tasks/junit4/LocalSlaveStreamHandler.java:124 | The US-ASCII decoder keeps a 7-bit byte as the same code point and replaces any other byte with U+FFFD |
| `Charsets.AsciiDecode` | junit4-ant/src/main/java/com/carrotsearch/ant/tasks/junit4/LocalSlaveStreamHandler.java:124 | The fallback decoding yields exactly one character per buffered byte, character i is byte i decoded alone, and every character is 7-bit or the replacement, so a string is produced for any buffer |
| `Charsets.AsciiDecodeAppend` | junit4-ant/src/main/java/com/carrotsearch/ant/tasks/junit4/LocalSlaveStreamHandler.java:116-125 | Decoding a buffer that has grown by some bytes gives the old text followed by the decoding of the new bytes |
| `Events.Translate` | junit4-ant/src/main/java/com/carrotsearch/ant/tasks/junit4/LocalSlaveStreamHandler.java:136-140 | An event becomes an idle signal exactly when its type is IDLE, and that signal carries the handler's stdin writer; every other event is posted as it was decoded |
| `Bus.EventBus.Post` | junit4-ant/src/main/java/com/carrotsearch/ant/tasks/junit4/LocalSlaveStreamHandler.java:139 | A post appends the message to the bus log whether or not the dispatch throws, and it throws exactly at the failing log positions |
| `Pump.EventsBefore` | junit4-ant/src/main/java/com/carrotsearch/ant/tasks/junit4/LocalSlaveStreamHandler.java:134 | The pump consumes the longest run of decoded events: event i is the i-th decode result, and the result right after the run (if any) is a clean end, EOF or I/O failure |
| `Pump.Posts` | junit4-ant/src/main/java/com/carrotsearch/ant/tasks/junit4/LocalSlaveStreamHandler.java:134-140 | The pump posts exactly one message per decoded event |
| `Pump.DispatchNotice` | junit4-ant/src/main/java/com/carrotsearch/ant/tasks/junit4/LocalSlaveStreamHandler.java:141-143 | A post prints nothing exactly when its dispatch does not throw, and prints a stack trace exactly when it throws |
| `Pump.EndNotice` | junit4-ant/src/main/java/com/carrotsearch/ant/tasks/junit4/LocalSlaveStreamHandler.java:146-152 | A stop prints nothing exactly on a clean end, and prints a stack trace exactly on an I/O failure other than EOF |
| `Pump.PostsAt` | junit4-ant/src/main/java/com/carrotsearch/ant/tasks/junit4/LocalSlaveStreamHandler.java:134-140 | Message i posted by the pump is the translation of event i, so decode order is kept |
| `Pump.PostsAppend` | junit4-ant/src/main/java/com/carrotsearch/ant/tasks/junit4/LocalSlaveStreamHandler.java:134-140 | Posting two runs of events one after the other gives the posts of the joined run |
| `Pump.PassThrough` | junit4-ant/src/main/java/com/carrotsearch/ant/tasks/junit4/LocalSlaveStreamHandler.java:138-140 | N non-idle events reach the bus as exactly N messages carrying those events, unmodified and in order |
| `Pump.IdleReplaced` | junit4-ant/src/main/java/com/carrotsearch/ant/tasks/junit4/LocalSlaveStreamHandler.java:136-137 | An IDLE event is never posted verbatim; at its position stands exactly one idle signal with the stdin writer, and an idle signal stands only where an IDLE event was decoded |
| `Pump.NothingAfterEnd` | junit4-ant/src/main/java/com/carrotsearch/ant/tasks/junit4/LocalSlaveStreamHandler.java:134-152 | Once a clean end, EOF or I/O failure is decoded, nothing after it is read: the posted events and the closing warnings are the same whatever follows |
| `Pump.DispatchWarningsCount` | junit4-ant/src/main/java/com/carrotsearch/ant/tasks/junit4/LocalSlaveStreamHandler.java:141-144 | Each throwing dispatch prints exactly two lines (message and trace) and a successful one prints nothing |
| `StreamHandler.Concat` | junit4-ant/src/main/java/com/carrotsearch/ant/tasks/junit4/LocalSlaveStreamHandler.java:78 | The drained bytes are empty exactly when every chunk read was empty |
| `StreamHandler.JoinCount` | junit4-ant/src/main/java/com/carrotsearch/ant/tasks/junit4/LocalSlaveStreamHandler.java:157-163 | Without an interrupt every task is joined; an interrupt at position k within the list leaves exactly k joins done |
| `StreamHandler.LocalSlaveStreamHandler.constructor` | junit4-ant/src/main/java/com/carrotsearch/ant/tasks/junit4/LocalSlaveStreamHandler.java:29-36 | A new handler has no bootstrap record, no pipes, an empty buffer and no pumpers |
| `StreamHandler.LocalSlaveStreamHandler.SetProcessErrorStream` | junit4-ant/src/main/java/com/carrotsearch/ant/tasks/junit4/LocalSlaveStreamHandler.java:38-41 | Records the worker's stderr pipe and touches nothing else |
| `StreamHandler.LocalSlaveStreamHandler.SetProcessOutputStream` | junit4-ant/src/main/java/com/carrotsearch/ant/tasks/junit4/LocalSlaveStreamHandler.java:43-46 | Records the worker's stdout pipe and touches nothing else |
| `StreamHandler.LocalSlaveStreamHandler.SetProcessInputStream` | junit4-ant/src/main/java/com/carrotsearch/ant/tasks/junit4/LocalSlaveStreamHandler.java:48-52 | Wraps the worker's stdin pipe in a writer and touches nothing else |
| `StreamHandler.LocalSlaveStreamHandler.Start` | junit4-ant/src/main/java/com/carrotsearch/ant/tasks/junit4/LocalSlaveStreamHandler.java:54-90 | On a bootstrap record: the record is stored; stdout and stderr are exchanged exactly when it names STDERR and are otherwise unchanged; the record is posted once; then, unless that post throws, exactly the drain of the (new) stderr followed by the pump of the (new) stdout are appended, with no warning. On EOF or another I/O failure: degraded, no record stored, no swap, nothing posted, one warning (plus a trace unless EOF), and exactly the drain of the original stderr appended. A record with a null channel is stored and escapes before any swap or post. A null result, a non-bootstrap event or a throwing post escapes with nothing registered |
| `StreamHandler.LocalSlaveStreamHandler.IsErrorStreamNonEmpty` | junit4-ant/src/main/java/com/carrotsearch/ant/tasks/junit4/LocalSlaveStreamHandler.java:109-111 | True exactly when at least one diagnostic byte is buffered |
| `StreamHandler.LocalSlaveStreamHandler.GetErrorStreamAsString` | junit4-ant/src/main/java/com/carrotsearch/ant/tasks/junit4/LocalSlaveStreamHandler.java:116-125 | Decodes with the bootstrap record's charset when a record was received and the JVM supports its charset; otherwise (including before any handshake) decodes with US-ASCII, one 7-bit-or-replacement character per byte. For a well-formed JVM, a record naming US-ASCII gives the same text as the fallback |
| `StreamHandler.LocalSlaveStreamHandler.PumpEvents` | junit4-ant/src/main/java/com/carrotsearch/ant/tasks/junit4/LocalSlaveStreamHandler.java:130-153 | The bus log grows by exactly the translated events decoded before the first clean end, EOF or I/O failure, in decode order. It grows the same way whichever dispatches throw. The warning stream grows by two lines per throwing dispatch and then the end-of-stream lines |
| `StreamHandler.LocalSlaveStreamHandler.Dispatch` | junit4-ant/src/main/java/com/carrotsearch/ant/tasks/junit4/LocalSlaveStreamHandler.java:135-144 | One decoded event adds exactly its translation to the bus log; a throwing dispatch adds an error line and a trace to the warnings and does not escape |
| `StreamHandler.LocalSlaveStreamHandler.ReportEnd` | junit4-ant/src/main/java/com/carrotsearch/ant/tasks/junit4/LocalSlaveStreamHandler.java:146-152 | When the event stream stops, the warnings grow by exactly the notice for how it stopped |
| `StreamHandler.LocalSlaveStreamHandler.DrainErrorStream` | junit4-ant/src/main/java/com/carrotsearch/ant/tasks/junit4/LocalSlaveStreamHandler.java:78 | The diagnostic buffer only grows, by the bytes read in the order read |
| `StreamHandler.LocalSlaveStreamHandler.Stop` | junit4-ant/src/main/java/com/carrotsearch/ant/tasks/junit4/LocalSlaveStreamHandler.java:155-164 | Waits for each registered task exactly once, in registration order; an interrupt at position k stops after the first k |

## Left out

- Threads (lines 92-103): thread creation, `setDaemon`, the uncaught-exception handler and starting every thread are not modelled. The registered tasks are data, and running one is a call to `PumpEvents` or `DrainErrorStream`. A second `start` would restart earlier threads (an `IllegalThreadStateException`); that is not modelled.
- Concurrency: the drain and the event pump are independent, so they are modelled as calls in sequence. Reading the buffer while the drain is still writing it is not modelled.
- The `Deserializer` binary framing and class loading: each decode call is given as a `Decoded` value. An `IOException` from creating the deserializer is folded into the first result. With the STDOUT channel, the results given to `PumpEvents` are the ones that follow the bootstrap record on the same pipe.
- Pipe contents: `PumpEvents` and `DrainErrorStream` take what their task's pipe yields as a parameter. The model does not tie that input to the pipe named in the task.
- Ant's `StreamPumper` byte copying: modelled as appending each chunk read. Its silent stop on an I/O error is simply the end of the chunk sequence.
- The Guava event bus and its subscribers: modelled as a log of posted messages plus the set of log positions whose dispatch throws.
- The text of warning messages: only their kinds are kept, as `Warning` tags.
- The class loader and the `PrintStream` given to the Java constructor: not part of the state the model needs.
- StreamHandler.LocalSlaveStreamHandler.GetErrorStreamAsString: does not model a null charset name in the bootstrap record. Such a name raises a `NullPointerException` that the method does not catch. An illegal or unknown name is reported as `UnsupportedEncodingException`, which the method catches (line 121) before falling back to US-ASCII; the model covers it as an unsupported name.
- StreamHandler.LocalSlaveStreamHandler.SetProcessInputStream: the writer's charset (the JVM default) is not recorded, because nothing in the handler reads it.
