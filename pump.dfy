/**
 * What the event pump does with a run of decode results, as functions: which events
 * it posts, which messages those become, and what it writes to the warning stream.
 * `StreamHandler.LocalSlaveStreamHandler.PumpEvents` is proved against these.
 */
module Pump {
  import opened Events

  /**
   * The events the pump decodes before it stops: the longest prefix of `results`
   * made of decoded events. The first clean end, EOF or I/O failure stops it; if
   * there is none, every result is an event.
   */
  function EventsBefore(results: seq<Decoded>): (es: seq<Event>)
    ensures |es| <= |results|
    ensures forall i :: 0 <= i < |es| ==> results[i] == Read(es[i])
    ensures |es| < |results| ==> !results[|es|].Read?
  {
    if results == [] || !results[0].Read? then []
    else [results[0].event] + EventsBefore(results[1..])
  }

  /** The messages posted for `es`, one per event, in order. */
  function Posts(es: seq<Event>, stdin: Option<Writer>): (ms: seq<Message>)
    ensures |ms| == |es|
  {
    if es == [] then [] else [Translate(es[0], stdin)] + Posts(es[1..], stdin)
  }

  /**
   * What the pump prints for `n` posts whose first lands at position `base` of the
   * bus log: an error line and a stack trace for each post whose dispatch throws.
   */
  function DispatchWarnings(n: nat, base: nat, failing: set<nat>): seq<Warning>
  {
    if n == 0 then []
    else DispatchWarnings(n - 1, base, failing) + DispatchNotice(base + n - 1, failing)
  }

  /** What the pump prints for the post at position `k` of the bus log. */
  function DispatchNotice(k: nat, failing: set<nat>): (w: seq<Warning>)
    ensures w == [] <==> k !in failing
    ensures StackTrace in w <==> k in failing
  {
    if k in failing then [DispatchError, StackTrace] else []
  }

  /**
   * What the pump prints when its stream stops with `end`: nothing on a clean end,
   * a short notice on EOF, a notice and a trace on any other I/O failure.
   */
  function EndNotice(end: Decoded): (w: seq<Warning>)
    requires !end.Read?
    ensures w == [] <==> end.CleanEnd?
    ensures StackTrace in w <==> end.IoFailure?
  {
    match end
    case Eof => [EventStreamEof]
    case IoFailure => [EventStreamError, StackTrace]
    case CleanEnd => []
  }

  /** What the pump prints when its stream stops; nothing while it is still open. */
  function EndWarnings(results: seq<Decoded>): seq<Warning>
  {
    var n := |EventsBefore(results)|;
    if n == |results| then [] else EndNotice(results[n])
  }

  /** Everything the pump prints for one run over `results`. */
  function PumpWarnings(results: seq<Decoded>, base: nat, failing: set<nat>): seq<Warning>
  {
    DispatchWarnings(|EventsBefore(results)|, base, failing) + EndWarnings(results)
  }

  /** The positions in `[base, base + n)` whose dispatch throws. */
  function FailedPosts(n: nat, base: nat, failing: set<nat>): set<nat>
  {
    set k | k in failing && base <= k < base + n
  }

  /** One more dispatched event extends the bus log by its translation. */
  lemma PostsStep(start: seq<Message>, es: seq<Event>, n: nat, stdin: Option<Writer>,
                  before: seq<Message>, after: seq<Message>)
    requires n < |es|
    requires before == start + Posts(es[..n], stdin)
    requires after == before + [Translate(es[n], stdin)]
    ensures after == start + Posts(es[..n + 1], stdin)
  {
    assert es[..n + 1] == es[..n] + [es[n]];
    PostsAppend(es[..n], [es[n]], stdin);
  }

  /** One more dispatched event extends the warnings by its notice. */
  lemma WarningsStep(start: seq<Warning>, n: nat, base: nat, failing: set<nat>,
                     before: seq<Warning>, after: seq<Warning>)
    requires before == start + DispatchWarnings(n, base, failing)
    requires after == before + DispatchNotice(base + n, failing)
    ensures after == start + DispatchWarnings(n + 1, base, failing)
  {
  }

  /** The pump's warnings: the dispatch notices, then the notice for how it stopped. */
  lemma PumpWarningsSplit(results: seq<Decoded>, base: nat, failing: set<nat>)
    ensures var n := |EventsBefore(results)|;
      PumpWarnings(results, base, failing) == DispatchWarnings(n, base, failing)
        + (if n < |results| then EndNotice(results[n]) else [])
  {
  }

  /** Message i of the posts is the translation of event i. */
  lemma {:induction false} PostsAt(es: seq<Event>, stdin: Option<Writer>, i: nat)
    requires i < |es|
    ensures Posts(es, stdin)[i] == Translate(es[i], stdin)
  {
    if i > 0 {
      PostsAt(es[1..], stdin, i - 1);
    }
  }

  /** Posting a run of events in two parts posts the same messages as one run. */
  lemma {:induction false} PostsAppend(a: seq<Event>, b: seq<Event>, stdin: Option<Writer>)
    ensures Posts(a + b, stdin) == Posts(a, stdin) + Posts(b, stdin)
  {
    if a == [] {
      assert a + b == b;
    } else {
      assert (a + b)[1..] == a[1..] + b;
      PostsAppend(a[1..], b, stdin);
    }
  }

  /**
   * Non-idle events reach the bus unmodified and in decode order: N such events
   * give exactly the N messages carrying them.
   */
  lemma {:induction false} PassThrough(es: seq<Event>, stdin: Option<Writer>)
    requires forall i :: 0 <= i < |es| ==> !es[i].Idle?
    ensures |Posts(es, stdin)| == |es|
    ensures forall i :: 0 <= i < |es| ==> Posts(es, stdin)[i] == EventMessage(es[i])
  {
    forall i | 0 <= i < |es| ensures Posts(es, stdin)[i] == EventMessage(es[i]) {
      PostsAt(es, stdin, i);
    }
  }

  /**
   * An IDLE event is never posted as it is: in its place goes exactly one idle
   * signal carrying the writer, and an idle signal stands for nothing but an IDLE event.
   */
  lemma {:induction false} IdleReplaced(es: seq<Event>, stdin: Option<Writer>)
    ensures forall i :: 0 <= i < |es| ==>
      (es[i].Idle? <==> Posts(es, stdin)[i] == SlaveIdle(stdin))
    ensures forall i :: 0 <= i < |es| ==> Posts(es, stdin)[i] != EventMessage(Idle)
  {
    forall i | 0 <= i < |es|
      ensures (es[i].Idle? <==> Posts(es, stdin)[i] == SlaveIdle(stdin))
      ensures Posts(es, stdin)[i] != EventMessage(Idle)
    {
      PostsAt(es, stdin, i);
    }
  }

  /**
   * Decode results after the first clean end, EOF or I/O failure are never read:
   * whatever follows position k, the pump posts and prints the same.
   */
  lemma {:induction false} NothingAfterEnd(results: seq<Decoded>, k: nat, tail: seq<Decoded>)
    requires k < |results| && !results[k].Read?
    ensures EventsBefore(results[..k + 1] + tail) == EventsBefore(results[..k + 1])
    ensures EndWarnings(results[..k + 1] + tail) == EndWarnings(results[..k + 1])
  {
    var pre := results[..k + 1];
    if pre[0].Read? {
      assert (pre + tail)[1..] == pre[1..] + tail;
      assert pre[1..] == results[1..][..k];
      NothingAfterEnd(results[1..], k - 1, tail);
    }
  }

  /** A failed dispatch prints exactly two lines, and a successful one none. */
  lemma {:induction false} DispatchWarningsCount(n: nat, base: nat, failing: set<nat>)
    ensures |DispatchWarnings(n, base, failing)| == 2 * |FailedPosts(n, base, failing)|
  {
    if n == 0 {
      assert FailedPosts(n, base, failing) == {};
    } else {
      DispatchWarningsCount(n - 1, base, failing);
      var last := base + n - 1;
      var before := FailedPosts(n - 1, base, failing);
      assert last !in before;
      if last in failing {
        assert FailedPosts(n, base, failing) == before + {last};
        assert |before + {last}| == |before| + 1;
      } else {
        assert FailedPosts(n, base, failing) == before;
      }
    }
  }
}
