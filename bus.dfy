/**
 * The publish/subscribe bus the handler posts to. Its subscribers are foreign code,
 * so the model keeps only what the handler can observe: the log of every message it
 * tried to post, in order, and which post attempts (by position in that log) end
 * with the dispatch throwing.
 */
module Bus {
  import opened Events

  class EventBus {
    /** Every message handed to `Post`, in order, whether or not its dispatch threw. */
    ghost var posted: seq<Message>
    /** How many posts have been made so far. */
    var sent: nat
    /** The positions in `posted` whose dispatch throws. */
    const failing: set<nat>

    /** The post counter is the length of the log. */
    ghost predicate Valid()
      reads this
    {
      sent == |posted|
    }

    constructor (failing: set<nat>)
      ensures Valid() && posted == [] && this.failing == failing
    {
      posted, sent := [], 0;
      this.failing := failing;
    }

    /** Hands `m` to the subscribers; `threw` reports that the dispatch raised. */
    method Post(m: Message) returns (threw: bool)
      requires Valid()
      modifies this
      ensures Valid()
      ensures posted == old(posted) + [m]
      ensures threw <==> |old(posted)| in failing
    {
      threw := sent in failing;
      posted, sent := posted + [m], sent + 1;
    }
  }
}
