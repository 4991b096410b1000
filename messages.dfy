/*
 * The message queue of Dungeon_Crawler/io.cpp: a singly linked list with
 * head and tail pointers, filled at the tail by io_queue_message and
 * drained from the head by io_print_message_queue.  The list is modelled
 * by the sequence of its messages, head first; an empty sequence stands
 * for io_head == io_tail == NULL.
 */
module Messages {

  /** Characters a message keeps: its buffer holds 71 bytes, one for the terminator. */
  const MessageLength: int := 70

  /**
   * What vsnprintf leaves in the 71-byte buffer: the formatted text, cut
   * after its first 70 characters.
   */
  function Truncate(m: string): (r: string)
    ensures |r| <= MessageLength && |r| <= |m|
    ensures r == m[..|r|]
    ensures |m| <= MessageLength ==> r == m
    ensures |m| > MessageLength ==> |r| == MessageLength
  {
    if |m| <= MessageLength then m else m[..MessageLength]
  }

  /** Truncating twice is truncating once. */
  lemma TruncateIdempotent(m: string)
    ensures Truncate(Truncate(m)) == Truncate(m)
  {
  }

  class MessageQueue {
    /** The queued messages, io_head's first. */
    var msgs: seq<string>

    /** Every message fits its buffer. */
    ghost predicate Valid()
      reads this
    {
      forall i :: 0 <= i < |msgs| ==> |msgs[i]| <= MessageLength
    }

    /** The queue starts empty. */
    constructor ()
      ensures msgs == [] && Valid()
    {
      msgs := [];
    }

    /**
     * io_queue_message: a new node holding the truncated message becomes
     * the tail (and the head too when the queue was empty).
     */
    method Enqueue(m: string)
      requires Valid()
      modifies this
      ensures msgs == old(msgs) + [Truncate(m)]
      ensures Valid()
    {
      msgs := msgs + [Truncate(m)];
    }

    /**
     * io_print_message_queue: the messages are shown from the head on,
     * each one followed by a " --more-- " prompt when another follows,
     * until the queue is empty.  `shown` lists them in the order shown;
     * `prompts` counts the prompts.
     */
    method Drain() returns (shown: seq<string>, prompts: nat)
      requires Valid()
      modifies this
      ensures shown == old(msgs)
      ensures prompts == if shown == [] then 0 else |shown| - 1
      ensures msgs == [] && Valid()
    {
      shown, prompts := [], 0;
      while msgs != []
        invariant shown + msgs == old(msgs)
        invariant shown == [] ==> prompts == 0
        invariant shown != [] ==> prompts == |shown| - (if msgs == [] then 1 else 0)
        decreases |msgs|
      {
        shown := shown + [msgs[0]];
        msgs := msgs[1..];
        if msgs != [] {
          prompts := prompts + 1;
        }
      }
    }

    /** io_reset_terminal: every node is freed and the queue is left empty. */
    method Clear()
      modifies this
      ensures msgs == [] && Valid()
    {
      while msgs != []
        decreases |msgs|
      {
        msgs := msgs[1..];
      }
    }
  }
}
