/** One slot of lookahead over a stream of messages. */
module Buffering {
  import opened Entries
  import opened Protocol

  class MessageBuffer {
    /** What the stream has received and not given out yet. */
    var stream: seq<Message>
    var next: Option<Message>
    var awaiting: bool

    /** Everything that ever arrived, and everything that was ever taken. */
    ghost var arrived: seq<Message>
    ghost var taken: seq<Message>

    ghost function Contents(): seq<Message>
      reads this
    {
      (if next.Some? then [next.value] else []) + stream
    }

    /** Nothing is lost, duplicated or reordered by the lookahead. */
    ghost predicate Valid()
      reads this
    {
      arrived == taken + Contents()
    }

    constructor ()
      ensures Valid() && fresh(this) && Contents() == [] && taken == [] && !awaiting
    {
      stream, next, awaiting := [], None, false;
      arrived, taken := [], [];
    }

    /** A message arrives; when someone waits for it, the wait is over. */
    method Arrive(m: Message)
      requires Valid()
      modifies this
      ensures Valid() && Contents() == old(Contents()) + [m] && taken == old(taken) && !awaiting
    {
      assert arrived + [m] == taken + (Contents() + [m]);
      stream := stream + [m];
      arrived := arrived + [m];
      awaiting := false;
      assert Contents() == old(Contents()) + [m];
    }

    /** The message that canTake saw, or else the next one of the stream. */
    method Take() returns (message: Option<Message>)
      requires Valid()
      modifies this`stream, this`next, this`taken
      ensures Valid() && message == if old(Contents()) == [] then None else Some(old(Contents())[0])
      ensures Contents() == if message == None then [] else old(Contents())[1..]
      ensures taken == old(taken) + if message == None then [] else [message.value]
    {
      ghost var before := Contents();
      if next != None {
        message := next;
        next := None;
      } else {
        message := Read();
      }
      if message.Some? {
        taken := taken + [message.value];
        assert before == [message.value] + Contents();
      } else {
        assert taken + [] == taken;
      }
    }

    /** The stream's own read. */
    method Read() returns (message: Option<Message>)
      modifies this`stream
      ensures message == if old(stream) == [] then None else Some(old(stream)[0])
      ensures stream == if old(stream) == [] then [] else old(stream)[1..]
    {
      if stream == [] {
        return None;
      }
      message := Some(stream[0]);
      stream := stream[1..];
    }

    /** Looks one message ahead, which takes nothing. */
    method CanTake() returns (can: bool)
      requires Valid()
      modifies this`stream, this`next
      ensures Valid() && Contents() == old(Contents()) && can == (Contents() != [])
    {
      if next == None {
        next := Read();
      }
      can := next != None;
      assert Contents() == old(Contents());
    }

    /** Waits for a message, unless there is one; several waits share one promise. */
    method Await() returns (ready: bool)
      requires Valid()
      modifies this`stream, this`next, this`awaiting
      ensures Valid() && Contents() == old(Contents())
      ensures ready == (!old(awaiting) && Contents() != [])
      ensures awaiting == !ready
    {
      if awaiting {
        return false;
      }
      ready := CanTake();
      awaiting := !ready;
    }
  }
}
