/**
 * The agent's conversation log: an append-only list of role/content
 * messages that is handed to the model on every call.
 */
module AgentMemory {

  datatype Message = Message(role: string, content: string)

  class Memory {
    var history: seq<Message>

    /** A new log is empty. */
    constructor()
      ensures history == []
    {
      history := [];
    }

    /** Appends one message at the end; roles are not checked. */
    method AddMessage(role: string, content: string)
      modifies this
      ensures history == old(history) + [Message(role, content)]
      ensures |history| == |old(history)| + 1
      ensures history[..|old(history)|] == old(history)
    {
      history := history + [Message(role, content)];
    }

    /** The log itself, unchanged. */
    method GetHistory() returns (h: seq<Message>)
      ensures h == history
    {
      h := history;
    }
  }

  /** The log produced by issuing the calls `calls` on a new memory, in order. */
  function Replay(calls: seq<(string, string)>): (h: seq<Message>)
    ensures |h| == |calls|
    ensures forall k :: 0 <= k < |calls| ==> h[k] == Message(calls[k].0, calls[k].1)
  {
    seq(|calls|, k requires 0 <= k < |calls| => Message(calls[k].0, calls[k].1))
  }

  /** Issuing one more call extends the replayed log by exactly that message. */
  lemma ReplaySnoc(calls: seq<(string, string)>, role: string, content: string)
    ensures Replay(calls + [(role, content)]) == Replay(calls) + [Message(role, content)]
  {
  }

  /** Issuing calls one after the other on a memory yields the calls in issue order. */
  method ReplayOnFresh(calls: seq<(string, string)>) returns (m: Memory)
    ensures fresh(m)
    ensures m.history == Replay(calls)
  {
    m := new Memory();
    var i := 0;
    while i < |calls|
      invariant 0 <= i <= |calls|
      invariant m.history == Replay(calls[..i])
    {
      assert calls[..i + 1] == calls[..i] + [calls[i]];
      ReplaySnoc(calls[..i], calls[i].0, calls[i].1);
      m.AddMessage(calls[i].0, calls[i].1);
      i := i + 1;
    }
    assert calls[..i] == calls;
  }
}
