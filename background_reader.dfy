/**
 * `src/input/background_reader.rs`: a line reader that a consumer can poll
 * without blocking. A producer thread reads lines and sends them into a
 * channel, stopping after the first error; `lines()` takes whatever the
 * channel holds. The channel is modelled as a queue held by the reader and
 * the two threads as interleaved method calls on it.
 */
module BackgroundReader {
  import opened Wrappers
  import opened Lines

  /** Every item but the last is a line. */
  predicate ErrorOnlyLast(items: seq<Item>) {
    forall k :: 0 <= k < |items| - 1 ==> items[k].Ok?
  }

  /** What the producer thread sends for a stream: every item up to and including the first error. */
  function Forwarded(source: seq<Item>): seq<Item> {
    match FirstErr(source)
    case None => source
    case Some(i) => source[..i + 1]
  }

  /**
   * The producer forwards a prefix of its stream in read order. It holds at
   * most one error, as its last item, and it ends in an error exactly when
   * the stream holds one; without an error it forwards the whole stream.
   */
  lemma ForwardedStopsAtError(source: seq<Item>)
    ensures var f := Forwarded(source);
      && f == source[..|f|]
      && ErrorOnlyLast(f)
      && (f != [] && f[|f| - 1].Err? <==> !AllOk(source))
      && (AllOk(source) ==> f == source)
  {
    var f := Forwarded(source);
    if !AllOk(source) {
      var i := FirstErr(source).value;
      assert forall k :: 0 <= k < i ==> f[k] == source[..i][k];
    }
  }

  /** Forwarding after `i` lines: the next item is sent, and it ends the forwarding if it is an error or the stream has ended. */
  lemma ForwardedStep(source: seq<Item>, i: nat)
    requires i <= |source| && AllOk(source[..i])
    ensures i < |source| ==> source[..i + 1] == source[..i] + [source[i]]
    ensures i < |source| && source[i].Err? ==> Forwarded(source) == source[..i + 1]
    ensures i < |source| && source[i].Ok? ==> AllOk(source[..i + 1])
    ensures i == |source| ==> Forwarded(source) == source[..i]
  {
    if i < |source| {
      assert source[..i + 1] == source[..i] + [source[i]];
      if source[i].Err? {
        FirstErrAt(source, i);
      }
    } else {
      assert source[..i] == source;
    }
  }

  /**
   * One call of `lines()` on channel contents `q`: the result and what
   * stays queued. Lines are taken up to the first error; an error is
   * returned in place of the lines taken before it, and the items after it
   * stay queued. Without an error every line is returned and nothing stays.
   */
  function Drain(q: seq<Item>): (Result<seq<string>, IoError>, seq<Item>) {
    match FirstErr(q)
    case None => (Ok(Values(q)), [])
    case Some(i) => (Err(q[i].error), q[i + 1..])
  }

  /** On a queue the producer filled, a call to `lines()` always leaves it empty. */
  lemma DrainEmptiesProducedQueue(q: seq<Item>)
    requires ErrorOnlyLast(q)
    ensures Drain(q).1 == []
    ensures Drain(q).0.Err? <==> q != [] && q[|q| - 1].Err?
  {
    if !AllOk(q) {
      var i := FirstErr(q).value;
      assert i == |q| - 1;
    } else if q != [] {
      assert q[|q| - 1].Ok?;
    }
  }

  /** The items not yet received once more items were sent after the first `received`. */
  lemma UnreceivedAfterSend(before: seq<Item>, more: seq<Item>, received: nat)
    requires received <= |before|
    ensures (before + more)[received..] == before[received..] + more
  {
  }

  /** Sending the next item of the stream after the first `i`. */
  lemma SentOneMore(before: seq<Item>, source: seq<Item>, i: nat)
    requires i < |source|
    ensures before + source[..i] + [source[i]] == before + source[..i + 1]
  {
    assert source[..i + 1] == source[..i] + [source[i]];
  }

  class LineReader {
    /** The channel: items sent and not yet received, oldest first. */
    var queue: seq<Item>
    /** The producer thread has returned, so nothing more is ever sent. */
    var producerDone: bool
    /** Every item the producer has sent, and how many of them were received. */
    ghost var sent: seq<Item>
    ghost var received: nat

    ghost predicate Valid()
      reads this
    {
      && received <= |sent|
      && queue == sent[received..]
      && ErrorOnlyLast(sent)
      && (sent != [] && sent[|sent| - 1].Err? ==> producerDone)
    }

    /** `BackgroundLineReader::new`: an empty channel and a running producer. */
    constructor ()
      ensures Valid()
      ensures queue == [] && !producerDone && sent == [] && received == 0
    {
      queue := [];
      producerDone := false;
      sent := [];
      received := 0;
    }

    /** One turn of the producer's loop: send the item read, and return if it was an error. */
    method Send(item: Item)
      requires Valid() && !producerDone
      modifies this
      ensures Valid()
      ensures queue == old(queue) + [item] && sent == old(sent) + [item] && received == old(received)
      ensures producerDone == item.Err?
    {
      queue := queue + [item];
      sent := sent + [item];
      producerDone := item.Err?;
    }

    /** The stream ended without an error: the producer's loop ends and the channel disconnects. */
    method Finish()
      requires Valid() && !producerDone
      modifies this
      ensures Valid() && producerDone
      ensures queue == old(queue) && sent == old(sent) && received == old(received)
    {
      producerDone := true;
    }

    /**
     * The producer thread run over a whole stream: it sends the items in
     * read order and returns right after sending an error.
     */
    method Produce(source: seq<Item>)
      requires Valid() && !producerDone
      modifies this
      ensures Valid() && producerDone
      ensures queue == old(queue) + Forwarded(source)
      ensures sent == old(sent) + Forwarded(source) && received == old(received)
    {
      ghost var s0 := sent;
      var i := 0;
      while i < |source|
        invariant i <= |source| && AllOk(source[..i])
        invariant Valid() && !producerDone && received == old(received)
        invariant sent == s0 + source[..i]
      {
        var item := source[i];
        ForwardedStep(source, i);
        Send(item);
        SentOneMore(s0, source, i);
        assert sent == s0 + source[..i + 1];
        if item.Err? {
          assert sent == s0 + Forwarded(source);
          UnreceivedAfterSend(s0, Forwarded(source), received);
          return;
        }
        i := i + 1;
      }
      ForwardedStep(source, i);
      assert sent == s0 + Forwarded(source);
      UnreceivedAfterSend(s0, Forwarded(source), received);
      Finish();
    }

    /**
     * `lines()`: takes items off the channel until it is empty or an error
     * is taken. It returns the lines taken, in the order they were sent, or
     * the error, in which case the lines taken before it are dropped.
     */
    method Lines() returns (r: Result<seq<string>, IoError>)
      requires Valid()
      modifies this
      ensures Valid()
      ensures (r, queue) == Drain(old(queue))
      ensures sent == old(sent) && producerDone == old(producerDone)
      ensures queue == []
      ensures r.Err? ==> producerDone
      ensures old(queue) == [] ==> r == Ok([])
    {
      ghost var q := queue;
      var lines: seq<string> := [];
      var n := 0;
      while queue != []
        invariant n <= |q| && queue == q[n..] && received == old(received) + n
        invariant sent == old(sent) && producerDone == old(producerDone)
        invariant AllOk(q[..n]) && lines == Values(q[..n])
        decreases |queue|
      {
        var item := queue[0];
        queue := queue[1..];
        received := received + 1;
        assert item == q[n];
        if item.Err? {
          FirstErrAt(q, n);
          DrainEmptiesProducedQueue(q);
          return Err(item.error);
        }
        lines := lines + [item.value];
        assert q[..n + 1] == q[..n] + [item];
        n := n + 1;
      }
      assert q[..n] == q;
      return Ok(lines);
    }
  }

  /** Two polls with nothing sent between them: the second one returns no lines. */
  method PollTwice(reader: LineReader) returns (first: Result<seq<string>, IoError>, second: Result<seq<string>, IoError>)
    requires reader.Valid()
    modifies reader
    ensures reader.Valid() && reader.queue == []
    ensures first == Drain(old(reader.queue)).0
    ensures second == Ok([])
  {
    first := reader.Lines();
    second := reader.Lines();
  }

  /** Once an error has been returned, the producer has stopped and later polls return no lines. */
  method PollAfterError(reader: LineReader, item: Item) returns (first: Result<seq<string>, IoError>, later: Result<seq<string>, IoError>)
    requires reader.Valid()
    modifies reader
    ensures first.Err? ==> later == Ok([])
  {
    first := reader.Lines();
    if !reader.producerDone {
      reader.Send(item);
    }
    later := reader.Lines();
  }
}
