/** The serial messenger: a reader that fills the incoming queue and a writer that empties the outgoing queue. */
module Messengers {
  import opened Prelude
  import opened Json
  import opened Writers

  /** How an asynchronous serial read ends. Text that is not a JSON document is None. */
  datatype SerialRead = Failed | Nothing | Bytes(doc: Option<Json>)

  /** `reading` is the number of read operations outstanding; `received` logs every message ever queued. */
  datatype MessengerValue = MessengerValue(incoming: seq<Message>, received: seq<Message>, reading: nat, out: Writer)

  const UNSTARTED := MessengerValue([], [], 0, IDLE)

  function DumpAll(q: seq<Message>): (d: seq<Json>)
    ensures |d| == |q| && forall i :: 0 <= i < |q| ==> d[i] == Dump(q[i])
  {
    seq(|q|, i requires 0 <= i < |q| => Dump(q[i]))
  }

  function Send(m: MessengerValue, message: Message): MessengerValue {
    m.(out := Push(m.out, Dump(message)))
  }

  function Started(m: MessengerValue): MessengerValue {
    m.(reading := m.reading + 1, out := DoWrite(m.out))
  }

  /** str_to_type has a value for the document, or is not reached. */
  predicate Decodable(doc: Option<Json>) {
    doc.Some? ==> !Parse(doc.value).NoKind?
  }

  function Decoded(doc: Option<Json>): seq<Message> {
    if doc.Some? && Parse(doc.value).Parsed? then [Parse(doc.value).message] else []
  }

  function ReadDone(m: MessengerValue, what: SerialRead): MessengerValue
    requires m.reading > 0
  {
    match what
    case Failed => m.(reading := m.reading - 1)
    case Nothing => m
    case Bytes(doc) => m.(incoming := m.incoming + Decoded(doc), received := m.received + Decoded(doc))
  }

  class Messenger {
    var incomingMessageQueue: seq<Message>
    var outgoingMessageQueue: seq<Message>
    var outgoingMessageBuffer: Option<Json>
    // operations outstanding at the executor
    var reading: nat
    var writes: seq<Json>
    var posted: nat
    // logs
    ghost var received: seq<Message>
    ghost var pushed: seq<Json>
    ghost var written: seq<Json>
    ghost var failed: seq<Json>

    ghost function Value(): MessengerValue
      reads this
    {
      MessengerValue(incomingMessageQueue, received, reading,
                     Writer(DumpAll(outgoingMessageQueue), outgoingMessageBuffer, writes, posted,
                            pushed, written, failed))
    }

    constructor ()
      ensures Value() == UNSTARTED
    {
      incomingMessageQueue, outgoingMessageQueue, outgoingMessageBuffer := [], [], None;
      reading, writes, posted := 0, [], 0;
      received, pushed, written, failed := [], [], [], [];
    }

    method Run()
      modifies this
      ensures Value() == Started(old(Value()))
    {
      StartRead();
      StartWrite();
    }

    method StartRead()
      modifies this`reading
      ensures Value() == old(Value()).(reading := old(reading) + 1)
    {
      reading := reading + 1;
    }

    /** The completion of the outstanding read. `defined` is false exactly where str_to_type runs off its end; nothing
        is claimed then. */
    method OnRead(what: SerialRead) returns (defined: bool)
      requires reading > 0
      modifies this
      ensures defined == (what.Bytes? ==> Decodable(what.doc))
      ensures defined ==> Value() == ReadDone(old(Value()), what)
    {
      defined := true;
      reading := reading - 1;
      if what.Failed? {
        return;
      }
      if what.Nothing? {
        StartRead();
        return;
      }
      if what.doc.Some? {
        var parsed := Parse(what.doc.value);
        if parsed.NoKind? {
          return false;
        }
        if parsed.Parsed? {
          incomingMessageQueue := incomingMessageQueue + [parsed.message];
          received := received + [parsed.message];
        }
      }
      StartRead();
    }

    /** do_write */
    method StartWrite()
      modifies this`outgoingMessageQueue, this`outgoingMessageBuffer, this`writes, this`posted
      ensures Value() == old(Value()).(out := DoWrite(old(Value()).out))
    {
      if outgoingMessageQueue != [] {
        ghost var before := DumpAll(outgoingMessageQueue);
        outgoingMessageBuffer := Some(Dump(outgoingMessageQueue[0]));
        outgoingMessageQueue := outgoingMessageQueue[1..];
        writes := writes + [outgoingMessageBuffer.value];
        assert DumpAll(outgoingMessageQueue) == before[1..];
      } else {
        posted := posted + 1;
      }
    }

    /** The executor runs a posted do_write. */
    method OnPosted()
      requires posted > 0
      modifies this
      ensures Value() == old(Value()).(out := RunPosted(old(Value()).out))
    {
      posted := posted - 1;
      StartWrite();
    }

    /** on_write for the oldest outstanding write. */
    method OnWrite(ok: bool)
      requires writes != []
      modifies this
      ensures Value() == old(Value()).(out := Complete(old(Value()).out, ok, true))
    {
      ghost var transmitted := Transmitted(Value().out);
      writes := writes[1..];
      outgoingMessageBuffer := None;
      if !ok {
        failed := failed + transmitted;
        return;
      }
      written := written + transmitted;
      StartWrite();
    }

    method SendMessage(message: Message)
      modifies this`outgoingMessageQueue, this`pushed
      ensures Value() == Send(old(Value()), message)
    {
      ghost var before := DumpAll(outgoingMessageQueue);
      outgoingMessageQueue := outgoingMessageQueue + [message];
      pushed := pushed + [Dump(message)];
      assert DumpAll(outgoingMessageQueue) == before + [Dump(message)];
    }
  }
}
