/** The writer loop that the serial messenger and every WebSocket session run: a queue, one buffer, and either a
    write in flight or a posted call of do_write. */
module Writers {
  import opened Prelude
  import opened Json

  /** `writes` are the operations started and not completed, with the text each was started for; `posted` counts
      the calls of do_write waiting at the executor. The last three fields are logs. An operation refers to the
      buffer, so what it transmits is what the buffer holds when it completes. */
  datatype Writer = Writer(
    queue: seq<Json>, buffer: Option<Json>, writes: seq<Json>, posted: nat,
    pushed: seq<Json>, written: seq<Json>, failed: seq<Json>)

  const IDLE := Writer([], None, [], 0, [], [], [])

  function Push(w: Writer, text: Json): Writer {
    w.(queue := w.queue + [text], pushed := w.pushed + [text])
  }

  function DoWrite(w: Writer): Writer {
    if w.queue != []
    then w.(buffer := Some(w.queue[0]), queue := w.queue[1..], writes := w.writes + [w.queue[0]])
    else w.(posted := w.posted + 1)
  }

  /** A posted call of do_write runs. */
  function RunPosted(w: Writer): Writer
    requires w.posted > 0
  {
    DoWrite(w.(posted := w.posted - 1))
  }

  function Transmitted(w: Writer): seq<Json> {
    if w.buffer.Some? then [w.buffer.value] else []
  }

  /** on_write: the oldest write completes, well or with an error; `clears` is whether the buffer is emptied. */
  function Complete(w: Writer, ok: bool, clears: bool): Writer
    requires w.writes != []
  {
    var v := w.(writes := w.writes[1..], buffer := if clears then None else w.buffer);
    if ok then DoWrite(v.(written := v.written + Transmitted(w)))
    else v.(failed := v.failed + Transmitted(w))
  }

  function Tokens(w: Writer): nat {
    w.posted + |w.writes|
  }

  /** The loop has been started and has not met an error. */
  predicate Running(w: Writer) {
    Tokens(w) == 1
  }

  /** The single-token discipline, and conservation: everything pushed is, in order, what was written, what was
      lost to the one failed write, what is in flight and what is queued. */
  predicate WriterOk(w: Writer) {
    && Tokens(w) + |w.failed| <= 1
    && (Tokens(w) + |w.failed| == 0 ==> w.written == [])
    && (w.writes != [] ==> w.buffer == Some(w.writes[0]))
    && w.pushed == w.written + w.failed + w.writes + w.queue
  }

  lemma PushKeepsOk(w: Writer, text: Json)
    requires WriterOk(w)
    ensures WriterOk(Push(w, text)) && Tokens(Push(w, text)) == Tokens(w)
  {
    assert w.written + w.failed + w.writes + (w.queue + [text]) == w.written + w.failed + w.writes + w.queue + [text];
  }

  /** do_write starts the loop when nothing is outstanding. */
  lemma DoWriteKeepsOk(w: Writer)
    requires Tokens(w) + |w.failed| == 0 && w.pushed == w.written + w.queue
    ensures WriterOk(DoWrite(w)) && Running(DoWrite(w))
  {
    if w.queue != [] {
      assert w.queue == [w.queue[0]] + w.queue[1..];
    }
  }

  lemma RunPostedKeepsOk(w: Writer)
    requires WriterOk(w) && w.posted > 0
    ensures WriterOk(RunPosted(w)) && Running(RunPosted(w))
  {
    if w.queue != [] {
      assert w.queue == [w.queue[0]] + w.queue[1..];
    }
  }

  /** A write that completes transmits exactly the text it was started for. */
  lemma CompleteKeepsOk(w: Writer, ok: bool, clears: bool)
    requires WriterOk(w) && w.writes != []
    ensures WriterOk(Complete(w, ok, clears)) && Transmitted(w) == w.writes
    ensures if ok then Running(Complete(w, ok, clears)) && Complete(w, ok, clears).written == w.written + w.writes
            else Tokens(Complete(w, ok, clears)) == 0 && Complete(w, ok, clears).failed == w.writes
  {
    assert w.writes == [w.writes[0]];
    assert w.failed == [];
    if ok {
      DoWriteKeepsOk(w.(writes := [], buffer := if clears then None else w.buffer, written := w.written + w.writes));
    }
  }
}
