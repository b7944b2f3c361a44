/** The guarantees of the whole system, over every run of its handlers. */
module Convergence {
  import opened Prelude
  import opened Json
  import opened Permissions
  import opened Gates
  import opened Sketches
  import opened SketchRuns
  import opened Writers
  import opened Messengers
  import opened WebsocketSessions
  import opened CommonStates
  import opened Systems
  import opened SystemInvariants

  lemma Reached(round: Rounding, es: seq<Event>)
    requires Runs(Initial(round), es)
    ensures Inv(After(Initial(round), es))
  {
    InitialInv(round);
    RunKeepsInv(Initial(round), es);
  }

  /** No handler that the environment may run next is ever undefined: the queue of a reachable system never holds
      a command without a gate, nor the line a document without a type. */
  lemma NothingIsUndefined(round: Rounding, es: seq<Event>, e: Event)
    requires Runs(Initial(round), es) && Possible(After(Initial(round), es), e)
    ensures Enabled(After(Initial(round), es), e)
  {
    Reached(round, es);
    InvDefined(After(Initial(round), es), e);
  }

  // ----------------------------------------------------------- towards the clients

  /** All that session `i` was sent and will be sent of what has been printed so far, from the client back to the
      board: written, in flight, queued for it, queued for all, and still on the serial line. */
  function Pipeline(w: World, i: nat): seq<Json>
    requires i < |w.bridge.sessions|
  {
    var out := w.bridge.sessions[i].out;
    out.written + out.writes + out.queue + DumpAll(w.bridge.messenger.incoming) + w.toHost
  }

  /** No write of the session has failed, and it is alive: its handshake may still be outstanding. */
  predicate Unfailed(s: SessionValue) {
    Alive(s) && s.out.failed == []
  }

  lemma UnfailedStream(s: SessionValue, at: nat, broadcast: seq<Json>)
    requires SessionInv(s) && StreamOf(s, at, broadcast) && Unfailed(s)
    ensures at <= |broadcast| && s.out.written + s.out.writes + s.out.queue == broadcast[at..]
  {
    assert s.out.written + [] + s.out.writes + s.out.queue == s.out.written + s.out.writes + s.out.queue;
  }

  lemma DropThenAppend<T>(a: seq<T>, b: seq<T>, c: seq<T>, n: nat)
    requires n <= |a|
    ensures a[n..] + b + c == (a + b)[n..] + c
  {
    assert (a + b)[n..] == a[n..] + b;
  }

  /** The pipeline of an unfailed session is what was received from its first document on, and what is on the line. */
  lemma PipelineIsReceived(w: World, i: nat)
    requires Inv(w) && i < |w.bridge.sessions| && Unfailed(w.bridge.sessions[i])
    ensures w.bridge.joins[i].at <= |w.bridge.messenger.received|
    ensures Pipeline(w, i) == DumpAll(w.bridge.messenger.received)[w.bridge.joins[i].at..] + w.toHost
  {
    var b := w.bridge;
    UnfailedStream(b.sessions[i], b.joins[i].at, b.broadcast);
    DropThenAppend(b.broadcast, DumpAll(b.messenger.incoming), w.toHost, b.joins[i].at);
  }

  /** Where nothing was lost, what is received and on the line is what was printed. */
  lemma NothingLostFrom(out: seq<Json>, toHost: seq<Json>, arrived: seq<nat>, garbled: nat, lossEnd: nat,
                        received: seq<Message>, n: nat)
    requires UpLink(out, toHost, arrived, garbled, lossEnd, received)
    requires lossEnd - garbled <= n <= |received|
    ensures n + garbled <= |out| && DumpAll(received)[n..] + toHost == out[n + garbled..]
  {
    var taken := |arrived| + garbled;
    assert DumpAll(received)[n..] == out[n + garbled..taken];
    assert out[n + garbled..] == out[n + garbled..taken] + out[taken..];
  }

  lemma SplitDrop<T>(a: seq<T>, n: nat, m: nat, b: seq<T>)
    requires n <= m <= |a|
    ensures a[n..] + b == a[n..m] + (a[m..] + b)
  {
    assert a[n..] == a[n..m] + a[m..];
  }

  /** What is on the line from place `start` on, if that has not been read yet. */
  lemma LineEndsWithPrinted(out: seq<Json>, toHost: seq<Json>, taken: nat, start: nat)
    requires taken <= start <= |out| && toHost == out[taken..]
    ensures toHost == toHost[..start - taken] + out[start..]
  {
  }

  /** A document that was printed before `start` and received has at least the lost ones and itself before `start`. */
  lemma ReceivedBefore(out: seq<Json>, toHost: seq<Json>, arrived: seq<nat>, garbled: nat, lossEnd: nat,
                       received: seq<Message>, n: nat, start: nat)
    requires UpLink(out, toHost, arrived, garbled, lossEnd, received) && lossEnd <= start
    requires n <= |received| && (n > 0 ==> arrived[n - 1] < start)
    ensures n + garbled <= start
  {
    assert n > 0 && lossEnd - garbled <= n - 1 ==> arrived[n - 1] == n - 1 + garbled;
  }

  /** If nothing from place `start` on was lost, what is received from the n-th document on and on the line ends with
      what was printed from `start` on, provided that the n-th document does not come after `start`. */
  lemma ReceivedEndsWithPrinted(out: seq<Json>, toHost: seq<Json>, arrived: seq<nat>, garbled: nat, lossEnd: nat,
                                received: seq<Message>, n: nat, start: nat) returns (head: seq<Json>)
    requires UpLink(out, toHost, arrived, garbled, lossEnd, received) && lossEnd <= start <= |out|
    requires n <= |received| && (n > 0 ==> arrived[n - 1] < start)
    ensures DumpAll(received)[n..] + toHost == head + out[start..]
  {
    var all := DumpAll(received);
    ReceivedBefore(out, toHost, arrived, garbled, lossEnd, received, n, start);
    if start - garbled <= |received| {
      NothingLostFrom(out, toHost, arrived, garbled, lossEnd, received, start - garbled);
      head := all[n..start - garbled];
      SplitDrop(all, n, start - garbled, toHost);
    } else {
      var taken := |arrived| + garbled;
      LineEndsWithPrinted(out, toHost, taken, start);
      head := all[n..] + toHost[..start - taken];
    }
  }

  lemma ScreenOfSuffix(docs: seq<Json>, at: nat, g: nat)
    requires at <= |docs| && Screen(docs[at..], g).Some?
    ensures Screen(docs, g) == Screen(docs[at..], g)
  {
    assert docs == docs[..at] + docs[at..];
    ScreenConcat(docs[..at], docs[at..], g);
  }

  /** Whatever the end of what a coherent board has printed says about a gate is true. */
  lemma EndTellsTruth(b: Board, docs: seq<Json>, at: nat, g: nat)
    requires Coherent(b) && at <= |b.out| && docs == b.out[at..] && g < GATES
    ensures Screen(docs, g).Some? ==> Screen(docs, g).value == StatusName(GetStatus(b.gates[g]))
  {
    if Screen(docs, g).Some? {
      ScreenOfSuffix(b.out, at, g);
    }
  }

  /** No document was lost after the first one that is meant for session `i`. */
  predicate StreamIntact(w: World, i: nat)
    requires i < |w.bridge.joins|
  {
    w.lossEnd <= w.bridge.joins[i].at + w.garbled
  }

  lemma IntactPipeline(w: World, i: nat)
    requires Inv(w) && i < |w.bridge.sessions| && Unfailed(w.bridge.sessions[i]) && StreamIntact(w, i)
    ensures w.bridge.joins[i].at + w.garbled <= |w.board.out|
    ensures Pipeline(w, i) == w.board.out[w.bridge.joins[i].at + w.garbled..]
  {
    PipelineIsReceived(w, i);
    NothingLostFrom(w.board.out, w.toHost, w.arrived, w.garbled, w.lossEnd, w.bridge.messenger.received,
                    w.bridge.joins[i].at);
  }

  /** Clients converge to the truth. In every reachable state, take a live session whose writer has not failed, and
      of whose stream nothing was lost on the serial line. Replaying what it has been sent and then everything that
      is on its way shows, for every gate mentioned, that gate's state after the board's last pass of loop(). */
  lemma ClientsConverge(round: Rounding, es: seq<Event>, i: nat, g: nat)
    requires Runs(Initial(round), es) && g < GATES
    requires var w := After(Initial(round), es);
             i < |w.bridge.sessions| && Unfailed(w.bridge.sessions[i]) && i < |w.bridge.joins| && StreamIntact(w, i)
    ensures var w := After(Initial(round), es);
            && Coherent(w.board)
            && (Screen(Pipeline(w, i), g).Some? ==>
                  Screen(Pipeline(w, i), g).value == StatusName(GetStatus(w.board.gates[g])))
  {
    Reached(round, es);
    var w := After(Initial(round), es);
    IntactPipeline(w, i);
    EndTellsTruth(w.board, Pipeline(w, i), w.bridge.joins[i].at + w.garbled, g);
  }

  /** Nothing that was printed since session `i` was added was lost. */
  predicate IntactSince(w: World, i: nat)
    requires i < |w.starts|
  {
    w.lossEnd <= w.starts[i]
  }

  /** Then the stream ends with all that was printed since. */
  lemma PipelineEndsWithPrinted(w: World, i: nat) returns (head: seq<Json>)
    requires Inv(w) && i < |w.bridge.sessions| && Unfailed(w.bridge.sessions[i]) && IntactSince(w, i)
    ensures w.starts[i] <= |w.board.out| && Pipeline(w, i) == head + w.board.out[w.starts[i]..]
  {
    assert StartOf(w.bridge.joins[i], w.starts[i], w.arrived);
    assert QueryOf(w.bridge.joins[i], w.starts[i], w.bridge.messenger.out.pushed, w.board.out, w.handled);
    PipelineIsReceived(w, i);
    head := ReceivedEndsWithPrinted(w.board.out, w.toHost, w.arrived, w.garbled, w.lossEnd,
                                    w.bridge.messenger.received, w.bridge.joins[i].at, w.starts[i]);
  }

  /** Old damage is forgotten: if nothing printed since the session was added was lost, then for every gate that was
      reported since, the same replay shows its state, whatever was lost before. */
  lemma LaterReportsConverge(round: Rounding, es: seq<Event>, i: nat, g: nat)
    requires Runs(Initial(round), es) && g < GATES
    requires var w := After(Initial(round), es);
             i < |w.bridge.sessions| && Unfailed(w.bridge.sessions[i]) && i < |w.starts| && IntactSince(w, i)
             && w.starts[i] <= |w.board.out| && Screen(w.board.out[w.starts[i]..], g).Some?
    ensures var w := After(Initial(round), es);
            && Coherent(w.board)
            && Screen(Pipeline(w, i), g) == Some(StatusName(GetStatus(w.board.gates[g])))
  {
    Reached(round, es);
    var w := After(Initial(round), es);
    var head := PipelineEndsWithPrinted(w, i);
    EndTellsTruth(w.board, w.board.out[w.starts[i]..], w.starts[i], g);
    ScreenConcat(head, w.board.out[w.starts[i]..], g);
  }

  /** Nothing is on its way between the board and the client of session `i`, in either direction. */
  predicate Drained(w: World, i: nat)
    requires i < |w.bridge.sessions|
  {
    var s, m := w.bridge.sessions[i].out, w.bridge.messenger;
    && s.writes == [] && s.queue == [] && m.incoming == [] && w.toHost == []
    && m.out.failed == [] && m.out.writes == [] && m.out.queue == [] && w.toBoard == []
  }

  lemma AnsweredSince(w: World, i: nat, g: nat)
    requires Inv(w) && i < |w.bridge.sessions| && Drained(w, i) && g < GATES
    ensures w.starts[i] <= |w.board.out| && Screen(w.board.out[w.starts[i]..], g).Some?
    ensures Pipeline(w, i) == w.bridge.sessions[i].out.written
  {
    var j := w.bridge.joins[i];
    assert QueryOf(j, w.starts[i], w.bridge.messenger.out.pushed, w.board.out, w.handled);
    assert w.handled > j.query;
  }

  /** Once everything is drained, the client shows the true state of all seven gates: the query that add_session
      sent for it has been answered, and its last report about every gate is the gate's state. */
  lemma DrainedClientsShowTheTruth(round: Rounding, es: seq<Event>, i: nat, g: nat)
    requires Runs(Initial(round), es) && g < GATES
    requires var w := After(Initial(round), es);
             i < |w.bridge.sessions| && Unfailed(w.bridge.sessions[i]) && i < |w.starts| && IntactSince(w, i)
             && Drained(w, i)
    ensures var w := After(Initial(round), es);
            && Coherent(w.board)
            && Screen(w.bridge.sessions[i].out.written, g) == Some(StatusName(GetStatus(w.board.gates[g])))
  {
    Reached(round, es);
    AnsweredSince(After(Initial(round), es), i, g);
    LaterReportsConverge(round, es, i, g);
  }

  /** What session `i` gets is a contiguous piece of the broadcast, starting where the session was added and
      reaching its end while the session is alive, whatever other sessions do. */
  lemma StreamsAreIntervals(round: Rounding, es: seq<Event>, i: nat)
    requires Runs(Initial(round), es) && i < |After(Initial(round), es).bridge.sessions|
    ensures var b := After(Initial(round), es).bridge;
            var out := b.sessions[i].out;
            var stream := out.written + out.failed + out.writes + out.queue;
            && |b.joins| == |b.sessions|
            && var at := b.joins[i].at;
            && at + |stream| <= |b.broadcast| && stream == b.broadcast[at..at + |stream|]
            && (Alive(b.sessions[i]) ==> at + |stream| == |b.broadcast|)
  {
    Reached(round, es);
    var b := After(Initial(round), es).bridge;
    assert SessionInv(b.sessions[i]) && StreamOf(b.sessions[i], b.joins[i].at, b.broadcast);
  }

  /** The broadcast is what the serial line has not lost, each document once and in the order of printing. */
  lemma BroadcastIsInOrder(round: Rounding, es: seq<Event>)
    requires Runs(Initial(round), es)
    ensures var w := After(Initial(round), es);
            && |w.bridge.broadcast| <= |w.arrived| && |w.arrived| + w.garbled + |w.toHost| == |w.board.out|
            && (forall k :: 0 <= k < |w.bridge.broadcast| ==>
                  w.arrived[k] < |w.board.out| && w.bridge.broadcast[k] == w.board.out[w.arrived[k]])
            && (forall j, k :: 0 <= j < k < |w.arrived| ==> w.arrived[j] < w.arrived[k])
  {
    Reached(round, es);
    var w := After(Initial(round), es);
    var received := DumpAll(w.bridge.messenger.received);
    assert forall k :: 0 <= k < |w.bridge.broadcast| ==> w.bridge.broadcast[k] == received[k];
  }

  /** Every report that was read has been passed on or is queued, and every message sent to the messenger has been
      written, was lost to the one failed write, is in flight or is queued, in that order. */
  lemma MessengerConserves(round: Rounding, es: seq<Event>)
    requires Runs(Initial(round), es)
    ensures var m := After(Initial(round), es).bridge.messenger;
            && DumpAll(m.received) == After(Initial(round), es).bridge.broadcast + DumpAll(m.incoming)
            && m.out.pushed == m.out.written + m.out.failed + m.out.writes + m.out.queue
            && |m.out.failed| <= 1
  {
    Reached(round, es);
  }

  /** At most one write is outstanding, and the buffer still holds the text it was started for. */
  predicate BufferUntouched(w: Writer) {
    w.writes != [] ==> w.buffer.Some? && w.writes == [w.buffer.value]
  }

  lemma OneWrite(w: Writer)
    requires WriterOk(w)
    ensures BufferUntouched(w)
  {
  }

  /** Both kinds of writer loop, once started, have exactly one of "write in flight" and "do_write posted" until a
      write fails, whatever becomes of the reader; before that a session has none. So writes never overlap, and
      nothing changes a buffer while its write is outstanding. */
  lemma OneTokenPerWriter(round: Rounding, es: seq<Event>, i: nat)
    requires Runs(Initial(round), es) && i < |After(Initial(round), es).bridge.sessions|
    ensures var m := After(Initial(round), es).bridge.messenger;
            Tokens(m.out) == (if m.out.failed == [] then 1 else 0) && m.reading <= 1 && BufferUntouched(m.out)
    ensures var s := After(Initial(round), es).bridge.sessions[i];
            && Tokens(s.out) == (if s.started && s.out.failed == [] then 1 else 0)
            && s.accepting + s.reading <= 1 && (s.reading > 0 ==> s.started) && BufferUntouched(s.out)
  {
    Reached(round, es);
    var w := After(Initial(round), es);
    assert SessionInv(w.bridge.sessions[i]);
    OneWrite(w.bridge.messenger.out);
    OneWrite(w.bridge.sessions[i].out);
  }

  /** A writer loop that runs goes on running until a write fails: over every run, whatever happens to the reader, to
      the list and to other sessions. */
  lemma RunningUntilFailure(w: World, es: seq<Event>, i: nat)
    requires Inv(w) && Runs(w, es) && i < |w.bridge.sessions| && Running(w.bridge.sessions[i].out)
    ensures i < |After(w, es).bridge.sessions|
    ensures var out := After(w, es).bridge.sessions[i].out;
            Running(out) || (Tokens(out) == 0 && |out.failed| == 1)
  {
    assert SessionInv(w.bridge.sessions[i]);
    RunKeepsSettled(w, es, i);
    RunKeepsInv(w, es);
    assert SessionInv(After(w, es).bridge.sessions[i]);
  }

  // -------------------------------------------------------------- towards the board

  /** What no handler takes back: the permissions of a session, and that its writer loop has been started. */
  predicate Settled(s: SessionValue, t: SessionValue) {
    t.permissions == s.permissions && (s.started ==> t.started)
  }

  lemma UpdateKeepsSettled(b: Bridge, i: nat)
    requires Places(b.sessions, b.list) && Listed(b) && NoDuplicates(b.list) && i < |b.sessions|
    ensures |Updated(b).sessions| == |b.sessions| && Settled(b.sessions[i], Updated(b).sessions[i])
  {
    if b.list != [] && Deliverable(b.messenger).Some? {
      KeptMembers(b.sessions, b.list);
      QueueAllQueuesOnce(b.sessions, Kept(b.sessions, b.list), Deliverable(b.messenger).value, i);
    }
  }

  lemma StepKeepsSettled(w: World, e: Event, i: nat)
    requires Enabled(w, e) && NoDuplicates(w.bridge.list) && i < |w.bridge.sessions|
    ensures i < |Step(w, e).bridge.sessions| && Settled(w.bridge.sessions[i], Step(w, e).bridge.sessions[i])
  {
    match e
    case UpdateCall => UpdateKeepsSettled(w.bridge, i);
    case ClientText(j, what) =>
      assert Settled(w.bridge.sessions[j], HasRead(w.bridge.sessions[j], what));
    case _ =>
  }

  lemma {:induction false} RunKeepsSettled(w: World, es: seq<Event>, i: nat)
    requires Inv(w) && Runs(w, es) && i < |w.bridge.sessions|
    ensures i < |After(w, es).bridge.sessions| && Settled(w.bridge.sessions[i], After(w, es).bridge.sessions[i])
    decreases |es|
  {
    if es != [] {
      StepKeepsSettled(w, es[0], i);
      StepKeepsInv(w, es[0]);
      RunKeepsSettled(Step(w, es[0]), es[1..], i);
    }
  }

  /** The permissions of a session are settled when it is created. */
  lemma PermissionsAreSettled(w: World, es: seq<Event>, i: nat)
    requires Inv(w) && Runs(w, es) && i < |w.bridge.sessions|
    ensures i < |After(w, es).bridge.sessions|
    ensures After(w, es).bridge.sessions[i].permissions == w.bridge.sessions[i].permissions
  {
    RunKeepsSettled(w, es, i);
  }

  lemma CommandIsExplained(origins: seq<Origin>, pushed: seq<Json>, sessions: seq<SessionValue>, k: nat)
    requires OriginsInv(origins, pushed, sessions) && k < |pushed|
    ensures k < |origins| && Explains(origins[k], pushed[k], sessions)
    ensures Understand(pushed[k]).Change? ==>
              origins[k].FromClient? && sessions[origins[k].session].permissions == Control
  {
    AllGatesUnderstood();
    assert Explains(origins[k], pushed[k], sessions);
  }

  lemma TextIsSentOn(origins: seq<Origin>, pushed: seq<Json>, sessions: seq<SessionValue>, i: nat, n: nat)
    requires OriginsInv(origins, pushed, sessions) && i < |sessions| && n < |sessions[i].inbox|
    ensures SentOn(origins, sessions, i, n)
  {
  }

  lemma HandledIsWritten(out: Writer, toBoard: seq<Json>, handled: nat, k: nat)
    requires WriterOk(out) && DownLink(out, toBoard, handled) && k < |out.pushed|
    ensures handled <= |out.written| && (k < handled ==> out.written[k] == out.pushed[k])
  {
    if k < handled {
      WrittenIsPushed(out, k);
    }
  }

  /** Every command that was ever sent towards the board, and so every one it has handled, was either sent to query
      all gates for a new session or came, word for word, from a text of a session with Control. A text is never
      sent twice, the texts of one client are sent in the order in which they came, and a text of a session with
      Control that holds a command is never dropped. */
  lemma CommandsComeFromControllers(round: Rounding, es: seq<Event>, k: nat)
    requires Runs(Initial(round), es) && k < |After(Initial(round), es).bridge.messenger.out.pushed|
    ensures var w := After(Initial(round), es);
            var command := w.bridge.messenger.out.pushed[k];
            && |w.origins| == |w.bridge.messenger.out.pushed| && NoDuplicates(w.origins) && InOrder(w.origins)
            && Explains(w.origins[k], command, w.bridge.sessions)
            && (Understand(command).Change? ==>
                  && w.origins[k].FromClient?
                  && w.bridge.sessions[w.origins[k].session].permissions == Control)
            && w.handled <= |w.bridge.messenger.out.written|
            && (k < w.handled ==> w.bridge.messenger.out.written[k] == command)
    ensures var w := After(Initial(round), es);
            forall i: nat, n: nat | i < |w.bridge.sessions| && n < |w.bridge.sessions[i].inbox| ::
              SentOn(w.origins, w.bridge.sessions, i, n)
  {
    Reached(round, es);
    var w := After(Initial(round), es);
    var out := w.bridge.messenger.out;
    CommandIsExplained(w.origins, out.pushed, w.bridge.sessions, k);
    HandledIsWritten(out, w.toBoard, w.handled, k);
    forall i: nat, n: nat | i < |w.bridge.sessions| && n < |w.bridge.sessions[i].inbox|
      ensures SentOn(w.origins, w.bridge.sessions, i, n)
    {
      TextIsSentOn(w.origins, out.pushed, w.bridge.sessions, i, n);
    }
  }

  /** A session that was not authorized, or is Blocked, is never alive: nothing is read from it or sent to it. */
  lemma BlockedSessionsAreDead(round: Rounding, es: seq<Event>, i: nat)
    requires Runs(Initial(round), es) && i < |After(Initial(round), es).bridge.sessions|
    ensures var s := After(Initial(round), es).bridge.sessions[i];
            Alive(s) ==> s.permissions != Blocked
  {
    Reached(round, es);
    assert SessionInv(After(Initial(round), es).bridge.sessions[i]);
  }
}
