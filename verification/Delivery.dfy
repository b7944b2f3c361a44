/** What the handlers of the bridge do for delivery, and that nothing is ever stuck. */
module Delivery {
  import opened Prelude
  import opened Json
  import opened Permissions
  import opened Gates
  import opened Sketches
  import opened SketchRuns
  import opened Commands
  import opened Writers
  import opened Messengers
  import opened WebsocketSessions
  import opened CommonStates
  import opened Systems
  import opened SystemInvariants
  import opened Convergence

  // ---------------------------------------------------------------- the update

  /** The session after one more text was queued for it. */
  function Given(s: SessionValue, text: Json): SessionValue {
    s.(out := s.out.(queue := s.out.queue + [text], pushed := s.out.pushed + [text]))
  }

  lemma PrunedList(b: Bridge)
    requires Listed(b) && NoDuplicates(b.list)
    ensures var c := Updated(b);
            && NoDuplicates(c.list) && |c.sessions| == |b.sessions| && c.joins == b.joins
            && forall i :: i in c.list <==> i in b.list && Alive(b.sessions[i])
  {
    KeptMembers(b.sessions, b.list);
    if b.list != [] && Deliverable(b.messenger).Some? {
      assert |QueueAll(b.sessions, Kept(b.sessions, b.list), Deliverable(b.messenger).value)| == |b.sessions|;
    }
  }

  /** With a session listed, an update takes a result at the head of the incoming queue, and that alone, from the
      queue and passes it to every living listed session, behind what is queued for it; no other session changes. */
  lemma UpdateDelivers(b: Bridge, i: nat)
    requires Listed(b) && NoDuplicates(b.list) && b.list != [] && i < |b.sessions|
    requires b.messenger.incoming != [] && b.messenger.incoming[0].kind == QueryStateResult
    ensures var c := Updated(b);
            var text := Obj(map["type" := Str("query_state_result"), "payload" := b.messenger.incoming[0].payload]);
            && c.broadcast == b.broadcast + [text]
            && c.messenger == b.messenger.(incoming := b.messenger.incoming[1..])
            && |c.sessions| == |b.sessions|
            && c.sessions[i] == if i in b.list && Alive(b.sessions[i]) then Given(b.sessions[i], text)
                                else b.sessions[i]
  {
    var kept := Kept(b.sessions, b.list);
    KeptMembers(b.sessions, b.list);
    QueueAllQueuesOnce(b.sessions, kept, Dump(b.messenger.incoming[0]), i);
  }

  /** In every other case an update changes no queue and broadcasts nothing. */
  lemma UpdateOtherwiseIdle(b: Bridge)
    requires Listed(b)
    requires b.list == [] || b.messenger.incoming == [] || b.messenger.incoming[0].kind != QueryStateResult
    ensures Updated(b) == b.(list := Updated(b).list)
  {
  }

  function UpdateTimes(b: Bridge, n: nat): (c: Bridge)
    requires Listed(b)
    ensures Listed(c)
    decreases n
  {
    if n == 0 then b else Updated(UpdateTimes(b, n - 1))
  }

  /** Session `i` is listed once and alive, and what waits is to be broadcast. */
  predicate Ready(b: Bridge, i: nat, waiting: seq<Message>) {
    && Listed(b) && NoDuplicates(b.list) && i in b.list && Alive(b.sessions[i]) && b.messenger.incoming == waiting
    && forall k :: 0 <= k < |waiting| ==> waiting[k].kind == QueryStateResult
  }

  lemma FirstIsBroadcast(b: Bridge, i: nat, waiting: seq<Message>)
    requires Ready(b, i, waiting) && waiting != []
    ensures Ready(Updated(b), i, waiting[1..]) && Updated(b).broadcast == b.broadcast + [Dump(waiting[0])]
  {
    PrunedList(b);
    UpdateDelivers(b, i);
  }

  lemma DumpsOneMore(before: seq<Json>, waiting: seq<Message>, n: nat)
    requires n < |waiting|
    ensures before + DumpAll(waiting[..n]) + [Dump(waiting[n])] == before + DumpAll(waiting[..n + 1])
  {
    assert DumpAll(waiting[..n + 1]) == DumpAll(waiting[..n]) + [Dump(waiting[n])];
  }

  /** After n updates the first n results that were waiting have been broadcast, and the others wait. */
  lemma {:induction false} UpdatesTakeFirst(b: Bridge, i: nat, waiting: seq<Message>, n: nat)
    requires Ready(b, i, waiting) && n <= |waiting|
    ensures var c := UpdateTimes(b, n);
            Ready(c, i, waiting[n..]) && c.broadcast == b.broadcast + DumpAll(waiting[..n])
  {
    if n == 0 {
      assert waiting[0..] == waiting;
      assert b.broadcast + DumpAll(waiting[..0]) == b.broadcast;
    } else {
      UpdatesTakeFirst(b, i, waiting, n - 1);
      FirstIsBroadcast(UpdateTimes(b, n - 1), i, waiting[n - 1..]);
      assert waiting[n - 1..][1..] == waiting[n..];
      DumpsOneMore(b.broadcast, waiting, n - 1);
    }
  }

  /** As long as a session is alive, as many updates as there are results waiting broadcast all of them, in order. */
  lemma UpdatesEmptyQueue(b: Bridge, i: nat, waiting: seq<Message>)
    requires Ready(b, i, waiting)
    ensures var c := UpdateTimes(b, |waiting|);
            c.messenger.incoming == [] && c.broadcast == b.broadcast + DumpAll(waiting)
  {
    UpdatesTakeFirst(b, i, waiting, |waiting|);
    assert waiting[..|waiting|] == waiting;
  }

  // ---------------------------------------------------------- the writer loops

  /** A posted do_write that finds something queued starts writing the oldest of it. */
  lemma PostedWritesHead(w: Writer)
    requires w.posted > 0 && w.queue != []
    ensures var v := RunPosted(w);
            v.writes == w.writes + [w.queue[0]] && v.buffer == Some(w.queue[0]) && v.queue == w.queue[1..]
            && v.posted == w.posted - 1
  {
  }

  /** A successful write is followed at once by that of the next text, if there is one. */
  lemma NextIsWritten(w: Writer, clears: bool)
    requires WriterOk(w) && w.writes != []
    ensures var v := Complete(w, true, clears);
            && v.written == w.written + w.writes
            && (w.queue != [] ==> v.writes == [w.queue[0]] && v.queue == w.queue[1..] && v.posted == w.posted)
            && (w.queue == [] ==> v.writes == [] && v.queue == [] && v.posted == w.posted + 1)
  {
    CompleteKeepsOk(w, true, clears);
  }

  // -------------------------------------------------------------- the messenger

  /** A document that arrives undamaged is queued behind the others as the message that it is, of whatever type, and
      the next read is started; damaged text only starts the next read. */
  lemma MessageIsReceived(m: MessengerValue, message: Message)
    requires m.reading > 0
    ensures ReadDone(m, Bytes(Some(Dump(message)))) ==
            m.(incoming := m.incoming + [message], received := m.received + [message])
    ensures ReadDone(m, Bytes(None)) == m && ReadDone(m, Nothing) == m
  {
    ParseDump(message, Null);
    assert m.incoming + [] == m.incoming && m.received + [] == m.received;
  }

  /** The messenger reads on until a read fails. */
  lemma {:induction false} MessengerReadsOn(w: World, es: seq<Event>)
    requires Inv(w) && Runs(w, es) && w.bridge.messenger.reading == 1
    requires forall k :: 0 <= k < |es| ==> !es[k].SerialError?
    ensures After(w, es).bridge.messenger.reading == 1
    decreases |es|
  {
    if es != [] {
      StepKeepsInv(w, es[0]);
      StepReadsOn(w, es[0]);
      MessengerReadsOn(Step(w, es[0]), es[1..]);
    }
  }

  lemma StepReadsOn(w: World, e: Event)
    requires Enabled(w, e) && !e.SerialError?
    ensures Step(w, e).bridge.messenger.reading == w.bridge.messenger.reading
  {
  }

  /** So it has exactly one read outstanding in every run in which none has failed. */
  lemma MessengerReadsUntilError(round: Rounding, es: seq<Event>)
    requires Runs(Initial(round), es) && forall k :: 0 <= k < |es| ==> !es[k].SerialError?
    ensures After(Initial(round), es).bridge.messenger.reading == 1
  {
    InitialInv(round);
    MessengerReadsOn(Initial(round), es);
  }

  // --------------------------------------------------------------- the sessions

  /** A connection with View or Control gets that permission and starts its handshake; any other is dead. */
  lemma ConnectionStarts(w: World, auth: Option<Permission>)
    ensures var v := Joined(w, auth);
            var n := |w.bridge.sessions|;
            && |v.bridge.sessions| == n + 1 && v.bridge.list == w.bridge.list + [n]
            && v.bridge.sessions[..n] == w.bridge.sessions
            && var s := v.bridge.sessions[n];
               if auth == Some(View) || auth == Some(Control)
               then s.permissions == auth.value && s.accepting == 1 && Alive(s) else !Alive(s)
    ensures Joined(w, auth).bridge.messenger.out.queue == w.bridge.messenger.out.queue + [Dump(ALL_GATES)]
  {
  }

  /** After the handshake a session reads, and writes the oldest report that is queued for it, if there is one. */
  lemma AcceptedSessionRuns(s: SessionValue)
    requires SessionInv(s) && s.accepting > 0
    ensures var t := Accepted(s, true);
            && t.accepting == 0 && t.reading == 1 && t.started && Running(t.out)
            && t.out.writes == (if s.out.queue == [] then [] else [s.out.queue[0]])
            && !Alive(Accepted(s, false))
  {
  }

  /** A session reads on until its stream is closed or broken. */
  lemma StepReadsOnFrom(w: World, e: Event, i: nat)
    requires Enabled(w, e) && NoDuplicates(w.bridge.list) && i < |w.bridge.sessions|
    requires w.bridge.sessions[i].reading == 1 && SessionInv(w.bridge.sessions[i])
    requires e.ClientText? && e.i == i ==> !e.what.Closed? && !e.what.Broken?
    ensures i < |Step(w, e).bridge.sessions| && Step(w, e).bridge.sessions[i].reading == 1
  {
    if e.UpdateCall? {
      UpdateKeepsReading(w.bridge, i);
    }
  }

  lemma UpdateKeepsReading(b: Bridge, i: nat)
    requires Listed(b) && NoDuplicates(b.list) && i < |b.sessions|
    ensures |Updated(b).sessions| == |b.sessions| && Updated(b).sessions[i].reading == b.sessions[i].reading
  {
    if b.list != [] && Deliverable(b.messenger).Some? {
      UpdateDelivers(b, i);
    } else {
      UpdateOtherwiseIdle(b);
    }
  }

  lemma SessionOf(w: World, i: nat)
    requires Inv(w) && i < |w.bridge.sessions|
    ensures SessionInv(w.bridge.sessions[i]) && NoDuplicates(w.bridge.list)
  {
  }

  lemma StepKeepsReading(w: World, e: Event, i: nat)
    requires Inv(w) && Enabled(w, e) && i < |w.bridge.sessions| && w.bridge.sessions[i].reading == 1
    requires e.ClientText? && e.i == i ==> !e.what.Closed? && !e.what.Broken?
    ensures Inv(Step(w, e))
    ensures i < |Step(w, e).bridge.sessions| && Step(w, e).bridge.sessions[i].reading == 1
  {
    StepKeepsInv(w, e);
    SessionOf(w, i);
    StepReadsOnFrom(w, e, i);
  }

  lemma {:induction false} SessionReadsOn(w: World, es: seq<Event>, i: nat)
    requires Inv(w) && Runs(w, es) && i < |w.bridge.sessions| && w.bridge.sessions[i].reading == 1
    requires forall k :: 0 <= k < |es| && es[k].ClientText? && es[k].i == i
                         ==> !es[k].what.Closed? && !es[k].what.Broken?
    ensures i < |After(w, es).bridge.sessions| && After(w, es).bridge.sessions[i].reading == 1
    decreases |es|
  {
    if es != [] {
      StepKeepsReading(w, es[0], i);
      SessionReadsOn(Step(w, es[0]), es[1..], i);
    }
  }

  /** A read that fails, or that finds the stream closed, is the last, and changes nothing else. */
  lemma ReadsEnd(m: MessengerValue, s: SessionValue)
    ensures m.reading == 1 ==> ReadDone(m, SerialRead.Failed) == m.(reading := 0)
    ensures s.reading == 1 ==> HasRead(s, Closed) == s.(reading := 0) && HasRead(s, Broken) == s.(reading := 0)
  {
  }

  /** What is sent on of a text: from a session with Control a document of type change_state or query_state, reduced
      to its type and its payload, and nothing else. */
  lemma SentOnExactly(p: Permission, doc: Option<Json>)
    ensures if p == Control && doc.Some? && (HasType(doc.value, "change_state") || HasType(doc.value, "query_state"))
            then
              && |Forwarded(p, doc)| == 1
              && Dump(Forwarded(p, doc)[0]) ==
                 Obj(map["type" := doc.value.fields["type"],
                         "payload" := if "payload" in doc.value.fields then doc.value.fields["payload"] else Null])
            else Forwarded(p, doc) == []
  {
    if doc.Some? && Parse(doc.value).Parsed? {
      KindNames(Parse(doc.value).message.kind, Field(doc.value, "type").s);
      KindNames(ChangeState, "");
      KindNames(QueryState, "");
    }
  }

  /** A text with a change or a query from a session with Control ends up, unchanged if it has no other fields, behind
      what is queued for the board. */
  lemma CommandIsQueued(w: World, i: nat, doc: Json)
    requires i < |w.bridge.sessions| && w.bridge.sessions[i].reading > 0
    requires w.bridge.sessions[i].permissions == Control && doc.Obj? && doc.fields.Keys == {"type", "payload"}
    requires HasType(doc, "change_state") || HasType(doc, "query_state")
    ensures var out := ReadText(w, i, Words(Some(doc))).bridge.messenger.out;
            && out.queue == w.bridge.messenger.out.queue + [doc]
            && out.pushed == w.bridge.messenger.out.pushed + [doc]
  {
    SentOnExactly(Control, Some(doc));
    assert doc.fields == map["type" := doc.fields["type"], "payload" := doc.fields["payload"]];
  }

  /** Whoever lacks Control sends nothing to the board, whatever the text; and nobody does by other than a text. */
  lemma OthersSendNothing(w: World, i: nat, what: ClientRead)
    requires i < |w.bridge.sessions| && w.bridge.sessions[i].reading > 0
    requires w.bridge.sessions[i].permissions != Control || !what.Words?
    ensures ReadText(w, i, what).bridge.messenger == w.bridge.messenger
  {
  }

  // ------------------------------------------------------------ nothing is stuck

  /** A session whose client can still be brought up to date: nothing it needs has failed. */
  predicate Hopeful(w: World, i: nat) {
    && i < |w.bridge.sessions| && Unfailed(w.bridge.sessions[i])
    && w.bridge.messenger.out.failed == [] && w.bridge.messenger.reading == 1
  }

  function Pending(w: Writer): nat {
    2 * |w.queue| + |w.writes|
  }

  /** What lies between the board and the client of session `i`, from the messenger's commands on. */
  datatype Backlog = Backlog(handshake: nat, commands: nat, toBoard: nat, toHost: nat, results: nat, reports: nat)

  function BacklogOf(w: World, i: nat): Backlog
    requires i < |w.bridge.sessions|
  {
    var s, m := w.bridge.sessions[i], w.bridge.messenger;
    Backlog(s.accepting, Pending(m.out), |w.toBoard|, |w.toHost|, |m.incoming|, Pending(s.out))
  }

  /** The backlog has become smaller at one place, and grown only behind it. */
  predicate Smaller(a: Backlog, b: Backlog) {
    || a.handshake < b.handshake
    || (a.handshake == b.handshake &&
        (|| a.commands < b.commands
         || (a.commands == b.commands &&
             (|| a.toBoard < b.toBoard
              || (a.toBoard == b.toBoard &&
                  (|| a.toHost < b.toHost
                   || (a.toHost == b.toHost &&
                       (a.results < b.results || (a.results == b.results && a.reports < b.reports)))))))))
  }

  /** A handler that makes progress for session `i`: none of these needs a client, a new command or a lost one. */
  function Next(w: World, i: nat): Option<Event>
    requires i < |w.bridge.sessions|
  {
    var s, m := w.bridge.sessions[i], w.bridge.messenger;
    if s.accepting > 0 then Some(ClientAccept(i, true))
    else if m.out.writes != [] then Some(SerialWrite(true))
    else if m.out.queue != [] then Some(SerialPosted)
    else if w.toBoard != [] then Some(BoardLoop(true))
    else if w.toHost != [] then Some(DocumentRead)
    else if m.incoming != [] then Some(UpdateCall)
    else if s.out.writes != [] then Some(ClientWrite(i, true))
    else if s.out.queue != [] then Some(ClientPosted(i))
    else None
  }

  /** What the later steps rely on. */
  predicate Onward(w: World, v: World, i: nat)
    requires i < |w.bridge.sessions|
  {
    && Hopeful(v, i) && Smaller(BacklogOf(v, i), BacklogOf(w, i))
    && v.lossEnd == w.lossEnd && v.starts == w.starts
  }

  lemma WriterShrinks(w: Writer, clears: bool)
    requires WriterOk(w) && w.failed == []
    ensures w.writes != [] ==> Pending(Complete(w, true, clears)) < Pending(w) && Complete(w, true, clears).failed == []
    ensures w.posted > 0 && w.queue != [] ==> Pending(RunPosted(w)) < Pending(w) && RunPosted(w).failed == []
  {
  }

  lemma AcceptOnward(w: World, i: nat)
    requires Inv(w) && Hopeful(w, i) && w.bridge.sessions[i].accepting > 0
    ensures Onward(w, Systems.WithSession(w, i, Accepted(w.bridge.sessions[i], true)), i)
  {
    SessionOf(w, i);
    AcceptedSessionRuns(w.bridge.sessions[i]);
  }

  lemma SerialOnward(w: World, i: nat)
    requires Inv(w) && Hopeful(w, i)
    ensures w.bridge.messenger.out.writes != [] ==> Onward(w, WriteEnds(w, true), i)
    ensures w.bridge.messenger.out.posted > 0 && w.bridge.messenger.out.queue != [] ==> Onward(w, PostedRuns(w), i)
  {
    WriterShrinks(w.bridge.messenger.out, true);
  }

  lemma BoardOnward(w: World, i: nat)
    requires Hopeful(w, i) && AllOk(w.board.gates) && w.toBoard != [] && AddressesGate(w.toBoard[0])
    ensures Onward(w, RunBoard(w, true), i)
  {
  }

  lemma ArriveOnward(w: World, i: nat)
    requires Hopeful(w, i) && w.toHost != []
    ensures Onward(w, Arrive(w), i)
  {
  }

  lemma UpdateOnward(w: World, i: nat)
    requires Inv(w) && Hopeful(w, i) && w.bridge.messenger.incoming != []
    ensures Onward(w, w.(bridge := Updated(w.bridge)), i)
  {
    assert i in w.bridge.list;
    UpdateDelivers(w.bridge, i);
  }

  lemma ClientOnward(w: World, i: nat)
    requires Inv(w) && Hopeful(w, i)
    ensures var s := w.bridge.sessions[i];
            && (s.out.writes != [] ==> Onward(w, Systems.WithSession(w, i, Wrote(s, true)), i))
            && (s.out.posted > 0 && s.out.queue != [] ==> Onward(w, Systems.WithSession(w, i, RanPosted(s)), i))
  {
    var s := w.bridge.sessions[i];
    SessionOf(w, i);
    WriterShrinks(s.out, false);
    if s.out.writes != [] {
      CompleteKeepsOk(s.out, true, false);
    }
    if s.out.posted > 0 {
      RunPostedKeepsOk(s.out);
    }
  }

  lemma NextIsPossible(w: World, i: nat)
    requires Inv(w) && Hopeful(w, i) && Next(w, i).Some?
    ensures Enabled(w, Next(w, i).value)
  {
    SessionOf(w, i);
    InvDefined(w, Next(w, i).value);
  }

  /** The next handler is one that may run, and it makes the backlog smaller. */
  lemma NextIsOnward(w: World, i: nat)
    requires Inv(w) && Hopeful(w, i) && Next(w, i).Some?
    ensures Enabled(w, Next(w, i).value) && Onward(w, Step(w, Next(w, i).value), i)
  {
    NextIsPossible(w, i);
    match Next(w, i).value
    case ClientAccept(_, _) => AcceptOnward(w, i);
    case SerialWrite(_) => SerialOnward(w, i);
    case SerialPosted => SerialOnward(w, i);
    case BoardLoop(_) => BoardOnward(w, i);
    case DocumentRead => ArriveOnward(w, i);
    case UpdateCall => UpdateOnward(w, i);
    case ClientWrite(_, _) => ClientOnward(w, i);
    case ClientPosted(_) => ClientOnward(w, i);
  }

  /** From every state of the invariant the system's own handlers can drain everything. */
  lemma {:induction false} CanDrain(w: World, i: nat) returns (es: seq<Event>)
    requires Inv(w) && Hopeful(w, i)
    ensures Runs(w, es) && Hopeful(After(w, es), i) && Drained(After(w, es), i)
    ensures After(w, es).lossEnd == w.lossEnd && After(w, es).starts == w.starts
    decreases BacklogOf(w, i).handshake, BacklogOf(w, i).commands, BacklogOf(w, i).toBoard, BacklogOf(w, i).toHost,
              BacklogOf(w, i).results, BacklogOf(w, i).reports
  {
    match Next(w, i)
    case None => es := [];
    case Some(e) =>
      NextIsOnward(w, i);
      StepKeepsInv(w, e);
      var rest := CanDrain(Step(w, e), i);
      es := [e] + rest;
      assert es[1..] == rest;
  }

  lemma FirstOfConcat<T>(a: seq<T>, b: seq<T>)
    requires a != []
    ensures a + b != [] && (a + b)[0] == a[0] && (a + b)[1..] == a[1..] + b
  {
  }

  lemma {:induction false} RunsConcat(w: World, a: seq<Event>, b: seq<Event>)
    requires Runs(w, a) && Runs(After(w, a), b)
    ensures Runs(w, a + b) && After(w, a + b) == After(After(w, a), b)
    decreases |a|
  {
    if a == [] {
      assert a + b == b;
    } else {
      FirstOfConcat(a, b);
      RunsConcat(Step(w, a[0]), a[1..], b);
    }
  }

  /** Nothing is ever stuck. From every reachable state, for every live session whose writer has not failed, while the
      messenger's reader and writer have not failed either, the system's own handlers alone can bring the client up to
      date: every command sent so far is carried out, and, if nothing printed since the session was added was lost,
      its client shows the true state of all seven gates. */
  lemma ClientsCanBeUpToDate(round: Rounding, es: seq<Event>, i: nat) returns (more: seq<Event>)
    requires Runs(Initial(round), es) && Hopeful(After(Initial(round), es), i)
    ensures Runs(Initial(round), es + more)
    ensures var w, v := After(Initial(round), es), After(Initial(round), es + more);
            && Hopeful(v, i) && Drained(v, i) && v.handled == |v.bridge.messenger.out.pushed|
            && i < |w.starts| && v.starts == w.starts && Coherent(v.board)
            && (IntactSince(w, i) ==>
                  forall g: nat :: g < GATES ==>
                    Screen(v.bridge.sessions[i].out.written, g) == Some(StatusName(GetStatus(v.board.gates[g]))))
  {
    Reached(round, es);
    var w := After(Initial(round), es);
    more := CanDrain(w, i);
    RunsConcat(Initial(round), es, more);
    Reached(round, es + more);
    assert BoardInv(After(Initial(round), es + more).board);
    var v := After(Initial(round), es + more);
    EverythingIsHandled(v, i);
    if IntactSince(w, i) {
      forall g: nat | g < GATES
        ensures Screen(v.bridge.sessions[i].out.written, g) == Some(StatusName(GetStatus(v.board.gates[g])))
      {
        DrainedClientsShowTheTruth(round, es + more, i, g);
      }
    }
  }

  lemma EverythingIsHandled(v: World, i: nat)
    requires Inv(v) && i < |v.bridge.sessions| && Drained(v, i)
    ensures v.handled == |v.bridge.messenger.out.pushed| && |v.starts| == |v.bridge.sessions|
  {
    var out := v.bridge.messenger.out;
    assert out.pushed == out.written + [] + [] + [];
  }
}
