/** What every step of the system keeps. Each predicate speaks of the few components it relates. */
module SystemInvariants {
  import opened Prelude
  import opened Json
  import opened Permissions
  import opened Gates
  import opened Sketches
  import opened SketchRuns
  import opened Writers
  import opened Messengers
  import opened WebsocketSessions
  import opened CommonStates
  import opened Systems

  // ------------------------------------------------------------- the invariants

  predicate IsResult(doc: Json) {
    Parse(doc).Parsed? && Parse(doc).message.kind == QueryStateResult && Dump(Parse(doc).message) == doc
  }

  /** The board tells the truth, and everything it has printed is a result document. */
  predicate BoardInv(b: Board) {
    Coherent(b) && AllResults(b.out)
  }

  predicate AllResults(docs: seq<Json>) {
    docs == [] || (AllResults(docs[..|docs| - 1]) && IsResult(docs[|docs| - 1]))
  }

  lemma {:induction false} ResultsConcat(a: seq<Json>, b: seq<Json>)
    requires AllResults(a) && AllResults(b)
    ensures AllResults(a + b)
  {
    if b == [] {
      assert a + b == a;
    } else {
      assert (a + b)[..|a + b| - 1] == a + b[..|b| - 1];
      ResultsConcat(a, b[..|b| - 1]);
    }
  }

  lemma {:induction false} ResultAt(docs: seq<Json>, k: nat)
    requires AllResults(docs) && k < |docs|
    ensures IsResult(docs[k])
  {
    if k < |docs| - 1 {
      ResultAt(docs[..|docs| - 1], k);
    }
  }

  /** Every printed document is still on the line, was lost, or was received; what was received was received once
      and in the order of printing; and none was lost from the place `lossEnd` on. */
  predicate UpLink(out: seq<Json>, toHost: seq<Json>, arrived: seq<nat>, garbled: nat, lossEnd: nat,
                   received: seq<Message>) {
    var taken := |arrived| + garbled;
    && taken + |toHost| == |out| && toHost == out[taken..]
    && |received| == |arrived|
    && (forall k :: 0 <= k < |arrived| ==>
          arrived[k] < taken && out[arrived[k]] == Dump(received[k]) && received[k].kind == QueryStateResult)
    && (forall j, k :: 0 <= j < k < |arrived| ==> arrived[j] < arrived[k])
    && garbled <= lossEnd <= taken && (garbled == 0 ==> lossEnd == 0)
    && (forall k :: lossEnd - garbled <= k < |arrived| ==> arrived[k] == k + garbled)
  }

  /** One read at most, one writer token until a write fails, and what was received is what was broadcast
      followed by what is queued. Nothing in the queue can block it. */
  predicate MessengerInv(m: MessengerValue, broadcast: seq<Json>) {
    && m.reading <= 1
    && WriterOk(m.out) && Tokens(m.out) + |m.out.failed| == 1
    && DumpAll(m.received) == broadcast + DumpAll(m.incoming)
    && forall k :: 0 <= k < |m.incoming| ==> m.incoming[k].kind == QueryStateResult
  }

  /** A session is not started, or it has been and then has its one writer token until a write fails, whatever its
      reader does; without View or Control it never does anything. */
  predicate SessionInv(s: SessionValue) {
    && s.accepting + s.reading <= 1
    && WriterOk(s.out)
    && (if s.started then s.accepting == 0 && Tokens(s.out) + |s.out.failed| == 1
        else s.reading == 0 && Tokens(s.out) + |s.out.failed| == 0)
    && (Alive(s) ==> s.permissions != Blocked)
  }

  /** The stream of a session is a contiguous piece of the broadcast from the moment it was added, and all of the
      rest of the broadcast while the session is alive. */
  predicate StreamOf(s: SessionValue, at: nat, broadcast: seq<Json>) {
    && at + |s.out.pushed| <= |broadcast|
    && s.out.pushed == broadcast[at..at + |s.out.pushed|]
    && (Alive(s) ==> at + |s.out.pushed| == |broadcast|)
  }

  predicate SessionsInv(sessions: seq<SessionValue>, list: seq<nat>, joins: seq<Join>, broadcast: seq<Json>) {
    && |joins| == |sessions| && Places(sessions, list) && NoDuplicates(list)
    && (forall i :: 0 <= i < |sessions| ==> SessionInv(sessions[i]))
    && (forall i :: 0 <= i < |sessions| ==> StreamOf(sessions[i], joins[i].at, broadcast))
    && (forall i: nat :: i < |sessions| && Alive(sessions[i]) ==> i in list)
  }

  /** The board takes the written commands one by one, in order, and every command is acceptable to it. */
  predicate DownLink(out: Writer, toBoard: seq<Json>, handled: nat) {
    && handled + |toBoard| == |out.written| && toBoard == out.written[handled..]
    && forall k :: 0 <= k < |out.pushed| ==> Accepts(out.pushed[k])
  }

  /** Origin `o` explains command `c`. */
  predicate Explains(o: Origin, c: Json, sessions: seq<SessionValue>) {
    match o
    case FromJoin(i) => i < |sessions| && c == Dump(ALL_GATES)
    case FromClient(i, n) =>
      && i < |sessions| && n < |sessions[i].inbox|
      && Forwarded(sessions[i].permissions, sessions[i].inbox[n]) != []
      && c == Dump(Forwarded(sessions[i].permissions, sessions[i].inbox[n])[0])
  }

  /** The texts of one client are sent in the order in which they came. */
  predicate InOrder(origins: seq<Origin>) {
    forall k, l | 0 <= k < l < |origins| && origins[k].FromClient? && origins[l].FromClient? ::
      origins[k].session == origins[l].session ==> origins[k].place < origins[l].place
  }

  /** If the n-th text of session `i` is to be forwarded, it was. */
  predicate SentOn(origins: seq<Origin>, sessions: seq<SessionValue>, i: nat, n: nat)
    requires i < |sessions| && n < |sessions[i].inbox|
  {
    Forwarded(sessions[i].permissions, sessions[i].inbox[n]) != [] ==> FromClient(i, n) in origins
  }

  /** Every command sent has its own origin, and every text that is to be forwarded was. */
  predicate OriginsInv(origins: seq<Origin>, pushed: seq<Json>, sessions: seq<SessionValue>) {
    && |origins| == |pushed| && NoDuplicates(origins) && InOrder(origins)
    && (forall k {:trigger Explains(origins[k], pushed[k], sessions)} :: 0 <= k < |pushed| ==>
          Explains(origins[k], pushed[k], sessions))
    && forall i: nat, n: nat {:trigger SentOn(origins, sessions, i, n)} |
         i < |sessions| && n < |sessions[i].inbox| :: SentOn(origins, sessions, i, n)
  }

  /** The query sent for a session is among the commands, and once the board has handled it every gate has been
      reported since the session was added, when `start` documents were printed. */
  predicate QueryOf(j: Join, start: nat, pushed: seq<Json>, out: seq<Json>, handled: nat) {
    && j.query < |pushed| && pushed[j.query] == Dump(ALL_GATES)
    && start <= |out|
    && (handled > j.query ==> forall g: nat :: g < GATES ==> Screen(out[start..], g).Some?)
  }

  predicate QueriesInv(joins: seq<Join>, starts: seq<nat>, pushed: seq<Json>, out: seq<Json>, handled: nat) {
    |starts| == |joins| && forall i :: 0 <= i < |joins| ==> QueryOf(joins[i], starts[i], pushed, out, handled)
  }

  /** What was broadcast before a session was added had been printed by then. */
  predicate StartOf(j: Join, start: nat, arrived: seq<nat>) {
    j.at <= |arrived| && (j.at > 0 ==> arrived[j.at - 1] < start)
  }

  predicate StartsInv(joins: seq<Join>, starts: seq<nat>, arrived: seq<nat>) {
    |starts| == |joins| && forall i :: 0 <= i < |joins| ==> StartOf(joins[i], starts[i], arrived)
  }

  predicate Inv(w: World) {
    var b := w.bridge;
    && BoardInv(w.board)
    && UpLink(w.board.out, w.toHost, w.arrived, w.garbled, w.lossEnd, b.messenger.received)
    && MessengerInv(b.messenger, b.broadcast)
    && SessionsInv(b.sessions, b.list, b.joins, b.broadcast)
    && DownLink(b.messenger.out, w.toBoard, w.handled)
    && OriginsInv(w.origins, b.messenger.out.pushed, b.sessions)
    && QueriesInv(b.joins, w.starts, b.messenger.out.pushed, w.board.out, w.handled)
    && StartsInv(b.joins, w.starts, w.arrived)
  }

  lemma InitialInv(round: Rounding)
    ensures Inv(Initial(round))
  {
    InitiallyCoherent(round);
    var w := Initial(round);
    assert BoardInv(w.board);
    InitialLinks(w.bridge);
  }

  lemma InitialMessenger(m: MessengerValue)
    requires m == Started(UNSTARTED)
    ensures MessengerInv(m, []) && DownLink(m.out, [], 0) && m.received == [] && m.out.pushed == []
  {
    assert m.out == IDLE.(posted := 1);
  }

  lemma InitialLinks(b: Bridge)
    requires b == Bridge(Started(UNSTARTED), [], [], [], [])
    ensures UpLink([], [], [], 0, 0, b.messenger.received)
    ensures MessengerInv(b.messenger, b.broadcast)
    ensures SessionsInv(b.sessions, b.list, b.joins, b.broadcast)
    ensures DownLink(b.messenger.out, [], 0)
    ensures OriginsInv([], b.messenger.out.pushed, b.sessions)
    ensures QueriesInv(b.joins, [], b.messenger.out.pushed, [], 0)
    ensures StartsInv(b.joins, [], [])
  {
    InitialMessenger(b.messenger);
  }

  /** In the invariant, what waits on the line is a result that the messenger decodes and could dump again. */
  lemma WaitingIsResult(w: World)
    requires Inv(w) && w.toHost != []
    ensures IsResult(w.toHost[0])
  {
    assert w.toHost[0] == w.board.out[|w.arrived| + w.garbled];
    ResultAt(w.board.out, |w.arrived| + w.garbled);
  }

  /** In a state that satisfies the invariant, every handler that may run has defined behaviour. */
  lemma InvDefined(w: World, e: Event)
    requires Inv(w) && Possible(w, e)
    ensures Enabled(w, e)
  {
    if e == BoardLoop(true) && w.toBoard != [] {
      WrittenIsPushed(w.bridge.messenger.out, w.handled);
    }
    if e.DocumentRead? && w.toHost != [] {
      WaitingIsResult(w);
    }
  }

  lemma WrittenIsPushed(out: Writer, k: nat)
    requires WriterOk(out) && k < |out.written|
    ensures k < |out.pushed| && out.pushed[k] == out.written[k]
  {
  }

  // ------------------------------------------------------------ the board's steps

  lemma ReportIsResult(items: seq<Json>)
    ensures IsResult(ReportJson(items))
  {
    ParseDump(Message(QueryStateResult, Arr(items)), Null);
  }

  lemma {:induction false} CompletionsAreResults(before: seq<GateValue>, after: seq<GateValue>, n: nat)
    requires AllOk(before) && AllOk(after) && n <= GATES
    ensures AllResults(Completions(before, after, n))
  {
    if n > 0 {
      CompletionsAreResults(before, after, n - 1);
      var items := [EntryJson(n - 1, StatusName(GetStatus(after[n - 1])))];
      ReportIsResult(items);
      OneResult(ReportJson(items));
      ResultsConcat(Completions(before, after, n - 1),
                    if Completes(before[n - 1], after[n - 1]) then [ReportJson(items)] else []);
    }
  }

  lemma OneResult(doc: Json)
    requires IsResult(doc)
    ensures AllResults([doc])
  {
    assert [doc][..0] == [];
  }

  lemma AnswerIsResult(b: Board, input: Option<Json>)
    requires AllOk(b.gates) && (input.Some? ==> Accepts(input.value))
    ensures AllResults(Taken(b, input).out[|b.out|..])
  {
    if input.Some? {
      var h := Taken(b, input);
      var items := match Understand(input.value)
                   case Query(items) => Entries(b.gates, QueriedIds(items))
                   case Change(id, up) => Entries(h.gates, [id]);
      ReportIsResult(items);
      OneResult(ReportJson(items));
      assert h.out[|b.out|..] == [ReportJson(items)];
    }
  }

  lemma LoopKeepsBoardInv(b: Board, input: Option<Json>)
    requires BoardInv(b) && (input.Some? ==> Accepts(input.value))
    ensures b.out <= Loop(b, input).out && BoardInv(Loop(b, input))
  {
    var h, c := Taken(b, input), Loop(b, input);
    LoopKeepsCoherent(b, input);
    LoopPrints(b, input);
    AnswerIsResult(b, input);
    CompletionsAreResults(h.gates, c.gates, GATES);
    ResultsConcat(h.out[|b.out|..], Completions(h.gates, c.gates, GATES));
    ResultsConcat(b.out, h.out[|b.out|..] + Completions(h.gates, c.gates, GATES));
  }

  lemma PrintingKeepsUpLink(out: seq<Json>, more: seq<Json>, toHost: seq<Json>, arrived: seq<nat>, garbled: nat,
                            lossEnd: nat, received: seq<Message>)
    requires UpLink(out, toHost, arrived, garbled, lossEnd, received)
    ensures UpLink(out + more, toHost + more, arrived, garbled, lossEnd, received)
  {
  }

  lemma AllGatesUnderstood()
    ensures Understand(Dump(ALL_GATES)) == Query(ALL_GATES.payload.items) && Accepts(Dump(ALL_GATES))
  {
    var doc := Dump(ALL_GATES);
    assert Field(doc, "type") == Str("query_state") && Field(doc, "payload") == ALL_GATES.payload;
  }

  lemma AnswerToAllGates(b: Board)
    requires AllOk(b.gates) && AddressesGate(Dump(ALL_GATES))
    ensures var answer := ReportJson(Entries(b.gates, QueriedIds(ALL_GATES.payload.items)));
            b.out + [answer] <= Loop(b, Some(Dump(ALL_GATES))).out
  {
    AllGatesUnderstood();
    LoopOnlyAppends(b, Some(Dump(ALL_GATES)));
  }

  /** The board's answer to the query of add_session names every gate. */
  lemma AllGatesAreAnswered(b: Board, g: nat)
    requires AllOk(b.gates) && g < GATES && AddressesGate(Dump(ALL_GATES))
    ensures b.out <= Loop(b, Some(Dump(ALL_GATES))).out
    ensures Screen(Loop(b, Some(Dump(ALL_GATES))).out[|b.out|..], g).Some?
  {
    AnswerToAllGates(b);
    AllGatesQueried(g);
    var ids := QueriedIds(ALL_GATES.payload.items);
    var answer := [ReportJson(Entries(b.gates, ids))];
    ReportTells(b.gates, ids, g);
    assert Screen(answer, g).Some?;
    var out := Loop(b, Some(Dump(ALL_GATES))).out;
    assert answer <= out[|b.out|..];
    ScreenGrows(answer, out[|b.out|..], g);
  }

  lemma AllGatesQueried(g: nat)
    requires g < GATES
    ensures g in QueriedIds(ALL_GATES.payload.items)
  {
    assert ALL_GATES.payload.items[g] == Int(g);
    QueryNamesGate(ALL_GATES.payload.items, g);
  }

  lemma {:induction false} QueryNamesGate(items: seq<Json>, g: nat)
    requires Int(g) in items && g < GATES
    ensures g in QueriedIds(items)
  {
    var last := items[|items| - 1];
    if last != Int(g) {
      QueryNamesGate(items[..|items| - 1], g);
    }
  }

  lemma PrintingKeepsQuery(j: Join, start: nat, pushed: seq<Json>, out: seq<Json>, more: seq<Json>, handled: nat)
    requires QueryOf(j, start, pushed, out, handled)
    ensures QueryOf(j, start, pushed, out + more, handled)
  {
    if handled > j.query {
      assert (out + more)[start..] == out[start..] + more;
      forall g: nat | g < GATES ensures Screen((out + more)[start..], g).Some? {
        ScreenGrows(out[start..], out[start..] + more, g);
      }
    }
  }

  lemma HandlingKeepsQuery(j: Join, start: nat, pushed: seq<Json>, out: seq<Json>, more: seq<Json>,
                           handled: nat)
    requires QueryOf(j, start, pushed, out, handled) && handled < |pushed|
    requires pushed[handled] == Dump(ALL_GATES) ==> forall g: nat :: g < GATES ==> Screen(more, g).Some?
    ensures QueryOf(j, start, pushed, out + more, handled + 1)
  {
    PrintingKeepsQuery(j, start, pushed, out, more, handled);
    if handled == j.query {
      assert (out + more)[start..] == out[start..] + more;
      forall g: nat | g < GATES ensures Screen((out + more)[start..], g).Some? {
        ScreenConcat(out[start..], more, g);
      }
    }
  }

  lemma LoopKeepsQueries(w: World, reading: bool)
    requires Inv(w) && (reading ==> w.toBoard != [] && AddressesGate(w.toBoard[0]))
    ensures QueriesInv(w.bridge.joins, w.starts, w.bridge.messenger.out.pushed, RunBoard(w, reading).board.out,
                       RunBoard(w, reading).handled)
  {
    var v := RunBoard(w, reading);
    var pushed := w.bridge.messenger.out.pushed;
    var out := w.board.out;
    var input := if reading then Some(w.toBoard[0]) else None;
    LoopOnlyAppends(w.board, input);
    var more := v.board.out[|out|..];
    assert v.board.out == out + more;
    if reading {
      WrittenIsPushed(w.bridge.messenger.out, w.handled);
      if pushed[w.handled] == Dump(ALL_GATES) {
        forall g: nat | g < GATES ensures Screen(more, g).Some? {
          AllGatesAreAnswered(w.board, g);
        }
      }
    }
    var joins := w.bridge.joins;
    forall i | 0 <= i < |joins| ensures QueryOf(joins[i], w.starts[i], pushed, out + more, v.handled) {
      assert QueryOf(joins[i], w.starts[i], pushed, out, w.handled);
      if reading {
        HandlingKeepsQuery(joins[i], w.starts[i], pushed, out, more, w.handled);
      } else {
        PrintingKeepsQuery(joins[i], w.starts[i], pushed, out, more, w.handled);
      }
    }
  }

  /** The world after the board has printed `more` and taken the next command, if `reading`. */
  lemma PrintingKeepsInv(w: World, c: Board, more: seq<Json>, reading: bool, v: World)
    requires Inv(w) && BoardInv(c) && c.out == w.board.out + more && (reading ==> w.toBoard != [])
    requires v == w.(board := c, toHost := w.toHost + more,
                     toBoard := if reading then w.toBoard[1..] else w.toBoard,
                     handled := if reading then w.handled + 1 else w.handled)
    requires QueriesInv(w.bridge.joins, w.starts, w.bridge.messenger.out.pushed, c.out, v.handled)
    ensures Inv(v)
  {
    PrintingKeepsUpLink(w.board.out, more, w.toHost, w.arrived, w.garbled, w.lossEnd, w.bridge.messenger.received);
  }

  lemma NextIsAcceptable(w: World)
    requires Inv(w) && w.toBoard != []
    ensures Accepts(w.toBoard[0])
  {
    WrittenIsPushed(w.bridge.messenger.out, w.handled);
  }

  lemma BoardStepKeepsInv(w: World, reading: bool)
    requires Inv(w) && (reading ==> w.toBoard != [] && AddressesGate(w.toBoard[0]))
    ensures Inv(RunBoard(w, reading))
  {
    if reading {
      NextIsAcceptable(w);
    }
    var v := RunBoard(w, reading);
    LoopKeepsBoardInv(w.board, if reading then Some(w.toBoard[0]) else None);
    LoopKeepsQueries(w, reading);
    PrintingKeepsInv(w, v.board, v.board.out[|w.board.out|..], reading, v);
  }

  // -------------------------------------------------------- the messenger's steps

  lemma ReceiveKeepsMessengerInv(m: MessengerValue, broadcast: seq<Json>, message: Message)
    requires MessengerInv(m, broadcast) && message.kind == QueryStateResult
    ensures MessengerInv(m.(incoming := m.incoming + [message], received := m.received + [message]), broadcast)
  {
    assert DumpAll(m.received + [message]) == DumpAll(m.received) + [Dump(message)];
    assert DumpAll(m.incoming + [message]) == DumpAll(m.incoming) + [Dump(message)];
  }

  lemma ReceiveKeepsUpLink(out: seq<Json>, toHost: seq<Json>, arrived: seq<nat>, garbled: nat, lossEnd: nat,
                           received: seq<Message>, message: Message)
    requires UpLink(out, toHost, arrived, garbled, lossEnd, received) && toHost != []
    requires Dump(message) == toHost[0] && message.kind == QueryStateResult
    ensures UpLink(out, toHost[1..], arrived + [|arrived| + garbled], garbled, lossEnd, received + [message])
    ensures UpLink(out, toHost[1..], arrived, garbled + 1, |arrived| + garbled + 1, received)
  {
  }

  lemma ReceiveKeepsStarts(joins: seq<Join>, starts: seq<nat>, arrived: seq<nat>, place: nat)
    requires StartsInv(joins, starts, arrived)
    ensures StartsInv(joins, starts, arrived + [place])
  {
    forall i | 0 <= i < |joins| ensures StartOf(joins[i], starts[i], arrived + [place]) {
      assert StartOf(joins[i], starts[i], arrived);
    }
  }

  lemma ReceiveKeepsInv(w: World, message: Message)
    requires Inv(w) && w.toHost != [] && Dump(message) == w.toHost[0] && message.kind == QueryStateResult
    ensures var m := w.bridge.messenger;
            var received := m.(incoming := m.incoming + [message], received := m.received + [message]);
            Inv(WithMessenger(w, received).(toHost := w.toHost[1..], arrived := w.arrived + [|w.arrived| + w.garbled]))
  {
    var m := w.bridge.messenger;
    ReceiveKeepsMessengerInv(m, w.bridge.broadcast, message);
    ReceiveKeepsUpLink(w.board.out, w.toHost, w.arrived, w.garbled, w.lossEnd, m.received, message);
    ReceiveKeepsStarts(w.bridge.joins, w.starts, w.arrived, |w.arrived| + w.garbled);
  }

  lemma LossKeepsInv(w: World, message: Message)
    requires Inv(w) && w.toHost != [] && Dump(message) == w.toHost[0] && message.kind == QueryStateResult
    ensures Inv(w.(toHost := w.toHost[1..], garbled := w.garbled + 1, lossEnd := |w.arrived| + w.garbled + 1))
  {
    ReceiveKeepsUpLink(w.board.out, w.toHost, w.arrived, w.garbled, w.lossEnd, w.bridge.messenger.received, message);
  }

  lemma ArrivedIsReceived(w: World)
    requires w.bridge.messenger.reading > 0 && w.toHost != [] && IsResult(w.toHost[0])
    ensures var message := Parse(w.toHost[0]).message;
            var m := w.bridge.messenger;
            var received := m.(incoming := m.incoming + [message], received := m.received + [message]);
            && Dump(message) == w.toHost[0] && message.kind == QueryStateResult
            && Arrive(w) == WithMessenger(w, received).(toHost := w.toHost[1..],
                                                        arrived := w.arrived + [|w.arrived| + w.garbled])
  {
  }

  lemma DocumentReadKeepsInv(w: World)
    requires Inv(w) && w.bridge.messenger.reading > 0 && w.toHost != []
    ensures Inv(Arrive(w))
  {
    WaitingIsResult(w);
    ArrivedIsReceived(w);
    ReceiveKeepsInv(w, Parse(w.toHost[0]).message);
  }

  lemma DocumentGarbledKeepsInv(w: World)
    requires Inv(w) && w.bridge.messenger.reading > 0 && w.toHost != []
    ensures Inv(Lose(w))
  {
    WaitingIsResult(w);
    LossKeepsInv(w, Parse(w.toHost[0]).message);
    assert ReadDone(w.bridge.messenger, Bytes(None)) == w.bridge.messenger;
  }

  /** The down link when a write completes or a posted do_write runs: what was written joins the line. */
  lemma WrittenKeepsLinks(m: MessengerValue, broadcast: seq<Json>, toBoard: seq<Json>, handled: nat, out: Writer,
                          more: seq<Json>)
    requires MessengerInv(m, broadcast) && DownLink(m.out, toBoard, handled)
    requires WriterOk(out) && Tokens(out) + |out.failed| == 1
    requires out.pushed == m.out.pushed && out.written == m.out.written + more
    ensures MessengerInv(m.(out := out), broadcast) && DownLink(out, toBoard + more, handled)
  {
  }

  lemma SerialWriteKeepsInv(w: World, ok: bool)
    requires Inv(w) && w.bridge.messenger.out.writes != []
    ensures Inv(WriteEnds(w, ok))
  {
    var m := w.bridge.messenger;
    CompleteKeepsOk(m.out, ok, true);
    WrittenKeepsLinks(m, w.bridge.broadcast, w.toBoard, w.handled, Complete(m.out, ok, true),
                      if ok then Transmitted(m.out) else []);
  }

  lemma SerialPostedKeepsInv(w: World)
    requires Inv(w) && w.bridge.messenger.out.posted > 0
    ensures Inv(PostedRuns(w))
  {
    var m := w.bridge.messenger;
    RunPostedKeepsOk(m.out);
    WrittenKeepsLinks(m, w.bridge.broadcast, w.toBoard, w.handled, RunPosted(m.out), []);
    assert w.toBoard + [] == w.toBoard;
  }

  lemma SendKeepsMessengerInv(m: MessengerValue, broadcast: seq<Json>, message: Message)
    requires MessengerInv(m, broadcast)
    ensures MessengerInv(Send(m, message), broadcast)
  {
    PushKeepsOk(m.out, Dump(message));
  }

  lemma SendKeepsDownLink(out: Writer, toBoard: seq<Json>, handled: nat, c: Json)
    requires DownLink(out, toBoard, handled) && Accepts(c)
    ensures DownLink(Push(out, c), toBoard, handled)
  {
  }

  lemma SendKeepsQueries(joins: seq<Join>, starts: seq<nat>, pushed: seq<Json>, c: Json, out: seq<Json>, handled: nat)
    requires QueriesInv(joins, starts, pushed, out, handled)
    ensures QueriesInv(joins, starts, pushed + [c], out, handled)
  {
    forall i | 0 <= i < |joins| ensures QueryOf(joins[i], starts[i], pushed + [c], out, handled) {
      assert QueryOf(joins[i], starts[i], pushed, out, handled);
    }
  }

  // ---------------------------------------------------------- the sessions' steps

  /** A handler of a session leaves its stream alone and cannot revive it. */
  lemma HandlerKeepsSessions(sessions: seq<SessionValue>, list: seq<nat>, joins: seq<Join>, broadcast: seq<Json>,
                             i: nat, s: SessionValue)
    requires SessionsInv(sessions, list, joins, broadcast) && i < |sessions|
    requires Alive(sessions[i]) && SessionInv(s) && s.out.pushed == sessions[i].out.pushed
    ensures SessionsInv(sessions[i := s], list, joins, broadcast)
  {
    assert StreamOf(sessions[i], joins[i].at, broadcast);
    assert StreamOf(s, joins[i].at, broadcast);
    assert i in list;
  }

  lemma SameTextsKeepOrigins(origins: seq<Origin>, pushed: seq<Json>, sessions: seq<SessionValue>,
                             after: seq<SessionValue>)
    requires OriginsInv(origins, pushed, sessions) && |after| == |sessions|
    requires forall i :: 0 <= i < |after| ==>
               after[i].inbox == sessions[i].inbox && after[i].permissions == sessions[i].permissions
    ensures OriginsInv(origins, pushed, after)
  {
    forall k | 0 <= k < |pushed| ensures Explains(origins[k], pushed[k], after) {
      assert Explains(origins[k], pushed[k], sessions);
    }
    forall j: nat, n: nat | j < |after| && n < |after[j].inbox| ensures SentOn(origins, after, j, n) {
      assert SentOn(origins, sessions, j, n);
    }
  }

  lemma HandlerKeepsOrigins(origins: seq<Origin>, pushed: seq<Json>, sessions: seq<SessionValue>, i: nat,
                            s: SessionValue)
    requires OriginsInv(origins, pushed, sessions) && i < |sessions|
    requires s.inbox == sessions[i].inbox && s.permissions == sessions[i].permissions
    ensures OriginsInv(origins, pushed, sessions[i := s])
  {
    SameTextsKeepOrigins(origins, pushed, sessions, sessions[i := s]);
  }

  lemma SessionStepKeepsInv(w: World, i: nat, s: SessionValue)
    requires Inv(w) && i < |w.bridge.sessions| && Alive(w.bridge.sessions[i]) && SessionInv(s)
    requires SameLogs(w.bridge.sessions[i], s)
    ensures Inv(Systems.WithSession(w, i, s))
  {
    var b := w.bridge;
    HandlerKeepsSessions(b.sessions, b.list, b.joins, b.broadcast, i, s);
    HandlerKeepsOrigins(w.origins, b.messenger.out.pushed, b.sessions, i, s);
  }

  /** What the handlers of a session other than that of a text leave alone. */
  predicate SameLogs(s: SessionValue, t: SessionValue) {
    t.out.pushed == s.out.pushed && t.inbox == s.inbox && t.permissions == s.permissions
  }

  lemma AcceptKeepsSession(s: SessionValue, ok: bool)
    requires SessionInv(s) && s.accepting > 0
    ensures SessionInv(Accepted(s, ok)) && SameLogs(s, Accepted(s, ok)) && Alive(s)
  {
    DoWriteKeepsOk(s.out);
  }

  lemma WriteKeepsSession(s: SessionValue, ok: bool)
    requires SessionInv(s) && s.out.writes != []
    ensures SessionInv(Wrote(s, ok)) && SameLogs(s, Wrote(s, ok)) && Alive(s)
  {
    CompleteKeepsOk(s.out, ok, false);
  }

  lemma PostedKeepsSession(s: SessionValue)
    requires SessionInv(s) && s.out.posted > 0
    ensures SessionInv(RanPosted(s)) && SameLogs(s, RanPosted(s)) && Alive(s)
  {
    RunPostedKeepsOk(s.out);
  }

  lemma AcceptKeepsInv(w: World, i: nat, ok: bool)
    requires Inv(w) && i < |w.bridge.sessions| && w.bridge.sessions[i].accepting > 0
    ensures Inv(Systems.WithSession(w, i, Accepted(w.bridge.sessions[i], ok)))
  {
    AcceptKeepsSession(w.bridge.sessions[i], ok);
    SessionStepKeepsInv(w, i, Accepted(w.bridge.sessions[i], ok));
  }

  lemma ClientWriteKeepsInv(w: World, i: nat, ok: bool)
    requires Inv(w) && i < |w.bridge.sessions| && w.bridge.sessions[i].out.writes != []
    ensures Inv(Systems.WithSession(w, i, Wrote(w.bridge.sessions[i], ok)))
  {
    WriteKeepsSession(w.bridge.sessions[i], ok);
    SessionStepKeepsInv(w, i, Wrote(w.bridge.sessions[i], ok));
  }

  lemma ClientPostedKeepsInv(w: World, i: nat)
    requires Inv(w) && i < |w.bridge.sessions| && w.bridge.sessions[i].out.posted > 0
    ensures Inv(Systems.WithSession(w, i, RanPosted(w.bridge.sessions[i])))
  {
    PostedKeepsSession(w.bridge.sessions[i]);
    SessionStepKeepsInv(w, i, RanPosted(w.bridge.sessions[i]));
  }

  /** `t` is session `s` with one more text in its inbox. */
  predicate OneMoreText(s: SessionValue, t: SessionValue, doc: Option<Json>) {
    t.inbox == s.inbox + [doc] && t.permissions == s.permissions
  }

  /** The origins of what was sent stay explained, and are of earlier texts. */
  lemma TextKeepsExplained(origins: seq<Origin>, pushed: seq<Json>, sessions: seq<SessionValue>, i: nat,
                           t: SessionValue, doc: Option<Json>, k: nat)
    requires OriginsInv(origins, pushed, sessions) && i < |sessions| && OneMoreText(sessions[i], t, doc)
    requires k < |pushed|
    ensures Explains(origins[k], pushed[k], sessions[i := t])
    ensures origins[k].FromClient? && origins[k].session == i ==> origins[k].place < |sessions[i].inbox|
  {
    assert Explains(origins[k], pushed[k], sessions);
  }

  lemma UnsentTextKeepsOrigins(origins: seq<Origin>, pushed: seq<Json>, sessions: seq<SessionValue>, i: nat,
                               t: SessionValue, doc: Option<Json>)
    requires OriginsInv(origins, pushed, sessions) && i < |sessions| && OneMoreText(sessions[i], t, doc)
    requires Forwarded(t.permissions, doc) == []
    ensures OriginsInv(origins, pushed, sessions[i := t])
  {
    var after := sessions[i := t];
    forall k: nat | k < |pushed| ensures Explains(origins[k], pushed[k], after) {
      TextKeepsExplained(origins, pushed, sessions, i, t, doc, k);
    }
    forall j: nat, n: nat | j < |after| && n < |after[j].inbox| ensures SentOn(origins, after, j, n) {
      if j != i || n < |sessions[i].inbox| {
        assert SentOn(origins, sessions, j, n);
      }
    }
  }

  lemma SentTextKeepsOrigins(origins: seq<Origin>, pushed: seq<Json>, sessions: seq<SessionValue>, i: nat,
                             t: SessionValue, doc: Option<Json>, sent: Message)
    requires OriginsInv(origins, pushed, sessions) && i < |sessions| && OneMoreText(sessions[i], t, doc)
    requires Forwarded(t.permissions, doc) == [sent]
    ensures OriginsInv(origins + [FromClient(i, |sessions[i].inbox|)], pushed + [Dump(sent)], sessions[i := t])
  {
    var after := sessions[i := t];
    var added := FromClient(i, |sessions[i].inbox|);
    forall k: nat | k < |pushed|
      ensures Explains(origins[k], pushed[k], after)
      ensures origins[k].FromClient? && origins[k].session == i ==> origins[k].place < added.place
    {
      TextKeepsExplained(origins, pushed, sessions, i, t, doc, k);
    }
    forall j: nat, n: nat | j < |after| && n < |after[j].inbox| ensures SentOn(origins + [added], after, j, n) {
      if j != i || n < |sessions[i].inbox| {
        assert SentOn(origins, sessions, j, n);
      }
    }
  }

  lemma ReadKeepsSession(s: SessionValue, what: ClientRead)
    requires SessionInv(s) && s.reading > 0
    ensures SessionInv(HasRead(s, what)) && HasRead(s, what).out == s.out && Alive(s)
    ensures HasRead(s, what).permissions == s.permissions
    ensures HasRead(s, what).inbox == if what.Words? then s.inbox + [what.doc] else s.inbox
  {
  }

  /** A text that is not passed on changes only its session. */
  lemma UnsentTextKeepsInv(w: World, i: nat, what: ClientRead)
    requires Inv(w) && i < |w.bridge.sessions| && w.bridge.sessions[i].reading > 0
    requires what.Words? ==> Forwarded(w.bridge.sessions[i].permissions, what.doc) == []
    ensures Inv(Systems.WithSession(w, i, HasRead(w.bridge.sessions[i], what)))
  {
    var b := w.bridge;
    var s := b.sessions[i];
    ReadKeepsSession(s, what);
    HandlerKeepsSessions(b.sessions, b.list, b.joins, b.broadcast, i, HasRead(s, what));
    if what.Words? {
      UnsentTextKeepsOrigins(w.origins, b.messenger.out.pushed, b.sessions, i, HasRead(s, what), what.doc);
    } else {
      HandlerKeepsOrigins(w.origins, b.messenger.out.pushed, b.sessions, i, HasRead(s, what));
    }
  }

  /** The world with another messenger, session and log of origins. */
  lemma PartsKeepInv(w: World, m: MessengerValue, i: nat, t: SessionValue, origins: seq<Origin>)
    requires Inv(w) && i < |w.bridge.sessions|
    requires MessengerInv(m, w.bridge.broadcast) && m.received == w.bridge.messenger.received
    requires SessionsInv(w.bridge.sessions[i := t], w.bridge.list, w.bridge.joins, w.bridge.broadcast)
    requires DownLink(m.out, w.toBoard, w.handled) && OriginsInv(origins, m.out.pushed, w.bridge.sessions[i := t])
    requires QueriesInv(w.bridge.joins, w.starts, m.out.pushed, w.board.out, w.handled)
    ensures Inv(Systems.WithSession(WithMessenger(w, m), i, t).(origins := origins))
  {
  }

  lemma SentTextKeepsInv(w: World, i: nat, doc: Option<Json>, sent: Message)
    requires Inv(w) && i < |w.bridge.sessions| && w.bridge.sessions[i].reading > 0 && Accepts(Dump(sent))
    requires Forwarded(w.bridge.sessions[i].permissions, doc) == [sent]
    ensures var s := w.bridge.sessions[i];
            Inv(Systems.WithSession(WithMessenger(w, Send(w.bridge.messenger, sent)), i, HasRead(s, Words(doc))).(
                  origins := w.origins + [FromClient(i, |s.inbox|)]))
  {
    var b := w.bridge;
    var s := b.sessions[i];
    var t := HasRead(s, Words(doc));
    ReadKeepsSession(s, Words(doc));
    HandlerKeepsSessions(b.sessions, b.list, b.joins, b.broadcast, i, t);
    SentTextKeepsOrigins(w.origins, b.messenger.out.pushed, b.sessions, i, t, doc, sent);
    SendKeepsMessengerInv(b.messenger, b.broadcast, sent);
    SendKeepsDownLink(b.messenger.out, w.toBoard, w.handled, Dump(sent));
    SendKeepsQueries(b.joins, w.starts, b.messenger.out.pushed, Dump(sent), w.board.out, w.handled);
    PartsKeepInv(w, Send(b.messenger, sent), i, t, w.origins + [FromClient(i, |s.inbox|)]);
  }

  lemma TextKeepsInv(w: World, i: nat, what: ClientRead)
    requires Inv(w) && i < |w.bridge.sessions| && w.bridge.sessions[i].reading > 0
    requires GoodText(w.bridge.sessions[i].permissions, what)
    ensures Inv(ReadText(w, i, what))
  {
    var s := w.bridge.sessions[i];
    if what.Words? && Forwarded(s.permissions, what.doc) != [] {
      SentTextKeepsInv(w, i, what.doc, Forwarded(s.permissions, what.doc)[0]);
    } else {
      UnsentTextKeepsInv(w, i, what);
    }
  }

  // ---------------------------------------------------- the shared state's steps

  lemma JoinKeepsSessions(b: Bridge, s: SessionValue, query: nat)
    requires SessionsInv(b.sessions, b.list, b.joins, b.broadcast) && SessionInv(s) && s.out.pushed == []
    ensures SessionsInv(b.sessions + [s], b.list + [|b.sessions|], b.joins + [Join(|b.broadcast|, query)], b.broadcast)
  {
    var sessions, list := b.sessions + [s], b.list + [|b.sessions|];
    var joins := b.joins + [Join(|b.broadcast|, query)];
    forall i: nat | i < |sessions|
      ensures SessionInv(sessions[i]) && StreamOf(sessions[i], joins[i].at, b.broadcast)
      ensures Alive(sessions[i]) ==> i in list
    {
      if i < |b.sessions| {
        assert SessionInv(b.sessions[i]) && StreamOf(b.sessions[i], b.joins[i].at, b.broadcast);
        assert Alive(b.sessions[i]) ==> i in b.list;
      } else {
        assert list[|b.list|] == i;
      }
    }
  }

  lemma JoinKeepsOrigins(origins: seq<Origin>, pushed: seq<Json>, sessions: seq<SessionValue>, s: SessionValue)
    requires OriginsInv(origins, pushed, sessions) && s.inbox == []
    ensures OriginsInv(origins + [FromJoin(|sessions|)], pushed + [Dump(ALL_GATES)], sessions + [s])
  {
    var after := sessions + [s];
    forall k | 0 <= k < |pushed|
      ensures Explains(origins[k], pushed[k], after) && origins[k] != FromJoin(|sessions|)
    {
      assert Explains(origins[k], pushed[k], sessions);
    }
    var all := origins + [FromJoin(|sessions|)];
    forall j: nat, n: nat | j < |after| && n < |after[j].inbox| ensures SentOn(all, after, j, n) {
      assert SentOn(origins, sessions, j, n);
    }
  }

  lemma JoinKeepsStarts(w: World)
    requires Inv(w)
    ensures var b := w.bridge;
            var pushed := b.messenger.out.pushed;
            var joins, starts := b.joins + [Join(|b.broadcast|, |pushed|)], w.starts + [|w.board.out|];
            && QueriesInv(joins, starts, pushed + [Dump(ALL_GATES)], w.board.out, w.handled)
            && StartsInv(joins, starts, w.arrived)
  {
    var b := w.bridge;
    var pushed := b.messenger.out.pushed;
    var j := Join(|b.broadcast|, |pushed|);
    SendKeepsQueries(b.joins, w.starts, pushed, Dump(ALL_GATES), w.board.out, w.handled);
    assert |b.broadcast| <= |DumpAll(b.messenger.received)|;
    assert QueryOf(j, |w.board.out|, pushed + [Dump(ALL_GATES)], w.board.out, w.handled);
    assert StartOf(j, |w.board.out|, w.arrived);
  }

  lemma ConnectKeepsInv(w: World, auth: Option<Permission>)
    requires Inv(w)
    ensures Inv(Joined(w, auth))
  {
    var b := w.bridge;
    var m := b.messenger;
    var s := Accepting(FRESH, auth);
    AllGatesUnderstood();
    JoinKeepsSessions(b, s, |m.out.pushed|);
    JoinKeepsOrigins(w.origins, m.out.pushed, b.sessions, s);
    SendKeepsMessengerInv(m, b.broadcast, ALL_GATES);
    SendKeepsDownLink(m.out, w.toBoard, w.handled, Dump(ALL_GATES));
    JoinKeepsStarts(w);
  }

  lemma {:induction false} KeptMembers(sessions: seq<SessionValue>, list: seq<nat>)
    requires Places(sessions, list) && NoDuplicates(list)
    ensures forall i :: i in Kept(sessions, list) <==> i in list && Alive(sessions[i])
    ensures NoDuplicates(Kept(sessions, list))
  {
    if list != [] {
      var rest := list[..|list| - 1];
      assert list == rest + [list[|list| - 1]];
      KeptMembers(sessions, rest);
    }
  }

  /** The broadcast queues the text exactly once for each living session of the list. */
  lemma {:induction false} QueueAllQueuesOnce(sessions: seq<SessionValue>, list: seq<nat>, text: Json, i: nat)
    requires Places(sessions, list) && NoDuplicates(list) && i < |sessions|
    ensures QueueAll(sessions, list, text)[i] ==
            if i in list && Alive(sessions[i]) then Queue(sessions[i], text) else sessions[i]
  {
    if list != [] {
      var rest := list[..|list| - 1];
      assert list == rest + [list[|list| - 1]];
      QueueAllQueuesOnce(sessions, rest, text, i);
    }
  }

  lemma BroadcastKeepsSession(s: SessionValue, at: nat, broadcast: seq<Json>, text: Json)
    requires SessionInv(s) && StreamOf(s, at, broadcast)
    ensures var t := if Alive(s) then Queue(s, text) else s;
            SessionInv(t) && StreamOf(t, at, broadcast + [text]) && Alive(t) == Alive(s)
  {
    PushKeepsOk(s.out, text);
  }

  lemma UpdateKeepsSessions(b: Bridge, text: Json)
    requires SessionsInv(b.sessions, b.list, b.joins, b.broadcast)
    ensures SessionsInv(QueueAll(b.sessions, Kept(b.sessions, b.list), text), Kept(b.sessions, b.list), b.joins,
                        b.broadcast + [text])
    ensures SessionsInv(b.sessions, Kept(b.sessions, b.list), b.joins, b.broadcast)
  {
    var kept := Kept(b.sessions, b.list);
    KeptMembers(b.sessions, b.list);
    var after := QueueAll(b.sessions, kept, text);
    forall i: nat | i < |b.sessions|
      ensures SessionInv(after[i]) && StreamOf(after[i], b.joins[i].at, b.broadcast + [text])
      ensures Alive(after[i]) ==> i in kept
    {
      QueueAllQueuesOnce(b.sessions, kept, text, i);
      BroadcastKeepsSession(b.sessions[i], b.joins[i].at, b.broadcast, text);
    }
  }

  lemma UpdateKeepsOrigins(origins: seq<Origin>, pushed: seq<Json>, sessions: seq<SessionValue>, text: Json,
                           list: seq<nat>)
    requires OriginsInv(origins, pushed, sessions) && Places(sessions, list) && NoDuplicates(list)
    ensures OriginsInv(origins, pushed, QueueAll(sessions, list, text))
  {
    var after := QueueAll(sessions, list, text);
    forall i: nat | i < |after|
      ensures after[i].inbox == sessions[i].inbox && after[i].permissions == sessions[i].permissions
    {
      QueueAllQueuesOnce(sessions, list, text, i);
    }
    SameTextsKeepOrigins(origins, pushed, sessions, after);
  }

  lemma DumpsFirst(q: seq<Message>)
    requires q != []
    ensures DumpAll(q) == [Dump(q[0])] + DumpAll(q[1..])
  {
  }

  lemma PopKeepsMessengerInv(m: MessengerValue, broadcast: seq<Json>)
    requires MessengerInv(m, broadcast) && m.incoming != []
    ensures MessengerInv(m.(incoming := m.incoming[1..]), broadcast + [Dump(m.incoming[0])])
  {
    DumpsFirst(m.incoming);
    var first, rest := [Dump(m.incoming[0])], DumpAll(m.incoming[1..]);
    assert broadcast + (first + rest) == broadcast + first + rest;
  }

  lemma UpdateKeepsInv(w: World)
    requires Inv(w)
    ensures Inv(w.(bridge := Updated(w.bridge)))
  {
    var b := w.bridge;
    if b.list != [] {
      KeptMembers(b.sessions, b.list);
      match Deliverable(b.messenger)
      case None => UpdateKeepsSessions(b, Null);
      case Some(text) =>
        UpdateKeepsSessions(b, text);
        UpdateKeepsOrigins(w.origins, b.messenger.out.pushed, b.sessions, text, Kept(b.sessions, b.list));
        PopKeepsMessengerInv(b.messenger, b.broadcast);
    }
  }

  // ------------------------------------------------------------------- all runs

  lemma EmptyReadKeepsInv(w: World, what: SerialRead)
    requires Inv(w) && w.bridge.messenger.reading > 0 && (what.Failed? || what.Nothing?)
    ensures Inv(ReadNothing(w, what))
  {
  }

  lemma SerialStepKeepsInv(w: World, e: Event)
    requires Inv(w) && Enabled(w, e)
    requires e.DocumentRead? || e.DocumentGarbled? || e.EmptyRead? || e.SerialError?
             || e.SerialWrite? || e.SerialPosted?
    ensures Inv(Step(w, e))
  {
    match e
    case DocumentRead => DocumentReadKeepsInv(w);
    case DocumentGarbled => DocumentGarbledKeepsInv(w);
    case EmptyRead => EmptyReadKeepsInv(w, Nothing);
    case SerialError => EmptyReadKeepsInv(w, SerialRead.Failed);
    case SerialWrite(ok) => SerialWriteKeepsInv(w, ok);
    case SerialPosted => SerialPostedKeepsInv(w);
  }

  lemma TextStepKeepsInv(w: World, i: nat, what: ClientRead)
    requires Inv(w) && Enabled(w, ClientText(i, what))
    ensures Inv(Step(w, ClientText(i, what)))
  {
    TextKeepsInv(w, i, what);
  }

  lemma AcceptStepKeepsInv(w: World, i: nat, ok: bool)
    requires Inv(w) && Enabled(w, ClientAccept(i, ok))
    ensures Inv(Step(w, ClientAccept(i, ok)))
  {
    AcceptKeepsInv(w, i, ok);
  }

  lemma WriterStepKeepsInv(w: World, e: Event)
    requires Inv(w) && Enabled(w, e) && (e.ClientWrite? || e.ClientPosted?)
    ensures Inv(Step(w, e))
  {
    match e
    case ClientWrite(i, ok) => ClientWriteKeepsInv(w, i, ok);
    case ClientPosted(i) => ClientPostedKeepsInv(w, i);
  }

  lemma StepKeepsInv(w: World, e: Event)
    requires Inv(w) && Enabled(w, e)
    ensures Inv(Step(w, e))
  {
    if e.BoardLoop? {
      BoardStepKeepsInv(w, e.reading);
    } else if e.Connect? {
      ConnectKeepsInv(w, e.auth);
    } else if e.UpdateCall? {
      UpdateKeepsInv(w);
    } else if e.ClientText? {
      TextStepKeepsInv(w, e.i, e.what);
    } else if e.ClientAccept? {
      AcceptStepKeepsInv(w, e.i, e.ok);
    } else if e.ClientWrite? || e.ClientPosted? {
      WriterStepKeepsInv(w, e);
    } else {
      SerialStepKeepsInv(w, e);
    }
  }

  lemma {:induction false} RunKeepsInv(w: World, es: seq<Event>)
    requires Inv(w) && Runs(w, es)
    ensures Inv(After(w, es))
    decreases |es|
  {
    if es != [] {
      StepKeepsInv(w, es[0]);
      RunKeepsInv(Step(w, es[0]), es[1..]);
    }
  }
}
