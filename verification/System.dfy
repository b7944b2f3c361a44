/** The whole system: the board, the serial line in both directions, the messenger and the sessions. Every handler
    is one atomic step; the order in which handlers run is arbitrary. */
module Systems {
  import opened Prelude
  import opened Json
  import opened Permissions
  import opened Gates
  import opened Sketches
  import opened SketchRuns
  import opened Writers
  import opened Messengers
  import opened WebsocketSessions
  import opened CommonStates

  /** Why a message was sent to the messenger: the n-th text of a client, or the addition of a session. */
  datatype Origin = FromClient(session: nat, place: nat) | FromJoin(session: nat)

  /** `toHost` and `toBoard` are the documents on the serial line. The other fields are logs: `arrived` the places
      in board.out of the documents the messenger read, `garbled` how many were lost on the line, `lossEnd` a place
      from which on none was lost, `handled` how many commands the board has taken, `origins` where the messages
      sent to the messenger came from, and `starts` how much was printed when each session was added. */
  datatype World = World(
    board: Board, bridge: Bridge, toHost: seq<Json>, toBoard: seq<Json>,
    arrived: seq<nat>, garbled: nat, lossEnd: nat, handled: nat, origins: seq<Origin>, starts: seq<nat>)

  datatype Event =
    | BoardLoop(reading: bool)                    // one pass of loop(), with the waiting command or without
    | DocumentRead | DocumentGarbled | EmptyRead | SerialError
    | SerialWrite(ok: bool) | SerialPosted
    | Connect(auth: Option<Permission>)           // an upgraded request: do_accept, then add_session
    | ClientAccept(i: nat, ok: bool) | ClientText(i: nat, what: ClientRead)
    | ClientWrite(i: nat, ok: bool) | ClientPosted(i: nat)
    | UpdateCall

  function Initial(round: Rounding): World {
    World(InitialBoard(round), Bridge(Started(UNSTARTED), [], [], [], []), [], [], [], 0, 0, 0, [], [])
  }

  /** The commands the board carries out without an error document and without leaving its array of gates. */
  predicate Accepts(doc: Json) {
    Understand(doc).Query? || (Understand(doc).Change? && Understand(doc).id < GATES)
  }

  /** What the model assumes of a client: its text has a known message type, and what is passed on of it is a
      command for an existing gate. */
  predicate GoodText(p: Permission, what: ClientRead) {
    what.Words? && p == Control ==>
      Decodable(what.doc) && forall m :: m in Forwarded(p, what.doc) ==> Accepts(Dump(m))
  }

  predicate Possible(w: World, e: Event) {
    var m := w.bridge.messenger;
    match e
    case BoardLoop(reading) => reading ==> w.toBoard != []
    case DocumentRead => m.reading > 0 && w.toHost != []
    case DocumentGarbled => m.reading > 0 && w.toHost != []
    case EmptyRead => m.reading > 0
    case SerialError => m.reading > 0
    case SerialWrite(_) => m.out.writes != []
    case SerialPosted => m.out.posted > 0
    case Connect(_) => true
    case ClientAccept(i, _) => i < |w.bridge.sessions| && w.bridge.sessions[i].accepting > 0
    case ClientText(i, what) =>
      i < |w.bridge.sessions| && w.bridge.sessions[i].reading > 0 && GoodText(w.bridge.sessions[i].permissions, what)
    case ClientWrite(i, _) => i < |w.bridge.sessions| && w.bridge.sessions[i].out.writes != []
    case ClientPosted(i) => i < |w.bridge.sessions| && w.bridge.sessions[i].out.posted > 0
    case UpdateCall => true
  }

  /** The handler of the event has defined behaviour; Convergence.NothingIsUndefined shows why this never fails. */
  predicate Defined(w: World, e: Event) {
    && AllOk(w.board.gates) && Listed(w.bridge)
    && (e == BoardLoop(true) && w.toBoard != [] ==> AddressesGate(w.toBoard[0]))
    && (e.DocumentRead? && w.toHost != [] ==> !Parse(w.toHost[0]).NoKind?)
  }

  predicate Enabled(w: World, e: Event) {
    Possible(w, e) && Defined(w, e)
  }

  function WithMessenger(w: World, m: MessengerValue): World {
    w.(bridge := w.bridge.(messenger := m))
  }

  function WithSession(w: World, i: nat, s: SessionValue): World
    requires i < |w.bridge.sessions|
  {
    w.(bridge := w.bridge.(sessions := w.bridge.sessions[i := s]))
  }

  /** One pass of loop(); what it prints goes to the line. */
  function RunBoard(w: World, reading: bool): World
    requires AllOk(w.board.gates) && (reading ==> w.toBoard != [] && AddressesGate(w.toBoard[0]))
  {
    var input := if reading then Some(w.toBoard[0]) else None;
    var b := Loop(w.board, input);
    LoopOnlyAppends(w.board, input);
    w.(board := b,
       toHost := w.toHost + b.out[|w.board.out|..],
       toBoard := if reading then w.toBoard[1..] else w.toBoard,
       handled := if reading then w.handled + 1 else w.handled)
  }

  /** The next document on the line reaches the messenger. */
  function Arrive(w: World): World
    requires w.bridge.messenger.reading > 0 && w.toHost != []
  {
    WithMessenger(w, ReadDone(w.bridge.messenger, Bytes(Some(w.toHost[0])))).(
      toHost := w.toHost[1..], arrived := w.arrived + [|w.arrived| + w.garbled])
  }

  /** It reaches the messenger damaged. */
  function Lose(w: World): World
    requires w.bridge.messenger.reading > 0 && w.toHost != []
  {
    WithMessenger(w, ReadDone(w.bridge.messenger, Bytes(None))).(
      toHost := w.toHost[1..], garbled := w.garbled + 1, lossEnd := |w.arrived| + w.garbled + 1)
  }

  /** A read ends without a document. */
  function ReadNothing(w: World, what: SerialRead): World
    requires w.bridge.messenger.reading > 0
  {
    WithMessenger(w, ReadDone(w.bridge.messenger, what))
  }

  /** A write to the board completes; after success the command is on the line. */
  function WriteEnds(w: World, ok: bool): World
    requires w.bridge.messenger.out.writes != []
  {
    var m := w.bridge.messenger;
    WithMessenger(w, m.(out := Complete(m.out, ok, true))).(
      toBoard := w.toBoard + if ok then Transmitted(m.out) else [])
  }

  function PostedRuns(w: World): World
    requires w.bridge.messenger.out.posted > 0
  {
    WithMessenger(w, w.bridge.messenger.(out := RunPosted(w.bridge.messenger.out)))
  }

  /** An upgraded request: do_accept, then add_session. */
  function Joined(w: World, auth: Option<Permission>): World {
    w.(bridge := CommonStates.WithSession(w.bridge, Accepting(FRESH, auth)),
       origins := w.origins + [FromJoin(|w.bridge.sessions|)], starts := w.starts + [|w.board.out|])
  }

  function Wrote(s: SessionValue, ok: bool): SessionValue
    requires s.out.writes != []
  {
    s.(out := Complete(s.out, ok, false))
  }

  function RanPosted(s: SessionValue): SessionValue
    requires s.out.posted > 0
  {
    s.(out := RunPosted(s.out))
  }

  /** A text is read, and forwarded if it is to be. */
  function ReadText(w: World, i: nat, what: ClientRead): World
    requires i < |w.bridge.sessions| && w.bridge.sessions[i].reading > 0
  {
    var s := w.bridge.sessions[i];
    var v := WithSession(WithMessenger(w, Forward(w.bridge.messenger, s.permissions, what)), i, HasRead(s, what));
    if what.Words? && Forwarded(s.permissions, what.doc) != []
    then v.(origins := w.origins + [FromClient(i, |s.inbox|)]) else v
  }

  function Step(w: World, e: Event): World
    requires Enabled(w, e)
  {
    match e
    case BoardLoop(reading) => RunBoard(w, reading)
    case DocumentRead => Arrive(w)
    case DocumentGarbled => Lose(w)
    case EmptyRead => ReadNothing(w, Nothing)
    case SerialError => ReadNothing(w, SerialRead.Failed)
    case SerialWrite(ok) => WriteEnds(w, ok)
    case SerialPosted => PostedRuns(w)
    case Connect(auth) => Joined(w, auth)
    case ClientAccept(i, ok) => WithSession(w, i, Accepted(w.bridge.sessions[i], ok))
    case ClientText(i, what) => ReadText(w, i, what)
    case ClientWrite(i, ok) => WithSession(w, i, Wrote(w.bridge.sessions[i], ok))
    case ClientPosted(i) => WithSession(w, i, RanPosted(w.bridge.sessions[i]))
    case UpdateCall => w.(bridge := Updated(w.bridge))
  }

  /** `es` is a run of the system from `w`. */
  predicate Runs(w: World, es: seq<Event>)
    decreases |es|
  {
    es == [] || (Enabled(w, es[0]) && Runs(Step(w, es[0]), es[1..]))
  }

  function After(w: World, es: seq<Event>): World
    requires Runs(w, es)
    decreases |es|
  {
    if es == [] then w else After(Step(w, es[0]), es[1..])
  }
}
