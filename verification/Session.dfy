/** A WebSocket session: it queues reports for one client and forwards the commands of clients with Control. */
module WebsocketSessions {
  import opened Prelude
  import opened Json
  import opened Permissions
  import opened Writers
  import opened Messengers

  /** How reading one client message ends. Text that is not a JSON document is None. */
  datatype ClientRead = Closed | Broken | Binary | Words(doc: Option<Json>)

  /** `accepting` and `reading` count operations outstanding; `inbox` logs every text received from the client, and
      `started` that on_accept has started the writer loop. */
  datatype SessionValue = SessionValue(
    permissions: Permission, accepting: nat, reading: nat, out: Writer, inbox: seq<Option<Json>>, started: bool)

  const FRESH := SessionValue(Blocked, 0, 0, IDLE, [], false)

  /** Only outstanding handlers hold the session: without any, the weak references to it have expired. */
  predicate Alive(s: SessionValue) {
    s.accepting + s.reading + Tokens(s.out) > 0
  }

  /** do_accept; `auth` is the permission that get_auth found for the request. */
  function Accepting(s: SessionValue, auth: Option<Permission>): SessionValue {
    if auth == None || auth.value == Blocked then s
    else s.(permissions := auth.value, accepting := s.accepting + 1)
  }

  function Accepted(s: SessionValue, ok: bool): SessionValue
    requires s.accepting > 0
  {
    var t := s.(accepting := s.accepting - 1);
    if ok then t.(reading := t.reading + 1, out := DoWrite(t.out), started := true) else t
  }

  function Queue(s: SessionValue, text: Json): SessionValue {
    s.(out := Push(s.out, text))
  }

  /** The commands of a text that are passed on: for Control only, and only queries and changes. */
  function Forwarded(p: Permission, doc: Option<Json>): seq<Message> {
    if p == Control && doc.Some? && Parse(doc.value).Parsed? &&
       (Parse(doc.value).message.kind == QueryState || Parse(doc.value).message.kind == ChangeState)
    then [Parse(doc.value).message] else []
  }

  function HasRead(s: SessionValue, what: ClientRead): SessionValue
    requires s.reading > 0
  {
    match what
    case Closed => s.(reading := s.reading - 1)
    case Broken => s.(reading := s.reading - 1)
    case Binary => s
    case Words(doc) => s.(inbox := s.inbox + [doc])
  }

  function Forward(m: MessengerValue, p: Permission, what: ClientRead): MessengerValue {
    if what.Words? && Forwarded(p, what.doc) != [] then Send(m, Forwarded(p, what.doc)[0]) else m
  }

  class WebsocketSession {
    const arduinoConnection: Messenger
    var permissions: Permission
    var writeQueue: seq<Json>
    var writeBuffer: Option<Json>
    // operations outstanding at the executor
    var accepting: nat
    var reading: nat
    var writes: seq<Json>
    var posted: nat
    // logs
    ghost var inbox: seq<Option<Json>>
    ghost var started: bool
    ghost var pushed: seq<Json>
    ghost var written: seq<Json>
    ghost var failed: seq<Json>

    ghost function Value(): SessionValue
      reads this
    {
      SessionValue(permissions, accepting, reading,
                   Writer(writeQueue, writeBuffer, writes, posted, pushed, written, failed), inbox, started)
    }

    constructor (arduinoConnection: Messenger)
      ensures this.arduinoConnection == arduinoConnection && Value() == FRESH
    {
      this.arduinoConnection := arduinoConnection;
      permissions := Blocked;
      writeQueue, writeBuffer := [], None;
      accepting, reading, writes, posted := 0, 0, [], 0;
      inbox, pushed, written, failed := [], [], [], [];
      started := false;
    }

    /** weak_ptr::expired, negated */
    method IsAlive() returns (alive: bool)
      ensures alive == Alive(Value())
    {
      return accepting > 0 || reading > 0 || posted > 0 || writes != [];
    }

    method DoAccept(auth: Option<Permission>)
      modifies this
      ensures Value() == Accepting(old(Value()), auth)
    {
      if auth == None || auth.value == Blocked {
        return;
      }
      permissions := auth.value;
      accepting := accepting + 1;
    }

    method OnAccept(ok: bool)
      requires accepting > 0
      modifies this
      ensures Value() == Accepted(old(Value()), ok)
    {
      accepting := accepting - 1;
      if !ok {
        return;
      }
      StartRead();
      StartWrite();
      started := true;
    }

    method StartRead()
      modifies this`reading
      ensures Value() == old(Value()).(reading := old(reading) + 1)
    {
      reading := reading + 1;
    }

    /** do_write */
    method StartWrite()
      modifies this`writeQueue, this`writeBuffer, this`writes, this`posted
      ensures Value() == old(Value()).(out := DoWrite(old(Value()).out))
    {
      if |writeQueue| > 0 {
        writeBuffer := Some(writeQueue[0]);
        writeQueue := writeQueue[1..];
        writes := writes + [writeBuffer.value];
      } else {
        posted := posted + 1;
      }
    }

    /** The executor runs a posted do_write. */
    method OnPosted()
      requires posted > 0
      modifies this
      ensures Value() == old(Value()).(out := RunPosted(old(Value()).out))
    {
      posted := posted - 1;
      StartWrite();
    }

    /** on_write for the oldest outstanding write. */
    method OnWrite(ok: bool)
      requires writes != []
      modifies this
      ensures Value() == old(Value()).(out := Complete(old(Value()).out, ok, false))
    {
      ghost var transmitted := Transmitted(Value().out);
      writes := writes[1..];
      if !ok {
        failed := failed + transmitted;
        return;
      }
      written := written + transmitted;
      StartWrite();
    }

    method QueueMessage(text: Json)
      modifies this`writeQueue, this`pushed
      ensures Value() == Queue(old(Value()), text)
    {
      writeQueue := writeQueue + [text];
      pushed := pushed + [text];
    }

    /** `defined` is false exactly where str_to_type runs off its end; nothing is claimed then. */
    method OnRead(what: ClientRead) returns (defined: bool)
      requires reading > 0
      modifies this, arduinoConnection
      ensures defined == (what.Words? && permissions == Control ==> Decodable(what.doc))
      ensures defined ==> Value() == HasRead(old(Value()), what)
      ensures defined ==> arduinoConnection.Value() == Forward(old(arduinoConnection.Value()), old(permissions), what)
    {
      defined := true;
      reading := reading - 1;
      if what.Closed? || what.Broken? {
        return;
      }
      if what.Words? {
        inbox := inbox + [what.doc];
        defined := HandleMessage(what.doc);
        if !defined {
          return;
        }
      }
      StartRead();
    }

    method HandleMessage(doc: Option<Json>) returns (defined: bool)
      modifies arduinoConnection
      ensures defined == (permissions == Control ==> Decodable(doc))
      ensures defined ==>
                arduinoConnection.Value() == Forward(old(arduinoConnection.Value()), permissions, Words(doc))
    {
      if permissions == Control {
        if doc.Some? {
          var parsed := Parse(doc.value);
          if parsed.NoKind? {
            return false;
          }
          if parsed.Parsed? && (parsed.message.kind == QueryState || parsed.message.kind == ChangeState) {
            arduinoConnection.SendMessage(parsed.message);
          }
        }
      }
      return true;
    }
  }
}
