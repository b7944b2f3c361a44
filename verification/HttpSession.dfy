/** The response pipeline of an HTTP connection: requests are read while earlier responses are written, through a
    queue and a binary semaphore. A handler runs in one piece up to the point where acquire blocks it. */
module HttpSessions {
  import opened Prelude
  import opened Permissions
  import opened AuthTables
  import opened Digests
  import opened Endpoints
  import opened Requests

  // ------------------------------------------------------ what becomes of a request

  datatype Reaction =
    | Answer(response: Response)           // queued, and then the next request is read
    | Refuse(response: Response)           // queued, and nothing more is read
    | Takeover(auth: Option<Permission>)   // the socket goes to a WebSocket session
    | Throw                                // an exception leaves the handler

  /** The reaction of on_read to a request, and the nonce afterwards. */
  function React(s: Server, r: Request, nonce: string, drawn: string): (Reaction, string) {
    if r.upgrade then
      if r.authorization == None then (Throw, nonce)
      else
        match ParseDigestAuth(r.authorization.value)
        case None => (Refuse(Refusal(s, r, drawn, false)), drawn)
        case Some(d) =>
          if d.nonce != nonce then (Refuse(Refusal(s, r, drawn, true)), drawn)
          else (Takeover(Granted(Credentials(s, r, nonce))), nonce)
    else
      var (res, after) := Decide(s, r, nonce, drawn);
      (if res.Some? then Answer(res.value) else Throw, after)
  }

  function Granted(user: Option<AuthData>): Option<Permission> {
    if user.Some? then Some(user.value.permissions) else None
  }

  /** A request, and the shared nonce when it arrived. */
  datatype Asked = Asked(request: Request, nonce: string)

  predicate Responds(reaction: Reaction, response: Response) {
    reaction == Answer(response) || reaction == Refuse(response)
  }

  /** `response` is the server's answer to the request. */
  ghost predicate Fits(s: Server, a: Asked, response: Response) {
    exists drawn :: Responds(React(s, a.request, a.nonce, drawn).0, response)
  }

  /** Every 401, of handle_request or of on_read, replaces the shared nonce and carries the new one, and nothing else
      replaces it; the challenge is stale exactly for an upgrade with a readable answer to another nonce. */
  lemma NonceIsReplacedByEvery401(s: Server, r: Request, nonce: string, drawn: string)
    ensures var (reaction, after) := React(s, r, nonce, drawn);
            if (reaction.Answer? || reaction.Refuse?) && reaction.response.content.Unauthorized? then
              && after == drawn
              && reaction.response.content == Unauthorized(Challenge(drawn, s.opaque_, IsStale(r, nonce)), r.target)
            else after == nonce && !reaction.Refuse?
  {
    if !r.upgrade {
      NonceIsReplacedBy401(s, r, nonce, drawn);
    }
  }

  predicate IsStale(r: Request, nonce: string) {
    && r.upgrade && r.authorization.Some?
    && ParseDigestAuth(r.authorization.value).Some? && ParseDigestAuth(r.authorization.value).value.nonce != nonce
  }

  /** The socket goes to a WebSocket session only with the current nonce; and the session is given a permission only
      if it is that of a stored user, proved by the response that this user's password gives for that nonce. */
  lemma TakeoverIsAuthenticated(s: Server, r: Request, nonce: string, drawn: string)
    requires React(s, r, nonce, drawn).0.Takeover?
    ensures r.upgrade && r.authorization.Some? && ParseDigestAuth(r.authorization.value).Some?
    ensures React(s, r, nonce, drawn).1 == nonce
    ensures var d := ParseDigestAuth(r.authorization.value).value;
            var auth := React(s, r, nonce, drawn).0.auth;
            && d.nonce == nonce
            && (auth.Some? ==>
                  && d.username in s.table && auth.value == s.table[d.username].permissions
                  && d.qop.Some? && d.nc.Some? && d.cnonce.Some?
                  && d.response == RequestDigest(s.hash, d, s.table[d.username].password, MethodName(r.verb), nonce))
  {
    if Credentials(s, r, nonce).Some? {
      AcceptedMeansResponse(r.authorization, r.verb, s.table, nonce, s.opaque_, s.hash);
    }
  }

  // ------------------------------------------------------------------ the pipeline

  /** What a handler still does once do_write returns. */
  datatype Rest = ReadIfRoom | Stop | ReadIf(wasFull: bool)

  /** A handler blocked in acquire, with the response that it has already taken from the queue. */
  datatype Parked = Parked(response: Response, rest: Rest)

  /** `writes` are the keep-alive flags of the writes outstanding, `reading` the number of reads outstanding. The
      last three are logs: the requests that were answered, their responses, and the responses given to the stream. */
  datatype Pipe = Pipe(
    limit: nat, queue: seq<Response>, permits: nat, writes: seq<bool>, parked: seq<Parked>, reading: nat, closed: bool,
    asked: seq<Asked>, answered: seq<Response>, handed: seq<Response>)

  function Opened(limit: nat): Pipe {
    Pipe(limit, [], 1, [], [], 0, false, [], [], [])
  }

  function ReadStarted(p: Pipe): Pipe {
    p.(reading := p.reading + 1)
  }

  function Finish(p: Pipe, rest: Rest): Pipe {
    match rest
    case ReadIfRoom => if |p.queue| < p.limit then ReadStarted(p) else p
    case Stop => p
    case ReadIf(wasFull) => if wasFull then ReadStarted(p) else p
  }

  function HandOver(p: Pipe, response: Response): Pipe
    requires p.permits > 0
  {
    p.(permits := p.permits - 1, writes := p.writes + [response.keepAlive], handed := p.handed + [response])
  }

  predicate Blocks(p: Pipe) {
    p.queue != [] && p.permits == 0
  }

  /** do_write for a handler that goes on with `rest`. */
  function DoWrite(p: Pipe, rest: Rest): Pipe {
    if p.queue == [] then p
    else if Blocks(p) then p.(queue := p.queue[1..], parked := p.parked + [Parked(p.queue[0], rest)])
    else HandOver(p.(queue := p.queue[1..]), p.queue[0])
  }

  function WriteThen(p: Pipe, rest: Rest): Pipe {
    if Blocks(p) then DoWrite(p, rest) else Finish(DoWrite(p, rest), rest)
  }

  /** queue_write, and then the rest of its caller. */
  function QueueThen(p: Pipe, a: Asked, response: Response, rest: Rest): Pipe {
    var q := p.(queue := p.queue + [response], asked := p.asked + [a], answered := p.answered + [response]);
    if |q.queue| == 1 then WriteThen(q, rest) else Finish(q, rest)
  }

  /** How reading a request ends. */
  datatype Arrival = EndOfStream | Broken | Arrived(request: Request)

  function Reacted(p: Pipe, a: Asked, reaction: Reaction): Pipe {
    match reaction
    case Answer(response) => QueueThen(p, a, response, ReadIfRoom)
    case Refuse(response) => QueueThen(p, a, response, Stop)
    case Takeover(_) => p
    case Throw => p
  }

  /** The handler of a read, given the reaction to the request that arrived, if any, with the nonce of that moment. */
  function ReadDone(p: Pipe, what: Arrival, nonce: string, reaction: Reaction): Pipe
    requires p.reading > 0
  {
    var q := p.(reading := p.reading - 1);
    match what
    case EndOfStream => q.(closed := true)
    case Broken => q
    case Arrived(r) => Reacted(q, Asked(r, nonce), reaction)
  }

  /** on_write for the oldest outstanding write. */
  function WriteDone(p: Pipe, ok: bool): Pipe
    requires p.writes != []
  {
    var q := p.(permits := p.permits + 1, writes := p.writes[1..]);
    if !ok then q
    else if !p.writes[0] then q.(closed := true)
    else WriteThen(q, ReadIf(|q.queue| == q.limit))
  }

  /** acquire lets the k-th blocked handler go on. */
  function Resumed(p: Pipe, k: nat): Pipe
    requires k < |p.parked| && p.permits > 0
  {
    Finish(HandOver(p.(parked := p.parked[..k] + p.parked[k + 1..]), p.parked[k].response), p.parked[k].rest)
  }

  /** Without a request there is nothing to react to. */
  function ReactTo(s: Server, what: Arrival, nonce: string, drawn: string): (Reaction, string) {
    if what.Arrived? then React(s, what.request, nonce, drawn) else (Throw, nonce)
  }

  // --------------------------------------------------------------- the class itself

  class HttpSession {
    const server: Server
    const nonce: Nonce
    const queueLimit: nat
    var responseQueue: seq<Response>
    var permits: nat // write_semaphore
    var closed: bool
    // operations outstanding at the executor, and blocked handlers
    var writes: seq<bool>
    var parked: seq<Parked>
    var reading: nat
    // logs
    ghost var asked: seq<Asked>
    ghost var answered: seq<Response>
    ghost var handed: seq<Response>

    ghost function Value(): Pipe
      reads this
    {
      Pipe(queueLimit, responseQueue, permits, writes, parked, reading, closed, asked, answered, handed)
    }

    constructor (server: Server, nonce: Nonce, queueLimit: nat)
      requires queueLimit > 0
      ensures this.server == server && this.nonce == nonce && Value() == Opened(queueLimit)
    {
      this.server, this.nonce, this.queueLimit := server, nonce, queueLimit;
      responseQueue, permits, closed := [], 1, false;
      writes, parked, reading := [], [], 0;
      asked, answered, handed := [], [], [];
    }

    method DoRead()
      modifies this`reading
      ensures Value() == ReadStarted(old(Value()))
    {
      reading := reading + 1;
    }

    /** async_write after acquire */
    method HandToStream(response: Response)
      requires permits > 0
      modifies this
      ensures Value() == HandOver(old(Value()), response)
    {
      permits := permits - 1;
      writes := writes + [response.keepAlive];
      handed := handed + [response];
    }

    /** `blocked` tells that the caller is stopped in acquire, with `rest` still to do. */
    method StartWrite(rest: Rest) returns (wasFull: bool, blocked: bool)
      modifies this
      ensures Value() == DoWrite(old(Value()), rest)
      ensures wasFull == (old(|responseQueue|) == queueLimit) && blocked == Blocks(old(Value()))
    {
      wasFull := |responseQueue| == queueLimit;
      blocked := false;
      if responseQueue != [] {
        var response := responseQueue[0];
        responseQueue := responseQueue[1..];
        if permits == 0 {
          parked := parked + [Parked(response, rest)];
          blocked := true;
        } else {
          HandToStream(response);
        }
      }
    }

    method QueueWrite(ghost a: Asked, response: Response, rest: Rest) returns (blocked: bool)
      modifies this
      ensures (if blocked then Value() else Finish(Value(), rest)) == QueueThen(old(Value()), a, response, rest)
    {
      responseQueue := responseQueue + [response];
      asked := asked + [a];
      answered := answered + [response];
      blocked := false;
      if |responseQueue| == 1 {
        var wasFull;
        wasFull, blocked := StartWrite(rest);
      }
    }

    method OnRead(what: Arrival, drawn: string) returns (ghost reaction: Reaction)
      requires reading > 0
      modifies this, nonce
      ensures (reaction, nonce.value) == ReactTo(server, what, old(nonce.value), drawn)
      ensures Value() == ReadDone(old(Value()), what, old(nonce.value), reaction)
    {
      reading := reading - 1;
      reaction := Throw;
      if what.EndOfStream? {
        closed := true;
        return;
      }
      if what.Broken? {
        return;
      }
      reaction := OnArrival(what.request, drawn);
    }

    method OnArrival(r: Request, drawn: string) returns (ghost reaction: Reaction)
      modifies this, nonce
      ensures (reaction, nonce.value) == React(server, r, old(nonce.value), drawn)
      ensures Value() == Reacted(old(Value()), Asked(r, old(nonce.value)), reaction)
    {
      if r.upgrade {
        reaction := OnUpgrade(r, drawn);
      } else {
        reaction := OnRequest(r, drawn);
      }
    }

    method OnRequest(r: Request, drawn: string) returns (ghost reaction: Reaction)
      requires !r.upgrade
      modifies this, nonce
      ensures (reaction, nonce.value) == React(server, r, old(nonce.value), drawn)
      ensures Value() == Reacted(old(Value()), Asked(r, old(nonce.value)), reaction)
    {
      ghost var a := Asked(r, nonce.value);
      reaction := React(server, r, nonce.value, drawn).0;
      var response := HandleRequest(server, r, nonce, drawn);
      if response == None {
        return; // the exception
      }
      var blocked := QueueWrite(a, response.value, ReadIfRoom);
      if !blocked && |responseQueue| < queueLimit {
        DoRead();
      }
    }

    method OnUpgrade(r: Request, drawn: string) returns (ghost reaction: Reaction)
      requires r.upgrade
      modifies this, nonce
      ensures (reaction, nonce.value) == React(server, r, old(nonce.value), drawn)
      ensures Value() == Reacted(old(Value()), Asked(r, old(nonce.value)), reaction)
    {
      ghost var a := Asked(r, nonce.value);
      reaction := React(server, r, nonce.value, drawn).0;
      if r.authorization == None {
        return; // the exception
      }
      var digest := ParseDigestAuthField(r.authorization.value);
      if digest == None {
        var refusal := UnauthorizedResponse(nonce, drawn, server, r, false);
        var _ := QueueWrite(a, refusal, Stop);
        return;
      }
      if digest.value.nonce != nonce.value {
        var refusal := UnauthorizedResponse(nonce, drawn, server, r, true);
        var _ := QueueWrite(a, refusal, Stop);
      }
    }

    method OnWrite(ok: bool)
      requires writes != []
      modifies this
      ensures Value() == WriteDone(old(Value()), ok)
    {
      var keepAlive := writes[0];
      writes := writes[1..];
      permits := permits + 1;
      if !ok {
        return;
      }
      if !keepAlive {
        closed := true;
        return;
      }
      var wasFull, blocked := StartWrite(ReadIf(|responseQueue| == queueLimit));
      if !blocked && wasFull {
        DoRead();
      }
    }

    method OnResume(k: nat)
      requires k < |parked| && permits > 0
      modifies this
      ensures Value() == Resumed(old(Value()), k)
    {
      var p := parked[k];
      parked := parked[..k] + parked[k + 1..];
      HandToStream(p.response);
      match p.rest
      case ReadIfRoom =>
        if |responseQueue| < queueLimit {
          DoRead();
        }
      case Stop =>
      case ReadIf(wasFull) =>
        if wasFull {
          DoRead();
        }
    }
  }

  // -------------------------------------------------------------------- every run

  datatype Event =
    | ReadEnds(what: Arrival, nonce: string, drawn: string) // with the shared nonce of that moment
    | WriteEnds(ok: bool)
    | Resume(k: nat)

  predicate Possible(p: Pipe, e: Event) {
    match e
    case ReadEnds(_, _, _) => p.reading > 0
    case WriteEnds(_) => p.writes != []
    case Resume(k) => k < |p.parked| && p.permits > 0
  }

  function Step(s: Server, p: Pipe, e: Event): Pipe
    requires Possible(p, e)
  {
    match e
    case ReadEnds(what, nonce, drawn) => ReadDone(p, what, nonce, ReactTo(s, what, nonce, drawn).0)
    case WriteEnds(ok) => WriteDone(p, ok)
    case Resume(k) => Resumed(p, k)
  }

  predicate Runs(s: Server, p: Pipe, es: seq<Event>)
    decreases |es|
  {
    es == [] || (Possible(p, es[0]) && Runs(s, Step(s, p, es[0]), es[1..]))
  }

  function After(s: Server, p: Pipe, es: seq<Event>): Pipe
    requires Runs(s, p, es)
    decreases |es|
  {
    if es == [] then p else After(s, Step(s, p, es[0]), es[1..])
  }

  function HeldBack(parked: seq<Parked>): seq<Response> {
    if parked == [] then [] else HeldBack(parked[..|parked| - 1]) + [parked[|parked| - 1].response]
  }

  /** One permit or one write; one read, or one blocked handler that has come from a read; and every response made is,
      in the order of the requests, one that was given to the stream, then one held by a blocked handler. */
  predicate Flows(p: Pipe) {
    && p.limit > 0 && p.queue == []
    && p.permits + |p.writes| == 1
    && p.reading + |p.parked| <= 1
    && p.answered == p.handed + HeldBack(p.parked)
  }

  ghost predicate Fitting(s: Server, p: Pipe) {
    |p.asked| == |p.answered| && forall k :: 0 <= k < |p.asked| ==> Fits(s, p.asked[k], p.answered[k])
  }

  lemma OneHeld(x: Parked)
    ensures HeldBack([x]) == [x.response]
  {
    assert [x][..0] == [];
  }

  /** Even while a response is being queued, the queue does not exceed the limit. */
  lemma QueueKeepsFlows(p: Pipe, a: Asked, response: Response, rest: Rest)
    requires Flows(p) && p.reading == 0 && p.parked == [] && !rest.ReadIf?
    ensures |p.queue + [response]| <= p.limit
    ensures var q := QueueThen(p, a, response, rest);
            Flows(q) && q.asked == p.asked + [a] && q.answered == p.answered + [response]
            && (rest.Stop? ==> q.reading == 0)
  {
    assert [] + [response] == [response];
    OneHeld(Parked(response, rest));
    assert p.answered == p.handed;
  }

  lemma ReadKeepsFlows(p: Pipe, what: Arrival, nonce: string, reaction: Reaction)
    requires Flows(p) && p.reading > 0
    ensures var q := ReadDone(p, what, nonce, reaction);
            && Flows(q)
            && if what.Arrived? && (reaction.Answer? || reaction.Refuse?)
               then q.asked == p.asked + [Asked(what.request, nonce)] && q.answered == p.answered + [reaction.response]
               else q.asked == p.asked && q.answered == p.answered
  {
    var q := p.(reading := 0);
    if what.Arrived? {
      var a := Asked(what.request, nonce);
      match reaction
      case Answer(response) => QueueKeepsFlows(q, a, response, ReadIfRoom);
      case Refuse(response) => QueueKeepsFlows(q, a, response, Stop);
      case Takeover(_) =>
      case Throw =>
    }
  }

  lemma ReadKeepsFitting(s: Server, p: Pipe, what: Arrival, nonce: string, drawn: string)
    requires Flows(p) && Fitting(s, p) && p.reading > 0
    ensures Fitting(s, ReadDone(p, what, nonce, ReactTo(s, what, nonce, drawn).0))
  {
    var reaction := ReactTo(s, what, nonce, drawn).0;
    ReadKeepsFlows(p, what, nonce, reaction);
    if what.Arrived? && (reaction.Answer? || reaction.Refuse?) {
      assert Responds(reaction, reaction.response);
      assert Fits(s, Asked(what.request, nonce), reaction.response);
    }
  }

  lemma WriteKeepsFlows(s: Server, p: Pipe, ok: bool)
    requires Flows(p) && p.writes != []
    ensures Flows(WriteDone(p, ok)) && WriteDone(p, ok).reading == p.reading
    ensures Fitting(s, p) ==> Fitting(s, WriteDone(p, ok))
  {
  }

  lemma ResumeKeepsFlows(s: Server, p: Pipe, k: nat)
    requires Flows(p) && k < |p.parked| && p.permits > 0
    ensures Flows(Resumed(p, k))
    ensures Fitting(s, p) ==> Fitting(s, Resumed(p, k))
  {
    assert p.parked == [p.parked[0]];
    OneHeld(p.parked[0]);
    assert p.parked[..0] + p.parked[1..] == [];
    assert p.answered == p.handed + [p.parked[0].response];
  }

  lemma StepKeepsFlows(s: Server, p: Pipe, e: Event)
    requires Flows(p) && Fitting(s, p) && Possible(p, e)
    ensures Flows(Step(s, p, e)) && Fitting(s, Step(s, p, e))
  {
    match e
    case ReadEnds(what, nonce, drawn) =>
      ReadKeepsFlows(p, what, nonce, ReactTo(s, what, nonce, drawn).0);
      ReadKeepsFitting(s, p, what, nonce, drawn);
    case WriteEnds(ok) => WriteKeepsFlows(s, p, ok);
    case Resume(k) => ResumeKeepsFlows(s, p, k);
  }

  lemma {:induction false} RunKeepsFlows(s: Server, p: Pipe, es: seq<Event>)
    requires Flows(p) && Fitting(s, p) && Runs(s, p, es)
    ensures Flows(After(s, p, es)) && Fitting(s, After(s, p, es))
    decreases |es|
  {
    if es != [] {
      StepKeepsFlows(s, p, es[0]);
      RunKeepsFlows(s, Step(s, p, es[0]), es[1..]);
    }
  }

  /** A connection that waits for its first request. */
  function Connected(limit: nat): Pipe {
    ReadStarted(Opened(limit))
  }

  // ------------------------------------------- the requests and responses of a run

  /** Whether the event brings a request that is answered. */
  predicate Brings(s: Server, e: Event) {
    && e.ReadEnds? && e.what.Arrived?
    && (React(s, e.what.request, e.nonce, e.drawn).0.Answer? || React(s, e.what.request, e.nonce, e.drawn).0.Refuse?)
  }

  /** The requests of a run that are answered, in the order of their arrival, each with the nonce of that moment. */
  function AskedIn(s: Server, es: seq<Event>): seq<Asked> {
    if es == [] then []
    else (if Brings(s, es[0]) then [Asked(es[0].what.request, es[0].nonce)] else []) + AskedIn(s, es[1..])
  }

  /** What is answered to each of them. */
  function AnsweredIn(s: Server, es: seq<Event>): seq<Response> {
    if es == [] then []
    else
      (if Brings(s, es[0]) then [React(s, es[0].what.request, es[0].nonce, es[0].drawn).0.response] else []) +
      AnsweredIn(s, es[1..])
  }

  lemma StepLogs(s: Server, p: Pipe, e: Event)
    requires Flows(p) && Possible(p, e)
    ensures var q := Step(s, p, e);
            if Brings(s, e) then
              && q.asked == p.asked + [Asked(e.what.request, e.nonce)]
              && q.answered == p.answered + [React(s, e.what.request, e.nonce, e.drawn).0.response]
            else q.asked == p.asked && q.answered == p.answered
  {
    match e
    case ReadEnds(what, nonce, drawn) => ReadKeepsFlows(p, what, nonce, ReactTo(s, what, nonce, drawn).0);
    case WriteEnds(ok) =>
    case Resume(k) =>
  }

  lemma {:induction false} RunAsks(s: Server, p: Pipe, es: seq<Event>)
    requires Flows(p) && Fitting(s, p) && Runs(s, p, es)
    ensures After(s, p, es).asked == p.asked + AskedIn(s, es)
    decreases |es|
  {
    if es != [] {
      var q := Step(s, p, es[0]);
      StepLogs(s, p, es[0]);
      StepKeepsFlows(s, p, es[0]);
      RunAsks(s, q, es[1..]);
      Reassociated(p.asked, q.asked[|p.asked|..], AskedIn(s, es[1..]));
    }
  }

  lemma {:induction false} RunAnswers(s: Server, p: Pipe, es: seq<Event>)
    requires Flows(p) && Fitting(s, p) && Runs(s, p, es)
    ensures After(s, p, es).answered == p.answered + AnsweredIn(s, es)
    decreases |es|
  {
    if es != [] {
      var q := Step(s, p, es[0]);
      StepLogs(s, p, es[0]);
      StepKeepsFlows(s, p, es[0]);
      RunAnswers(s, q, es[1..]);
      Reassociated(p.answered, q.answered[|p.answered|..], AnsweredIn(s, es[1..]));
    }
  }

  lemma RunLogs(s: Server, p: Pipe, es: seq<Event>)
    requires Flows(p) && Fitting(s, p) && Runs(s, p, es)
    ensures After(s, p, es).asked == p.asked + AskedIn(s, es)
    ensures After(s, p, es).answered == p.answered + AnsweredIn(s, es)
  {
    RunAsks(s, p, es);
    RunAnswers(s, p, es);
  }

  /** For every positive limit and every interleaving of completed reads, completed writes and blocked handlers going
      on: the responses given to the stream are the first of those made to the requests of the run, in the order in
      which the requests arrived; so the k-th answers the k-th request, and each leaves at most once. At most one
      response is held back; at most one write and at most one read is outstanding; the semaphore never exceeds its
      maximum; and the queue is empty whenever no handler is active. */
  lemma ResponsesLeaveInOrder(s: Server, limit: nat, es: seq<Event>)
    requires limit > 0 && Runs(s, Connected(limit), es)
    ensures var p := After(s, Connected(limit), es);
            && p.asked == AskedIn(s, es) && p.answered == AnsweredIn(s, es)
            && |AskedIn(s, es)| == |AnsweredIn(s, es)|
            && p.handed <= AnsweredIn(s, es) && |AnsweredIn(s, es)| <= |p.handed| + 1
            && (forall k :: 0 <= k < |p.handed| ==> Fits(s, AskedIn(s, es)[k], p.handed[k]))
            && p.permits + |p.writes| == 1 && p.reading <= 1
            && p.queue == [] && p.limit == limit
  {
    RunKeepsFlows(s, Connected(limit), es);
    RunLogs(s, Connected(limit), es);
    LimitIsKept(s, Connected(limit), es);
    var p := After(s, Connected(limit), es);
    assert [] + AskedIn(s, es) == AskedIn(s, es) && [] + AnsweredIn(s, es) == AnsweredIn(s, es);
    if p.parked != [] {
      OneHeld(p.parked[0]);
      assert p.parked == [p.parked[0]];
    }
  }

  lemma {:induction false} LimitIsKept(s: Server, p: Pipe, es: seq<Event>)
    requires Runs(s, p, es)
    ensures After(s, p, es).limit == p.limit
    decreases |es|
  {
    if es != [] {
      LimitIsKept(s, Step(s, p, es[0]), es[1..]);
    }
  }

  lemma FittingSuccess(s: Server, a: Asked, response: Response)
    requires Fits(s, a, response) && Succeeds(response.content) && Protection(a.request.target).Some?
    ensures var user := Credentials(s, a.request, a.nonce);
            user.Some? && AtLeast(user.value.permissions, Protection(a.request.target).value)
  {
    var drawn :| Responds(React(s, a.request, a.nonce, drawn).0, response);
    assert !a.request.upgrade;
    assert Decide(s, a.request, a.nonce, drawn).0 == Some(response);
    SuccessIsAuthorized(s, a.request, a.nonce, drawn);
  }

  /** Whatever is given to the stream with success, for a target under a protected endpoint, was asked for by a user
      who has the permission and proved it with the nonce that was current when the request arrived. */
  lemma WhatLeavesIsAuthorized(s: Server, limit: nat, es: seq<Event>, k: nat)
    requires limit > 0 && Runs(s, Connected(limit), es) && k < |After(s, Connected(limit), es).handed|
    requires Succeeds(After(s, Connected(limit), es).handed[k].content)
    ensures k < |AskedIn(s, es)|
    ensures var a := AskedIn(s, es)[k];
            Protection(a.request.target).Some? ==>
              && Credentials(s, a.request, a.nonce).Some?
              && AtLeast(Credentials(s, a.request, a.nonce).value.permissions, Protection(a.request.target).value)
  {
    ResponsesLeaveInOrder(s, limit, es);
    var p := After(s, Connected(limit), es);
    if Protection(AskedIn(s, es)[k].request.target).Some? {
      FittingSuccess(s, AskedIn(s, es)[k], p.handed[k]);
    }
  }

  /** Once no read is outstanding and no handler is blocked, the connection never answers another request. */
  lemma {:induction false} FinishedStaysFinished(s: Server, p: Pipe, es: seq<Event>)
    requires Flows(p) && p.reading == 0 && p.parked == [] && Runs(s, p, es)
    ensures var q := After(s, p, es);
            q.reading == 0 && q.parked == [] && q.asked == p.asked && q.handed == p.handed
    decreases |es|
  {
    if es != [] {
      assert es[0].WriteEnds?;
      WriteKeepsFlows(s, p, es[0].ok);
      FinishedStaysFinished(s, Step(s, p, es[0]), es[1..]);
    }
  }

  /** Reading stops for good when the stream ends or breaks, when the socket is taken over, and when an exception
      leaves the handler; a refused upgrade is still answered, and is the last request. */
  lemma ReadingStops(p: Pipe, what: Arrival, nonce: string, reaction: Reaction)
    requires Flows(p) && p.reading > 0 && (what.Arrived? ==> !reaction.Answer?)
    ensures var q := ReadDone(p, what, nonce, reaction);
            && q.reading == 0
            && if what.Arrived? && reaction.Refuse?
               then q.answered == p.answered + [reaction.response]
               else q.parked == [] && q.answered == p.answered && q.handed == p.handed
  {
    if what.Arrived? && reaction.Refuse? {
      QueueKeepsFlows(p.(reading := 0), Asked(what.request, nonce), reaction.response, Stop);
    }
  }

  // ----------------------------------------------------------- reading and writing on

  /** A request that is answered: if the permit is free, the response is being written and the next request is being
      read; otherwise exactly this handler is blocked, with the response, and reads on when it is resumed. */
  lemma AnsweredReadsOn(p: Pipe, r: Request, nonce: string, response: Response)
    requires Flows(p) && p.reading > 0
    ensures var q := ReadDone(p, Arrived(r), nonce, Answer(response));
            if p.permits > 0 then
              && q.reading == 1 && q.parked == [] && q.permits == 0 && q.writes == [response.keepAlive]
              && q.handed == p.handed + [response]
            else
              && q.reading == 0 && q.parked == [Parked(response, ReadIfRoom)] && q.writes == p.writes
              && q.handed == p.handed
  {
    assert [] + [response.keepAlive] == [response.keepAlive];
    assert [] + [Parked(response, ReadIfRoom)] == [Parked(response, ReadIfRoom)];
  }

  /** Resuming the blocked handler of an answered request gives its response to the stream and reads on. */
  lemma ResumedReadsOn(p: Pipe, response: Response)
    requires Flows(p) && p.parked == [Parked(response, ReadIfRoom)] && p.permits > 0
    ensures var q := Resumed(p, 0);
            && q.reading == 1 && q.parked == [] && q.permits == 0 && q.writes == [response.keepAlive]
            && q.handed == p.handed + [response]
  {
    assert p.parked[..0] + p.parked[1..] == [];
    assert [] + [response.keepAlive] == [response.keepAlive];
  }

  /** A completed write gives the permit back, and closes the stream exactly if it succeeded and its response was not
      to keep the connection alive; nothing else changes, because no response waits in the queue. */
  lemma WriteEndsExactly(p: Pipe, ok: bool)
    requires Flows(p) && p.writes != []
    ensures WriteDone(p, ok) == p.(permits := 1, writes := [], closed := p.closed || (ok && !p.writes[0]))
  {
    assert p.writes == [p.writes[0]];
  }

  /** The end of the stream closes it, and a broken read does not. */
  lemma ReadEndsExactly(p: Pipe, what: Arrival, nonce: string)
    requires p.reading > 0 && !what.Arrived?
    ensures ReadDone(p, what, nonce, Throw) == p.(reading := p.reading - 1, closed := p.closed || what.EndOfStream?)
  {
  }

  /** Every read of the run brought a request that was answered. */
  predicate AllAnswered(s: Server, es: seq<Event>) {
    forall k :: 0 <= k < |es| && es[k].ReadEnds? ==>
      es[k].what.Arrived? && React(s, es[k].what.request, es[k].nonce, es[k].drawn).0.Answer?
  }

  /** The next request is being read, or the one handler that will read it is blocked. */
  predicate ReadsOn(p: Pipe) {
    || (p.reading == 1 && p.parked == [])
    || (p.reading == 0 && |p.parked| == 1 && p.parked[0].rest == ReadIfRoom)
  }

  lemma StepReadsOn(s: Server, p: Pipe, e: Event)
    requires Flows(p) && ReadsOn(p) && Possible(p, e)
    requires e.ReadEnds? ==> e.what.Arrived? && React(s, e.what.request, e.nonce, e.drawn).0.Answer?
    ensures ReadsOn(Step(s, p, e))
  {
    match e
    case ReadEnds(what, nonce, drawn) =>
      AnsweredReadsOn(p, what.request, nonce, React(s, what.request, nonce, drawn).0.response);
    case WriteEnds(ok) => WriteEndsExactly(p, ok);
    case Resume(k) =>
      assert p.parked == [Parked(p.parked[0].response, ReadIfRoom)];
      ResumedReadsOn(p, p.parked[0].response);
  }

  lemma {:induction false} RunReadsOn(s: Server, p: Pipe, es: seq<Event>)
    requires Flows(p) && Fitting(s, p) && ReadsOn(p) && Runs(s, p, es) && AllAnswered(s, es)
    ensures ReadsOn(After(s, p, es))
    decreases |es|
  {
    if es != [] {
      StepReadsOn(s, p, es[0]);
      StepKeepsFlows(s, p, es[0]);
      RunReadsOn(s, Step(s, p, es[0]), es[1..]);
    }
  }

  /** Over every run in which every arrival was answered, the connection goes on reading: one read is outstanding, or
      exactly the one handler that will start it is blocked. */
  lemma ConnectionReadsOn(s: Server, limit: nat, es: seq<Event>)
    requires limit > 0 && Runs(s, Connected(limit), es) && AllAnswered(s, es)
    ensures var p := After(s, Connected(limit), es); ReadsOn(p) && p.reading + |p.parked| == 1
  {
    RunReadsOn(s, Connected(limit), es);
  }

  // ----------------------------------------------------------------------- upgrades

  /** Upgrades, exactly: without credentials an exception; with unreadable ones a 401; with an answer to another nonce
      a stale 401; and with an answer to the current one the socket is taken over, for the permission of the user if
      the credentials are accepted and for none otherwise. */
  lemma UpgradeExactly(s: Server, r: Request, nonce: string, drawn: string)
    requires r.upgrade
    ensures var (reaction, after) := React(s, r, nonce, drawn);
            if r.authorization == None then reaction == Throw && after == nonce
            else
              var d := ParseDigestAuth(r.authorization.value);
              if d == None then
                reaction == Refuse(Response(Unauthorized(Challenge(drawn, s.opaque_, false), r.target), r.keepAlive))
              else if d.value.nonce != nonce then
                reaction == Refuse(Response(Unauthorized(Challenge(drawn, s.opaque_, true), r.target), r.keepAlive))
              else
                && after == nonce && reaction.Takeover?
                && (Credentials(s, r, nonce) == None ==> reaction.auth == None)
                && (Credentials(s, r, nonce).Some? ==>
                      reaction.auth == Some(Credentials(s, r, nonce).value.permissions))
  {
  }

  /** A stored user's upgrade that answers the current nonce is taken over with that user's permission. */
  lemma StoredUserTakesOver(s: Server, r: Request, nonce: string, drawn: string, username: string, nc: string,
                            cnonce: string, d: DigestAuth)
    requires Quotable(s.hash) && Sendable(nonce) && Sendable(s.opaque_) && Sendable(cnonce)
    requires nc != "" && All(nc, IsTokenChar) && username in s.table && Sendable(username) && Sendable(r.target)
    requires r.upgrade && NamesMethod(r.verb)
    requires d == Digests.Answer(s.hash, username, s.table[username].password, r.verb, r.target, nonce, s.opaque_,
                                 nc, cnonce)
    requires SendableAnswer(d) && r.authorization == Some(Header(AnswerPairs(d)))
    ensures React(s, r, nonce, drawn) == (Takeover(Some(s.table[username].permissions)), nonce)
  {
    StoredUserIsAccepted(s.hash, s.table, username, r.verb, r.target, nonce, s.opaque_, nc, cnonce);
    AnswerPairsAnswer(d);
    AnswerIsParsed(AnswerPairs(d), d);
    UpgradeExactly(s, r, nonce, drawn);
  }
}
