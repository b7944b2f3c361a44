/** The shared state: it broadcasts the messenger's results to the sessions that are still alive. */
module CommonStates {
  import opened Prelude
  import opened Json
  import opened Permissions
  import opened Writers
  import opened Messengers
  import opened WebsocketSessions

  /** When a session was added: how many results had been broadcast, and the place of its query among the
      messages sent to the messenger. */
  datatype Join = Join(at: nat, query: nat)

  /** Every session ever added, in the order of addition; `list` are the indices of those still listed.
      `broadcast` logs the results that were passed on. */
  datatype Bridge = Bridge(messenger: MessengerValue, sessions: seq<SessionValue>, list: seq<nat>,
                           broadcast: seq<Json>, joins: seq<Join>)

  predicate Places(sessions: seq<SessionValue>, list: seq<nat>) {
    forall k :: 0 <= k < |list| ==> list[k] < |sessions|
  }

  predicate Listed(b: Bridge) {
    |b.joins| == |b.sessions| && Places(b.sessions, b.list)
  }

  /** The query for all gates that add_session sends. */
  const ALL_GATES := Message(QueryState, Arr([Int(0), Int(1), Int(2), Int(3), Int(4), Int(5), Int(6)]))

  function WithSession(b: Bridge, s: SessionValue): Bridge {
    b.(sessions := b.sessions + [s], list := b.list + [|b.sessions|], messenger := Send(b.messenger, ALL_GATES),
       joins := b.joins + [Join(|b.broadcast|, |b.messenger.out.pushed|)])
  }

  /** The listed sessions that have not expired, in their order. */
  function Kept(sessions: seq<SessionValue>, list: seq<nat>): (kept: seq<nat>)
    requires Places(sessions, list)
    ensures Places(sessions, kept)
  {
    if list == [] then []
    else
      var id := list[|list| - 1];
      Kept(sessions, list[..|list| - 1]) + if Alive(sessions[id]) then [id] else []
  }

  /** The sessions after `text` was queued for each living one in the list. */
  function QueueAll(sessions: seq<SessionValue>, list: seq<nat>, text: Json): (after: seq<SessionValue>)
    requires Places(sessions, list)
    ensures |after| == |sessions|
  {
    if list == [] then sessions
    else
      var id := list[|list| - 1];
      var s := QueueAll(sessions, list[..|list| - 1], text);
      if Alive(s[id]) then s[id := Queue(s[id], text)] else s
  }

  lemma KeptSnoc(sessions: seq<SessionValue>, list: seq<nat>, k: nat)
    requires Places(sessions, list) && k < |list|
    ensures Kept(sessions, list[..k + 1]) ==
            Kept(sessions, list[..k]) + if Alive(sessions[list[k]]) then [list[k]] else []
  {
    assert list[..k + 1][..k] == list[..k];
  }

  lemma QueueAllSnoc(sessions: seq<SessionValue>, list: seq<nat>, k: nat, text: Json)
    requires Places(sessions, list) && k < |list|
    ensures var s := QueueAll(sessions, list[..k], text);
            QueueAll(sessions, list[..k + 1], text) ==
            if Alive(s[list[k]]) then s[list[k] := Queue(s[list[k]], text)] else s
  {
    assert list[..k + 1][..k] == list[..k];
  }

  /** The message at the head of the incoming queue, if update will pass it on. */
  function Deliverable(m: MessengerValue): Option<Json> {
    if m.incoming != [] && m.incoming[0].kind == QueryStateResult then Some(Dump(m.incoming[0])) else None
  }

  function Updated(b: Bridge): Bridge
    requires Listed(b)
  {
    if b.list == [] then b
    else
      var kept := Kept(b.sessions, b.list);
      match Deliverable(b.messenger)
      case None => b.(list := kept)
      case Some(text) =>
        b.(list := kept, sessions := QueueAll(b.sessions, kept, text), broadcast := b.broadcast + [text],
           messenger := b.messenger.(incoming := b.messenger.incoming[1..]))
  }

  ghost function SessionValues(sessions: seq<WebsocketSession>): (v: seq<SessionValue>)
    reads sessions
    ensures |v| == |sessions| && forall i :: 0 <= i < |sessions| ==> v[i] == sessions[i].Value()
  {
    seq(|sessions|, i requires 0 <= i < |sessions| reads sessions => sessions[i].Value())
  }

  class CommonState {
    var sessions: seq<WebsocketSession>
    const messenger: Messenger
    // every session ever added, and the places of the listed ones among them
    ghost var registry: seq<WebsocketSession>
    ghost var list: seq<nat>
    // logs
    ghost var broadcast: seq<Json>
    ghost var joins: seq<Join>

    ghost predicate Valid()
      reads this
    {
      NoDuplicates(registry) && |joins| == |registry| && Names(list, sessions)
    }

    ghost function Value(): Bridge
      reads this, messenger, registry
    {
      Bridge(messenger.Value(), SessionValues(registry), list, broadcast, joins)
    }

    constructor (messenger: Messenger)
      ensures this.messenger == messenger && Valid()
      ensures Value() == Bridge(messenger.Value(), [], [], [], [])
    {
      this.messenger := messenger;
      sessions := [];
      registry, list, broadcast, joins := [], [], [], [];
    }

    method AddSession(session: WebsocketSession)
      requires Valid() && session !in registry
      modifies this, messenger
      ensures Valid() && registry == old(registry) + [session]
      ensures Value() == WithSession(old(Value()), old(session.Value()))
    {
      ghost var before := SessionValues(registry);
      joins := joins + [Join(|broadcast|, |messenger.pushed|)];
      list := list + [|registry|];
      registry := registry + [session];
      sessions := sessions + [session];
      messenger.SendMessage(ALL_GATES);
      assert SessionValues(registry) == before + [session.Value()];
    }

    ghost predicate Names(ids: seq<nat>, them: seq<WebsocketSession>)
      reads this
    {
      |them| == |ids| && forall k :: 0 <= k < |ids| ==> ids[k] < |registry| && registry[ids[k]] == them[k]
    }

    /** remove_if: the listed sessions that have not expired, in their order. */
    method Living() returns (kept: seq<WebsocketSession>, ghost ids: seq<nat>)
      requires Valid()
      ensures Names(ids, kept) && ids == Kept(SessionValues(registry), list)
    {
      kept, ids := [], [];
      ghost var values := SessionValues(registry);
      for k := 0 to |sessions|
        invariant Names(ids, kept) && ids == Kept(values, list[..k])
      {
        KeptSnoc(values, list, k);
        var session := sessions[k];
        var alive := session.IsAlive();
        assert session.Value() == values[list[k]];
        if alive {
          kept := kept + [session];
          ids := ids + [list[k]];
        }
      }
      assert list[..|sessions|] == list;
    }

    /** The erase-remove of the expired sessions. */
    method Prune()
      requires Valid()
      modifies this`sessions, this`list
      ensures Valid() && Value() == old(Value()).(list := Kept(old(Value()).sessions, old(list)))
    {
      sessions, list := Living();
    }

    /** sp->queue_message for the k-th listed session, if it can still be locked. */
    method Deliver(k: nat, text: Json)
      requires Valid() && k < |sessions|
      modifies sessions[k]
      ensures var s := old(SessionValues(registry));
              SessionValues(registry) == if Alive(s[list[k]]) then s[list[k] := Queue(s[list[k]], text)] else s
    {
      ghost var before := SessionValues(registry);
      var alive := sessions[k].IsAlive();
      if alive {
        sessions[k].QueueMessage(text);
        assert SessionValues(registry) == before[list[k] := Queue(before[list[k]], text)];
      }
    }

    /** The broadcast of one result to the listed sessions. */
    method Broadcast(text: Json)
      requires Valid()
      modifies registry
      ensures SessionValues(registry) == QueueAll(old(SessionValues(registry)), list, text)
    {
      ghost var start := SessionValues(registry);
      for k := 0 to |sessions|
        invariant SessionValues(registry) == QueueAll(start, list[..k], text)
      {
        QueueAllSnoc(start, list, k, text);
        Deliver(k, text);
      }
      assert list[..|sessions|] == list;
    }

    method Update()
      requires Valid()
      modifies this, messenger, registry
      ensures Valid() && registry == old(registry)
      ensures Listed(old(Value())) && Value() == Updated(old(Value()))
    {
      if |sessions| > 0 {
        Prune();
        if messenger.incomingMessageQueue != [] {
          var message := messenger.incomingMessageQueue[0];
          if message.kind == QueryStateResult {
            Broadcast(Dump(messenger.incomingMessageQueue[0]));
            ghost var values := SessionValues(registry);
            messenger.incomingMessageQueue := messenger.incomingMessageQueue[1..];
            broadcast := broadcast + [Dump(message)];
            assert SessionValues(registry) == values;
          }
        }
      }
    }
  }
}
