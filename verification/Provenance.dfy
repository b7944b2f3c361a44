/** From the HTTP front end to the board: whose commands the gates obey. */
module Provenance {
  import opened Prelude
  import opened Json
  import opened Permissions
  import opened AuthTables
  import opened Digests
  import opened Requests
  import opened HttpSessions
  import opened Gates
  import opened Sketches
  import opened Writers
  import opened Messengers
  import opened WebsocketSessions
  import opened CommonStates
  import S = Systems
  import opened SystemInvariants
  import Convergence

  /** The permissions that get_auth found for the connections of a run, in the order in which they were added. */
  function Connections(es: seq<S.Event>): seq<Option<Permission>> {
    if es == [] then [] else Connected(es[0]) + Connections(es[1..])
  }

  function Connected(e: S.Event): seq<Option<Permission>> {
    if e.Connect? then [e.auth] else []
  }

  /** There is one session for each connection, with the permission that was found for it. */
  predicate Granted(sessions: seq<SessionValue>, auths: seq<Option<Permission>>) {
    |sessions| == |auths|
    && forall j :: 0 <= j < |auths| ==> sessions[j].permissions == Accepting(FRESH, auths[j]).permissions
  }

  lemma UpdateKeepsCount(b: Bridge)
    requires Listed(b)
    ensures |Updated(b).sessions| == |b.sessions|
  {
  }

  /** Sessions are added by connections only, and each gets what its connection was granted. */
  lemma StepAddsConnection(w: S.World, e: S.Event)
    requires S.Enabled(w, e)
    ensures var after := S.Step(w, e).bridge.sessions;
            if e.Connect? then after == w.bridge.sessions + [Accepting(FRESH, e.auth)]
            else |after| == |w.bridge.sessions|
  {
    UpdateKeepsCount(w.bridge);
  }

  lemma StepKeepsGranted(w: S.World, e: S.Event, auths: seq<Option<Permission>>)
    requires S.Enabled(w, e) && NoDuplicates(w.bridge.list) && Granted(w.bridge.sessions, auths)
    ensures Granted(S.Step(w, e).bridge.sessions, auths + Connected(e))
  {
    StepAddsConnection(w, e);
    var after := S.Step(w, e).bridge.sessions;
    forall j: nat | j < |auths| ensures after[j].permissions == w.bridge.sessions[j].permissions {
      Convergence.StepKeepsSettled(w, e, j);
    }
  }

  lemma KeepsGranted(w: S.World, e: S.Event, auths: seq<Option<Permission>>)
    requires Inv(w) && S.Enabled(w, e) && Granted(w.bridge.sessions, auths)
    ensures Inv(S.Step(w, e)) && Granted(S.Step(w, e).bridge.sessions, auths + Connected(e))
  {
    StepKeepsGranted(w, e, auths);
    StepKeepsInv(w, e);
  }

  /** The sessions of a run are its connections. */
  lemma {:induction false} RunKeepsGranted(w: S.World, es: seq<S.Event>, auths: seq<Option<Permission>>)
    requires Inv(w) && S.Runs(w, es) && Granted(w.bridge.sessions, auths)
    ensures Granted(S.After(w, es).bridge.sessions, auths + Connections(es))
    decreases |es|
  {
    if es == [] {
      assert auths + [] == auths;
    } else {
      KeepsGranted(w, es[0], auths);
      RunKeepsGranted(S.Step(w, es[0]), es[1..], auths + Connected(es[0]));
      Reassociated(auths, Connected(es[0]), Connections(es[1..]));
    }
  }

  /** The request with which a connection was taken over, and the shared nonce at that moment. */
  datatype Upgrade = Upgrade(request: Request, nonce: string)

  ghost predicate TakenOver(s: Server, u: Upgrade, auth: Option<Permission>) {
    exists drawn :: React(s, u.request, u.nonce, drawn).0 == Takeover(auth)
  }

  /** Every connection of the run comes from the HTTP front end. */
  ghost predicate Served(s: Server, es: seq<S.Event>, upgrades: seq<Upgrade>) {
    && |upgrades| == |Connections(es)|
    && forall i :: 0 <= i < |upgrades| ==> TakenOver(s, upgrades[i], Connections(es)[i])
  }

  /** The request answers the challenge for `nonce` with the password of a stored user who has Control. */
  predicate ProvesControl(s: Server, u: Upgrade) {
    && u.request.authorization.Some? && ParseDigestAuth(u.request.authorization.value).Some?
    && var d := ParseDigestAuth(u.request.authorization.value).value;
       && d.nonce == u.nonce && d.username in s.table && s.table[d.username].permissions == Control
       && d.qop.Some? && d.nc.Some? && d.cnonce.Some?
       && d.response == RequestDigest(s.hash, d, s.table[d.username].password, MethodName(u.request.verb), u.nonce)
  }

  lemma ControlIsProved(s: Server, u: Upgrade)
    requires TakenOver(s, u, Some(Control))
    ensures ProvesControl(s, u)
  {
    var drawn :| React(s, u.request, u.nonce, drawn).0 == Takeover(Some(Control));
    TakeoverIsAuthenticated(s, u.request, u.nonce, drawn);
  }

  lemma ControlWasGranted(s: Server, sessions: seq<SessionValue>, auths: seq<Option<Permission>>,
                          upgrades: seq<Upgrade>, i: nat)
    requires Granted(sessions, auths) && |upgrades| == |auths|
    requires forall j :: 0 <= j < |upgrades| ==> TakenOver(s, upgrades[j], auths[j])
    requires i < |sessions| && sessions[i].permissions == Control
    ensures i < |upgrades| && ProvesControl(s, upgrades[i])
  {
    assert auths[i] == Some(Control);
    ControlIsProved(s, upgrades[i]);
  }

  /** End to end: over every run of the system whose connections come from the HTTP front end, every change of a gate
      that was ever sent to the board, and so every one that the board has carried out, is word for word a text of a
      connection that was taken over by a request which proved, for the nonce of that moment, the password of a
      stored user with Control. */
  lemma ChangesAreProved(s: Server, round: Rounding, es: seq<S.Event>, upgrades: seq<Upgrade>, k: nat)
    requires S.Runs(S.Initial(round), es) && Served(s, es, upgrades)
    requires k < |S.After(S.Initial(round), es).bridge.messenger.out.pushed|
    requires Understand(S.After(S.Initial(round), es).bridge.messenger.out.pushed[k]).Change?
    ensures var w := S.After(S.Initial(round), es);
            && k < |w.origins| && w.origins[k].FromClient?
            && var i, n := w.origins[k].session, w.origins[k].place;
            && i < |upgrades| && ProvesControl(s, upgrades[i])
            && i < |w.bridge.sessions| && n < |w.bridge.sessions[i].inbox|
            && Forwarded(Control, w.bridge.sessions[i].inbox[n]) != []
            && w.bridge.messenger.out.pushed[k] == Dump(Forwarded(Control, w.bridge.sessions[i].inbox[n])[0])
  {
    var w := S.After(S.Initial(round), es);
    Convergence.CommandsComeFromControllers(round, es, k);
    InitialInv(round);
    RunKeepsGranted(S.Initial(round), es, []);
    assert [] + Connections(es) == Connections(es);
    ControlWasGranted(s, w.bridge.sessions, Connections(es), upgrades, w.origins[k].session);
  }
}
