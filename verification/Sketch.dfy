/** The firmware sketch: seven gates, the command handler, the update loop and everything it prints on Serial. */
module Sketches {
  import opened Prelude
  import opened Json
  import opened Gates

  const GATES: nat := 7
  const PINS: seq<int> := [3, 5, 6, 9, 10, 11, 13]

  // ----------------------------------------------------------------- reports

  function StatusName(s: Status): string {
    match s
    case Raised => "raised"
    case Raising => "raising"
    case Lowered => "lowered"
    case Lowering => "lowering"
  }

  function EntryJson(id: nat, state: string): Json {
    Obj(map["id" := Int(id), "state" := Str(state)])
  }

  function ReportJson(items: seq<Json>): Json {
    Dump(Message(QueryStateResult, Arr(items)))
  }

  function ErrorJson(text: string): Json {
    Obj(map["type" := Str("error"), "payload" := Str(text)])
  }

  /** The array built by send_gate_states: one entry per known id, in the order of the ids. */
  function Entries(gates: seq<GateValue>, ids: seq<nat>): seq<Json>
    requires AllOk(gates)
  {
    if ids == [] then []
    else
      var id := ids[|ids| - 1];
      Entries(gates, ids[..|ids| - 1]) +
      if id < GATES then [EntryJson(id, StatusName(GetStatus(gates[id])))] else []
  }

  lemma EntriesSnoc(gates: seq<GateValue>, ids: seq<nat>, k: nat)
    requires AllOk(gates) && k < |ids|
    ensures Entries(gates, ids[..k + 1]) == Entries(gates, ids[..k]) +
            if ids[k] < GATES then [EntryJson(ids[k], StatusName(GetStatus(gates[ids[k]])))] else []
  {
    assert ids[..k + 1][..k] == ids[..k];
  }

  /** The elements that is<unsigned int>() accepts; unsigned int has 16 bits on the board. */
  predicate IsUnsigned(j: Json) {
    j.Int? && 0 <= j.n < 0x1_0000
  }

  function QueriedIds(items: seq<Json>): seq<nat> {
    if items == [] then []
    else
      var j := items[|items| - 1];
      QueriedIds(items[..|items| - 1]) + if IsUnsigned(j) then [j.n] else []
  }

  lemma QueriedSnoc(gates: seq<GateValue>, items: seq<Json>, k: nat)
    requires AllOk(gates) && k < |items|
    ensures Entries(gates, QueriedIds(items[..k + 1])) == Entries(gates, QueriedIds(items[..k])) +
            if IsUnsigned(items[k]) && items[k].n < GATES
            then [EntryJson(items[k].n, StatusName(GetStatus(gates[items[k].n])))] else []
  {
    assert items[..k + 1][..k] == items[..k];
    var ids := QueriedIds(items[..k + 1]);
    if IsUnsigned(items[k]) {
      assert ids[..|ids| - 1] == QueriedIds(items[..k]);
    } else {
      assert ids == QueriedIds(items[..k]);
    }
  }

  // ------------------------------------------------------- the state as a value

  /** Everything the sketch keeps, with the log of what it has printed. */
  datatype Board = Board(round: Rounding, gates: seq<GateValue>, pins: map<int, int>, out: seq<Json>)

  predicate AllOk(gates: seq<GateValue>) {
    |gates| == GATES && forall i :: 0 <= i < GATES ==> GateOk(gates[i])
  }

  function InitialBoard(round: Rounding): Board {
    Board(round, seq(GATES, _ => INITIAL), map[3 := 0, 5 := 0, 6 := 0, 9 := 0, 10 := 0, 11 := 0, 13 := 0], [])
  }

  function Print(b: Board, doc: Json): Board {
    b.(out := b.out + [doc])
  }

  function SendStates(b: Board, ids: seq<nat>): Board
    requires AllOk(b.gates)
  {
    Print(b, ReportJson(Entries(b.gates, ids)))
  }

  // ---------------------------------------------------------------- commands

  datatype Command =
    | Ignored                        // a null document
    | Unclear(why: string)           // answered with an error document
    | Change(id: nat, up: bool)
    | Query(items: seq<Json>)

  function Understand(doc: Json): Command {
    if doc.Null? then Ignored
    else if !Field(doc, "type").Str? then Unclear("malformed_type")
    else
      var kind, payload := Field(doc, "type").s, Field(doc, "payload");
      if kind == "change_state" then
        if payload.Obj? && IsUnsigned(Field(payload, "id")) && Field(payload, "state").Bool?
        then Change(Field(payload, "id").n, Field(payload, "state").b)
        else Unclear("malformed_change_state_payload")
      else if kind == "query_state" then
        if payload.Arr? then Query(payload.items) else Unclear("malformed_query_state_payload")
      else Unclear("unknown")
  }

  /** gates[id] is a gate: the sketch does not check the id of a change_state command. */
  predicate AddressesGate(doc: Json) {
    Understand(doc).Change? ==> Understand(doc).id < GATES
  }

  function Handle(b: Board, doc: Json): Board
    requires AllOk(b.gates) && AddressesGate(doc)
  {
    match Understand(doc)
    case Ignored => b
    case Unclear(why) => Print(b, ErrorJson(why))
    case Change(id, up) => SendStates(b.(gates := b.gates[id := Commanded(b.gates[id], up)]), [id])
    case Query(items) => SendStates(b, QueriedIds(items))
  }

  /** Ticking gate `i` and, if it was moving, showing its position on its pin. */
  function Shown(b: Board, i: nat): (c: Board)
    requires AllOk(b.gates) && i < GATES
    ensures AllOk(c.gates)
  {
    var g := b.gates[i];
    var h := Ticked(g, b.round);
    TickKeepsGateOk(g, b.round);
    b.(gates := b.gates[i := h], pins := if g.isChanging then b.pins[PINS[i] := Duty(h.state)] else b.pins)
  }

  /** One iteration of update_gates: a gate that has just come to rest is reported. */
  function TickGate(b: Board, i: nat): Board
    requires AllOk(b.gates) && i < GATES
  {
    var c := Shown(b, i);
    if c.gates[i].justFinished then SendStates(c, [i]) else c
  }

  function UpdateUpTo(b: Board, n: nat): (c: Board)
    requires AllOk(b.gates) && n <= GATES
    ensures AllOk(c.gates) && c.round == b.round
  {
    if n == 0 then b
    else
      var c := UpdateUpTo(b, n - 1);
      TickKeepsGateOk(c.gates[n - 1], c.round);
      TickGate(c, n - 1)
  }

  function Update(b: Board): Board
    requires AllOk(b.gates)
  {
    UpdateUpTo(b, GATES)
  }

  /** loop(): at most one document is read and handled, then every gate is ticked once. */
  function Loop(b: Board, input: Option<Json>): Board
    requires AllOk(b.gates) && (input.Some? ==> AddressesGate(input.value))
  {
    Update(if input.Some? then Handle(b, input.value) else b)
  }

  // --------------------------------------------------------------- the sketch

  ghost function Values(gates: seq<Gate>): (v: seq<GateValue>)
    reads gates
    ensures |v| == |gates| && forall i :: 0 <= i < |gates| ==> v[i] == gates[i].Value()
  {
    seq(|gates|, i requires 0 <= i < |gates| reads gates => gates[i].Value())
  }

  class Sketch {
    const round: Rounding
    const gates: seq<Gate>
    var pins: map<int, int>
    var serialOut: seq<Json>

    ghost predicate Valid()
      reads this, gates
    {
      && |gates| == GATES && NoDuplicates(gates)
      && (forall i :: 0 <= i < GATES ==> gates[i].round == round)
      && AllOk(Values(gates))
    }

    ghost function Value(): Board
      reads this, gates
    {
      Board(round, Values(gates), pins, serialOut)
    }

    constructor (round: Rounding)
      ensures Valid() && fresh(gates) && Value() == InitialBoard(round)
    {
      var all: seq<Gate> := [];
      for i := 0 to GATES
        invariant |all| == i && NoDuplicates(all)
        invariant forall k :: 0 <= k < i ==> fresh(all[k]) && all[k].round == round && all[k].Value() == INITIAL
      {
        var gate := new Gate(round);
        all := all + [gate];
      }
      this.round := round;
      gates := all;
      pins := map[3 := 0, 5 := 0, 6 := 0, 9 := 0, 10 := 0, 11 := 0, 13 := 0];
      serialOut := [];
      new;
      assert Values(gates) == InitialBoard(round).gates;
    }

    method SendGateStates(ids: seq<nat>)
      requires Valid()
      modifies this
      ensures Valid() && Value() == SendStates(old(Value()), ids)
    {
      ghost var values := Values(gates);
      var payload: seq<Json> := [];
      for k := 0 to |ids|
        modifies {}
        invariant payload == Entries(values, ids[..k])
      {
        EntriesSnoc(values, ids, k);
        var id := ids[k];
        if id >= GATES {
          continue;
        }
        var status := gates[id].GetState();
        payload := payload + [EntryJson(id, StatusName(status))];
      }
      assert ids[..|ids|] == ids;
      serialOut := serialOut + [ReportJson(payload)];
      assert Values(gates) == values;
    }

    /** The overload for a JSON array: it skips the elements that are not unsigned integers. */
    method SendQueriedStates(query: seq<Json>)
      requires Valid()
      modifies this
      ensures Valid() && Value() == SendStates(old(Value()), QueriedIds(query))
    {
      ghost var values := Values(gates);
      var payload: seq<Json> := [];
      for k := 0 to |query|
        modifies {}
        invariant payload == Entries(values, QueriedIds(query[..k]))
      {
        QueriedSnoc(values, query, k);
        var el := query[k];
        if !IsUnsigned(el) {
          continue;
        }
        var id := el.n;
        if id >= GATES {
          continue;
        }
        var status := gates[id].GetState();
        payload := payload + [EntryJson(id, StatusName(status))];
      }
      assert query[..|query|] == query;
      serialOut := serialOut + [ReportJson(payload)];
      assert Values(gates) == values;
    }

    method SendError(text: string)
      requires Valid()
      modifies this
      ensures Valid() && Value() == Print(old(Value()), ErrorJson(text))
    {
      serialOut := serialOut + [ErrorJson(text)];
    }

    /** `defined` is false exactly where the sketch indexes beyond its array of gates; nothing is claimed then. */
    method HandleMessage(doc: Json) returns (defined: bool)
      requires Valid()
      modifies this, gates
      ensures defined == AddressesGate(doc)
      ensures defined ==> Valid() && Value() == Handle(old(Value()), doc)
    {
      defined := true;
      if doc.Null? {
        return;
      }
      if !Field(doc, "type").Str? {
        SendError("malformed_type");
        return;
      }
      var kind := Field(doc, "type").s;
      var payload := Field(doc, "payload");
      if kind == "change_state" {
        if !payload.Obj? {
          SendError("malformed_change_state_payload");
          return;
        }
        if !IsUnsigned(Field(payload, "id")) || !Field(payload, "state").Bool? {
          SendError("malformed_change_state_payload");
          return;
        }
        defined := ChangeState(Field(payload, "id").n, Field(payload, "state").b);
      } else if kind == "query_state" {
        if !payload.Arr? {
          SendError("malformed_query_state_payload");
          return;
        }
        SendQueriedStates(payload.items);
      } else {
        SendError("unknown");
      }
    }

    /** The branch of a well-formed change_state command. */
    method ChangeState(id: nat, newState: bool) returns (defined: bool)
      requires Valid()
      modifies this, gates
      ensures defined == (id < GATES)
      ensures defined ==> Valid()
      ensures defined ==>
                var b := old(Value());
                Value() == SendStates(b.(gates := b.gates[id := Commanded(b.gates[id], newState)]), [id])
    {
      if id >= GATES {
        return false;
      }
      var selectedGate := gates[id];
      ghost var before := Value();
      assert selectedGate.Value() == before.gates[id];
      if newState {
        selectedGate.Raise();
      } else {
        selectedGate.Lower();
      }
      assert Value().gates == before.gates[id := Commanded(before.gates[id], newState)];
      SendGateStates([id]);
      return true;
    }

    method TickAndShow(i: nat)
      requires Valid() && i < GATES
      modifies this, gates[i]
      ensures Valid() && Value() == Shown(old(Value()), i)
    {
      ghost var before := Values(gates);
      var gate := gates[i];
      TickKeepsGateOk(before[i], round);
      var changed := gate.Tick();
      ghost var after := Values(gates);
      assert after == before[i := Ticked(before[i], round)];
      if changed {
        pins := pins[PINS[i] := Duty(gate.state)];
      }
      assert Values(gates) == after;
    }

    method UpdateGates()
      requires Valid()
      modifies this, gates
      ensures Valid() && Value() == Update(old(Value()))
    {
      ghost var start := Value();
      for i := 0 to GATES
        invariant Valid() && Value() == UpdateUpTo(start, i)
      {
        TickAndShow(i);
        var finished := gates[i].FinishedMoving();
        if finished {
          SendGateStates([i]);
        }
      }
    }

    /** One pass of loop(); `input` is the document waiting on Serial, if any. */
    method RunLoop(input: Option<Json>) returns (defined: bool)
      requires Valid()
      modifies this, gates
      ensures defined == (input.Some? ==> AddressesGate(input.value))
      ensures defined ==> Valid() && Value() == Loop(old(Value()), input)
    {
      defined := true;
      if input.Some? {
        defined := HandleMessage(input.value);
        if !defined {
          return;
        }
      }
      UpdateGates();
    }
  }
}
