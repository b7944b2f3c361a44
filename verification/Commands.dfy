/** What each document does to the board, in terms of the document alone: its fields, their types and their values. */
module Commands {
  import opened Prelude
  import opened Json
  import opened Gates
  import opened Sketches
  import opened SketchRuns

  predicate HasType(doc: Json, kind: string) {
    doc.Obj? && "type" in doc.fields && doc.fields["type"] == Str(kind)
  }

  /** { "type": "change_state", "payload": { "id": id, "state": up } }, possibly with more fields. */
  predicate AsksChange(doc: Json, id: nat, up: bool) {
    && HasType(doc, "change_state") && "payload" in doc.fields
    && var payload := doc.fields["payload"];
       payload.Obj? && "id" in payload.fields && payload.fields["id"] == Int(id)
       && "state" in payload.fields && payload.fields["state"] == Bool(up)
  }

  /** { "type": "query_state", "payload": items }, possibly with more fields. */
  predicate AsksStates(doc: Json, items: seq<Json>) {
    HasType(doc, "query_state") && "payload" in doc.fields && doc.fields["payload"] == Arr(items)
  }

  /** How a client is shown a gate. */
  predicate ShownAs(g: GateValue, name: string) {
    if g.isChanging then name == if g.isLowering then "lowering" else "raising"
    else (g.state == 0 && name == "lowered") || (g.state == ONE && name == "raised")
  }

  // ------------------------------------------------------- what is understood

  lemma ChangeIsUnderstood(doc: Json, id: nat, up: bool)
    ensures Understand(doc) == Change(id, up) <==> id < 0x1_0000 && AsksChange(doc, id, up)
  {
    assert "change_state"[0] == 'c' && "query_state"[0] == 'q';
  }

  lemma QueryIsUnderstood(doc: Json, items: seq<Json>)
    ensures Understand(doc) == Query(items) <==> AsksStates(doc, items)
  {
    assert "change_state"[0] == 'c' && "query_state"[0] == 'q';
  }

  lemma AddressedIsAsked(doc: Json)
    ensures AddressesGate(doc) <==> forall id: nat, up: bool :: AsksChange(doc, id, up) && id < 0x1_0000 ==> id < GATES
  {
    forall id: nat, up: bool | AsksChange(doc, id, up) && id < 0x1_0000 ensures Understand(doc) == Change(id, up) {
      ChangeIsUnderstood(doc, id, up);
    }
    if Understand(doc).Change? {
      ChangeIsUnderstood(doc, Understand(doc).id, Understand(doc).up);
    }
  }

  // ------------------------------------------------------------ what is done

  /** A change of gate `id` raises it if the state asked for is true and lowers it otherwise, whatever it was doing;
      its position, the other gates and the pins stay; and one report is printed, which tells its new state and
      nothing about other gates. */
  lemma ChangeIsHandled(b: Board, doc: Json, id: nat, up: bool) returns (report: Json)
    requires AllOk(b.gates) && AsksChange(doc, id, up) && id < GATES
    ensures AddressesGate(doc)
    ensures var c := Handle(b, doc);
            && |c.gates| == GATES && c.pins == b.pins && c.out == b.out + [report]
            && c.gates[id].isChanging && c.gates[id].isLowering == !up && c.gates[id].state == b.gates[id].state
            && (forall j :: 0 <= j < GATES && j != id ==> c.gates[j] == b.gates[j])
    ensures Told(report, id) == Some(if up then "raising" else "lowering")
    ensures forall j: nat :: j < GATES && j != id ==> Told(report, j) == None
  {
    ChangeIsUnderstood(doc, id, up);
    var gates := b.gates[id := Commanded(b.gates[id], up)];
    report := ReportJson(Entries(gates, [id]));
    forall j: nat | j < GATES
      ensures Told(report, j) == if j == id then Some(StatusName(GetStatus(gates[id]))) else None
    {
      ReportTells(gates, [id], j);
    }
  }

  /** The elements of a query that are ids of gates, in their order. */
  function GateIds(items: seq<Json>): seq<Json> {
    if items == [] then []
    else
      var j := items[|items| - 1];
      GateIds(items[..|items| - 1]) + if j.Int? && 0 <= j.n < 7 then [j] else []
  }

  lemma {:induction false} KnownAreGateIds(items: seq<Json>)
    ensures KnownIds(QueriedIds(items)) == GateIds(items)
  {
    if items != [] {
      var j := items[|items| - 1];
      var rest := QueriedIds(items[..|items| - 1]);
      KnownAreGateIds(items[..|items| - 1]);
      if IsUnsigned(j) {
        assert (rest + [j.n])[..|rest|] == rest;
      } else {
        assert QueriedIds(items) == rest;
      }
    }
  }

  /** The entry names a gate and how it is shown. */
  predicate Describes(e: Json, gates: seq<GateValue>) {
    && Field(e, "id").Int? && 0 <= Field(e, "id").n < |gates| && Field(e, "state").Str?
    && ShownAs(gates[Field(e, "id").n], Field(e, "state").s)
  }

  lemma EntryDescribes(gates: seq<GateValue>, id: nat)
    requires AllOk(gates) && id < GATES
    ensures Describes(EntryJson(id, StatusName(GetStatus(gates[id]))), gates)
  {
    var e := EntryJson(id, StatusName(GetStatus(gates[id])));
    assert Field(e, "id") == Int(id) && Field(e, "state") == Str(StatusName(GetStatus(gates[id])));
    assert GateOk(gates[id]);
  }

  lemma {:induction false} EntriesDescribe(gates: seq<GateValue>, ids: seq<nat>)
    requires AllOk(gates)
    ensures forall e :: e in Entries(gates, ids) ==> Describes(e, gates)
  {
    if ids != [] {
      EntriesDescribe(gates, ids[..|ids| - 1]);
      if ids[|ids| - 1] < GATES {
        EntryDescribes(gates, ids[|ids| - 1]);
      }
    }
  }

  /** A query changes nothing and is answered with exactly one report: its ids are the queried ids of gates, in the
      order of the query, and each entry shows how that gate is. */
  lemma QueryIsHandled(b: Board, doc: Json, items: seq<Json>) returns (entries: seq<Json>)
    requires AllOk(b.gates) && AsksStates(doc, items)
    ensures AddressesGate(doc)
    ensures Handle(b, doc) ==
            b.(out := b.out + [Obj(map["type" := Str("query_state_result"), "payload" := Arr(entries)])])
    ensures EntryIds(entries) == GateIds(items) && forall e :: e in entries ==> Describes(e, b.gates)
  {
    QueryIsUnderstood(doc, items);
    var ids := QueriedIds(items);
    entries := Entries(b.gates, ids);
    EntriesFollowRequest(b.gates, ids);
    KnownAreGateIds(items);
    EntriesDescribe(b.gates, ids);
  }

  /** The error text for a document that is neither null nor a well-formed change or query. */
  predicate Deserves(doc: Json, why: string) {
    if !(doc.Obj? && "type" in doc.fields && doc.fields["type"].Str?) then why == "malformed_type"
    else if HasType(doc, "change_state") then why == "malformed_change_state_payload"
    else if HasType(doc, "query_state") then why == "malformed_query_state_payload"
    else why == "unknown"
  }

  /** Every other document changes nothing: null is passed over, and any other is answered with one error document
      that names its defect. */
  lemma OtherDocumentsAreRefused(b: Board, doc: Json) returns (why: string)
    requires AllOk(b.gates)
    requires forall id: nat, up: bool :: AsksChange(doc, id, up) ==> id >= 0x1_0000
    requires forall items :: !AsksStates(doc, items)
    ensures AddressesGate(doc)
    ensures if doc == Null then Handle(b, doc) == b
            else
              && Deserves(doc, why)
              && Handle(b, doc) == b.(out := b.out + [Obj(map["type" := Str("error"), "payload" := Str(why)])])
  {
    match Understand(doc)
    case Change(id, up) =>
      ChangeIsUnderstood(doc, id, up);
      assert false;
    case Query(items) =>
      QueryIsUnderstood(doc, items);
      assert false;
    case Ignored =>
      why := "";
    case Unclear(text) =>
      why := text;
      ErrorIsDeserved(doc);
  }

  lemma ErrorIsDeserved(doc: Json)
    requires Understand(doc).Unclear?
    ensures Deserves(doc, Understand(doc).why)
  {
    assert "change_state"[0] == 'c' && "query_state"[0] == 'q';
  }

  // ------------------------------------------------------------- over whole runs

  /** No document asks for a change of gate `g`. */
  predicate NoneAsks(inputs: seq<Option<Json>>, g: nat) {
    forall k, up: bool :: 0 <= k < |inputs| && inputs[k].Some? ==> !AsksChange(inputs[k].value, g, up)
  }

  lemma NoneAsksLeavesAlone(inputs: seq<Option<Json>>, g: nat)
    requires NoneAsks(inputs, g)
    ensures LeavesAlone(inputs, g)
  {
    forall k | 0 <= k < |inputs| && inputs[k].Some? && Understand(inputs[k].value).Change?
      ensures Understand(inputs[k].value).id != g
    {
      var c := Understand(inputs[k].value);
      ChangeIsUnderstood(inputs[k].value, c.id, c.up);
    }
  }

  /** A document that asks to raise a gate is carried out, and so is one that asks to lower it: from any coherent
      board, after 101 passes of loop() in which nothing else asks for a change of that gate, it is at rest at
      exactly 1.0 if the state asked for is true and at exactly 0.0 otherwise, and the last report says so. */
  lemma ChangeIsCarriedOut(b: Board, doc: Json, later: seq<Option<Json>>, g: nat, up: bool)
    requires Coherent(b) && Addressed([Some(doc)] + later) && |later| >= 100 && g < GATES
    requires AsksChange(doc, g, up) && NoneAsks(later, g)
    ensures var c := Run(b, [Some(doc)] + later);
            && !c.gates[g].isChanging && c.gates[g].state == (if up then ONE else 0)
            && Screen(c.out, g) == Some(if up then "raised" else "lowered")
  {
    var inputs := [Some(doc)] + later;
    ChangeIsUnderstood(doc, g, up);
    NoneAsksLeavesAlone(later, g);
    assert inputs[1..] == later;
    CommandIsCarriedOut(b, inputs, g, up);
  }

  /** A new board: every gate is shown as lowered, every pin is 0, and nothing has been printed. */
  lemma NewBoardIsLowered(round: Rounding)
    ensures var b := InitialBoard(round);
            && |b.gates| == 7 && b.out == []
            && (forall g :: 0 <= g < 7 ==> ShownAs(b.gates[g], "lowered") && PINS[g] in b.pins && b.pins[PINS[g]] == 0)
  {
  }
}
