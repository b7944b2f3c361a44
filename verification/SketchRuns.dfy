/** What the firmware guarantees over whole runs: its last report about a gate is always true, completion reports
    are exactly the completed movements, and a command is carried out within 101 passes of loop(). */
module SketchRuns {
  import opened Prelude
  import opened Json
  import opened Gates
  import opened Sketches

  // ------------------------------------------------- reading reports as a client

  /** The state a client shows for gate `g` after applying the entries in order. */
  function LastEntry(items: seq<Json>, g: nat): Option<string> {
    if items == [] then None
    else
      var e := items[|items| - 1];
      if Field(e, "id") == Int(g) && Field(e, "state").Str? then Some(Field(e, "state").s)
      else LastEntry(items[..|items| - 1], g)
  }

  function Told(doc: Json, g: nat): Option<string> {
    if Field(doc, "type") == Str("query_state_result") && Field(doc, "payload").Arr?
    then LastEntry(Field(doc, "payload").items, g) else None
  }

  /** What a client that has received `docs` shows for gate `g`. */
  function Screen(docs: seq<Json>, g: nat): Option<string> {
    if docs == [] then None
    else
      var t := Told(docs[|docs| - 1], g);
      if t.Some? then t else Screen(docs[..|docs| - 1], g)
  }

  lemma {:induction false} ScreenConcat(a: seq<Json>, b: seq<Json>, g: nat)
    ensures Screen(a + b, g) == if Screen(b, g).Some? then Screen(b, g) else Screen(a, g)
  {
    if b == [] {
      assert a + b == a;
    } else {
      assert (a + b)[..|a + b| - 1] == a + b[..|b| - 1];
      ScreenConcat(a, b[..|b| - 1], g);
    }
  }

  lemma LastEntryConcat(items: seq<Json>, id: nat, state: string, g: nat)
    ensures LastEntry(items + [EntryJson(id, state)], g) == if id == g then Some(state) else LastEntry(items, g)
  {
    var all := items + [EntryJson(id, state)];
    assert all[..|all| - 1] == items;
    assert Field(EntryJson(id, state), "id") == Int(id) && Field(EntryJson(id, state), "state") == Str(state);
  }

  lemma {:induction false} EntriesTell(gates: seq<GateValue>, ids: seq<nat>, g: nat)
    requires AllOk(gates) && g < GATES
    ensures LastEntry(Entries(gates, ids), g) ==
            if g in ids then Some(StatusName(GetStatus(gates[g]))) else None
  {
    if ids != [] {
      var id := ids[|ids| - 1];
      var rest := ids[..|ids| - 1];
      assert ids == rest + [id];
      EntriesTell(gates, rest, g);
      if id < GATES {
        LastEntryConcat(Entries(gates, rest), id, StatusName(GetStatus(gates[id])), g);
      } else {
        assert Entries(gates, ids) == Entries(gates, rest);
      }
    }
  }

  /** A report shows exactly the requested gates, each with its status at the moment of the report. */
  lemma ReportTells(gates: seq<GateValue>, ids: seq<nat>, g: nat)
    requires AllOk(gates) && g < GATES
    ensures Told(ReportJson(Entries(gates, ids)), g) ==
            if g in ids then Some(StatusName(GetStatus(gates[g]))) else None
  {
    EntriesTell(gates, ids, g);
    var doc := ReportJson(Entries(gates, ids));
    assert Field(doc, "type") == Str("query_state_result") && Field(doc, "payload") == Arr(Entries(gates, ids));
  }

  lemma ErrorTellsNothing(why: string, g: nat)
    ensures Told(ErrorJson(why), g) == None
  {
    assert Field(ErrorJson(why), "type") == Str("error");
    assert |"error"| != |"query_state_result"|;
  }

  function EntryIds(items: seq<Json>): seq<Json> {
    if items == [] then [] else EntryIds(items[..|items| - 1]) + [Field(items[|items| - 1], "id")]
  }

  /** The ids of `ids` that name a gate, in their order. */
  function KnownIds(ids: seq<nat>): seq<Json> {
    if ids == [] then []
    else KnownIds(ids[..|ids| - 1]) + if ids[|ids| - 1] < GATES then [Int(ids[|ids| - 1])] else []
  }

  predicate NamesAState(e: Json) {
    var s := Field(e, "state");
    s == Str("raised") || s == Str("raising") || s == Str("lowered") || s == Str("lowering")
  }

  /** The ids in a report are the known ones of the request, in the order of the request. */
  lemma {:induction false} EntriesFollowRequest(gates: seq<GateValue>, ids: seq<nat>)
    requires AllOk(gates)
    ensures EntryIds(Entries(gates, ids)) == KnownIds(ids)
  {
    if ids != [] {
      var id := ids[|ids| - 1];
      var rest := ids[..|ids| - 1];
      EntriesFollowRequest(gates, rest);
      if id < GATES {
        EntryIdsSnoc(Entries(gates, rest), id, StatusName(GetStatus(gates[id])));
      } else {
        assert Entries(gates, ids) == Entries(gates, rest);
      }
    }
  }

  lemma EntryIdsSnoc(items: seq<Json>, id: nat, state: string)
    ensures EntryIds(items + [EntryJson(id, state)]) == EntryIds(items) + [Int(id)]
  {
    var all := items + [EntryJson(id, state)];
    assert all[..|all| - 1] == items;
    assert Field(EntryJson(id, state), "id") == Int(id);
  }

  /** Every entry of every report carries one of the four state strings. */
  lemma {:induction false} EntriesNameStates(gates: seq<GateValue>, ids: seq<nat>)
    requires AllOk(gates)
    ensures forall e :: e in Entries(gates, ids) ==> NamesAState(e)
  {
    if ids != [] {
      EntriesNameStates(gates, ids[..|ids| - 1]);
      var id := ids[|ids| - 1];
      if id < GATES {
        assert NamesAState(EntryJson(id, StatusName(GetStatus(gates[id]))));
      }
    }
  }

  // --------------------------------------------------------------- the invariant

  /** The most recent report about each gate, if there is one, is its present state. */
  predicate TellsTruth(out: seq<Json>, gates: seq<GateValue>)
    requires AllOk(gates)
  {
    forall g: nat :: g < GATES && Screen(out, g).Some? ==> Screen(out, g).value == StatusName(GetStatus(gates[g]))
  }

  predicate PinsShow(pins: map<int, int>, gates: seq<GateValue>)
    requires |gates| == GATES
  {
    forall i :: 0 <= i < GATES ==> PINS[i] in pins && pins[PINS[i]] == Duty(gates[i].state)
  }

  predicate Coherent(b: Board) {
    AllOk(b.gates) && TellsTruth(b.out, b.gates) && PinsShow(b.pins, b.gates)
  }

  lemma InitiallyCoherent(round: Rounding)
    ensures Coherent(InitialBoard(round))
  {
    DutyRange(0);
  }

  lemma PrintedScreen(out: seq<Json>, doc: Json, g: nat)
    ensures Screen(out + [doc], g) == if Told(doc, g).Some? then Told(doc, g) else Screen(out, g)
  {
    assert (out + [doc])[..|out|] == out;
  }

  /** A report that names every gate whose status has changed restores the truth. */
  lemma ReportRestoresTruth(out: seq<Json>, before: seq<GateValue>, after: seq<GateValue>, ids: seq<nat>)
    requires AllOk(before) && AllOk(after) && TellsTruth(out, before)
    requires forall g: nat :: g < GATES && g !in ids ==> GetStatus(after[g]) == GetStatus(before[g])
    ensures TellsTruth(out + [ReportJson(Entries(after, ids))], after)
    ensures forall g: nat :: g < GATES && g in ids ==> Screen(out + [ReportJson(Entries(after, ids))], g).Some?
  {
    var doc := ReportJson(Entries(after, ids));
    forall g: nat | g < GATES
      ensures Screen(out + [doc], g).Some? ==> Screen(out + [doc], g).value == StatusName(GetStatus(after[g]))
      ensures g in ids ==> Screen(out + [doc], g).Some?
    {
      PrintedScreen(out, doc, g);
      ReportTells(after, ids, g);
    }
  }

  lemma ErrorKeepsTruth(out: seq<Json>, gates: seq<GateValue>, why: string)
    requires AllOk(gates) && TellsTruth(out, gates)
    ensures TellsTruth(out + [ErrorJson(why)], gates)
  {
    forall g: nat ensures Screen(out + [ErrorJson(why)], g) == Screen(out, g) {
      PrintedScreen(out, ErrorJson(why), g);
      ErrorTellsNothing(why, g);
    }
  }

  lemma HandleKeepsCoherent(b: Board, doc: Json)
    requires Coherent(b) && AddressesGate(doc)
    ensures Coherent(Handle(b, doc))
  {
    match Understand(doc)
    case Ignored =>
    case Unclear(why) => ErrorKeepsTruth(b.out, b.gates, why);
    case Query(items) => ReportRestoresTruth(b.out, b.gates, b.gates, QueriedIds(items));
    case Change(id, up) =>
      ReportRestoresTruth(b.out, b.gates, b.gates[id := Commanded(b.gates[id], up)], [id]);
  }

  /** What ticking gate `i` does not touch: every other gate, its pin, and what was last reported about it. */
  predicate LeavesOthers(b: Board, c: Board, i: nat)
    requires |b.gates| == |c.gates| == GATES
  {
    forall j: nat :: j < GATES && j != i ==>
      && c.gates[j] == b.gates[j] && Screen(c.out, j) == Screen(b.out, j)
      && (PINS[j] in c.pins <==> PINS[j] in b.pins) && (PINS[j] in b.pins ==> c.pins[PINS[j]] == b.pins[PINS[j]])
  }

  lemma ReportLeavesOthers(out: seq<Json>, gates: seq<GateValue>, i: nat, j: nat)
    requires AllOk(gates) && i < GATES && j < GATES && j != i
    ensures Screen(out + [ReportJson(Entries(gates, [i]))], j) == Screen(out, j)
  {
    PrintedScreen(out, ReportJson(Entries(gates, [i])), j);
    ReportTells(gates, [i], j);
  }

  lemma TickLeavesOthers(b: Board, i: nat)
    requires AllOk(b.gates) && i < GATES
    ensures LeavesOthers(b, TickGate(b, i), i)
  {
    assert NoDuplicates(PINS);
    var h := Ticked(b.gates[i], b.round);
    TickKeepsGateOk(b.gates[i], b.round);
    if h.justFinished {
      forall j: nat | j < GATES && j != i
        ensures Screen(TickGate(b, i).out, j) == Screen(b.out, j)
      {
        ReportLeavesOthers(b.out, b.gates[i := h], i, j);
      }
    }
  }

  /** Ticking one gate keeps the last report about every gate true, and leaves the other gates, their pins and their
      last reports alone. */
  lemma TickGateKeepsCoherent(b: Board, i: nat)
    requires Coherent(b) && i < GATES
    ensures Coherent(TickGate(b, i)) && LeavesOthers(b, TickGate(b, i), i)
  {
    var h := Ticked(b.gates[i], b.round);
    TickKeepsGateOk(b.gates[i], b.round);
    TickLeavesOthers(b, i);
    PinsAfterTick(b, i);
    if h.justFinished {
      ReportRestoresTruth(b.out, b.gates, b.gates[i := h], [i]);
    }
  }

  lemma PinsAfterTick(b: Board, i: nat)
    requires AllOk(b.gates) && PinsShow(b.pins, b.gates) && i < GATES
    ensures PinsShow(TickGate(b, i).pins, TickGate(b, i).gates)
  {
    assert NoDuplicates(PINS);
  }

  lemma {:induction false} UpdateKeepsCoherent(b: Board, n: nat)
    requires Coherent(b) && n <= GATES
    ensures Coherent(UpdateUpTo(b, n))
  {
    if n > 0 {
      UpdateKeepsCoherent(b, n - 1);
      TickGateKeepsCoherent(UpdateUpTo(b, n - 1), n - 1);
    }
  }

  lemma LoopKeepsCoherent(b: Board, input: Option<Json>)
    requires Coherent(b) && (input.Some? ==> AddressesGate(input.value))
    ensures Coherent(Loop(b, input))
  {
    if input.Some? {
      HandleKeepsCoherent(b, input.value);
    }
    UpdateKeepsCoherent(if input.Some? then Handle(b, input.value) else b, GATES);
  }

  // ------------------------------------------------------------------------ runs

  predicate Addressed(inputs: seq<Option<Json>>) {
    forall k :: 0 <= k < |inputs| && inputs[k].Some? ==> AddressesGate(inputs[k].value)
  }

  /** The board after one pass of loop() per element of `inputs`. */
  function Run(b: Board, inputs: seq<Option<Json>>): (c: Board)
    requires AllOk(b.gates) && Addressed(inputs)
    ensures AllOk(c.gates)
    decreases |inputs|
  {
    if inputs == [] then b else Run(Loop(b, inputs[0]), inputs[1..])
  }

  lemma {:induction false} RunKeepsCoherent(b: Board, inputs: seq<Option<Json>>)
    requires Coherent(b) && Addressed(inputs)
    ensures Coherent(Run(b, inputs))
    decreases |inputs|
  {
    if inputs != [] {
      LoopKeepsCoherent(b, inputs[0]);
      RunKeepsCoherent(Loop(b, inputs[0]), inputs[1..]);
    }
  }

  /** Whatever commands and queries arrive, after every pass of loop() the most recent report about every gate is
      that gate's state, every position is in [0, 1] with a status, and every LED shows its gate's position. */
  lemma ReportsAreAlwaysTrue(round: Rounding, inputs: seq<Option<Json>>)
    requires Addressed(inputs)
    ensures Coherent(Run(InitialBoard(round), inputs))
  {
    InitiallyCoherent(round);
    RunKeepsCoherent(InitialBoard(round), inputs);
  }

  // ------------------------------------------------------- completed movements

  predicate Completes(before: GateValue, after: GateValue) {
    before.isChanging && !after.isChanging
  }

  /** One report for each gate that came to rest, in the order of the gates. */
  function Completions(before: seq<GateValue>, after: seq<GateValue>, n: nat): seq<Json>
    requires AllOk(before) && AllOk(after) && n <= GATES
  {
    if n == 0 then []
    else
      Completions(before, after, n - 1) +
      if Completes(before[n - 1], after[n - 1])
      then [ReportJson([EntryJson(n - 1, StatusName(GetStatus(after[n - 1])))])] else []
  }

  /** One more gate of the update: it is ticked, and a report is printed exactly if that ended its movement. */
  lemma TickGateReports(b: Board, i: nat)
    requires AllOk(b.gates) && i < GATES
    ensures var c := TickGate(b, i);
            && c.gates == b.gates[i := Ticked(b.gates[i], b.round)] && c.round == b.round
            && c.out == b.out + if Completes(b.gates[i], c.gates[i])
                                then [ReportJson([EntryJson(i, StatusName(GetStatus(c.gates[i])))])] else []
  {
    TickKeepsGateOk(b.gates[i], b.round);
    var gates := b.gates[i := Ticked(b.gates[i], b.round)];
    assert [i][..0] == [];
    assert Entries(gates, [i]) == [EntryJson(i, StatusName(GetStatus(gates[i])))];
  }

  /** update_gates ticks every gate once, and prints a report for exactly the gates whose movement it ended. */
  lemma {:induction false} UpdateReportsCompletions(b: Board, n: nat)
    requires AllOk(b.gates) && n <= GATES
    ensures var c := UpdateUpTo(b, n);
            && (forall i :: 0 <= i < GATES ==> c.gates[i] == if i < n then Ticked(b.gates[i], b.round) else b.gates[i])
            && c.out == b.out + Completions(b.gates, c.gates, n) && c.round == b.round
  {
    if n > 0 {
      UpdateReportsCompletions(b, n - 1);
      var p, c := UpdateUpTo(b, n - 1), UpdateUpTo(b, n);
      TickGateReports(p, n - 1);
      CompletionsAgree(b.gates, p.gates, c.gates, n - 1);
      var last := if Completes(b.gates[n - 1], c.gates[n - 1])
                  then [ReportJson([EntryJson(n - 1, StatusName(GetStatus(c.gates[n - 1])))])] else [];
      Reassociated(b.out, Completions(b.gates, p.gates, n - 1), last);
    }
  }

  lemma {:induction false} CompletionsAgree(before: seq<GateValue>, p: seq<GateValue>, q: seq<GateValue>, n: nat)
    requires AllOk(before) && AllOk(p) && AllOk(q) && n <= GATES && p[..n] == q[..n]
    ensures Completions(before, p, n) == Completions(before, q, n)
  {
    if n > 0 {
      assert p[..n][n - 1] == q[..n][n - 1];
      assert p[..n - 1] == p[..n][..n - 1] && q[..n - 1] == q[..n][..n - 1];
      CompletionsAgree(before, p, q, n - 1);
    }
  }

  /** The board once the input of a pass is handled, before the gates are ticked. */
  function Taken(b: Board, input: Option<Json>): (c: Board)
    requires AllOk(b.gates) && (input.Some? ==> AddressesGate(input.value))
    ensures AllOk(c.gates) && b.out <= c.out && |c.out| <= |b.out| + 1
  {
    if input.Some? then Handle(b, input.value) else b
  }

  /** All that a run prints: in each pass the answer to its input, if any, and then the completion reports. */
  function Printed(b: Board, inputs: seq<Option<Json>>): seq<Json>
    requires AllOk(b.gates) && Addressed(inputs)
    decreases |inputs|
  {
    if inputs == [] then []
    else
      var h, c := Taken(b, inputs[0]), Loop(b, inputs[0]);
      h.out[|b.out|..] + Completions(h.gates, c.gates, GATES) + Printed(c, inputs[1..])
  }

  /** How many documents tell something about gate `g`. */
  function Naming(docs: seq<Json>, g: nat): nat {
    if docs == [] then 0
    else Naming(docs[..|docs| - 1], g) + if Told(docs[|docs| - 1], g).Some? then 1 else 0
  }

  /** How many of the completion reports of a run are about gate `g`. */
  function CompletionReports(b: Board, inputs: seq<Option<Json>>, g: nat): nat
    requires AllOk(b.gates) && Addressed(inputs)
    decreases |inputs|
  {
    if inputs == [] then 0
    else
      var h, c := Taken(b, inputs[0]), Loop(b, inputs[0]);
      Naming(Completions(h.gates, c.gates, GATES), g) + CompletionReports(c, inputs[1..], g)
  }

  /** In how many passes of a run gate `g` goes from moving to rest. */
  function Stops(b: Board, inputs: seq<Option<Json>>, g: nat): nat
    requires AllOk(b.gates) && Addressed(inputs) && g < GATES
    decreases |inputs|
  {
    if inputs == [] then 0
    else
      var h, c := Taken(b, inputs[0]), Loop(b, inputs[0]);
      (if Completes(h.gates[g], c.gates[g]) then 1 else 0) + Stops(c, inputs[1..], g)
  }

  lemma EntryTells(id: nat, state: string, g: nat)
    ensures Told(ReportJson([EntryJson(id, state)]), g).Some? <==> id == g
  {
    var doc := ReportJson([EntryJson(id, state)]);
    assert Field(doc, "type") == Str("query_state_result") && Field(doc, "payload") == Arr([EntryJson(id, state)]);
    assert [] + [EntryJson(id, state)] == [EntryJson(id, state)];
    LastEntryConcat([], id, state, g);
  }

  lemma {:induction false} CompletionsNameOnce(before: seq<GateValue>, after: seq<GateValue>, n: nat, g: nat)
    requires AllOk(before) && AllOk(after) && n <= GATES && g < GATES
    ensures Naming(Completions(before, after, n), g) == if g < n && Completes(before[g], after[g]) then 1 else 0
  {
    if n > 0 {
      CompletionsNameOnce(before, after, n - 1, g);
      var docs := Completions(before, after, n - 1);
      if Completes(before[n - 1], after[n - 1]) {
        var state := StatusName(GetStatus(after[n - 1]));
        EntryTells(n - 1, state, g);
        assert (docs + [ReportJson([EntryJson(n - 1, state)])])[..|docs|] == docs;
      } else {
        assert docs + [] == docs;
      }
    }
  }

  lemma LoopPrints(b: Board, input: Option<Json>)
    requires AllOk(b.gates) && (input.Some? ==> AddressesGate(input.value))
    ensures var h, c := Taken(b, input), Loop(b, input);
            c.out == b.out + (h.out[|b.out|..] + Completions(h.gates, c.gates, GATES))
  {
    var h := Taken(b, input);
    UpdateReportsCompletions(h, GATES);
    assert h.out == b.out + h.out[|b.out|..];
  }

  lemma {:induction false} RunPrints(b: Board, inputs: seq<Option<Json>>)
    requires AllOk(b.gates) && Addressed(inputs)
    ensures Run(b, inputs).out == b.out + Printed(b, inputs)
    decreases |inputs|
  {
    if inputs != [] {
      var h, c := Taken(b, inputs[0]), Loop(b, inputs[0]);
      LoopPrints(b, inputs[0]);
      RunPrints(c, inputs[1..]);
      Reassociated(b.out, h.out[|b.out|..] + Completions(h.gates, c.gates, GATES), Printed(c, inputs[1..]));
    }
  }

  lemma {:induction false} StopsAreNamed(b: Board, inputs: seq<Option<Json>>, g: nat)
    requires AllOk(b.gates) && Addressed(inputs) && g < GATES
    ensures CompletionReports(b, inputs, g) == Stops(b, inputs, g)
    decreases |inputs|
  {
    if inputs != [] {
      var h, c := Taken(b, inputs[0]), Loop(b, inputs[0]);
      CompletionsNameOnce(h.gates, c.gates, GATES, g);
      StopsAreNamed(c, inputs[1..], g);
    }
  }

  /** Over every run, what is printed are the answers and the completion reports, and the number of completion
      reports for a gate is the number of its movements that ended. */
  lemma EveryStopIsReportedOnce(b: Board, inputs: seq<Option<Json>>, g: nat)
    requires AllOk(b.gates) && Addressed(inputs) && g < GATES
    ensures Run(b, inputs).out == b.out + Printed(b, inputs)
    ensures CompletionReports(b, inputs, g) == Stops(b, inputs, g)
  {
    RunPrints(b, inputs);
    StopsAreNamed(b, inputs, g);
  }

  // ---------------------------------------------------- every document of a run

  /** A report whose entries all name a gate of the board and one of the four states, or an error document. */
  predicate GoodDocument(doc: Json) {
    if Field(doc, "type") == Str("query_state_result") then
      && Field(doc, "payload").Arr?
      && forall e :: e in Field(doc, "payload").items ==>
           Field(e, "id").Int? && 0 <= Field(e, "id").n < GATES && NamesAState(e)
    else Field(doc, "type") == Str("error") && Field(doc, "payload").Str?
  }

  lemma {:induction false} EntriesNameGates(gates: seq<GateValue>, ids: seq<nat>)
    requires AllOk(gates)
    ensures forall e :: e in Entries(gates, ids) ==> Field(e, "id").Int? && 0 <= Field(e, "id").n < GATES
  {
    if ids != [] {
      EntriesNameGates(gates, ids[..|ids| - 1]);
    }
  }

  lemma ReportIsGood(gates: seq<GateValue>, ids: seq<nat>)
    requires AllOk(gates)
    ensures GoodDocument(ReportJson(Entries(gates, ids)))
  {
    EntriesNameGates(gates, ids);
    EntriesNameStates(gates, ids);
    var doc := ReportJson(Entries(gates, ids));
    assert Field(doc, "type") == Str("query_state_result") && Field(doc, "payload") == Arr(Entries(gates, ids));
  }

  lemma ErrorIsGood(why: string)
    ensures GoodDocument(ErrorJson(why))
  {
    assert Field(ErrorJson(why), "type") == Str("error") && Field(ErrorJson(why), "payload") == Str(why);
    assert |"error"| != |"query_state_result"|;
  }

  predicate AllGood(docs: seq<Json>) {
    forall k :: 0 <= k < |docs| ==> GoodDocument(docs[k])
  }

  lemma TakenIsGood(b: Board, input: Option<Json>)
    requires AllOk(b.gates) && (input.Some? ==> AddressesGate(input.value)) && AllGood(b.out)
    ensures AllGood(Taken(b, input).out)
  {
    if input.Some? {
      match Understand(input.value)
      case Ignored =>
      case Unclear(why) => ErrorIsGood(why);
      case Query(items) => ReportIsGood(b.gates, QueriedIds(items));
      case Change(id, up) => ReportIsGood(b.gates[id := Commanded(b.gates[id], up)], [id]);
    }
  }

  lemma {:induction false} CompletionsAreGood(before: seq<GateValue>, after: seq<GateValue>, n: nat)
    requires AllOk(before) && AllOk(after) && n <= GATES
    ensures AllGood(Completions(before, after, n))
  {
    if n > 0 {
      CompletionsAreGood(before, after, n - 1);
      ReportIsGood(after, [n - 1]);
      assert [n - 1][..0] == [];
      assert Entries(after, [n - 1]) == [EntryJson(n - 1, StatusName(GetStatus(after[n - 1])))];
    }
  }

  /** Over every run, every document printed is a report whose entries all name a gate of the board and one of the
      four states, or an error document. */
  lemma {:induction false} EveryDocumentIsGood(b: Board, inputs: seq<Option<Json>>)
    requires AllOk(b.gates) && Addressed(inputs) && AllGood(b.out)
    ensures AllGood(Run(b, inputs).out)
    decreases |inputs|
  {
    if inputs != [] {
      var h, c := Taken(b, inputs[0]), Loop(b, inputs[0]);
      TakenIsGood(b, inputs[0]);
      UpdateReportsCompletions(h, GATES);
      CompletionsAreGood(h.gates, c.gates, GATES);
      EveryDocumentIsGood(c, inputs[1..]);
    }
  }

  // ------------------------------------------------------- carrying out a command

  /** No input after the first commands gate `g`. */
  predicate LeavesAlone(inputs: seq<Option<Json>>, g: nat) {
    forall k :: 0 <= k < |inputs| && inputs[k].Some? && Understand(inputs[k].value).Change?
                ==> Understand(inputs[k].value).id != g
  }

  lemma LoopTicksGate(b: Board, input: Option<Json>, g: nat)
    requires AllOk(b.gates) && g < GATES && (input.Some? ==> AddressesGate(input.value))
    ensures var start := if input.Some? && Understand(input.value).Change? && Understand(input.value).id == g
                         then Commanded(b.gates[g], Understand(input.value).up) else b.gates[g];
            Loop(b, input).gates[g] == Ticked(start, b.round) && Loop(b, input).round == b.round
  {
    UpdateReportsCompletions(if input.Some? then Handle(b, input.value) else b, GATES);
  }

  lemma {:induction false} UndisturbedGate(b: Board, inputs: seq<Option<Json>>, g: nat)
    requires AllOk(b.gates) && Addressed(inputs) && g < GATES && LeavesAlone(inputs, g)
    ensures Run(b, inputs).gates[g] == TickTimes(b.gates[g], |inputs|, b.round)
    decreases |inputs|
  {
    if inputs != [] {
      LoopTicksGate(b, inputs[0], g);
      assert LeavesAlone(inputs[1..], g);
      UndisturbedGate(Loop(b, inputs[0]), inputs[1..], g);
    }
  }

  /** The pin of a gate only brightens while it is raised and only dims while it is lowered. */
  predicate Follows(g: GateValue, before: int, after: int) {
    && (g.isChanging && !g.isLowering ==> before <= after)
    && (g.isChanging && g.isLowering ==> before >= after)
    && (!g.isChanging ==> before == after)
  }

  lemma {:induction false} DutyFollowsTicks(g: GateValue, n: nat, round: Rounding)
    requires GateOk(g)
    ensures Follows(g, Duty(g.state), Duty(TickTimes(g, n, round).state))
    decreases n
  {
    if n > 0 {
      var h := Ticked(g, round);
      TickKeepsGateOk(g, round);
      DutyFollowsTicks(h, n - 1, round);
      if g.isChanging {
        DutyFollowsMovement(g, round);
        TickProgress(g, round);
      }
    }
  }

  /** Over every run without a command for gate `g`, however long and whatever happens to the other gates, the value
      on the pin of `g` changes only in the direction of its movement, and not at all if it is at rest. */
  lemma PinFollowsMovement(b: Board, inputs: seq<Option<Json>>, g: nat)
    requires Coherent(b) && Addressed(inputs) && g < GATES && LeavesAlone(inputs, g)
    ensures var c := Run(b, inputs);
            && PINS[g] in b.pins && PINS[g] in c.pins
            && Follows(b.gates[g], b.pins[PINS[g]], c.pins[PINS[g]])
  {
    RunKeepsCoherent(b, inputs);
    UndisturbedGate(b, inputs, g);
    DutyFollowsTicks(b.gates[g], |inputs|, b.round);
  }

  lemma {:induction false} RestIsStable(g: GateValue, n: nat, round: Rounding)
    requires GateOk(g) && !g.isChanging
    ensures var h := TickTimes(g, n, round);
            !h.isChanging && h.state == g.state && h.isLowering == g.isLowering
    decreases n
  {
    if n > 0 {
      RestIsStable(Ticked(g, round), n - 1, round);
    }
  }

  lemma {:induction false} StoppedAfter(g: GateValue, n: nat, m: nat, round: Rounding)
    requires GateOk(g) && StopsAt(g, n, round) && n <= m
    ensures var h := TickTimes(g, m, round);
            !h.isChanging && h.state == if g.isLowering then 0 else ONE
    decreases n
  {
    if n == 0 {
      RestIsStable(g, m, round);
    } else {
      TickProgress(g, round);
      StoppedAfter(Ticked(g, round), n - 1, m - 1, round);
    }
  }

  lemma LoopOnlyAppends(b: Board, input: Option<Json>)
    requires AllOk(b.gates) && (input.Some? ==> AddressesGate(input.value))
    ensures b.out <= Loop(b, input).out
    ensures input.Some? ==> Handle(b, input.value).out <= Loop(b, input).out
  {
    UpdateReportsCompletions(if input.Some? then Handle(b, input.value) else b, GATES);
  }

  lemma {:induction false} RunOnlyAppends(b: Board, inputs: seq<Option<Json>>)
    requires AllOk(b.gates) && Addressed(inputs)
    ensures b.out <= Run(b, inputs).out
    decreases |inputs|
  {
    if inputs != [] {
      LoopOnlyAppends(b, inputs[0]);
      RunOnlyAppends(Loop(b, inputs[0]), inputs[1..]);
    }
  }

  lemma ScreenGrows(a: seq<Json>, b: seq<Json>, g: nat)
    requires a <= b && Screen(a, g).Some?
    ensures Screen(b, g).Some?
  {
    assert b == a + b[|a|..];
    ScreenConcat(a, b[|a|..], g);
  }

  lemma CommandedGateMoves(b: Board, inputs: seq<Option<Json>>, g: nat, up: bool)
    requires AllOk(b.gates) && Addressed(inputs) && inputs != [] && g < GATES
    requires inputs[0].Some? && Understand(inputs[0].value) == Change(g, up) && LeavesAlone(inputs[1..], g)
    ensures Run(b, inputs).gates[g] == TickTimes(Commanded(b.gates[g], up), |inputs|, b.round)
  {
    LoopTicksGate(b, inputs[0], g);
    UndisturbedGate(Loop(b, inputs[0]), inputs[1..], g);
  }

  lemma CommandedGateStops(b: Board, inputs: seq<Option<Json>>, g: nat, up: bool)
    requires AllOk(b.gates) && Addressed(inputs) && |inputs| >= FULL_TRAVEL && g < GATES
    requires inputs[0].Some? && Understand(inputs[0].value) == Change(g, up) && LeavesAlone(inputs[1..], g)
    ensures GetStatus(Run(b, inputs).gates[g]) == if up then Raised else Lowered
  {
    var started := Commanded(b.gates[g], up);
    var n := MovementEnds(started, b.round);
    CommandedGateMoves(b, inputs, g, up);
    StoppedAfter(started, n, |inputs|, b.round);
  }

  lemma CommandIsReported(b: Board, inputs: seq<Option<Json>>, g: nat, up: bool)
    requires Coherent(b) && Addressed(inputs) && inputs != [] && g < GATES
    requires inputs[0].Some? && Understand(inputs[0].value) == Change(g, up)
    ensures Screen(Run(b, inputs).out, g).Some?
  {
    ReportRestoresTruth(b.out, b.gates, b.gates[g := Commanded(b.gates[g], up)], [g]);
    LoopOnlyAppends(b, inputs[0]);
    RunOnlyAppends(Loop(b, inputs[0]), inputs[1..]);
    ScreenGrows(Handle(b, inputs[0].value).out, Run(b, inputs).out, g);
  }

  /** A change_state command is carried out: from any reachable board, whatever else arrives, after 101 passes of
      loop() without another command for the gate it is at rest at the end asked for, and the last thing that
      was reported about it says so. */
  lemma CommandIsCarriedOut(b: Board, inputs: seq<Option<Json>>, g: nat, up: bool)
    requires Coherent(b) && Addressed(inputs) && |inputs| >= FULL_TRAVEL && g < GATES
    requires inputs[0].Some? && Understand(inputs[0].value) == Change(g, up) && LeavesAlone(inputs[1..], g)
    ensures var c := Run(b, inputs);
            && GetStatus(c.gates[g]) == (if up then Raised else Lowered)
            && Screen(c.out, g) == Some(if up then "raised" else "lowered")
  {
    CommandedGateStops(b, inputs, g, up);
    CommandIsReported(b, inputs, g, up);
    RunKeepsCoherent(b, inputs);
  }
}
