/** JSON values, and the typed messages that the server reads from and writes to them. Text is not modelled:
    a document stands for its text. */
module Json {
  import opened Prelude

  datatype Json =
    | Null
    | Bool(b: bool)
    | Int(n: int)
    | Real(r: real)
    | Str(s: string)
    | Arr(items: seq<Json>)
    | Obj(fields: map<string, Json>)

  /** doc[key] for a non-const document: an absent key reads as null. */
  function Field(j: Json, key: string): Json {
    if j.Obj? && key in j.fields then j.fields[key] else Null
  }

  // ------------------------------------------------------------ json_message

  datatype Kind = QueryState | QueryStateResult | ChangeState | Availability | Text

  datatype Message = Message(kind: Kind, payload: Json)

  /** parse_message either returns a message, or throws, or runs off the end of str_to_type. */
  datatype Outcome = Parsed(message: Message) | Rejected | NoKind

  function KindName(k: Kind): string {
    match k
    case QueryState => "query_state"
    case QueryStateResult => "query_state_result"
    case ChangeState => "change_state"
    case Availability => "availability"
    case Text => "text"
  }

  function KindOf(name: string): Option<Kind> {
    if name == "query_state" then Some(QueryState)
    else if name == "query_state_result" then Some(QueryStateResult)
    else if name == "change_state" then Some(ChangeState)
    else if name == "availability" then Some(Availability)
    else if name == "text" then Some(Text)
    else None
  }

  function Dump(m: Message): Json {
    Obj(map["type" := Str(KindName(m.kind)), "payload" := m.payload])
  }

  function Parse(j: Json): Outcome {
    if !j.Obj? || !Field(j, "type").Str? then Rejected
    else
      match KindOf(Field(j, "type").s)
      case Some(k) => Parsed(Message(k, Field(j, "payload")))
      case None => NoKind
  }

  lemma KindNames(k: Kind, name: string)
    ensures KindOf(KindName(k)) == Some(k)
    ensures KindOf(name).Some? ==> KindName(KindOf(name).value) == name
  {
  }

  /** A document is read as a message exactly if it is an object whose type is one of the five strings; the payload is
      that of the document, or null if it has none. An object with another type string has no kind, and everything
      else is rejected. */
  lemma ReadExactly(j: Json)
    ensures var typed := j.Obj? && "type" in j.fields && j.fields["type"].Str?;
            if !typed then Parse(j) == Rejected
            else
              var payload := if "payload" in j.fields then j.fields["payload"] else Null;
              var kind := j.fields["type"].s;
              Parse(j) == if kind == "query_state" then Parsed(Message(QueryState, payload))
                          else if kind == "query_state_result" then Parsed(Message(QueryStateResult, payload))
                          else if kind == "change_state" then Parsed(Message(ChangeState, payload))
                          else if kind == "availability" then Parsed(Message(Availability, payload))
                          else if kind == "text" then Parsed(Message(Text, payload))
                          else NoKind
  {
  }

  /** Reading back what was written returns the message, and writing back what was read returns the document
      exactly when the document has the two fields of a message and nothing else. */
  lemma ParseDump(m: Message, j: Json)
    ensures Parse(Dump(m)) == Parsed(m)
    ensures Parse(j).Parsed? ==>
              (Dump(Parse(j).message) == j <==> j.fields.Keys == {"type", "payload"})
  {
    KindNames(m.kind, "");
    if Parse(j).Parsed? {
      var d := Dump(Parse(j).message);
      assert d.fields.Keys == {"type", "payload"};
    }
  }
}
