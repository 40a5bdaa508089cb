/**
  The parameters the client sends: JSON bodies ("content parameters") for
  write-style requests and URL query strings ("request parameters") for the
  fetch and the delete. Each builder fills a fresh map key by key; the
  functions beside them say declaratively which keys a payload carries.
 */
module Payloads {
  import opened Arguments

  /** A JSON value a payload may carry. */
  datatype Value = Str(s: string) | Int(i: int) | Bool(b: bool)

  /** A JSON body, field name to value. */
  type Payload = map<string, Value>

  /** URL query parameters, name to value. */
  type Query = map<string, string>

  const MandatoryKeys: set<string> := {"apiKey", "name"}

  /** Every key the full content may hold. */
  const OptionalKeys: set<string> := {"description", "interval", "intervalUnit"}

  /** The keys of the full content: the mandatory two and each optional field that is not at its zero value. */
  function ContentKeys(args: OpsArgs): set<string> {
    MandatoryKeys
    + (if args.description != "" then {"description"} else {})
    + (if args.interval != 0 then {"interval"} else {})
    + (if args.intervalUnit != "" then {"intervalUnit"} else {})
  }

  /** The value a content field carries for `args`. */
  function Field(args: OpsArgs, key: string): Value {
    if key == "apiKey" then Str(args.apiKey)
    else if key == "name" then Str(args.name)
    else if key == "description" then Str(args.description)
    else if key == "interval" then Int(args.interval)
    else Str(args.intervalUnit)
  }

  function MandatoryContent(args: OpsArgs): Payload {
    map k | k in MandatoryKeys :: Field(args, k)
  }

  function AllContent(args: OpsArgs): Payload {
    map k | k in ContentKeys(args) :: Field(args, k)
  }

  /** The body of the update request: the full content with the remote id and a forced enable. */
  function UpdateContent(args: OpsArgs, id: string): Payload {
    AllContent(args)["id" := Str(id)]["enabled" := Bool(true)]
  }

  function MandatoryQuery(args: OpsArgs): Query {
    map k | k in MandatoryKeys :: Field(args, k).s
  }

  method MandatoryContentParams(args: OpsArgs) returns (p: Payload)
    ensures p == MandatoryContent(args)
  {
    p := map[];
    p := p["apiKey" := Str(args.apiKey)];
    p := p["name" := Str(args.name)];
  }

  method AllContentParams(args: OpsArgs) returns (p: Payload)
    ensures p == AllContent(args)
  {
    p := MandatoryContentParams(args);
    if args.description != "" {
      p := p["description" := Str(args.description)];
    }
    if args.interval != 0 {
      p := p["interval" := Int(args.interval)];
    }
    if args.intervalUnit != "" {
      p := p["intervalUnit" := Str(args.intervalUnit)];
    }
  }

  /** The body built for the update request, which adds two keys to the full content. */
  method UpdateContentParams(args: OpsArgs, id: string) returns (p: Payload)
    ensures p == UpdateContent(args, id)
  {
    p := AllContentParams(args);
    p := p["id" := Str(id)];
    p := p["enabled" := Bool(true)];
  }

  method MandatoryRequestParams(args: OpsArgs) returns (q: Query)
    ensures q == MandatoryQuery(args)
  {
    q := map[];
    q := q["apiKey" := args.apiKey];
    q := q["name" := args.name];
  }

  /** The mandatory body and the mandatory query both carry exactly the key and the name, with the same text. */
  lemma MandatoryShape(args: OpsArgs)
    ensures MandatoryContent(args).Keys == {"apiKey", "name"}
    ensures MandatoryContent(args)["apiKey"] == Str(args.apiKey) && MandatoryContent(args)["name"] == Str(args.name)
    ensures MandatoryQuery(args).Keys == {"apiKey", "name"}
    ensures MandatoryQuery(args)["apiKey"] == args.apiKey && MandatoryQuery(args)["name"] == args.name
  {
  }

  /**
    The full content holds the mandatory content unchanged, and each optional
    field exactly when it is not at its zero value, with the value taken from
    the arguments; nothing else. A zero interval therefore cannot be sent.
   */
  lemma AllContentShape(args: OpsArgs)
    ensures var p := AllContent(args);
            && p.Keys <= MandatoryKeys + OptionalKeys
            && (forall k :: k in MandatoryKeys ==> k in p && p[k] == MandatoryContent(args)[k])
            && ("description" in p <==> args.description != "")
            && ("interval" in p <==> args.interval != 0)
            && ("intervalUnit" in p <==> args.intervalUnit != "")
            && ("description" in p ==> p["description"] == Str(args.description))
            && ("interval" in p ==> p["interval"] == Int(args.interval))
            && ("intervalUnit" in p ==> p["intervalUnit"] == Str(args.intervalUnit))
  {
  }

  /** The update body is the full content plus `id` and `enabled = true`, and neither key clashes with it. */
  lemma UpdateContentShape(args: OpsArgs, id: string)
    ensures var p := UpdateContent(args, id);
            && p.Keys == AllContent(args).Keys + {"id", "enabled"}
            && "id" !in AllContent(args) && "enabled" !in AllContent(args)
            && p["id"] == Str(id) && p["enabled"] == Bool(true)
            && p - {"id", "enabled"} == AllContent(args)
  {
    var p := UpdateContent(args, id);
    assert p - {"id", "enabled"} == AllContent(args);
  }

  /** The configuration fields a content body can carry. */
  datatype Content = Content(apiKey: string, name: string, description: string, interval: int, intervalUnit: string)

  function ContentOf(args: OpsArgs): Content {
    Content(args.apiKey, args.name, args.description, args.interval, args.intervalUnit)
  }

  /** The string a body holds under `key`, reading an absent or non-string field as "". */
  function TextAt(p: Payload, key: string): string {
    if key in p && p[key].Str? then p[key].s else ""
  }

  /** How a receiver reads a content body: every absent field takes its zero value. */
  function ReadContent(p: Payload): Content {
    Content(TextAt(p, "apiKey"), TextAt(p, "name"), TextAt(p, "description"),
            if "interval" in p && p["interval"].Int? then p["interval"].i else 0,
            TextAt(p, "intervalUnit"))
  }

  /**
    Omitting zero-valued fields loses nothing a receiver that defaults absent
    fields to zero could not recover: the full content reads back as the
    configuration it was built from.
   */
  lemma ContentRoundTrip(args: OpsArgs)
    ensures ReadContent(AllContent(args)) == ContentOf(args)
  {
  }

  /** The configuration of the package's unit test, whose unit "month" passes through unvalidated. */
  const TestArgs := OpsArgs("testKey", "testName", "testDescription", 99, "month", 10 * Second, true)

  lemma AllContentOfTestArgs()
    ensures AllContent(TestArgs) == map["apiKey" := Str("testKey"), "name" := Str("testName"),
                                        "description" := Str("testDescription"), "interval" := Int(99),
                                        "intervalUnit" := Str("month")]
    ensures MandatoryQuery(TestArgs) == map["apiKey" := "testKey", "name" := "testName"]
  {
    assert ContentKeys(TestArgs) == {"apiKey", "name", "description", "interval", "intervalUnit"};
  }
}
