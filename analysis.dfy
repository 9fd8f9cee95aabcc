/** The analysis client: it embeds the uploaded text in a prompt, asks the
    external model for a JSON reply shaped by a fixed schema, trims and
    parses the reply, checks that the four top-level fields are present,
    and turns every failure into one message.

    The external call and `JSON.parse` are library code; they are
    parameters here (`generate` and `parse`). */
module Analysis {
  import opened Wrappers
  import opened JsText
  import opened Types

  /** An already-parsed JSON value. */
  datatype Json =
    | JNull
    | JBool(b: bool)
    | JNumber(n: real)
    | JString(s: string)
    | JArray(items: seq<Json>)
    | JObject(fields: map<string, Json>)

  /** JavaScript truthiness of a property read: a missing property
      (`undefined`), `null`, `false`, `0` and `""` are falsy; every array
      and object, even an empty one, is truthy. */
  predicate Truthy(v: Option<Json>) {
    match v
    case None => false
    case Some(JNull) => false
    case Some(JBool(b)) => b
    case Some(JNumber(n)) => n != 0.0
    case Some(JString(s)) => s != ""
    case Some(JArray(_)) => true
    case Some(JObject(_)) => true
  }

  /** `v.key` on a non-null value: only an object can carry one of the
      dashboard's field names, anything else yields `undefined`. */
  function Member(v: Json, key: string): Option<Json> {
    if v.JObject? && key in v.fields then Some(v.fields[key]) else None
  }

  const RequiredFields: seq<string> :=
    ["customerSegmentation", "dailySales", "topCategories", "topCustomers"]

  /** The four fields the reply must carry for it to be accepted. */
  predicate HasRequiredFields(v: Json) {
    forall i :: 0 <= i < |RequiredFields| ==> Truthy(Member(v, RequiredFields[i]))
  }

  // ---------------------------------------------------------------------
  // The response schema

  /** The part of the declared response schema that constrains a reply
      (the per-field descriptions are prose for the model). */
  datatype Schema =
    | SObject(props: seq<Property>)
    | SArray(items: Schema)
    | SString
    | SNumber
    | SInteger

  datatype Property = Property(name: string, schema: Schema)

  const SegmentationSchema: Schema := SObject([
    Property("premium", SInteger),
    Property("regular", SInteger),
    Property("normal", SInteger)])

  const DailySaleSchema: Schema := SObject([
    Property("day", SString),
    Property("sales", SNumber),
    Property("purchases", SNumber)])

  const CategorySchema: Schema := SObject([
    Property("name", SString),
    Property("value", SNumber)])

  const CustomerSchema: Schema := SObject([
    Property("id", SString),
    Property("name", SString),
    Property("totalSpending", SNumber),
    Property("frequency", SInteger),
    Property("segment", SString)])

  const AnalysisSchema: Schema := SObject([
    Property("customerSegmentation", SegmentationSchema),
    Property("dailySales", SArray(DailySaleSchema)),
    Property("topCategories", SArray(CategorySchema)),
    Property("topCustomers", SArray(CustomerSchema))])

  function PropertyNames(ps: seq<Property>): (names: seq<string>)
    ensures |names| == |ps| && forall i :: 0 <= i < |ps| ==> names[i] == ps[i].name
  {
    if ps == [] then [] else [ps[0].name] + PropertyNames(ps[1..])
  }

  /** A value has the declared shape: every declared property is present
      with a value of the declared type, recursively. */
  predicate Matches(v: Json, s: Schema)
    decreases s
  {
    match s
    case SString => v.JString?
    case SNumber => v.JNumber?
    case SInteger => v.JNumber? && v.n.Floor as real == v.n
    case SArray(item) =>
      v.JArray? && forall i :: 0 <= i < |v.items| ==> Matches(v.items[i], item)
    case SObject(ps) =>
      v.JObject? && forall i :: 0 <= i < |ps| ==>
        ps[i].name in v.fields && Matches(v.fields[ps[i].name], ps[i].schema)
  }

  /** The declared schema has exactly the four required top-level fields. */
  lemma SchemaTopLevelIsRequiredFields()
    ensures AnalysisSchema.SObject?
    ensures PropertyNames(AnalysisSchema.props) == RequiredFields
  {
  }

  /** A reply of the declared shape always passes the presence check. */
  lemma {:induction false} MatchingReplyHasRequiredFields(v: Json)
    requires Matches(v, AnalysisSchema)
    ensures HasRequiredFields(v)
  {
    forall i | 0 <= i < |RequiredFields|
      ensures Truthy(Member(v, RequiredFields[i]))
    {
      var p := AnalysisSchema.props[i];
      assert p.name == RequiredFields[i];
      assert Matches(v.fields[p.name], p.schema);
    }
  }

  // ---------------------------------------------------------------------
  // DashboardData as JSON

  function IntJson(k: int): Json {
    JNumber(k as real)
  }

  function EncodeSegmentation(c: CustomerSegment): Json {
    JObject(map["premium" := IntJson(c.premium), "regular" := IntJson(c.regular),
                "normal" := IntJson(c.normal)])
  }

  function EncodeDailySale(d: DailySale): Json {
    JObject(map["day" := JString(d.day), "sales" := JNumber(d.sales),
                "purchases" := JNumber(d.purchases)])
  }

  function EncodeCategory(c: TopCategory): Json {
    JObject(map["name" := JString(c.name), "value" := JNumber(c.value)])
  }

  function EncodeCustomer(c: TopCustomer): Json {
    JObject(map["id" := JString(c.id), "name" := JString(c.name),
                "totalSpending" := JNumber(c.totalSpending),
                "frequency" := IntJson(c.frequency),
                "segment" := JString(c.segment.Name())])
  }

  /** The JSON form of a `DashboardData` record, field for field. */
  function Encode(d: DashboardData): Json {
    JObject(map[
      "customerSegmentation" := EncodeSegmentation(d.customerSegmentation),
      "dailySales" := JArray(seq(|d.dailySales|, i requires 0 <= i < |d.dailySales| =>
                                   EncodeDailySale(d.dailySales[i]))),
      "topCategories" := JArray(seq(|d.topCategories|, i requires 0 <= i < |d.topCategories| =>
                                      EncodeCategory(d.topCategories[i]))),
      "topCustomers" := JArray(seq(|d.topCustomers|, i requires 0 <= i < |d.topCustomers| =>
                                     EncodeCustomer(d.topCustomers[i])))])
  }

  lemma DailySaleMatches(x: DailySale)
    ensures Matches(EncodeDailySale(x), DailySaleSchema)
  {
    assert DailySaleSchema.props[0].name == "day";
  }

  lemma CategoryMatches(x: TopCategory)
    ensures Matches(EncodeCategory(x), CategorySchema)
  {
    assert CategorySchema.props[0].name == "name";
  }

  lemma CustomerMatches(x: TopCustomer)
    ensures Matches(EncodeCustomer(x), CustomerSchema)
  {
    assert CustomerSchema.props[0].name == "id";
  }

  /** The declared schema describes the `DashboardData` record: the JSON
      form of every record has the declared shape. */
  lemma {:induction false} EncodeMatchesSchema(d: DashboardData)
    ensures Matches(Encode(d), AnalysisSchema)
  {
    var v := Encode(d);
    assert Matches(v.fields["customerSegmentation"], SegmentationSchema);
    var sales := v.fields["dailySales"];
    forall i | 0 <= i < |sales.items| ensures Matches(sales.items[i], DailySaleSchema) {
      DailySaleMatches(d.dailySales[i]);
    }
    var cats := v.fields["topCategories"];
    forall i | 0 <= i < |cats.items| ensures Matches(cats.items[i], CategorySchema) {
      CategoryMatches(d.topCategories[i]);
    }
    var custs := v.fields["topCustomers"];
    forall i | 0 <= i < |custs.items| ensures Matches(custs.items[i], CustomerSchema) {
      CustomerMatches(d.topCustomers[i]);
    }
    assert Matches(sales, SArray(DailySaleSchema));
    assert Matches(cats, SArray(CategorySchema));
    assert Matches(custs, SArray(CustomerSchema));
  }

  /** Every well-formed record, including one whose three lists are all
      empty, passes the presence check. */
  lemma WellFormedReplyAccepted(d: DashboardData)
    ensures HasRequiredFields(Encode(d))
  {
    EncodeMatchesSchema(d);
    MatchingReplyHasRequiredFields(Encode(d));
  }

  // ---------------------------------------------------------------------
  // The prompt

  /** The instructions before the embedded text. */
  const PromptIntro: string :=
    "\n      Analyze the provided supermarket sales data (e.g., CSV, JSON).\n"
    + "      Extract and calculate the following metrics:\n"
    + "      1.  **Customer Segmentation**: Count of 'premium' (top 10% spenders), 'regular' (next 40%), and 'normal' (bottom 50%) customers.\n"
    + "      2.  **Daily Sales**: Summarize sales and purchases for the last 7 distinct days found in the data.\n"
    + "      3.  **Top 5 Selling Categories**: By total sales value.\n"
    + "      4.  **Top 5 Customers**: List the top 5 customers by total spending, including their purchase frequency and their segment ('premium', 'regular', or 'normal').\n"
    + "\n"
    + "      Data:\n"

  /** The `---` line that opens the embedded text, and the indentation of
      its first line. */
  const DataOpen: string := "      ---\n      "

  /** The end of the embedded text's last line and the closing `---` line. */
  const DataClose: string := "\n      ---\n"

  /** The instructions after the embedded text. */
  const PromptOutro: string :=
    "      \n"
    + "      Respond strictly in the provided JSON format. If the data is insufficient, return empty or zero values for the metrics.\n"
    + "    "

  const PromptHead: string := PromptIntro + DataOpen

  const PromptTail: string := DataClose + PromptOutro

  /** The instruction sent to the model, with the uploaded text spliced in. */
  function Prompt(data: string): string {
    PromptHead + data + PromptTail
  }

  /** Recovers the uploaded text from a prompt, if the prompt has the
      fixed frame around it. */
  function EmbeddedData(prompt: string): Option<string> {
    if |PromptHead| + |PromptTail| <= |prompt|
       && prompt[..|PromptHead|] == PromptHead
       && prompt[|prompt| - |PromptTail|..] == PromptTail
    then Some(prompt[|PromptHead|..|prompt| - |PromptTail|])
    else None
  }

  /** The uploaded text appears verbatim in the prompt and can be read back
      out of it, so distinct uploads give distinct prompts. */
  lemma PromptEmbedsData(data: string)
    ensures EmbeddedData(Prompt(data)) == Some(data)
  {
    var p := Prompt(data);
    assert p[..|PromptHead|] == PromptHead;
    assert p[|p| - |PromptTail|..] == PromptTail;
    assert p[|PromptHead|..|p| - |PromptTail|] == data;
  }

  /** The text sits on its own between the two `---` delimiter lines. */
  lemma PromptDelimitsData(data: string)
    ensures exists before, after ::
      Prompt(data) == before + DataOpen + data + DataClose + after
  {
    Regroup(PromptIntro, DataOpen, data, DataClose, PromptOutro);
  }

  lemma Regroup(a: string, b: string, c: string, d: string, e: string)
    ensures (a + b) + c + (d + e) == a + b + c + d + e
  {
  }

  // ---------------------------------------------------------------------
  // The call

  /** What the external call produced: a thrown error, or a reply text. */
  datatype CallOutcome = CallFailed | Replied(text: string)

  /** Why an analysis failed, before the failure is mapped to one message. */
  datatype AnalysisFailure = CallError | ParseError | MissingFields(message: string)

  const MissingFieldsMessage: string := "AI response is missing required data fields."

  const AnalysisFailedMessage: string :=
    "Failed to analyze data. The AI model could not process the request."

  /** The body of the `try` block once the model has answered: trim,
      parse, check. A reply that parses to `null` makes the field read
      throw, which ends the same way as a missing field. */
  function Attempt(outcome: CallOutcome, parse: string -> Option<Json>): Result<Json, AnalysisFailure>
  {
    match outcome
    case CallFailed => Failure(CallError)
    case Replied(text) =>
      match parse(Trim(text))
      case None => Failure(ParseError)
      case Some(v) =>
        if v != JNull && HasRequiredFields(v) then Success(v)
        else Failure(MissingFields(MissingFieldsMessage))
  }

  /** The `try` block succeeds exactly on a parsed reply with the four
      fields present; a `null` reply is among those without them. */
  lemma AttemptSucceedsIff(outcome: CallOutcome, parse: string -> Option<Json>)
    ensures Attempt(outcome, parse).Success? <==>
      outcome.Replied? && parse(Trim(outcome.text)).Some?
      && HasRequiredFields(parse(Trim(outcome.text)).value)
    ensures Attempt(outcome, parse).Success? ==>
      Attempt(outcome, parse).value == parse(Trim(outcome.text)).value
  {
    match outcome
    case CallFailed =>
    case Replied(text) =>
      NullLacksRequiredFields();
  }

  /** Reading a field of `null` throws, so a `null` reply never has the
      four fields. */
  lemma NullLacksRequiredFields()
    ensures !HasRequiredFields(JNull)
  {
    assert !Truthy(Member(JNull, RequiredFields[0]));
  }

  /** What becomes of the model's answer: it is accepted exactly when the
      call succeeded, its trimmed text parses and the four fields are
      present, and it is then returned as parsed. Every failure carries the
      one catch-all message and never the inner one. */
  function HandleReply(outcome: CallOutcome, parse: string -> Option<Json>): (r: Result<Json, string>)
    ensures r.Success? <==>
      outcome.Replied? && parse(Trim(outcome.text)).Some?
      && HasRequiredFields(parse(Trim(outcome.text)).value)
    ensures r.Success? ==> r.value == parse(Trim(outcome.text)).value
    ensures r.Failure? ==> r.error == AnalysisFailedMessage && r.error != MissingFieldsMessage
  {
    AttemptSucceedsIff(outcome, parse);
    match Attempt(outcome, parse)
    case Success(v) => Success(v)
    case Failure(_) => Failure(AnalysisFailedMessage)
  }

  /** `analyzeSalesData`: the prompt built from the uploaded text goes to
      the model, and its answer is handled as above. The outcome depends on
      the uploaded text only through the model's answer to that prompt:
      success is the answer parsed, and failure is the one catch-all
      message. */
  function AnalyzeSalesData(data: string, generate: string -> CallOutcome,
                            parse: string -> Option<Json>): (r: Result<Json, string>)
    ensures var reply := generate(Prompt(data));
      && (r.Success? <==>
            reply.Replied? && parse(Trim(reply.text)).Some?
            && HasRequiredFields(parse(Trim(reply.text)).value))
      && (r.Success? ==> r.value == parse(Trim(reply.text)).value)
    ensures r.Failure? ==> r.error == AnalysisFailedMessage
  {
    HandleReply(generate(Prompt(data)), parse)
  }

  /** A reply in which any one of the four fields is missing or falsy is
      rejected with the catch-all message, whatever the other fields hold. */
  lemma FalsyFieldRejected(text: string, parse: string -> Option<Json>, k: nat)
    requires k < |RequiredFields|
    requires parse(Trim(text)).Some?
    requires !Truthy(Member(parse(Trim(text)).value, RequiredFields[k]))
    ensures HandleReply(Replied(text), parse) == Failure(AnalysisFailedMessage)
  {
  }

  /** A reply whose four fields are truthy but of the wrong kinds: a
      boolean where an object was expected, and a number, a string and an
      object where arrays were expected. */
  const MisshapenReply: Json := JObject(map[
    "customerSegmentation" := JBool(true), "dailySales" := JNumber(1.0),
    "topCategories" := JString("x"), "topCustomers" := JObject(map[])])

  /** The presence check is all the validation there is: a reply that is the
      JSON form of no record at all is accepted and returned as it is. */
  lemma MisshapenReplyAccepted(text: string, parse: string -> Option<Json>)
    requires parse(Trim(text)) == Some(MisshapenReply)
    ensures HandleReply(Replied(text), parse) == Success(MisshapenReply)
    ensures forall d :: Encode(d) != MisshapenReply
  {
    MisshapenReplyHasFields();
    MisshapenReplyEncodesNoRecord();
  }

  /** Each of its four fields is truthy. */
  lemma MisshapenReplyHasFields()
    ensures HasRequiredFields(MisshapenReply)
  {
    forall i | 0 <= i < |RequiredFields|
      ensures Truthy(Member(MisshapenReply, RequiredFields[i]))
    {
      assert RequiredFields[i] in MisshapenReply.fields;
    }
  }

  /** Every record encodes its daily sales as an array, never a number. */
  lemma MisshapenReplyEncodesNoRecord()
    ensures forall d :: Encode(d) != MisshapenReply
  {
    forall d
      ensures Encode(d) != MisshapenReply
    {
      assert Encode(d).fields["dailySales"].JArray?;
    }
  }

  /** An accepted reply is the parsed value itself: nothing is truncated or
      normalised, whatever the lengths of its arrays. */
  lemma WellFormedReplyReturnedUnchanged(text: string, parse: string -> Option<Json>,
                                         d: DashboardData)
    requires parse(Trim(text)) == Some(Encode(d))
    ensures HandleReply(Replied(text), parse) == Success(Encode(d))
  {
    WellFormedReplyAccepted(d);
  }
}
