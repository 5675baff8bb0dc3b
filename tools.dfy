/**
 * The tools the agents call: the registry that maps a tool's name to the
 * tool, the web search over an instant-answer service, and the date and
 * time tool. The network reply, the clock and Python's `eval` are
 * parameters of the model.
 */
module Tools {
  import opened Basics
  import opened Text
  import opened PyJson

  // ---------------------------------------------------------------------
  // The registry
  // ---------------------------------------------------------------------

  /** `BaseTool` and its four subclasses. */
  datatype Tool = BaseTool | WebSearch | CodeInterpreter | Calculator | DateTime

  /** The class attribute `name`. */
  function ToolName(tool: Tool): string {
    match tool
    case BaseTool => "Base Tool"
    case WebSearch => "WebSearch"
    case CodeInterpreter => "CodeInterpreter"
    case Calculator => "Calculator"
    case DateTime => "DateTime"
  }

  /** `TOOL_REGISTRY`, in insertion order. */
  const Registry: seq<(string, Tool)> :=
    [("WebSearch", WebSearch), ("CodeInterpreter", CodeInterpreter), ("Calculator", Calculator), ("DateTime", DateTime)]

  /** `TOOL_REGISTRY.get(name)`. */
  function Lookup(name: string): Option<Tool> {
    LookupIn(Registry, name)
  }

  function LookupIn(entries: seq<(string, Tool)>, name: string): Option<Tool> {
    if |entries| == 0 then None
    else if entries[0].0 == name then Some(entries[0].1)
    else LookupIn(entries[1..], name)
  }

  /**
   * `tools.get(name)` on a dictionary of tools, for a name taken from decoded
   * JSON: a list or dictionary is unhashable and raises `TypeError`; a value
   * other than a string is hashable but names no tool.
   */
  function ToolFor(tools: seq<(string, Tool)>, name: Json): (r: Outcome<Option<Tool>>)
    ensures r.Raised? <==> name.JArr? || name.JObj?
    ensures name.JStr? ==> r == Returned(LookupIn(tools, name.s))
  {
    match name
    case JArr(_) => Raised
    case JObj(_) => Raised
    case JStr(s) => Returned(LookupIn(tools, s))
    case _ => Returned(None)
  }

  /**
   * Every registered tool is filed under its own name, and the registry
   * holds exactly the four concrete tools: a name finds a tool if and only
   * if it is the name of a tool other than the base class.
   */
  lemma RegistryNamed(name: string, tool: Tool)
    ensures Lookup(name) == Some(tool) <==> (tool != BaseTool && ToolName(tool) == name)
  {
    var second := Registry[1..];
    var third := second[1..];
    var fourth := third[1..];
    assert second == [("CodeInterpreter", CodeInterpreter), ("Calculator", Calculator), ("DateTime", DateTime)];
    assert third == [("Calculator", Calculator), ("DateTime", DateTime)];
    assert fourth == [("DateTime", DateTime)];
    assert Lookup(name) == if name == "WebSearch" then Some(WebSearch) else LookupIn(second, name);
    assert LookupIn(second, name) == if name == "CodeInterpreter" then Some(CodeInterpreter) else LookupIn(third, name);
    assert LookupIn(third, name) == if name == "Calculator" then Some(Calculator) else LookupIn(fourth, name);
    assert LookupIn(fourth, name) == if name == "DateTime" then Some(DateTime) else LookupIn(fourth[1..], name);
    assert LookupIn(fourth[1..], name) == None;
  }

  /** The names `TOOL_REGISTRY` holds, in order. */
  function RegistryNames(): (names: seq<string>)
    ensures |names| == |Registry| && forall i :: 0 <= i < |names| ==> Lookup(names[i]) == Some(Registry[i].1)
  {
    var names := ["WebSearch", "CodeInterpreter", "Calculator", "DateTime"];
    assert forall i :: 0 <= i < 4 ==> names[i] == ToolName(Registry[i].1);
    forall i | 0 <= i < 4 ensures Lookup(names[i]) == Some(Registry[i].1) {
      RegistryNamed(names[i], Registry[i].1);
    }
    names
  }

  /** What the tools need from outside: the web service, the clock and Python's `eval`. */
  datatype Environment = Environment(
    fetch: Json -> Fetch,
    now: Moment,
    today: Date,
    evaluate: (Tool, Json) -> string)

  predicate ValidEnvironment(env: Environment) {
    ValidMoment(env.now) && ValidDate(env.today)
  }

  /**
   * `tool.execute(params)`: `Error` carries the text of the exception it
   * raises. The two `eval`-based tools catch every exception and return
   * text; what `eval` makes of an expression is the parameter `evaluate`.
   */
  function Execute(tool: Tool, params: Json, env: Environment): (r: Result<string>)
    requires ValidEnvironment(env)
    ensures r.Error? <==> tool == BaseTool
    ensures r.Error? ==> r.message == NotImplementedText
  {
    match tool
    case BaseTool => Error(NotImplementedText)
    case WebSearch => Ok(SearchAnswer(params, env.fetch(params)))
    case DateTime => Ok(DateTimeAnswer(params, env.now, env.today))
    case CodeInterpreter => Ok(env.evaluate(tool, params))
    case Calculator => Ok(env.evaluate(tool, params))
  }

  const NotImplementedText := "Each tool must implement the execute method."

  /** No tool of the registry lets an exception out of `execute`. */
  lemma RegisteredToolsReturn(name: string, params: Json, env: Environment)
    requires ValidEnvironment(env) && Lookup(name).Some?
    ensures Execute(Lookup(name).value, params, env).Ok?
  {
    RegistryNamed(name, Lookup(name).value);
  }

  // ---------------------------------------------------------------------
  // Web search
  // ---------------------------------------------------------------------

  /**
   * What `requests.get(...)` followed by `raise_for_status()` and
   * `response.json()` gives: the decoded body, or the text of the
   * `RequestException` raised on the way (a connection error, a timeout, an
   * error status or a body that is not JSON).
   */
  datatype Fetch = Fetched(data: Json) | RequestFailed(message: string)

  function Unexpected(message: string): string {
    "Unexpected error during web search: " + message
  }

  /** `related_topics[:3]`: the first three items of a list, or the first three characters of a string. */
  function FirstThree(related: Json): (r: Result<seq<Json>>)
    ensures r.Ok? <==> related.JArr? || related.JStr?
    ensures related.JArr? ==> r.value == related.items[..Min(3, |related.items|)]
    ensures r.Ok? ==> |r.value| <= 3
  {
    match related
    case JArr(items) => Ok(items[..Min(3, |items|)])
    case JStr(s) => Ok(Chars(s[..Min(3, |s|)]))
    case JObj(_) => Error("unhashable type: 'slice'")
    case _ => Error("'" + TypeName(related) + "' object is not subscriptable")
  }

  function Min(a: int, b: int): int {
    if a < b then a else b
  }

  /** The one-character strings iterating over a string gives. */
  function Chars(s: string): (r: seq<Json>)
    ensures |r| == |s|
  {
    if |s| == 0 then [] else Chars(s[..|s| - 1]) + [JStr([s[|s| - 1]])]
  }

  /** A topic the search keeps: a dictionary with a `Text` entry. */
  predicate HasText(topic: Json) {
    topic.JObj? && HasKey(topic.fields, "Text")
  }

  /** `topic["Text"]` for each kept topic, in order. */
  function TopicTexts(topics: seq<Json>): (r: seq<Json>)
    ensures |r| <= |topics|
  {
    if |topics| == 0 then []
    else
      var last := topics[|topics| - 1];
      TopicTexts(topics[..|topics| - 1]) + (if HasText(last) then [Get(last.fields, "Text").value] else [])
  }

  /** The index of the first item of `items` that is not a string. */
  function FirstNonString(items: seq<Json>): (r: Option<nat>)
    ensures r.Some? ==> r.value < |items| && !items[r.value].JStr? && forall j :: 0 <= j < r.value ==> items[j].JStr?
    ensures r.None? ==> forall j :: 0 <= j < |items| ==> items[j].JStr?
  {
    if |items| == 0 then None
    else if !items[0].JStr? then Some(0)
    else match FirstNonString(items[1..])
      case None => None
      case Some(k) => Some(k + 1)
  }

  function Strings(items: seq<Json>): (r: seq<string>)
    requires forall j :: 0 <= j < |items| ==> items[j].JStr?
    ensures |r| == |items| && forall j :: 0 <= j < |items| ==> r[j] == items[j].s
  {
    if |items| == 0 then [] else [items[0].s] + Strings(items[1..])
  }

  /** `sep.join(items)`, which raises `TypeError` at the first item that is not a string. */
  function JoinValues(sep: string, items: seq<Json>): (r: Result<string>)
    ensures r.Ok? <==> forall j :: 0 <= j < |items| ==> items[j].JStr?
  {
    match FirstNonString(items)
    case Some(k) => Error("sequence item " + NatToString(k) + ": expected str instance, " + TypeName(items[k]) + " found")
    case None => Ok(Join(sep, Strings(items)))
  }

  /** The listing of a heading and the texts of the first three topics. */
  function Listing(heading: Json, related: Json): Result<string> {
    match FirstThree(related)
    case Error(e) => Error(e)
    case Ok(topics) =>
      match JoinValues("\n- ", [heading] + TopicTexts(topics))
      case Error(e) => Error(e)
      case Ok(text) => Ok("Search results:\n" + text)
  }

  /** `WebSearchTool.execute(query)` once the service has answered with `fetch`. */
  function SearchAnswer(query: Json, fetch: Fetch): string {
    match fetch
    case RequestFailed(e) => "Error performing web search: " + e + ". The search service may be unavailable."
    case Fetched(data) =>
      if data.JObj? then FieldsAnswer(query, data.fields) else Unexpected(NoAttribute(data, "get"))
  }

  /** The answer drawn from a decoded dictionary: the abstract, else the listing, else a hint. */
  function FieldsAnswer(query: Json, fields: Dict): string {
    Respond(query, GetOr(fields, "Abstract", JStr("")), GetOr(fields, "Heading", JStr("")),
      GetOr(fields, "RelatedTopics", JArr([])))
  }

  /** The choice between the abstract `summary`, the listing of `heading` and `related`, and the hint. */
  function Respond(query: Json, summary: Json, heading: Json, related: Json): string {
    if Truthy(summary) then Found(summary)
    else if Truthy(heading) && Truthy(related) then ListingAnswer(heading, related)
    else NotFound(query)
  }

  /** The listing, or the report of the exception building it raised. */
  function ListingAnswer(heading: Json, related: Json): string {
    match Listing(heading, related)
    case Error(e) => Unexpected(e)
    case Ok(text) => text
  }

  function Found(summary: Json): string {
    "Search result: " + Str(summary)
  }

  function NotFound(query: Json): string {
    "No detailed information found for '" + Str(query)
    + "'. You may want to try a different search term or visit a search engine directly."
  }

  /**
   * `WebSearchTool.execute`, with its loop over the first three related
   * topics collecting the text of each dictionary topic.
   */
  method Search(query: Json, fetch: Fetch) returns (answer: string)
    ensures answer == SearchAnswer(query, fetch)
  {
    if fetch.RequestFailed? {
      return "Error performing web search: " + fetch.message + ". The search service may be unavailable.";
    }
    var data := fetch.data;
    if !data.JObj? {
      return Unexpected(NoAttribute(data, "get"));
    }
    answer := AnswerFields(query, data.fields);
  }

  /** The answer from a decoded dictionary. */
  method AnswerFields(query: Json, fields: Dict) returns (answer: string)
    ensures answer == FieldsAnswer(query, fields)
  {
    answer := AnswerParts(query, GetOr(fields, "Abstract", JStr("")), GetOr(fields, "Heading", JStr("")),
      GetOr(fields, "RelatedTopics", JArr([])));
  }

  method AnswerParts(query: Json, summary: Json, heading: Json, related: Json) returns (answer: string)
    ensures Truthy(summary) ==> answer == Found(summary)
    ensures !Truthy(summary) && Truthy(heading) && Truthy(related) ==> answer == ListingAnswer(heading, related)
    ensures !Truthy(summary) && !(Truthy(heading) && Truthy(related)) ==> answer == NotFound(query)
  {
    if Truthy(summary) {
      answer := Found(summary);
    } else if Truthy(heading) && Truthy(related) {
      var listing := ListTopics(heading, related);
      if listing.Error? {
        answer := Unexpected(listing.message);
      } else {
        answer := listing.value;
      }
    } else {
      answer := NotFound(query);
    }
  }

  /** The listing, with its loop over the topics. */
  method ListTopics(heading: Json, related: Json) returns (listing: Result<string>)
    ensures listing == Listing(heading, related)
  {
    var sliced := FirstThree(related);
    if sliced.Error? {
      return Error(sliced.message);
    }
    var results := CollectTexts(heading, sliced.value);
    var joined := JoinValues("\n- ", results);
    if joined.Error? {
      return Error(joined.message);
    }
    listing := Ok("Search results:\n" + joined.value);
  }

  /** `results = [heading]` and the loop appending the text of each topic that has one. */
  method CollectTexts(heading: Json, topics: seq<Json>) returns (results: seq<Json>)
    ensures results == [heading] + TopicTexts(topics)
  {
    results := [heading];
    var i := 0;
    while i < |topics|
      invariant 0 <= i <= |topics|
      invariant results == [heading] + TopicTexts(topics[..i])
    {
      var topic := topics[i];
      assert topics[..i + 1][..i] == topics[..i];
      if topic.JObj? && HasKey(topic.fields, "Text") {
        results := results + [Get(topic.fields, "Text").value];
      }
      i := i + 1;
    }
    assert topics[..i] == topics;
  }

  predicate StartsWith(s: string, prefix: string) {
    |prefix| <= |s| && s[..|prefix|] == prefix
  }

  /** The answer reports a failed request, and only then, with the service-unavailable text. */
  lemma SearchReportsRequestFailures(query: Json, fetch: Fetch)
    ensures fetch.RequestFailed? <==> StartsWith(SearchAnswer(query, fetch), "Error performing web search: ")
  {
    var answer := SearchAnswer(query, fetch);
    if fetch.Fetched? {
      FetchedAnswerStart(query, fetch.data);
    } else {
      assert answer == "Error performing web search: " + fetch.message + ". The search service may be unavailable.";
    }
  }

  /** What the service answered is never reported with the text of a failed request. */
  lemma FetchedAnswerStart(query: Json, data: Json)
    ensures |SearchAnswer(query, Fetched(data))| > 0 && SearchAnswer(query, Fetched(data))[0] != 'E'
  {
    var answer := SearchAnswer(query, Fetched(data));
    if data.JObj? {
      var summary := GetOr(data.fields, "Abstract", JStr(""));
      var heading := GetOr(data.fields, "Heading", JStr(""));
      var related := GetOr(data.fields, "RelatedTopics", JArr([]));
      assert answer == Respond(query, summary, heading, related);
      if Truthy(summary) {
        FoundLead(summary);
      } else if Truthy(heading) && Truthy(related) {
        ListingLead(heading, related);
      } else {
        NotFoundLead(query);
      }
    } else {
      UnexpectedLead(NoAttribute(data, "get"));
    }
  }

  lemma FoundLead(summary: Json)
    ensures |Found(summary)| > 0 && Found(summary)[0] == 'S'
  {
  }

  lemma NotFoundLead(query: Json)
    ensures |NotFound(query)| > 0 && NotFound(query)[0] == 'N'
  {
  }

  lemma UnexpectedLead(message: string)
    ensures |Unexpected(message)| > 0 && Unexpected(message)[0] == 'U'
  {
  }

  lemma ListingLead(heading: Json, related: Json)
    ensures |ListingAnswer(heading, related)| > 0 && ListingAnswer(heading, related)[0] in "SU"
  {
    match Listing(heading, related)
    case Error(e) => UnexpectedLead(e);
    case Ok(text) =>
      assert FirstThree(related).Ok?;
      var joined := JoinValues("\n- ", [heading] + TopicTexts(FirstThree(related).value));
      assert text == "Search results:\n" + joined.value;
  }

  /** Topics after the third never reach the listing. */
  lemma ListingUsesFirstThree(heading: Json, items: seq<Json>)
    requires |items| >= 3
    ensures Listing(heading, JArr(items)) == Listing(heading, JArr(items[..3]))
  {
    assert items[..3][..3] == items[..3];
  }

  /** Topics that are not dictionaries with a `Text` entry are skipped, wherever they stand. */
  lemma TopicTextsSkip(topics: seq<Json>, topic: Json)
    requires !HasText(topic)
    ensures TopicTexts(topics + [topic]) == TopicTexts(topics)
  {
    assert (topics + [topic])[..|topics|] == topics;
  }

  /**
   * A heading with a list of topics, all dictionaries with string texts:
   * the listing is the heading followed by one bullet line for each of the
   * first three topics.
   */
  lemma ListingOfTopics(heading: string, texts: seq<string>)
    ensures Listing(JStr(heading), JArr(TopicsOf(texts)))
      == Ok("Search results:\n" + heading + Bullets(texts[..Min(3, |texts|)]))
  {
    var first := texts[..Min(3, |texts|)];
    assert TopicsOf(texts)[..Min(3, |texts|)] == TopicsOf(first);
    TopicTextsOf(first);
    JoinStrings(heading, first);
    AppendAssoc("Search results:\n", heading, Bullets(first));
  }

  /** The dictionary `{"Text": text}`. */
  function TopicOf(text: string): Json {
    JObj([("Text", JStr(text))])
  }

  function TopicsOf(texts: seq<string>): (r: seq<Json>) {
    seq(|texts|, j requires 0 <= j < |texts| => TopicOf(texts[j]))
  }

  function StringValues(texts: seq<string>): seq<Json> {
    seq(|texts|, j requires 0 <= j < |texts| => JStr(texts[j]))
  }

  /** Each text on its own bullet line. */
  function Bullets(texts: seq<string>): string {
    if |texts| == 0 then "" else "\n- " + texts[0] + Bullets(texts[1..])
  }

  lemma {:induction false} TopicTextsOf(texts: seq<string>)
    ensures TopicTexts(TopicsOf(texts)) == StringValues(texts)
  {
    if |texts| > 0 {
      var init := texts[..|texts| - 1];
      TopicTextsOf(init);
      var topics := TopicsOf(texts);
      assert topics[..|topics| - 1] == TopicsOf(init);
      var last := topics[|topics| - 1];
      assert last.fields[0].0 == "Text";
      assert HasText(last);
      assert StringValues(texts) == StringValues(init) + [JStr(texts[|texts| - 1])];
    }
  }

  /** Joining string values is joining their texts. */
  lemma JoinStrings(heading: string, texts: seq<string>)
    ensures JoinValues("\n- ", [JStr(heading)] + StringValues(texts)) == Ok(heading + Bullets(texts))
  {
    var values := [JStr(heading)] + StringValues(texts);
    assert forall j :: 0 <= j < |values| ==> values[j].JStr?;
    assert Strings(values) == [heading] + texts;
    JoinBullets(heading, texts);
  }

  lemma {:induction false} JoinBullets(head: string, texts: seq<string>)
    decreases |texts|
    ensures Join("\n- ", [head] + texts) == head + Bullets(texts)
  {
    if |texts| > 0 {
      JoinBullets(texts[0], texts[1..]);
      assert ([head] + texts)[1..] == [texts[0]] + texts[1..];
    }
  }

  // ---------------------------------------------------------------------
  // Dates and times
  // ---------------------------------------------------------------------

  /** A `datetime.date`. */
  datatype Date = Date(year: int, month: int, day: int)

  /** What `datetime.datetime.now()` gives, to the second. */
  datatype Moment = Moment(date: Date, hour: int, minute: int, second: int)

  predicate IsLeap(year: int) {
    year % 4 == 0 && (year % 100 != 0 || year % 400 == 0)
  }

  function DaysInMonth(year: int, month: int): (n: int)
    requires 1 <= month <= 12
    ensures 28 <= n <= 31
  {
    if month == 2 then (if IsLeap(year) then 29 else 28)
    else if month == 4 || month == 6 || month == 9 || month == 11 then 30
    else 31
  }

  /** The days of a year before the first of `month` (13 for the whole year). */
  function DaysBeforeMonth(year: int, month: int): int
    requires 1 <= month <= 13
  {
    var common :=
      if month == 1 then 0 else if month == 2 then 31 else if month == 3 then 59
      else if month == 4 then 90 else if month == 5 then 120 else if month == 6 then 151
      else if month == 7 then 181 else if month == 8 then 212 else if month == 9 then 243
      else if month == 10 then 273 else if month == 11 then 304 else if month == 12 then 334
      else 365;
    if month > 2 && IsLeap(year) then common + 1 else common
  }

  function YearLength(year: int): int {
    if IsLeap(year) then 366 else 365
  }

  /** The days of the proleptic Gregorian calendar before the first of January of `year`. */
  function DaysBeforeYear(year: int): int
    requires year >= 1
  {
    var y := year - 1;
    365 * y + y / 4 - y / 100 + y / 400
  }

  /** What `datetime.date(year, month, day)` accepts. */
  predicate ValidDate(d: Date) {
    1 <= d.year <= 9999 && 1 <= d.month <= 12 && 1 <= d.day <= DaysInMonth(d.year, d.month)
  }

  predicate ValidMoment(m: Moment) {
    ValidDate(m.date) && 0 <= m.hour < 24 && 0 <= m.minute < 60 && 0 <= m.second < 60
  }

  /** `date.toordinal()`: day 1 is the first of January of year 1. */
  function Ordinal(d: Date): int
    requires ValidDate(d)
  {
    DaysBeforeYear(d.year) + DaysBeforeMonth(d.year, d.month) + d.day
  }

  /** `date.weekday()`: 0 for Monday up to 6 for Sunday. */
  function Weekday(d: Date): (w: int)
    requires ValidDate(d)
    ensures 0 <= w < 7
  {
    (Ordinal(d) + 6) % 7
  }

  /** Calendar order. */
  predicate Before(a: Date, b: Date) {
    a.year < b.year || (a.year == b.year && (a.month < b.month || (a.month == b.month && a.day < b.day)))
  }

  /** The months of a year add up to the year. */
  lemma MonthStep(year: int, month: int)
    requires 1 <= month <= 12
    ensures DaysBeforeMonth(year, month + 1) == DaysBeforeMonth(year, month) + DaysInMonth(year, month)
    ensures DaysBeforeMonth(year, 13) == YearLength(year)
  {
  }

  /** A year adds its own length to the days before it. */
  lemma YearStep(year: int)
    requires year >= 1
    ensures DaysBeforeYear(year + 1) == DaysBeforeYear(year) + YearLength(year)
  {
    StepBy4(year);
    StepBy100(year);
    StepBy400(year);
    if year % 100 == 0 {
      CenturyLeap(year);
    }
    if year % 400 == 0 {
      QuadCentury(year);
    }
  }

  /** Going from `year - 1` to `year` adds one fourth-year boundary exactly when 4 divides `year`. */
  lemma StepBy4(year: int)
    requires year >= 1
    ensures year / 4 - (year - 1) / 4 == (if year % 4 == 0 then 1 else 0)
  {
  }

  /** The same for hundreds. */
  lemma StepBy100(year: int)
    requires year >= 1
    ensures year / 100 - (year - 1) / 100 == (if year % 100 == 0 then 1 else 0)
  {
  }

  /** The same for four hundreds. */
  lemma StepBy400(year: int)
    requires year >= 1
    ensures year / 400 - (year - 1) / 400 == (if year % 400 == 0 then 1 else 0)
  {
  }

  /** A multiple of 100 is a multiple of 4. */
  lemma CenturyLeap(year: int)
    requires year % 100 == 0
    ensures year % 4 == 0
  {
    assert year == 4 * (25 * (year / 100));
  }

  /** A multiple of 400 is a multiple of 100. */
  lemma QuadCentury(year: int)
    requires year % 400 == 0
    ensures year % 100 == 0
  {
    assert year == 100 * (4 * (year / 400));
  }

  /** Later years begin later, by at least a year's worth of days. */
  lemma {:induction false} YearsAdvance(a: int, b: int)
    requires 1 <= a < b
    ensures DaysBeforeYear(b) >= DaysBeforeYear(a) + YearLength(a)
    decreases b - a
  {
    YearStep(a);
    if a + 1 < b {
      YearsAdvance(a + 1, b);
    }
  }

  /** Where a date falls among the ordinals of its year and month. */
  lemma OrdinalWithin(d: Date)
    requires ValidDate(d)
    ensures DaysBeforeYear(d.year) < Ordinal(d) <= DaysBeforeYear(d.year) + YearLength(d.year)
    ensures DaysBeforeMonth(d.year, d.month) < Ordinal(d) - DaysBeforeYear(d.year) <= DaysBeforeMonth(d.year, d.month + 1)
  {
    MonthStep(d.year, d.month);
    MonthsAdvance(d.year, d.month + 1, 13);
  }

  lemma MonthsAdvance(year: int, a: int, b: int)
    requires 1 <= a <= b <= 13
    ensures DaysBeforeMonth(year, a) <= DaysBeforeMonth(year, b)
  {
  }

  /** Ordinals follow the calendar, so date arithmetic on them measures the time between dates. */
  lemma OrdinalOrder(a: Date, b: Date)
    requires ValidDate(a) && ValidDate(b)
    ensures Before(a, b) <==> Ordinal(a) < Ordinal(b)
    ensures a == b <==> Ordinal(a) == Ordinal(b)
  {
    OrdinalWithin(a);
    OrdinalWithin(b);
    if a.year < b.year {
      YearsAdvance(a.year, b.year);
    } else if b.year < a.year {
      YearsAdvance(b.year, a.year);
    } else if a.month < b.month {
      MonthsAdvance(a.year, a.month + 1, b.month);
    } else if b.month < a.month {
      MonthsAdvance(a.year, b.month + 1, a.month);
    }
  }

  /** The `%A` names, from Monday. */
  function WeekdayName(w: int): string
    requires 0 <= w < 7
  {
    if w == 0 then "Monday" else if w == 1 then "Tuesday" else if w == 2 then "Wednesday"
    else if w == 3 then "Thursday" else if w == 4 then "Friday" else if w == 5 then "Saturday"
    else "Sunday"
  }

  /** The `%B` names. */
  function MonthName(m: int): string
    requires 1 <= m <= 12
  {
    if m == 1 then "January" else if m == 2 then "February" else if m == 3 then "March"
    else if m == 4 then "April" else if m == 5 then "May" else if m == 6 then "June"
    else if m == 7 then "July" else if m == 8 then "August" else if m == 9 then "September"
    else if m == 10 then "October" else if m == 11 then "November" else "December"
  }

  /** `strftime('%B %d, %Y')`. */
  function LongDate(d: Date): string
    requires ValidDate(d)
  {
    MonthName(d.month) + " " + Pad2(d.day) + ", " + NatToString(d.year)
  }

  /** `strftime('%A, %B %d, %Y')`. */
  function FullDate(d: Date): string
    requires ValidDate(d)
  {
    WeekdayName(Weekday(d)) + ", " + LongDate(d)
  }

  /** `strftime('%I:%M:%S %p')`: a twelve-hour clock, with 12 for the hour after midnight and noon. */
  function ClockText(m: Moment): string
    requires ValidMoment(m)
  {
    var h := m.hour % 12;
    Pad2(if h == 0 then 12 else h) + ":" + Pad2(m.minute) + ":" + Pad2(m.second) + " " + (if m.hour < 12 then "AM" else "PM")
  }

  /** The date the tests of the tool ask about: Christmas 2025 fell on a Thursday. */
  lemma ChristmasThursday()
    ensures ValidDate(Date(2025, 12, 25)) && WeekdayName(Weekday(Date(2025, 12, 25))) == "Thursday"
    ensures LongDate(Date(2025, 12, 25)) == "December 25, 2025"
  {
    assert Ordinal(Date(2025, 12, 25)) == 739610;
    assert NatToString(2025) == "2025" by {
      assert NatToString(202) == "202" by {
        assert NatToString(20) == "20";
      }
    }
  }

  // ---------------------------------------------------------------------
  // Reading a date out of a question
  // ---------------------------------------------------------------------

  /** A match of `\b(20\d{2})\b` at index `i`. */
  predicate YearAt(q: string, i: nat) {
    i + 4 <= |q| && q[i] == '2' && q[i + 1] == '0' && IsDigit(q[i + 2]) && IsDigit(q[i + 3])
    && (i == 0 || !IsWordChar(q[i - 1])) && (i + 4 == |q| || !IsWordChar(q[i + 4]))
  }

  /** `re.search` for a year: the leftmost match at or after `from`. */
  function FindYear(q: string, from: nat): (r: Option<nat>)
    decreases |q| - from
    ensures r.Some? ==> from <= r.value && YearAt(q, r.value)
    ensures r.Some? ==> forall j :: from <= j < r.value ==> !YearAt(q, j)
    ensures r.None? ==> forall j :: from <= j ==> !YearAt(q, j)
  {
    if from + 4 > |q| then None
    else if YearAt(q, from) then Some(from)
    else FindYear(q, from + 1)
  }

  /** `int(year_match.group(1))`. */
  function YearValue(q: string, i: nat): (y: int)
    requires YearAt(q, i)
    ensures 2000 <= y <= 2099
  {
    2000 + 10 * DigitValue(q[i + 2]) + DigitValue(q[i + 3])
  }

  /** A match of `\b(\d{1,2})\b` of `n` digits at index `i`. */
  predicate DayAt(q: string, i: nat, n: nat) {
    1 <= n <= 2 && i + n <= |q| && (forall k :: i <= k < i + n ==> IsDigit(q[k]))
    && (i == 0 || !IsWordChar(q[i - 1])) && (i + n == |q| || !IsWordChar(q[i + n]))
  }

  /** The length of the day match at `i`: two digits are tried before one. */
  function DayLength(q: string, i: nat): (r: Option<nat>)
    ensures r.Some? ==> DayAt(q, i, r.value)
    ensures r.None? ==> !DayAt(q, i, 1) && !DayAt(q, i, 2)
  {
    if DayAt(q, i, 2) then Some(2) else if DayAt(q, i, 1) then Some(1) else None
  }

  /** `re.search` for a day: the leftmost index with a match at or after `from`. */
  function FindDay(q: string, from: nat): (r: Option<nat>)
    decreases |q| - from
    ensures r.Some? ==> from <= r.value && DayLength(q, r.value).Some?
    ensures r.Some? ==> forall j :: from <= j < r.value ==> DayLength(q, j).None?
    ensures r.None? ==> forall j :: from <= j ==> DayLength(q, j).None?
  {
    if from >= |q| then None
    else if DayLength(q, from).Some? then Some(from)
    else FindDay(q, from + 1)
  }

  /** `int(day_match.group(1)) if day_match else 1`. */
  function DayOf(q: string): (day: int)
    ensures 0 <= day < 100
  {
    match FindDay(q, 0)
    case None => 1
    case Some(i) =>
      var n := DayLength(q, i).value;
      assert forall k :: i <= k < i + n ==> IsDigit(q[k]);
      if n == 1 then DigitValue(q[i]) else 10 * DigitValue(q[i]) + DigitValue(q[i + 1])
  }

  /** The `months` dictionary of the tool, in its insertion order: full names, then abbreviations. */
  const MonthTable: seq<(string, int)> := [
    ("january", 1), ("february", 2), ("march", 3), ("april", 4), ("may", 5), ("june", 6),
    ("july", 7), ("august", 8), ("september", 9), ("october", 10), ("november", 11), ("december", 12),
    ("jan", 1), ("feb", 2), ("mar", 3), ("apr", 4), ("jun", 6), ("jul", 7), ("aug", 8),
    ("sep", 9), ("oct", 10), ("nov", 11), ("dec", 12)]

  /** The first entry at or after `from` whose name the (lower-cased) question contains. */
  function FirstMonthEntry(ql: string, from: nat): (r: Option<nat>)
    decreases |MonthTable| - from
    ensures r.Some? ==> from <= r.value < |MonthTable| && Contains(ql, MonthTable[r.value].0)
    ensures r.Some? ==> forall j :: from <= j < r.value ==> !Contains(ql, MonthTable[j].0)
    ensures r.None? ==> forall j :: from <= j < |MonthTable| ==> !Contains(ql, MonthTable[j].0)
  {
    if from >= |MonthTable| then None
    else if Contains(ql, MonthTable[from].0) then Some(from)
    else FirstMonthEntry(ql, from + 1)
  }

  /** The month the question names, by the first entry of the table found in it. */
  function MonthOf(ql: string): Option<int> {
    match FirstMonthEntry(ql, 0)
    case None => None
    case Some(k) => Some(MonthTable[k].1)
  }

  /** The loop over `months.items()` that stops at the first name found in the question. */
  method FindMonth(ql: string) returns (month: Option<int>)
    ensures month == MonthOf(ql)
  {
    var i := 0;
    while i < |MonthTable|
      invariant 0 <= i <= |MonthTable|
      invariant FirstMonthEntry(ql, 0) == FirstMonthEntry(ql, i)
    {
      if Contains(ql, MonthTable[i].0) {
        return Some(MonthTable[i].1);
      }
      i := i + 1;
    }
    return None;
  }

  /** The lower-case three-letter abbreviation of a month. */
  function Abbreviation(m: int): string
    requires 1 <= m <= 12
  {
    MonthTable[m - 1].0[..3]
  }

  /** Every name of the table begins with the abbreviation of its month, so finding one finds that abbreviation. */
  lemma MonthTableAbbreviates(k: nat)
    requires k < |MonthTable|
    ensures 1 <= MonthTable[k].1 <= 12 && |MonthTable[k].0| >= 3
    ensures MonthTable[k].0[..3] == Abbreviation(MonthTable[k].1)
  {
  }

  lemma ContainsPrefix(s: string, name: string, n: nat)
    requires Contains(s, name) && n <= |name|
    ensures Contains(s, name[..n])
  {
    ContainsIff(s, name);
    var i: nat :| OccursAt(s, name, i);
    assert s[i..i + n] == name[..n];
    assert OccursAt(s, name[..n], i);
    ContainsIff(s, name[..n]);
  }

  /**
   * A question names a month exactly when it holds one of the twelve
   * abbreviations, and the month found is one whose abbreviation it holds.
   */
  lemma MonthOfFound(ql: string)
    ensures MonthOf(ql).Some? <==> exists m :: 1 <= m <= 12 && Contains(ql, Abbreviation(m))
    ensures MonthOf(ql).Some? ==> 1 <= MonthOf(ql).value <= 12 && Contains(ql, Abbreviation(MonthOf(ql).value))
  {
    match FirstMonthEntry(ql, 0)
    case Some(k) =>
      MonthTableAbbreviates(k);
      ContainsPrefix(ql, MonthTable[k].0, 3);
    case None =>
      forall m | 1 <= m <= 12 ensures !Contains(ql, Abbreviation(m)) {
        var k := AbbreviationEntry(m);
      }
  }

  /** Every abbreviation is itself an entry of the table: "may" among the full names, the others after them. */
  lemma AbbreviationEntry(m: int) returns (k: nat)
    requires 1 <= m <= 12
    ensures k < |MonthTable| && MonthTable[k].0 == Abbreviation(m)
  {
    k := if m < 5 then 11 + m else if m == 5 then 4 else 10 + m;
  }

  // ---------------------------------------------------------------------
  // The date and time tool
  // ---------------------------------------------------------------------

  const TodayWords: seq<string> := ["today", "current date", "what is the date", "today's date"]
  const TimeWords: seq<string> := ["current time", "what time", "time now"]
  const WeekdayWords: seq<string> := ["day of week", "what day", "which day"]
  const CountWords: seq<string> := ["how many days", "days until", "days between"]

  /** `any(keyword in query_lower for keyword in words)`. */
  predicate MentionsAny(ql: string, words: seq<string>) {
    exists k :: 0 <= k < |words| && Contains(ql, words[k])
  }

  /** The date a question names, as far as the tool reads one. */
  datatype Target =
    | NoTarget              // no year, or no month
    | DayOutOfRange         // `datetime.date` rejects the day
    | Target(date: Date)

  /** The year, month and day read out of the question, and the date they make. */
  function TargetOf(q: string, month: Option<int>): (t: Target)
    ensures t.Target? ==> ValidDate(t.date)
  {
    match FindYear(q, 0)
    case None => NoTarget
    case Some(i) =>
      if month.None? || !(1 <= month.value <= 12) then NoTarget
      else
        var d := Date(YearValue(q, i), month.value, DayOf(q));
        if ValidDate(d) then Target(d) else DayOutOfRange
  }

  function Rephrase(message: string): string {
    "Error processing date/time query: " + message + ". Please try rephrasing your question."
  }

  /** The lead both hints share. */
  const PleaseSpecify := "Please specify "
  const WeekdayHelp := PleaseSpecify + "a date in the format like 'December 25, 2025' or provide month and year."
  const CountHelp := PleaseSpecify + "a target date with month and year (e.g., 'New Year 2026' or 'December 31, 2025')"

  /** The answer to a question about days until a date. */
  function CountAnswer(target: Date, today: Date): string
    requires ValidDate(target) && ValidDate(today)
  {
    var delta := Ordinal(target) - Ordinal(today);
    if delta > 0 then "There are " + IntToString(delta) + " days until " + LongDate(target)
    else if delta < 0 then "That date was " + IntToString(-delta) + " days ago"
    else "That date is today!"
  }

  /** The answer to a string question whose lower-cased, stripped form is `ql`, given the month it names. */
  function Answer(q: string, ql: string, month: Option<int>, now: Moment, today: Date): string
    requires ValidMoment(now) && ValidDate(today)
  {
    if MentionsAny(ql, TodayWords) then "Today's date is " + FullDate(today)
    else if MentionsAny(ql, TimeWords) then "The current time is " + ClockText(now)
    else if MentionsAny(ql, WeekdayWords) then
      match TargetOf(q, month)
      case NoTarget => WeekdayHelp
      case DayOutOfRange => Rephrase("day is out of range for month")
      case Target(d) => LongDate(d) + " is a " + WeekdayName(Weekday(d))
    else if MentionsAny(ql, CountWords) then
      match TargetOf(q, month)
      case NoTarget => CountHelp
      case DayOutOfRange => Rephrase("day is out of range for month")
      case Target(d) => CountAnswer(d, today)
    else "Current date and time: " + FullDate(now.date) + " at " + ClockText(now)
  }

  /** `DateTimeTool.execute(query)` at the moment `now` of the day `today`. */
  function DateTimeAnswer(query: Json, now: Moment, today: Date): string
    requires ValidMoment(now) && ValidDate(today)
  {
    match query
    case JStr(q) =>
      var ql := Strip(Lower(q));
      Answer(q, ql, MonthOf(ql), now, today)
    case _ => Rephrase(NoAttribute(query, "lower"))
  }

  /** `DateTimeTool.execute`, with its loop over the month names. */
  method DateTimeTool(query: Json, now: Moment, today: Date) returns (answer: string)
    requires ValidMoment(now) && ValidDate(today)
    ensures answer == DateTimeAnswer(query, now, today)
  {
    if !query.JStr? {
      return Rephrase(NoAttribute(query, "lower"));
    }
    var ql := Strip(Lower(query.s));
    var month := FindMonth(ql);
    answer := Answer(query.s, ql, month, now, today);
  }

  /** A long date starts with its month's name, and no month's name starts with `E`. */
  lemma LongDateLead(d: Date)
    requires ValidDate(d)
    ensures |LongDate(d)| > 0 && LongDate(d)[0] != 'E'
  {
    assert LongDate(d)[0] == MonthName(d.month)[0];
  }

  /** The first letter of an answer to a string question: `E` only for the rephrase error. */
  lemma AnswerLead(q: string, ql: string, month: Option<int>, now: Moment, today: Date)
    requires ValidMoment(now) && ValidDate(today)
    ensures var a := Answer(q, ql, month, now, today);
      |a| > 0 && (a[0] == 'E' <==>
        (!MentionsAny(ql, TodayWords) && !MentionsAny(ql, TimeWords)
         && (MentionsAny(ql, WeekdayWords) || MentionsAny(ql, CountWords))
         && TargetOf(q, month).DayOutOfRange?))
  {
    var a := Answer(q, ql, month, now, today);
    var t := TargetOf(q, month);
    if MentionsAny(ql, TodayWords) {
      assert a == "Today's date is " + FullDate(today);
    } else if MentionsAny(ql, TimeWords) {
      assert a == "The current time is " + ClockText(now);
    } else if MentionsAny(ql, WeekdayWords) || MentionsAny(ql, CountWords) {
      if t.Target? {
        if MentionsAny(ql, WeekdayWords) {
          assert a == LongDate(t.date) + " is a " + WeekdayName(Weekday(t.date));
          LongDateLead(t.date);
        } else {
          assert a == CountAnswer(t.date, today);
        }
      } else if t.DayOutOfRange? {
        assert a == Rephrase("day is out of range for month");
      } else {
        assert a == if MentionsAny(ql, WeekdayWords) then WeekdayHelp else CountHelp;
      }
    } else {
      assert a == "Current date and time: " + FullDate(now.date) + " at " + ClockText(now);
    }
  }

  /**
   * The date tool answers with an error exactly when the query is not a
   * string, or when a weekday or days-until question names a day its month
   * does not have; every other question gets an answer.
   */
  lemma DateTimeErrors(query: Json, now: Moment, today: Date)
    requires ValidMoment(now) && ValidDate(today)
    ensures var a := DateTimeAnswer(query, now, today);
      |a| > 0 && (a[0] == 'E' <==>
        (!query.JStr? || (var ql := Strip(Lower(query.s));
          !MentionsAny(ql, TodayWords) && !MentionsAny(ql, TimeWords)
          && (MentionsAny(ql, WeekdayWords) || MentionsAny(ql, CountWords))
          && TargetOf(query.s, MonthOf(ql)).DayOutOfRange?)))
  {
    if query.JStr? {
      var ql := Strip(Lower(query.s));
      AnswerLead(query.s, ql, MonthOf(ql), now, today);
    }
  }

  /** A date ahead of today is counted as the days until it. */
  lemma CountAhead(target: Date, today: Date)
    requires ValidDate(target) && ValidDate(today) && Before(today, target)
    ensures CountAnswer(target, today)
      == "There are " + IntToString(Ordinal(target) - Ordinal(today)) + " days until " + LongDate(target)
  {
    OrdinalOrder(today, target);
  }

  /** A date behind today is counted as the days since it. */
  lemma CountBehind(target: Date, today: Date)
    requires ValidDate(target) && ValidDate(today) && Before(target, today)
    ensures CountAnswer(target, today) == "That date was " + IntToString(Ordinal(today) - Ordinal(target)) + " days ago"
  {
    OrdinalOrder(target, today);
  }

  /** Only today itself is answered as today. */
  lemma CountToday(target: Date, today: Date)
    requires ValidDate(target) && ValidDate(today)
    ensures target == today <==> CountAnswer(target, today) == "That date is today!"
  {
    OrdinalOrder(target, today);
    var delta := Ordinal(target) - Ordinal(today);
    if delta > 0 {
      CountTextsDiffer(IntToString(delta), LongDate(target));
    } else if delta < 0 {
      CountTextsDiffer(IntToString(-delta), LongDate(target));
    }
  }

  lemma CountTextsDiffer(n: string, d: string)
    ensures "There are " + n + " days until " + d != "That date is today!"
    ensures "That date was " + n + " days ago" != "That date is today!"
  {
    assert ("There are " + n + " days until " + d)[2] == 'e';
    assert ("That date was " + n + " days ago")[10] == 'w';
  }
}
