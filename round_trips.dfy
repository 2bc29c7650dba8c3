/**
 * The agent and its tools together: the query text the agent builds from a
 * tool call's arguments is read back by the tool as the request the
 * arguments describe.
 */
module RoundTrips {
  import opened Wrappers
  import opened Text
  import opened Calendar
  import opened Tools
  import opened Agent
  import opened AgentProperties
  import DateTimeTool
  import WikipediaTool

  /** The configuration's datetime tool is the datetime tool on the day `today`. */
  ghost predicate ClockedOn(cfg: Config, today: Ordinal) {
    forall q :: cfg.tools.datetime(q) == DateTimeTool.Run(q, today)
  }

  /** The configuration's Wikipedia tool is the Wikipedia tool over the encyclopedia `lib`. */
  ghost predicate ReadsFrom(cfg: Config, lib: WikipediaTool.Library) {
    forall q :: cfg.tools.wikipedia(q) == WikipediaTool.Run(q, lib)
  }

  lemma Clocked(cfg: Config, today: Ordinal, q: string)
    requires ClockedOn(cfg, today)
    ensures cfg.tools.datetime(q) == DateTimeTool.Run(q, today)
  {
  }

  lemma Served(cfg: Config, lib: WikipediaTool.Library, q: string)
    requires ReadsFrom(cfg, lib)
    ensures cfg.tools.wikipedia(q) == WikipediaTool.Run(q, lib)
  {
  }

  function DatetimeArgs(operation: string, days: Json): Json {
    JObject(map["operation" := JString(operation), "days" := days])
  }

  function WikipediaArgs(action: string, query: string): Json {
    JObject(map["action" := JString(action), "query" := JString(query)])
  }

  /** `{"operation": "today", ...}` hands the datetime tool the query `today`. */
  lemma TodayAsked(cfg: Config, days: Json)
    ensures ExecuteTool(cfg, "datetime", DatetimeArgs("today", days)) == Success(cfg.tools.datetime("today"))
  {
    TodayIgnoresDays(cfg, DatetimeArgs("today", days).fields);
  }

  /** Any other operation hands it `<operation>:<d>`, with `d` printed as Python prints it. */
  lemma ShiftAsked(cfg: Config, operation: string, d: int)
    requires operation != "today"
    ensures ExecuteTool(cfg, "datetime", DatetimeArgs(operation, JInt(d)))
         == Success(cfg.tools.datetime(operation + ":" + IntToString(d)))
  {
    ShiftQueryFormat(cfg, DatetimeArgs(operation, JInt(d)).fields);
  }

  /** The same, for a query text already known to be `<operation>:<d>`. */
  lemma ShiftAskedAs(cfg: Config, operation: string, d: int, q: string)
    requires operation != "today" && q == operation + ":" + IntToString(d)
    ensures ExecuteTool(cfg, "datetime", DatetimeArgs(operation, JInt(d))) == Success(cfg.tools.datetime(q))
  {
    ShiftAsked(cfg, operation, d);
  }

  lemma AgoText(x: string)
    ensures "days_ago" + ":" + x == "days_ago:" + x
  {
  }

  lemma AheadText(x: string)
    ensures "days_ahead" + ":" + x == "days_ahead:" + x
  {
  }

  // AgoAsked and AheadAsked (and SearchAsked and ReadAsked below) are the same
  // fact for two literal operations. Each round trip calls its own instance,
  // which keeps the string reasoning of those proofs small.
  lemma AgoAsked(cfg: Config, d: int)
    ensures ExecuteTool(cfg, "datetime", DatetimeArgs("days_ago", JInt(d)))
         == Success(cfg.tools.datetime("days_ago:" + IntToString(d)))
  {
    AgoText(IntToString(d));
    ShiftAskedAs(cfg, "days_ago", d, "days_ago:" + IntToString(d));
  }

  lemma AheadAsked(cfg: Config, d: int)
    ensures ExecuteTool(cfg, "datetime", DatetimeArgs("days_ahead", JInt(d)))
         == Success(cfg.tools.datetime("days_ahead:" + IntToString(d)))
  {
    AheadText(IntToString(d));
    ShiftAskedAs(cfg, "days_ahead", d, "days_ahead:" + IntToString(d));
  }

  /** `{"action": a, "query": q}` hands the Wikipedia tool the query `<a>:<q>`. */
  lemma WikipediaAsked(cfg: Config, action: string, query: string)
    ensures ExecuteTool(cfg, "wikipedia", WikipediaArgs(action, query)) == Success(cfg.tools.wikipedia(action + ":" + query))
  {
    WikipediaQueryFormat(cfg, WikipediaArgs(action, query).fields);
  }

  lemma SearchAsked(cfg: Config, query: string)
    ensures ExecuteTool(cfg, "wikipedia", WikipediaArgs("search", query)) == Success(cfg.tools.wikipedia("search:" + query))
  {
    WikipediaAsked(cfg, "search", query);
    assert "search" + ":" + query == "search:" + query;
  }

  lemma ReadAsked(cfg: Config, query: string)
    ensures ExecuteTool(cfg, "wikipedia", WikipediaArgs("read", query)) == Success(cfg.tools.wikipedia("read:" + query))
  {
    WikipediaAsked(cfg, "read", query);
    assert "read" + ":" + query == "read:" + query;
  }

  /** `{"operation": "today", "days": v}` gives today's date, whatever `v` is. */
  lemma TodayRoundTrip(cfg: Config, today: Ordinal, days: Json)
    requires ClockedOn(cfg, today)
    ensures ExecuteTool(cfg, "datetime", DatetimeArgs("today", days)) == Success(Succeeded(DateTimeTool.Report(today)))
  {
    TodayAsked(cfg, days);
    Clocked(cfg, today, "today");
  }

  /** `{"operation": "days_ago", "days": d}` gives the day `d` days before today. */
  lemma DaysAgoRoundTrip(cfg: Config, today: Ordinal, d: int)
    requires ClockedOn(cfg, today)
    ensures ExecuteTool(cfg, "datetime", DatetimeArgs("days_ago", JInt(d))) == Success(DateTimeTool.Displace(today, d, false))
  {
    var q := "days_ago:" + IntToString(d);
    AgoAsked(cfg, d);
    Clocked(cfg, today, q);
    DateTimeTool.AgoQuery(d, today);
  }

  /** `{"operation": "days_ahead", "days": d}` gives the day `d` days after today. */
  lemma DaysAheadRoundTrip(cfg: Config, today: Ordinal, d: int)
    requires ClockedOn(cfg, today)
    ensures ExecuteTool(cfg, "datetime", DatetimeArgs("days_ahead", JInt(d))) == Success(DateTimeTool.Displace(today, d, true))
  {
    var q := "days_ahead:" + IntToString(d);
    AheadAsked(cfg, d);
    Clocked(cfg, today, q);
    DateTimeTool.AheadQuery(d, today);
  }

  /** `{"action": "search", "query": q}` searches for `q` with its surrounding blanks removed. */
  lemma SearchRoundTrip(cfg: Config, lib: WikipediaTool.Library, query: string)
    requires ReadsFrom(cfg, lib)
    ensures ExecuteTool(cfg, "wikipedia", WikipediaArgs("search", query))
         == Success(WikipediaTool.SearchReport(lib.search(Strip(query))))
  {
    var q := "search:" + query;
    SearchAsked(cfg, query);
    Served(cfg, lib, q);
    WikipediaTool.SearchQuery(query, lib);
  }

  /** `{"action": "read", "query": t}` reads the article `t` with its surrounding blanks removed. */
  lemma ReadRoundTrip(cfg: Config, lib: WikipediaTool.Library, query: string)
    requires ReadsFrom(cfg, lib)
    ensures ExecuteTool(cfg, "wikipedia", WikipediaArgs("read", query))
         == Success(WikipediaTool.ReadReport(Strip(query), lib.read(Strip(query))))
  {
    var q := "read:" + query;
    ReadAsked(cfg, query);
    Served(cfg, lib, q);
    WikipediaTool.ReadQuery(query, lib);
  }

  /** An operation the tool does not know ends in its format error. */
  lemma UnknownOperationRejected(cfg: Config, today: Ordinal, operation: string, d: int)
    requires ClockedOn(cfg, today)
    requires operation != "today" && operation != "days_ago" && operation != "days_ahead"
    requires ':' !in operation
    ensures ExecuteTool(cfg, "datetime", DatetimeArgs(operation, JInt(d))) == Success(Failed(DateTimeTool.InvalidFormat))
  {
    var q := operation + ":" + IntToString(d);
    ShiftAsked(cfg, operation, d);
    Clocked(cfg, today, q);
    DateTimeTool.UnknownOperation(operation, IntToString(d));
  }
}
