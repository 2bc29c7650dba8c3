# simple-agent, modelled in Dafny

This project models the core of *simple-agent*, a question-answering agent that
works in two phases.

1. **Planning.** It asks a chat model for a plan.
2. **Conversation loop.** It hands the plan to a chat model that calls tools, and
   records every step for the user. Each reply's tool calls are run in order:
   arguments that do not parse are logged and skipped; a parsed call is
   dispatched to its tool; its steps and its chat messages are appended.
   The loop ends at the first reply that calls no tool. The steps, joined by
   blank lines, are the answer. A failure of the chat service in the loop, or
   an argument lookup in the dispatch that raises, ends the run with
   `Error: <message>`. A planner failure becomes the plan text instead,
   arguments that do not parse are logged and skipped, and each tool catches
   its own exceptions.

Two of the tools are modelled in full:

- **the datetime tool**, which answers `today`, `days_ago:N` and `days_ahead:N`
  with a date written `YYYY-MM-DD (Weekday)`;
- **the Wikipedia tool**, which answers `search:<term>` and `read:<title>`.

Files:

- `wrappers.dfy` — `Option` and `Result`.
- `tools.dfy` — a tool's `{success, result}` answer.
- `text.dfy` — the Python string operations the core relies on, with lemmas
  connecting them:
  - `strip`, and `split` on one character, with `join`;
  - integers: `int()` parsing and `str()` printing;
  - zero-padded numbers.
- `calendar.dfy` — proleptic Gregorian dates as day numbers:
  - `date.toordinal`, and `date.fromordinal` computed by 400/100/4/1-year cycles;
  - weekdays.
- `datetime_tool.dfy`, `wikipedia_tool.dfy` — the two tools, as functions.
- `agent.dfy` — the agent's core:
  - tool dispatch and argument adaptation;
  - planning;
  - the transcript as a functional specification (`ProcessCall`,
    `ProcessCalls`, `Loop`, `RunSpec`);
  - the `Transcript` class, which holds the two lists `run` appends to;
  - the `Run` method, whose `while` and `for` loops are proved to compute
    `RunSpec`.
- `agent_properties.dfy` — what the dispatch and the loop promise.
- `round_trips.dfy` — the agent and the two tools together. The query text
  the agent builds is read back by each tool as the request the arguments
  describe.

What the model abstracts:

- The chat service is an oracle:
  - the planner is a function of the messages it is sent;
  - the conversation's replies are a script, one reply per request.
- The clock is a parameter (`today`).
- The encyclopedia is a parameter (`WikipediaTool.Library`).
- The calculator and web-search tools are functions in the `Toolbox`.
- `json.loads`, `json.dumps(indent=2)` and `str` of a list or dict are functions
  in the `Config`.

## Model

| member | source | states |
|---|---|---|
| Agent.Subscript | src/agent.py:159-172 | `args[key]` succeeds exactly when the arguments are an object holding the key, and yields that field. A missing key fails with the KeyError text `'key'`. Any other value fails; `SubscriptTypeErrors` gives the text. |
| Agent.SubscriptTypeErrors | src/agent.py:159-172 | Subscripting an array, a string, an integer, a float, a boolean or null by a key fails with Python's TypeError text for that type. |
| Agent.DatetimeQuery | src/agent.py:158-164 | The datetime query can be built exactly when both `operation` and `days` are present. |
| Agent.WikipediaQuery | src/agent.py:170-173 | The Wikipedia query can be built exactly when both `action` and `query` are present. |
| Agent.ExecuteTool | src/agent.py:149-179 | An unregistered name gives the unsuccessful result `Error: Tool '<name>' not found`. Dispatch raises exactly when the name is registered and the arguments are not an object holding every key that tool reads. The `Invalid tool configuration` fallthrough is proved unreachable (`assert false`). |
| AgentProperties.UnknownToolRunsNoTool | src/agent.py:151-155 | For an unregistered name the answer is the same whatever the tools are, so no tool runs. The answer is the not-found result. |
| AgentProperties.TodayIgnoresDays | src/agent.py:158-165 | Operation `today` sends exactly `"today"` to the datetime tool, whatever `days` holds. |
| AgentProperties.ShiftQueryFormat | src/agent.py:158-165 | Any other operation sends `<operation>:<days>`, each rendered as an f-string renders it. |
| AgentProperties.TodayStillNeedsDays | src/agent.py:159-160 | `days` is read even for `today`. Without it the call raises the KeyError `'days'`. |
| AgentProperties.WikipediaQueryFormat | src/agent.py:170-174 | The Wikipedia tool is sent `<action>:<query>`. |
| AgentProperties.SingleArgumentForwarded | src/agent.py:166-169 | The calculator gets `expression` unchanged; web search gets `query` unchanged. |
| Agent.Show | src/agent.py:164-173 | The f-string rendering of a JSON value: a string is itself, an integer reads back through `int()` as that integer, and null is `None`. |
| Agent.PlanRequest | src/agent.py:184-191 | The planner is sent the planning prompt as the system message, then `Create a plan to answer: <question>`. `CreatePlan` and `RunTranscript` are stated over it. |
| Agent.CreatePlan | src/agent.py:181-194 | A returned plan is passed through unchanged. A null plan becomes `None`. A planner failure becomes the plan text `Error creating plan: <message>` instead of an exception. |
| Agent.Seed | src/agent.py:202-208 | A run starts with one step and two messages: the system prompt, then the user request. |
| Agent.ProcessCall | src/agent.py:233-259 | One tool call raises exactly when its arguments parse and the dispatch on them raises. Otherwise it only appends to the steps and the messages. |
| Agent.ProcessCalls | src/agent.py:230-259 | The calls of one reply, in order. Unless one raises, they only append to the steps and the messages. `FirstLookupRaiseEndsCalls` shows that they end at the first call that raises, with its error. |
| Agent.Truthy | src/agent.py:224 | Python's truth of the reply content: present and non-empty. `Conclude` adds the final answer exactly when it holds. |
| Agent.Conclude | src/agent.py:223-227 | A reply without calls leaves the messages alone. It adds exactly the `---` and final-answer steps exactly when its content is non-empty, and nothing otherwise. |
| Agent.Loop | src/agent.py:210-259 | The rest of a run, from a recorded turn over the replies still to come. It is left unfinished only when every remaining reply calls some tool. `LoopEndsAtFirstStop` and `LoopRunsOutWithoutStop` characterise it fully. |
| Agent.RunSpec | src/agent.py:196-262 | A whole run: the plan, the seed turn, then `Loop` over the replies. `Agent.Run` is proved to compute it, and the lemmas of `AgentProperties` are stated about it and `Loop`. |
| Agent.Output | src/agent.py:227-262 | `run` returns nothing only when the script of replies ran out. An exception becomes `Error: <message>`. An answer is the recorded steps joined by blank lines. |
| Agent.Transcript.constructor | src/agent.py:203-208 | The new transcript holds exactly the seed step and messages of the question and plan. |
| Agent.Transcript.Log | src/agent.py:236 | Appends one step; the messages are unchanged. |
| Agent.Transcript.Send | src/agent.py:250-259 | Appends one message; the steps are unchanged. |
| Agent.Transcript.Close | src/agent.py:223-227 | Adds the `---` and final-answer steps only if the closing reply has non-empty content. |
| Agent.Transcript.Announce | src/agent.py:240-243 | Appends exactly the `---`, narration, tool and input steps, in that order; the messages are unchanged. |
| Agent.Transcript.Record | src/agent.py:247-259 | Appends exactly the result step, and exactly the assistant message carrying the one call followed by the tool message with that call's id and the result text. |
| Agent.Transcript.Invoke | src/agent.py:239-259 | For a parsed call there are two outcomes. If the lookup of an argument in `_execute_tool` raises, it returns the exception's message, and the transcript holds exactly the four steps announcing the call after the old ones, with the messages unchanged. Otherwise the transcript becomes exactly `ProcessCall`'s new turn: five steps, then the assistant message and the tool message answering it. |
| Agent.Run | src/agent.py:196-262 | The output of the in-place while/for loop, with `continue` on a parse failure, equals `Output(RunSpec(...))` for every script of replies. |
| AgentProperties.Parsed | src/agent.py:233-237 | The calls kept are calls of the reply whose arguments parse, no more than there were. |
| AgentProperties.CallsBookkeeping | src/agent.py:230-259 | A reply's calls only append to steps and messages. A parse failure adds one step and no message. A parsed call adds `---`, narration, tool, input and result steps, plus an assistant message carrying that one call followed by a tool message with the same call id. Steps grow by `5p + (n - p)` and messages by `2p`, where `n` is the reply's calls and `p` those whose arguments parse. |
| AgentProperties.CallsFailOnlyWhenALookupRaises | src/agent.py:233-246 | A reply's calls end in an exception exactly when some call's arguments parse and the argument lookup of its dispatch raises. Arguments that do not parse never end them. |
| AgentProperties.FirstLookupRaiseEndsCalls | src/agent.py:230-246 | When the first call whose argument lookup raises is call `j`, the calls of the reply fail with exactly that call's KeyError or TypeError text. |
| AgentProperties.CallsKeepWellFormed | src/agent.py:250-259 | The calls of a reply keep the chat history well formed: system, user, then exchanges. In each exchange an assistant message's one call is answered next by its id. |
| AgentProperties.LoopAppendsOnly | src/agent.py:210-259 | Unless it raises, the rest of a run only appends to steps and messages and keeps the history well formed. |
| AgentProperties.RaisesOnlyOnAbort | src/agent.py:210-262 | A run raises only at a reply that is a service failure or holds a call whose argument lookup raises. |
| AgentProperties.LoopEndsAtFirstStop | src/agent.py:210-262 | The loop ends at the first reply that is a service failure, holds a call whose argument lookup raises, or calls no tool. It raises exactly when that reply is one of the first two kinds. The replies before it leave the loop unfinished. Otherwise the loop answers, and the answer is the turn those replies recorded, concluded with the stopping reply's content. |
| AgentProperties.RaisedAtHead | src/agent.py:210-246 | When the first reply stops the loop in an exception, the message is the service's failure message or the failure of that reply's calls. |
| AgentProperties.LoopRaisesAtFirstStop | src/agent.py:210-262 | The exception a run ends in is that of its first stopping reply: the service's failure message, or the error of that reply's calls on the turn the earlier replies recorded. |
| AgentProperties.LoopRunsOutWithoutStop | src/agent.py:210-259 | If no reply of the script stops the loop, the script runs out before the run ends. |
| AgentProperties.LaterRepliesUnread | src/agent.py:210-227 | Once a run has ended, appending further replies to the script changes nothing. |
| AgentProperties.RunTranscript | src/agent.py:200-208 | Unless it raises, a run's first step is the question with its plan (a failed plan as its error text). Its first two messages are the system prompt and the request to execute the plan, and its history is well formed. |
| DateTimeTool.Classify | src/tools/datetime_tool.py:15-27 | Only the exact `today` selects today. `days_ago:` and `days_ahead:` select a shift whose N is the text between the first and the second colon. Anything else is unrecognised. |
| DateTimeTool.SecondField | src/tools/datetime_tool.py:18 | After the prefix, `query.split(":")[1]` exists and is the text up to the next colon. |
| DateTimeTool.Displace | src/tools/datetime_tool.py:19-22 | The shift succeeds exactly when the day count is within ±999999999 and the target day is a representable date. It then reports that day. Every failure is an `Error: ` text. |
| DateTimeTool.DisplaceErrors | src/tools/datetime_tool.py:19-43 | Which error a failed shift reports. A count outside a C `int` gives `Python int too large to convert to C int`. A count within a C `int` but beyond ±999999999 gives the `timedelta` magnitude message, which prints the count. A day beyond the calendar gives `date value out of range`. |
| DateTimeTool.SeparatorPaddedCountRefused | src/tools/datetime_tool.py:18-22 | A day count led by one of the characters U+001C to U+001F is refused, since `int()` does not skip them although `str.isspace` counts them as whitespace. |
| DateTimeTool.Shift | src/tools/datetime_tool.py:18-22 | A field `int()` refuses gives a failure, never an exception. A parsed field shifts by exactly that count. |
| DateTimeTool.Run | src/tools/datetime_tool.py:12-43 | `today` reports today. A `days_ago:` or `days_ahead:` query is answered by shifting back or forward by `int()` of the text up to the next colon. The format error is given exactly for unrecognised queries. Every failure is an `Error: ` text, and every success is the report of some representable day. |
| DateTimeTool.UnknownOperation | src/tools/datetime_tool.py:23-27 | `<op>:<rest>` for a colon-free operation other than the three is refused. |
| DateTimeTool.FormatDate | src/tools/datetime_tool.py:30 | `strftime("%Y-%m-%d")` of a valid date is ten characters: 4, 2 and 2 digits, separated by hyphens, that read back as the year, the month and the day. |
| DateTimeTool.Report | src/tools/datetime_tool.py:29-32 | The answer for a day is its date, then ` (`, the weekday name and `)`. |
| DateTimeTool.ReportShape | src/tools/datetime_tool.py:29-32 | A report reads `YYYY-MM-DD (Weekday)`: 4, 2 and 2 digits that spell a valid date whose day number is the one reported, then that day's weekday name in parentheses. |
| DateTimeTool.ShiftQueryRoundTrip | src/tools/datetime_tool.py:17-22 | `days_ago:<str(d)>` and `days_ahead:<str(d)>` are read back as a shift of exactly `d` days, backwards or forwards. |
| DateTimeTool.FieldOfPrintedInt | src/tools/datetime_tool.py:18 | A printed integer contains no colon, so the split keeps it whole. |
| DateTimeTool.DisplaceNegated | src/tools/datetime_tool.py:19-22 | Shifting back by N and forward by -N agree on success. Within the timedelta bound they agree entirely. |
| DateTimeTool.AgoIsAheadNegated | src/tools/datetime_tool.py:17-22 | `days_ago:N` and `days_ahead:-N` succeed together and name the same day. Only the timedelta overflow message, which prints its own argument, differs. |
| DateTimeTool.AgoQuery | src/tools/datetime_tool.py:17-19 | `days_ago:<str(d)>` is classified as a backward shift whose field is `str(d)`, and answers exactly as going back `d` days. |
| DateTimeTool.AheadQuery | src/tools/datetime_tool.py:20-22 | `days_ahead:<str(d)>` is classified as a forward shift whose field is `str(d)`, and answers exactly as going forward `d` days. |
| DateTimeTool.Caught | src/tools/datetime_tool.py:39-43 | The exception handler's answer is unsuccessful and is `Error: ` followed by exactly the exception's message. |
| Calendar.ToOrdinal | src/tools/datetime_tool.py:19-22 | `date.toordinal()`: days in the years and months before the date, plus its day. `FromOrdinalOfToOrdinal`, `ToOrdinalInjective` and `EarlierYear` state what it promises. |
| Calendar.FromOrdinal | src/tools/datetime_tool.py:19-22 | `date.fromordinal()` by 400-, 100-, 4- and 1-year cycles. `FromOrdinalCorrect` and `FromOrdinalOfToOrdinal` prove it inverts `ToOrdinal`. |
| Calendar.FromOrdinalCorrect | src/tools/datetime_tool.py:19-22 | Every representable day number names a valid date (years 1 to 9999) whose day number it is. |
| Calendar.FromOrdinalOfToOrdinal | src/tools/datetime_tool.py:19-22 | Going from a valid date to its day number and back gives the same date. |
| Calendar.ToOrdinalInjective | src/tools/datetime_tool.py:19-22 | Distinct valid dates have distinct day numbers. |
| Calendar.Weekday | src/tools/datetime_tool.py:31 | The weekday index is one of seven. |
| Calendar.WeekdayStep | src/tools/datetime_tool.py:31 | Weekdays repeat every seven days, and each day's index follows the one before. |
| Calendar.WeekdayName | src/tools/datetime_tool.py:31 | `strftime("%A")` in the C locale: the English name of the weekday. `WeekdayNameCycle` and `KnownRecentDay` state its properties. |
| Calendar.WeekdayNameCycle | src/tools/datetime_tool.py:31 | Each day's name is one of the seven; names repeat weekly, and each day is named after the one before it in the week. |
| Calendar.EarlierYear | src/tools/datetime_tool.py:19-22 | A valid date in an earlier year has a smaller day number, so day numbers follow calendar order across years. |
| Calendar.KnownRecentDay | src/tools/datetime_tool.py:30-31 | Day 738886 is 2024-01-01 and a Monday, which anchors the weekday count. |
| Text.Strip | src/tools/wikipedia_tool.py:17 | `strip()` leaves no whitespace at either end, never lengthens, and changes nothing already stripped. |
| Text.StripSurrounded | src/tools/wikipedia_tool.py:17-31 | Stripping whitespace placed around a stripped core gives the core back. |
| Text.IntStrip | src/tools/datetime_tool.py:18 | The whitespace `int()` skips leaves neither end, only such whitespace is dropped, and a text without it at either end is kept whole. That whitespace is `str.isspace` minus U+001C to U+001F. |
| Text.SeparatorNotSkipped | src/tools/datetime_tool.py:18 | A text led by one of U+001C to U+001F strips like the text without it, but `int()` refuses it. |
| Text.ParseIntSurrounded | src/tools/datetime_tool.py:18 | `int()` of a printed integer padded on both sides with the whitespace it skips is that integer. |
| Text.Split | src/tools/datetime_tool.py:18 | `split(sep)` gives at least one piece, and no piece holds the separator. `SplitHead`, `SplitAfter`, `JoinOfSplit` and `SplitOfJoin` pin it down. |
| Text.Join | src/agent.py:227 | `sep.join(parts)`. `JoinOfSplit` and `SplitOfJoin` show it inverts `split`, and `ListingLines` reads the joined bullets back. |
| Text.SplitHead | src/tools/datetime_tool.py:18 | The first piece of `split(sep)` is the text before the first separator. |
| Text.SplitConcat | src/tools/wikipedia_tool.py:39 | Splitting two texts joined by the separator gives the pieces of the first, then those of the second. |
| Text.SplitAfter | src/tools/datetime_tool.py:18 | A separator-free head splits off as the first piece. |
| Text.JoinOfSplit | src/tools/datetime_tool.py:18 | Joining the pieces of a split with the separator gives the text back. |
| Text.SplitOfJoin | src/tools/wikipedia_tool.py:24 | Splitting a join of separator-free lines gives the lines back. |
| Text.FieldBeforeSeparator | src/tools/datetime_tool.py:17-20 | Two colon-free fields that each end with a colon, where one text starts with the other, are the same field. |
| Text.ParseInt | src/tools/datetime_tool.py:18 | `int()` of a text: it succeeds only on a text made of the whitespace it skips, signs, decimal digits and underscores (a single underscore is allowed between two digits, as in `1_000`). `ParseIntOfIntToString`, `ParseIntSurrounded` and `SeparatorNotSkipped` state what it accepts and refuses. |
| Text.ParseSigned | src/tools/datetime_tool.py:18 | What `int()` reads once the surrounding whitespace is gone: it succeeds only on an optional sign followed by a numeral. |
| Text.IntToString | src/agent.py:164 | `str()` of an integer. `IntToStringShape` bounds its characters and `ParseIntOfIntToString` reads it back. |
| Text.ParseIntOfIntToString | src/tools/datetime_tool.py:18 | `int(str(n)) == n` for every integer. |
| Text.IntToStringShape | src/agent.py:164 | A printed integer contains no colon and no newline. |
| Text.Repr | src/agent.py:159-172 | `repr` of a key or field in an exception message: the text between single quotes. `ReprQuotes` states this, and `Subscript` and `Shift` use it for the KeyError and ValueError texts. |
| Text.ReprQuotes | src/agent.py:159-172 | A quoted text is the text, unchanged, between two single quotes. |
| Text.ZeroPadValue | src/tools/datetime_tool.py:30 | A zero-padded number has exactly the width and reads back as the number. |
| WikipediaTool.ParseRequest | src/tools/wikipedia_tool.py:16-31 | `search:` takes precedence over `read:`. Neither prefix gives an unprefixed request. The term is the text after `search:`, stripped; the title is the text after `read:`, stripped. |
| WikipediaTool.SearchTermStripped | src/tools/wikipedia_tool.py:16-17 | A term written between blanks after `search:` is searched for without them. |
| WikipediaTool.ReadTitleStripped | src/tools/wikipedia_tool.py:30-31 | A title written between blanks after `read:` is read without them. |
| WikipediaTool.Listing | src/tools/wikipedia_tool.py:24-46 | A listing starts with its header line, and an empty listing is that line alone. `ListingLines` reads it back line by line. |
| WikipediaTool.Bullets | src/tools/wikipedia_tool.py:24 | One `- <item>` line per item, in order. |
| WikipediaTool.SearchReport | src/tools/wikipedia_tool.py:18-28 | A search succeeds exactly when the library returns titles. No titles gives `No Wikipedia articles found.`. A raised error gives `Error: <message>`. |
| WikipediaTool.ReadReport | src/tools/wikipedia_tool.py:32-51 | A read succeeds exactly when a page is found. A missing page gives `No Wikipedia article found with title: <title>`. An ambiguous title gives a text under the ambiguity header. A raised error gives `Error: <message>`. |
| WikipediaTool.Run | src/tools/wikipedia_tool.py:15-62 | A query starting with `search:` is answered with the search report for the rest of the query, stripped. One starting with `read:` and not `search:` is answered with the read report for the stripped rest. Any other query gets the prefix error. Only a prefixed query succeeds. Every failure is the prefix error, an `Error: ` text, the not-found text, or the ambiguity listing. |
| WikipediaTool.SearchQuery | src/tools/wikipedia_tool.py:16-18 | `search:<rest>` is parsed as a search for `rest` stripped, and answered with the report of the library's titles for it. |
| WikipediaTool.ReadQuery | src/tools/wikipedia_tool.py:30-32 | `read:<rest>` is parsed as a read of `rest` stripped, never as a search, and answered with the report of the library's outcome for that title. |
| WikipediaTool.ListingLines | src/tools/wikipedia_tool.py:24-27 | A header over one bullet per item reads back, line by line, as the header and the bullets. |
| WikipediaTool.SearchListsTitles | src/tools/wikipedia_tool.py:24-28 | Found titles are listed in order, one per line, under `Found these articles:`. |
| WikipediaTool.AmbiguousListsFirstFive | src/tools/wikipedia_tool.py:41-46 | An ambiguous title fails and lists the first five options at most, in order, under its header, in at most six lines. |
| WikipediaTool.PageReportLines | src/tools/wikipedia_tool.py:37-40 | An article's answer is, line by line: its `Title:` line, a blank line, `Summary:`, the summary's own lines, a blank line and its `Full URL:` line. |
| RoundTrips.TodayAsked | src/agent.py:158-165 | For operation `today` the datetime tool is called with exactly `today`, and its answer is passed back unchanged. |
| RoundTrips.ShiftAsked | src/agent.py:158-165 | For any other operation the datetime tool is called with `<operation>:<str(d)>`. |
| RoundTrips.AgoAsked | src/agent.py:158-165 | `{"operation": "days_ago", "days": d}` calls the datetime tool with `days_ago:<str(d)>`. |
| RoundTrips.AheadAsked | src/agent.py:158-165 | `{"operation": "days_ahead", "days": d}` calls the datetime tool with `days_ahead:<str(d)>`. |
| RoundTrips.WikipediaAsked | src/agent.py:170-174 | `{"action": a, "query": q}` calls the Wikipedia tool with `<a>:<q>`. |
| RoundTrips.SearchAsked | src/agent.py:170-174 | A search action calls the Wikipedia tool with `search:<q>`. |
| RoundTrips.ReadAsked | src/agent.py:170-174 | A read action calls the Wikipedia tool with `read:<q>`. |
| RoundTrips.TodayRoundTrip | src/agent.py:158-165 | `{"operation": "today", "days": v}` gives today's report, whatever `v` is. |
| RoundTrips.DaysAgoRoundTrip | src/agent.py:158-165 | `{"operation": "days_ago", "days": d}` gives the day `d` days before today, through the composite query text. |
| RoundTrips.DaysAheadRoundTrip | src/agent.py:158-165 | `{"operation": "days_ahead", "days": d}` gives the day `d` days after today. |
| RoundTrips.UnknownOperationRejected | src/agent.py:163-164 | A colon-free operation outside the three reaches the datetime tool and is refused with its format error. |
| RoundTrips.SearchRoundTrip | src/agent.py:170-174 | `{"action": "search", "query": q}` searches the library for `q`, stripped. |
| RoundTrips.ReadRoundTrip | src/agent.py:170-174 | `{"action": "read", "query": t}` reads the article `t`, stripped, and reports under that title. |

## Behaviour kept as the code has it

- A missing argument in a tool call (for example no `days` for the datetime tool)
  raises a KeyError in `_execute_tool`, src/agent.py:159-172. Nothing in `run`
  catches it before the outer handler, so it ends the whole run with
  `Error: '<key>'`; it is not turned into a failed tool result. The same holds for
  arguments that are not a JSON object. `ExecuteTool` and
  `AgentProperties.CallsFailOnlyWhenALookupRaises` state this. The tools
  themselves never raise: each catches its own exceptions.
- On such an exception the steps recorded so far are discarded, src/agent.py:261-262.
  The result is only the error text; `Agent.Output` states this.

## Left out

- The chat service is network I/O, so it is an oracle: a planner function and a
  script of replies. The model names, the temperature and the tool descriptors
  sent along (src/agent.py:20-107) are not modelled. The prompt texts are opaque
  strings in the `Config`.
- Agent.Run: `while True` asks the service for ever, so the model reads a finite
  script of replies, and running out of it yields `None` rather than another
  request. The script does not depend on the messages sent.
- `Agent.__init__` (client construction and tool instantiation) is not modelled. The
  configuration is given.
- The calculator and web-search tools (src/tools/calculator.py, src/tools/search.py)
  are outside the core and appear only as functions in the `Toolbox`.
- `json.loads` and `json.dumps(indent=2)` are library code and appear only as
  functions in the `Config`, as does `str` of a list or dict. A float keeps the
  text Python prints for it.
- `datetime.now()` reads the clock. Today is a parameter (a day number), and the
  time of day is dropped because only the date is reported.
- Text.ParseInt: does not accept non-ASCII decimal digits, and does not model the
  4300-digit limit of `int()` and `str()`.
- Text.Repr: does not escape quotes, backslashes or unprintable characters, and
  always uses single quotes.
- DateTimeTool.Report: always pads the year to four digits, though a platform's
  `strftime("%Y")` may not pad years below 1000. Weekday names are those of the
  C locale.
- WikipediaTool.Library: the `wikipedia.page` and `wikipedia.summary` calls are
  collapsed into one outcome per title. `auto_suggest`, the five-result limit and
  the sentence count are left to the library.
- The exception texts are those of CPython 3.11 and later: the TypeError texts of
  subscripting a non-object, the C `int` overflow and the `timedelta` magnitude
  message. Other versions word some of them differently.
- Concurrency, timeouts and cancellation do not arise: the core is sequential.
