/** The fallback agent that calls the research tools itself (`SimpleToolAgent`):
    its tool table, its tool dispatch, and the research pass of `invoke` that
    picks a destination out of the query, collects truncated tool outputs and
    hands them to the language model. The tools and the model are oracles: a
    call either returns a text or raises with a message. */
module ToolAgent {
  import opened Common

  /** A tool: the name it is registered under, and which implementation it
      is (two tools may share a name). */
  datatype Tool = Tool(name: string, impl: nat)

  /** What a tool is invoked with: one text, or the keyword arguments of the
      attraction ranking tool. */
  datatype ToolInput = Text(s: string) | Params(category: string, location: string)

  datatype Reply = Returned(text: string) | Raised(message: string)

  /** `parts[-1].split()[0]` on a whitespace-only tail raises IndexError. */
  datatype AgentError = IndexError

  datatype Agent = Agent(tools: map<string, Tool>)

  // ===========================================================================
  // The tool table

  /** `{tool.name: tool for tool in tools}`: a later tool replaces an earlier
      one of the same name. */
  function ToolTable(tools: seq<Tool>): (m: map<string, Tool>)
    ensures m.Keys == set i | 0 <= i < |tools| :: tools[i].name
    ensures forall k :: k in m ==> m[k].name == k
  {
    if tools == [] then map[]
    else ToolTable(tools[..|tools| - 1])[tools[|tools| - 1].name := tools[|tools| - 1]]
  }

  /** `SimpleToolAgent.__init__`. */
  function NewAgent(tools: seq<Tool>): (a: Agent)
    ensures a.tools == ToolTable(tools)
  {
    Agent(ToolTable(tools))
  }

  /** The table holds, under each name, the last tool registered with it. */
  lemma {:induction false} ToolTableLastWins(tools: seq<Tool>, i: nat)
    requires i < |tools|
    requires forall j :: i < j < |tools| ==> tools[j].name != tools[i].name
    ensures ToolTable(tools)[tools[i].name] == tools[i]
  {
    if i < |tools| - 1 {
      ToolTableLastWins(tools[..|tools| - 1], i);
    }
  }

  // ===========================================================================
  // Dispatch

  /** The text a tool receives for positional arguments: one argument as it
      is, several joined by single spaces, none as the empty text. */
  function ToolArgument(args: seq<string>): (s: string)
    ensures |args| == 1 ==> s == args[0]
    ensures args == [] ==> s == ""
  {
    if |args| == 1 then args[0]
    else if |args| > 1 then Join(args, " ")
    else ""
  }

  /** Each further argument is appended after a single space. */
  lemma ToolArgumentJoins(args: seq<string>, b: string)
    requires |args| >= 1
    ensures ToolArgument(args + [b]) == ToolArgument(args) + " " + b
  {
    assert (args + [b])[..|args|] == args;
    if |args| == 1 {
      assert Join(args, " ") == args[0];
    }
  }

  /** The text `_execute_tool` makes of a reply: a falsy result becomes
      "No result", a raised error "Tool error: ...". */
  function ReplyText(reply: Reply): (s: string)
    ensures reply.Returned? && reply.text != "" ==> s == reply.text
    ensures reply.Returned? && reply.text == "" ==> s == "No result"
    ensures reply.Raised? ==> s == "Tool error: " + reply.message
  {
    match reply
    case Returned(t) => if t != "" then t else "No result"
    case Raised(m) => "Tool error: " + m
  }

  /** `_execute_tool`. */
  function ExecuteTool(agent: Agent, name: string, args: seq<string>, run: (Tool, ToolInput) -> Reply): (s: string)
    ensures name !in agent.tools ==> s == "Tool " + name + " not found"
    ensures name in agent.tools ==> s == ReplyText(run(agent.tools[name], Text(ToolArgument(args))))
    ensures s != ""
  {
    if name in agent.tools then ReplyText(run(agent.tools[name], Text(ToolArgument(args))))
    else "Tool " + name + " not found"
  }

  /** An unknown tool invokes nothing: the outcome is the same whatever the
      tools would have done. */
  lemma UnknownToolRunsNothing(agent: Agent, name: string, args: seq<string>,
                               run1: (Tool, ToolInput) -> Reply, run2: (Tool, ToolInput) -> Reply)
    requires name !in agent.tools
    ensures ExecuteTool(agent, name, args, run1) == ExecuteTool(agent, name, args, run2)
  {
  }

  // ===========================================================================
  // The destination heuristic of `invoke`

  const InMarker: string := "in "

  /** The query names a destination by the heuristic's own test, on the
      lower-cased query. Lower-casing only ASCII letters gives the same answer
      as `str.lower()` here: the only non-ASCII characters that lower to ASCII
      are U+0130 and U+212A (to "i" plus a combining dot, and to "k"), and
      neither can complete "in " or "destination". */
  predicate MentionsDestination(query: string) {
    ContainsSub(LowerAscii(query), "destination") || ContainsSub(LowerAscii(query), InMarker)
  }

  /** `query.split("in ")[-1]` when the split yields more than one part. The
      marker cannot overlap itself, so the last part is what follows its last
      occurrence. */
  function TailAfterIn(query: string): (t: Option<string>)
    ensures t.Some? <==> LastIndexOf(query, InMarker).Some?
    ensures t.Some? ==> EndsWith(query, t.value) && |t.value| + |InMarker| <= |query|
  {
    match LastIndexOf(query, InMarker)
    case None => None
    case Some(k) => Some(query[k + |InMarker|..])
  }

  /** The destination `invoke` searches for. */
  function ExtractDestination(query: string): (r: Result<string, AgentError>)
    ensures !MentionsDestination(query) || TailAfterIn(query).None? ==> r == Ok(query)
    ensures r.Err? <==> MentionsDestination(query) && TailAfterIn(query).Some?
                        && TailAfterIn(query).value != "" && AllSpace(TailAfterIn(query).value)
    ensures r.Ok? && r.value != query ==>
      TailAfterIn(query).Some? && FirstWord(TailAfterIn(query).value).Some?
      && r.value == FirstWord(TailAfterIn(query).value).value
    ensures MentionsDestination(query) && TailAfterIn(query) == Some("") ==> r == Ok(query)
    ensures MentionsDestination(query) && TailAfterIn(query).Some? && TailAfterIn(query).value != ""
            && FirstWord(TailAfterIn(query).value).Some? ==>
      r == Ok(FirstWord(TailAfterIn(query).value).value)
  {
    if !MentionsDestination(query) then Ok(query)
    else match TailAfterIn(query)
      case None => Ok(query)
      case Some(tail) =>
        if tail == "" then Ok(query)
        else match FirstWord(tail)
          case None => Err(IndexError)
          case Some(w) => Ok(w)
  }

  /** The picked destination is a single word with no whitespace, taken from
      after the last "in " of the query, and it is found only when the query
      contains "in " exactly (not just in another case). */
  lemma ExtractedDestinationIsAWord(query: string)
    requires ExtractDestination(query).Ok? && ExtractDestination(query).value != query
    ensures var d := ExtractDestination(query).value;
      && d != [] && (forall i :: 0 <= i < |d| ==> !IsSpace(d[i]))
      && LastIndexOf(query, InMarker).Some?
      && ContainsSub(query, d)
  {
    var tail := TailAfterIn(query).value;
    var d := ExtractDestination(query).value;
    var k := LastIndexOf(query, InMarker).value;
    var lead := LeadingSpaces(tail);
    var start := k + |InMarker| + lead;
    assert query[k + |InMarker|..] == tail;
    assert tail[lead..][..|d|] == d;
    assert query[start..start + |d|] == d;
    ContainsSubAt(query, d, start);
  }

  // ===========================================================================
  // The research pass of `invoke`

  const SearchTool: string := "search_travel_information"
  const RankTool: string := "rank_attractions_by_category"
  const WeatherTool: string := "get_weather_info"
  const CustomsTool: string := "get_local_customs_tips"

  const SearchCap: nat := 800
  const AttractionsCap: nat := 600
  const NoteCap: nat := 400
  const FallbackCap: nat := 1000

  const SearchLabel: string := "Search Results: "
  const AttractionsLabel: string := "\nTop Attractions: "
  const WeatherLabel: string := "\nWeather: "
  const CustomsLabel: string := "\nCultural Tips: "
  const CoordinatesNote: string := "\nNote: Coordinates will be automatically fetched for all places in the final itinerary."

  /** `tag + text[:cap]`. */
  function Labelled(tag: string, text: string, cap: nat): (s: string)
    ensures StartsWith(s, tag) && |s| <= |tag| + cap
    ensures |s| - |tag| == if |text| < cap then |text| else cap
    ensures s[|tag|..] == text[..|s| - |tag|]
    ensures |text| <= cap ==> s == tag + text
  {
    tag + Take(text, cap)
  }

  /** Step 2: the ranking tool called with keyword arguments; if that raises,
      `_execute_tool` with one text; nothing when no such tool is registered. */
  function AttractionsEntry(agent: Agent, destination: string, run: (Tool, ToolInput) -> Reply): (e: seq<string>)
    ensures |e| <= 1 && (e == [] <==> RankTool !in agent.tools)
    ensures e != [] ==> StartsWith(e[0], AttractionsLabel) && |e[0]| <= |AttractionsLabel| + AttractionsCap
  {
    if RankTool !in agent.tools then []
    else match run(agent.tools[RankTool], Params("attractions", destination))
      case Returned(t) => [Labelled(AttractionsLabel, t, AttractionsCap)]
      case Raised(_) =>
        [Labelled(AttractionsLabel, ExecuteTool(agent, RankTool, ["attractions " + destination], run), AttractionsCap)]
  }

  /** `tool_results` once the five steps have run. `_execute_tool` never
      raises, so the "Search error" branch cannot be taken. */
  function ToolResults(agent: Agent, destination: string, run: (Tool, ToolInput) -> Reply): (rs: seq<string>)
    ensures 4 <= |rs| <= 5 && rs[|rs| - 1] == CoordinatesNote
    ensures StartsWith(rs[0], SearchLabel) && |rs[0]| <= |SearchLabel| + SearchCap
    ensures StartsWith(rs[|rs| - 3], WeatherLabel) && |rs[|rs| - 3]| <= |WeatherLabel| + NoteCap
    ensures StartsWith(rs[|rs| - 2], CustomsLabel) && |rs[|rs| - 2]| <= |CustomsLabel| + NoteCap
  {
    [Labelled(SearchLabel, ExecuteTool(agent, SearchTool, [destination + " travel guide attractions"], run), SearchCap)]
    + AttractionsEntry(agent, destination, run)
    + [Labelled(WeatherLabel, ExecuteTool(agent, WeatherTool, [destination], run), NoteCap)]
    + [Labelled(CustomsLabel, ExecuteTool(agent, CustomsTool, [destination], run), NoteCap)]
    + [CoordinatesNote]
  }

  const PromptHead: string :=
    "You are an expert travel planner AI. Based on the research findings below, provide a comprehensive summary.\n\nResearch Findings:\n"
  const PromptQuery: string := "\n\nUser Query: "
  const PromptTail: string :=
    "\n\nProvide a well-structured summary including:\n1. Top attractions and must-visit places\n2. Ratings and reviews when mentioned\n3. Price information if available\n4. Weather and best time to visit\n5. Cultural tips and local customs\n6. General recommendations\n\nComprehensive Summary:"

  /** The final prompt around the tool output and the query. */
  function Prompt(toolOutput: string, query: string): string {
    Concat([PromptHead, toolOutput, PromptQuery, query, PromptTail])
  }

  const SummaryErrorLabel: string := "Error generating summary: "

  /** The model's answer, or the error text with the first 1000 characters of
      the tool output. */
  function Summary(reply: Reply, toolOutput: string): (s: string)
    ensures reply.Returned? ==> s == reply.text
    ensures reply.Raised? ==> s == SummaryErrorLabel + reply.message + "\n\nTool Results:\n" + Take(toolOutput, FallbackCap)
  {
    match reply
    case Returned(t) => t
    case Raised(m) => SummaryErrorLabel + m + "\n\nTool Results:\n" + Take(toolOutput, FallbackCap)
  }

  /** `input_dict.get("input", "")`. */
  function Query(inputDict: map<string, string>): string {
    if "input" in inputDict then inputDict["input"] else ""
  }

  /** `invoke`: a dictionary with the one key "output", or the IndexError of
      the destination heuristic. */
  function InvokeOutcome(agent: Agent, inputDict: map<string, string>,
                         run: (Tool, ToolInput) -> Reply, llm: string -> Reply): (r: Result<map<string, string>, AgentError>)
    ensures r.Err? <==> ExtractDestination(Query(inputDict)).Err?
    ensures r.Ok? ==> r.value.Keys == {"output"}
  {
    var query := Query(inputDict);
    match ExtractDestination(query)
    case Err(e) => Err(e)
    case Ok(destination) =>
      var toolOutput := Join(ToolResults(agent, destination, run), "\n");
      Ok(map["output" := Summary(llm(Prompt(toolOutput, query)), toolOutput)])
  }

  /** `invoke` as the source writes it: the destination is reassigned and the
      tool results are appended one step at a time. */
  method Invoke(agent: Agent, inputDict: map<string, string>,
                run: (Tool, ToolInput) -> Reply, llm: string -> Reply) returns (r: Result<map<string, string>, AgentError>)
    ensures r == InvokeOutcome(agent, inputDict, run, llm)
  {
    var query := Query(inputDict);
    var picked := PickDestination(query);
    if picked.Err? {
      return Err(picked.error);
    }
    var toolResults := CollectToolResults(agent, picked.value, run);
    var toolOutput := Join(toolResults, "\n");
    var output := Summary(llm(Prompt(toolOutput, query)), toolOutput);
    return Ok(map["output" := output]);
  }

  /** Lines 111-116: the destination is reassigned only when the heuristic
      finds a word. */
  method PickDestination(query: string) returns (r: Result<string, AgentError>)
    ensures r == ExtractDestination(query)
  {
    var destination := query;
    if MentionsDestination(query) {
      var tail := TailAfterIn(query);
      if tail.Some? {
        if tail.value != "" {
          var word := FirstWord(tail.value);
          if word.None? {
            return Err(IndexError);
          }
          destination := word.value;
        } else {
          destination := query;
        }
      }
    }
    return Ok(destination);
  }

  /** Lines 119-159: `tool_results` grown one step at a time. */
  method CollectToolResults(agent: Agent, destination: string, run: (Tool, ToolInput) -> Reply)
    returns (toolResults: seq<string>)
    ensures toolResults == ToolResults(agent, destination, run)
  {
    toolResults := [];
    var searchResult := ExecuteTool(agent, SearchTool, [destination + " travel guide attractions"], run);
    toolResults := toolResults + [SearchLabel + Take(searchResult, SearchCap)];
    if RankTool in agent.tools {
      var reply := run(agent.tools[RankTool], Params("attractions", destination));
      if reply.Returned? {
        toolResults := toolResults + [AttractionsLabel + Take(reply.text, AttractionsCap)];
      } else {
        var attractionsResult := ExecuteTool(agent, RankTool, ["attractions " + destination], run);
        toolResults := toolResults + [AttractionsLabel + Take(attractionsResult, AttractionsCap)];
      }
    }
    var weatherResult := ExecuteTool(agent, WeatherTool, [destination], run);
    toolResults := toolResults + [WeatherLabel + Take(weatherResult, NoteCap)];
    var culturalResult := ExecuteTool(agent, CustomsTool, [destination], run);
    toolResults := toolResults + [CustomsLabel + Take(culturalResult, NoteCap)];
    toolResults := toolResults + [CoordinatesNote];
  }

  /** A query ending in "in " and a word is searched for by that word. */
  lemma WordAfterIn()
    ensures ExtractDestination("in X") == Ok("X")
  {
    assert LowerAscii("in X") == "in x";
    assert StartsWith("in x", InMarker);
    assert "in X"[..3] == InMarker;
    assert LastIndexOf("in X"[..3], InMarker) == Some(0);
    assert "in X"[1..] != InMarker;
    assert LastIndexOf("in X", InMarker) == Some(0);
    assert TailAfterIn("in X") == Some("X");
    assert LeadingSpaces("X") == 0;
    assert WordLength("X") == 1;
    assert "X"[0..] == "X" && "X"[..1] == "X";
    assert FirstWord("X") == Some("X");
  }

  /** The tests are case-blind but the split is not: "IN" triggers the
      heuristic, finds no "in " to split on, and leaves the whole query. */
  lemma UpperCaseInKeepsQuery()
    ensures ExtractDestination("IN X") == Ok("IN X")
  {
    assert LowerAscii("IN X") == "in x";
    assert StartsWith("in x", InMarker);
    assert LastIndexOf("IN X", InMarker) == None by {
      forall k: nat ensures !OccursAt("IN X", InMarker, k) {
        if k + 3 <= 4 {
          assert "IN X"[k] != 'i';
        }
      }
    }
  }

  /** A whitespace-only text after the last "in " raises. */
  lemma WhitespaceTailRaises()
    ensures ExtractDestination("in  ") == Err(IndexError)
  {
    assert LowerAscii("in  ") == "in  ";
    assert StartsWith("in  ", InMarker);
    assert "in  "[..3] == InMarker;
    assert LastIndexOf("in  "[..3], InMarker) == Some(0);
    assert "in  "[1..] != InMarker;
    assert LastIndexOf("in  ", InMarker) == Some(0);
    assert TailAfterIn("in  ") == Some(" ");
    assert AllSpace(" ");
  }
}
