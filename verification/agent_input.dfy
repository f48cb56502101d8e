/** The texts the planning service derives from a trip request: the labelled
    field texts of the final prompt, and the research brief handed to the agent
    (`_prepare_agent_input`). Both read attributes the request schema does not
    declare; the schema keeps whatever extras a client sends, and reading one
    that was not sent raises AttributeError. */
module AgentInput {
  import opened Common
  import Schemas

  /** An attribute beyond the declared schema: not sent, sent as null, or sent
      with a value. */
  datatype Extra<T> = Absent | Sent(value: Option<T>)

  /** A request as the service receives it: the declared fields and the
      extras the brief reads. */
  datatype SentRequest = SentRequest(
    declared: Schemas.TravelPlanRequest,
    duration: Extra<int>,
    startDate: Extra<string>,
    difficultyLevel: Extra<string>,
    budgetRange: Extra<string>,
    interests: Extra<string>,
    groupSize: Extra<int>,
    accommodationType: Extra<string>)

  /** Reading an attribute the request does not have. */
  datatype AttributeError = AttributeError(name: string)

  /** The values the brief is built from, once every read succeeded. */
  datatype TripRequest = TripRequest(
    destination: string,
    duration: Option<int>,
    startDate: Option<string>,
    difficultyLevel: Option<string>,
    budgetRange: Option<string>,
    interests: Option<string>,
    groupSize: Option<int>,
    accommodationType: Option<string>,
    notes: Option<string>)

  /** The names of the extras that were not sent, in the order the service
      reads them. */
  function MissingNames(s: SentRequest): seq<string> {
    (if s.duration.Absent? then ["duration"] else [])
      + (if s.startDate.Absent? then ["start_date"] else [])
      + (if s.difficultyLevel.Absent? then ["difficulty_level"] else [])
      + (if s.budgetRange.Absent? then ["budget_range"] else [])
      + (if s.interests.Absent? then ["interests"] else [])
      + (if s.groupSize.Absent? then ["group_size"] else [])
      + (if s.accommodationType.Absent? then ["accommodation_type"] else [])
  }

  /** An extra read leniently: a missing one counts as None. */
  function ValueOr<T>(x: Extra<T>): Option<T> {
    if x.Sent? then x.value else None
  }

  /** The request with every missing extra read as None. */
  function Lenient(s: SentRequest): TripRequest {
    TripRequest(s.declared.destination, ValueOr(s.duration), ValueOr(s.startDate),
                ValueOr(s.difficultyLevel), ValueOr(s.budgetRange), ValueOr(s.interests),
                ValueOr(s.groupSize), ValueOr(s.accommodationType), s.declared.notes)
  }

  /** `request.<name>` for an extra. */
  function Read<T>(name: string, x: Extra<T>): (r: Result<Option<T>, AttributeError>)
    ensures r.Ok? <==> x.Sent?
  {
    if x.Absent? then Err(AttributeError(name)) else Ok(x.value)
  }

  /** The attribute reads at the head of `_prepare_agent_input`, in source
      order: the first extra that was not sent raises, and otherwise the
      values read are the request's, a null read as None. */
  function ReadAttributes(s: SentRequest): (r: Result<TripRequest, AttributeError>)
    ensures r.Ok? <==> MissingNames(s) == []
    ensures r.Ok? ==> r.value == Lenient(s)
    ensures r.Err? ==> MissingNames(s) != [] && r.error == AttributeError(MissingNames(s)[0])
  {
    var duration :- Read("duration", s.duration);
    var startDate :- Read("start_date", s.startDate);
    var difficulty :- Read("difficulty_level", s.difficultyLevel);
    var budget :- Read("budget_range", s.budgetRange);
    var interests :- Read("interests", s.interests);
    var groupSize :- Read("group_size", s.groupSize);
    var accommodation :- Read("accommodation_type", s.accommodationType);
    Ok(TripRequest(s.declared.destination, duration, startDate, difficulty, budget, interests,
                   groupSize, accommodation, s.declared.notes))
  }

  /** A request that carries only a destination. */
  function BareRequest(destination: string): (s: SentRequest)
    ensures s.declared == Schemas.RequestFor(destination)
    ensures MissingNames(s) == ["duration", "start_date", "difficulty_level", "budget_range",
                                "interests", "group_size", "accommodation_type"]
  {
    SentRequest(Schemas.RequestFor(destination), Absent, Absent, Absent, Absent, Absent, Absent, Absent)
  }

  /** A request that sends every extra, each as null. */
  function NullRequest(destination: string): (s: SentRequest)
    ensures s.declared == Schemas.RequestFor(destination)
    ensures MissingNames(s) == []
  {
    SentRequest(Schemas.RequestFor(destination), Sent(None), Sent(None), Sent(None), Sent(None),
                Sent(None), Sent(None), Sent(None))
  }

  /** An optional integer as an f-string shows it: `None` or its digits. */
  function Shown(n: Option<int>): string {
    if n.Some? then IntToString(n.value) else "None"
  }

  // ===========================================================================
  // Field texts of the final prompt

  const NotSpecified: string := "not specified"

  /** `f"{name}: {v}" if v else f"{name}: not specified"`. */
  function FieldText(name: string, v: Option<string>): (t: string)
    ensures StartsWith(t, name + ": ")
  {
    name + ": " + OrElse(v, NotSpecified)
  }

  /** The text reads "not specified" exactly when the field is missing or
      empty, or literally says so. */
  lemma FieldTextNotSpecified(name: string, v: Option<string>)
    ensures FieldText(name, v) == name + ": " + NotSpecified <==> !Present(v) || v.value == NotSpecified
  {
    if FieldText(name, v) == name + ": " + NotSpecified {
      var n := |name + ": "|;
      assert OrElse(v, NotSpecified) == FieldText(name, v)[n..];
    }
  }

  /** The eight labelled texts, in the order the prompt lists them. Duration
      and group size have no fallback and print `None` when null. The service
      builds them only after the brief, whose reads of the same attributes
      have then all succeeded, so they are a function of the values read. */
  function FieldTexts(r: TripRequest): (ts: seq<string>)
    ensures |ts| == 8
    ensures ts[0] == "Destination: " + r.destination
    ensures ts[1] == "Duration: " + Shown(r.duration) + " days"
    ensures ts[6] == "Group Size: " + Shown(r.groupSize) + " people"
    ensures forall i :: i in {2, 3, 4, 5, 7} ==> StartsWith(ts[i], Labels[i] + ": ")
  {
    [ "Destination: " + r.destination,
      "Duration: " + Shown(r.duration) + " days",
      FieldText(Labels[2], r.startDate),
      FieldText(Labels[3], r.difficultyLevel),
      FieldText(Labels[4], r.budgetRange),
      FieldText(Labels[5], r.interests),
      "Group Size: " + Shown(r.groupSize) + " people",
      FieldText(Labels[7], r.accommodationType) ]
  }

  const Labels: seq<string> := ["Destination", "Duration", "Start Date", "Difficulty Level",
                                "Budget Range", "Interests", "Group Size", "Accommodation Type"]

  // ===========================================================================
  // The research brief

  function StartDate(r: TripRequest): string { OrElse(r.startDate, NotSpecified) }
  function Difficulty(r: TripRequest): string { OrElse(r.difficultyLevel, "moderate") }
  function Budget(r: TripRequest): string { OrElse(r.budgetRange, "moderate") }
  function Interests(r: TripRequest): string { OrElse(r.interests, "general sightseeing") }
  function Accommodation(r: TripRequest): string { OrElse(r.accommodationType, "mixed") }

  /** `request.group_size or 1`. */
  function GroupSize(r: TripRequest): string {
    if r.groupSize.Some? && r.groupSize.value != 0 then IntToString(r.groupSize.value) else "1"
  }

  /** "Plan a {duration}-day trip to {destination}" and its newline. */
  function OpeningParts(r: TripRequest): seq<string> {
    ["Plan a ", Shown(r.duration), "-day trip to ", r.destination, "\n"]
  }

  function DetailParts(r: TripRequest): seq<string> {
    [ "\nTrip Details:\n- Duration: ", Shown(r.duration),
      " days\n- Start Date: ", StartDate(r),
      "\n- Difficulty Level: ", Difficulty(r),
      "\n- Budget Range: ", Budget(r),
      "\n- Interests: ", Interests(r),
      "\n- Group Size: ", GroupSize(r),
      " people\n- Accommodation Preference: ", Accommodation(r), "\n" ]
  }

  function NotesLine(notes: string): string {
    "- Additional Notes: " + notes + "\n"
  }

  function NotesParts(r: TripRequest): seq<string> {
    if Present(r.notes) then [NotesLine(r.notes.value)] else []
  }

  // The fixed wording of the research items, between the request's values.
  const ResearchHeading: string := "\nResearch Requirements:\n1. Search for top attractions and activities in "
  const MatchingInterests: string := " that match interests: "
  const GroupPlacesItem: string := "\n2. Find places suitable for groups of "
  const RatingsAndStaysItems: string := " people\n3. Get ratings and reviews for recommended places\n4. Find "
  const StaysWithin: string := " accommodation options within "
  const DifficultyItem: string := " budget range\n5. Research activities matching "
  const PricesItem: string := " difficulty level\n6. Compare prices for accommodations, food, and activities in the "
  const RangeEnd: string := " range\n"

  function ResearchParts(r: TripRequest): seq<string> {
    [ ResearchHeading, r.destination,
      MatchingInterests, Interests(r),
      GroupPlacesItem, GroupSize(r),
      RatingsAndStaysItems, Accommodation(r),
      StaysWithin, Budget(r),
      DifficultyItem, Difficulty(r),
      PricesItem, Budget(r),
      RangeEnd ]
  }

  const WeatherItem: string := "7. Get weather information"
  const NextItem: string := "\n8. "

  /** `" for {start_date}"` when a start date was given. */
  function WeatherDate(r: TripRequest): string {
    if StartDate(r) != NotSpecified then " for " + StartDate(r) else ""
  }

  // The fixed wording of the closing items and the guidelines.
  const CustomsItem: string := "Get local customs and cultural tips for "
  const TransportItem: string := "\n9. Research transportation options suitable for "
  const ImagesItem: string := " travelers\n10. Find image URLs from search results for:\n    - Destination cover image"
    + "\n    - Attraction/location images matching interests ("
  const ActivityImages: string := ")\n    - Activity images suitable for "
  const LevelEnd: string := " level\n    - "
  const Guidelines: string := " accommodation images\n\nIMPORTANT: \n- Focus on activities and places that align with: "
  const BudgetGuideline: string := "\n- Ensure all recommendations fit the "
  const DifficultyGuideline: string := " budget range\n- Activities should match "
  const GroupGuideline: string := " difficulty level\n- Consider group size of "
  const AccommodationGuideline: string := " for all recommendations\n- Prioritize "
  const ToolsSentence: string := " accommodation types\n\nUse all available tools to gather comprehensive information about "

  function ClosingParts(r: TripRequest): seq<string> {
    [ CustomsItem, r.destination,
      TransportItem, GroupSize(r),
      ImagesItem, Interests(r),
      ActivityImages, Difficulty(r),
      LevelEnd, Accommodation(r),
      Guidelines, Interests(r),
      BudgetGuideline, Budget(r),
      DifficultyGuideline, Difficulty(r),
      GroupGuideline, GroupSize(r),
      AccommodationGuideline, Accommodation(r),
      ToolsSentence, r.destination ]
  }

  /** The date clause of the weather item, present exactly when a start date
      was given. */
  function DateParts(r: TripRequest): seq<string> {
    if StartDate(r) != NotSpecified then [" for " + StartDate(r)] else []
  }

  function WeatherParts(r: TripRequest): seq<string> {
    [WeatherItem] + DateParts(r) + [NextItem]
  }

  function HeadParts(r: TripRequest): seq<string> {
    OpeningParts(r) + DetailParts(r)
  }

  function TailParts(r: TripRequest): seq<string> {
    ResearchParts(r) + WeatherParts(r) + ClosingParts(r) + [".\n"]
  }

  /** The pieces of the brief before the final `strip()`, in order. */
  function BriefParts(r: TripRequest): seq<string> {
    HeadParts(r) + NotesParts(r) + TailParts(r)
  }

  function RawInput(r: TripRequest): string {
    Concat(BriefParts(r))
  }

  /** `_prepare_agent_input`. */
  function PreparedInput(r: TripRequest): string {
    Strip(RawInput(r))
  }

  /** `_prepare_agent_input` as the source runs it: the attribute reads, then
      the brief built with `+=`. The growing text is held as the list of
      pieces appended so far; its value is their concatenation. */
  method PrepareAgentInput(s: SentRequest) returns (text: Result<string, AttributeError>)
    ensures text.Ok? <==> MissingNames(s) == []
    ensures text.Ok? ==> text.value == PreparedInput(Lenient(s))
    ensures text.Err? ==> text.error == AttributeError(MissingNames(s)[0])
  {
    var r :- ReadAttributes(s);
    var inputText := HeadParts(r);
    inputText := AppendNotes(inputText, r);
    inputText := inputText + ResearchParts(r) + [WeatherItem];
    inputText := AppendStartDate(inputText, r);
    inputText := inputText + [NextItem] + ClosingParts(r) + [".\n"];
    EightParts(HeadParts(r), NotesParts(r), ResearchParts(r), [WeatherItem], DateParts(r), [NextItem], ClosingParts(r), [".\n"]);
    assert inputText == BriefParts(r);
    text := Ok(Strip(Concat(inputText)));
  }

  /** The brief with every missing extra read as None, as
      `getattr(request, name, None)` would read it. It is what the source
      returns whenever the source does not raise. */
  function DefaultedInput(s: SentRequest): (text: string)
    ensures ReadAttributes(s).Ok? ==> text == PreparedInput(ReadAttributes(s).value)
  {
    PreparedInput(Lenient(s))
  }

  /** `if notes: input_text += ...`. */
  method AppendNotes(inputText: seq<string>, r: TripRequest) returns (out: seq<string>)
    ensures out == inputText + NotesParts(r)
  {
    out := inputText;
    if Present(r.notes) {
      out := out + [NotesLine(r.notes.value)];
    }
  }

  /** `if start_date != "not specified": input_text += ...`. */
  method AppendStartDate(inputText: seq<string>, r: TripRequest) returns (out: seq<string>)
    ensures out == inputText + DateParts(r)
  {
    out := inputText;
    if StartDate(r) != NotSpecified {
      out := out + [" for " + StartDate(r)];
    }
  }

  lemma EightParts<T>(a: seq<T>, b: seq<T>, c: seq<T>, d: seq<T>, e: seq<T>, f: seq<T>, g: seq<T>, h: seq<T>)
    ensures a + b + c + d + e + f + g + h == a + b + (c + (d + e + f) + g + h)
  {
  }

  // ===========================================================================
  // Properties

  lemma ConcatOne(a: string)
    ensures Concat([a]) == a
  {
    assert [a][..0] == [];
  }

  lemma ConcatThree(a: string, b: string, c: string)
    ensures Concat([a, b, c]) == a + b + c
  {
    assert [a, b, c][..2] == [a, b];
    assert [a, b][..1] == [a];
    ConcatOne(a);
  }

  /** The raw brief opens with "P" and closes with ".\n", so the final strip
      removes exactly the closing newline. */
  lemma StripDropsFinalNewline(r: TripRequest)
    ensures PreparedInput(r) + "\n" == RawInput(r)
    ensures |Concat(TailParts(r))| >= 2
  {
    var parts := BriefParts(r);
    var raw := RawInput(r);
    assert parts == ["Plan a "] + parts[1..];
    ConcatAppend(["Plan a "], parts[1..]);
    ConcatOne("Plan a ");
    assert raw[0] == 'P';
    var body := ResearchParts(r) + WeatherParts(r) + ClosingParts(r);
    ConcatAppend(body, [".\n"]);
    ConcatOne(".\n");
    ConcatAppend(HeadParts(r) + NotesParts(r), TailParts(r));
    assert raw[|raw| - 1] == '\n' && raw[|raw| - 2] == '.';
    StripFinalNewline(raw);
  }

  lemma StripFinalNewline(s: string)
    requires |s| >= 2 && !IsSpace(s[0]) && s[|s| - 1] == '\n' && !IsSpace(s[|s| - 2])
    ensures Strip(s) + "\n" == s
  {
    assert LeadingSpaces(s) == 0;
    assert s[0..] == s;
    assert TrailingSpaces(s[..|s| - 1]) == 0;
    assert TrailingSpaces(s) == 1;
  }

  /** A run of pieces followed by at least one more character survives a strip
      that only drops the final newline. */
  lemma PiecesInStripped(raw: string, a: seq<string>, b: seq<string>, c: seq<string>)
    requires Concat(a + b + c) == raw && Strip(raw) + "\n" == raw && |Concat(c)| >= 1
    ensures OccursAt(Strip(raw), Concat(b), |Concat(a)|)
    ensures ContainsSub(Strip(raw), Concat(b))
  {
    ConcatAppend(a + b, c);
    ConcatAppend(a, b);
    OccursBeforeLast(Strip(raw), Concat(a), Concat(b), Concat(c));
    ContainsSubAt(Strip(raw), Concat(b), |Concat(a)|);
  }

  lemma OccursBeforeLast(s: string, x: string, y: string, z: string)
    requires x + y + z == s + "\n" && |z| >= 1
    ensures OccursAt(s, y, |x|)
  {
    var k := |x|;
    assert |x| + |y| <= |s|;
    calc {
      s[k..k + |y|];
      (s + "\n")[k..k + |y|];
      (x + y + z)[k..k + |y|];
      y;
    }
  }

  /** The brief opens with the trip line and the trip details, each field
      as given or as its default. */
  lemma PreparedInputOpening(r: TripRequest)
    ensures StartsWith(PreparedInput(r), Concat(OpeningParts(r) + DetailParts(r)))
  {
    StripDropsFinalNewline(r);
    var rest := NotesParts(r) + TailParts(r);
    OpeningOfBrief(r);
    ConcatAppend(NotesParts(r), TailParts(r));
    PrefixSurvivesStrip(RawInput(r), HeadParts(r), rest);
  }

  lemma OpeningOfBrief(r: TripRequest)
    ensures BriefParts(r) == HeadParts(r) + (NotesParts(r) + TailParts(r))
  {
  }

  /** Leading pieces followed by at least one more character survive a strip
      that only drops the final newline. */
  lemma PrefixSurvivesStrip(raw: string, a: seq<string>, b: seq<string>)
    requires Concat(a + b) == raw && Strip(raw) + "\n" == raw && |Concat(b)| >= 1
    ensures StartsWith(Strip(raw), Concat(a))
  {
    ConcatAppend(a, b);
    var s := Strip(raw);
    assert |Concat(a)| <= |s|;
    assert s[..|Concat(a)|] == raw[..|Concat(a)|] == Concat(a);
  }

  /** Non-empty notes appear as their own line. */
  lemma NotesLineShown(r: TripRequest)
    requires Present(r.notes)
    ensures ContainsSub(PreparedInput(r), NotesLine(r.notes.value))
  {
    StripDropsFinalNewline(r);
    ConcatOne(NotesLine(r.notes.value));
    PiecesInStripped(RawInput(r), HeadParts(r), NotesParts(r), TailParts(r));
  }

  /** Missing or empty notes leave the brief as it is without notes. */
  lemma EmptyNotesIgnored(r: TripRequest)
    requires !Present(r.notes)
    ensures PreparedInput(r) == PreparedInput(r.(notes := None))
  {
    SamePartsWithoutNotes(r);
  }

  lemma SamePartsWithoutNotes(r: TripRequest)
    requires !Present(r.notes)
    ensures BriefParts(r) == BriefParts(r.(notes := None))
  {
    var r' := r.(notes := None);
    assert NotesParts(r) == [] == NotesParts(r');
    SameHead(r, r');
    SameTail(r, r');
  }

  /** The parts around the notes read every field but the notes. */
  lemma SameHead(r: TripRequest, r': TripRequest)
    requires r' == r.(notes := r'.notes)
    ensures HeadParts(r) == HeadParts(r')
  {
  }

  lemma SameTail(r: TripRequest, r': TripRequest)
    requires r' == r.(notes := r'.notes)
    ensures TailParts(r) == TailParts(r')
  {
  }

  /** The weather item names the start date exactly when one was given (a
      given date that reads "not specified" counts as none). */
  lemma WeatherItemDate(r: TripRequest)
    ensures StartDate(r) != NotSpecified ==>
      ContainsSub(PreparedInput(r), WeatherItem + (" for " + r.startDate.value) + NextItem)
    ensures StartDate(r) == NotSpecified ==> ContainsSub(PreparedInput(r), WeatherItem + "" + NextItem)
  {
    StripDropsFinalNewline(r);
    var before := HeadParts(r) + NotesParts(r) + ResearchParts(r);
    var after := ClosingParts(r) + [".\n"];
    Regroup(HeadParts(r) + NotesParts(r), ResearchParts(r), WeatherParts(r), ClosingParts(r), [".\n"]);
    ConcatAppend(ClosingParts(r), [".\n"]);
    ConcatOne(".\n");
    WeatherText(r);
    PiecesInStripped(RawInput(r), before, WeatherParts(r), after);
  }

  lemma WeatherText(r: TripRequest)
    ensures Concat(WeatherParts(r)) == WeatherItem + WeatherDate(r) + NextItem
  {
    if StartDate(r) != NotSpecified {
      assert WeatherParts(r) == [WeatherItem, " for " + StartDate(r), NextItem];
      ConcatThree(WeatherItem, " for " + StartDate(r), NextItem);
    } else {
      assert WeatherParts(r) == [WeatherItem, NextItem];
      assert [WeatherItem, NextItem][..1] == [WeatherItem];
      ConcatOne(WeatherItem);
    }
  }

  lemma Regroup(x: seq<string>, a: seq<string>, b: seq<string>, c: seq<string>, d: seq<string>)
    ensures x + (a + b + c + d) == x + a + b + (c + d)
  {
  }

  /** A request that carries only a destination raises at its first extra. */
  lemma BareRequestRaises(destination: string)
    ensures ReadAttributes(BareRequest(destination)) == Err(AttributeError("duration"))
  {
  }

  /** With every extra sent as null the source builds the brief from the
      defaults: no start date, moderate difficulty and budget, general
      sightseeing, a group of 1 and mixed accommodation, with the duration shown
      as None. Reading missing extras as None gives the same brief for a request
      that carries only a destination. */
  lemma BareRequestDefaults(destination: string)
    ensures var r := Lenient(NullRequest(destination));
      && ReadAttributes(NullRequest(destination)) == Ok(r)
      && DefaultedInput(BareRequest(destination)) == PreparedInput(r)
      && OpeningParts(r) == ["Plan a ", "None", "-day trip to ", destination, "\n"]
      && DetailParts(r) == [
           "\nTrip Details:\n- Duration: ", "None",
           " days\n- Start Date: ", "not specified",
           "\n- Difficulty Level: ", "moderate",
           "\n- Budget Range: ", "moderate",
           "\n- Interests: ", "general sightseeing",
           "\n- Group Size: ", "1",
           " people\n- Accommodation Preference: ", "mixed", "\n" ]
      && StartsWith(PreparedInput(r), Concat(OpeningParts(r) + DetailParts(r)))
      && ContainsSub(PreparedInput(r), WeatherItem + "" + NextItem)
      && PreparedInput(r) == PreparedInput(r.(notes := Some("")))
  {
    var r := Lenient(NullRequest(destination));
    assert Lenient(BareRequest(destination)) == r;
    PreparedInputOpening(r);
    WeatherItemDate(r);
    EmptyNotesIgnored(r.(notes := Some("")));
    assert r.(notes := Some("")).(notes := None) == r;
  }
}
