# Travel planner backend — a Dafny model of its core

The system is a web backend that plans trips. A tool-using agent collects
research on a destination. A language model then writes a JSON itinerary.
The backend parses that itinerary, normalises its ratings, renders it as a
Markdown description and fills in missing map coordinates. The same backend
also registers users, signs them in by e-mail and password or through
Google, and checks password rules.

This project models that core in Dafny:

- `common.dfy` (module `Common`): the Python string operations the core
  relies on. These are `str.strip`, `startswith`/`endswith`, `find`/`rfind`,
  splitting on a marker, `split()[0]`, slicing `s[:n]`, truthiness of
  optional strings and decimal rendering of integers.
- `json_value.dfy` (module `JsonValue`): decoded JSON values as Python sees
  them (`dict`, `list`, `str`, numbers, `None`). It also models the
  operations that raise on the wrong type: `in`, `[key]` and iteration.
  Such failures become `TypeError`/`KeyError` values.
- `schemas.dfy` (module `Schemas`): the travel request/response records.
  It also gives their field constraints (`ge`/`le`/`min_length`) as
  validity predicates.
- `output_parser.dfy` (module `OutputParser`): `TravelItineraryParser`.
  This covers fence stripping, the brace-slice fallback and the rating
  normalisation walk. The walk appears as a specification function and as
  loop methods proved against it. The module also holds the full decision
  chain of `parse`.
- `markdown.dfy` (module `Markdown`): `_generate_markdown_description`. The
  text is built as a list of pieces by loop methods, each proved equal to a
  section function.
- `agent_input.dfy` (module `AgentInput`): `_prepare_agent_input`, the
  brief handed to the agent, and the labelled field texts of the prompt.
- `enrich.dfy` (module `Enrich`): `_enrich_with_coordinates` and its
  `get_coords` helper.
- `password.dfy` (module `Password`): the `UserCreate.password` rules,
  with UTF-8 byte length.
- `auth_service.dfy` (module `AuthService`): registration, password
  authentication and Google sign-in. They run over a user table held by a
  class whose methods update it.
- `tool_agent.dfy` (module `ToolAgent`): `SimpleToolAgent`. This covers the
  tool table, tool execution, the destination heuristic, the capped tool
  results and the final summary.

Calls into code outside the core are parameters of the model, not
implementations:
- the JSON decoder, the Pydantic model builder and float formatting;
- the geocoding tool and `float()`;
- the password hash and its check;
- the Google endpoints;
- the agent's tools and the language model.

Each is a deterministic function. Where the core handles a failure of the
outside code, the model gives that code an error value; "## Left out" names
the failures it does not model.

Six places where what the code does is easy to miss:

- The `parse` retry is not protected. `parse` turns failures into one of
  two `ValueError`s, "Failed to parse JSON from output" and "Failed to
  parse itinerary" (server/travel/output_parser.py:52 and :54). The retry on
  the brace slice, however, runs inside the `except json.JSONDecodeError`
  handler, and nothing wraps what fails there. A slice whose `day_plans` is
  a number therefore makes `parse` raise `TypeError`
  (`OutputParser.ParseFallbackLetsTypeErrorEscape`), and the model follows
  the code.
- The prompt code and the request schema use different field names. The
  brief and the prompt texts read `duration`, `start_date`,
  `difficulty_level`, `budget_range`, `interests`, `group_size` and
  `accommodation_type`, none of which the request schema declares; only
  `destination` and `notes` are declared fields. The schema keeps whatever
  extra fields a client sends, so each of these is modelled as not sent,
  sent as null or sent with a value (`AgentInput.Extra`). A null shows as
  `None` in the f-strings.
- A request that leaves out any of those extras makes the brief raise
  `AttributeError` at the first one read: Pydantic raises it for an extra
  that was not sent. The request examples in the repository send none of
  `duration`, `start_date`, `difficulty_level`, `group_size`, `interests` or
  `accommodation_type`. The model gives the brief an `AttributeError` result
  (`AgentInput.PrepareAgentInput`) and records the defect under "## Findings".
- The case of the destination marker is checked loosely. The heuristic
  looks for `"in "` in the lower-cased query but splits the original
  query, which is case-sensitive. `"IN X"` therefore keeps the whole query
  as destination (`ToolAgent.UpperCaseInKeepsQuery`). A tail of blanks
  after the last `"in "` raises `IndexError` (`ToolAgent.WhitespaceTailRaises`).
- Ratings are checked after normalisation. The prompt asks for a 0-5
  scale. The parser halves any rating above 5 and rounds it to one
  decimal, so every rating from 0 to 10 lands within the schema's
  `0 <= rating <= 5` (`OutputParser.NormalizedRatingInScale`).
- A first Google sign-in takes the email's prefix as username, and the
  username column is unique. A new Google user whose prefix is already
  someone's username is therefore refused with the 401 of a failed commit
  (`AuthService.GoogleSignInSucceeds`).

## Model

| member | source | states |
|---|---|---|
| OutputParser.ExtractJson | server/travel/output_parser.py:108-122 | the extracted text never starts or ends with white space |
| OutputParser.ExtractJsonUnfenced | server/travel/output_parser.py:108-122 | text without a fence at either end comes back just stripped |
| OutputParser.ExtractJsonFromJsonFence | server/travel/output_parser.py:113-121 | a body wrapped in a "```json" fence comes back exactly |
| OutputParser.ExtractJsonFromPlainFence | server/travel/output_parser.py:115-121 | a body wrapped in a plain "```" fence comes back exactly |
| OutputParser.ExtractJsonFromText | server/travel/output_parser.py:124-133 | a slice, when returned, opens with "{" and closes with "}" |
| OutputParser.ExtractJsonFromTextSpec | server/travel/output_parser.py:124-133 | a slice exists iff some "{" precedes some "}"; it runs from the first "{" to the last "}" |
| OutputParser.NormalizedRatingInScale | server/travel/output_parser.py:79-80 | halving and rounding to tenths maps every rating in 0..10 into the schema's 0..5; ratings above 5 land in 2.5..5; normalising twice changes nothing |
| OutputParser.NormalizeRatedList | server/travel/output_parser.py:84-88 | the walk over a rated list succeeds iff every item does; item i then becomes what the entry step makes of item i (its rating halved and rounded when above 5); a failure is the error of the first item that raises |
| OutputParser.NormalizeActivities | server/travel/output_parser.py:75-80 | the walk over a day's activities succeeds iff every activity does; activity i then becomes what the activity step makes of it (its location's rating normalised); a failure is the error of the first activity that raises |
| OutputParser.NormalizeDayPlans | server/travel/output_parser.py:72-80 | the walk over the day plans succeeds iff every plan does; plan i then becomes what the day-plan step makes of it (the ratings of its activities' locations normalised); a failure is the error of the first plan that raises |
| OutputParser.NormalizeDayPlansField | server/travel/output_parser.py:72-80 | on success only the "day_plans" entry of the dict may change |
| OutputParser.NormalizeRatedField | server/travel/output_parser.py:83-104 | on success only the named list entry may change |
| OutputParser.NormalizeRatings | server/travel/output_parser.py:56-106 | a non-dict comes back unchanged; on success only the four rated keys may change |
| OutputParser.NormalizeRatedEntry | server/travel/output_parser.py:77-80 | an entry fails iff its rating is present and cannot be compared with 5; otherwise only "rating" changes, to the halved value when above 5, and an entry without a rating is untouched |
| OutputParser.NormalizeRatedString | server/travel/output_parser.py:85 | a string item (where `in` is a substring test) comes back unchanged |
| OutputParser.RatedListStep | server/travel/output_parser.py:84-88 | each normalised item keeps everything but its rating, and a numeric rating becomes its normalised value; an item without one is unchanged |
| OutputParser.RatedStepDeterminesRating | server/travel/output_parser.py:85-88 | the per-item relation fixes the result: an entry rated 5 or less comes back exactly as it was, and a rating of 8 becomes 4 |
| OutputParser.ActivityListStep | server/travel/output_parser.py:75-80 | an activity with a truthy location has that location normalised as a rated entry and nothing else changed; any other activity is unchanged |
| OutputParser.ActivitiesOfStrings | server/travel/output_parser.py:75-77 | a list of strings walked as activities comes back unchanged |
| OutputParser.DayPlanListStep | server/travel/output_parser.py:72-80 | a day plan with "activities" has each listed activity normalised and nothing else changed; a plan without them is unchanged |
| OutputParser.NormalizeRatingsOnlyRatings | server/travel/output_parser.py:56-106 | the whole walk changes nothing but ratings: unrated keys are kept, and in each rated list every numeric rating becomes its normalised value, the rest of each item unchanged |
| OutputParser.RatedFieldStep | server/travel/output_parser.py:83-104 | a rated list present before is present after; a list keeps its length and each item changes only by having its numeric rating normalised; any other value is kept |
| OutputParser.RatedListFailureStays | server/travel/output_parser.py:84-88 | once an item raises, the walk over the whole list raises the same error |
| OutputParser.ActivitiesFailureStays | server/travel/output_parser.py:75-80 | once an activity raises, the walk over all activities raises the same error |
| OutputParser.DayPlansFailureStays | server/travel/output_parser.py:73-80 | once a day plan raises, the walk over all day plans raises the same error |
| OutputParser.WalkRatedItems | server/travel/output_parser.py:84-88 | the in-order loop over a rated list computes the normalisation function, stopping at the first exception |
| OutputParser.WalkDayPlan | server/travel/output_parser.py:74-80 | the loop over one day's activities computes the day-plan normalisation |
| OutputParser.WalkRatedField | server/travel/output_parser.py:83-104 | the guarded loop over one rated key computes the field normalisation |
| OutputParser.WalkRatings | server/travel/output_parser.py:56-106 | the whole copy-and-walk computes the normalisation function |
| OutputParser.ParseOutcomes | server/travel/output_parser.py:20-54 | decodable text fails only with the "Failed to parse itinerary" ValueError; undecodable text without a brace slice fails with "Failed to parse JSON from output" carrying the decoder's message; failures of the retry escape unwrapped, and the only non-ValueError failures are walk and mapping failures of the retry |
| OutputParser.ParseSuccessValid | server/travel/output_parser.py:20-51 | a report `parse` returns is one the builder produced, so it satisfies whatever the builder guarantees (the schema constraints) |
| OutputParser.ParseFallbackLetsTypeErrorEscape | server/travel/output_parser.py:45-51 | the answer `a{"day_plans": 1}` is not JSON, but its brace slice is, and its numeric "day_plans" makes `parse` raise TypeError, not ValueError |
| JsonValue.KeyIndex | server/travel/output_parser.py:72 | finds the position of a key in a dict, or reports that no entry has it |
| JsonValue.In | server/travel/output_parser.py:72 | on a dict, `key in d` is key membership |
| JsonValue.Index | server/travel/output_parser.py:77-78 | `d[key]` succeeds iff the key is present, and yields its value |
| JsonValue.Iterate | server/travel/output_parser.py:73 | iterating a list yields its items; iterating anything else that succeeds yields strings |
| JsonValue.Assign | server/travel/output_parser.py:80 | `d[key] = x` sets that key to x and leaves every other key as it was |
| JsonValue.OnlyKeysChangedGet | server/travel/output_parser.py:69 | after a change confined to some keys, every other key is present and equal as before |
| Schemas.RequestFor | server/travel/schemas.py:21-33 | a request with only a destination has every optional field unset |
| Schemas.DayPlanFor | server/travel/schemas.py:80-90 | a day plan satisfies its constraints iff its day number is at least 1; it starts with no activities |
| Schemas.ResponseFor | server/travel/schemas.py:178-183 | a response carries its success flag and no itinerary, message or time by default |
| Markdown.Bullets | server/travel/service.py:329-340 | line i is "- " followed by item i and a newline, one line per tip or note, in order |
| Markdown.AppendActivities | server/travel/service.py:237-254 | the numbered activity loop appends exactly the activity blocks, in order |
| Markdown.RenderDayPlan | server/travel/service.py:229-262 | one day's block is its heading, its overview, its activities, its notes and the rule |
| Markdown.AppendDayPlans | server/travel/service.py:228-262 | the day loop appends exactly the day blocks, in order |
| Markdown.AppendAttractions | server/travel/service.py:265-275 | the attraction loop appends the numbered attraction blocks |
| Markdown.AppendPlaces | server/travel/service.py:278-285 | the must-visit loop appends one line per place |
| Markdown.AppendAccommodations | server/travel/service.py:288-306 | the accommodation loop appends the accommodation blocks |
| Markdown.AppendBullets | server/travel/service.py:329-340 | the tips loop appends one bullet per item |
| Markdown.RenderTransport | server/travel/service.py:311-322 | one transport block is its type heading, its optional fields and its tips |
| Markdown.AppendTransports | server/travel/service.py:309-323 | the transport loop appends the transport blocks |
| Markdown.AppendBulletSection | server/travel/service.py:329-340 | a tips or notes section appears only for a non-empty list |
| Markdown.AppendDaysSection | server/travel/service.py:228-262 | the daily section appears only when there are day plans |
| Markdown.AppendAttractionsSection | server/travel/service.py:265-275 | the attractions section appears only for a non-empty list, capped at ten |
| Markdown.AppendPlacesSection | server/travel/service.py:278-285 | the must-visit section appears only for a non-empty list, capped at ten |
| Markdown.AppendAccommodationsSection | server/travel/service.py:288-306 | the accommodation section appears only for a non-empty list |
| Markdown.AppendTransportSection | server/travel/service.py:309-323 | the transport section appears only for a non-empty list |
| Markdown.GenerateMarkdownDescription | server/travel/service.py:196-352 | the step-by-step rendering equals the description function section by section |
| Markdown.DescriptionOpening | server/travel/service.py:209-218 | the description opens with the title, the overview with the summary, the rule and the travel-details heading with the duration |
| Markdown.DetailsLines | server/travel/service.py:217-225 | the duration line is always there; each travel-type, budget and best-time line is present iff that field is set, and shows its value |
| Markdown.FieldLabels | server/travel/service.py:221-225 | labelled lines with different labels never coincide |
| Markdown.FieldValue | server/travel/service.py:221-225 | a labelled line determines its value |
| Markdown.ActivityNumbering | server/travel/service.py:237-240 | activities are numbered from 1 in list order: the heading of activity k reads k+1 and follows the blocks of the earlier ones |
| Markdown.ActivitiesPrefix | server/travel/service.py:237-254 | the blocks of the first k activities are a prefix of the blocks of all of them |
| Markdown.DayPlanFrame | server/travel/service.py:229-262 | every day block opens with "### Day n: title" and closes with the rule |
| Markdown.ActivityTimeLine | server/travel/service.py:248-249 | the time line needs both a start and an end; with one missing the other is ignored |
| Markdown.SameSectionsBesideLists | server/travel/service.py:196-352 | two reports that differ only in their top attractions and must-visit places, and render those two sections alike, get the same description |
| Markdown.ListsCappedAtTen | server/travel/service.py:265-285 | cutting the top attractions or the must-visit places to ten leaves the description unchanged |
| AgentInput.BareRequest | server/travel/schemas.py:21-37 | a request with only a destination has its declared optional fields unset and sends none of the seven extras |
| AgentInput.NullRequest | server/travel/schemas.py:21-37 | a request that sends every extra as null lacks none of them |
| AgentInput.ReadAttributes | server/travel/service.py:136-144 | the reads succeed iff every extra was sent, and then yield the values sent with a null read as None; otherwise they raise AttributeError for the first missing extra in read order |
| AgentInput.FieldText | server/travel/service.py:54-59 | each prompt field text starts with its label and ": " |
| AgentInput.FieldTextNotSpecified | server/travel/service.py:54-59 | a field reads "not specified" iff it is unset, empty or literally "not specified" |
| AgentInput.FieldTexts | server/travel/service.py:52-59 | the eight field texts carry their labels, with duration in days and group size in people |
| AgentInput.PrepareAgentInput | server/travel/service.py:125-194 | the brief fails with AttributeError for the first missing extra, and otherwise is the stripped brief of the values read, built by the `+=` steps |
| AgentInput.DefaultedInput | server/travel/service.py:136-194 | the brief with missing extras read as None agrees with the source's brief whenever the source does not raise |
| AgentInput.AppendNotes | server/travel/service.py:159-160 | the notes line is appended only for non-empty notes |
| AgentInput.AppendStartDate | server/travel/service.py:172-173 | " for {start_date}" is appended only when a start date is known |
| AgentInput.StripDropsFinalNewline | server/travel/service.py:194 | stripping the brief removes exactly its final newline |
| AgentInput.PreparedInputOpening | server/travel/service.py:147-157 | the brief opens with the trip line and the whole trip-details block, each field as given or as its default |
| AgentInput.NotesLineShown | server/travel/service.py:159-160 | given notes appear in the brief as "- Additional Notes:" line |
| AgentInput.EmptyNotesIgnored | server/travel/service.py:144-160 | empty notes give the same brief as no notes |
| AgentInput.WeatherItemDate | server/travel/service.py:170-176 | the weather item carries " for {start_date}" iff a start date is known, followed by the customs item |
| AgentInput.BareRequestRaises | server/travel/service.py:136-137 | a request with only a destination raises AttributeError for "duration" |
| AgentInput.BareRequestDefaults | server/travel/service.py:136-176 | with every extra sent as null the reads succeed and the trip-details block shows the duration as None and the defaults (not specified, moderate, moderate, general sightseeing, 1, mixed); the brief has no date after the weather item and equals the brief with empty notes; reading missing extras as None gives the same brief for a destination-only request |
| Enrich.CoordQuery | server/travel/service.py:372-374 | the geocoding query is the place name, with ", destination" appended iff an address is given and the destination is non-empty |
| Enrich.CommaCount | server/travel/service.py:377 | no comma is counted iff the reply has none |
| Enrich.ParseCoords | server/travel/service.py:377-385 | a reply yields both coordinates or neither, and neither unless it has exactly one comma |
| Enrich.GetCoords | server/travel/service.py:369-385 | a geocoder reply with exactly one comma gives what its two halves parse to, and coordinates come from no other reply; a failed call gives none |
| Enrich.CommaCountAppend | server/travel/service.py:379 | commas of a concatenation add up |
| Enrich.ParseCoordsOfPair | server/travel/service.py:379-380 | a reply "a,b" without other commas yields the parsed halves, or neither when one does not parse |
| Enrich.EnrichLocation | server/travel/service.py:399-403 | only latitude and longitude can change; a place with a non-zero latitude is untouched; coordinates are written only when both are non-zero |
| Enrich.EnrichPlace | server/travel/service.py:399-403 | the per-place step computes the enrichment of one location |
| Enrich.EnrichLocationIdempotent | server/travel/service.py:399-403 | enriching twice with the same geocoder gives what enriching once gives |
| Enrich.EnrichWithCoordinates | server/travel/service.py:354-415 | the three loops compute the enriched report: activity locations per day, then top attractions, then must-visit places |
| Enrich.EnrichActivityList | server/travel/service.py:389-395 | the activity loop enriches each activity's location in order |
| Enrich.EnrichLocationList | server/travel/service.py:398-413 | the place loop enriches each place in order |
| Enrich.EnrichOnlyCoordinates | server/travel/service.py:354-415 | the enriched report equals the original except for coordinates of activity locations, attractions and places |
| Enrich.EnrichKeepsValidity | server/travel/service.py:354-415 | enrichment keeps every schema constraint of the report |
| Password.EncodeChar | server/auth/schemas.py:21 | each code point takes one to four bytes, one exactly for ASCII |
| Password.EncodeCharSelfDescribing | server/auth/schemas.py:21 | the leading byte announces the width and continuation bytes are 10xxxxxx |
| Password.EncodeLength | server/auth/schemas.py:21 | the length of the encoding is the byte length |
| Password.ByteLengthBounds | server/auth/schemas.py:21 | a text of n code points takes between n and 4n bytes |
| Password.AsciiByteLength | server/auth/schemas.py:21 | ASCII text takes one byte per character |
| Password.ValidatePassword | server/auth/schemas.py:16-23 | a password is accepted iff it has at least 8 characters and at most 72 UTF-8 bytes, and is returned unchanged; the length rule is reported first |
| Password.SeventyTwoBytesPass | server/auth/schemas.py:21-22 | exactly 72 bytes is still accepted |
| Password.AsciiPasswordRule | server/auth/schemas.py:16-23 | an ASCII password is accepted iff it has 8 to 72 characters |
| Password.LengthDecidesAtTheExtremes | server/auth/schemas.py:16-23 | 8 to 18 characters always pass; more than 72 characters always fail as too long |
| AuthService.FindByEmail | server/auth/service.py:23 | the first row with the email, or none when no row has it |
| AuthService.FindForGoogle | server/auth/service.py:169-171 | the first row, in insertion order, that matches the email or the Google id, or none when no row matches |
| AuthService.Authenticate | server/auth/service.py:54-82 | an unknown email is refused with 401; a returned user is the one found, active, an e-mail account, and the password verifies against its hash |
| AuthService.AuthenticateKnownAccount | server/auth/service.py:57-82 | for a known account: inactive gives 403 first, another provider 400, otherwise success iff the password verifies, and a wrong password reads as an unknown email |
| AuthService.NewEmailUser | server/auth/service.py:32-40 | a registered row is an active, unverified e-mail account with the hash and no Google id |
| AuthService.RegisterOutcome | server/auth/service.py:18-52 | a known email is refused with 400 and the table unchanged; success appends the new row; any refusal leaves the table; uniqueness is preserved |
| AuthService.RegisterNewEmail | server/auth/service.py:42-52 | for a new email, registration fails iff the username is already taken |
| AuthService.GoogleProfile | server/auth/service.py:113-211 | every token failure is 401; a profile is obtained iff the userinfo endpoint accepts the token or the tokeninfo endpoint accepts it for this client; the userinfo reply is used as is; a tokeninfo profile has no "id"; a raised request or decoding error gives 401 "Failed to authenticate with Google: ..." |
| AuthService.EmailPrefix | server/auth/service.py:196 | the username is the email up to its first "@" |
| AuthService.MergeGoogleUser | server/auth/service.py:173-185 | merging sets the Google id, the provider and verified; avatar and name are filled only when missing; everything else is kept |
| AuthService.MergeGoogleUserIdempotent | server/auth/service.py:173-185 | merging the same profile twice equals merging once |
| AuthService.NewGoogleUser | server/auth/service.py:186-197 | a new Google row is active, verified, password-less and named after its email prefix |
| AuthService.GoogleOutcome | server/auth/service.py:104-211 | a failure leaves the table unchanged; an unset or empty client id gives 500; a token failure is reported as is; with an email and a Google id the sign-in succeeds iff the staged table keeps the unique constraints, returning the staged row, and otherwise fails with the 401 carrying the database's message; uniqueness is preserved |
| AuthService.GoogleMissingFields | server/auth/service.py:156-166 | a missing email is reported before a missing Google id, both with 400 |
| AuthService.GoogleSignInEffect | server/auth/service.py:168-202 | a successful sign-in needs a configured client id, and either merges into the first matching row, leaving the others, or appends a verified row named after the email |
| AuthService.MergeIntoMatchCommits | server/auth/service.py:169-185 | whichever matching row the query returns, merging into it commits iff no other row already holds the Google id |
| AuthService.NewGoogleUserCommits | server/auth/service.py:186-199 | when no row matches, the new row commits iff no row already has the email's prefix as username |
| AuthService.GoogleSignInSucceeds | server/auth/service.py:168-211 | on a consistent table, a good profile signs in iff the merged row's Google id is held by no other row, or, for a first sign-in, iff the email's prefix is no one's username |
| AuthService.UserTable.constructor | server/auth/models.py:14-29 | the table starts empty and consistent |
| AuthService.UserTable.RegisterUser | server/auth/service.py:18-52 | registering updates the table exactly as the registration outcome says and keeps it consistent |
| AuthService.UserTable.AuthenticateGoogleUser | server/auth/service.py:104-211 | the sign-in updates the table as the Google outcome says, rolling back on failure, and keeps it consistent |
| ToolAgent.ToolTable | server/travel/agent.py:81 | the tools are keyed by name, one key per distinct name |
| ToolAgent.NewAgent | server/travel/agent.py:79-81 | the agent holds the table of its tools |
| ToolAgent.ToolTableLastWins | server/travel/agent.py:81 | among tools sharing a name, the last one is kept |
| ToolAgent.ToolArgument | server/travel/agent.py:89-97 | one argument is passed as is and none as the empty string |
| ToolAgent.ToolArgumentJoins | server/travel/agent.py:91-95 | each further argument is appended after a single space, so several arguments are joined with single spaces |
| ToolAgent.ReplyText | server/travel/agent.py:98-100 | an empty result reads "No result" and an exception "Tool error: ..." |
| ToolAgent.ExecuteTool | server/travel/agent.py:83-101 | an unknown tool reads "Tool X not found"; a known one runs on the combined argument; the text is never empty |
| ToolAgent.UnknownToolRunsNothing | server/travel/agent.py:85-101 | for an unknown name no tool is run: the outcome does not depend on the tools' behaviour |
| ToolAgent.TailAfterIn | server/travel/agent.py:114-115 | there is a tail iff the query contains "in ", and it is the query's suffix after the last one |
| ToolAgent.ExtractDestination | server/travel/agent.py:110-116 | without a mention, an "in " or a tail after it the query is kept; an IndexError is raised iff the tail is non-empty and blank; a tail with a word gives its first word |
| ToolAgent.ExtractedDestinationIsAWord | server/travel/agent.py:116 | an extracted destination is a non-empty word without white space that occurs in the query, and the query contains "in " exactly |
| ToolAgent.Labelled | server/travel/agent.py:123-156 | a tool result line is its label followed by the first min(length, cap) characters of the result |
| ToolAgent.AttractionsEntry | server/travel/agent.py:129-142 | the attractions line is present iff the ranking tool exists, capped at 600 characters |
| ToolAgent.ToolResults | server/travel/agent.py:119-159 | four or five lines: search capped at 800, optional attractions, weather and customs capped at 400, then the coordinates note |
| ToolAgent.Summary | server/travel/agent.py:183-187 | the model's reply is the output; a failure gives the error text and the first 1000 characters of the tool output |
| ToolAgent.InvokeOutcome | server/travel/agent.py:103-189 | the result is a dict with the single key "output"; it fails iff destination extraction raises |
| ToolAgent.Invoke | server/travel/agent.py:103-189 | the step-by-step run computes the invocation outcome |
| ToolAgent.PickDestination | server/travel/agent.py:110-116 | the heuristic's steps compute the extracted destination |
| ToolAgent.CollectToolResults | server/travel/agent.py:119-159 | the step-by-step collection yields exactly the tool result lines |
| ToolAgent.WordAfterIn | server/travel/agent.py:112-116 | "in X" gives the destination "X" |
| ToolAgent.UpperCaseInKeepsQuery | server/travel/agent.py:112-116 | "IN X" passes the lower-case check but not the split, so the whole query is kept |
| ToolAgent.WhitespaceTailRaises | server/travel/agent.py:114-116 | "in " followed by blanks raises IndexError |

## Findings

| source | as written | input that shows it | evidently intended | confidence | as-written member | corrected member |
|---|---|---|---|---|---|---|
| server/travel/service.py:136-143 | the brief reads `duration`, `start_date`, `difficulty_level`, `budget_range`, `interests`, `group_size` and `accommodation_type` as plain attributes; the request schema does not declare them, so one the client did not send raises AttributeError | a request carrying only "destination", like the examples at server/travel/router.py:63-72, server/travel/schemas.py:39-48 and server/test_travel_api.py:16-24, raises for "duration" | a missing extra reads as None and takes the default the `or` clauses give | high, not executed | AgentInput.BareRequestRaises | AgentInput.DefaultedInput |

## Left out

- I/O and framework code is not part of this model: HTTP routing, the database session, JWT creation and decoding, and `time.sleep` rate limiting. The database is a sequence of rows. Its unique columns appear as a consistency predicate that the commit checks.
- The search, ranking, weather, customs and geocoding tools, the language model, the Google endpoints, password hashing and verification, the JSON decoder, Pydantic model building and float formatting are not modelled. Each is a function parameter of the operation that calls it.
- Floating-point numbers are exact reals. NaN, infinities and rounding error are not modelled. `round(x, 1)` is rounding half to even at tenths.
- Lone surrogate code points in passwords are not representable: a Dafny `char` is a Unicode scalar value, so that `UnicodeEncodeError` path is not modelled.
- Enrich.EnrichWithCoordinates: the source mutates the Pydantic objects in place. The model returns an enriched copy, so aliasing between lists of the same report is not captured.
- Tool results are text. `str(result)`, and `response.content` versus `str(response)`, belong to the tool and model parameters.
- The "Search error" branch of the agent cannot be reached, because `_execute_tool` never raises. Likewise the attractions fallback runs only when the ranking tool raises, and its `except: pass` is dead for the same reason.
- The other services of the repository are not part of this model: AR locations, configuration, the HTTP routers, the prompt templates and the test script.
- AuthService.UserTable.StageGoogleUser stages the merged or new row before the commit. The commit is a consistency check on the staged table, and a failed commit is a 401 whose detail is the database's message.
- AuthService.Authenticate: `verify_password` is a parameter, so a malformed hash that makes it raise is not modelled.
- OutputParser.NormalizeRatings: `_normalize_ratings` copies the top-level dict shallowly and updates the nested lists and dicts in place, so the caller's nested values change too. The model returns a new value; the in-place update of the caller's nested values is not captured.
- AuthService.FindForGoogle: the query has no `order_by`, so which matching row `.first()` returns is up to the database. The model takes the first row in insertion order. With one row matching by email and another by Google id the choice decides the outcome; `AuthService.MergeIntoMatchCommits` states the commit's outcome for every choice.
- AgentInput.SentRequest: the extras are typed as the frontend sends them (integers for duration and group size, strings for the rest). An extra of another JSON type, shown differently by the f-strings, is not modelled.
