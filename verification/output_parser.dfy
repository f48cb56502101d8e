/** The LLM-output cleanup of `TravelItineraryParser`: fence stripping, the
    brace-delimited fallback slice, the 0-10 to 0-5 rating normalisation over
    the decoded JSON, and the error flow of `parse`. The JSON decoder and the
    Pydantic constructor are oracles passed in as functions. */
module OutputParser {
  import opened Common
  import opened JsonValue
  import Schemas

  // ===========================================================================
  // Fence stripping: `_extract_json`

  const Fence: string := "```"
  const JsonFence: string := "```json"

  /** Strip, drop a leading "```json" (else a leading "```") once, drop one
      trailing "```", strip again. */
  function ExtractJson(text: string): (r: string)
    ensures NoOuterSpace(r)
  {
    var s := Strip(text);
    var a := if StartsWith(s, JsonFence) then s[|JsonFence|..]
             else if StartsWith(s, Fence) then s[|Fence|..]
             else s;
    var b := if EndsWith(a, Fence) then a[..|a| - |Fence|] else a;
    Strip(b)
  }

  /** Text that carries no fence is only stripped. */
  lemma ExtractJsonUnfenced(text: string)
    requires !StartsWith(Strip(text), Fence) && !EndsWith(Strip(text), Fence)
    ensures ExtractJson(text) == Strip(text)
  {
    JsonFenceIsFenced(Strip(text));
    StripKeepsTrimmed(Strip(text));
  }

  lemma JsonFenceIsFenced(s: string)
    ensures StartsWith(s, JsonFence) ==> StartsWith(s, Fence)
  {
    if StartsWith(s, JsonFence) {
      assert s[..3] == s[..7][..3];
    }
  }

  /** A body wrapped in a "```json" fence comes back exactly; only one
      leading and one trailing fence are removed, so a body that itself starts
      or ends with backticks is preserved. */
  lemma ExtractJsonFromJsonFence(body: string)
    requires NoOuterSpace(body)
    ensures ExtractJson(JsonFence + "\n" + body + "\n" + Fence) == body
  {
    ExtractJsonFromFence(JsonFence, body);
  }

  /** The same for a bare "```" fence. */
  lemma ExtractJsonFromPlainFence(body: string)
    requires NoOuterSpace(body)
    ensures ExtractJson(Fence + "\n" + body + "\n" + Fence) == body
  {
    ExtractJsonFromFence(Fence, body);
  }

  lemma ExtractJsonFromFence(open: string, body: string)
    requires open == JsonFence || open == Fence
    requires NoOuterSpace(body)
    ensures ExtractJson(open + "\n" + body + "\n" + Fence) == body
  {
    var b := "\n" + body + "\n";
    var text := open + b + Fence;
    Regroup(open, "\n", body, "\n", Fence);
    FencedIsTrimmed(text);
    OpeningFence(open, b);
    ExtractJsonOfFenced(text, |open|, b);
    StripSurrounded("\n", body, "\n");
  }

  /** The opening fence is recognised, and a bare one is not mistaken for
      "```json" when a newline follows it. */
  lemma OpeningFence(open: string, b: string)
    requires open == JsonFence || open == Fence
    requires b != [] && b[0] == '\n'
    ensures var text := open + b + Fence;
      && StartsWith(text, open) && text[|open|..] == b + Fence
      && (open == Fence ==> !StartsWith(text, JsonFence) && StartsWith(text, Fence))
      && (open == JsonFence ==> StartsWith(text, JsonFence))
  {
    var text := open + b + Fence;
    assert text[..|open|] == open;
    assert text[|open|..] == b + Fence;
    if open == Fence {
      assert text[3] == '\n';
    }
  }

  lemma Regroup(a: string, b: string, c: string, d: string, e: string)
    ensures a + b + c + d + e == a + (b + c + d) + e
  {
  }

  lemma FencedIsTrimmed(text: string)
    requires |text| >= 1 && text[0] == '`' && text[|text| - 1] == '`'
    ensures Strip(text) == text
  {
    StripKeepsTrimmed(text);
  }

  /** Once the opening fence of length `k` is recognised, what is left is the
      text between the fences, stripped. */
  lemma ExtractJsonOfFenced(text: string, k: nat, b: string)
    requires Strip(text) == text && k <= |text| && text[k..] == b + Fence
    requires (k == |JsonFence| && StartsWith(text, JsonFence))
          || (k == |Fence| && !StartsWith(text, JsonFence) && StartsWith(text, Fence))
    ensures ExtractJson(text) == Strip(b)
  {
    var a := b + Fence;
    assert EndsWith(a, Fence) && a[..|a| - |Fence|] == b by {
      assert a[|b|..] == Fence;
      assert a[..|b|] == b;
    }
  }

  // ===========================================================================
  // Brace slice: `_extract_json_from_text`

  /** From the first "{" to the last "}" inclusive, when the last "}" comes
      after the first "{". */
  function ExtractJsonFromText(text: string): (r: Option<string>)
    ensures r.Some? ==> |r.value| >= 2 && r.value[0] == '{' && r.value[|r.value| - 1] == '}'
  {
    match (FindChar(text, '{'), RFindChar(text, '}'))
    case (Some(start), Some(end)) =>
      if end > start then Some(text[start..end + 1]) else None
    case _ => None
  }

  /** `i` holds the first "{" of `text`, `j` its last "}", and `i < j`. */
  predicate OuterBraces(text: string, i: int, j: int) {
    && 0 <= i < j < |text| && text[i] == '{' && text[j] == '}'
    && (forall k :: 0 <= k < i ==> text[k] != '{')
    && (forall k :: j < k < |text| ==> text[k] != '}')
  }

  /** A slice exists exactly when some "{" precedes some "}"; it is then the
      contiguous text from the first "{" to the last "}". */
  lemma ExtractJsonFromTextSpec(text: string)
    ensures ExtractJsonFromText(text).Some? <==>
      exists i, j :: 0 <= i < j < |text| && text[i] == '{' && text[j] == '}'
    ensures ExtractJsonFromText(text).Some? ==>
      exists i, j :: OuterBraces(text, i, j) && ExtractJsonFromText(text).value == text[i..j + 1]
  {
    var first, last := FindChar(text, '{'), RFindChar(text, '}');
    if first.Some? && last.Some? && last.value > first.value {
      var i, j := first.value, last.value;
      assert OuterBraces(text, i, j);
      assert ExtractJsonFromText(text).value == text[i..j + 1];
    }
    if exists i, j :: 0 <= i < j < |text| && text[i] == '{' && text[j] == '}' {
      var i, j :| 0 <= i < j < |text| && text[i] == '{' && text[j] == '}';
      assert first.Some? && first.value <= i;
      assert last.Some? && j <= last.value;
    }
  }

  // ===========================================================================
  // Rating normalisation: `_normalize_ratings`

  /** `round(x, 1)`: the nearest tenth, ties to the even tenth. */
  function RoundTenths(x: real): real {
    var y := x * 10.0;
    var f := y.Floor;
    var d := y - f as real;
    var n := if d < 0.5 then f else if d > 0.5 then f + 1 else if f % 2 == 0 then f else f + 1;
    n as real / 10.0
  }

  /** The new value of a numeric rating: above 5 it is halved and rounded. */
  function NormalizedRating(x: real): real {
    if x > 5.0 then RoundTenths(x / 2.0) else x
  }

  /** A rating on the 0-10 scale lands on the 0-5 scale the schema demands,
      and normalising it a second time changes nothing. */
  lemma NormalizedRatingInScale(x: real)
    requires 0.0 <= x <= 10.0
    ensures Schemas.RatingInRange(Some(NormalizedRating(x)))
    ensures x > 5.0 ==> 2.5 <= NormalizedRating(x) <= 5.0
    ensures NormalizedRating(NormalizedRating(x)) == NormalizedRating(x)
  {
    if x > 5.0 {
      var y := x / 2.0 * 10.0;
      assert 25.0 < y <= 50.0;
      var f := y.Floor;
      assert 25 <= f <= 50;
      if f == 50 {
        assert y == 50.0;
      }
    }
  }

  /** `rating > 5`: numbers compare, a boolean counts as 0 or 1, anything else
      raises TypeError. */
  function ExceedsFive(v: Json): Result<bool, PyError> {
    match v
    case JNum(n) => Ok(n > 5.0)
    case JBool(_) => Ok(false)
    case _ => Err(TypeError)
  }

  /** One rated entry (a location, attraction, place or accommodation):
      `if "rating" in e and e["rating"] is not None: if rating > 5:
      e["rating"] = round(rating / 2, 1)`. */
  function NormalizeRated(e: Json): Result<Json, PyError> {
    var has :- In("rating", e);
    if !has then Ok(e)
    else
      var rating :- Index(e, "rating");
      if rating.JNull? then Ok(e)
      else
        var big :- ExceedsFive(rating);
        if big then Ok(Assign(e, "rating", JNum(NormalizedRating(rating.n)))) else Ok(e)
  }

  /** One activity: its location, when present and truthy, is normalised in
      place. */
  function NormalizeActivity(a: Json): Result<Json, PyError> {
    var has :- In("location", a);
    if !has then Ok(a)
    else
      var loc :- Index(a, "location");
      if !Truthy(loc) then Ok(a)
      else
        var loc' :- NormalizeRated(loc);
        Ok(Assign(a, "location", loc'))
  }

  /** The elements of a list, normalised left to right; the first failure
      aborts the walk. */
  function NormalizeRatedList(xs: seq<Json>): (r: Result<seq<Json>, PyError>)
    ensures r.Ok? <==> forall i :: 0 <= i < |xs| ==> NormalizeRated(xs[i]).Ok?
    ensures r.Ok? ==> |r.value| == |xs| && forall i :: 0 <= i < |xs| ==> NormalizeRated(xs[i]) == Ok(r.value[i])
    ensures r.Err? ==> exists k :: 0 <= k < |xs| && NormalizeRated(xs[k]) == Err(r.error) &&
                                  (forall i :: 0 <= i < k ==> NormalizeRated(xs[i]).Ok?)
    decreases |xs|
  {
    if xs == [] then Ok([])
    else
      var n := |xs| - 1;
      assert forall i :: 0 <= i < n ==> xs[..n][i] == xs[i];
      var init :- NormalizeRatedList(xs[..n]);
      var last :- NormalizeRated(xs[n]);
      Ok(init + [last])
  }

  function NormalizeActivities(xs: seq<Json>): (r: Result<seq<Json>, PyError>)
    ensures r.Ok? <==> forall i :: 0 <= i < |xs| ==> NormalizeActivity(xs[i]).Ok?
    ensures r.Ok? ==> |r.value| == |xs| && forall i :: 0 <= i < |xs| ==> NormalizeActivity(xs[i]) == Ok(r.value[i])
    ensures r.Err? ==> exists k :: 0 <= k < |xs| && NormalizeActivity(xs[k]) == Err(r.error) &&
                                  (forall i :: 0 <= i < k ==> NormalizeActivity(xs[i]).Ok?)
    decreases |xs|
  {
    if xs == [] then Ok([])
    else
      var n := |xs| - 1;
      assert forall i :: 0 <= i < n ==> xs[..n][i] == xs[i];
      var init :- NormalizeActivities(xs[..n]);
      var last :- NormalizeActivity(xs[n]);
      Ok(init + [last])
  }

  /** One day plan: every activity of its "activities" collection. */
  function NormalizeDayPlan(d: Json): Result<Json, PyError> {
    var has :- In("activities", d);
    if !has then Ok(d)
    else
      var acts :- Index(d, "activities");
      var items :- Iterate(acts);
      var out :- NormalizeActivities(items);
      Ok(Assign(d, "activities", Rebuild(acts, out)))
  }

  function NormalizeDayPlans(xs: seq<Json>): (r: Result<seq<Json>, PyError>)
    ensures r.Ok? <==> forall i :: 0 <= i < |xs| ==> NormalizeDayPlan(xs[i]).Ok?
    ensures r.Ok? ==> |r.value| == |xs| && forall i :: 0 <= i < |xs| ==> NormalizeDayPlan(xs[i]) == Ok(r.value[i])
    ensures r.Err? ==> exists k :: 0 <= k < |xs| && NormalizeDayPlan(xs[k]) == Err(r.error) &&
                                  (forall i :: 0 <= i < k ==> NormalizeDayPlan(xs[i]).Ok?)
    decreases |xs|
  {
    if xs == [] then Ok([])
    else
      var n := |xs| - 1;
      assert forall i :: 0 <= i < n ==> xs[..n][i] == xs[i];
      var init :- NormalizeDayPlans(xs[..n]);
      var last :- NormalizeDayPlan(xs[n]);
      Ok(init + [last])
  }

  /** The "day_plans" step: entered whenever the key is present. */
  function NormalizeDayPlansField(data: Json): (r: Result<Json, PyError>)
    requires data.JObj?
    ensures r.Ok? ==> OnlyKeyChanged(data, r.value, "day_plans")
  {
    if !HasKey(data, "day_plans") then Ok(data)
    else
      var plans := Get(data, "day_plans");
      var items :- Iterate(plans);
      var out :- NormalizeDayPlans(items);
      Ok(Assign(data, "day_plans", Rebuild(plans, out)))
  }

  /** A rated-list step: entered only when the key is present and truthy. */
  function NormalizeRatedField(data: Json, key: string): (r: Result<Json, PyError>)
    requires data.JObj?
    ensures r.Ok? ==> OnlyKeyChanged(data, r.value, key)
  {
    if !HasKey(data, key) || !Truthy(Get(data, key)) then Ok(data)
    else
      var list := Get(data, key);
      var items :- Iterate(list);
      var out :- NormalizeRatedList(items);
      Ok(Assign(data, key, Rebuild(list, out)))
  }

  const TopAttractions: string := "top_attractions"
  const MustVisitPlaces: string := "must_visit_places"
  const Accommodations: string := "accommodation_recommendations"
  const RatedKeys: set<string> := {"day_plans", TopAttractions, MustVisitPlaces, Accommodations}

  /** `_normalize_ratings`: a non-dict is returned as it is; a dict has its four
      rated collections walked in source order. */
  function NormalizeRatings(data: Json): (r: Result<Json, PyError>)
    ensures !data.JObj? ==> r == Ok(data)
    ensures data.JObj? && r.Ok? ==> OnlyKeysChanged(data, r.value, RatedKeys)
  {
    if !data.JObj? then Ok(data)
    else
      var d1 :- NormalizeDayPlansField(data);
      var d2 :- NormalizeRatedField(d1, TopAttractions);
      var d3 :- NormalizeRatedField(d2, MustVisitPlaces);
      var d4 :- NormalizeRatedField(d3, Accommodations);
      OnlyKeysChangedTrans(data, d1, d2, {"day_plans"}, {TopAttractions});
      OnlyKeysChangedTrans(data, d2, d3, {"day_plans", TopAttractions}, {MustVisitPlaces});
      OnlyKeysChangedTrans(data, d3, d4, {"day_plans", TopAttractions, MustVisitPlaces}, {Accommodations});
      Ok(d4)
  }

  // ---------------------------------------------------------------------------
  // What the walk does to each entry

  /** The numeric rating of an entry, if it has one. */
  function RatingOf(e: Json): Option<real> {
    if HasKey(e, "rating") && Get(e, "rating").JNum? then Some(Get(e, "rating").n) else None
  }

  /** A rating that `>` cannot compare with 5. */
  predicate Incomparable(v: Json) {
    v.JStr? || v.JArr? || v.JObj?
  }

  /** On a dict, the entry step fails exactly when the rating is incomparable;
      otherwise only the rating changes, to its normalised value, and an entry
      without a numeric rating is left as it was. */
  lemma NormalizeRatedEntry(e: Json)
    requires e.JObj?
    ensures NormalizeRated(e).Err? <==> HasKey(e, "rating") && Incomparable(Get(e, "rating"))
    ensures NormalizeRated(e).Ok? ==> OnlyKeyChanged(e, NormalizeRated(e).value, "rating")
    ensures NormalizeRated(e).Ok? && RatingOf(e).Some? ==>
      RatingOf(NormalizeRated(e).value) == Some(NormalizedRating(RatingOf(e).value))
    ensures NormalizeRated(e).Ok? && RatingOf(e).None? ==> NormalizeRated(e).value == e
  {
    if HasKey(e, "rating") {
      var r := Get(e, "rating");
      if r.JNum? && r.n > 5.0 {
        assert NormalizeRated(e) == Ok(Assign(e, "rating", JNum(NormalizedRating(r.n))));
      }
    }
  }

  /** Items that are characters of a str or keys of a dict are strings; the
      walk never changes them. */
  lemma NormalizeRatedString(e: Json)
    requires e.JStr?
    ensures NormalizeRated(e).Ok? ==> NormalizeRated(e).value == e
  {
  }

  // Relations between a value and what the walk made of it.

  /** A numeric rating is replaced by its normalised value and nothing else
      changes; an entry without one is left as it was. */
  predicate RatedStep(x: Json, y: Json) {
    if RatingOf(x).Some? then
      OnlyKeyChanged(x, y, "rating") && RatingOf(y) == Some(NormalizedRating(RatingOf(x).value))
    else y == x
  }

  /** A truthy location is normalised as a rated entry and nothing else
      changes; an activity without one is left as it was. */
  predicate ActivityStep(x: Json, y: Json) {
    if HasKey(x, "location") && Truthy(Get(x, "location")) then
      && OnlyKeyChanged(x, y, "location") && HasKey(y, "location")
      && RatedStep(Get(x, "location"), Get(y, "location"))
    else y == x
  }

  /** The relation fixes the entry: a rating of 5 or less leaves it exactly
      as it was, and a rating of 8 becomes 4. */
  lemma RatedStepDeterminesRating(x: Json, y: Json)
    requires RatedStep(x, y) && DistinctKeys(x)
    ensures RatingOf(x).Some? && RatingOf(x).value <= 5.0 ==> y == x
    ensures RatingOf(x) == Some(8.0) ==> RatingOf(y) == Some(4.0)
  {
    if RatingOf(x).Some? && RatingOf(x).value <= 5.0 {
      KeyIndexAgrees(x.fields, y.fields, "rating");
      var k := KeyIndex(x.fields, "rating").value;
      assert x.fields[k] == y.fields[k];
      assert forall i :: 0 <= i < |x.fields| && i != k ==> x.fields[i].0 != "rating";
      assert forall i :: 0 <= i < |x.fields| ==> x.fields[i] == y.fields[i];
    }
    if RatingOf(x) == Some(8.0) {
      assert (8.0 / 2.0 * 10.0).Floor == 40;
    }
  }

  predicate RatedItemsStep(xs: seq<Json>, ys: seq<Json>) {
    |xs| == |ys| && forall i :: 0 <= i < |xs| ==> RatedStep(xs[i], ys[i])
  }

  predicate ActivityItemsStep(xs: seq<Json>, ys: seq<Json>) {
    |xs| == |ys| && forall i :: 0 <= i < |xs| ==> ActivityStep(xs[i], ys[i])
  }

  /** A collection after the walk: a list becomes a list of the same length
      whose elements are related one by one; any other value is kept. */
  predicate RatedCollectionStep(c: Json, c': Json) {
    if c.JArr? then c'.JArr? && RatedItemsStep(c.items, c'.items) else c' == c
  }

  predicate ActivityCollectionStep(c: Json, c': Json) {
    if c.JArr? then c'.JArr? && ActivityItemsStep(c.items, c'.items) else c' == c
  }

  /** The activities of a day plan that has them are walked and nothing else
      changes; a day plan without them is left as it was. */
  predicate DayPlanStep(x: Json, y: Json) {
    if HasKey(x, "activities") then
      && OnlyKeyChanged(x, y, "activities") && HasKey(y, "activities")
      && ActivityCollectionStep(Get(x, "activities"), Get(y, "activities"))
    else y == x
  }

  predicate DayPlanItemsStep(xs: seq<Json>, ys: seq<Json>) {
    |xs| == |ys| && forall i :: 0 <= i < |xs| ==> DayPlanStep(xs[i], ys[i])
  }

  predicate DayPlanCollectionStep(c: Json, c': Json) {
    if c.JArr? then c'.JArr? && DayPlanItemsStep(c.items, c'.items) else c' == c
  }

  lemma RatedEntryStep(e: Json)
    ensures NormalizeRated(e).Ok? ==> RatedStep(e, NormalizeRated(e).value)
  {
    if e.JObj? { NormalizeRatedEntry(e); }
  }

  lemma RatedListStep(xs: seq<Json>)
    ensures NormalizeRatedList(xs).Ok? ==> RatedItemsStep(xs, NormalizeRatedList(xs).value)
  {
    if NormalizeRatedList(xs).Ok? {
      var ys := NormalizeRatedList(xs).value;
      forall i | 0 <= i < |xs|
        ensures RatedStep(xs[i], ys[i])
      {
        RatedEntryStep(xs[i]);
      }
    }
  }

  lemma ActivityEntryStep(a: Json)
    ensures NormalizeActivity(a).Ok? ==> ActivityStep(a, NormalizeActivity(a).value)
  {
    if NormalizeActivity(a).Ok? && HasKey(a, "location") && Truthy(Get(a, "location")) {
      RatedEntryStep(Get(a, "location"));
    }
  }

  lemma ActivityListStep(xs: seq<Json>)
    ensures NormalizeActivities(xs).Ok? ==> ActivityItemsStep(xs, NormalizeActivities(xs).value)
  {
    if NormalizeActivities(xs).Ok? {
      var ys := NormalizeActivities(xs).value;
      forall i | 0 <= i < |xs|
        ensures ActivityStep(xs[i], ys[i])
      {
        ActivityEntryStep(xs[i]);
      }
    }
  }

  /** Iterating a str or a dict yields strings, which the walk leaves alone,
      so only a list container can come back different. */
  lemma ActivitiesOfStrings(xs: seq<Json>)
    requires forall i :: 0 <= i < |xs| ==> xs[i].JStr?
    ensures NormalizeActivities(xs).Ok? ==> NormalizeActivities(xs).value == xs
  {
    if NormalizeActivities(xs).Ok? {
      var ys := NormalizeActivities(xs).value;
      ActivityListStep(xs);
      assert forall i :: 0 <= i < |xs| ==> ys[i] == xs[i];
    }
  }

  lemma DayPlanEntryStep(d: Json)
    ensures NormalizeDayPlan(d).Ok? ==> DayPlanStep(d, NormalizeDayPlan(d).value)
  {
    if NormalizeDayPlan(d).Ok? && HasKey(d, "activities") {
      var acts := Get(d, "activities");
      var items := Iterate(acts).value;
      ActivityListStep(items);
    }
  }

  lemma DayPlanListStep(xs: seq<Json>)
    ensures NormalizeDayPlans(xs).Ok? ==> DayPlanItemsStep(xs, NormalizeDayPlans(xs).value)
  {
    if NormalizeDayPlans(xs).Ok? {
      var ys := NormalizeDayPlans(xs).value;
      forall i | 0 <= i < |xs|
        ensures DayPlanStep(xs[i], ys[i])
      {
        DayPlanEntryStep(xs[i]);
      }
    }
  }

  /** Only ratings change: the dict keeps every key other than the four rated
      collections; "day_plans" changes only in its activities' locations'
      ratings, and the three rated lists only in their entries' ratings. */
  lemma NormalizeRatingsOnlyRatings(data: Json)
    requires data.JObj? && NormalizeRatings(data).Ok?
    ensures OnlyKeysChanged(data, NormalizeRatings(data).value, RatedKeys)
    ensures HasKey(data, "day_plans") ==>
      HasKey(NormalizeRatings(data).value, "day_plans") &&
      DayPlanCollectionStep(Get(data, "day_plans"), Get(NormalizeRatings(data).value, "day_plans"))
    ensures forall key :: key in {TopAttractions, MustVisitPlaces, Accommodations} && HasKey(data, key) ==>
      HasKey(NormalizeRatings(data).value, key) &&
      RatedCollectionStep(Get(data, key), Get(NormalizeRatings(data).value, key))
  {
    var d1 := NormalizeDayPlansField(data).value;
    var d2 := NormalizeRatedField(d1, TopAttractions).value;
    var d3 := NormalizeRatedField(d2, MustVisitPlaces).value;
    var d4 := NormalizeRatedField(d3, Accommodations).value;
    assert d4 == NormalizeRatings(data).value;
    if HasKey(data, "day_plans") {
      var plans := Get(data, "day_plans");
      DayPlanListStep(Iterate(plans).value);
      OnlyKeysChangedGet(d1, d2, {TopAttractions}, "day_plans");
      OnlyKeysChangedGet(d2, d3, {MustVisitPlaces}, "day_plans");
      OnlyKeysChangedGet(d3, d4, {Accommodations}, "day_plans");
    }
    RatedFieldStep(d1, TopAttractions);
    OnlyKeysChangedGet(data, d1, {"day_plans"}, TopAttractions);
    OnlyKeysChangedGet(d2, d3, {MustVisitPlaces}, TopAttractions);
    OnlyKeysChangedGet(d3, d4, {Accommodations}, TopAttractions);
    RatedFieldStep(d2, MustVisitPlaces);
    OnlyKeysChangedGet(data, d1, {"day_plans"}, MustVisitPlaces);
    OnlyKeysChangedGet(d1, d2, {TopAttractions}, MustVisitPlaces);
    OnlyKeysChangedGet(d3, d4, {Accommodations}, MustVisitPlaces);
    RatedFieldStep(d3, Accommodations);
    OnlyKeysChangedGet(data, d1, {"day_plans"}, Accommodations);
    OnlyKeysChangedGet(d1, d2, {TopAttractions}, Accommodations);
    OnlyKeysChangedGet(d2, d3, {MustVisitPlaces}, Accommodations);
  }

  lemma RatedFieldStep(data: Json, key: string)
    requires data.JObj? && NormalizeRatedField(data, key).Ok?
    ensures HasKey(data, key) ==>
      HasKey(NormalizeRatedField(data, key).value, key) &&
      RatedCollectionStep(Get(data, key), Get(NormalizeRatedField(data, key).value, key))
  {
    if HasKey(data, key) && Truthy(Get(data, key)) {
      RatedListStep(Iterate(Get(data, key)).value);
    }
  }

  // ---------------------------------------------------------------------------
  // The walk as the source runs it: nested loops over the collections

  lemma {:induction false} RatedListFailureStays(xs: seq<Json>, k: nat)
    requires k <= |xs| && NormalizeRatedList(xs[..k]).Err?
    ensures NormalizeRatedList(xs) == NormalizeRatedList(xs[..k])
    decreases |xs| - k
  {
    if k < |xs| {
      assert xs[..k + 1][..k] == xs[..k];
      RatedListFailureStays(xs, k + 1);
    } else {
      assert xs[..k] == xs;
    }
  }

  lemma {:induction false} ActivitiesFailureStays(xs: seq<Json>, k: nat)
    requires k <= |xs| && NormalizeActivities(xs[..k]).Err?
    ensures NormalizeActivities(xs) == NormalizeActivities(xs[..k])
    decreases |xs| - k
  {
    if k < |xs| {
      assert xs[..k + 1][..k] == xs[..k];
      ActivitiesFailureStays(xs, k + 1);
    } else {
      assert xs[..k] == xs;
    }
  }

  lemma {:induction false} DayPlansFailureStays(xs: seq<Json>, k: nat)
    requires k <= |xs| && NormalizeDayPlans(xs[..k]).Err?
    ensures NormalizeDayPlans(xs) == NormalizeDayPlans(xs[..k])
    decreases |xs| - k
  {
    if k < |xs| {
      assert xs[..k + 1][..k] == xs[..k];
      DayPlansFailureStays(xs, k + 1);
    } else {
      assert xs[..k] == xs;
    }
  }

  method WalkRatedItems(items: seq<Json>) returns (r: Result<seq<Json>, PyError>)
    ensures r == NormalizeRatedList(items)
  {
    var out: seq<Json> := [];
    var i := 0;
    while i < |items|
      invariant 0 <= i <= |items|
      invariant NormalizeRatedList(items[..i]) == Ok(out)
    {
      assert items[..i + 1][..i] == items[..i];
      var entry := NormalizeRated(items[i]);
      if entry.Err? {
        RatedListFailureStays(items, i + 1);
        return Err(entry.error);
      }
      out := out + [entry.value];
      i := i + 1;
    }
    assert items[..i] == items;
    return Ok(out);
  }

  method WalkDayPlan(d: Json) returns (r: Result<Json, PyError>)
    ensures r == NormalizeDayPlan(d)
  {
    var has :- In("activities", d);
    if !has {
      return Ok(d);
    }
    var acts :- Index(d, "activities");
    var items :- Iterate(acts);
    var out: seq<Json> := [];
    var i := 0;
    while i < |items|
      invariant 0 <= i <= |items|
      invariant NormalizeActivities(items[..i]) == Ok(out)
    {
      assert items[..i + 1][..i] == items[..i];
      var activity := NormalizeActivity(items[i]);
      if activity.Err? {
        ActivitiesFailureStays(items, i + 1);
        return Err(activity.error);
      }
      out := out + [activity.value];
      i := i + 1;
    }
    assert items[..i] == items;
    return Ok(Assign(d, "activities", Rebuild(acts, out)));
  }

  method WalkRatedField(data: Json, key: string) returns (r: Result<Json, PyError>)
    requires data.JObj?
    ensures r == NormalizeRatedField(data, key)
  {
    if !HasKey(data, key) || !Truthy(Get(data, key)) {
      return Ok(data);
    }
    var list := Get(data, key);
    var items :- Iterate(list);
    var out :- WalkRatedItems(items);
    return Ok(Assign(data, key, Rebuild(list, out)));
  }

  /** `_normalize_ratings` as the source runs it: loops over the day plans and
      their activities, then over the three rated lists. */
  method WalkRatings(data: Json) returns (r: Result<Json, PyError>)
    ensures r == NormalizeRatings(data)
  {
    if !data.JObj? {
      return Ok(data);
    }
    var d := data;
    if HasKey(d, "day_plans") {
      var plans := Get(d, "day_plans");
      var items :- Iterate(plans);
      var out: seq<Json> := [];
      var i := 0;
      while i < |items|
        invariant 0 <= i <= |items|
        invariant NormalizeDayPlans(items[..i]) == Ok(out)
      {
        assert items[..i + 1][..i] == items[..i];
        var plan := WalkDayPlan(items[i]);
        if plan.Err? {
          DayPlansFailureStays(items, i + 1);
          return Err(plan.error);
        }
        out := out + [plan.value];
        i := i + 1;
      }
      assert items[..i] == items;
      d := Assign(d, "day_plans", Rebuild(plans, out));
    }
    assert NormalizeDayPlansField(data) == Ok(d);
    d :- WalkRatedField(d, TopAttractions);
    d :- WalkRatedField(d, MustVisitPlaces);
    r := WalkRatedField(d, Accommodations);
  }

  // ===========================================================================
  // `parse`

  /** Why a step failed: the decoder, the rating walk, `**data` on a value that
      is not a dict, or the Pydantic validation. */
  datatype Cause =
    | DecodeFailure(message: string)
    | WalkFailure(error: PyError)
    | NotAMapping
    | ValidationFailure(message: string)

  /** How `parse` fails: a ValueError whose message is `prefix` followed by the
      cause, or the cause's own exception escaping unchanged. */
  datatype ParseError =
    | Wrapped(prefix: string, cause: Cause)
    | Escaped(cause: Cause)

  const ItineraryPrefix: string := "Failed to parse itinerary: "
  const NoJsonPrefix: string := "Failed to parse JSON from output: "

  /** `_normalize_ratings` then `ItineraryReport(**data)`. */
  function Finish(data: Json, build: Json -> Result<Schemas.ItineraryReport, string>)
    : Result<Schemas.ItineraryReport, Cause>
  {
    match NormalizeRatings(data)
    case Err(e) => Err(WalkFailure(e))
    case Ok(d) =>
      if !d.JObj? then Err(NotAMapping)
      else match build(d)
        case Err(m) => Err(ValidationFailure(m))
        case Ok(report) => Ok(report)
  }

  /** `TravelItineraryParser.parse`: decode the unfenced text; on a decode
      failure retry once on its brace slice. Failures of the first attempt are
      wrapped in ValueError; inside the retry nothing is caught. */
  function Parse(text: string, decode: string -> Result<Json, string>,
                 build: Json -> Result<Schemas.ItineraryReport, string>)
    : Result<Schemas.ItineraryReport, ParseError>
  {
    var t := ExtractJson(text);
    match decode(t)
    case Ok(data) =>
      (match Finish(data, build)
       case Ok(report) => Ok(report)
       case Err(c) => Err(Wrapped(ItineraryPrefix, c)))
    case Err(message) =>
      match ExtractJsonFromText(t)
      case None => Err(Wrapped(NoJsonPrefix, DecodeFailure(message)))
      case Some(slice) =>
        match decode(slice)
        case Err(m) => Err(Escaped(DecodeFailure(m)))
        case Ok(data) =>
          match Finish(data, build)
          case Ok(report) => Ok(report)
          case Err(c) => Err(Escaped(c))
  }

  /** Exceptions that are ValueError or a subclass of it: JSONDecodeError and
      Pydantic's ValidationError are; TypeError and KeyError are not. */
  predicate IsValueError(e: ParseError) {
    e.Wrapped? || e.cause.DecodeFailure? || e.cause.ValidationFailure?
  }

  /** The decision chain of `parse`: decodable text fails only with the
      "Failed to parse itinerary" ValueError; undecodable text with no brace
      slice fails with the "Failed to parse JSON" ValueError carrying the
      decoder's message; otherwise the slice is decoded and finished, and any
      failure there escapes as it is. */
  lemma ParseOutcomes(text: string, decode: string -> Result<Json, string>,
                      build: Json -> Result<Schemas.ItineraryReport, string>)
    ensures var t := ExtractJson(text);
      decode(t).Ok? ==>
        Parse(text, decode, build) == (match Finish(decode(t).value, build)
                                       case Ok(report) => Ok(report)
                                       case Err(c) => Err(Wrapped(ItineraryPrefix, c)))
    ensures var t := ExtractJson(text);
      decode(t).Err? && ExtractJsonFromText(t).None? ==>
        Parse(text, decode, build) == Err(Wrapped(NoJsonPrefix, DecodeFailure(decode(t).error)))
    ensures var t := ExtractJson(text);
      decode(t).Err? && ExtractJsonFromText(t).Some? && Parse(text, decode, build).Err? ==>
        Parse(text, decode, build).error.Escaped?
    ensures Parse(text, decode, build).Err? && !IsValueError(Parse(text, decode, build).error) ==>
      && decode(ExtractJson(text)).Err?
      && ExtractJsonFromText(ExtractJson(text)).Some?
      && (Parse(text, decode, build).error.cause.WalkFailure? || Parse(text, decode, build).error.cause.NotAMapping?)
  {
  }

  /** A report `parse` returns comes from the builder applied to a normalised
      dict; when the builder only produces valid reports, so does `parse`. */
  lemma ParseSuccessValid(text: string, decode: string -> Result<Json, string>,
                          build: Json -> Result<Schemas.ItineraryReport, string>)
    requires forall j :: build(j).Ok? ==> Schemas.ReportValid(build(j).value)
    ensures Parse(text, decode, build).Ok? ==> Schemas.ReportValid(Parse(text, decode, build).value)
  {
    var t := ExtractJson(text);
    if Parse(text, decode, build).Ok? {
      var data := if decode(t).Ok? then decode(t).value else decode(ExtractJsonFromText(t).value).value;
      assert Finish(data, build).Ok?;
      var d := NormalizeRatings(data).value;
      assert build(d).Ok?;
    }
  }

  /** The JSON text `{"day_plans": 1}`, which `json.loads` decodes to a dict
      whose "day_plans" is a number. */
  const DayPlansNumber: string := "{\"day_plans\": 1}"

  /** The retry does not wrap what goes wrong inside it: a brace slice whose
      "day_plans" is a number makes `parse` raise TypeError, not ValueError.
      The decoder here reads `{"day_plans": 1}` as `json.loads` does and
      rejects every other text, the whole answer `a{"day_plans": 1}` among
      them. */
  lemma ParseFallbackLetsTypeErrorEscape()
    ensures var decode := (s: string) => if s == DayPlansNumber then Ok(JObj([("day_plans", JNum(1.0))])) else Err("Expecting value");
      var build := (j: Json) => Err("invalid");
      Parse("a" + DayPlansNumber, decode, build) == Err(Escaped(WalkFailure(TypeError)))
  {
    var text := "a" + DayPlansNumber;
    assert NoOuterSpace(text);
    StripKeepsTrimmed(text);
    assert !StartsWith(text, Fence);
    JsonFenceIsFenced(text);
    assert !EndsWith(text, Fence);
    assert ExtractJson(text) == text;
    assert FindChar(text, '{') == Some(1);
    assert |text| == 17 && text[1..] == DayPlansNumber;
    assert RFindChar(text, '}') == Some(16);
    assert ExtractJsonFromText(text) == Some(DayPlansNumber);
    var data := JObj([("day_plans", JNum(1.0))]);
    assert HasKey(data, "day_plans");
    assert NormalizeDayPlansField(data) == Err(TypeError);
  }
}
