/**
 * Building the coach's system message: the user's persona and metrics are formatted as text
 * blocks and substituted into the placeholders of a base prompt; when that fails the base prompt
 * is sent alone with a warning.
 */
module PromptConstructor {
  import opened Wrappers
  import opened Strings
  import opened Messages
  import opened Slices

  // ---------------------------------------------------------------- data

  /**
   * `WhoopPersona`. The age is kept as the text `${persona.age}` renders to; lists are kept as
   * lists of strings.
   */
  datatype Persona = Persona(
    name: string,
    age: string,
    gender: string,
    goals: seq<string>,
    typicalDayStressors: seq<string>,
    exercisePreferences: seq<string>,
    dietaryHabits: string,
    sleepChallenges: seq<string>,
    whoopUsageLevel: string)

  /**
   * `WhoopDailyMetric`. Every number is kept as the text it is printed as (after `toFixed(1)`
   * where the source applies it); `dateKey` is the time `new Date(date)` denotes, used to sort.
   */
  datatype DailyMetric = DailyMetric(
    date: string,
    dateKey: int,
    hrvMs: string,
    rhrBpm: string,
    recoveryScorePercent: string,
    sleepPerformancePercent: string,
    sleepHoursTotal: string,
    sleepHoursRem: string,
    sleepHoursDeep: string,
    sleepHoursLight: string,
    sleepConsistencyPercent: string,
    strainLevel: string,
    avgHeartRateBpm: string,
    maxHeartRateBpm: string,
    caloriesBurned: string)

  /** `WhoopUserData` once loaded. */
  datatype UserData = UserData(persona: Persona, dailyMetrics: seq<DailyMetric>)

  /** Daily metrics ordered latest first. */
  predicate NewestFirst(ms: seq<DailyMetric>) {
    forall i, j :: 0 <= i < j < |ms| ==> ms[i].dateKey >= ms[j].dateKey
  }

  // ---------------------------------------------------------------- persona block

  /** The labels of the persona block, in the order they are printed. */
  const PersonaLabels: seq<string> := [
    "Name: ", "Age: ", "Gender: ", "Goals: ", "Typical Day Stressors: ", "Exercise Preferences: ",
    "Dietary Habits: ", "Sleep Challenges: ", "WHOOP Usage Level: "]

  /** The printed value of each persona line; list fields are joined with a comma and a space. */
  function PersonaValues(p: Persona): (r: seq<string>)
    ensures |r| == |PersonaLabels|
  {
    [p.name, p.age, p.gender, Join(p.goals, ", "), Join(p.typicalDayStressors, ", "),
     Join(p.exercisePreferences, ", "), p.dietaryHabits, Join(p.sleepChallenges, ", "), p.whoopUsageLevel]
  }

  function PersonaLines(p: Persona): (r: seq<string>)
    ensures |r| == |PersonaLabels|
  {
    seq(|PersonaLabels|, k requires 0 <= k < |PersonaLabels| => PersonaLabels[k] + PersonaValues(p)[k])
  }

  /** `formatPersonaProfile`: the nine lines separated by newlines. */
  function FormatPersonaProfile(p: Persona): string {
    Join(PersonaLines(p), "\n")
  }

  /** No scalar field and no list item of the persona holds `c`. */
  predicate PersonaExcludes(p: Persona, c: char) {
    && c !in p.name && c !in p.age && c !in p.gender && c !in p.dietaryHabits && c !in p.whoopUsageLevel
    && (forall k :: 0 <= k < |p.goals| ==> c !in p.goals[k])
    && (forall k :: 0 <= k < |p.typicalDayStressors| ==> c !in p.typicalDayStressors[k])
    && (forall k :: 0 <= k < |p.exercisePreferences| ==> c !in p.exercisePreferences[k])
    && (forall k :: 0 <= k < |p.sleepChallenges| ==> c !in p.sleepChallenges[k])
  }

  /** Line breaks appear in none of the labels, nor in the list separator. */
  lemma PersonaLabelsPlain()
    ensures forall k :: 0 <= k < |PersonaLabels| ==> '\n' !in PersonaLabels[k]
    ensures '\n' !in ", "
  {
  }

  /** A line break absent from the persona's fields is absent from every line of its block. */
  lemma PersonaLinesExclude(p: Persona)
    requires PersonaExcludes(p, '\n')
    ensures forall k :: 0 <= k < |PersonaLines(p)| ==> '\n' !in PersonaLines(p)[k]
  {
    PersonaLabelsPlain();
    JoinExcludes(p.goals, ", ", '\n');
    JoinExcludes(p.typicalDayStressors, ", ", '\n');
    JoinExcludes(p.exercisePreferences, ", ", '\n');
    JoinExcludes(p.sleepChallenges, ", ", '\n');
    var values := PersonaValues(p);
    assert forall k :: 0 <= k < |values| ==> '\n' !in values[k];
  }

  /**
   * The persona block is exactly nine lines, in the fixed order of the labels: line `k` is label
   * `k` followed by the `k`-th value, provided no field itself holds a line break.
   */
  lemma PersonaProfileLines(p: Persona)
    requires PersonaExcludes(p, '\n')
    ensures Split(FormatPersonaProfile(p), '\n') == PersonaLines(p)
    ensures |Split(FormatPersonaProfile(p), '\n')| == 9
    ensures forall k :: 0 <= k < 9 ==> StartsWith(Split(FormatPersonaProfile(p), '\n')[k], PersonaLabels[k])
  {
    PersonaLinesExclude(p);
    SplitJoin(PersonaLines(p), '\n');
    var lines := PersonaLines(p);
    forall k | 0 <= k < 9 ensures StartsWith(lines[k], PersonaLabels[k]) {
      assert lines[k] == PersonaLabels[k] + PersonaValues(p)[k];
      assert lines[k][..|PersonaLabels[k]|] == PersonaLabels[k];
    }
  }

  // ---------------------------------------------------------------- current metrics block

  const AvgHeartRateNote: string := " bpm (Note: This might be overall avg_hr, " + "clarify if specific to sleep)"

  /** The eleven lines of `formatCurrentMetrics`. */
  function MetricLines(m: DailyMetric): (r: seq<string>)
    ensures |r| == 11
  {
    [ "Date: " + m.date,
      "HRV: " + m.hrvMs + " ms",
      "RHR: " + m.rhrBpm + " bpm",
      "Recovery: " + m.recoveryScorePercent + "%",
      "Sleep Performance: " + m.sleepPerformancePercent + "%",
      "Total Sleep: " + m.sleepHoursTotal + " hrs (REM: " + m.sleepHoursRem + "h, Deep: " + m.sleepHoursDeep
        + "h, Light: " + m.sleepHoursLight + "h)",
      "Sleep Consistency: " + m.sleepConsistencyPercent + "%",
      "Strain: " + m.strainLevel,
      "Avg HR during sleep: " + m.avgHeartRateBpm + AvgHeartRateNote,
      "Max HR: " + m.maxHeartRateBpm + " bpm",
      "Calories Burned: " + m.caloriesBurned ]
  }

  /** `formatCurrentMetrics`: the eleven lines separated by newlines. */
  function FormatCurrentMetrics(m: DailyMetric): string {
    Join(MetricLines(m), "\n")
  }

  /** No field of the metric holds `c`. */
  predicate MetricExcludes(m: DailyMetric, c: char) {
    && c !in m.date && c !in m.hrvMs && c !in m.rhrBpm && c !in m.recoveryScorePercent
    && c !in m.sleepPerformancePercent && c !in m.sleepHoursTotal && c !in m.sleepHoursRem
    && c !in m.sleepHoursDeep && c !in m.sleepHoursLight && c !in m.sleepConsistencyPercent
    && c !in m.strainLevel && c !in m.avgHeartRateBpm && c !in m.maxHeartRateBpm && c !in m.caloriesBurned
  }

  lemma MetricLabelsPlainA()
    ensures '\n' !in "Date: " && '\n' !in "HRV: " && '\n' !in " ms" && '\n' !in "RHR: " && '\n' !in " bpm"
    ensures '\n' !in "Recovery: " && '\n' !in "%"
  {
  }

  lemma MetricLabelsPlainB()
    ensures '\n' !in "Sleep Performance: " && '\n' !in "Total Sleep: " && '\n' !in " hrs (REM: "
    ensures '\n' !in "h, Deep: " && '\n' !in "h, Light: " && '\n' !in "h)"
  {
  }

  lemma MetricLabelsPlainC()
    ensures '\n' !in AvgHeartRateNote
  {
    assert '\n' !in " bpm (Note: This might be overall avg_hr, ";
    assert '\n' !in "clarify if specific to sleep)";
  }

  lemma MetricLabelsPlainD()
    ensures '\n' !in "Sleep Consistency: " && '\n' !in "Strain: " && '\n' !in "Avg HR during sleep: "
    ensures '\n' !in "Max HR: " && '\n' !in "Calories Burned: "
  {
  }

  /**
   * The current-metrics block is exactly eleven lines, the first giving the date, provided no
   * field holds a line break.
   */
  lemma CurrentMetricsLines(m: DailyMetric)
    requires MetricExcludes(m, '\n')
    ensures Split(FormatCurrentMetrics(m), '\n') == MetricLines(m)
    ensures |Split(FormatCurrentMetrics(m), '\n')| == 11
    ensures Split(FormatCurrentMetrics(m), '\n')[0] == "Date: " + m.date
  {
    MetricLabelsPlainA();
    MetricLabelsPlainB();
    MetricLabelsPlainC();
    MetricLabelsPlainD();
    var lines := MetricLines(m);
    assert forall k :: 0 <= k < 11 ==> '\n' !in lines[k];
    SplitJoin(lines, '\n');
  }

  // ---------------------------------------------------------------- recent trends

  const NoRecentData: string := "No recent data available."
  const TrendsHeaderTail: string := " days (Oldest to Newest - Recovery %, Sleep Perf. %, Strain):\n"

  /** The first line of the trends text for a window of `k` days, with its line break. */
  function TrendsHeader(k: nat): string {
    "Last " + NatToString(k) + TrendsHeaderTail
  }

  /** One entry of the trends text, with its line break. */
  function TrendLine(m: DailyMetric): string {
    "- " + m.date + ": Rec " + m.recoveryScorePercent + "%, Sleep " + m.sleepPerformancePercent
      + "%, Strain " + m.strainLevel + "\n"
  }

  /** The entries of `ws`, in order. */
  function Entries(ws: seq<DailyMetric>): string {
    if |ws| == 0 then "" else Entries(ws[..|ws| - 1]) + TrendLine(ws[|ws| - 1])
  }

  /** Extending a window prefix by one day appends that day's entry. */
  lemma EntriesSnoc(ws: seq<DailyMetric>, i: nat)
    requires i < |ws|
    ensures Entries(ws[..i + 1]) == Entries(ws[..i]) + TrendLine(ws[i])
  {
    assert ws[..i + 1][..i] == ws[..i];
  }

  /** Appending the next day's entry to the text built so far extends it by one entry. */
  lemma EntriesAppend(header: string, ws: seq<DailyMetric>, i: nat)
    requires i < |ws|
    ensures (header + Entries(ws[..i])) + TrendLine(ws[i]) == header + Entries(ws[..i + 1])
  {
    EntriesSnoc(ws, i);
  }

  /** `dailyMetrics.slice(0, numDays).reverse()`: the first `numDays`, last of them first. */
  function TrendWindow(ms: seq<DailyMetric>, numDays: int): seq<DailyMetric> {
    Reverse(Slice(ms, 0, numDays))
  }

  /** The trends text for a window: its header and entries, trimmed. */
  function TrendsText(w: seq<DailyMetric>): string {
    Trim(TrendsHeader(|w|) + Entries(w))
  }

  /** The text `formatRecentTrends` returns. */
  function RecentTrends(ms: seq<DailyMetric>, numDays: int): string {
    if |ms| == 0 then NoRecentData else TrendsText(TrendWindow(ms, numDays))
  }

  /**
   * The window holds `min(numDays, |ms|)` days: the first ones of the list, in reverse.
   */
  lemma TrendWindowSpec(ms: seq<DailyMetric>, numDays: int)
    requires numDays >= 0
    ensures var w := TrendWindow(ms, numDays);
      && |w| == (if numDays <= |ms| then numDays else |ms|)
      && forall j :: 0 <= j < |w| ==> w[j] == ms[|w| - 1 - j]
  {
    SlicePrefix(ms, numDays);
    ReverseIndex(Slice(ms, 0, numDays));
  }

  /** For a latest-first list, the window runs from the oldest of the chosen days to the newest. */
  lemma TrendWindowOldestFirst(ms: seq<DailyMetric>, numDays: int)
    requires numDays >= 0 && NewestFirst(ms)
    ensures var w := TrendWindow(ms, numDays);
      forall i, j :: 0 <= i < j < |w| ==> w[i].dateKey <= w[j].dateKey
  {
    TrendWindowSpec(ms, numDays);
  }

  /** The window is empty, or its last strain text ends with a visible character. */
  predicate EndsVisibly(w: seq<DailyMetric>) {
    var strain := if w == [] then "" else w[|w| - 1].strainLevel;
    w == [] || (|strain| > 0 && !IsWhitespace(strain[|strain| - 1]))
  }

  /** The trends text before trimming starts with 'L' and ends with a line break. */
  lemma TrendsTextEnds(w: seq<DailyMetric>)
    ensures var s := TrendsHeader(|w|) + Entries(w);
      |s| >= 2 && s[0] == 'L' && s[|s| - 1] == '\n' && !IsWhitespace(s[0]) && IsWhitespace(s[|s| - 1])
  {
    assert TrendsHeaderTail[|TrendsHeaderTail| - 1] == '\n';
  }

  /** Before its final line break, the untrimmed text ends with the header's colon or the last strain. */
  lemma TrendsTextBeforeBreak(w: seq<DailyMetric>)
    requires EndsVisibly(w)
    ensures var s := TrendsHeader(|w|) + Entries(w);
      |s| >= 2 && !IsWhitespace(s[|s| - 2])
  {
    TrendsTextEnds(w);
    if w == [] {
      assert TrendsHeaderTail[|TrendsHeaderTail| - 2] == ':';
    }
  }

  /** The trends text of any window starts with the 'L' of "Last" and ends with a visible character. */
  lemma TrendsTextVisible(w: seq<DailyMetric>)
    ensures var r := TrendsText(w);
      |r| > 0 && r[0] == 'L' && !IsWhitespace(r[|r| - 1])
  {
    var s := TrendsHeader(|w|) + Entries(w);
    TrendsTextEnds(w);
    TrimVisibleStart(s);
    assert TrendsText(w) == Trim(s);
  }

  /** When the last strain ends visibly, trimming the trends text removes exactly the final line break. */
  lemma TrendsTextDropsFinalBreak(w: seq<DailyMetric>)
    requires EndsVisibly(w)
    ensures var s := TrendsHeader(|w|) + Entries(w);
      TrendsText(w) == s[..|s| - 1]
  {
    TrendsTextEnds(w);
    TrendsTextBeforeBreak(w);
    TrimDropsFinalBreak(TrendsHeader(|w|) + Entries(w));
  }

  /** A negative `numDays` drops that many days from the end of the list before reversing. */
  lemma TrendWindowNegative(ms: seq<DailyMetric>, numDays: int)
    requires numDays < 0
    ensures var w := TrendWindow(ms, numDays);
      && |w| == (if |ms| + numDays > 0 then |ms| + numDays else 0)
      && forall j :: 0 <= j < |w| ==> w[j] == ms[|w| - 1 - j]
  {
    ReverseIndex(Slice(ms, 0, numDays));
  }

  /** The trends text is the no-data notice exactly when there are no days, whatever the window size. */
  lemma NoRecentDataIffEmpty(ms: seq<DailyMetric>, numDays: int)
    ensures RecentTrends(ms, numDays) == NoRecentData <==> |ms| == 0
  {
    if |ms| > 0 {
      var r := TrendsText(TrendWindow(ms, numDays));
      TrendsTextVisible(TrendWindow(ms, numDays));
      assert 'L' in r && 'L' !in NoRecentData;
    }
  }

  /** `formatRecentTrends`: the header, then one entry per day of the window, trimmed. */
  method FormatRecentTrends(dailyMetrics: seq<DailyMetric>, numDays: int) returns (r: string)
    ensures r == RecentTrends(dailyMetrics, numDays)
  {
    if |dailyMetrics| == 0 {
      return NoRecentData;
    }
    var recentMetricsForTrend := Reverse(Slice(dailyMetrics, 0, numDays));
    var trendsString := TrendsHeader(|recentMetricsForTrend|);
    var i := 0;
    while i < |recentMetricsForTrend|
      invariant 0 <= i <= |recentMetricsForTrend|
      invariant trendsString == TrendsHeader(|recentMetricsForTrend|) + Entries(recentMetricsForTrend[..i])
    {
      var m := recentMetricsForTrend[i];
      EntriesAppend(TrendsHeader(|recentMetricsForTrend|), recentMetricsForTrend, i);
      trendsString := trendsString + TrendLine(m);
      i := i + 1;
    }
    assert recentMetricsForTrend[..i] == recentMetricsForTrend;
    r := Trim(trendsString);
    assert r == TrendsText(recentMetricsForTrend);
  }

  // ---------------------------------------------------------------- placeholders

  /** The three slots a base prompt may leave for user data. */
  datatype Slot = PersonaSlot | CurrentSlot | TrendsSlot

  /** The name between the braces of a slot's placeholder. */
  function SlotName(slot: Slot): (r: string)
    ensures |r| > 0 && '{' !in r
  {
    match slot
    case PersonaSlot => "persona_profile"
    case CurrentSlot => "current_metrics"
    case TrendsSlot => "recent_trends"
  }

  /** The text `{{name}}` a base prompt marks a slot with. */
  function Placeholder(slot: Slot): (r: string)
    ensures |r| > 4 && r[0] == '{' && r[1] == '{' && r[2] == SlotName(slot)[0]
  {
    ['{', '{'] + SlotName(slot) + ['}', '}']
  }

  /** Placeholders of different slots already differ in their first letter. */
  lemma SlotNamesDiffer(a: Slot, b: Slot)
    requires a != b
    ensures SlotName(a)[0] != SlotName(b)[0]
  {
  }

  const NoCurrentMetrics: string := "No current metrics available."

  /** The current-metrics block: the latest day's metrics, or a fixed note when there are none. */
  function CurrentMetricsText(ms: seq<DailyMetric>): string {
    if |ms| > 0 then FormatCurrentMetrics(ms[0]) else NoCurrentMetrics
  }

  /**
   * The prompt `constructFinalPrompt` builds: every persona placeholder replaced, then every
   * current-metrics placeholder, then every recent-trends placeholder (over three days).
   */
  function FinalPrompt(basePrompt: string, userData: UserData): string {
    var withPersona := ReplaceAll(basePrompt, Placeholder(PersonaSlot), FormatPersonaProfile(userData.persona));
    var withCurrent := ReplaceAll(withPersona, Placeholder(CurrentSlot), CurrentMetricsText(userData.dailyMetrics));
    ReplaceAll(withCurrent, Placeholder(TrendsSlot), RecentTrends(userData.dailyMetrics, 3))
  }

  /** A base prompt holding none of the three placeholders comes back unchanged, whatever other braces it holds. */
  lemma NoPlaceholderUnchanged(basePrompt: string, userData: UserData)
    requires forall slot: Slot :: !Contains(basePrompt, Placeholder(slot))
    ensures FinalPrompt(basePrompt, userData) == basePrompt
  {
    ReplaceAllAbsent(basePrompt, Placeholder(PersonaSlot), FormatPersonaProfile(userData.persona));
    ReplaceAllAbsent(basePrompt, Placeholder(CurrentSlot), CurrentMetricsText(userData.dailyMetrics));
    ReplaceAllAbsent(basePrompt, Placeholder(TrendsSlot), RecentTrends(userData.dailyMetrics, 3));
  }


  /** A base prompt seen as literal text and slots. */
  datatype Segment = Text(text: string) | Hole(slot: Slot)

  /**
   * No opening brace of the literal text is doubled or ends a text segment, so no text spells,
   * or starts, a placeholder: the only placeholders are the slots. Single braces, as in a JSON
   * example, are allowed.
   */
  predicate PlainText(template: seq<Segment>) {
    forall k :: 0 <= k < |template| ==> template[k].Text? ==> NoOpenPair(template[k].text, '{')
  }

  /** The base prompt a template stands for: its texts, with each slot written as its placeholder. */
  function Raw(template: seq<Segment>): string {
    if |template| == 0 then ""
    else
      var head := match template[0] case Text(t) => t case Hole(slot) => Placeholder(slot);
      head + Raw(template[1..])
  }

  /** The template with every hole of `slot` filled by the literal text `value`. */
  function Fill(template: seq<Segment>, slot: Slot, value: string): (r: seq<Segment>)
    ensures |r| == |template|
    ensures forall k :: 0 <= k < |r| ==> r[k] == (if template[k] == Hole(slot) then Text(value) else template[k])
  {
    seq(|template|, k requires 0 <= k < |template| => if template[k] == Hole(slot) then Text(value) else template[k])
  }

  /** The intended prompt: each slot of the template replaced by the text given for it. */
  function Expand(template: seq<Segment>, persona: string, current: string, trends: string): string {
    if |template| == 0 then ""
    else
      var head := match template[0]
        case Text(t) => t
        case Hole(PersonaSlot) => persona
        case Hole(CurrentSlot) => current
        case Hole(TrendsSlot) => trends;
      head + Expand(template[1..], persona, current, trends)
  }

  /** Another slot's placeholder is skipped over whole when replacing `slot`. */
  lemma PlaceholderPassThrough(other: Slot, slot: Slot, rest: string, value: string)
    requires other != slot
    ensures ReplaceAll(Placeholder(other) + rest, Placeholder(slot), value)
      == Placeholder(other) + ReplaceAll(rest, Placeholder(slot), value)
  {
    var body := SlotName(other) + ['}', '}'];
    SlotNamesDiffer(other, slot);
    assert Placeholder(other) == ['{', '{'] + body;
    assert Placeholder(other) + rest == ['{', '{'] + body + rest;
    ReplaceAllSkipDoubled('{', body, rest, Placeholder(slot), value);
  }

  /**
   * Replacing every placeholder of `slot` in the base prompt a plain template stands for gives
   * the base prompt of the template with those holes filled.
   */
  lemma {:induction false} ReplaceFills(template: seq<Segment>, slot: Slot, value: string)
    requires PlainText(template)
    ensures ReplaceAll(Raw(template), Placeholder(slot), value) == Raw(Fill(template, slot, value))
    decreases |template|
  {
    var p := Placeholder(slot);
    if |template| > 0 {
      var rest := template[1..];
      assert PlainText(rest) by {
        forall k | 0 <= k < |rest| ensures rest[k].Text? ==> NoOpenPair(rest[k].text, '{') {
          assert rest[k] == template[k + 1];
        }
      }
      ReplaceFills(rest, slot, value);
      var filled := Fill(template, slot, value);
      assert filled[1..] == Fill(rest, slot, value);
      match template[0]
      case Text(t) =>
        ReplaceAllSkipUnpaired(t, Raw(rest), p, value);
      case Hole(other) =>
        if other == slot {
          ReplaceAllAtFront(Raw(rest), p, value);
        } else {
          PlaceholderPassThrough(other, slot, Raw(rest), value);
        }
    }
  }

  /** Filling holes with text free of doubled or trailing opening braces keeps a template plain. */
  lemma FillPlain(template: seq<Segment>, slot: Slot, value: string)
    requires PlainText(template) && NoOpenPair(value, '{')
    ensures PlainText(Fill(template, slot, value))
  {
  }

  /** Filling the three slots in turn, then writing the template out, expands it. */
  lemma {:induction false} FillAllExpands(template: seq<Segment>, persona: string, current: string, trends: string)
    ensures Raw(Fill(Fill(Fill(template, PersonaSlot, persona), CurrentSlot, current), TrendsSlot, trends))
      == Expand(template, persona, current, trends)
    decreases |template|
  {
    if |template| > 0 {
      var rest := template[1..];
      FillAllExpands(rest, persona, current, trends);
      var filled := Fill(Fill(Fill(template, PersonaSlot, persona), CurrentSlot, current), TrendsSlot, trends);
      assert filled[1..] == Fill(Fill(Fill(rest, PersonaSlot, persona), CurrentSlot, current), TrendsSlot, trends);
    }
  }

  /**
   * Every placeholder of a plain base prompt is replaced by its block, provided the persona and
   * current-metrics blocks hold no doubled or trailing opening brace (so no placeholder is formed
   * by an earlier substitution).
   */
  lemma FinalPromptExpands(template: seq<Segment>, userData: UserData)
    requires PlainText(template)
    requires NoOpenPair(FormatPersonaProfile(userData.persona), '{')
    requires NoOpenPair(CurrentMetricsText(userData.dailyMetrics), '{')
    ensures FinalPrompt(Raw(template), userData)
      == Expand(template, FormatPersonaProfile(userData.persona), CurrentMetricsText(userData.dailyMetrics),
                RecentTrends(userData.dailyMetrics, 3))
  {
    var persona := FormatPersonaProfile(userData.persona);
    var current := CurrentMetricsText(userData.dailyMetrics);
    var trends := RecentTrends(userData.dailyMetrics, 3);
    var t1 := Fill(template, PersonaSlot, persona);
    var t2 := Fill(t1, CurrentSlot, current);
    ReplaceFills(template, PersonaSlot, persona);
    FillPlain(template, PersonaSlot, persona);
    ReplaceFills(t1, CurrentSlot, current);
    FillPlain(t1, CurrentSlot, current);
    ReplaceFills(t2, TrendsSlot, trends);
    FillAllExpands(template, persona, current, trends);
  }

  /** `constructFinalPrompt`: format the three blocks, then substitute them one after another. */
  method ConstructFinalPrompt(basePrompt: string, userData: UserData) returns (r: string)
    ensures r == FinalPrompt(basePrompt, userData)
  {
    var personaProfile := FormatPersonaProfile(userData.persona);
    var currentMetrics := if |userData.dailyMetrics| > 0 then FormatCurrentMetrics(userData.dailyMetrics[0])
      else NoCurrentMetrics;
    var recentTrends := FormatRecentTrends(userData.dailyMetrics, 3);
    var finalPrompt := basePrompt;
    finalPrompt := ReplaceAll(finalPrompt, Placeholder(PersonaSlot), personaProfile);
    finalPrompt := ReplaceAll(finalPrompt, Placeholder(CurrentSlot), currentMetrics);
    finalPrompt := ReplaceAll(finalPrompt, Placeholder(TrendsSlot), recentTrends);
    return finalPrompt;
  }

  // ---------------------------------------------------------------- loading

  const PromptLoadFailure: string := "Failed to load base system prompt."
  const UserDataFailure: string := "Failed to load or parse user data."
  const FallbackWarning: string := "\n\n[Warning: Could not load dynamic user context. Providing base guidance only.]"
  /** Written word by word, so that facts about its characters can be checked one short word at a time. */
  const ContextFailure: string :=
    "Failed " + "to " + "generate " + "system " + "context " + "message" + " and " + "also "
    + "failed " + "to " + "load " + "base " + "prompt " + "as " + "fallback."

  /** `loadBaseSystemPrompt`: the file's text, or the error it throws when the file cannot be read. */
  function LoadBaseSystemPrompt(file: Option<string>): (r: Result<string, string>)
    ensures r.Ok? <==> file.Some?
    ensures r.Ok? ==> r.value == file.value
    ensures r.Err? ==> r.error == PromptLoadFailure
  {
    if file.Some? then Ok(file.value) else Err(PromptLoadFailure)
  }

  /** The parsed user-data file, before validation: either property may be missing. */
  datatype RawUserData = RawUserData(persona: Option<Persona>, dailyMetrics: Option<seq<DailyMetric>>)

  /** The parsed file has a persona and at least one day of metrics. */
  predicate Loadable(raw: RawUserData) {
    raw.persona.Some? && raw.dailyMetrics.Some? && |raw.dailyMetrics.value| > 0
  }

  /** `userData` is what loading `raw` gives: the same persona and days, latest first. */
  predicate LoadedFrom(raw: RawUserData, userData: UserData) {
    && Loadable(raw)
    && userData.persona == raw.persona.value
    && multiset(userData.dailyMetrics) == multiset(raw.dailyMetrics.value)
    && NewestFirst(userData.dailyMetrics)
  }

  /** The first `n` days of `a` are latest first. */
  ghost predicate NewestFirstUpTo(a: seq<DailyMetric>, n: int) {
    forall p, q :: 0 <= p < q < n && q < |a| ==> a[p].dateKey >= a[q].dateKey
  }

  /** Exchanges two neighbouring days. */
  method SwapBack(a: array<DailyMetric>, j: int)
    requires 0 < j < a.Length
    modifies a
    ensures a[..] == old(a[..])[j - 1 := old(a[j])][j := old(a[j - 1])]
    ensures multiset(a[..]) == multiset(old(a[..]))
  {
    a[j - 1], a[j] := a[j], a[j - 1];
  }

  /** Day `j` is newer than the days after it up to `i`, and the rest of the first `i + 1` are latest first. */
  ghost predicate InsertingAt(a: seq<DailyMetric>, i: int, j: int)
    requires 0 <= j <= i < |a|
  {
    && (forall p, q :: 0 <= p < q <= i && p != j && q != j ==> a[p].dateKey >= a[q].dateKey)
    && (forall q :: j < q <= i ==> a[j].dateKey > a[q].dateKey)
  }

  /** Once day `j` is no newer than its left neighbour, the first `i + 1` days are latest first. */
  lemma InsertingDone(a: seq<DailyMetric>, i: int, j: int)
    requires 0 <= j <= i < |a| && InsertingAt(a, i, j)
    requires j == 0 || a[j - 1].dateKey >= a[j].dateKey
    ensures NewestFirstUpTo(a, i + 1)
  {
  }

  /** Swapping day `j` with an older left neighbour moves the insertion point one to the left. */
  lemma InsertingStep(a: seq<DailyMetric>, i: int, j: int)
    requires 0 < j <= i < |a| && InsertingAt(a, i, j)
    requires a[j - 1].dateKey < a[j].dateKey
    ensures InsertingAt(a[j - 1 := a[j]][j := a[j - 1]], i, j - 1)
  {
  }

  /** Moves day `i` leftwards past every older day, extending the latest-first prefix by one. */
  method InsertNewest(a: array<DailyMetric>, i: int)
    requires 0 <= i < a.Length && NewestFirstUpTo(a[..], i)
    modifies a
    ensures NewestFirstUpTo(a[..], i + 1)
    ensures multiset(a[..]) == multiset(old(a[..]))
  {
    var j := i;
    while j > 0 && a[j - 1].dateKey < a[j].dateKey
      invariant 0 <= j <= i
      invariant InsertingAt(a[..], i, j)
      invariant multiset(a[..]) == multiset(old(a[..]))
    {
      InsertingStep(a[..], i, j);
      SwapBack(a, j);
      j := j - 1;
    }
    InsertingDone(a[..], i, j);
  }

  /**
   * The `daily_metrics.sort(...)` by descending date, done in place: an insertion sort that
   * moves each day leftwards past the older ones before it.
   */
  method SortNewestFirst(a: array<DailyMetric>)
    modifies a
    ensures NewestFirst(a[..])
    ensures multiset(a[..]) == multiset(old(a[..]))
  {
    var i := 0;
    while i < a.Length
      invariant 0 <= i <= a.Length
      invariant NewestFirstUpTo(a[..], i)
      invariant multiset(a[..]) == multiset(old(a[..]))
    {
      InsertNewest(a, i);
      i := i + 1;
    }
  }

  /**
   * `loadWhoopUserData`: `parsed` is the parsed file, or `None` when reading or parsing it fails.
   * Data without a persona or without days is refused; otherwise the days are sorted latest first.
   */
  method LoadWhoopUserData(parsed: Option<RawUserData>) returns (r: Result<UserData, string>)
    ensures r.Err? <==> !(parsed.Some? && Loadable(parsed.value))
    ensures r.Err? ==> r.error == UserDataFailure
    ensures r.Ok? ==> LoadedFrom(parsed.value, r.value)
  {
    if parsed.None? {
      return Err(UserDataFailure);
    }
    var userData := parsed.value;
    if userData.persona.None? || userData.dailyMetrics.None? || |userData.dailyMetrics.value| == 0 {
      return Err(UserDataFailure);
    }
    var ms := userData.dailyMetrics.value;
    var dailyMetrics := new DailyMetric[|ms|](k requires 0 <= k < |ms| => ms[k]);
    assert dailyMetrics[..] == ms;
    SortNewestFirst(dailyMetrics);
    return Ok(UserData(userData.persona.value, dailyMetrics[..]));
  }

  /**
   * Loaded data always has its latest day first, so the current-metrics block is built from the
   * most recent day, and never falls back to the "no current metrics" note.
   */
  lemma LoadedCurrentIsLatest(raw: RawUserData, userData: UserData)
    requires LoadedFrom(raw, userData)
    ensures |userData.dailyMetrics| > 0
    ensures forall m :: m in raw.dailyMetrics.value ==> userData.dailyMetrics[0].dateKey >= m.dateKey
    ensures CurrentMetricsText(userData.dailyMetrics) == FormatCurrentMetrics(userData.dailyMetrics[0])
  {
    var ms := userData.dailyMetrics;
    assert |ms| == |multiset(ms)| == |multiset(raw.dailyMetrics.value)| > 0 by {
      assert raw.dailyMetrics.value[0] in multiset(raw.dailyMetrics.value);
    }
    forall m | m in raw.dailyMetrics.value ensures ms[0].dateKey >= m.dateKey {
      assert m in multiset(raw.dailyMetrics.value);
      assert m in multiset(ms);
      var k :| 0 <= k < |ms| && ms[k] == m;
    }
  }

  /** The trends of loaded data show its latest days, from the oldest of them to the newest. */
  lemma LoadedTrendsOldestFirst(raw: RawUserData, userData: UserData, numDays: int)
    requires LoadedFrom(raw, userData) && numDays >= 0
    ensures var w := TrendWindow(userData.dailyMetrics, numDays);
      forall i, j :: 0 <= i < j < |w| ==> w[i].dateKey <= w[j].dateKey
  {
    TrendWindowOldestFirst(userData.dailyMetrics, numDays);
  }

  // ---------------------------------------------------------------- the system message

  /**
   * `getSystemContextMessage`. The two reads of the base prompt file are given as `firstRead` and
   * `secondRead` (`None` when a read fails), the user-data file as `parsed`. With both files the
   * message carries the final prompt; otherwise, with a base prompt from the second read, the base
   * prompt and a fixed warning; otherwise the call fails.
   */
  method GetSystemContextMessage(firstRead: Option<string>, parsed: Option<RawUserData>, secondRead: Option<string>)
    returns (r: Result<ChatMessage, string>)
    ensures r.Ok? ==> r.value.role == System
    ensures firstRead.Some? && parsed.Some? && Loadable(parsed.value) ==>
      r.Ok? && exists userData :: LoadedFrom(parsed.value, userData) && r.value.content == FinalPrompt(firstRead.value, userData)
    ensures !(firstRead.Some? && parsed.Some? && Loadable(parsed.value)) && secondRead.Some? ==>
      r == Ok(ChatMessage(System, secondRead.value + FallbackWarning))
    ensures !(firstRead.Some? && parsed.Some? && Loadable(parsed.value)) && secondRead.None? ==>
      r == Err(ContextFailure)
  {
    var basePrompt := LoadBaseSystemPrompt(firstRead);
    var userData: Result<UserData, string> := Err(PromptLoadFailure);
    if basePrompt.Ok? {
      userData := LoadWhoopUserData(parsed);
    }
    if basePrompt.Ok? && userData.Ok? {
      var finalSystemPromptText := ConstructFinalPrompt(basePrompt.value, userData.value);
      return Ok(ChatMessage(System, finalSystemPromptText));
    }
    var fallbackPrompt := LoadBaseSystemPrompt(secondRead);
    if fallbackPrompt.Ok? {
      return Ok(ChatMessage(System, fallbackPrompt.value + FallbackWarning));
    }
    return Err(ContextFailure);
  }
}
