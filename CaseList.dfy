/** The "Recent Cases" card: three constant case lists for the time
    windows, the lookup that picks one of them, the colour of a severity
    badge, and the accordion rendered from the chosen list. */
module CaseList {
  import opened Wrappers

  // ---------------------------------------------------------------------
  // Data model
  // ---------------------------------------------------------------------

  /** One reported case. `severity` is "low", "medium" or "high" in the
      data; the colour lookup accepts any string. */
  datatype CaseItem = CaseItem(
    id: string,
    timestamp: string,
    platform: string,
    threatType: string,
    severity: string,
    description: string,
    aiAnalysis: string,
    userAvatar: string)

  const Case1 := CaseItem("1", "2024-03-21 14:30", "Instagram", "Cyberbullying", "high",
    "Multiple hostile comments detected on recent post",
    "Pattern indicates coordinated harassment from multiple accounts. Recommended actions: Report accounts, enable comment filtering.",
    "https://api.dicebear.com/7.x/avataaars/svg?seed=1")
  const Case2 := CaseItem("2", "2024-03-21 12:15", "TikTok", "Suspicious Contact", "medium",
    "Unknown user attempting repeated contact",
    "Profile exhibits common grooming behavior patterns. Recommended action: Block user and report to platform.",
    "https://api.dicebear.com/7.x/avataaars/svg?seed=2")
  const Case3 := CaseItem("3", "2024-03-20 15:45", "Snapchat", "Privacy Risk", "medium",
    "Location sharing enabled in multiple stories",
    "User has been sharing precise location data in stories. Recommended action: Review privacy settings and disable location sharing.",
    "https://api.dicebear.com/7.x/avataaars/svg?seed=3")
  const Case4 := CaseItem("4", "2024-03-19 09:30", "Discord", "Suspicious Link", "high",
    "Potentially malicious link shared in DM",
    "Link analysis shows phishing attempt targeting gaming credentials. Recommended action: Block sender and enable link scanning.",
    "https://api.dicebear.com/7.x/avataaars/svg?seed=4")
  const Case5 := CaseItem("5", "2024-03-15 11:20", "YouTube", "Inappropriate Content", "high",
    "Exposure to age-inappropriate content in recommendations",
    "Content filtering settings need adjustment. Recommended action: Enable restricted mode and review watch history.",
    "https://api.dicebear.com/7.x/avataaars/svg?seed=5")
  const Case6 := CaseItem("6", "2024-03-10 16:45", "WhatsApp", "Harassment", "medium",
    "Repeated unwanted messages from unknown number",
    "Pattern suggests potential harassment. Recommended action: Block number and report to WhatsApp.",
    "https://api.dicebear.com/7.x/avataaars/svg?seed=6")

  /** The lists are built by spreading the shorter one first. */
  const TodayCases: seq<CaseItem> := [Case1, Case2]
  const WeekCases: seq<CaseItem> := TodayCases + [Case3, Case4]
  const MonthCases: seq<CaseItem> := WeekCases + [Case5, Case6]

  // ---------------------------------------------------------------------
  // Window lookup
  // ---------------------------------------------------------------------

  /** `getCasesByTime`: "week" and "month" pick their lists; every other
      string, "today" included, falls back to today's list. */
  function CasesByTime(selectedTime: string): (cases: seq<CaseItem>)
    ensures cases == WeekCases <==> selectedTime == "week"
    ensures cases == MonthCases <==> selectedTime == "month"
    ensures cases == TodayCases <==> selectedTime != "week" && selectedTime != "month"
  {
    match selectedTime
    case "week" => WeekCases
    case "month" => MonthCases
    case _ => TodayCases
  }

  /** An unrecognised window behaves exactly like "today". */
  lemma UnknownWindowIsToday(selectedTime: string)
    requires selectedTime != "week" && selectedTime != "month"
    ensures CasesByTime(selectedTime) == CasesByTime("today")
  {
  }

  /** The ids of a list of cases. */
  function Ids(cases: seq<CaseItem>): (ids: set<string>)
    ensures forall i :: 0 <= i < |cases| ==> cases[i].id in ids
    ensures forall id :: id in ids ==> exists i :: 0 <= i < |cases| && cases[i].id == id
  {
    set i | 0 <= i < |cases| :: cases[i].id
  }

  /** The windows nest: today's list is a prefix of the week's, which is a
      prefix of the month's, so the id sets nest as well. */
  lemma WindowsNest()
    ensures CasesByTime("today") <= CasesByTime("week") <= CasesByTime("month")
    ensures Ids(CasesByTime("today")) <= Ids(CasesByTime("week")) <= Ids(CasesByTime("month"))
  {
    PrefixIdsIncluded(TodayCases, WeekCases);
    PrefixIdsIncluded(WeekCases, MonthCases);
  }

  /** A prefix has no id that the whole list lacks. */
  lemma PrefixIdsIncluded(shorter: seq<CaseItem>, longer: seq<CaseItem>)
    requires shorter <= longer
    ensures Ids(shorter) <= Ids(longer)
  {
    forall id | id in Ids(shorter) ensures id in Ids(longer) {
      var i :| 0 <= i < |shorter| && shorter[i].id == id;
      assert longer[i].id == id;
    }
  }

  /** No two cases of a list share an id. */
  predicate UniqueIds(cases: seq<CaseItem>)
  {
    forall i, j :: 0 <= i < j < |cases| ==> cases[i].id != cases[j].id
  }

  /** The three lists hold 2, 4 and 6 cases with distinct ids. */
  lemma WindowSizesAndIds()
    ensures |CasesByTime("today")| == 2 && |CasesByTime("week")| == 4 && |CasesByTime("month")| == 6
    ensures UniqueIds(TodayCases) && UniqueIds(WeekCases) && UniqueIds(MonthCases)
  {
    assert MonthCases == [Case1, Case2, Case3, Case4, Case5, Case6];
    assert WeekCases == MonthCases[..4] && TodayCases == MonthCases[..2];
    assert UniqueIds(MonthCases);
  }

  // ---------------------------------------------------------------------
  // Timestamp order
  // ---------------------------------------------------------------------

  /** JavaScript's string comparison `a <= b`: lexicographic, element by
      element. JavaScript compares UTF-16 code units and a Dafny string holds
      code points; the two orders agree on the ASCII timestamps here. */
  predicate LexLessOrEqual(a: string, b: string)
  {
    LexLessOrEqualFrom(a, b, 0)
  }

  /** `a <= b` given that the two strings agree before position k. */
  predicate LexLessOrEqualFrom(a: string, b: string, k: nat)
    decreases |a| - k
  {
    if k >= |a| then true
    else if k >= |b| then false
    else if a[k] != b[k] then a[k] < b[k]
    else LexLessOrEqualFrom(a, b, k + 1)
  }

  /** The comparison is transitive. */
  lemma LexLessOrEqualTransitive(a: string, b: string, c: string)
    requires LexLessOrEqual(a, b) && LexLessOrEqual(b, c)
    ensures LexLessOrEqual(a, c)
  {
    LexLessOrEqualFromTransitive(a, b, c, 0);
  }

  /** Transitivity from position k on. */
  lemma {:induction false} LexLessOrEqualFromTransitive(a: string, b: string, c: string, k: nat)
    requires LexLessOrEqualFrom(a, b, k) && LexLessOrEqualFrom(b, c, k)
    ensures LexLessOrEqualFrom(a, c, k)
    decreases |a| - k
  {
    if k < |a| && k < |b| && k < |c| && a[k] == b[k] && b[k] == c[k] {
      LexLessOrEqualFromTransitive(a, b, c, k + 1);
    }
  }

  /** Every string is less than or equal to itself. */
  lemma LexLessOrEqualReflexive(a: string)
    ensures LexLessOrEqual(a, a)
  {
    LexLessOrEqualFromReflexive(a, 0);
  }

  /** Reflexivity from position k on. */
  lemma {:induction false} LexLessOrEqualFromReflexive(a: string, k: nat)
    ensures LexLessOrEqualFrom(a, a, k)
    decreases |a| - k
  {
    if k < |a| {
      LexLessOrEqualFromReflexive(a, k + 1);
    }
  }

  /** Newest first: each case is no older than the next one. */
  predicate NewestFirst(cases: seq<CaseItem>)
  {
    forall i :: 0 <= i < |cases| - 1 ==> LexLessOrEqual(cases[i + 1].timestamp, cases[i].timestamp)
  }

  /** A newest-first list is ordered between any two positions. */
  lemma {:induction false} NewestFirstOrdersAllPairs(cases: seq<CaseItem>, i: nat, j: nat)
    requires NewestFirst(cases)
    requires i <= j < |cases|
    ensures LexLessOrEqual(cases[j].timestamp, cases[i].timestamp)
    decreases j - i
  {
    if i == j {
      LexLessOrEqualReflexive(cases[i].timestamp);
    } else {
      NewestFirstOrdersAllPairs(cases, i + 1, j);
      LexLessOrEqualTransitive(cases[j].timestamp, cases[i + 1].timestamp, cases[i].timestamp);
    }
  }

  /** Each case of the month's list is no newer than the one before it. */
  lemma TimestampsStepDown()
    ensures LexLessOrEqual(Case2.timestamp, Case1.timestamp)
    ensures LexLessOrEqual(Case3.timestamp, Case2.timestamp)
    ensures LexLessOrEqual(Case4.timestamp, Case3.timestamp)
    ensures LexLessOrEqual(Case5.timestamp, Case4.timestamp)
    ensures LexLessOrEqual(Case6.timestamp, Case5.timestamp)
  {
    assert LexLessOrEqual("2024-03-21 12:15", "2024-03-21 14:30");
    assert LexLessOrEqual("2024-03-20 15:45", "2024-03-21 12:15");
    assert LexLessOrEqual("2024-03-19 09:30", "2024-03-20 15:45");
    assert LexLessOrEqual("2024-03-15 11:20", "2024-03-19 09:30");
    assert LexLessOrEqual("2024-03-10 16:45", "2024-03-15 11:20");
  }

  /** As written, the month's list runs newest first by timestamp, so
      every window does. */
  lemma MonthCasesNewestFirst()
    ensures NewestFirst(MonthCases) && NewestFirst(WeekCases) && NewestFirst(TodayCases)
    ensures forall i, j :: 0 <= i <= j < |MonthCases| ==>
      LexLessOrEqual(MonthCases[j].timestamp, MonthCases[i].timestamp)
  {
    assert MonthCases == [Case1, Case2, Case3, Case4, Case5, Case6];
    TimestampsStepDown();
    forall i, j | 0 <= i <= j < |MonthCases|
      ensures LexLessOrEqual(MonthCases[j].timestamp, MonthCases[i].timestamp)
    {
      NewestFirstOrdersAllPairs(MonthCases, i, j);
    }
  }

  // ---------------------------------------------------------------------
  // Severity badge
  // ---------------------------------------------------------------------

  const HighClass: string := "bg-red-100 text-red-800"
  const MediumClass: string := "bg-yellow-100 text-yellow-800"
  const LowClass: string := "bg-green-100 text-green-800"
  const UnknownClass: string := "bg-gray-100 text-gray-800"

  /** `getSeverityColor`: a total lookup with a grey default. */
  function SeverityColor(severity: string): (classes: string)
    ensures classes in {HighClass, MediumClass, LowClass, UnknownClass}
    ensures classes == HighClass <==> severity == "high"
    ensures classes == MediumClass <==> severity == "medium"
    ensures classes == LowClass <==> severity == "low"
    ensures classes == UnknownClass <==> severity !in {"high", "medium", "low"}
  {
    match severity
    case "high" => HighClass
    case "medium" => MediumClass
    case "low" => LowClass
    case _ => UnknownClass
  }

  /** `toUpperCase` on the ASCII letters; other characters are kept. */
  function AsciiUpper(s: string): (r: string)
    ensures |r| == |s|
    ensures forall i :: 0 <= i < |s| ==>
      r[i] == if 'a' <= s[i] <= 'z' then (s[i] as int - 32) as char else s[i]
  {
    if s == [] then []
    else [if 'a' <= s[0] <= 'z' then (s[0] as int - 32) as char else s[0]] + AsciiUpper(s[1..])
  }

  // ---------------------------------------------------------------------
  // Rendering
  // ---------------------------------------------------------------------

  /** The props of the card. `cases` is declared but never read. */
  datatype CaseListProps = CaseListProps(cases: Option<seq<CaseItem>>, selectedTime: Option<string>)

  /** What one accordion item shows: its React key and item value, the
      severity badge's classes and label, and the case itself. */
  datatype AccordionEntry = AccordionEntry(
    key: string,
    value: string,
    severityClasses: string,
    severityLabel: string,
    item: CaseItem)

  /** The card: the badge's count ("N Active Cases") and the accordion. */
  datatype CaseListView = CaseListView(activeCases: nat, entries: seq<AccordionEntry>)

  /** The accordion item of one case. */
  function Entry(c: CaseItem): AccordionEntry
  {
    AccordionEntry(c.id, c.id, SeverityColor(c.severity), AsciiUpper(c.severity), c)
  }

  /** `cases.map(...)`: one accordion item per case, in order. */
  function Entries(cases: seq<CaseItem>): (entries: seq<AccordionEntry>)
    ensures |entries| == |cases|
    ensures forall i :: 0 <= i < |cases| ==>
      entries[i].item == cases[i] && entries[i].key == cases[i].id && entries[i].value == cases[i].id &&
      entries[i].severityClasses == SeverityColor(cases[i].severity) &&
      entries[i].severityLabel == AsciiUpper(cases[i].severity)
  {
    if cases == [] then [] else [Entry(cases[0])] + Entries(cases[1..])
  }

  /** The whole card for the given props; `selectedTime` defaults to "today". */
  function Render(props: CaseListProps): (view: CaseListView)
    ensures view.activeCases == |view.entries|
    ensures view.activeCases in {2, 4, 6}
    ensures view.activeCases == 2 <==> props.selectedTime.GetOr("today") !in {"week", "month"}
  {
    var cases := CasesByTime(props.selectedTime.GetOr("today"));
    CaseListView(|cases|, Entries(cases))
  }

  /** The accordion lists the looked-up cases in lookup order, keyed by id,
      and the badge counts exactly those cases. */
  lemma RenderFollowsLookup(props: CaseListProps)
    ensures var cases := CasesByTime(props.selectedTime.GetOr("today"));
      Render(props).activeCases == |Render(props).entries| == |cases| &&
      forall i :: 0 <= i < |cases| ==>
        Render(props).entries[i].item == cases[i] && Render(props).entries[i].key == cases[i].id
  {
  }

  /** Without a window the card shows today's two cases. */
  lemma DefaultRenderIsToday(cases: Option<seq<CaseItem>>)
    ensures Render(CaseListProps(cases, None)).activeCases == 2
    ensures Render(CaseListProps(cases, None)) == Render(CaseListProps(None, Some("today")))
  {
  }

  /** The `cases` prop has no effect on what is shown. */
  lemma CasesPropIgnored(p: CaseListProps, q: CaseListProps)
    requires p.selectedTime == q.selectedTime
    ensures Render(p) == Render(q)
  {
  }
}
