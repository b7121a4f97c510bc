/** The browser-side search client: it checks that the search backend is
    configured, turns optional filter records into backend request
    parameters, and reduces the backend's `{hits, found}` responses into
    typed results, failing soft to an empty result. The backend itself is an
    abstract input: a function from request parameters to a response or an
    error. Matching, ranking and sorting happen inside the backend. */
module BrowserClient {
  import opened Wrappers
  import opened FilterExpr
  import Decimal

  // ---------------------------------------------------------------------
  // Truthiness of optional fields, as `if (x)` tests them

  /** A number that is present and not zero. */
  predicate NumberSet(n: Option<int>) {
    n.Some? && n.value != 0
  }

  /** A string that is present and not empty. */
  predicate TextSet(s: Option<string>) {
    s.Some? && s.value != ""
  }

  /** A flag that is present and true. */
  predicate FlagSet(b: Option<bool>) {
    b == Some(true)
  }

  /** `x || d` on an optional number. */
  function NumberOr(n: Option<int>, default: int): (r: int)
    ensures NumberSet(n) ==> r == n.value
    ensures !NumberSet(n) ==> r == default
  {
    match n
    case Some(v) => if v != 0 then v else default
    case None => default
  }

  // ---------------------------------------------------------------------
  // Configuration

  /** The host and public API key, read from the environment. */
  datatype Config = Config(host: Option<string>, apiKey: Option<string>)

  /** The backend is enabled exactly when both settings are non-empty. */
  function IsTypesenseEnabled(cfg: Config): (enabled: bool)
    ensures enabled <==> TextSet(cfg.host) && TextSet(cfg.apiKey)
  {
    match (cfg.host, cfg.apiKey)
    case (Some(h), Some(k)) => h != "" && k != ""
    case _ => false
  }

  // ---------------------------------------------------------------------
  // Documents, requests and responses

  datatype QuestionDocument = QuestionDocument(
    id: string,
    questionId: string,
    questionText: string,
    explanation: Option<string>,
    optionA: Option<string>,
    optionB: Option<string>,
    optionC: Option<string>,
    optionD: Option<string>,
    optionE: Option<string>,
    correctAnswer: string,
    imageUrl: Option<string>,
    lang: Option<string>,
    isGlobal: Option<bool>,
    difficulty: string,
    subjectId: string,
    subjectCode: string,
    subjectName: string,
    topicId: string,
    mainTopic: string,
    subTopic: Option<string>,
    grade: int,
    hasImage: Option<bool>,
    timesAnswered: int,
    timesCorrect: int,
    successRate: Option<real>,
    createdAt: int)

  /** A leaderboard document, as far as the application reads it. */
  datatype LeaderboardEntry = LeaderboardEntry(
    studentId: string,
    fullName: string,
    countryCode: Option<string>,
    cityGlobalId: Option<string>,
    grade: Option<int>,
    totalPoints: int,
    todayQuestions: Option<int>,
    todayDate: Option<string>)

  /** A leaderboard document projected to its `today_questions` field. */
  datatype TodayDoc = TodayDoc(todayQuestions: Option<int>)

  /** The parameters of one backend search request. */
  datatype SearchParams = SearchParams(
    q: string,
    queryBy: string,
    perPage: int,
    sortBy: Option<string>,
    filterBy: Option<string>,
    includeFields: Option<string>)

  datatype Hit<D> = Hit(document: D)

  /** The backend's answer; either field may be missing. */
  datatype SearchResponse<D> = SearchResponse(hits: Option<seq<Hit<D>>>, found: Option<int>)

  /** Network failure, timeout or malformed response; only logged. */
  datatype SearchError = SearchError(message: string)

  type Backend<D> = SearchParams -> Result<SearchResponse<D>, SearchError>

  /** What a search hands back to its caller. */
  datatype SearchResult<D> = SearchResult(documents: seq<D>, total: int, duration: int)

  // ---------------------------------------------------------------------
  // Filter records

  datatype QuestionFilters = QuestionFilters(
    grade: Option<int>,
    subjectCode: Option<string>,
    difficulty: Option<string>,
    limit: Option<int>,
    langFilter: Option<bool>)

  /** An omitted filters argument reads like a record with every field absent. */
  const NoQuestionFilters := QuestionFilters(None, None, None, None, None)

  datatype LeaderboardFilters = LeaderboardFilters(
    countryCode: Option<string>,
    cityGlobalId: Option<string>,
    limit: Option<int>)

  const NoLeaderboardFilters := LeaderboardFilters(None, None, None)

  /** Appends `c` when `active`, like a guarded `filterParts.push`. */
  function PushIf(parts: seq<Clause>, active: bool, c: Clause): (r: seq<Clause>)
    ensures active ==> r == parts + [c]
    ensures !active ==> r == parts
  {
    if active then parts + [c] else parts
  }

  // ---------------------------------------------------------------------
  // Question search

  const QuestionQueryBy := "question_text,main_topic,sub_topic,explanation"
  const QuestionSortBy := "created_at:desc"
  const DefaultQuestionLimit := 20

  /** Reference for the question filter: the value each field's clause must
      carry, or None when that field must not be filtered on. */
  function QuestionClauseValue(f: QuestionFilters, field: string): Option<string> {
    if field == "lang" then (if FlagSet(f.langFilter) then Some("en") else None)
    else if field == "grade" then (if NumberSet(f.grade) then Some(Decimal.IntToString(f.grade.value)) else None)
    else if field == "subject_code" then (if TextSet(f.subjectCode) then f.subjectCode else None)
    else if field == "difficulty" then (if TextSet(f.difficulty) then f.difficulty else None)
    else None
  }

  /** The fixed order of the question filter's clauses. */
  function QuestionFieldRank(field: string): int {
    if field == "lang" then 0
    else if field == "grade" then 1
    else if field == "subject_code" then 2
    else if field == "difficulty" then 3
    else 4
  }

  /** Every question clause is one the filters ask for, with the value they give. */
  predicate QuestionClausesSound(f: QuestionFilters, cs: seq<Clause>) {
    forall i :: 0 <= i < |cs| ==> QuestionClauseValue(f, cs[i].field) == Some(cs[i].value)
  }

  /** Every filter that is set has its clause. */
  ghost predicate QuestionClausesComplete(f: QuestionFilters, cs: seq<Clause>) {
    forall field :: QuestionClauseValue(f, field).Some? ==> exists i :: 0 <= i < |cs| && cs[i].field == field
  }

  /** Clauses come in the fixed order lang, grade, subject_code, difficulty. */
  predicate QuestionClausesOrdered(cs: seq<Clause>) {
    forall i, j :: 0 <= i < j < |cs| ==> QuestionFieldRank(cs[i].field) < QuestionFieldRank(cs[j].field)
  }

  /** No question filter is set. */
  predicate NoQuestionFilterSet(f: QuestionFilters) {
    !FlagSet(f.langFilter) && !NumberSet(f.grade) && !TextSet(f.subjectCode) && !TextSet(f.difficulty)
  }

  /** The active question filter clauses, pushed in source order: exactly
      the set filters, each with its value, in the fixed order; so there is
      none when no filter is set. */
  function QuestionClauses(f: QuestionFilters): (cs: seq<Clause>)
    ensures QuestionClausesSound(f, cs)
    ensures QuestionClausesComplete(f, cs)
    ensures QuestionClausesOrdered(cs)
    ensures |cs| == 0 <==> NoQuestionFilterSet(f)
  {
    var c0 := Clause("lang", "en");
    var c1 := Clause("grade", if f.grade.Some? then Decimal.IntToString(f.grade.value) else "");
    var c2 := Clause("subject_code", f.subjectCode.GetOr(""));
    var c3 := Clause("difficulty", f.difficulty.GetOr(""));
    var p0 := PushIf([], FlagSet(f.langFilter), c0);
    var p1 := PushIf(p0, NumberSet(f.grade), c1);
    var p2 := PushIf(p1, TextSet(f.subjectCode), c2);
    var cs := PushIf(p2, TextSet(f.difficulty), c3);
    PushKeepsSoundOrdered(f, [], FlagSet(f.langFilter), c0);
    PushKeepsSoundOrdered(f, p0, NumberSet(f.grade), c1);
    PushKeepsSoundOrdered(f, p1, TextSet(f.subjectCode), c2);
    PushKeepsSoundOrdered(f, p2, TextSet(f.difficulty), c3);
    PushedQuestionClausesComplete(f, p0, p1, p2, cs);
    cs
  }

  /** One guarded push keeps the clauses sound and ordered when the pushed
      clause ranks after every clause already there. */
  lemma PushKeepsSoundOrdered(f: QuestionFilters, cs: seq<Clause>, active: bool, c: Clause)
    requires QuestionClausesSound(f, cs) && QuestionClausesOrdered(cs)
    requires forall i :: 0 <= i < |cs| ==> QuestionFieldRank(cs[i].field) < QuestionFieldRank(c.field)
    requires active ==> QuestionClauseValue(f, c.field) == Some(c.value)
    ensures QuestionClausesSound(f, PushIf(cs, active, c))
    ensures QuestionClausesOrdered(PushIf(cs, active, c))
    ensures forall i :: 0 <= i < |PushIf(cs, active, c)| ==>
      QuestionFieldRank(PushIf(cs, active, c)[i].field) <= QuestionFieldRank(c.field)
  {
  }

  /** Each set filter's clause sits just after the clauses pushed before it,
      and a sound list with no clause means no filter is set. */
  lemma PushedQuestionClausesComplete(f: QuestionFilters, p0: seq<Clause>, p1: seq<Clause>, p2: seq<Clause>, cs: seq<Clause>)
    requires p0 == PushIf([], FlagSet(f.langFilter), Clause("lang", "en"))
    requires p1 == PushIf(p0, NumberSet(f.grade), Clause("grade", if f.grade.Some? then Decimal.IntToString(f.grade.value) else ""))
    requires p2 == PushIf(p1, TextSet(f.subjectCode), Clause("subject_code", f.subjectCode.GetOr("")))
    requires cs == PushIf(p2, TextSet(f.difficulty), Clause("difficulty", f.difficulty.GetOr("")))
    ensures QuestionClausesComplete(f, cs)
    ensures |cs| == 0 <==> NoQuestionFilterSet(f)
  {
    forall field | QuestionClauseValue(f, field).Some?
      ensures exists i :: 0 <= i < |cs| && cs[i].field == field
    {
      if field == "lang" {
        assert cs[0].field == field;
      } else if field == "grade" {
        assert cs[|p0|].field == field;
      } else if field == "subject_code" {
        assert cs[|p1|].field == field;
      } else {
        assert cs[|p2|].field == field;
      }
    }
  }

  /** The request sent for a question search. */
  function BuildQuestionParams(query: string, f: QuestionFilters): (p: SearchParams)
    ensures query != "" ==> p.q == query
    ensures query == "" ==> p.q == "*"
    ensures p.queryBy == QuestionQueryBy
    ensures NumberSet(f.limit) ==> p.perPage == f.limit.value
    ensures !NumberSet(f.limit) ==> p.perPage == DefaultQuestionLimit
    ensures p.perPage != 0
    ensures p.sortBy == Some(QuestionSortBy)
    ensures p.filterBy.None? <==> NoQuestionFilterSet(f)
    ensures p.includeFields.None?
  {
    var cs := QuestionClauses(f);
    SearchParams(
      if query != "" then query else "*",
      QuestionQueryBy,
      NumberOr(f.limit, DefaultQuestionLimit),
      Some(QuestionSortBy),
      FilterBy(cs),
      None)
  }

  /** Filter values that cannot be mistaken for a separator. */
  predicate SafeText(s: Option<string>) {
    s.Some? ==> '&' !in s.value
  }

  /** The question filter parameter reads back as exactly the active clauses,
      in the fixed order, each with the value its filter gives. */
  lemma QuestionFilterReadsBack(query: string, f: QuestionFilters)
    requires SafeText(f.subjectCode) && SafeText(f.difficulty)
    ensures ParseFilterBy(BuildQuestionParams(query, f).filterBy) == Some(QuestionClauses(f))
  {
    var cs := QuestionClausesUnambiguous(f);
    FilterByRoundTrip(cs);
  }

  lemma QuestionClausesUnambiguous(f: QuestionFilters) returns (cs: seq<Clause>)
    requires SafeText(f.subjectCode) && SafeText(f.difficulty)
    ensures cs == QuestionClauses(f) && AllUnambiguous(cs)
  {
    PlainFieldNames();
    var grade := if f.grade.Some? then Decimal.IntToString(f.grade.value) else "";
    var p0 := PushUnambiguous([], FlagSet(f.langFilter), Clause("lang", "en"));
    var p1 := PushUnambiguous(p0, NumberSet(f.grade), Clause("grade", grade));
    var p2 := PushUnambiguous(p1, TextSet(f.subjectCode), Clause("subject_code", f.subjectCode.GetOr("")));
    cs := PushUnambiguous(p2, TextSet(f.difficulty), Clause("difficulty", f.difficulty.GetOr("")));
  }

  lemma PushUnambiguous(cs: seq<Clause>, active: bool, c: Clause) returns (r: seq<Clause>)
    requires AllUnambiguous(cs) && Unambiguous(c)
    ensures r == PushIf(cs, active, c) && AllUnambiguous(r)
  {
    r := PushIf(cs, active, c);
  }

  /** The field names this client filters on are plain. */
  lemma PlainFieldNames()
    ensures PlainField("lang") && PlainField("grade") && PlainField("subject_code") && PlainField("difficulty")
    ensures PlainField("country_code") && PlainField("city_global_id") && PlainField("today_date")
  {
    PlainFieldName("lang");
    PlainFieldName("grade");
    PlainFieldName("subject_code");
    PlainFieldName("difficulty");
    PlainFieldName("country_code");
    PlainFieldName("city_global_id");
    PlainFieldName("today_date");
  }

  lemma PlainFieldName(name: string)
    requires forall i :: 0 <= i < |name| ==> 'a' <= name[i] <= 'z' || name[i] == '_'
    ensures PlainField(name)
  {
  }

  /** Reduces a backend answer: the hits' documents in order, `found` (or 0)
      as the total; any failure becomes an empty result. */
  function ReduceSearch<D>(response: Result<SearchResponse<D>, SearchError>, elapsed: int): (r: SearchResult<D>)
    ensures response.Err? ==> r == SearchResult([], 0, 0)
    ensures response.Ok? ==>
      && |r.documents| == |response.value.hits.GetOr([])|
      && (forall i :: 0 <= i < |r.documents| ==> r.documents[i] == response.value.hits.value[i].document)
      && r.total == response.value.found.GetOr(0)
      && r.duration == elapsed
  {
    match response
    case Err(_) => SearchResult([], 0, 0)
    case Ok(resp) => SearchResult(Documents(resp.hits.GetOr([])), NumberOr(resp.found, 0), elapsed)
  }

  function Documents<D>(hits: seq<Hit<D>>): (docs: seq<D>)
    ensures |docs| == |hits|
    ensures forall i :: 0 <= i < |hits| ==> docs[i] == hits[i].document
  {
    if |hits| == 0 then [] else [hits[0].document] + Documents(hits[1..])
  }

  /** `searchQuestions`: one request to the backend, reduced. `elapsed`
      stands for the measured duration. */
  function SearchQuestions(query: string, f: QuestionFilters, backend: Backend<QuestionDocument>, elapsed: int)
    : (r: SearchResult<QuestionDocument>)
    ensures backend(BuildQuestionParams(query, f)).Err? ==> r == SearchResult([], 0, 0)
    ensures var resp := backend(BuildQuestionParams(query, f));
      resp.Ok? ==>
        && r.documents == Documents(resp.value.hits.GetOr([]))
        && r.total == resp.value.found.GetOr(0)
  {
    ReduceSearch(backend(BuildQuestionParams(query, f)), elapsed)
  }

  // ---------------------------------------------------------------------
  // Leaderboard

  const DefaultLeaderboardLimit := 50
  const LeaderboardSortBy := "total_points:desc"

  function LeaderboardClauseValue(f: LeaderboardFilters, field: string): Option<string> {
    if field == "country_code" then (if TextSet(f.countryCode) then f.countryCode else None)
    else if field == "city_global_id" then (if TextSet(f.cityGlobalId) then f.cityGlobalId else None)
    else None
  }

  function LeaderboardFieldRank(field: string): int {
    if field == "country_code" then 0 else if field == "city_global_id" then 1 else 2
  }

  /** The active leaderboard clauses: exactly the set filters, each with
      its value, country before city; none when neither is set. */
  function LeaderboardClauses(f: LeaderboardFilters): (cs: seq<Clause>)
    ensures forall i :: 0 <= i < |cs| ==> LeaderboardClauseValue(f, cs[i].field) == Some(cs[i].value)
    ensures forall i, j :: 0 <= i < j < |cs| ==> LeaderboardFieldRank(cs[i].field) < LeaderboardFieldRank(cs[j].field)
    ensures forall field :: LeaderboardClauseValue(f, field).Some? ==>
      exists i :: 0 <= i < |cs| && cs[i].field == field
    ensures |cs| == 0 <==> !TextSet(f.countryCode) && !TextSet(f.cityGlobalId)
  {
    var p0 := PushIf([], TextSet(f.countryCode), Clause("country_code", f.countryCode.GetOr("")));
    var cs := PushIf(p0, TextSet(f.cityGlobalId), Clause("city_global_id", f.cityGlobalId.GetOr("")));
    PushedLeaderboardClausesComplete(f, p0, cs);
    cs
  }

  /** Each set leaderboard filter's clause sits just after the one before it. */
  lemma PushedLeaderboardClausesComplete(f: LeaderboardFilters, p0: seq<Clause>, cs: seq<Clause>)
    requires p0 == PushIf([], TextSet(f.countryCode), Clause("country_code", f.countryCode.GetOr("")))
    requires cs == PushIf(p0, TextSet(f.cityGlobalId), Clause("city_global_id", f.cityGlobalId.GetOr("")))
    ensures forall field :: LeaderboardClauseValue(f, field).Some? ==>
      exists i :: 0 <= i < |cs| && cs[i].field == field
  {
    forall field | LeaderboardClauseValue(f, field).Some?
      ensures exists i :: 0 <= i < |cs| && cs[i].field == field
    {
      if field == "country_code" {
        assert cs[0].field == field;
      } else {
        assert cs[|p0|].field == field;
      }
    }
  }

  function BuildLeaderboardParams(f: LeaderboardFilters): (p: SearchParams)
    ensures p.q == "*" && p.queryBy == "full_name"
    ensures NumberSet(f.limit) ==> p.perPage == f.limit.value
    ensures !NumberSet(f.limit) ==> p.perPage == DefaultLeaderboardLimit
    ensures p.sortBy == Some(LeaderboardSortBy)
    ensures p.filterBy.None? <==> !TextSet(f.countryCode) && !TextSet(f.cityGlobalId)
    ensures p.includeFields.None?
  {
    var cs := LeaderboardClauses(f);
    SearchParams("*", "full_name", NumberOr(f.limit, DefaultLeaderboardLimit), Some(LeaderboardSortBy), FilterBy(cs), None)
  }

  lemma LeaderboardFilterReadsBack(f: LeaderboardFilters)
    requires SafeText(f.countryCode) && SafeText(f.cityGlobalId)
    ensures ParseFilterBy(BuildLeaderboardParams(f).filterBy) == Some(LeaderboardClauses(f))
  {
    PlainFieldNames();
    var p0 := PushUnambiguous([], TextSet(f.countryCode), Clause("country_code", f.countryCode.GetOr("")));
    var cs := PushUnambiguous(p0, TextSet(f.cityGlobalId), Clause("city_global_id", f.cityGlobalId.GetOr("")));
    FilterByRoundTrip(cs);
  }

  /** An omitted filters argument (`filters?.` reads every field as
      absent) gives an unfiltered request with the default page size. */
  lemma OmittedFiltersRequest(query: string)
    ensures BuildQuestionParams(query, NoQuestionFilters).filterBy.None?
    ensures BuildQuestionParams(query, NoQuestionFilters).perPage == DefaultQuestionLimit
    ensures BuildLeaderboardParams(NoLeaderboardFilters).filterBy.None?
    ensures BuildLeaderboardParams(NoLeaderboardFilters).perPage == DefaultLeaderboardLimit
  {
  }

  /** `getGlobalLeaderboard`: the hit order is passed through unchanged. */
  function GetGlobalLeaderboard(f: LeaderboardFilters, backend: Backend<LeaderboardEntry>, elapsed: int)
    : (r: SearchResult<LeaderboardEntry>)
    ensures backend(BuildLeaderboardParams(f)).Err? ==> r == SearchResult([], 0, 0)
    ensures var resp := backend(BuildLeaderboardParams(f));
      resp.Ok? ==>
        && r.documents == Documents(resp.value.hits.GetOr([]))
        && r.total == resp.value.found.GetOr(0)
  {
    ReduceSearch(backend(BuildLeaderboardParams(f)), elapsed)
  }

  // ---------------------------------------------------------------------
  // Global stats

  const TodayPageCap := 250

  datatype GlobalStats = GlobalStats(totalQuestions: int, activeStudents: int, todayQuestions: int, duration: int)

  const ZeroStats := GlobalStats(0, 0, 0, 0)

  /** Count-only request over all questions. */
  const QuestionCountParams := SearchParams("*", "question_text", 0, None, None, None)

  /** Count-only request over all students. */
  const StudentCountParams := SearchParams("*", "full_name", 0, None, None, None)

  /** Leaderboard entries whose day is `today`, projected to their daily count. */
  function TodayParams(today: string): (p: SearchParams)
    ensures p.perPage == TodayPageCap
    ensures p.filterBy.Some?
    ensures p.includeFields == Some("today_questions")
  {
    SearchParams("*", "full_name", TodayPageCap, None, FilterBy([Clause("today_date", today)]),
      Some("today_questions"))
  }

  /** The daily filter reads back as the single clause `today_date:=<date>`. */
  lemma TodayFilterReadsBack(today: string)
    requires '&' !in today
    ensures ParseFilterBy(TodayParams(today).filterBy) == Some([Clause("today_date", today)])
  {
    PlainFieldNames();
    FilterByRoundTrip([Clause("today_date", today)]);
  }

  /** One hit's contribution to the daily total: a missing document or
      count adds 0. */
  function TodayValue(h: Hit<Option<TodayDoc>>): (r: int)
    ensures h.document.None? ==> r == 0
    ensures h.document.Some? && NumberSet(h.document.value.todayQuestions) ==> r == h.document.value.todayQuestions.value
    ensures h.document.Some? && !NumberSet(h.document.value.todayQuestions) ==> r == 0
  {
    match h.document
    case None => 0
    case Some(d) => NumberOr(d.todayQuestions, 0)
  }

  /** Sum of the daily counts, read left to right as `reduce` does: zero
      for no hits, and never negative when no stored count is. */
  function TodaySum(hits: seq<Hit<Option<TodayDoc>>>): (r: int)
    ensures |hits| == 0 ==> r == 0
    ensures (forall i :: 0 <= i < |hits| ==> TodayValue(hits[i]) >= 0) ==> r >= 0
  {
    if |hits| == 0 then 0 else TodaySum(hits[..|hits| - 1]) + TodayValue(hits[|hits| - 1])
  }

  /** `getGlobalStats`: three requests that succeed or fail together; a
      failure of any one zeroes all three counters. */
  method GetGlobalStats<A, B>(
    today: string,
    questionsBackend: Backend<A>,
    studentsBackend: Backend<B>,
    todayBackend: Backend<Option<TodayDoc>>,
    elapsed: int)
    returns (stats: GlobalStats)
    ensures var q := questionsBackend(QuestionCountParams);
            var s := studentsBackend(StudentCountParams);
            var t := todayBackend(TodayParams(today));
      && ((q.Err? || s.Err? || t.Err?) ==> stats == ZeroStats)
      && ((q.Ok? && s.Ok? && t.Ok?) ==>
            && stats.totalQuestions == q.value.found.GetOr(0)
            && stats.activeStudents == s.value.found.GetOr(0)
            && stats.todayQuestions == TodaySum(t.value.hits.GetOr([]))
            && stats.duration == elapsed)
  {
    var q := questionsBackend(QuestionCountParams);
    var s := studentsBackend(StudentCountParams);
    var t := todayBackend(TodayParams(today));
    if q.Err? || s.Err? || t.Err? {
      return ZeroStats;
    }
    var hits := t.value.hits.GetOr([]);
    var sum := 0;
    var i := 0;
    while i < |hits|
      invariant 0 <= i <= |hits|
      invariant sum == TodaySum(hits[..i])
    {
      assert hits[..i + 1][..i] == hits[..i];
      sum := sum + TodayValue(hits[i]);
      i := i + 1;
    }
    assert hits[..|hits|] == hits;
    stats := GlobalStats(NumberOr(q.value.found, 0), NumberOr(s.value.found, 0), sum, elapsed);
  }

  /** With every count in [0, m], the daily total is at most m per hit. */
  lemma {:induction false} TodaySumBound(hits: seq<Hit<Option<TodayDoc>>>, m: int)
    requires forall i :: 0 <= i < |hits| ==> 0 <= TodayValue(hits[i]) <= m
    ensures 0 <= TodaySum(hits) <= |hits| * m
    decreases |hits|
  {
    if |hits| > 0 {
      TodaySumBound(hits[..|hits| - 1], m);
      assert (|hits| - 1) * m + m == |hits| * m;
    }
  }

  /** The daily total of a concatenation is the sum of the parts' totals;
      the order in which hits arrive does not matter block-wise. */
  lemma {:induction false} TodaySumAppend(a: seq<Hit<Option<TodayDoc>>>, b: seq<Hit<Option<TodayDoc>>>)
    ensures TodaySum(a + b) == TodaySum(a) + TodaySum(b)
    decreases |b|
  {
    if |b| > 0 {
      assert (a + b)[..|a + b| - 1] == a + b[..|b| - 1];
      TodaySumAppend(a, b[..|b| - 1]);
    } else {
      assert a + b == a;
    }
  }

  /** A backend that honours the page cap yields a daily total of at most
      250 times the largest count. */
  lemma TodayTotalCapped(hits: seq<Hit<Option<TodayDoc>>>, m: int)
    requires |hits| <= TodayPageCap
    requires m >= 0
    requires forall i :: 0 <= i < |hits| ==> 0 <= TodayValue(hits[i]) <= m
    ensures 0 <= TodaySum(hits) <= TodayPageCap * m
  {
    TodaySumBound(hits, m);
    MulMonotone(|hits|, TodayPageCap, m);
  }

  lemma MulMonotone(a: int, b: int, m: int)
    requires a <= b && m >= 0
    ensures a * m <= b * m
  {
    assert b * m - a * m == (b - a) * m;
  }
}
