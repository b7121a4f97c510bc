/** The practice page's session logic, lifted out of its state setters:
    answer selection, answer checking with XP and streak scoring, moving to
    the next question, listing a question's options, and mapping the page's
    filter selections to a question search. */
module PracticeSession {
  import opened Wrappers
  import opened BrowserClient

  // ---------------------------------------------------------------------
  // State

  /** The running score of a practice session. */
  datatype Stats = Stats(correct: int, total: int, xp: int, streak: int)

  const InitialStats := Stats(0, 0, 0, 0)

  datatype Session = Session(
    query: string,
    grade: Option<int>,
    subject: Option<string>,
    difficulty: Option<string>,
    questions: seq<QuestionDocument>,
    active: Option<QuestionDocument>,
    selected: Option<string>,
    showResult: bool,
    stats: Stats)

  const InitialSession := Session("", None, None, None, [], None, None, false, InitialStats)

  /** A selected answer that counts as chosen (present and non-empty). */
  predicate AnswerChosen(a: Option<string>) {
    a.Some? && a.value != ""
  }

  // ---------------------------------------------------------------------
  // Scoring

  const HardXp := 15
  const MediumXp := 10
  const BaseXp := 5

  /** XP for a correct answer at a difficulty: only the exact strings "hard"
      and "medium" earn more than the base amount. */
  function XpForDifficulty(difficulty: string): (xp: int)
    ensures BaseXp <= xp <= HardXp
    ensures xp == HardXp <==> difficulty == "hard"
    ensures xp == MediumXp <==> difficulty == "medium"
    ensures difficulty != "hard" && difficulty != "medium" ==> xp == BaseXp
  {
    if difficulty == "hard" then HardXp
    else if difficulty == "medium" then MediumXp
    else BaseXp
  }

  /** Score bounds every reachable session keeps. */
  predicate ValidStats(st: Stats) {
    && 0 <= st.streak <= st.correct <= st.total
    && BaseXp * st.correct <= st.xp <= HardXp * st.correct
  }

  /** One checked answer added to the score. */
  function Score(st: Stats, isCorrect: bool, difficulty: string): (r: Stats)
    ensures r.total == st.total + 1
    ensures isCorrect ==> r.correct == st.correct + 1 && r.streak == st.streak + 1
    ensures !isCorrect ==> r.correct == st.correct && r.streak == 0 && r.xp == st.xp
    ensures isCorrect ==> r.xp - st.xp == XpForDifficulty(difficulty)
    ensures r.xp >= st.xp
    ensures ValidStats(st) ==> ValidStats(r)
  {
    var gain := if isCorrect then XpForDifficulty(difficulty) else 0;
    Stats(
      st.correct + (if isCorrect then 1 else 0),
      st.total + 1,
      st.xp + gain,
      if isCorrect then st.streak + 1 else 0)
  }

  // ---------------------------------------------------------------------
  // Transitions

  /** Picks an answer; ignored while a result is shown or no question is open. */
  function SelectAnswer(s: Session, answer: string): (r: Session)
    ensures s.showResult || s.active.None? ==> r == s
    ensures !s.showResult && s.active.Some? ==> r.selected == Some(answer)
    ensures r.(selected := s.selected) == s
  {
    if s.showResult || s.active.None? then s
    else s.(selected := Some(answer))
  }

  /** Whether the chosen answer is the open question's correct one. */
  predicate IsCorrect(s: Session)
    requires s.active.Some?
  {
    s.selected == Some(s.active.value.correctAnswer)
  }

  /** Checks the chosen answer: shows the result and scores it. Without an
      open question or a chosen answer nothing changes. */
  function CheckAnswer(s: Session): (r: Session)
    ensures s.active.None? || !AnswerChosen(s.selected) ==> r == s
    ensures s.active.Some? && AnswerChosen(s.selected) ==>
      && r.showResult
      && r.stats.total == s.stats.total + 1
      && r.stats.correct == s.stats.correct + (if IsCorrect(s) then 1 else 0)
      && r.stats.streak == (if IsCorrect(s) then s.stats.streak + 1 else 0)
      && r.stats.xp == s.stats.xp + (if IsCorrect(s) then XpForDifficulty(s.active.value.difficulty) else 0)
    ensures r.stats.xp >= s.stats.xp
    ensures r.(showResult := s.showResult, stats := s.stats) == s
  {
    if s.active.None? || !AnswerChosen(s.selected) then s
    else
      var q := s.active.value;
      s.(showResult := true, stats := Score(s.stats, s.selected.value == q.correctAnswer, q.difficulty))
  }

  /** The key the page looks up: the open question's id, or nothing. */
  function ActiveId(s: Session): Option<string> {
    match s.active
    case Some(q) => Some(q.id)
    case None => None
  }

  /** `findIndex` by id: the first position holding `id`, or -1. */
  function FindIndexById(qs: seq<QuestionDocument>, id: Option<string>): (k: int)
    ensures -1 <= k < |qs|
    ensures k == -1 <==> forall i :: 0 <= i < |qs| ==> Some(qs[i].id) != id
    ensures k >= 0 ==> Some(qs[k].id) == id && forall i :: 0 <= i < k ==> Some(qs[i].id) != id
  {
    if |qs| == 0 then -1
    else if Some(qs[0].id) == id then 0
    else
      var k := FindIndexById(qs[1..], id);
      if k == -1 then -1 else k + 1
  }

  /** Moves on: clears the selection and the result, and opens the question
      after the current one in the list, or none after the last. An open
      question that is not in the list counts as position -1, so the first
      question follows. */
  function NextQuestion(s: Session): (r: Session)
    ensures r.selected.None? && !r.showResult
    ensures forall k ::
      (&& 0 <= k < |s.questions|
       && Some(s.questions[k].id) == ActiveId(s)
       && (forall j :: 0 <= j < k ==> Some(s.questions[j].id) != ActiveId(s)))
      ==> r.active == (if k + 1 < |s.questions| then Some(s.questions[k + 1]) else None)
    ensures (forall i :: 0 <= i < |s.questions| ==> Some(s.questions[i].id) != ActiveId(s)) ==>
      r.active == (if |s.questions| > 0 then Some(s.questions[0]) else None)
    ensures r.(selected := s.selected, showResult := s.showResult, active := s.active) == s
  {
    var k := FindIndexById(s.questions, ActiveId(s));
    var next := if k < |s.questions| - 1 then Some(s.questions[k + 1]) else None;
    s.(selected := None, showResult := false, active := next)
  }

  /** Opening a question from the list. */
  function OpenQuestion(s: Session, q: QuestionDocument): (r: Session)
    ensures r.active == Some(q)
    ensures r.(active := s.active) == s
  {
    s.(active := Some(q))
  }

  /** The back button: closes the question but keeps the selection and the
      shown result as they are. */
  function BackToList(s: Session): (r: Session)
    ensures r.active.None?
    ensures r.(active := s.active) == s
  {
    s.(active := None)
  }

  /** A filter pill: selecting the chosen value again clears it. */
  function Toggle<T(==)>(current: Option<T>, v: T): (r: Option<T>)
    ensures r == Some(v) <==> current != Some(v)
    ensures r.Some? ==> r.value == v
  {
    if current == Some(v) then None else Some(v)
  }

  // ---------------------------------------------------------------------
  // Options

  /** One answer option shown on the question card. */
  datatype AnswerOption = AnswerOption(key: string, value: string)

  /** The option field stored under a key "A" to "E". */
  function OptionField(q: QuestionDocument, key: string): Option<string> {
    if key == "A" then q.optionA
    else if key == "B" then q.optionB
    else if key == "C" then q.optionC
    else if key == "D" then q.optionD
    else if key == "E" then q.optionE
    else None
  }

  function KeyRank(key: string): int {
    if key == "A" then 0
    else if key == "B" then 1
    else if key == "C" then 2
    else if key == "D" then 3
    else if key == "E" then 4
    else 5
  }

  function PushOption(opts: seq<AnswerOption>, key: string, field: Option<string>): (r: seq<AnswerOption>)
    ensures TextSet(field) ==> r == opts + [AnswerOption(key, field.value)]
    ensures !TextSet(field) ==> r == opts
  {
    if TextSet(field) then opts + [AnswerOption(key, field.value)] else opts
  }

  /** Every listed option is a non-empty field stored under its key. */
  predicate OptionsSound(q: QuestionDocument, opts: seq<AnswerOption>) {
    forall i :: 0 <= i < |opts| ==> opts[i].value != "" && OptionField(q, opts[i].key) == Some(opts[i].value)
  }

  /** Options come in key order A to E. */
  predicate OptionsOrdered(opts: seq<AnswerOption>) {
    forall i, j :: 0 <= i < j < |opts| ==> KeyRank(opts[i].key) < KeyRank(opts[j].key)
  }

  /** Every non-empty option field is listed. */
  ghost predicate OptionsComplete(q: QuestionDocument, opts: seq<AnswerOption>) {
    forall key :: TextSet(OptionField(q, key)) ==> exists i :: 0 <= i < |opts| && opts[i].key == key
  }

  /** `getOptions`: the listed options are exactly the non-empty option
      fields, each with its own text, in key order A to E; so there are at
      most five and no key appears twice. */
  function GetOptions(q: QuestionDocument): (opts: seq<AnswerOption>)
    ensures OptionsSound(q, opts)
    ensures OptionsComplete(q, opts)
    ensures OptionsOrdered(opts)
    ensures forall i, j :: 0 <= i < j < |opts| ==> opts[i].key != opts[j].key
    ensures |opts| <= 5
  {
    var a := PushOption([], "A", q.optionA);
    var b := PushOption(a, "B", q.optionB);
    var c := PushOption(b, "C", q.optionC);
    var d := PushOption(c, "D", q.optionD);
    var opts := PushOption(d, "E", q.optionE);
    PushKeepsOptionsSoundOrdered(q, [], "A", q.optionA);
    PushKeepsOptionsSoundOrdered(q, a, "B", q.optionB);
    PushKeepsOptionsSoundOrdered(q, b, "C", q.optionC);
    PushKeepsOptionsSoundOrdered(q, c, "D", q.optionD);
    PushKeepsOptionsSoundOrdered(q, d, "E", q.optionE);
    PushedOptionsComplete(q, a, b, c, d, opts);
    opts
  }

  lemma PushKeepsOptionsSoundOrdered(q: QuestionDocument, opts: seq<AnswerOption>, key: string, field: Option<string>)
    requires OptionsSound(q, opts) && OptionsOrdered(opts)
    requires forall i :: 0 <= i < |opts| ==> KeyRank(opts[i].key) < KeyRank(key)
    requires OptionField(q, key) == field
    ensures OptionsSound(q, PushOption(opts, key, field))
    ensures OptionsOrdered(PushOption(opts, key, field))
    ensures |PushOption(opts, key, field)| <= |opts| + 1
    ensures forall i :: 0 <= i < |PushOption(opts, key, field)| ==>
      KeyRank(PushOption(opts, key, field)[i].key) <= KeyRank(key)
  {
  }

  /** Each non-empty option sits just after the options pushed before it. */
  lemma PushedOptionsComplete(q: QuestionDocument, a: seq<AnswerOption>, b: seq<AnswerOption>,
                              c: seq<AnswerOption>, d: seq<AnswerOption>, opts: seq<AnswerOption>)
    requires a == PushOption([], "A", q.optionA)
    requires b == PushOption(a, "B", q.optionB)
    requires c == PushOption(b, "C", q.optionC)
    requires d == PushOption(c, "D", q.optionD)
    requires opts == PushOption(d, "E", q.optionE)
    ensures OptionsComplete(q, opts)
  {
    forall key | TextSet(OptionField(q, key))
      ensures exists i :: 0 <= i < |opts| && opts[i].key == key
    {
      if key == "A" {
        assert opts[0].key == key;
      } else if key == "B" {
        assert opts[|a|].key == key;
      } else if key == "C" {
        assert opts[|b|].key == key;
      } else if key == "D" {
        assert opts[|c|].key == key;
      } else {
        assert opts[|d|].key == key;
      }
    }
  }

  // ---------------------------------------------------------------------
  // Searching from the page

  const PageLimit := 20

  /** The filters the page passes: unset or falsy selections become absent,
      the page size is 20, and no language flag is passed. */
  function PageFilters(s: Session): (f: QuestionFilters)
    ensures f.limit == Some(PageLimit) && f.langFilter.None?
    ensures NumberSet(f.grade) <==> NumberSet(s.grade)
    ensures NumberSet(s.grade) ==> f.grade == s.grade
    ensures TextSet(f.subjectCode) <==> TextSet(s.subject)
    ensures TextSet(s.subject) ==> f.subjectCode == s.subject
    ensures TextSet(f.difficulty) <==> TextSet(s.difficulty)
    ensures TextSet(s.difficulty) ==> f.difficulty == s.difficulty
    ensures !NumberSet(s.grade) ==> f.grade.None?
    ensures !TextSet(s.subject) ==> f.subjectCode.None?
    ensures !TextSet(s.difficulty) ==> f.difficulty.None?
  {
    QuestionFilters(
      if NumberSet(s.grade) then s.grade else None,
      if TextSet(s.subject) then s.subject else None,
      if TextSet(s.difficulty) then s.difficulty else None,
      Some(PageLimit),
      None)
  }

  /** The page's search request asks for 20 questions, never filters on
      language, and has no filter parameter when nothing is selected. */
  lemma PageSearchRequest(s: Session)
    ensures BuildQuestionParams(s.query, PageFilters(s)).perPage == PageLimit
    ensures forall i :: 0 <= i < |QuestionClauses(PageFilters(s))| ==>
      QuestionClauses(PageFilters(s))[i].field != "lang"
    ensures s.grade.None? && s.subject.None? && s.difficulty.None? ==>
      BuildQuestionParams(s.query, PageFilters(s)).filterBy.None?
  {
  }

  /** `handleSearch`: with the backend disabled nothing happens and no request
      is made; otherwise the list becomes the search's documents, empty on
      failure. */
  function HandleSearch(cfg: Config, s: Session, backend: Backend<QuestionDocument>): (r: Session)
    ensures !IsTypesenseEnabled(cfg) ==> r == s
    ensures IsTypesenseEnabled(cfg) ==>
      var resp := backend(BuildQuestionParams(s.query, PageFilters(s)));
      && (resp.Err? ==> r.questions == [])
      && (resp.Ok? ==> r.questions == Documents(resp.value.hits.GetOr([])))
    ensures r.(questions := s.questions) == s
  {
    if !IsTypesenseEnabled(cfg) then s
    else s.(questions := SearchQuestions(s.query, PageFilters(s), backend, 0).documents)
  }

  // ---------------------------------------------------------------------
  // The session as a state machine

  datatype Event =
    | Select(answer: string)
    | Check
    | Next
    | Open(question: QuestionDocument)
    | Back
    | ToggleGrade(grade: int)
    | ToggleSubject(code: string)
    | ToggleDifficulty(level: string)
    | EditQuery(text: string)
    | Search(backend: Backend<QuestionDocument>)

  /** One page event. Only a check changes the score, and only a search
      replaces the question list; every event keeps the invariant and never
      lowers a counter. */
  function Step(cfg: Config, s: Session, e: Event): (r: Session)
    ensures Invariant(s) ==> Invariant(r)
    ensures StatsGrew(s.stats, r.stats)
    ensures !e.Check? ==> r.stats == s.stats
    ensures !e.Search? ==> r.questions == s.questions
  {
    match e
    case Select(a) => SelectAnswer(s, a)
    case Check => CheckAnswer(s)
    case Next => NextQuestion(s)
    case Open(q) => OpenQuestion(s, q)
    case Back => BackToList(s)
    case ToggleGrade(g) => s.(grade := Toggle(s.grade, g))
    case ToggleSubject(c) => s.(subject := Toggle(s.subject, c))
    case ToggleDifficulty(d) => s.(difficulty := Toggle(s.difficulty, d))
    case EditQuery(t) => s.(query := t)
    case Search(b) => HandleSearch(cfg, s, b)
  }

  function Run(cfg: Config, s: Session, events: seq<Event>): Session
    decreases |events|
  {
    if |events| == 0 then s else Run(cfg, Step(cfg, s, events[0]), events[1..])
  }

  /** What every reachable session satisfies: consistent score bounds, and a
      shown result always has a chosen answer behind it. */
  predicate Invariant(s: Session) {
    ValidStats(s.stats) && (s.showResult ==> AnswerChosen(s.selected))
  }

  /** The counters only ever grow. */
  predicate StatsGrew(before: Stats, after: Stats) {
    before.correct <= after.correct && before.total <= after.total && before.xp <= after.xp
  }

  /** Any sequence of page events keeps the invariant: correct never exceeds
      total, the streak never exceeds correct, XP stays between 5 and 15 per
      correct answer; and no counter ever decreases. */
  lemma {:induction false} RunPreservesInvariant(cfg: Config, s: Session, events: seq<Event>)
    requires Invariant(s)
    ensures Invariant(Run(cfg, s, events))
    ensures StatsGrew(s.stats, Run(cfg, s, events).stats)
    decreases |events|
  {
    if |events| > 0 {
      RunPreservesInvariant(cfg, Step(cfg, s, events[0]), events[1..]);
    }
  }

  /** The page starts with zero statistics, no question open and no result
      shown. */
  lemma InitialSessionValid()
    ensures Invariant(InitialSession)
    ensures InitialSession.stats == Stats(0, 0, 0, 0) && InitialSession.active.None? && !InitialSession.showResult
  {
  }

  /** Every session the page can reach from its start satisfies the invariant. */
  lemma ReachableSessionsValid(cfg: Config, events: seq<Event>)
    ensures Invariant(Run(cfg, InitialSession, events))
    ensures 0 <= Run(cfg, InitialSession, events).stats.correct <= Run(cfg, InitialSession, events).stats.total
  {
    InitialSessionValid();
    RunPreservesInvariant(cfg, InitialSession, events);
  }

  // ---------------------------------------------------------------------
  // Walking the list and the displayed badge

  predicate DistinctIds(qs: seq<QuestionDocument>) {
    forall i, j :: 0 <= i < j < |qs| ==> qs[i].id != qs[j].id
  }

  /** With distinct ids, "next" from the i-th question opens the (i+1)-th,
      and closes the question after the last. */
  lemma NextFollowsListOrder(s: Session, i: int)
    requires DistinctIds(s.questions)
    requires 0 <= i < |s.questions| && s.active == Some(s.questions[i])
    ensures NextQuestion(s).active == (if i + 1 < |s.questions| then Some(s.questions[i + 1]) else None)
  {
  }

  /** The XP badge the result card shows when the chosen answer is the
      correct one. */
  function DisplayedXp(s: Session): (r: Option<int>)
    ensures r.Some? <==> s.active.Some? && s.showResult && IsCorrect(s)
    ensures r.Some? ==> r.value == XpForDifficulty(s.active.value.difficulty) && BaseXp <= r.value <= HardXp
  {
    match s.active
    case Some(q) =>
      if s.showResult && s.selected == Some(q.correctAnswer) then Some(XpForDifficulty(q.difficulty)) else None
    case None => None
  }

  /** Right after a check, the badge shows exactly the XP just earned, and
      none is shown when nothing was earned. */
  lemma BadgeShowsXpGained(s: Session)
    requires s.active.Some? && AnswerChosen(s.selected)
    ensures CheckAnswer(s).stats.xp - s.stats.xp == DisplayedXp(CheckAnswer(s)).GetOr(0)
    ensures DisplayedXp(CheckAnswer(s)).Some? <==> IsCorrect(s)
  {
  }

  /** "legendary" is scored like "easy": 5 XP, below "hard". */
  lemma LegendaryEarnsBaseXp()
    ensures XpForDifficulty("legendary") == BaseXp < XpForDifficulty("hard")
  {
  }

  /** The check handler itself does not test whether a result is already
      shown; only the card's layout, which hides the check button then, keeps
      an answer from being scored twice. */
  lemma CheckHandlerScoresAgain(s: Session)
    requires s.active.Some? && AnswerChosen(s.selected)
    ensures CheckAnswer(CheckAnswer(s)).stats.total == s.stats.total + 2
  {
  }

  /** After "back" while a result is shown, a newly opened question starts in
      the shown-result state and ignores answer selection until "next". */
  lemma BackKeepsShownResult(s: Session, q: QuestionDocument, answer: string)
    requires s.showResult
    ensures OpenQuestion(BackToList(s), q).showResult
    ensures SelectAnswer(OpenQuestion(BackToList(s), q), answer).selected == s.selected
  {
  }
}
