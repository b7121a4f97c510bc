# Questly practice search and session logic, in Dafny

Questly is an education web application. Its practice page searches a hosted
Typesense collection of questions and lets a student answer them, scoring XP
and a streak. Its leaderboard page queries the same engine for a ranked list
of students. The client also offers a global-counters query
(`getGlobalStats`) that no page calls; the landing page shows constant
counters instead. This project models the two pieces of the
application that hold sequential logic. It proves properties about both.

1. **The browser search client** (`src/lib/typesense/browser-client.ts`),
   module `BrowserClient`.
   - It checks whether the engine is configured.
   - It turns optional filter records into request parameters. The filter
     parameter is a list of `field:=value` clauses in a fixed order, joined
     by `" && "`. It also fills in the defaults for `q`, `per_page` and
     `sort_by`.
   - It reduces the engine's `{hits, found}` answer into a typed result.
   - It sums `today_questions` over a page of leaderboard hits.
   - It turns every failure into a zeroed result.

   The engine is an abstract input. It is a function from request
   parameters to either a response or an error, so no matching, ranking or
   sorting is modelled. The hit order is passed through unchanged.
2. **The practice session** (`src/app/questions/page.tsx`), module
   `PracticeSession`. The page's state setters become pure transition
   functions over one `Session` record. The record holds the active
   question, the selected answer, whether the result is shown, and the
   statistics `{correct, total, xp, streak}`. The module also models option
   listing, the page's filter pills, and how the page maps its selections to
   a search.

Supporting modules:

- `Wrappers` holds `Option` and `Result`.
- `Decimal` renders a whole number as decimal digits, as a template literal
  does below 10^21, and reads it back.
- `FilterExpr` holds filter clauses, joins them, and parses an expression
  back into its clauses. That parser is the partner for the round-trip
  proofs.

JavaScript truthiness is written out explicitly:

- A number filter is active when it is present and non-zero (`NumberSet`).
- A string filter is active when it is present and non-empty (`TextSet`).
- A flag is active when it is present and true (`FlagSet`).

So `grade = 0`, an empty subject and `limit = 0` behave as absent. An omitted
`filters` argument behaves like a record with every field absent
(`NoQuestionFilters`, `NoLeaderboardFilters`, `OmittedFiltersRequest`).

Four behaviours of the source shape the model:

- **Global counters.** The three count requests are awaited in one
  `Promise.all` inside one `try`, so a failure of any one of them zeroes all
  three counters (`GetGlobalStats`).
- **Sort order.** Each search sends a single-key `sort_by`
  (`created_at:desc`, `total_points:desc`) and keeps the engine's hit order.
  No tie-break key is sent, so none is modelled.
- **Page size.** `filters?.limit || 20` (and `|| 50` for the leaderboard)
  replaces only a falsy limit, absent or 0, with the default. A negative
  limit is passed through as `per_page`.
- **Language filter.** A comment in the practice page says English-only
  filtering is on by default, but the page passes no `langFilter`. So no
  `lang` clause is ever produced (`PageSearchRequest`).

Three behaviours of the page are modelled as written and stated as lemmas:

- The check-answer handler has no guard against a result that is already
  shown. Only the card layout, which hides the check button, prevents
  double scoring (`CheckHandlerScoresAgain`).
- The back button clears only the active question. A question opened
  afterwards starts with the previous result shown, and it ignores answer
  selection until "next" (`BackKeepsShownResult`).
- `"legendary"` earns the same 5 XP as `"easy"` (`LegendaryEarnsBaseXp`).

## Model

| member | source | states |
|---|---|---|
| BrowserClient.IsTypesenseEnabled | src/lib/typesense/browser-client.ts:32-34 | search is enabled exactly when both the host and the API key are present and non-empty |
| BrowserClient.QuestionClauses | src/lib/typesense/browser-client.ts:81-85 | each question clause comes from a set filter and carries that filter's value; every set filter has a clause; clauses are ordered lang, grade, subject_code, difficulty; the list is empty iff no filter is set |
| FilterExpr.FilterBy | src/lib/typesense/browser-client.ts:87 | the filter parameter is absent exactly when there are no clauses |
| BrowserClient.BuildQuestionParams | src/lib/typesense/browser-client.ts:87-96 | an empty query becomes `*`; `per_page` is a truthy limit and otherwise 20, so it is never 0; `sort_by` is always the single key `created_at:desc`; `query_by` is the four text fields; `filter_by` is absent iff no filter is set |
| BrowserClient.QuestionFilterReadsBack | src/lib/typesense/browser-client.ts:81-96 | the `filter_by` string, split at `" && "` and at `:=`, gives back exactly the active clauses in order, provided no value contains `&` |
| BrowserClient.ReduceSearch | src/lib/typesense/browser-client.ts:103-114 | on failure the result is empty with total 0 and duration 0; on success it holds the hits' documents in order with the same length, an empty list when `hits` is missing, and `found` or 0 as the total |
| BrowserClient.Documents | src/lib/typesense/browser-client.ts:103 | the mapped list has the hits' length and holds the i-th hit's document at position i |
| BrowserClient.SearchQuestions | src/lib/typesense/browser-client.ts:67-115 | a question search sends the built request and returns that response's documents and total, or an empty result when the request fails |
| BrowserClient.LeaderboardClauses | src/lib/typesense/browser-client.ts:181-183 | the leaderboard clauses are the set country and city filters with their values, country first; every set filter has a clause; the list is empty iff neither filter is set |
| BrowserClient.BuildLeaderboardParams | src/lib/typesense/browser-client.ts:185-194 | the leaderboard request matches everything on `full_name`; `per_page` is a truthy limit and otherwise 50; `sort_by` is `total_points:desc`; `filter_by` is absent iff neither filter is set |
| BrowserClient.OmittedFiltersRequest | src/lib/typesense/browser-client.ts:81-190 | with the filters argument omitted, neither the question nor the leaderboard request has a filter parameter, and their page sizes are the defaults 20 and 50 |
| BrowserClient.LeaderboardFilterReadsBack | src/lib/typesense/browser-client.ts:181-194 | the leaderboard `filter_by` string parses back to exactly its active clauses in order, provided neither value contains `&` |
| BrowserClient.GetGlobalLeaderboard | src/lib/typesense/browser-client.ts:170-213 | the leaderboard returns the response's entries in the engine's order with `found` or 0 as the total, and an empty result on failure |
| BrowserClient.TodayParams | src/lib/typesense/browser-client.ts:142-148 | the daily request has a page cap of 250, projects to `today_questions`, and always carries a filter |
| BrowserClient.TodayFilterReadsBack | src/lib/typesense/browser-client.ts:145 | the daily filter parses back to exactly the one clause `today_date:=<date>`, provided the date contains no `&` (an ISO date never does) |
| BrowserClient.GetGlobalStats | src/lib/typesense/browser-client.ts:118-167 | if any of the three requests fails, all three counters and the duration are zero; otherwise the counters are the two `found` values (or 0) and the sum of `today_questions` over the daily hits, computed by a left-to-right loop |
| BrowserClient.TodayValue | src/lib/typesense/browser-client.ts:152 | a hit adds its truthy `today_questions`; a missing document, a missing count or 0 adds 0 |
| BrowserClient.TodaySum | src/lib/typesense/browser-client.ts:151-153 | the daily total of no hits is 0, and it is non-negative when no hit contributes a negative count |
| BrowserClient.TodaySumBound | src/lib/typesense/browser-client.ts:151-153 | with every count in [0, m], the daily total is at most m times the number of hits |
| BrowserClient.TodaySumAppend | src/lib/typesense/browser-client.ts:151-153 | the daily total of two concatenated pages is the sum of their totals |
| BrowserClient.TodayTotalCapped | src/lib/typesense/browser-client.ts:142-153 | with every count between 0 and m, an engine that honours the 250-hit page cap yields a daily total between 0 and 250·m |
| FilterExpr.FilterByRoundTrip | src/lib/typesense/browser-client.ts:81-87 | a filter parameter is absent for no clauses; otherwise it parses back to its clauses in order, provided no field name contains `:` or `&` and no value contains `&` |
| FilterExpr.SplitJoin | src/lib/typesense/browser-client.ts:87 | splitting `parts.join(" && ")` at the separator gives back the parts, provided there is at least one part and no part contains `&` |
| Decimal.IntRoundTrip | src/lib/typesense/browser-client.ts:83 | a grade rendered into its clause reads back as the same integer |
| Decimal.IntToStringInjective | src/lib/typesense/browser-client.ts:83 | different grades give different clause values |
| PracticeSession.XpForDifficulty | src/app/questions/page.tsx:104-105 | a correct answer earns 15 XP exactly for `hard`, 10 exactly for `medium`, and exactly 5 for anything else |
| PracticeSession.Score | src/app/questions/page.tsx:107-112 | a checked answer adds exactly 1 to total; a correct one adds 1 to correct and to the streak and its difficulty's XP to xp; a wrong one resets the streak and leaves correct and xp unchanged; the score bounds are preserved |
| PracticeSession.SelectAnswer | src/app/questions/page.tsx:94-97 | a selection is ignored while a result is shown or no question is open; otherwise only the selection changes |
| PracticeSession.CheckAnswer | src/app/questions/page.tsx:100-113 | without an open question or a non-empty selection nothing changes; otherwise the result is shown and the statistics are scored; xp never decreases; nothing else changes |
| PracticeSession.FindIndexById | src/app/questions/page.tsx:120 | the result is -1 iff no question has the id, and otherwise the first position holding it |
| PracticeSession.NextQuestion | src/app/questions/page.tsx:116-126 | the selection and the result are cleared; the question after the first one with the active id opens, or none after the last; an active question that is not in the list opens the first question |
| PracticeSession.NextFollowsListOrder | src/app/questions/page.tsx:116-126 | with distinct ids, "next" from the i-th question opens the (i+1)-th, and opens none after the last |
| PracticeSession.OpenQuestion | src/app/questions/page.tsx:453 | clicking a card opens that question and changes nothing else |
| PracticeSession.BackToList | src/app/questions/page.tsx:192 | the back button closes the question and changes nothing else |
| PracticeSession.Toggle | src/app/questions/page.tsx:367-406 | a filter pill selects its value unless that value is already selected, in which case it clears the selection |
| PracticeSession.GetOptions | src/app/questions/page.tsx:129-137 | the options listed are exactly the non-empty option fields, each with its own text, in key order A to E: at most five, with no key twice |
| PracticeSession.PageFilters | src/app/questions/page.tsx:74-80 | unset or falsy page selections become absent filters (no value at all); set ones pass through; the limit is 20; no language flag is passed |
| PracticeSession.PageSearchRequest | src/app/questions/page.tsx:74-80 | the page's request asks for 20 questions, never has a `lang` clause, and has no filter parameter when nothing is selected |
| PracticeSession.HandleSearch | src/app/questions/page.tsx:66-86 | when the engine is not enabled the session is unchanged and the engine's answer is never consulted; otherwise the list becomes the response's documents, or empty on failure; nothing else changes |
| PracticeSession.Step | src/app/questions/page.tsx:66-126 | one page event keeps the invariant and never lowers a counter; only checking an answer changes the score, and only a search replaces the question list |
| PracticeSession.RunPreservesInvariant | src/app/questions/page.tsx:93-126 | over any sequence of page events: 0 ≤ streak ≤ correct ≤ total; 5·correct ≤ xp ≤ 15·correct; a shown result always has a chosen answer; correct, total and xp never decrease |
| PracticeSession.ReachableSessionsValid | src/app/questions/page.tsx:63 | every session reachable from the initial state satisfies the invariant, so correct never exceeds total |
| PracticeSession.BadgeShowsXpGained | src/app/questions/page.tsx:280-288 | right after a check, the XP badge appears exactly when the answer is correct and shows exactly the XP gained |
| PracticeSession.DisplayedXp | src/app/questions/page.tsx:280-288 | the XP badge is shown exactly when a result is shown for an open question answered correctly, and it shows that difficulty's XP, between 5 and 15 |
| PracticeSession.LegendaryEarnsBaseXp | src/app/questions/page.tsx:105 | `legendary` earns the base 5 XP, which is less than `hard` earns |
| PracticeSession.CheckHandlerScoresAgain | src/app/questions/page.tsx:100-113 | the check handler scores a second time if it is invoked while the result is shown |
| PracticeSession.BackKeepsShownResult | src/app/questions/page.tsx:190-196 | after "back" with a result shown, a newly opened question is in the shown-result state and ignores answer selection |

## Left out

- The Typesense client singleton is not modelled, because it is connection setup and has no logic. This includes its port, protocol and timeout settings (`browser-client.ts:6-23`) and `src/lib/typesense/client.ts`. The network calls are the abstract `Backend` function.
- `duration` is not computed, because it comes from `performance.now()`. It is an `elapsed` parameter. A failure still gives the source's duration of 0.
- The UTC date for the daily counter is not derived, because it comes from the system clock. It is the `today` parameter.
- The accuracy percentage (`Math.round` of a float ratio, page line 170) is not modelled, because it is floating-point display arithmetic.
- The `loading` flag is not modelled, because it is only a spinner. Console logging is not modelled either, because it is output.
- Asynchronous interleaving is not modelled. A search is one atomic `Search` event. In the source, a pill click changes a selection, and an effect then runs the search later. Responses that arrive out of order are not modelled.
- `handleSearch`'s own `catch` block is not modelled, because it is unreachable: `searchQuestions` never throws.
- A null entry inside `hits` is treated as an engine error, because in the source it throws inside the `try` block. Every modelled hit carries a document. In the daily sum the document itself is optional, matching `hit.document?.`.
- Numbers are modelled as integers, because no NaN or fractional grade, limit or count reaches this logic. `success_rate` is kept as an uninterpreted `real`.
- Text matching, relevance, sorting and tie-breaking are not modelled, because the hosted engine does them.
- Document upsert and validation are not modelled, because this code has neither. In particular, `correct_answer` is not required to name a present option.
- Decimal.IntToString: writes every integer as plain digits, while a template literal writes a number of magnitude 10^21 or more in exponent form (`1e+21`), because grades are small whole numbers (5 to 12 on the practice page).
- `MathRenderer`, the authentication context and the login, register and password-reset pages are not modelled. They delegate to foreign renderers or to the auth provider.
- The leaderboard page (`src/app/leaderboard/page.tsx`) is not modelled. It is a thin caller of `getGlobalLeaderboard`, which is modelled. Its own logic is left out: mapping the `'all'` country choice to no country filter, its fixed `limit: 100`, and the demo rows it shows when the engine is disabled.
- `getGlobalStats` is modelled, but no page of the application calls it. The landing page's counters are constants (`src/app/page.tsx:166-181`), so their display is not modelled.
- The landing, dashboard, about, terms and privacy pages and the layout are not modelled, because they are presentation only.
