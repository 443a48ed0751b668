# Résumé skill matcher and job aggregator — a verified model

This project models the decision logic of a small résumé-to-jobs web app in Dafny:

- the **skill matcher** (`extract_skills`). It lower-cases the résumé text and reports each entry of a fixed
  50-entry skill vocabulary whose lower-case form occurs as a whole word, in the sense of the regex `\b<skill>\b`;
- the three **provider adapters**:
  - Adzuna searches for the first skill only, and returns nothing without skills;
  - Remotive fetches its whole feed and keeps the jobs whose title and description, joined by a space, contain a
    skill (so a multi-word skill can match across the join);
  - Jooble posts the first three skills, space-joined, as keywords;
- the **aggregator** (`fetch_all_jobs`). It merges the adapters' answers into one map with a key for every provider;
- the **job-card normalisation** (`display_job_card`). It picks a card's title, company, location and apply link
  out of records whose shapes differ from one provider to the next.

Everything is pure: functions over strings, sequences and maps, with lemmas about them.

The network is not modelled, so it is an input:
- an outcome `Option<seq<Job>>` stands for one call. `None` is any failure (error, timeout, body that does not
  decode), and each adapter turns it into an empty list;
- Adzuna and Jooble build a request, so they receive the network as a function from their request to its outcome;
- Remotive's request is fixed, so it receives the outcome directly.

Since an adapter's result is a function of what it is given, "sends no request" shows up as "the result does not
depend on the network".

A job record is a map from keys to `Value = Str(s) | Rec(fields) | Null`:
- `Rec` is a nested record;
- `Null` is JSON `null`;
- a missing key is simply absent from the map.

Modules: `Wrappers` (Option), `Text` (ASCII lower-casing, `\w`, `\b`, substring search, `" ".join` and
`split(" ")`), `Json` (values and Python truthiness), `Skills`, `Providers`, `JobCard`.

Three behaviours of the code are easy to miss, and the model keeps them:
- Only Adzuna guards against an empty skill list. Remotive still fetches its feed; its filter then keeps nothing.
  Jooble still posts a request with an empty keyword string (`Providers.NoSkills`). No request is sent for an
  empty résumé only because the page layer checks `if skills:` first (app.py:224), and that layer is outside this
  model.
- A company or location field that holds JSON `null` is returned as `null`, not replaced by the placeholder.
  `job.get(key, "Company")` only substitutes for a missing key (`JobCard.DisplayName`).
- `extract_skills` returns a list made from a set. The model returns the set.

## Model

| member | source | states |
|---|---|---|
| `Text.LowerChar` | app.py:42 | an upper-case letter becomes its own lower-case letter (same offset from `a` as from `A`); every other character is kept; word characters stay word characters |
| `Text.Lower` | app.py:42 | `str.lower`: each character lower-cased by `LowerChar`, position by position |
| `Text.LowerIdempotent` | app.py:42 | lower-casing twice is lower-casing once |
| `Text.LowerConcat` | app.py:42 | lower-casing distributes over concatenation |
| `Text.IsWordChar` | app.py:44 | the regex class `\w`, narrowed to ASCII: a letter, a digit or `_` |
| `Text.Boundary` | app.py:44 | the regex `\b` at a position: exactly one of the characters before and at it is a word character (a text end counts as a non-word character) |
| `Text.MatchAt` | app.py:44 | the pattern occurs at the position, and, for the whole-word search, `\b` holds at both of its ends; the plain form is the match of Python's `in` (app.py:72) |
| `Text.Find` | app.py:44 | the search returns the leftmost match at or after its start, and returns none only when no match exists there |
| `Text.FindFound` | app.py:44 | a search from the start succeeds exactly when some match exists |
| `Text.WholeWordMatch` | app.py:44 | for a pattern that starts and ends with a word character, `\b p \b` at i means: i is 0 or follows a non-word character, and the match ends the text or precedes a non-word character |
| `Text.FindWholeWord` | app.py:44 | for such a pattern, `re.search` succeeds exactly when the pattern occurs somewhere as a whole word |
| `Text.Join` | app.py:82 | `" ".join`: the words in order, one space between neighbours, empty for no words (its inverse is `SplitJoin`) |
| `Text.SplitJoin` | app.py:82 | splitting the space-joined words on spaces gives back the words, when no word contains a space |
| `Skills.VocabularyWordDelimited` | app.py:22-31 | every entry of the vocabulary `CommonSkills` (the 50 names, in listing order, one constant per source line) starts and ends with a word character |
| `Skills.MentionsWord` | app.py:44 | the `re.search(r'\b' + skill.lower() + r'\b', text)` test: a whole-word search for the lower-cased skill (`FindWholeWord` characterises it) |
| `Skills.SkillsIn` | app.py:40-44 | over a given vocabulary: every reported skill is a vocabulary entry; a missing or empty text yields no skills |
| `Skills.ExtractSkills` | app.py:40-44 | every reported skill is an entry of the fixed vocabulary; a missing or empty text yields no skills |
| `Skills.ReportedIn` | app.py:42-44 | a skill that starts and ends with a word character is reported iff it is in the vocabulary and its lower-case form occurs in the lower-cased text as a whole word |
| `Skills.SkillReported` | app.py:40-44 | a skill is reported iff it is in the fixed vocabulary and its lower-case form occurs in the lower-cased text with a non-word character or a text end on each side |
| `Skills.CaseInsensitive` | app.py:42-44 | texts that are equal once lower-cased yield the same skills |
| `Skills.LowerFirstChangesNothing` | app.py:42-44 | lower-casing the résumé beforehand does not change the result |
| `Skills.InsideLongerWordNotReported` | app.py:44 | a skill whose every occurrence is preceded or followed by a word character, i.e. sits inside a longer word, is not reported |
| `Skills.ReportedCharOccurs` | app.py:42-44 | each character of a reported skill, lower-cased, occurs in the lower-cased text |
| `Skills.ReportedPairOccurs` | app.py:42-44 | two adjacent characters of a reported skill, lower-cased, are adjacent somewhere in the lower-cased text |
| `Skills.StandaloneSkillReported` | app.py:43-44 | a vocabulary skill written in any letter case between non-word characters (or text ends) is reported |
| `Skills.JavaIsNotJavaScript` | app.py:43-44 | the text "JavaScript" reports JavaScript and not Java |
| `Skills.SamplePython` | app.py:43-44 | "Experienced in Python, React and AWS development" reports Python |
| `Skills.SampleReact` | app.py:43-44 | the same text reports React |
| `Skills.SampleAws` | app.py:43-44 | the same text reports AWS |
| `Skills.SampleSkills` | app.py:40-44 | the same text reports exactly Python, React and AWS: none of the other 47 entries |
| `Providers.AdzunaRequest` | app.py:49-59 | a search is made exactly when there are skills; it asks for the first skill, sorted by relevance, ten per page |
| `Providers.JobsOf` | app.py:63-64 | an adapter's bare `except:`: a failed call yields no jobs, a successful one its decoded job list (`except:` also at app.py:74-75 and app.py:86-87) |
| `Providers.FetchFromAdzuna` | app.py:48-64 | the result has exactly the key Adzuna; without skills it is empty whatever the network does; otherwise it is the outcome of the relevance-sorted, ten-per-page search for the first skill, or empty on failure |
| `Providers.Haystack` | app.py:72 | the f-string `f"{title} {description}"`, a missing field reading as empty |
| `Providers.SkillAcrossFields` | app.py:71-73 | a job titled "Machine" and described "Learning" is kept for the skill "Machine Learning": the skill matches across the joining space |
| `Providers.FindSubstring` | app.py:72 | Python's substring test `in` succeeds exactly when the pattern occurs in the text |
| `Providers.AnySkillIn` | app.py:71-73 | `any(...)` holds iff some skill, lower-cased, occurs in the lower-cased haystack |
| `Providers.Wanted` | app.py:71-73 | the `any(skill.lower() in haystack.lower() ...)` test for one job (`AnySkillIn` characterises it) |
| `Providers.FilterJobs` | app.py:71-73 | the kept jobs are a subsequence of the feed, in feed order; each wanted job is kept as often as the feed lists it, and no unwanted job is kept |
| `Providers.FilterJobsMembers` | app.py:71-73 | a job is kept iff the feed has it and it is wanted |
| `Providers.NoSkillsNothingWanted` | app.py:71-73 | with no skills the filter keeps nothing |
| `Providers.AllWantedKeepsAll` | app.py:71-73 | when every job is wanted the filter returns the feed unchanged |
| `Providers.FetchFromRemotive` | app.py:67-75 | the result has exactly the key Remotive and holds a subsequence of the feed: each wanted job as often as the feed lists it, no unwanted job; a failed fetch or an empty skill list gives none |
| `Providers.JoobleRequest` | app.py:82 | the posted body: the first (at most three) skills space-joined as keywords, location "India" (`JoobleKeywords` states its properties) |
| `Providers.JoobleKeywords` | app.py:82 | the location is "India"; without skills the keywords are empty; otherwise, when none of the first (at most three) skills contains a space, the keywords split back into exactly those skills |
| `Providers.MultiWordSkillSplits` | app.py:82 | the multi-word skill "Machine Learning" splits back into two words, so the keyword string cannot always be split back into skills |
| `Providers.FetchFromJooble` | app.py:78-87 | the result has exactly the key Jooble and holds the answer to the body of the first (at most three) skills, space-joined, in India; a failed call gives no jobs; without skills the request is still sent, with empty keywords |
| `Providers.Lookup` | app.py:92 | `jobs.get(api, [])`: a provider's entry, or no jobs when the key is missing |
| `Providers.Merge` | app.py:92-95 | the merged map's keys are exactly the names that `zip` pairs with a result |
| `Providers.MergeAt` | app.py:92-95 | with distinct names, each name maps to the entry under that name in its own provider's result |
| `Providers.FetchAllJobs` | app.py:90-95 | the keys are exactly Adzuna, Remotive and Jooble; each holds that provider's own answer |
| `Providers.AllProvidersFail` | app.py:90-95 | when every call fails the result is `{Adzuna: [], Remotive: [], Jooble: []}` |
| `Providers.NoSkills` | app.py:49 | without skills Adzuna and Remotive answer nothing whatever the network does, while Jooble answers what its empty-keyword request returns |
| `Json.Get` | app.py:105 | `job.get(key)`: the value under the key, `None` when it is missing |
| `Json.GetOr` | app.py:100-104 | `job.get(key, default)`: the value under the key, the default when it is missing |
| `Json.Truthy` | app.py:105 | Python truthiness: a non-empty string or record is true; an empty one and `None` are false |
| `Json.Or` | app.py:105 | Python `a or b`: `a` when truthy, otherwise `b`; the result is truthy exactly when `a` or `b` is |
| `Json.Render` | app.py:72 | the text an f-string gives a value: the string itself, `None` for null (a nested record: see Left out) |
| `JobCard.DisplayName` | app.py:101-104 | a nested record gives its display name or the placeholder; any other value is kept as is; a missing field gives the placeholder |
| `JobCard.DisplayNameIsText` | app.py:101-104 | a plain-text field, or a record whose display name is text or missing, normalises to text |
| `JobCard.AcmeEitherWay` | app.py:101-102 | `{"display_name": "Acme"}` and `"Acme"` both normalise to "Acme" |
| `JobCard.FirstTruthy` | app.py:105 | the result is the first truthy value, or the default when no value is truthy |
| `JobCard.ApplyUrl` | app.py:105 | the apply link is the first truthy of `redirect_url`, `url` and `link`, else "#"; it is never empty |
| `JobCard.ApplyUrlFallbacks` | app.py:105 | a link under `link` alone is used; with only falsy links the card points to "#" |
| `JobCard.NormalizeJob` | app.py:99-105 | the title is the job's title or "Job Title"; company and location are normalised; the apply link is the first truthy of `redirect_url`, `url`, `link`, else "#", and is non-empty |

## Left out

- `extract_text_from_pdf` (app.py:35-37): it only wraps the PDF library.
- The HTTP calls, their timeouts and JSON decoding: each becomes an input outcome.
  - The bare `except:` becomes `None`, and the adapter maps it to an empty list.
  - The `.get("results", [])` / `.get("jobs", [])` default on the body counts as part of the outcome.
- `ThreadPoolExecutor` (app.py:91): its only observable effect is an order-preserving map, modelled sequentially.
- `urllib.parse.quote` on the Adzuna query (app.py:56): the model sends the skill unencoded.
- The API credentials, the endpoint URLs and the background image: configuration, not logic.
- The page layer: `main`, the card's HTML and CSS, and the first-ten-jobs slice (app.py:107-249).
- Unicode: lower-casing and `\w` are ASCII only. Python's Unicode `str.lower` and Unicode word characters are not
  modelled.
- JSON numbers, booleans and arrays as field values: a value is a string, a record or `null`.
- Render: the Remotive haystack reads a nested-record title or description as empty text. Python would insert the
  record's `repr`; the model leaves that text out.
- That the vocabulary holds no duplicate entry is not proved. The result is a set, so it has no duplicates either way.
- Who consumes the result of `extract_skills`: the adapters take the skills as any sequence, since the
  order of `list(set(...))` is unspecified.
