# Transfer guide: verified model of the decision logic

The application answers "can I send money from provider A to provider B in
currency C?". Three small pieces of decision logic sit behind it, and this
project models each one in Dafny and proves properties about it.

- **The result reconciler** (`IndexPage`). It merges an optional stored
  route with an optional AI insight into one `TransferResult`. The result
  carries a three-valued status (`Yes | No | Maybe`), a blended confidence,
  fee and time overrides, combined notes, a colour token and an affiliate
  link that is given out only under conditions.
  - `Reconcile` is one pure function over
    `Option<TransferRoute> × Option<AIInsight>`.
  - The page's `searchResult`/`isSearching` state is the `SearchPage` class.
  - `handleSearch` is split at its `await` into `StartSearch` and
    `FinishSearch`.
- **The insight normaliser** (`Insights`). The edge function turns the
  generative model's raw reply into an `AIInsight` in one of three ways:
  - a greedy `{…}` JSON candidate, parsed, with JavaScript `||` defaults;
  - a keyword heuristic over the lowercased text;
  - a fixed fallback when the reply could not be obtained.

  `JSON.parse` is a parameter (`JsonParser`, returning `None` for a syntax
  error). The model's reply is a `Result<string, string>`.
- **The search form** (`TransferSearch`):
  - the query state with one setter per field (class `SearchForm`);
  - the validity predicate, the submit guard and the disabled button;
  - the "To" list, which leaves out the chosen sender.

Support modules:
- `Text`: the JavaScript string operations the logic relies on —
  `includes`/`indexOf`, first-occurrence `replace`, `trim`, `substring` and
  an ASCII `toLowerCase`. `indexOf`, `includes` and `replace` are
  specified with the ghost predicates `OccursAt`/`Occurs`. The trims are
  specified with `IsWhitespace`, `AllWhitespace` and `TrimmedAt`.
  `substring` is specified with slices and `toLowerCase` with `LowerChar`.
- `Domain`: the records from `src/types/database.ts`.
- `TransferData`: how the route lookup's reply is read.
- `Wrappers`: `Option` and `Result`.

Numbers:
- Confidence is an `int`. JavaScript's `Math.round(s / 2)` on an integer sum
  `s` is `(s + 1) / 2` with Dafny's floor division, exactly, for every `s`.
- Fees and times are `real`.
- A route's missing confidence is `null`. JavaScript's `+` treats `null`
  as 0, so `null + ai.confidence` is the AI confidence itself.

The form's predicates `IsFormValid` (`src/components/TransferSearch.tsx:28`),
`AllFieldsChosen` (`:23`) and `SubmitEnabled` (`:114`) state the form's
conditions. So do the reconciler's status rules `StatusFor`
(`src/pages/Index.tsx:47-51`) and `AiStatus` (`:79-83`), and the `||`
helpers `OrInt`/`OrReal`/`OrBool`/`OrString`
(`supabase/functions/get-transfer-insights/index.ts:134-139`). Each of these
is stated as a plain definition, and the rows below say what is proved
about them.

## Code over intent

In these places the code behaves differently from what its names and UI
text suggest. The model follows the code:

- **Affiliate link.** The code requires more than a non-empty template. The
  route must be supported, and the lowercased destination name must
  contain `revolut` (`src/pages/Index.tsx:59`).
- **Missing route confidence.** A missing route confidence is not replaced
  by the AI confidence. The `!` in `route.confidence_level! + ai.confidence`
  only silences the type checker. At run time `null` counts as 0, so the
  blended confidence is half the AI confidence, rounded
  (`src/pages/Index.tsx:40-42`). With the fallback insight (40) that is 20,
  and an unsupported route then gets `no` (`:47-51`).
- **Fee and time override.** The AI fee or time replaces the route's only
  when it is truthy. An AI value of `0` keeps the route's value
  (`src/pages/Index.tsx:44-45`).
- **Keyword heuristic.** It counts a reply that says only "unsupported" as
  supported, because `supported` occurs inside it
  (`supabase/functions/get-transfer-insights/index.ts:149`).
- **Sender and receiver.** `handleSearch` checks only that the three fields
  are non-empty. Distinct providers are enforced only by the disabled button
  (`src/components/TransferSearch.tsx:22-28, 114`).

## Model

| member | source | states |
|---|---|---|
| `Text.IndexOf` | supabase/functions/get-transfer-insights/index.ts:148-155 | `indexOf`: a returned position is an occurrence with no earlier one; `None` means the pattern occurs nowhere |
| `Text.IncludesIsOccurs` | supabase/functions/get-transfer-insights/index.ts:149-150 | `includes` holds exactly when the pattern occurs somewhere |
| `Text.ReplaceFirst` | src/pages/Index.tsx:16 | string `replace`: unchanged when the pattern is absent, otherwise only the first occurrence is replaced |
| `Text.Prefix` | supabase/functions/get-transfer-insights/index.ts:157 | `substring(0, n)` is the start of the string, exactly `min(n, |s|)` characters long |
| `Text.TrimStart` | src/pages/Index.tsx:64 | drops exactly a whitespace prefix; the rest does not start with whitespace |
| `Text.TrimEnd` | src/pages/Index.tsx:64 | drops exactly a whitespace suffix; the rest does not end with whitespace |
| `Text.Trim` | src/pages/Index.tsx:64 | `trim()` leaves no whitespace at either end |
| `Text.TrimIsTrimmed` | src/pages/Index.tsx:64 | `trim()` returns a contiguous piece of the text, and everything cut off before and after it is whitespace |
| `Text.CutBothEnds` | src/pages/Index.tsx:64 | cutting a whitespace prefix and then a whitespace suffix leaves a piece with only whitespace around it |
| `Text.TrimStartThrough` | src/pages/Index.tsx:64 | the leading trim stops at a part that starts with non-whitespace and keeps it as it is |
| `Text.TrimEndThrough` | src/pages/Index.tsx:64 | the trailing trim stops at a part that ends with non-whitespace and keeps it as it is |
| `Text.TrimAround` | src/pages/Index.tsx:64 | around a part that starts and ends with non-whitespace, `trim()` removes only the whitespace at the outer ends; the part survives whole in place |
| `Text.OccursBetween` | src/pages/Index.tsx:64 | a part occurs in a concatenation right after what precedes it |
| `Text.ToLowerAscii` | supabase/functions/get-transfer-insights/index.ts:148 | `toLowerCase` keeps the length and lowers each character |
| `Text.LowerKeepsOccurs` | src/pages/Index.tsx:59 | a word in the text is found, lowered, in the lowered text, so the check ignores letter case |
| `TransferData.SearchRoute` | src/hooks/useTransferData.ts:48-49 | only an error other than the "no row" code `PGRST116` fails the lookup; otherwise the possibly missing row is the outcome |
| `Insights.LastIndexOfChar` | supabase/functions/get-transfer-insights/index.ts:130 | the last position holding the character, or none at all |
| `Insights.JsonCandidate` | supabase/functions/get-transfer-insights/index.ts:130-131 | the greedy `/\{[\s\S]*\}/` match exists iff some `{` precedes some `}`; it runs `{…}` from the first `{` to the last `}` |
| `Insights.BracePairExists` | supabase/functions/get-transfer-insights/index.ts:130 | a `{`…`}` pair exists iff the first `{` precedes the last `}` |
| `Insights.GreedySpan` | supabase/functions/get-transfer-insights/index.ts:130 | the first-`{`-to-last-`}` span is the leftmost, longest match |
| `Insights.BraceOccurs` | supabase/functions/get-transfer-insights/index.ts:130 | the one-character pattern `{` occurs exactly where the character is `{` |
| `Insights.FromParsed` | supabase/functions/get-transfer-insights/index.ts:133-140 | each field is the parsed value if truthy, else its default (50, 3.0, 24, false, fixed texts); a parsed confidence of 0 becomes 50; no field is ever falsy |
| `Insights.Heuristic` | supabase/functions/get-transfer-insights/index.ts:147-159 | support iff `yes`/`supported`/`possible` occurs in the lowered text; confidence 75/60/35 by support and `api`/`integration`; fee 1.5/4.0/2.5 with `low fee` first; time 1/48/12 with `instant` first; notes are the first 200 original characters plus `...` |
| `Insights.Analyse` | supabase/functions/get-transfer-insights/index.ts:128-160 | the structured insight when a candidate exists and parses, the keyword insight otherwise |
| `Insights.Respond` | supabase/functions/get-transfer-insights/index.ts:127-183 | any failure before the reply text yields the fixed fallback (40, 3.0, 24, unsupported); the handler always answers with an insight |
| `Insights.UnsupportedCountsAsSupported` | supabase/functions/get-transfer-insights/index.ts:148-149 | a reply mentioning "unsupported" is classified as supported |
| `Insights.HeuristicBounds` | supabase/functions/get-transfer-insights/index.ts:152-158 | keyword confidence is in {35, 60, 75}, fee in {1.5, 2.5, 4.0}, time in {1, 12, 48}; notes are at most 203 characters |
| `Insights.RespondConfidenceInRange` | supabase/functions/get-transfer-insights/index.ts:133-179 | if every parsed confidence is in [0, 100], so is every answer's |
| `IndexPage.GenerateAffiliateUrl` | src/pages/Index.tsx:14-17 | the first `{{referral_code}}` becomes `canisenddotapp`; a template without it is returned unchanged |
| `IndexPage.StatusColor` | src/pages/Index.tsx:53-57 | every status maps to one of the success, destructive and warning tokens |
| `IndexPage.StatusColorInjective` | src/pages/Index.tsx:53-57 | distinct statuses get distinct colours |
| `IndexPage.PartnerInAnyCaseGetsLink` | src/pages/Index.tsx:59-60 | a supported route to a provider named "Revolut" in any letter case, with a non-empty template, gets a link |
| `IndexPage.FindFirst` | src/pages/Index.tsx:22-24 | `find` returns the first element with the id, and `None` iff there is none |
| `IndexPage.RoundHalf` | src/pages/Index.tsx:41 | `Math.round(s / 2)`: the result `c` satisfies `2c - 1 <= s < 2c + 1` (halves round up) |
| `IndexPage.BlendConfidence` | src/pages/Index.tsx:40-42 | no AI: the route's confidence; both present: `Math.round` of the average, between the two inputs; route confidence missing while AI present: half the AI confidence, rounded (`null` counts as 0) |
| `IndexPage.Override` | src/pages/Index.tsx:44-45 | the AI value when present and non-zero, otherwise the route's value |
| `IndexPage.RouteAffiliateUrl` | src/pages/Index.tsx:59-61 | a link iff the route is supported and the destination has a non-empty template and a name containing `revolut` when lowered; it is the generated URL |
| `IndexPage.CombinedNotes` | src/pages/Index.tsx:63-65 | no AI: the route's notes; with AI: exactly the route's notes and a blank line with leading whitespace removed, then `AI Analysis:`, then the space and AI notes with trailing whitespace removed |
| `IndexPage.CombinedNotesKeepAiNotes` | src/pages/Index.tsx:63-65 | with AI the combined notes hold the `AI Analysis:` label and, when the AI notes do not end in whitespace, the label followed by them |
| `IndexPage.LabelledNotesTrimmed` | src/pages/Index.tsx:64 | trimming the combined notes removes only the whitespace before the route's notes and after the AI notes; the label survives |
| `IndexPage.AiNotesSurvive` | src/pages/Index.tsx:64 | trimming keeps the labelled AI notes when they end in non-whitespace |
| `IndexPage.Reconcile` | src/pages/Index.tsx:38-127 | the status always follows from the result's own support flag and confidence (yes if supported, maybe above 30, else no). The colour always matches the status. `yes` iff a supported route, or no route and a supporting AI insight. A route's own fields carry over. An affiliate link implies `yes`. The AI-only result copies the AI values under the Gemini label. The empty case is `maybe` at 40 with the fixed note. |
| `IndexPage.ReconcileConfidenceInRange` | src/pages/Index.tsx:40-42 | confidences in [0, 100] give a result confidence in [0, 100] |
| `IndexPage.BlendThreshold` | src/pages/Index.tsx:40-51 | the 30 threshold is strict: confidences 50 and 20 blend to 35 (`maybe`), 50 and 10 to 30 (`no`) |
| `IndexPage.FallbackInsightOutcome` | src/pages/Index.tsx:38-127 | with the fallback insight, an unsupported route is `maybe` iff it has a confidence of at least 21 (a missing one never is); with no route, `maybe` at 40 |
| `IndexPage.SearchPage.constructor` | src/pages/Index.tsx:9-10 | the page starts with no result and no search in flight, so the form is shown |
| `IndexPage.SearchPage.StartSearch` | src/pages/Index.tsx:19-20 | a search is in flight; the result is unchanged |
| `IndexPage.SearchPage.FinishSearch` | src/pages/Index.tsx:27-140 | not in flight afterwards; on success the reconciled result replaces the form; when a lookup failed the old result stays and a failure notice is raised |
| `IndexPage.SearchPage.HandleSearch` | src/pages/Index.tsx:19-141 | the whole `handleSearch`: same end state as `FinishSearch` |
| `IndexPage.SearchPage.ShowsSearchForm` | src/pages/Index.tsx:150 | the page shows the search form exactly while there is no result, and the result card otherwise |
| `IndexPage.SearchPage.HandleNewSearch` | src/pages/Index.tsx:143-145 | the result is cleared (the form shows again); nothing else changes |
| `TransferSearch.ValidityAndGuard` | src/components/TransferSearch.tsx:16-28 | a valid form passes the submit guard; the guard admits invalid forms exactly when sender equals receiver; the empty query is neither |
| `TransferSearch.ToOptions` | src/components/TransferSearch.tsx:78 | the "To" options are exactly the providers whose id differs from the sender's |
| `TransferSearch.ToOptionsAppend` | src/components/TransferSearch.tsx:78 | the filter distributes over concatenation, so the original order is kept |
| `TransferSearch.ChosenReceiverDiffers` | src/components/TransferSearch.tsx:78 | a receiver picked from the options differs from the sender |
| `TransferSearch.SearchForm.constructor` | src/components/TransferSearch.tsx:16-20 | the form starts empty, hence invalid |
| `TransferSearch.SearchForm.SelectFrom` | src/components/TransferSearch.tsx:47 | only the sender changes |
| `TransferSearch.SearchForm.SelectTo` | src/components/TransferSearch.tsx:71 | only the receiver changes |
| `TransferSearch.SearchForm.SelectCurrency` | src/components/TransferSearch.tsx:91 | only the currency changes |
| `TransferSearch.SearchForm.HandleSearch` | src/components/TransferSearch.tsx:22-26 | the query is submitted iff all three fields are chosen; distinctness is not checked |
| `TransferSearch.SearchForm.ClickSubmit` | src/components/TransferSearch.tsx:112-114 | a click submits iff the button is enabled; what it submits is valid, with distinct, chosen providers |
| `TransferSearch.SenderAfterReceiver` | src/components/TransferSearch.tsx:45-91 | choosing a receiver, then the same sender, reaches a fully chosen but invalid form |

## Left out

- Rendering (`src/components/TransferResult.tsx`, the JSX of both pages) is not modelled, except for the page's switch between the form and the result (`ShowsSearchForm`). The status icons, texts and badges are display lookups.
- `window.open` and affiliate click tracking are not modelled; they are side effects.
- The remote queries, the react-query caching and the click-tracking insert in `src/hooks/useTransferData.ts` are I/O. The provider and currency lists are parameters.
- Only the reply handling of `searchRoute` is modelled, as `TransferData.SearchRoute`.
- `getAIInsights` is not returned by the hook in `src/hooks/useTransferData.ts:65-71`. The insight lookup's outcome is therefore a parameter of `FinishSearch`, either an optional insight or an error.
- `Promise.all` is not modelled as concurrency. Both outcomes are given, and a failure of either one is a failure of the search.
- The failure toast is reduced to the `failureNotice` result of `FinishSearch`. Console logging is not modelled.
- The edge function's plumbing is not modelled: the HTTP server, CORS, the API-key lookup, the prompt, the `fetch` to the model and logging. Whatever fails before the reply text exists is the `Failure` case of `Respond`'s input.
- `JSON.parse` is the parameter `JsonParser`.
- Parsed fields of an unexpected JSON type (a string confidence, say) are not modelled. Each field has its intended type or is absent.
- `null` and `undefined` are both `None`. A route's missing confidence is always the store's `null`, because the row comes from the database (`src/hooks/useTransferData.ts:35-49`, `src/integrations/supabase/types.ts:123`). `BlendConfidence` therefore counts it as 0. An `undefined` there would give `NaN`, but it cannot arise.
- Insights.Heuristic: lowering covers ASCII letters only, not the full Unicode case mapping of `toLowerCase`.
- Text.Prefix: counts Unicode characters, where JavaScript's `substring` counts UTF-16 code units.
- Confidence is an integer. A fractional AI confidence, and `Math.round` on it, is not modelled.
- Floating-point effects on fees and times are not modelled; they are `real`.
- The `created_at`/`updated_at` timestamps are not modelled. This covers the clock-derived ones of results built without a route (`src/pages/Index.tsx:106-107, 124-125`). It also covers the route row's own ones, which the `...route` spread copies into the result (`:68`). `TransferRoute` has no such fields.
- The selects are disabled while reference data loads (`src/components/TransferSearch.tsx:48, 72, 92`). The setters do not model that guard.
