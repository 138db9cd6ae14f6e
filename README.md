# Marketing plan generator: the wizard and the plan action

This project models the core of the marketing plan generator, a Next.js
application that collects a company description, a posting frequency and a
set of social media platforms in a four-step wizard. It then asks the
Anthropic Messages API for a one-month marketing plan and shows the answer.
The model has two parts.

- **The wizard** (`PlanForm`, file `plan_form.dfy`) models the
  `MarketingPlanForm` component.
  - Its state is a class, `MarketingPlanForm`: one field per `useState`
    value (`step`, `companyDescription`, `postingFrequency`, `customPlatform`,
    `customPlatforms`, `selectedPlatforms`, `marketingPlan`, `isGenerating`).
  - Each event handler is a method with a `modifies` frame and a
    postcondition that gives the new state.
  - `Valid()` holds between events and every handler preserves it:
    - the step is one of the four `STEPS`;
    - the checkbox map has every built-in platform;
    - a step is reached only when the earlier steps' inputs are non-blank;
    - no request is outstanding between events.
  - Two pure helpers state what the handlers compute:
    - `PlatformList` builds the platform list: checked built-ins in declared
      order, then custom platforms in the order they were added;
    - `WithoutPlatform` removes a custom platform.
- **The server action** (`Actions`, file `actions.dfy`) models
  `generateMarketingPlan` as a function.
  - It checks for the API key, builds the prompt and the one request, and
    maps what `fetch` yields to a plan text or to an error message.
  - The provider is a parameter: a function from the request to the fetch
    outcome (network rejection, or status, body text and JSON).
  - The wizard takes the action as a parameter too, as a function from the
    request parameters to the plan text or an error message.
  - `Scenarios` (file `scenarios.dfy`) holds client methods whose
    postconditions state the outcome of typical event sequences. They plug
    the action into the wizard with providers whose answers are fixed in
    advance.

`Text` (file `text.dfy`) models the JavaScript string and array operations the
core uses, each with its properties proved as lemmas:
- `String.prototype.trim` over the ECMAScript white-space and line-terminator
  characters;
- `Array.prototype.filter`;
- `Array.prototype.join`, with `Split` as its inverse.

`Wrappers` holds `Option` and `Result`.

Some behaviours of the code worth knowing:
- Removing a custom platform removes every entry equal to it, not only the
  first: the code filters on `p !== platform`.
- The custom platforms are a list with possible duplicates, not a set.
  Adding a name twice keeps both copies.
- "Create New Plan" does not reset the custom-platform text input. The
  handler at `components/marketing-plan-form.tsx:283-295` does not set it.
- A key that is set but empty counts as missing, because `!apiKey` is true
  for `""`.
- An ok answer whose first `content` element has no `text` field makes the
  action resolve with `undefined` (see Findings). `Actions.Attempt` and
  `Actions.GenerateMarketingPlan` use the corrected reader and fail there.
  `Actions.AttemptAsWritten` keeps the code's behaviour, and
  `Actions.AttemptDiffersOnlyOnUndefinedText` proves that this is the only
  case where the two differ.

## Model

| member | source | states |
|---|---|---|
| Actions.GenerateMarketingPlan | marketing-plan-generator/app/actions.ts:12-63 | A missing key fails with the missing-key message and sends nothing. Otherwise exactly the built request is sent. There is a plan exactly when the provider's answer is usable, and its text is returned. Every other failure becomes the one generic message. |
| Actions.MissingKeyMessageIffKeyMissing | marketing-plan-generator/app/actions.ts:17-19 | The missing-key message comes out exactly when the key is unset or empty. No provider answer can produce it, since it is thrown outside the `try`. |
| Actions.MissingKeyIgnoresProvider | marketing-plan-generator/app/actions.ts:17-19 | With the key missing the provider is never consulted. |
| Actions.Attempt | marketing-plan-generator/app/actions.ts:37-58 | The `try` block succeeds exactly on an ok status (200 to 299) with a first text segment, and returns that text. A non-ok status is an API failure carrying status and body. A rejected fetch is a network failure. |
| Actions.NonOkStatusFails | marketing-plan-generator/app/actions.ts:52-55 | A non-ok status always yields the generic failure, whatever the body holds. |
| Actions.OkResponseReturnsFirstText | marketing-plan-generator/app/actions.ts:57-58 | An ok response whose `content` starts with a text segment returns exactly that text. |
| Actions.PromptLayout | marketing-plan-generator/app/actions.ts:24-35 | The prompt is the fixed template with the platform list, the description and the frequency inserted verbatim at known offsets. |
| Actions.SevenPartLayout | marketing-plan-generator/app/actions.ts:24-35 | Where each of seven concatenated fragments sits in their concatenation. |
| Actions.PlatformsFollowIntro | marketing-plan-generator/app/actions.ts:24 | The joined platform list follows the fixed introduction directly. |
| Actions.RequestIsFixed | marketing-plan-generator/app/actions.ts:38-49 | The request goes to the messages endpoint with the key, model `claude-3-7-sonnet-20250219` and 4000 max tokens. It has one user message, whose content is the prompt over the platforms joined with ", ". |
| Actions.PromptSplitsIntoPlatforms | marketing-plan-generator/app/actions.ts:22-24 | Splitting the prompt's platform slice at ", " gives back the platforms, when there is at least one and none contains a comma. |
| Actions.PlatformsRecoverable | marketing-plan-generator/app/actions.ts:22-48 | The slice of the sent content that starts after the fixed introduction and is as long as the joined list splits back into the platforms, when there is at least one and none contains a comma. |
| Actions.PromptDeterminesJoin | marketing-plan-generator/app/actions.ts:24-35 | For a fixed description and frequency, equal prompts hold equal joined platform lists. |
| Actions.JoinDeterminesPlatforms | marketing-plan-generator/app/actions.ts:22 | Equal ", " joins of non-empty, comma-free platform lists come from equal lists. |
| Actions.RequestDeterminesPlatforms | marketing-plan-generator/app/actions.ts:22-49 | For a fixed key, description and frequency, the request determines the platforms: two non-empty, comma-free platform lists that build equal requests are equal. |
| Actions.KeyMissing | marketing-plan-generator/app/actions.ts:17 | `!apiKey`: the key is unset or the empty string. `MissingKeyMessageIffKeyMissing` ties it to the missing-key failure. |
| Actions.StatusOk | marketing-plan-generator/app/actions.ts:52 | `response.ok`: the status is in 200 to 299. `NonOkStatusFails` and `Attempt` state what each side leads to. |
| Actions.Prompt | marketing-plan-generator/app/actions.ts:24-35 | The template string with the three values inserted verbatim. `PromptLayout` locates each value and each fixed fragment. |
| Actions.BuildRequest | marketing-plan-generator/app/actions.ts:37-49 | The request the action sends. `RequestIsFixed` states its endpoint, key, model, token budget and single message. `RequestDeterminesPlatforms` states that, for a fixed key, description and frequency, it determines the platforms. |
| Actions.ReadFirstTextAsWritten | marketing-plan-generator/app/actions.ts:58 | `result.content[0].text` as written. It throws on unreadable JSON, a missing `content` and an empty array, and yields `undefined` for a first element without `text`. `FirstTextCorrectsAsWritten` relates it to `FirstText`. |
| Actions.FirstText | marketing-plan-generator/app/actions.ts:58 | The corrected reader: the first segment's text, or nothing where the expression throws or yields `undefined`, by `FirstTextCorrectsAsWritten`. |
| Actions.AttemptAsWritten | marketing-plan-generator/app/actions.ts:37-58 | The `try` block as written. An ok answer whose first segment lacks `text` completes with `undefined`. |
| Actions.AttemptDiffersOnlyOnUndefinedText | marketing-plan-generator/app/actions.ts:37-58 | The as-written `try` block and `Attempt` agree on every outcome except an ok answer whose first segment lacks `text`. There the code resolves with `undefined` and `Attempt` reports a malformed response. |
| Actions.MissingTextResolvesAsWritten | marketing-plan-generator/app/actions.ts:58 | As written, a first segment without `text` evaluates to `undefined` rather than throwing (see Findings). |
| Actions.FirstTextCorrectsAsWritten | marketing-plan-generator/app/actions.ts:58 | The corrected reader `FirstText` gives the same string wherever the expression yields one. It fails exactly where the expression throws or yields `undefined`. |
| PlanForm.PlatformList | marketing-plan-generator/components/marketing-plan-form.tsx:57-62 | The checked built-ins come first, in declared order: a subsequence of the built-ins holding exactly the checked ones. All custom platforms follow, in order. The list is empty exactly when nothing is checked and no custom platform was added. |
| PlanForm.WithoutPlatform | marketing-plan-generator/components/marketing-plan-form.tsx:91-93 | No entry equal to the platform is left. The list keeps its order and does not grow. Every other name keeps its number of occurrences. |
| PlanForm.RemoveAbsentPlatform | marketing-plan-generator/components/marketing-plan-form.tsx:91-93 | Removing a platform that is not listed changes nothing. |
| PlanForm.RemoveAfterAdd | marketing-plan-generator/components/marketing-plan-form.tsx:84-93 | Adding a platform and then removing it is the same as removing it. |
| PlanForm.MarketingPlanForm.Valid | marketing-plan-generator/components/marketing-plan-form.tsx:37-78 | The invariant every handler keeps. The step is one of `STEPS` and the checkbox map has every built-in. The frequency step is reached only with a non-blank description, and the platform step only with a non-blank frequency as well, as the Next guards at lines 38 and 47 ensure. No request is outstanding between events. |
| PlanForm.MarketingPlanForm.constructor | marketing-plan-generator/components/marketing-plan-form.tsx:22-34 | The initial values: step 0, empty texts, empty custom list, every built-in unchecked, no plan, not generating. |
| PlanForm.MarketingPlanForm.SetCompanyDescription | marketing-plan-generator/components/marketing-plan-form.tsx:149-154 | The description textarea on the first step stores the value and nothing else. |
| PlanForm.MarketingPlanForm.SetPostingFrequency | marketing-plan-generator/components/marketing-plan-form.tsx:165-169 | The frequency input on the second step stores the value and nothing else. |
| PlanForm.MarketingPlanForm.SetCustomPlatformInput | marketing-plan-generator/components/marketing-plan-form.tsx:206-209 | The custom-platform input stores the value and nothing else. |
| PlanForm.MarketingPlanForm.SetPlatformChecked | marketing-plan-generator/components/marketing-plan-form.tsx:191-196 | A built-in's checkbox becomes true only for `checked === true`. The other entries are kept. |
| PlanForm.MarketingPlanForm.HandleNextStep | marketing-plan-generator/components/marketing-plan-form.tsx:37-78 | On an earlier step, a blank (after trim) description or frequency gives its notice and changes nothing; otherwise the step advances by one. On the platform step, an empty list gives a notice and changes nothing; otherwise it requests a plan with the current description, the current frequency and `PlatformList`. Success leads to Results with the returned plan; failure leaves step and plan as they were. Every request has non-blank inputs and at least one platform. |
| PlanForm.MarketingPlanForm.HandleGeneratePlan | marketing-plan-generator/components/marketing-plan-form.tsx:95-116 | The request carries the current description and frequency. Success stores the plan and moves to Results. Failure gives the error notice and keeps step and plan. `isGenerating` is false afterwards. |
| PlanForm.MarketingPlanForm.HandlePrevStep | marketing-plan-generator/components/marketing-plan-form.tsx:80-82 | From the frequency or platform step, the step goes back by one and every input is kept. |
| PlanForm.MarketingPlanForm.HandleAddCustomPlatform | marketing-plan-generator/components/marketing-plan-form.tsx:84-89 | A non-blank input is appended trimmed and the input is cleared. A blank input changes nothing. |
| PlanForm.MarketingPlanForm.HandleRemoveCustomPlatform | marketing-plan-generator/components/marketing-plan-form.tsx:91-93 | The custom list becomes `WithoutPlatform` of the old list, so the platform is gone and the list did not grow. |
| PlanForm.MarketingPlanForm.BackToPlatforms | marketing-plan-generator/components/marketing-plan-form.tsx:279 | Back from the results goes to the platform step, keeping everything else. |
| PlanForm.MarketingPlanForm.CreateNewPlan | marketing-plan-generator/components/marketing-plan-form.tsx:283-295 | Back to step 0 with description, frequency, checkboxes, custom list and plan reset to their initial values. |
| Scenarios.AddThenRemoveTikTok | marketing-plan-generator/components/marketing-plan-form.tsx:84-93 | On the platform step, adding "TikTok" and then removing it leaves `["TikTok"]` after the add and `[]` after the removal. |
| Scenarios.FillCompany | marketing-plan-generator/components/marketing-plan-form.tsx:37-78 | A non-blank description and Next lead to the frequency step. |
| Scenarios.FillFrequency | marketing-plan-generator/components/marketing-plan-form.tsx:37-78 | Then a non-blank frequency and Next lead to the platform step with both inputs kept. |
| Scenarios.FillAcme | marketing-plan-generator/components/marketing-plan-form.tsx:191-209 | Then the Instagram checkbox and typing into the custom-platform input give that state on the platform step. |
| Scenarios.GenerateAcme | marketing-plan-generator/components/marketing-plan-form.tsx:95-116 | Generate against a "PLAN TEXT" answer ends on Results with that plan. The custom-platform input keeps what was typed. The request sent carries the two inputs and exactly `["Instagram"]`. |
| Scenarios.TypedNameIsKept | marketing-plan-generator/components/marketing-plan-form.tsx:86 | A name without surrounding whitespace is stored as typed. |
| Scenarios.RemoveOnlyPlatform | marketing-plan-generator/components/marketing-plan-form.tsx:92 | Removing the only custom platform empties the list. |
| Scenarios.OkServiceReturnsPlan | marketing-plan-generator/app/actions.ts:57-58 | With a key, an HTTP 200 answer with first segment "PLAN TEXT" yields that plan. |
| Scenarios.ServerErrorServiceFails | marketing-plan-generator/app/actions.ts:52-62 | With a key, an HTTP 500 answer yields the generic failure. |
| Scenarios.InstagramOnlyIsNotEmpty | marketing-plan-generator/components/marketing-plan-form.tsx:57-64 | With Instagram checked, the platform list is not empty. |
| Scenarios.OnlyFirstBuiltIn | marketing-plan-generator/components/marketing-plan-form.tsx:57-60 | A non-empty ordered selection of the built-ins that holds only Instagram is exactly `["Instagram"]`. |
| Scenarios.InstagramOnlyList | marketing-plan-generator/components/marketing-plan-form.tsx:57-62 | With only Instagram checked and no custom platform, the platform list is exactly `["Instagram"]`. |
| Scenarios.AcmeSucceeds | marketing-plan-generator/components/marketing-plan-form.tsx:95-116 | Through the real action, the "PLAN TEXT" answer becomes the plan, on the results step, not generating, with no notice. |
| Scenarios.AcmeServerError | marketing-plan-generator/components/marketing-plan-form.tsx:106-115 | Through the real action, an HTTP 500 leaves the platform step with no plan, not generating, and the failure notice. |
| Scenarios.ResetAfterPlan | marketing-plan-generator/components/marketing-plan-form.tsx:283-295 | After a generated plan, "Create New Plan" restores the initial values. What was typed in the custom-platform input stays. |
| Text.IsWhitespace | marketing-plan-generator/components/marketing-plan-form.tsx:38 | Exactly the characters `trim` removes: ECMAScript's WhiteSpace (TAB, VT, FF, ZWNBSP and every Zs code point) and LineTerminator (LF, CR, LS, PS). |
| Text.Trim | marketing-plan-generator/components/marketing-plan-form.tsx:85-86 | `String.prototype.trim`, as TrimStart then TrimEnd. `TrimIsInfix` characterises it and `TrimIdempotent` proves that it is idempotent. |
| Text.TrimStart | marketing-plan-generator/components/marketing-plan-form.tsx:38 | Drops leading whitespace, as `TrimStartShape` states. |
| Text.TrimEnd | marketing-plan-generator/components/marketing-plan-form.tsx:47 | Drops trailing whitespace, as `TrimEndShape` states. |
| Text.Blank | marketing-plan-generator/components/marketing-plan-form.tsx:38 | `!s.trim()`: the trimmed string is empty, which `TrimIsInfix` shows holds exactly for all-whitespace strings. |
| Text.TrimStartShape | marketing-plan-generator/components/marketing-plan-form.tsx:38 | Trimming the start removes a whitespace prefix and stops at the first non-whitespace character. |
| Text.TrimEndShape | marketing-plan-generator/components/marketing-plan-form.tsx:47 | Trimming the end removes a whitespace suffix and stops at the last non-whitespace character. |
| Text.TrimIsInfix | marketing-plan-generator/components/marketing-plan-form.tsx:85-86 | `trim` returns a slice of the input surrounded only by whitespace, with non-whitespace ends. It is empty exactly when the input is all whitespace. |
| Text.VisibleStartNotBlank | marketing-plan-generator/components/marketing-plan-form.tsx:38 | A string that starts with a non-whitespace character is not blank. |
| Text.TrimIdempotent | marketing-plan-generator/components/marketing-plan-form.tsx:86 | Trimming a trimmed string changes nothing. |
| Text.Filter | marketing-plan-generator/components/marketing-plan-form.tsx:92 | The result holds exactly the kept elements of the input and is no longer than it. |
| Text.SubsequenceMembers | marketing-plan-generator/components/marketing-plan-form.tsx:59 | Every element of a subsequence is an element of the sequence it is taken from. |
| Text.FilterIsSubsequence | marketing-plan-generator/components/marketing-plan-form.tsx:59 | A filtered list is a subsequence of the input: order is kept. |
| Text.FilterCounts | marketing-plan-generator/components/marketing-plan-form.tsx:92 | A kept element occurs as often as in the input; a dropped element does not occur. |
| Text.FilterAppend | marketing-plan-generator/components/marketing-plan-form.tsx:92 | Filtering distributes over concatenation. |
| Text.FilterKeepsAll | marketing-plan-generator/components/marketing-plan-form.tsx:92 | Filtering a list whose elements are all kept returns it unchanged. |
| Text.Join | marketing-plan-generator/app/actions.ts:22 | `Array.prototype.join`. `JoinEmptyAndSingle`, `JoinLength` and `JoinSnoc` state its behaviour, and `SplitJoin` states its inverse. |
| Text.JoinEmptyAndSingle | marketing-plan-generator/app/actions.ts:22 | No parts join to "" and one part joins to itself. |
| Text.JoinLength | marketing-plan-generator/app/actions.ts:22 | A join is as long as the parts plus one separator between each pair. |
| Text.JoinSnoc | marketing-plan-generator/app/actions.ts:22 | Joining with one more last part appends the separator and that part. |
| Text.Split | marketing-plan-generator/app/actions.ts:22 | The inverse of `join` always gives at least one piece. |
| Text.SplitWithoutSeparator | marketing-plan-generator/app/actions.ts:22 | A string without the separator's first character splits into itself. |
| Text.SplitFirstPart | marketing-plan-generator/app/actions.ts:22 | A separator after a separator-free first part splits off that part. |
| Text.SplitJoin | marketing-plan-generator/app/actions.ts:22 | Splitting the join of a non-empty list of parts, none containing the separator's first character, gives back the parts. |

## Left out

- Rendering (JSX, cards, labels, spinners) and the toasts' titles and texts are not modelled. A toast is reduced to the `Notice` a handler returns.
- Copy to clipboard and download (`handleCopyToClipboard`, `handleDownload`) are left out. They are browser I/O and change no state.
- Asynchrony is not modelled. `handleGeneratePlan` is one atomic step: `isGenerating` goes true, the request resolves, and it goes false again. Two behaviours of the source that depend on interleaving are therefore not captured:
  - the disabled Generate button guards against a second request while one is in flight;
  - the Back button stays enabled during a request, whose later result can move the wizard to the results step.
- `process.env.ANTHROPIC_API_KEY` is a parameter (`Option<string>`), read once.
- JSON serialisation of the request and the headers `Content-Type` and `anthropic-version` are not modelled. The request is a structured value.
- `console.error` logging is not modelled; `Cause` keeps what would be logged.
- Actions.Attempt: it uses the corrected reader `FirstText`. On an ok answer whose first segment has no `text`, it reports a malformed response. The code as written completes the `try` block with `undefined` here, which `Actions.AttemptAsWritten` models.
- Actions.GenerateMarketingPlan: it builds on `Attempt`, so the ok-without-`text` answer gives the generic failure. As written, the action resolves with `undefined`, and the form stores that as the plan and shows the results step (marketing-plan-form.tsx:104-105).
- Actions.Attempt: a `content` field that is present but not an array, and a `text` field that is not a string, are not modelled. The response JSON has only the shapes `Segment` and `ResponseJson` describe.
- PlanForm.MarketingPlanForm.Valid: it requires that the checkbox map contain the four built-ins, not that these be its only keys. Only the handlers change the map, and they never add another key.
- PlanForm.MarketingPlanForm.HandleNextStep: it requires a step other than Results, because the form renders no Next button there.
- PlanForm.MarketingPlanForm.HandlePrevStep: it requires the frequency or the platform step, the only ones whose Back button calls `handlePrevStep` (marketing-plan-form.tsx:171 and 243). The results step's Back button is a separate handler, modelled by `BackToPlatforms`.
- PlanForm.MarketingPlanForm.SetCompanyDescription: it requires the first step, the only one on which the textarea is rendered.
- PlanForm.MarketingPlanForm.SetPostingFrequency: it requires the second step, the only one on which the input is rendered.
- `api-key-setup.tsx` and `app/page.tsx` are not part of this model. They are static pages with no state of their own.

## Findings

| source | as written | input that shows it | evidently intended | confidence | as-written member | corrected member |
|---|---|---|---|---|---|---|
| marketing-plan-generator/app/actions.ts:58 | `return result.content[0].text` does not throw when the first element of `content` has no `text` field. The action resolves with `undefined` despite its declared `Promise<string>`, and the form stores `undefined` as the plan and shows the results step. | HTTP 200 with body `{"content": [{"type": "tool_use"}]}` | Treat the unusable answer like the other malformed responses: fail with the generic message. | medium, not executed | Actions.AttemptDiffersOnlyOnUndefinedText | Actions.FirstTextCorrectsAsWritten |
