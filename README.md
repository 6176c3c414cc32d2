# Micro-course generation: a verified model

This project models the decision logic of a small web application that
generates 10-day "micro-parcours" (micro-courses) with a chat-completion
model:

- **the generation endpoint** `POST /api/generate` (`GenerateRoute`): the
  topic catalog `TOPICS`, the ladder of guards that turns one request into
  one response (400 for an unknown topic, 500 for a missing key, an upstream
  failure, an empty reply or unparsable JSON, 200 with the parsed plan), and
  the prompt built by `makePrompt`;
- **the selection page** (`HomePage`): the `items` catalog, the `groups`
  computed with `Array.from(new Set(...))`, the per-group `filter` that fills
  each `<optgroup>`, and the submit handler that refuses an empty selection
  and otherwise navigates to `/parcours/new?slug=…`;
- **the generation page** (`NewPlanPage`): which of its four views
  (missing parameter, error, loading, ready) it shows, the effect that posts
  the slug and records either `plan` or `error`, and the lesson list of the
  ready view.

`JsStrings` holds the JavaScript string behaviour the code relies on
(`String.prototype.trim` over the ECMAScript whitespace and line-terminator
characters, and the `message || "Erreur inconnue"` fallback); `Options`
holds the `Option` type that stands for `undefined`/`null`.

Foreign calls are parameters of the model: the request body as decoded by
`req.json()` (`Request`), the value of `OPENAI_API_KEY`, the chat-completion
service as a function from prompt to `Upstream` outcome, `JSON.parse` as a
function from text to an optional value, `encodeURIComponent` as a function
passed to `Submit`, and the generation endpoint's reply as seen by the page
(`Reply`). Navigation (`router.push`) is recorded in the `navigations` field
of `HomeForm`; the posts issued by the page are recorded in
`GenerationPage.requests`; the endpoint's outbound call is the `sent` result
of `Post`.

The endpoint makes no outbound call when a guard stops the ladder, and
neither the endpoint nor the page checks that a plan has ten lessons; the
page renders as many lessons as it receives. The endpoint's slug guard is
modelled in its corrected form (see "## Findings"); the guard as written is
modelled beside it.

## Model

| member | source | states |
|---|---|---|
| `GenerateRoute.LookupTopic` | app/api/generate/route.ts:19-24 | a topic is found exactly for a present, non-empty slug that is a key of the catalog, and it is that key's entry; an absent or empty slug finds nothing |
| `GenerateRoute.LookupTopicRefusesInherited` | app/api/generate/route.ts:3-22 | no name inherited from `Object.prototype` finds a topic, and every slug the lookup admits also passes the guard as written |
| `GenerateRoute.AdmittedAsWritten` | app/api/generate/route.ts:20 | the guard as written only passes a present, non-empty slug and passes every key of the catalog |
| `GenerateRoute.GuardVersusLookup` | app/api/generate/route.ts:20-22 | the written guard passes a slug exactly when the intended lookup admits it or it is an inherited `Object.prototype` name: any other slug gets the 400 response, and every inherited name gets through |
| `GenerateRoute.MetaAsWritten` | app/api/generate/route.ts:24 | for a slug the written guard passes, `TOPICS[slug]` gives the catalog entry for a key, and for an inherited name a topic whose title, duration and brief read "undefined" |
| `GenerateRoute.InheritedKeyPassesGuard` | app/api/generate/route.ts:20-30 | the slug "constructor" passes the guard as written although it is no topic, and the prompt built for it carries "Titre: undefined" |
| `GenerateRoute.MakePrompt` | app/api/generate/route.ts:82-110 | the prompt opens with the request for a course followed by "Titre: " and the title, and ends with the demand for valid JSON only |
| `GenerateRoute.MakePromptEmbedsTopic` | app/api/generate/route.ts:82-110 | for any title, duration and brief the prompt contains "Titre: " + title, "Durée: " + duration, "Description: " + brief, and the rule "10 leçons numérotées (day 1 à 10)" |
| `GenerateRoute.KeyConfigured` | app/api/generate/route.ts:25-26 | a configured key is present, and an empty variable counts as missing |
| `GenerateRoute.TrimmedContent` | app/api/generate/route.ts:60 | absent content stays absent, and present content is replaced by its trim |
| `GenerateRoute.EmptyContent` | app/api/generate/route.ts:62 | content is refused as empty exactly when it is absent or trims to the empty string |
| `GenerateRoute.Post` | app/api/generate/route.ts:17-79 | every response has status 200, 400 or 500 and only 200 carries a plan; 400 "Sujet inconnu" exactly for an unknown slug, whatever the key; a known slug without key gives 500 "OPENAI_API_KEY manquant"; the outbound call is made exactly when both guards pass, once, with the topic's prompt; a non-ok reply gives 500 "Erreur OpenAI : " + its text; absent or blank content gives 500 "Réponse vide d'OpenAI"; unparsable content gives 500 "Format JSON invalide" (the content is not returned); otherwise 200 with the parse result unchanged; thrown errors give 500 with their message or "Erreur inconnue" |
| `JsStrings.Trim` | app/api/generate/route.ts:60 | the result is a block of the input with only whitespace removed on either side, and it neither starts nor ends with whitespace |
| `JsStrings.TrimEmptyIffBlank` | app/api/generate/route.ts:60-64 | content trims to the empty string exactly when it is all whitespace |
| `JsStrings.TrimKeepsInner` | app/api/generate/route.ts:60 | content without surrounding whitespace is kept as is |
| `JsStrings.MessageOrUnknown` | app/api/generate/route.ts:76-78 | the message shown is never empty: the error's own message when it has one, "Erreur inconnue" otherwise |
| `HomePage.Distinct` | app/page.tsx:32 | `Array.from(new Set(s))` holds exactly the elements of `s`, none twice |
| `HomePage.DistinctFirstOccurrenceOrder` | app/page.tsx:32 | the distinct elements are listed in the order of their first occurrence |
| `HomePage.GroupsOf` | app/page.tsx:32 | `groups` has no duplicate, holds the group of every item, and each of its entries is the group of some item |
| `HomePage.EachItemUnderOneGroup` | app/page.tsx:32-53 | each item's group is at exactly one position of `groups` |
| `HomePage.OptionsIn` | app/page.tsx:52-53 | an optgroup holds exactly the items of its group |
| `HomePage.OptionsInAppend` | app/page.tsx:52-58 | the per-group filter keeps the order of `items` |
| `HomePage.Dropdown` | app/page.tsx:50-60 | the optgroups of a list of groups, one after the other, offer exactly the items whose group is in the list |
| `HomePage.DropdownListsEveryItemOnce` | app/page.tsx:50-60 | the optgroups built from `groups`, taken together, list every item exactly as often as `items` does |
| `HomePage.SelectableTopicsAreKnown` | app/page.tsx:13-19 | every option value ("piano", "html") is a topic of the endpoint's catalog, so no option leads to the 400 response |
| `HomePage.HomeForm.constructor` | app/page.tsx:22 | the selection starts empty and nothing has been navigated to |
| `HomePage.HomeForm.Choose` | app/page.tsx:43-48 | choosing an option sets `value` to it and navigates nowhere |
| `HomePage.HomeForm.Submit` | app/page.tsx:25-29 | an empty selection causes no navigation; otherwise exactly one navigation to "/parcours/new?slug=" + the encoded value, whose slug is a known topic |
| `NewPlanPage.SelectView` | app/parcours/new/page.tsx:51-78 | the missing-parameter view exactly when the slug is empty; else the error view for a truthy error; else loading exactly while there is no plan; else the plan |
| `NewPlanPage.Settle` | app/parcours/new/page.tsx:41-45 | a delivered reply sets the plan to the reply's plan and leaves the error; a non-ok reply or a thrown error leaves the plan and sets a non-empty error, "Échec de la génération" for a non-ok status |
| `NewPlanPage.FetchRunSettles` | app/parcours/new/page.tsx:35-46 | from the initial state a non-ok reply sets error "Échec de la génération" and leaves plan null; a thrown error records its message or "Erreur inconnue"; a delivered plan is set and error stays null; exactly one of plan and error is set, and the view becomes the error or the plan |
| `NewPlanPage.ImageLine` | app/parcours/new/page.tsx:90-92 | the image line is shown exactly for a present, non-empty prompt, and shows that prompt |
| `NewPlanPage.LessonEntries` | app/parcours/new/page.tsx:86-96 | one entry per lesson, in the lessons' order, with the lesson's day, title and text, and its image line only when its prompt is present |
| `NewPlanPage.GenerationPage.constructor` | app/parcours/new/page.tsx:26-29 | the slug is the query parameter or "", plan and error start null, nothing is posted, and the view is missing-parameter or loading |
| `NewPlanPage.GenerationPage.RunEffect` | app/parcours/new/page.tsx:32-48 | with an empty slug nothing is posted and nothing changes; otherwise the slug is posted once and the reply updates plan or error; from the initial state the view becomes the error or the plan |

## Left out

- The HTTP call to the chat-completion service, `res.text()`, `res.json()`, `JSON.parse`, `process.env` and `NextResponse` are parameters of `Post`, not modelled; the JSON grammar is not modelled.
- The request body is a decoded `Request`; a slug that is not a string (a number, an array) is not modelled.
- Content that is present but not a string (where `trim` would throw into the outer catch) is not modelled; the content is an optional string.
- The system message, the model name, `temperature: 0.7` and `console.error` logging carry no behaviour and are not modelled.
- The set of exceptions the outer catch can receive is not visible; the model has one thrown outcome for the request body and one for the outbound call, each with an optional message.
- React hooks, `useSearchParams`, `router.push` and `encodeURIComponent` are framework and library calls: navigation is a log of target URLs, encoding a function parameter, and the query parameter an input of the page's constructor; JSX markup and CSS classes are not modelled.
- The asynchronous interleaving of the effect with re-renders, and effect re-runs on a slug change, are framework scheduling and not modelled; `RunEffect` is one complete run.
- A `plan` field in the endpoint's reply that is not a plan object is not modelled: the model's `Reply` carries an optional `Plan` only. In the code a falsy value (0, "", false, or the `null` that the endpoint returns for the content "null") leaves the page on the loading view like an absent plan, and a truthy value without a `lessons` array (a number, a string, an object without `lessons`) makes the page crash at `plan.lessons.map`.
- The course viewer with its progress checklist, step navigation and completion percentage (app/parcours/[slug]/CourseClient.tsx) is not part of this model.
- The shape of the generated plan and its number of lessons are not validated by the code, and the model does not invent such a check.
- GenerateRoute.Post: its slug guard is the corrected lookup, so the twelve names of `ObjectPrototypeKeys` ("constructor", "__proto__", "toString", …) get the 400 response where the code passes them on to the key guard and calls the service with a prompt reading "Titre: undefined"; `AdmittedAsWritten`, `MetaAsWritten` and `InheritedKeyPassesGuard` model that path.
- NewPlanPage.FetchRunSettles: "exactly one of plan and error is set" is stated for replies that fail or carry a plan; an ok reply without a `plan` field calls `setPlan(undefined)`, sets neither, and leaves the page on the loading view.

## Findings

| source | as written | input that shows it | evidently intended | confidence | as-written member | corrected member |
|---|---|---|---|---|---|---|
| app/api/generate/route.ts:20 | `!TOPICS[slug]` tests the truthiness of a lookup in a plain object literal, so names inherited from `Object.prototype` pass the guard | body `{"slug":"constructor"}`: no 400; the key guard and the outbound call follow, with a prompt reading "Titre: undefined" | 400 "Sujet inconnu" for every slug that is not a topic of the catalog | high, not executed | `GenerateRoute.InheritedKeyPassesGuard` | `GenerateRoute.LookupTopic` |
