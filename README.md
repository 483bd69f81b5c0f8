# PromptForge tool pipeline in Dafny

This project models the server-side tool pipeline of PromptForge, in five modules:

- **Catalog** (`catalog.dfy`): the fixed list of twelve developer tools, and the read-only routes of the tools router that use it. These are list all, distinct categories, tools of one category, lookup by id, and case-insensitive search. Each query is stated for any catalog. The router applies it to `Catalog.Tools`.
- **Forwarder** (`forwarder.dfy`): the prompt forwarder.
  - It holds one template per tool. Each template is a fixed header, then the user's text verbatim, then a newline and two spaces.
  - `stripMarkdown` removes `` ` * _ # ``, collapses newline runs and trims.
  - `getMockResponse` gives the fixed mock text.
  - The decision logic of `processPrompt` is modelled too. The provider call is an input value (`ProviderOutcome`), and the result records the chat request that would be sent. `None` means no call is made.
- **Store** (`store.dfy`): the prompt-request database and the two handlers that use it.
  - The database is a class `PromptStore`. It holds the records in the order they were saved, and a user table from email to user id.
  - `POST /:id/prompt` looks the tool up, forwards the prompt, appends one record and returns the response.
  - `GET /history` and `POST /history` check the email, resolve the user, and return the user's records newest first, at most fifty of them.
- **Text** (`text.dfy`): the JavaScript string operations the pipeline uses. These are `toLowerCase`, `includes` and `trim`. `trim` removes the ECMAScript WhiteSpace and LineTerminator code points.
- **Seqs** (`seqs.dfy`): the array operations the pipeline uses, each with the facts its callers need. These are `filter`, `find` and `[...new Set(xs)]`.

Inputs that come from outside the router and the forwarder become parameters:

| input | modelled as |
|---|---|
| the module constant `OPENROUTER_API_KEY`, read from the environment variable `OPENROUTER_KEY` | `apiKey: Option<string>` |
| the provider's reply | `outcome`, either a transport error or a status plus a body |
| the verdict of the rate-limit middleware | `withinQuota` |
| whether `save()` resolves | `saveSucceeds` |
| the save time | `now` |
| the authenticated user | `user` |

`SubmitPrompt` answers `ServerError` when `saveSucceeds` is false, as the route's catch block does (server/routes/tools.js:240-246).

## Model

| member | source | states |
|---|---|---|
| Catalog.CatalogIdsUnique | server/routes/tools.js:8-105 | the twelve tool ids of the catalog are pairwise distinct |
| Catalog.CatalogIds | server/routes/tools.js:8-105 | the catalog's id column, in order, is exactly the twelve ids of the source |
| Catalog.ListTools | server/routes/tools.js:110-117 | GET / answers the whole catalog: twelve tools with distinct ids |
| Catalog.GetTool | server/routes/tools.js:199-212 | the lookup returns a catalog tool whose id is the requested one, and reports not-found exactly when no tool has that id |
| Catalog.GetToolUnique | server/routes/tools.js:201-205 | in a catalog with distinct ids, the lookup returns the one tool at the position holding that id |
| Catalog.Categories | server/routes/tools.js:122-130 | the categories come without duplicates. A string is among them exactly when some tool has it as its category. They are ordered by first occurrence in the catalog |
| Catalog.ByCategory | server/routes/tools.js:135-143 | a tool is in the result exactly when it is in the catalog and its category equals the argument, compared case-sensitively, and each such tool occurs as often as in the catalog; the result is an order-preserving subsequence of the catalog |
| Catalog.MatchesQuery | server/routes/tools.js:256-258 | the search predicate holds exactly when the lower-cased query occurs at some position of the lower-cased name or description |
| Catalog.CategoryColumn | server/routes/tools.js:124 | `tools.map(tool => tool.category)` has one entry per tool, each that tool's category |
| Catalog.EmptyQueryMatches | server/routes/tools.js:255-259 | the empty query matches every tool |
| Catalog.Search | server/routes/tools.js:253-265 | a tool is in the result exactly when it is in the catalog and the lower-cased query occurs in its lower-cased name or description, as often as it occurs in the catalog. The result keeps catalog order. The empty query returns the whole catalog |
| Catalog.SearchIgnoresQueryCase | server/routes/tools.js:255 | searching for a query and for its lower-cased form gives the same tools |
| Text.LowerChar | server/routes/tools.js:255-258 | lower-casing maps 'A'..'Z' to 'a'..'z' and leaves every other character alone (ASCII only, see "## Left out") |
| Text.ToLower | server/routes/tools.js:255-258 | `toLowerCase` keeps the length and lower-cases each position |
| Text.ToLowerIdempotent | server/routes/tools.js:255-258 | lower-casing twice is lower-casing once |
| Text.Includes | server/routes/tools.js:257-258 | `s.includes(q)`: the empty query is included in every string, and an included query is no longer than the string. `IncludesIff` states that it holds exactly when `q` occurs at some position |
| Text.IncludesIff | server/routes/tools.js:257-258 | `includes` holds exactly when the query occurs at some position |
| Text.EmptyIncludedEverywhere | server/routes/tools.js:257-258 | the empty string is included in every string |
| Text.LeadingWhitespace | server/utils/promptForwarder.js:159 | the whitespace run at the start of a string is maximal |
| Text.TrailingWhitespaceStart | server/utils/promptForwarder.js:159 | the whitespace run at the end of a string is maximal |
| Text.Trim | server/utils/promptForwarder.js:159 | `trim` returns a slice of its input with no whitespace at either end, obtained by removing whitespace only; a string already trimmed is unchanged |
| Seqs.Filter | server/routes/tools.js:137 | `filter` keeps exactly the elements satisfying the predicate with their multiplicities, and keeps everything when all satisfy it |
| Seqs.FilterMembers | server/routes/tools.js:137 | an element is in the filtered sequence exactly when it is in the input and satisfies the predicate |
| Seqs.FilterIsSubsequence | server/routes/tools.js:137 | `filter` keeps the input order |
| Seqs.FilterCongruent | server/routes/tools.js:256-259 | filtering with two predicates that agree everywhere gives the same result |
| Seqs.FilterSnoc | server/routes/tools.js:163 | filtering a sequence with one element appended is filtering the sequence and then appending that element if it passes |
| Seqs.Find | server/routes/tools.js:201 | `find` returns nothing exactly when no element satisfies the predicate, else an element that does |
| Seqs.FindIsFirst | server/routes/tools.js:201 | `find` returns the element at the first position that satisfies the predicate |
| Seqs.Distinct | server/routes/tools.js:124 | `[...new Set(xs)]` has no duplicates, has exactly the members of `xs`, and orders them by first occurrence |
| Seqs.FirstIndexOfPrefix | server/routes/tools.js:124 | appending an element leaves every earlier first occurrence where it was, and a new element first occurs at the end |
| Forwarder.Render | server/utils/promptForwarder.js:10-155 | `toolPrompts[toolId]?.(prompt)` is defined exactly for the template ids. The text is the tool's fixed header, then the prompt verbatim, then a newline and two spaces |
| Forwarder.RenderEndsWithPrompt | server/utils/promptForwarder.js:152-154 | every rendered template ends with the prompt verbatim followed only by whitespace |
| Forwarder.TemplatesCoverCatalog | server/utils/promptForwarder.js:10-155 | the template keys are exactly the catalog's tool ids |
| Forwarder.RemoveMarkdownChars | server/utils/promptForwarder.js:159 | the first replace leaves no `` ` * _ # ``. Every other character keeps its number of occurrences, the rest keeps its order, and text without marks is unchanged |
| Forwarder.CollapseNewlines | server/utils/promptForwarder.js:159 | the second replace leaves no two adjacent newlines. It keeps the first character, adds no character, and leaves text without newline pairs unchanged. Its partners are `CollapseDropsDoubledNewline` and `CollapseKeepsOtherChars` |
| Forwarder.CollapseDropsDoubledNewline | server/utils/promptForwarder.js:159 | deleting one newline of an adjacent pair does not change the result. With the fixed-point clause, every run of newlines becomes exactly one newline |
| Forwarder.CollapseKeepsOtherChars | server/utils/promptForwarder.js:159 | collapsing removes newlines only: the characters other than newline are the same, in the same order |
| Forwarder.MarkFreeLinesConcat | server/utils/promptForwarder.js:202 | joining two single-line mark-free strings gives a single-line mark-free string |
| Forwarder.SliceKeepsPlainness | server/utils/promptForwarder.js:159 | trimming to a slice keeps the absence of marks and of newline pairs |
| Forwarder.StripMarkdown | server/utils/promptForwarder.js:158-160 | the result has no Markdown characters, no two adjacent newlines and no whitespace at either end; plain text is returned unchanged. `StripMarkdownKeepsContent` states what is kept |
| Forwarder.TrimKeepsContent | server/utils/promptForwarder.js:159 | `trim` removes whitespace only: the non-whitespace, non-mark characters are the same, in the same order |
| Forwarder.StripMarkdownKeepsContent | server/utils/promptForwarder.js:158-160 | sanitising removes marks and whitespace only: every other character survives, in order |
| Forwarder.StripMarkdownIdempotent | server/utils/promptForwarder.js:158-160 | sanitising twice is the same as sanitising once |
| Forwarder.GetMockResponse | server/utils/promptForwarder.js:201-203 | the mock text is the same for every argument, non-empty and already plain text |
| Forwarder.HasKey | server/utils/promptForwarder.js:164 | `!OPENROUTER_API_KEY` is true exactly when the key is undefined or the empty string |
| Forwarder.IsOkStatus | server/utils/promptForwarder.js:190 | `response.ok` holds exactly for the 2xx statuses |
| Forwarder.ReplyText | server/utils/promptForwarder.js:172-197 | a transport error, a non-ok status, an unparsable body or a non-string content give the mock text; otherwise the result is `stripMarkdown` of the content, or of 'No response content' when it is missing or empty; always plain text |
| Forwarder.ProcessPrompt | server/utils/promptForwarder.js:163-198 | without a key: the mock text and no request. "Unknown toolId" exactly when there is a key and no template. A request (fixed model, system message, rendered template) exactly when there is a key and a template, and then the provider reply's text; every answer is plain text |
| Forwarder.CatalogToolsAlwaysAnswer | server/utils/promptForwarder.js:169-170 | for every catalog tool, `processPrompt` returns an answer and never throws "Unknown toolId" |
| Store.InsertNewestFirst | server/routes/tools.js:164 | inserting into the sorted history adds exactly that record |
| Store.InsertKeepsBound | server/routes/tools.js:164 | inserting a record no newer than a bound among records no newer than the bound keeps the bound |
| Store.InsertKeepsNewestFirst | server/routes/tools.js:164 | inserting into a newest-first sequence keeps it newest first |
| Store.SortNewestFirst | server/routes/tools.js:164 | `.sort({ createdAt: -1 })` is a permutation of its input |
| Store.SortIsNewestFirst | server/routes/tools.js:164 | the sorted records have non-increasing `createdAt` |
| Store.SortKeepsLength | server/routes/tools.js:164 | sorting keeps the number of records |
| Store.OwnedBy | server/routes/tools.js:163 | `find({ user })` keeps exactly the records of that user, each as often as it is stored |
| Store.HistoryOf | server/routes/tools.js:163-165 | the query returns min(50, n) records, where n is how many records the user has, all drawn from the user's records |
| Store.PageIsSortedPrefix | server/routes/tools.js:163-165 | the page is the first min(50, n) sorted records of the user, where n is how many records the user has |
| Store.PageRecordsAreOwnedAndStored | server/routes/tools.js:163-165 | every record on the page belongs to the user and is stored |
| Store.PageIsNewestFirst | server/routes/tools.js:163-165 | the page is ordered by non-increasing `createdAt` |
| Store.PrefixKeepsTheNewest | server/routes/tools.js:164-165 | in a newest-first sequence, a record left out of the first k positions is no newer than any of them |
| Store.PrefixOfOwnedKeepsTheNewest | server/routes/tools.js:163-165 | a prefix of a newest-first permutation of a user's records leaves out only records no newer than any on it |
| Store.PageKeepsTheNewest | server/routes/tools.js:163-165 | no record of the user left off the page is newer than a record on it |
| Store.HistoryOfIsHistoryPage | server/routes/tools.js:163-165 | the query answers a history page. It holds min(50, n) records of the user, all stored, newest first, and leaves out none that is newer than one it holds |
| Store.OwnedBySnoc | server/routes/tools.js:233-240 | saving a record of a user appends it to that user's records |
| Store.SortSnoc | server/routes/tools.js:164 | sorting after appending inserts the appended record into the sorted rest |
| Store.NewestSubmissionHeadsHistory | server/routes/tools.js:233-240 | a record saved strictly later than the user's other records heads that user's history |
| Store.OtherHistoriesUnchanged | server/routes/tools.js:233-240 | saving a record of one user leaves every other user's history as it was |
| Store.PromptStore.SubmitPrompt | server/routes/tools.js:217-248 | over quota: 429; unknown tool: 404; a throwing `processPrompt` or a failed save: 500; nothing stored in these cases. Otherwise the forwarder's answer is returned and exactly one record (user, tool id, prompt, that answer, save time) is appended; users unchanged; responses are plain text. The HTTP status is 429, 404 or 200 under exactly those conditions |
| Store.PromptStore.HistoryForEmail | server/routes/tools.js:157-167 | an unknown email answers not-found; a known one answers that user's history page |
| Store.PromptStore.HistoryByQuery | server/routes/tools.js:148-172 | 400 exactly when the email is missing, empty or not a string; 404 exactly when it is valid but unknown; otherwise the query result, a history page of that user |
| Store.PromptStore.HistoryByBody | server/routes/tools.js:174-197 | 400 exactly when the email is missing or empty; 404 exactly when it is given but unknown; otherwise the query result, a history page of that user |
| Store.CatalogSubmissionsNeverThrow | server/routes/tools.js:223-230 | once the router has found the tool, `processPrompt` returns an answer whatever the key and the provider outcome |
| Store.SubmitFixBugWithoutKey | server/routes/tools.js:217-248 | submitting to "fix-bug" with no key and an unreachable provider answers the mock text and saves exactly one record with it |
| Store.FixBugScenario | server/routes/tools.js:148-172 | after that submission the user's history is exactly that one record |

Provider outcomes, `Forwarder.ReplyText`:
- The mock text is returned for each of these:
  - a transport error;
  - a status outside 200..299;
  - an unparsable body;
  - a truthy content that is not a string, on which `stripMarkdown` throws.
- Otherwise the result is `stripMarkdown` of the content.
- When the content is missing or empty, the result is `stripMarkdown('No response content')`.
- The result is always plain text.

processPrompt, `Forwarder.ProcessPrompt`:
- Without a key, the result is the mock text and no request is sent, whatever the tool id.
- The "Unknown toolId" error happens exactly when there is a key and the id has no template. No request is sent in that case.
- A request is sent exactly when there is a key and the id has a template.
  - The request carries the fixed model, the fixed system message and the rendered template.
  - The result is then the provider reply's text.
- Every answer is plain text.

POST /:id/prompt, `Store.PromptStore.SubmitPrompt`:
- Over quota: 429, and nothing is stored.
- An unknown tool: 404, and nothing is stored.
- Otherwise the prompt is forwarded.
  - If `processPrompt` throws or `save()` fails, the reply is 500 and nothing is stored.
  - Otherwise the reply is the forwarder's answer, and the store gains exactly one record at its end. The record holds the user, the tool id, the prompt, that same answer and the save time. Earlier records are unchanged.
- The user table never changes, and a returned response is plain text.

History, `Store.PromptStore.HistoryByQuery` (GET) and `Store.PromptStore.HistoryByBody` (POST):
- 400 exactly when the email is missing or empty. For GET, also when it is not a string.
- 404 exactly when the email is valid but unknown.
- Otherwise the reply is the query result, which is a history page.

## Left out

- The rate-limit middleware `checkRateLimit` and the stats routes are not part of this model. `withinQuota` stands for `checkRateLimit`'s verdict. The middleware's code is outside this model, so the 429 status is an assumption.
- The IP rate limiter in server/index.js, authentication and `req.user`: the user id is a parameter.
- The HTTP call in `processPrompt` (`node-fetch`, its headers, `JSON.stringify`, `response.json()`): its outcome is the input `ProviderOutcome`. The site URL and title headers are not modelled.
- Mongoose and MongoDB: the store is an in-memory sequence.
  - `_id` and `updatedAt` are not modelled; `createdAt` is the save time `now`.
  - Store.PromptStore.HistoryByQuery, Store.PromptStore.HistoryByBody: a rejected `User.findOne` or `find/sort/limit` is not modelled, so the catch blocks' 500 answer (server/routes/tools.js:168-171, 193-196) has no counterpart. The in-memory store never fails on a read.
  - Status fields are not modelled.
  - `async`/`await` and concurrency between requests are not modelled. Each handler runs to completion on its own.
- Console logging.
- Store.SortNewestFirst: MongoDB leaves the order of records with equal `createdAt` unspecified. The model fixes one order: records saved at the same instant come in reverse insertion order. Only the equation `r.items == HistoryOf(...)` in the history handlers depends on that choice. `IsHistoryPage`, `NewestSubmissionHeadsHistory` and `OtherHistoriesUnchanged` hold for any order of ties.
- Store.PromptStore.HistoryByBody: a body `email` that is truthy but not a string is not modelled. The body email is a string or absent. What `User.findOne` does with such a value is database behaviour.
- Store.PromptStore.SubmitPrompt: a missing `prompt` in the body is not modelled. In the source, `undefined` is interpolated into the template as `"undefined"`. The prompt is a string here.
- Text.ToLower, Text.LowerChar: `toLowerCase` is modelled for ASCII letters only. JavaScript also maps, for example, 'Ä' to 'ä' and U+212A KELVIN SIGN to 'k', so a search for U+212A matches "Code Review" in JavaScript but nothing in the model. Other Unicode case mappings are not modelled.
- Forwarder.Render: the keys of `toolPrompts` are looked up as a closed map. JavaScript would also find inherited keys such as `constructor` or `toString`. The router never reaches them, because it first checks the id against the catalog.
- Store.PromptStore.SubmitPrompt: the router's catalog is the const field `catalog`. The constructor sets it to `Catalog.Tools`.
- The client pages, the documentation page and the auth context: presentation only.
