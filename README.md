# Hiring agent: a Dafny model of the search-history store and the AI services

The hiring agent takes a job description, extracts keywords from it with a
language model, searches LinkedIn profiles through Google Custom Search,
scores the candidates against the keywords and writes outreach messages.
Logged-in users keep a history of their searches on the server. This
project models and proves properties of:

- the history store: the `User` schema with its embedded history entries,
  the pre-save password hashing and `matchPassword`
  (`server/models/User.js`); the `addHistory`, `getHistory` and
  `deleteHistory` handlers (`server/controllers/historyController.js`); and
  the history router, which puts `protect` in front of every route and
  holds the inline `GET /:id` handler (`server/routes/historyRoutes.js`);
- the client's history panel, with its list, its loading flag, the fetch
  on mount and the optimistic delete that restores the list when the call
  fails (`client/hiring-agent/src/components/History.jsx`);
- the AI services:
  - keyword extraction (`aiservices/utils/extract.py`);
  - profile search (`aiservices/utils/profileFinder.py`);
  - scoring and ranking (`aiservices/utils/scoring.py`);
  - outreach messages (`aiservices/utils/outreach.py`).

## Layout

| file | module | models |
|---|---|---|
| `wrappers.dfy` | `Wrappers` | the `Option` and `Result` types |
| `json.dfy` | `Json` | JSON values (a stored `results` object, a parsed model reply) |
| `candidate.dfy` | `Candidates` | a candidate dictionary whose keys may be missing |
| `pystr.dfy` | `PyStr` | the string operations the code relies on, with Python's meaning: `isspace`, `strip`, `lower`, `in`, `find`, `rfind`, `split`, `replace`, `title`, slicing; also the decimal text of an id |
| `user_model.dfy` | `UserModel` | the schemas, the pre-save hook, `matchPassword` |
| `history_store.dfy` | `HistoryStore` | the database of user documents and the three controller handlers |
| `history_routes.dfy` | `HistoryRoutes` | the route table, request dispatch, the `GET /:id` handler |
| `history_view.dfy` | `HistoryView` | the `History` component |
| `extract.dfy` | `Extract` | `extract_keywords_from_jd` |
| `profile_finder.dfy` | `ProfileFinder` | `LinkedInSourcingAgent` |
| `scoring.dfy` | `Scoring` | `score_candidates_dynamic` |
| `outreach.dfy` | `Outreach` | `OutreachGenerator` and `generate_outreach` |

Code that keeps state is written as classes whose methods update fields:
- the database (`HistoryStore.Store`);
- a loaded user document (`UserModel.UserDocument`);
- the React component (`HistoryView.HistoryPanel`);
- the two Python service objects (`ProfileFinder.LinkedInSourcingAgent` and `Outreach.OutreachGenerator`, whose only state is a flag fixed when they are built).

Loops are methods with invariants, each proved equal to a function that states what the loop computes. Pure computations are functions, and lemmas state their properties.

Everything outside the code is a parameter:
- the language model;
- `json.loads`;
- the search service;
- bcrypt's hash and compare;
- `protect`;
- the clock;
- whether a database call throws.

Scores are exact integers. The weighted sum is kept in percent and the score in hundredths.

Where the documented behaviour and the code differ, the model follows the code:
- `mode` is free text (`server/models/User.js:9`), not one of "quick" and "full".
- A history entry missing a required field is rejected by Mongoose's validation. That error reaches the handler's `catch`, so the answer is 500, not 400.

## Model

| member | source | states |
|---|---|---|
| `PyStr.LStrip` | aiservices/utils/extract.py:43 | leading-whitespace removal leaves a string no longer than the input that is empty or starts with a non-whitespace character |
| `PyStr.RStrip` | aiservices/utils/extract.py:43 | trailing-whitespace removal leaves a prefix of the input that is empty or ends with a non-whitespace character |
| `PyStr.LStripDropsBlank` | aiservices/utils/extract.py:43 | what `lstrip` drops is whitespace, and the rest is the input from that point on, character for character |
| `PyStr.RStripDropsBlank` | aiservices/utils/extract.py:43 | what `rstrip` drops is whitespace |
| `PyStr.StripEmptyIffBlank` | aiservices/utils/extract.py:19-20 | `not s.strip()` holds exactly when every character of `s` is whitespace |
| `PyStr.Strip` | aiservices/utils/extract.py:43 | `strip()` is `rstrip()` after `lstrip()`; what it means is stated by `LStripDropsBlank`, `RStripDropsBlank` and `StripEmptyIffBlank` |
| `PyStr.TitleFromAt` | aiservices/utils/profileFinder.py:68 | `title()` resumed after a cased or uncased character, one character at a time |
| `PyStr.TitleFromLength` | aiservices/utils/profileFinder.py:68 | `title()` keeps the length |
| `PyStr.TitleAt` | aiservices/utils/profileFinder.py:68 | `title()` upper-cases a letter at the start or after a non-letter, lower-cases the other letters, keeps every other character |
| `PyStr.Lower` | aiservices/utils/scoring.py:24-25 | `lower()` keeps the length, turns each ASCII upper-case letter into its lower-case form and keeps every other character |
| `PyStr.Title` | aiservices/utils/profileFinder.py:68 | `title()` starts as after a character that is not a letter; its meaning character by character is `TitleAt` |
| `PyStr.OccursShift` | aiservices/utils/scoring.py:32 | an occurrence in the tail is an occurrence in the whole string one place later |
| `PyStr.ContainsIff` | aiservices/utils/scoring.py:32 | Python's substring `in` holds exactly when the needle occurs at some index |
| `PyStr.Contains` | aiservices/utils/scoring.py:32 | substring `in`, tried at each starting index; `ContainsIff` states that it holds exactly when the needle occurs at some index |
| `PyStr.Find` | aiservices/utils/extract.py:46 | `find` returns -1 or an index within the string |
| `PyStr.FindFirstOccurrence` | aiservices/utils/extract.py:46 | `find` returns the first index where the needle occurs; -1 exactly when it occurs nowhere |
| `PyStr.RFind` | aiservices/utils/extract.py:47 | `rfind` returns -1 or an index within the string |
| `PyStr.RFindLastOccurrence` | aiservices/utils/extract.py:47 | `rfind` returns the last index where the needle occurs; -1 exactly when it occurs nowhere |
| `PyStr.Before` | aiservices/utils/profileFinder.py:67 | `split(sep)[0]` is a prefix of the string |
| `PyStr.BeforeFirstSep` | aiservices/utils/profileFinder.py:67 | `split(sep)[0]` ends at the first separator (or is the whole string) and holds no separator |
| `PyStr.BeforeHasNoSep` | aiservices/utils/profileFinder.py:67 | the first part of a split at a character does not contain that character |
| `PyStr.After` | aiservices/utils/profileFinder.py:65-67 | the text after the first separator is a suffix that leaves room for the separator |
| `PyStr.AfterFollowsFirst` | aiservices/utils/profileFinder.py:65-67 | that suffix starts right after the first occurrence of the separator |
| `PyStr.FindIsFirst` | aiservices/utils/profileFinder.py:65-67 | an occurrence with none before it is what `find` returns |
| `PyStr.OccursInPrefix` | aiservices/utils/profileFinder.py:67 | an occurrence in a prefix is an occurrence in the whole string that ends within the prefix, and conversely |
| `PyStr.BeforeBefore` | aiservices/utils/profileFinder.py:65-67 | cutting at "/in/" and then at "/" cuts where cutting at "/" alone does |
| `PyStr.Word` | aiservices/utils/outreach.py:76 | the leading run of non-whitespace is a prefix with no whitespace, followed by whitespace or the end |
| `PyStr.FirstToken` | aiservices/utils/outreach.py:76 | `split()[0]`, None where Python raises IndexError; its meaning is `FirstTokenNoneIffBlank` and `FirstTokenShape` |
| `PyStr.FirstTokenNoneIffBlank` | aiservices/utils/outreach.py:76 | `split()[0]` raises exactly for a blank string |
| `PyStr.FirstTokenShape` | aiservices/utils/outreach.py:76 | `split()[0]` is the first maximal run of non-whitespace, preceded only by whitespace |
| `PyStr.SliceTo` | aiservices/utils/extract.py:68 | `s[:n]` is a prefix of length min(n, len(s)) for n ≥ 0, and drops -n characters from the end for n < 0 |
| `PyStr.NatText` | server/controllers/historyController.js:56 | an id's text is non-empty, one character long exactly for ids below 10 |
| `PyStr.NatTextInjective` | server/controllers/historyController.js:56 | distinct ids have distinct texts, so comparing `_id.toString()` compares ids |
| `UserModel.MissingPaths` | server/models/User.js:7-10 | each required path of the history schema is reported exactly when it is missing (an empty string or a null object counts as missing); none is reported exactly when all are given |
| `UserModel.CastEntry` | server/models/User.js:5-14 | casting fails exactly when a required path is missing and names those paths; otherwise it copies every given path, takes its own id, and defaults the timestamp to now |
| `UserModel.AnyModeAccepted` | server/models/User.js:9 | any non-empty mode is accepted, not only "quick" and "full" |
| `UserModel.UserDocument.Create` | server/models/User.js:17-27 | a new document holds the given name, email and raw password with an empty history, and its password counts as modified |
| `UserModel.UserDocument.Load` | server/controllers/historyController.js:10 | a loaded document holds the stored record and nothing is modified |
| `UserModel.UserDocument.SetPassword` | server/models/User.js:31 | assigning the password changes only the password and marks it modified |
| `UserModel.UserDocument.PreSave` | server/models/User.js:30-34 | an unmodified password is left alone; a modified one is replaced by its hash under a salt of cost 10; nothing else changes |
| `UserModel.UserDocument.MatchPassword` | server/models/User.js:37-39 | the result is bcrypt's comparison of the entered password with the stored hash |
| `UserModel.RegisterThenLogin` | server/models/User.js:30-39 | after registering, the stored password is the hash of the raw one, logging in with the raw password succeeds, and re-saving without a password change keeps the hash |
| `HistoryStore.NewHistory` | server/controllers/historyController.js:14-20 | the object `addHistory` pushes: the body's title, jd, mode and results as given (any may be missing) and the current time, with no `_id`; `Store.AddHistory` and `UserModel.CastEntry` state what becomes of it |
| `HistoryStore.WithoutId` | server/controllers/historyController.js:55-57 | the filter keeps exactly the entries whose id text differs from the given id, and never grows the array |
| `HistoryStore.WithoutIdAppend` | server/controllers/historyController.js:55-57 | filtering works piece by piece, so kept entries stay in order |
| `HistoryStore.WithoutIdKeepsUnmatched` | server/controllers/historyController.js:55-57 | an array with no entry of that id is returned unchanged |
| `HistoryStore.WithoutIdIdempotent` | server/controllers/historyController.js:49-65 | filtering twice by the same id gives what filtering once gave |
| `HistoryStore.FindById` | server/routes/historyRoutes.js:26 | the lookup finds an entry of the array with that id text, and finds none exactly when no entry has it |
| `HistoryStore.IdTextInjective` | server/models/User.js:13 | entries with different ids have different id texts |
| `HistoryStore.FindAppended` | server/routes/historyRoutes.js:26 | after an entry with a fresh id is pushed, looking up its id finds it |
| `HistoryStore.AddThenDelete` | server/controllers/historyController.js:22-57 | deleting the id of an entry just pushed with a fresh id restores the array |
| `HistoryStore.WithoutIdKeepsUnique` | server/controllers/historyController.js:55-59 | the filter keeps ids unique within the array |
| `HistoryStore.Appended` | server/controllers/historyController.js:22-23 | push and save change only the owner's document, and only by the entry at the end of its array |
| `HistoryStore.Deleted` | server/controllers/historyController.js:55-59 | reassigning and saving the filtered array changes only the owner's document |
| `HistoryStore.AppendedKeepsInvariant` | server/controllers/historyController.js:22-23 | appending a well-formed entry under the next id keeps every document valid, ids unique and below the generator |
| `HistoryStore.DeletedKeepsInvariant` | server/controllers/historyController.js:55-59 | deleting keeps the database invariant |
| `HistoryStore.DeleteTwiceSameAsOnce` | server/controllers/historyController.js:49-65 | a repeated delete leaves the database as the first one did |
| `HistoryStore.GetHistory` | server/controllers/historyController.js:34-44 | 500 with the error's message when the lookup throws, 404 "User not found" for an unknown user, 200 with the whole array in stored order otherwise |
| `HistoryStore.ListAfterAppend` | server/controllers/historyController.js:22-40 | listing after an add shows the old entries in order, then the new one |
| `HistoryStore.AppendAll` | server/controllers/historyController.js:22-23 | a run of adds keeps the set of users |
| `HistoryStore.ListAfterAppendAll` | server/controllers/historyController.js:22-40 | after any run of adds, the listing is the old array followed by exactly the added entries, in order |
| `HistoryStore.AddOutcome` | server/controllers/historyController.js:6-29 | `addHistory` as a function of the database: 201 exactly when the lookup and the save do not throw, the user exists and no required field is missing, and then the cast entry is appended to the caller's array under the next id; every other answer is 404 or 500 and leaves the database and the id generator as they were |
| `HistoryStore.DeleteOutcome` | server/controllers/historyController.js:49-65 | `deleteHistory` as a function of the database: 200 "History item deleted" exactly when the lookup and the save do not throw and the user exists, and then only the caller's array is filtered; every other answer is 404 or 500 and leaves the database as it was; no id is issued |
| `HistoryStore.AddOutcomeKeepsInvariant` | server/controllers/historyController.js:6-29 | whatever `addHistory` answers, the stored documents keep unique, well-formed, already issued ids |
| `HistoryStore.DeleteOutcomeKeepsInvariant` | server/controllers/historyController.js:49-65 | whatever `deleteHistory` answers, the stored documents keep the invariant |
| `HistoryStore.Store.constructor` | server/models/User.js:17-27 | an empty database satisfies the invariant |
| `HistoryStore.Store.InsertUser` | server/models/User.js:17-34 | a new user with a missing name, email or password fails validation, naming those paths; a taken email fails the unique index; a failing save fails; otherwise the user is stored under a fresh id, which moves the id generator on by one, with the hashed password and an empty history; every failure leaves the users and the id generator as they were; the invariant is kept |
| `HistoryStore.Store.AddHistory` | server/controllers/historyController.js:6-29 | 201 with the pushed literal, and the entry appended under a fresh id at the end of the caller's array; 404 for an unknown user; 500 with the error's message for a failing lookup, a failing save or a missing field (Mongoose's validation message); every failure leaves the database unchanged; the answer, database and generator are exactly `AddOutcome`'s |
| `HistoryStore.Store.DeleteHistory` | server/controllers/historyController.js:49-65 | 200 "History item deleted" with every entry of that id removed from the caller's array, whether or not one matched; 404 for an unknown user; 500 with the error's message when the lookup or the save throws, leaving the database unchanged; the answer and database are exactly `DeleteOutcome`'s |
| `HistoryRoutes.EveryRouteProtected` | server/routes/historyRoutes.js:9-18 | every registered route runs `protect` first |
| `HistoryRoutes.ParamOf` | server/routes/historyRoutes.js:15-18 | a route parameter is a non-empty segment without '/', with at most one trailing '/' |
| `HistoryRoutes.MatchPath` | server/routes/historyRoutes.js:9-18 | the pattern "/" matches only the path "/"; a parameter pattern matches a path exactly when `ParamOf` finds its segment, which it captures; `Resolve` states the dispatch built on it |
| `HistoryRoutes.Resolve` | server/routes/historyRoutes.js:9-18 | a request reaches the first registration whose verb and path match; none is reached when none matches |
| `HistoryRoutes.ResolveFrom` | server/routes/historyRoutes.js:9-18 | the same search, starting at a given registration |
| `HistoryRoutes.ListAndItemRoutesDisjoint` | server/routes/historyRoutes.js:12-18 | `GET /` reaches `getHistory` and `GET /x` reaches the item handler with `x` |
| `HistoryRoutes.GetHistoryItem` | server/routes/historyRoutes.js:18-37 | 500 "Server error" when the lookup throws, 404 "User not found", 404 "History item not found" exactly when no entry of the caller's array has that id; a 200 answer is an entry of the caller's own array with that id |
| `HistoryRoutes.GetHistoryItemOwnerOnly` | server/routes/historyRoutes.js:20-26 | other users' documents do not affect the answer |
| `HistoryRoutes.AddThenGetItem` | server/routes/historyRoutes.js:26 | getting the id of a just-added entry returns that entry |
| `HistoryRoutes.DeleteThenGetItem` | server/routes/historyRoutes.js:26-30 | getting a deleted id answers 404 "History item not found" |
| `HistoryRoutes.Serve` | server/routes/historyRoutes.js:9-37 | no matching route: not answered, nothing written; a rejected token: 401 before any store access; otherwise the route's handler runs for the authenticated user: a GET answers `GetHistory` or `GetHistoryItem` and writes nothing, a POST leaves exactly the answer, database and generator of `AddOutcome`, a DELETE exactly those of `DeleteOutcome` with the path's id |
| `HistoryView.ListReply` | client/hiring-agent/src/components/History.jsx:39-42 | a list is handed to the panel only from a 2xx reply carrying that list |
| `HistoryView.ListReplyOfGetHistory` | client/hiring-agent/src/components/History.jsx:39-42 | for a known user the panel receives that user's whole stored list; for an unknown user the call rejects |
| `HistoryView.HistoryPanel.constructor` | client/hiring-agent/src/components/History.jsx:26-27 | the panel starts with an empty list, loading |
| `HistoryView.HistoryPanel.Render` | client/hiring-agent/src/components/History.jsx:68-83 | the skeleton exactly while loading, the placeholder exactly for an empty loaded list, otherwise one row per entry |
| `HistoryView.HistoryPanel.FetchHistory` | client/hiring-agent/src/components/History.jsx:32-50 | a request is made exactly when there is a non-empty token; a resolved list replaces the shown one, anything else keeps it; loading ends either way |
| `HistoryView.HistoryPanel.BeginDelete` | client/hiring-agent/src/components/History.jsx:53-54 | the old list is kept as a copy and the rows with that id are removed |
| `HistoryView.HistoryPanel.SettleDelete` | client/hiring-agent/src/components/History.jsx:55-60 | a rejected call restores the copy; a resolved one keeps the current list |
| `HistoryView.HistoryPanel.HandleDelete` | client/hiring-agent/src/components/History.jsx:52-61 | on success the rows with that id are gone and the others keep their order; on failure the list is exactly as before |
| `HistoryView.DeleteKeepsPanelInStep` | client/hiring-agent/src/components/History.jsx:52-61 | after a fetch and a successful delete, the panel shows what the server stores: the user's entries without that id |
| `Extract.WithField` | aiservices/utils/extract.py:53-54 | assigning one key changes that key only |
| `Extract.Truncate` | aiservices/utils/extract.py:23 | a description of at most 1500 characters is sent as is; a longer one is cut to 1500 characters followed by "..." |
| `Extract.PromptHoldsDescription` | aiservices/utils/extract.py:25-33 | the prompt carries the truncated description right after its fixed head |
| `Extract.Prompt` | aiservices/utils/extract.py:25-33 | the prompt: a fixed head, the truncated description, a fixed tail with the four default keys; `PromptHoldsDescription` states where the description stands |
| `Extract.JsonSlice` | aiservices/utils/extract.py:46-50 | a text is handed to `json.loads` exactly when the reply holds a '{' and a '}' |
| `Extract.JsonSliceShape` | aiservices/utils/extract.py:46-52 | a non-empty slice starts at the first '{', ends at the last '}' and is exactly that long; the slice is empty exactly when the last '}' comes before the first '{' |
| `Extract.Iterate` | aiservices/utils/extract.py:61 | `extend` raises exactly for null, booleans and numbers, and adds a list's items |
| `Extract.IterateTexts` | aiservices/utils/extract.py:61 | extending by a string adds its characters; by an object, its keys |
| `Extract.CopyKeys` | aiservices/utils/extract.py:53-54 | each default key takes the parsed value, or [] when the key is absent |
| `Extract.Structure` | aiservices/utils/extract.py:43-56 | the structured dict read from a reply: the defaults when there are no braces or the text does not decode, the parsed dict's four keys otherwise, None when the parsed value is not a dict; `ReadReply` is the code proved equal to it |
| `Extract.Flatten` | aiservices/utils/extract.py:58-61 | the four values extended one after the other; `FlattenOrder` states the order and when it fails |
| `Extract.FlattenOrder` | aiservices/utils/extract.py:59-61 | the keywords are the job titles, then the skills, the location and the companies; they exist exactly when all four are iterable |
| `Extract.BlankGivesDefaults` | aiservices/utils/extract.py:19-20 | a blank description gives the default keys and no keywords, without calling the model |
| `Extract.Extracted` | aiservices/utils/extract.py:13-73 | the whole extraction: a blank description gives the defaults and no keywords, any other goes to the model; `BlankGivesDefaults`, `ExtractedBound` and `NeverEmptyForRealDescription` state its properties |
| `Extract.FromResponse` | aiservices/utils/extract.py:35-73 | what follows the model call: the fallback when the call raised or the value is not a dict, otherwise what the structured dict gives; `ResponseNeverEmpty` and `WellFormedReply` state its properties |
| `Extract.Finish` | aiservices/utils/extract.py:63-73 | the fallback list for empty keywords and the cut to `max_keywords`; `FinishBound` and `FinishNeverEmpty` state its properties |
| `Extract.ExtractedBound` | aiservices/utils/extract.py:68-73 | at most `max_keywords` keywords are returned |
| `Extract.FinishBound` | aiservices/utils/extract.py:63-68 | the last step returns at most `max_keywords` keywords |
| `Extract.NeverEmptyForRealDescription` | aiservices/utils/extract.py:13-73 | for a description that is not blank the keyword list is never empty (when at least one is asked for) |
| `Extract.ResponseNeverEmpty` | aiservices/utils/extract.py:35-73 | whatever the model replies, or if it raises, the keyword list is not empty |
| `Extract.FinishNeverEmpty` | aiservices/utils/extract.py:63-73 | the fallback list replaces an empty or failed flattening |
| `Extract.WellFormedReply` | aiservices/utils/extract.py:43-68 | a reply holding a dict of four lists yields those lists and, in key order, their items as the keywords |
| `Extract.ExtractKeywordsFromJd` | aiservices/utils/extract.py:13-73 | the method computes the extraction that `Extracted` specifies |
| `Extract.HandleResponse` | aiservices/utils/extract.py:35-73 | the `try` block after the call computes `FromResponse` |
| `Extract.Conclude` | aiservices/utils/extract.py:63-68 | the fallback and the cut compute `Finish` |
| `Extract.FlattenKeys` | aiservices/utils/extract.py:58-61 | the flatten loop computes `Flatten` |
| `Extract.FlattenStaysFailed` | aiservices/utils/extract.py:58-61 | once one `extend` raises, the flattening fails |
| `Extract.ReadReply` | aiservices/utils/extract.py:43-56 | reading the reply computes `Structure`: the defaults, overwritten by a parsed dict's keys; a non-dict raises |
| `Extract.CopyDefaultKeys` | aiservices/utils/extract.py:48-54 | the copy loop computes `CopyKeys` |
| `ProfileFinder.NameSegmentShape` | aiservices/utils/profileFinder.py:65-67 | the name segment is the text after the first "/in/" up to the first '/' or '?', and holds neither |
| `ProfileFinder.NameSegment` | aiservices/utils/profileFinder.py:65-67 | `split("/in/")[1].split("/")[0].split("?")[0]`; `NameSegmentShape` states what it is |
| `ProfileFinder.ExtractNameFromUrl` | aiservices/utils/profileFinder.py:63-71 | a URL without "/in/" gives "Unknown" |
| `ProfileFinder.ExtractNameAt` | aiservices/utils/profileFinder.py:67-68 | the name has the segment's length; '-' and '_' become spaces, and letters are title-cased |
| `ProfileFinder.ExtractNameClean` | aiservices/utils/profileFinder.py:63-71 | the name holds no '/', '?', '-' or '_' |
| `ProfileFinder.Query` | aiservices/utils/profileFinder.py:28 | the query: "site:linkedin.com/in/ " followed by the keywords joined by spaces |
| `ProfileFinder.FromItem` | aiservices/utils/profileFinder.py:43-52 | a candidate carries the name read from the link, the link, the snippet (by default "No headline available") and the title (by default "") |
| `ProfileFinder.StaticData` | aiservices/utils/profileFinder.py:73-77 | the static list holds two named profiles with URLs and no title |
| `ProfileFinder.RepliesSnoc` | aiservices/utils/profileFinder.py:34-41 | fetching another page adds its items at the end, or fails when that call raises |
| `ProfileFinder.AppendHits` | aiservices/utils/profileFinder.py:42-55 | the item loop turns the first hits into candidates, in order, stopping at `num_results` |
| `ProfileFinder.WellPagedSnoc` | aiservices/utils/profileFinder.py:33-38 | each request uses the query, starts at 1, 11 or 21, and asks for 1 to 10 results |
| `ProfileFinder.FullPagesSnoc` | aiservices/utils/profileFinder.py:56-57 | paging continues only after full pages |
| `ProfileFinder.HitCount` | aiservices/utils/profileFinder.py:41 | the number of items the pages returned, a raising call counting none; `RepliesCount` ties it to the items gathered |
| `ProfileFinder.RepliesCount` | aiservices/utils/profileFinder.py:41-52 | when no call raised, the items gathered are as many as the pages returned |
| `ProfileFinder.Wanted` | aiservices/utils/profileFinder.py:37 | `min(per_page, num_results - len(candidates))`; `AskedSnoc` and `FetchPage` state that every request asks for it |
| `ProfileFinder.AskedSnoc` | aiservices/utils/profileFinder.py:37 | a request for the hits still missing (at most a page) keeps every request of the search asking for the hits missing before it |
| `ProfileFinder.LinkedInSourcingAgent.constructor` | aiservices/utils/profileFinder.py:9-17 | static data is used exactly when the API key or the engine id is missing or empty |
| `ProfileFinder.LinkedInSourcingAgent.SearchLinkedIn` | aiservices/utils/profileFinder.py:20-61 | without credentials: the static list, no calls; otherwise page requests with the query, starts 1, 11, 21 and each asking for `min(10, num_results - hits so far)`; the first `num_results` hits as candidates (or the static list when there are none); a raising call raises; paging stops only after a short page, enough hits or three pages |
| `ProfileFinder.FetchPage` | aiservices/utils/profileFinder.py:34-55 | one page is requested at the next start for `min(10, num_results - len(candidates))` hits, and its items extend the candidates |
| `ProfileFinder.FetchPages` | aiservices/utils/profileFinder.py:33-59 | the paging loop asks each page for the hits still missing, returns the first hits of the pages it requested and stops for one of the three reasons |
| `Scoring.Terms` | aiservices/utils/scoring.py:16-20 | one keyword list, each term lower-cased; [] when the key is absent |
| `Scoring.Normalize` | aiservices/utils/scoring.py:16-20 | the five lists read from "job_titles", "skills", "companies", "industries" and "locations" |
| `Scoring.AnyOccursIff` | aiservices/utils/scoring.py:32 | `any(t in ...)` holds exactly when some term occurs in one of the texts |
| `Scoring.CountOccurring` | aiservices/utils/scoring.py:35 | the skill count is at most the number of skills, and 0 exactly when no skill occurs |
| `Scoring.ScoreBreakdown` | aiservices/utils/scoring.py:28-63 | every tier lies between 5 and 9, education is 8 |
| `Scoring.BreakdownMeaning` | aiservices/utils/scoring.py:28-63 | what each tier's value means: title 9 exactly when a job title occurs in the title or headline; skills 5, 6, 7, 9 exactly for 0, 1, 2, 3 or more matching skills; company 9 for a company in the headline, 7 for an industry but no company; location 9 exactly for a location in the headline; experience 9 from five years, 7 from three |
| `Scoring.WeightedPercent` | aiservices/utils/scoring.py:66-74 | the weighted sum of the tiers in percent; `ScoreBounds` bounds it by 515 and 895 |
| `Scoring.Normalized` | aiservices/utils/scoring.py:75 | the score in hundredths is within 4/9 of a hundredth of 10/9 of the weighted sum, so it is the correct rounding |
| `Scoring.NormalizedUnique` | aiservices/utils/scoring.py:75 | only one integer is that close, so there is no tie and floating-point error cannot change it |
| `Scoring.NormalizedMonotone` | aiservices/utils/scoring.py:75 | a higher weighted sum never gives a lower score |
| `Scoring.ScoreBounds` | aiservices/utils/scoring.py:66-75 | every score lies between 5.72 and 9.94 |
| `Scoring.ScoreOne` | aiservices/utils/scoring.py:23-83 | a candidate aborts the scoring exactly when it has no name or no URL key |
| `Scoring.ScoreOneRecord` | aiservices/utils/scoring.py:77-83 | the record keeps the name, URL and headline, holds the tiers of the lower-cased headline and title, and its score is the bounded rounding |
| `Scoring.Insert` | aiservices/utils/scoring.py:86 | inserting adds one record |
| `Scoring.InsertPermutes` | aiservices/utils/scoring.py:86 | inserting adds the record and loses none |
| `Scoring.InsertSorted` | aiservices/utils/scoring.py:86 | inserting keeps the order by descending score |
| `Scoring.WithScoreCons` | aiservices/utils/scoring.py:86 | the records of one score in a list with a record in front |
| `Scoring.WithScoreInsert` | aiservices/utils/scoring.py:86 | inserting puts the record first among those of its score |
| `Scoring.SortByScore` | aiservices/utils/scoring.py:86 | the sort is by descending score and a permutation |
| `Scoring.SortStable` | aiservices/utils/scoring.py:86 | records with equal scores keep their input order |
| `Scoring.ScoreEach` | aiservices/utils/scoring.py:22-83 | the scoring loop as a recursion; `ScoreEachMeaning` states what it returns |
| `Scoring.ScoreEachMeaning` | aiservices/utils/scoring.py:22-83 | scoring aborts exactly when some candidate does; otherwise it holds each candidate's record, in order |
| `Scoring.ScoreCandidatesDynamic` | aiservices/utils/scoring.py:3-87 | the result is every candidate's record, sorted by descending score, with equal scores in input order; it aborts exactly when a candidate lacks a name or URL |
| `Outreach.FirstName` | aiservices/utils/outreach.py:76 | `candidate.get("name", "there").split()[0]`: when it does not raise, a non-empty run of non-whitespace |
| `Outreach.FirstNameNoneIffBlank` | aiservices/utils/outreach.py:76 | reading the first name raises exactly when a name is given and is blank |
| `Outreach.FirstNameShape` | aiservices/utils/outreach.py:76 | the first name is the first word of the name (or of "there") |
| `Outreach.BasicMessage` | aiservices/utils/outreach.py:72-80 | the template raises exactly when the first name does, and otherwise starts with "H" |
| `Outreach.BasicMessageShape` | aiservices/utils/outreach.py:72-80 | the template greets the first name, quotes the headline (by default "their experience") and ends with the fixed closing |
| `Outreach.Message` | aiservices/utils/outreach.py:19-70 | `generate_message` for a generator that does or does not use the model: it raises exactly when the first name does, with or without the model |
| `Outreach.MessageNoneIffBlankName` | aiservices/utils/outreach.py:19-27 | generating a message raises exactly for a blank name, with or without the model |
| `Outreach.ModelReplyUsed` | aiservices/utils/outreach.py:58-70 | with the model, a non-blank reply is the message, stripped; a raising call or a blank reply gives the template |
| `Outreach.MessageNeverBlank` | aiservices/utils/outreach.py:66-67 | a message is never empty and never starts with whitespace |
| `Outreach.OutreachGenerator.constructor` | aiservices/utils/outreach.py:10-17 | the model is used exactly when the API key is set and not empty |
| `Outreach.OutreachGenerator.GenerateMessage` | aiservices/utils/outreach.py:19-70 | the method returns `Message` for the generator's own flag |
| `Outreach.GenerateOutreach` | aiservices/utils/outreach.py:82-95 | one entry per candidate, in order, with the name, URL (by default ""), score (by default 0) and exactly the message `generate_message` gives for it, which is never blank and is the template without an API key; it raises exactly when some candidate's name is blank |

## Left out

- Floating point: scores are integers in hundredths. Python's `round` lands within half a hundredth plus a tiny float error of 10w/9; since 9n - 10w is an integer, that bound is at most 4, and `Scoring.NormalizedUnique` then makes the score `Normalized(w)`.
- Network, HTTP framing, JSON serialisation, `console.error` and `print` are not modelled. The language model, `json.loads`, the Google search service, bcrypt and `protect` are parameters.
- `protect` is taken to set a user whose `id` is the text of its `_id`, so one user id stands for `req.user.id` in the controller handlers and `req.user._id` in the `GET /:id` handler.
- The HTTP status of a `protect` rejection is taken as 401. Which message it carries is a parameter, because `server/middleware/authMiddleware.js` is not part of this model.
- A request matching no route of the history router goes on to the rest of the Express app, which is not part of this model.
- The client's requests are modelled one at a time. React state updates racing with an in-flight delete, a second delete and a re-render while the fetch is pending are not modelled. Navigation on click is not modelled either.
- `HistoryView.HistoryPanel.FetchHistory`: a 2xx reply whose body is not a list keeps the shown list. The component would store the body as is.
- ObjectIds are natural numbers issued by one counter, and their text is their decimal form. Timestamps and the 24-hex-digit form are not modelled.
- Mongoose's `timestamps: true` (createdAt, updatedAt) is not modelled.
- A Python dictionary key that is present with the value `None` is treated like a missing key for candidates and prospects. Absence is the only case the code's `.get` defaults handle.
- `ProfileFinder.FromItem`: every search hit is taken to have a `link`. A hit without one would raise `KeyError`.
- `time.sleep(0.1)` between pages is not modelled.
- The outreach prompt text is not modelled: the language model receives the candidate and the job description. The `companies`, `skills` and other keys read only for the prompt are not modelled.
- `Outreach.OutreachGenerator.constructor` treats the key as not set for an empty string. That is Python's truthiness test.
- The glue in `aiservices/main.py` that connects the services is not part of this model, and neither is the rest of the client and server.
- Case mapping (`lower`, `title`) covers ASCII letters only.
- `HistoryStore.FindById`: Mongoose's `searchHistory.id(x)` casts `x` to an ObjectId before comparing, so an upper-case spelling of an id's hex text also finds the entry. `deleteHistory` compares the lower-case `toString()` text exactly. Ids here have one text form, so the model does not capture that difference.
- `HistoryRoutes.DeleteThenGetItem` holds for ids given in their own text form. In the code, `DELETE` with an upper-case spelling of an id answers 200 and removes nothing, and a following `GET` with the same text still returns the entry.
- `HistoryRoutes.ParamOf`: paths are taken as already percent-decoded. Express decodes route parameters, so `/a%2Fb` reaches a handler with `a/b`, and a malformed escape is answered 400. Neither is modelled.
- `Scoring.Terms`: keyword lists are taken to hold strings. In the code, a number or other non-string in a list makes `.lower()` raise.
- `UserModel.CastEntry`: title, jd and mode are taken to be strings. Mongoose's casting of numbers and other values to String, and its cast errors, are not modelled.
- `HistoryStore.Store.AddHistory` and `HistoryStore.AddOutcome` store `results` exactly as posted. Mongoose's `minimize` option, which `historySchema` leaves at its default, is not modelled. On save it drops empty objects inside the `results` value, so `{"candidates": [], "meta": {}}` is read back as `{"candidates": []}`. A `results` of `{}` is dropped entirely, so later saves of that user fail the required check. `HistoryStore.ListAfterAppend`, `HistoryStore.ListAfterAppendAll` and `HistoryRoutes.AddThenGetItem` therefore hold only for `results` values that contain no empty object.
