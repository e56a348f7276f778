# gAIde client — a Dafny model

gAIde is a React single-page client for a writing coach. A user signs up and logs in,
picks a document category and keywords, writes in an editor that asks the backend for
sentence or structure feedback, saves the document to receive a final evaluation, and
lists their documents grouped by category. This project models the logic inside that
client and proves properties of it:

- **the document client** (`src/api/writing.js`, module `WritingApi`): where each call
  goes, what its body holds, and how a reply settles into a returned body or a thrown
  error;
- **the authentication client** (`src/api/auth.js`, module `AuthApi`): the signup and
  login bodies, how login errors are translated, and the only write to the browser's
  key/value store (`LocalStorage`, a class over a `map`);
- **the category picker and keyword editor** (`src/main.jsx`, module `MainPage`): a
  class `DetailsForm` whose keyword list stays at most five trimmed, non-empty entries;
- **the document listing** (`src/pages/MyPage.jsx`, module `MyPage`): the token guard,
  record normalisation, and grouping into the four fixed sections (class `ListingPage`);
- **the signup form** (`src/pages/Signup.jsx`, module `SignupPage`): the ordered
  validation chain and the message shown for each outcome (class `SignupForm`);
- **the editor** (`src/pages/WritingPage.jsx`, module `WritingPage`): a class whose
  methods are the page's handlers, and the pure helpers: word count, category label,
  and normalisation of a feedback payload.

Two shared modules hold what the pages rely on from JavaScript. `Js` has the shapes of
JSON values, truthiness (`x || y`), and fetch outcomes. `Text` has `trim()`,
`split("\n")`, `split(/\s+/)` and `toUpperCase()`. White space is the ECMAScript
WhiteSpace and LineTerminator set.

Every backend reply is a parameter: a `Fetch<T>` is either a network error or a response
with an `ok` flag and a body that parsed or did not. An asynchronous handler whose reply
can land after other events is split in two. The first method runs the guards and issues
the request; the second takes the reply. Sign-up uses `Submit`/`Finish`, and feedback uses
`RequestFeedback`/`CompleteFeedback`. The completion uses the tab recorded in the request
it answers, as the handler's closure does.

Behaviour of the code worth knowing:

- The document calls send only a `Content-Type` header, with no credentials
  (`src/api/writing.js:13-15`).
- A non-OK reply to a document call throws that call's fixed message, such as
  "글 저장 실패" (`src/api/writing.js:107-109`).
- Saving a document that has an id sends PUT to the document's URL; without an id it
  sends POST to the collection (`src/api/writing.js:89-93`).
- The document client defaults to "http://localhost:8000" (`src/api/writing.js:3-4`).
  The authentication client defaults to "http://localhost:8080" (`src/api/auth.js:1-2`).
- The listing page fetches `${VITE_API_BASE_URL}/api/documents` with a bearer token
  (`src/pages/MyPage.jsx:45-54`). That expression has no default, so an unset variable
  gives `undefined/api/documents`.
- Signup rethrows whatever it caught unchanged (`src/api/auth.js:39-41`). Login turns a
  failed fetch into a connection message (`src/api/auth.js:93-102`).
- A failed feedback request clears both feedback lists (`src/pages/WritingPage.jsx:200-201`).
- Every key pressed in the editor hides the evaluation overlay
  (`src/pages/WritingPage.jsx:133-137`).
- Saving shows the evaluation from the save reply's `eval` field
  (`src/pages/WritingPage.jsx:226-227`).

Quirks of the code are kept as written and stated as lemmas:

- The category label map sends "resume" to "RESUME" but "RESUME" to "Resume"
  (`CategoryNameAsymmetric`).
- A document whose category is "cover-letter" is sent for feedback as "COVER-LETTER".
  That is none of the listing's section ids (`CoverLetterRequestCategory`).
- An OK login reply without `data` throws a TypeError, which the `catch` reports as a
  connection failure (`LoginWithoutDataLooksLikeConnectionFailure`).

## Model

| member | source | states |
|---|---|---|
| Text.Trim | src/main.jsx:98-99 | `trim()` gives a string with no white space at either end, and the empty string exactly when the input is all white space |
| Text.TrimSlice | src/main.jsx:98-99 | `trim()` gives a slice of the input, and what it cuts off before and after that slice is all white space |
| Text.TrimIdempotent | src/main.jsx:98-99 | trimming twice is trimming once |
| Text.SplitOn | src/pages/WritingPage.jsx:181-182 | `split("\n")` gives at least one field, and no field contains the separator |
| Text.JoinSplit | src/pages/WritingPage.jsx:181-182 | joining the fields of a split with the separator gives back the original string |
| Text.SplitJoin | src/pages/WritingPage.jsx:181-182 | splitting joined fields that hold no separator gives back the fields |
| Text.SplitOnSpaceRuns | src/pages/WritingPage.jsx:106 | `split(/\s+/)` gives at least one field, an empty first field after leading white space, and no field holds white space |
| Text.SplitRunsCount | src/pages/WritingPage.jsx:104-108 | the non-empty fields of `split(/\s+/)` are as many as the maximal runs of non-white-space characters |
| Text.CountRunsTrim | src/pages/WritingPage.jsx:104-105 | trimming does not change the number of runs |
| Text.ToUpper | src/pages/WritingPage.jsx:164 | `toUpperCase()` keeps the length and upper-cases each letter a-z in place |
| WritingApi.BaseUrl | src/api/writing.js:3-4 | the configured base URL when it is set and non-empty, "http://localhost:8000" otherwise |
| WritingApi.DocumentUrl | src/api/writing.js:41 | a document's URL is the collection URL followed by "/" and the id |
| WritingApi.Settle | src/api/writing.js:24-28 | a call returns the parsed body exactly when the reply is OK and parses; a non-OK reply throws the call's fixed message; network and parse errors are rethrown unchanged |
| WritingApi.FailureMessagesDistinct | src/api/writing.js:25 | the five failure messages are pairwise distinct, so a message names the call that failed |
| WritingApi.NonOkIgnoresBody | src/api/writing.js:107-111 | the error of a non-OK reply depends only on the call, never on the body |
| WritingApi.CreateRequest | src/api/writing.js:11-21 | a POST to the collection carrying category, title and keywords; the description is `topicDescription` when truthy, `description` otherwise |
| WritingApi.GetDocumentRequest | src/api/writing.js:40-48 | a GET of the document's URL with no body |
| WritingApi.MyDocumentsRequest | src/api/writing.js:66-71 | a GET of `/api/documents/my-documents` with no body |
| WritingApi.SaveRequest | src/api/writing.js:89-104 | PUT to the document's URL exactly when the id is truthy, POST to the collection otherwise; the body is title, content and category |
| WritingApi.SaveDropsKeywordsAndDescription | src/api/writing.js:100-104 | the keywords and description given to `saveDocument` never reach the request |
| WritingApi.SaveTargetsSameResource | src/api/writing.js:89-91 | an update goes to the URL `getDocument` reads that document from; a creation goes to the URL `createNewDocument` posts to |
| AuthApi.BaseUrl | src/api/auth.js:1-2 | the configured base URL when set and non-empty, "http://localhost:8080" otherwise |
| AuthApi.LocalStorage.GetItem | src/pages/MyPage.jsx:37 | `getItem` gives the stored value, or null when the key is absent |
| AuthApi.LocalStorage.SetItem | src/api/auth.js:83 | `setItem` maps the key to the value and leaves every other key as it was |
| AuthApi.SignupRequest | src/api/auth.js:14-30 | a POST to `/api/signup` whose body is exactly `{loginId, password, name}` |
| AuthApi.SignupOutcome | src/api/auth.js:32-42 | a non-OK reply throws the body's `error`, or "회원가입에 실패했습니다." when there is none or the body does not parse; an OK reply returns the parsed envelope; a network or parse error is rethrown unchanged |
| AuthApi.LoginRequest | src/api/auth.js:54-70 | a POST to `/api/signin` whose body is exactly `{loginId, password}` |
| AuthApi.Rethrown | src/api/auth.js:93-102 | an error whose message is "Failed to fetch" or whose name is TypeError becomes the connection message naming the base URL; any other error is rethrown unchanged |
| AuthApi.LoginAttempt | src/api/auth.js:74-103 | a token is stored exactly when the reply is OK, carries `data` and a truthy `accessToken`; the call returns exactly when the reply is OK with `data`; a non-OK reply throws the body's `error` or the fallback; a network error, an OK body that does not parse, and an OK body without `data` (the TypeError) are each thrown through the translation above |
| AuthApi.Login | src/api/auth.js:52-104 | sends the login request; the store maps "access_token" to the token when one is stored, and is unchanged otherwise |
| AuthApi.LoginRejectionMessage | src/api/auth.js:74-78 | a non-OK reply surfaces the server's `error` (or "로그인에 실패했습니다.") unchanged and stores nothing, unless that text is literally "Failed to fetch" |
| AuthApi.LoginNetworkFailure | src/api/auth.js:96-100 | a failed fetch (a TypeError) is reported as the connection message |
| AuthApi.LoginWithoutDataLooksLikeConnectionFailure | src/api/auth.js:80-82 | an OK reply without `data` ends in the connection message and stores nothing |
| MyPage.NormalizeAll | src/pages/MyPage.jsx:65-72 | one record per raw document in the same order: `doc_id` becomes `id`, `created_at` becomes `createdAt` (null when absent or empty), title and category kept |
| MyPage.LoadedDocuments | src/pages/MyPage.jsx:56-72 | documents load exactly when the reply is OK, parses and its `data` is not a non-array truthy value; a missing or falsy `data` gives no documents |
| MyPage.TokenOf | src/pages/MyPage.jsx:37-39 | the token is the stored "access_token" value when it is non-empty |
| MyPage.ByCategory | src/pages/MyPage.jsx:87-89 | keeps exactly the documents of the given category |
| MyPage.ByCategoryAppend | src/pages/MyPage.jsx:88 | filtering distributes over concatenation, so the original order is kept |
| MyPage.SectionsPerCategory | src/pages/MyPage.jsx:21-26 | each of the four ids names exactly one section; any other category names none |
| MyPage.BucketTotal | src/pages/MyPage.jsx:87-89 | the four sections together show every document with one of the four ids once, and no other document |
| MyPage.BucketSizesSum | src/pages/MyPage.jsx:87-89 | when every category is one of the four ids, the section sizes add up to the number of documents |
| MyPage.OneSectionPerDocument | src/pages/MyPage.jsx:87-89 | a document is in a section exactly when its category is that section's id, and in no section when its category is none of the four |
| MyPage.ListingPage.constructor | src/pages/MyPage.jsx:9-11 | the page starts with no documents, loading and no error |
| MyPage.ListingPage.LoadDocuments | src/pages/MyPage.jsx:33-81 | reads "access_token" through the store's `getItem`; without a non-empty token: no request, the login-required error, loading false; otherwise a bearer request, then the loaded documents or the generic error, loading false |
| MyPage.ListingPage.DocumentsByCategory | src/pages/MyPage.jsx:87-89 | the loaded documents of one category |
| MyPage.LoginTokenUnlocksListing | src/pages/MyPage.jsx:37 | a token stored by a successful login is the token the listing reads, since both use the key "access_token" |
| MyPage.LoginThenList | src/pages/MyPage.jsx:37-51 | after a login, the listing is requested exactly when login stored a token, with that token as the bearer credential |
| MainPage.Find | src/main.jsx:271 | `categories.find` gives a catalog entry with that id, or nothing exactly when no entry has it |
| MainPage.FindOwnId | src/main.jsx:12-57 | with distinct ids, looking up an entry's own id finds that entry |
| MainPage.SubmitStyle | src/main.jsx:267-274 | no style without a selection; with one, the selected entry's colours, or '#5C6BC0'/'#3F51B5' when the id is not in the catalog |
| MainPage.CatalogButtonColors | src/main.jsx:270-272 | selecting any catalog entry gives the button that entry's own colours |
| MainPage.RemoveAt | src/main.jsx:105 | the filtered list is no longer than the original and holds only its elements |
| MainPage.RemoveAtSpec | src/main.jsx:104-106 | removing at an index in range deletes exactly that element and keeps the rest in order; an index out of range changes nothing |
| MainPage.DetailsForm.constructor | src/main.jsx:6-10 | the form starts with no selection, empty fields and no keywords |
| MainPage.DetailsForm.SelectCategory | src/main.jsx:170 | a click selects that card's id and changes nothing else |
| MainPage.DetailsForm.SetKeywordInput | src/main.jsx:222 | typing sets the keyword field |
| MainPage.DetailsForm.AddKeyword | src/main.jsx:97-102 | appends the trimmed input and clears the field exactly when the trimmed input is non-empty and fewer than five keywords exist; otherwise nothing changes; at most five trimmed non-empty keywords remain |
| MainPage.DetailsForm.RemoveKeyword | src/main.jsx:104-106 | deletes exactly the keyword at an index in range; an index out of range changes nothing |
| MainPage.DetailsForm.KeyPress | src/main.jsx:108-113 | only Enter adds a keyword; any other key changes nothing |
| MainPage.DetailsForm.SelectedStyleIsOwnColors | src/main.jsx:267-272 | an enabled submit button always has the selected card's own colours |
| SignupPage.IsPasswordMismatch | src/pages/Signup.jsx:15 | the warning shows exactly when the confirmation is non-empty and differs from the password |
| SignupPage.Validate | src/pages/Signup.jsx:21-40 | differing passwords give the mismatch error even when fields are empty; then any empty name, id or password gives the required-fields error; otherwise the request `{loginId: id, password, name}` |
| SignupPage.MismatchWarning | src/pages/Signup.jsx:15-25 | whenever the warning shows, submitting is refused for the mismatch; an empty confirmation hides it, yet submitting is still refused |
| SignupPage.FailureText | src/pages/Signup.jsx:43-53 | no message exactly when the reply reports success; a refusal shows its `error` or "회원가입에 실패했습니다."; a thrown error shows its message or "회원가입 중 오류가 발생했습니다." |
| SignupPage.ServerRefusalShown | src/pages/Signup.jsx:47-50 | a server refusal reaches the form verbatim, one without `error` shows the client's fallback, and a failed fetch shows the browser's message |
| SignupPage.SignupForm.constructor | src/pages/Signup.jsx:7-12 | the form starts empty, with no error and not loading |
| SignupPage.SignupForm.Edit | src/pages/Signup.jsx:79-124 | the fields hold what was typed |
| SignupPage.SignupForm.Submit | src/pages/Signup.jsx:17-40 | clears the error; a rejected form shows its message and sends nothing; an accepted one sends the request and is loading |
| SignupPage.SignupForm.Finish | src/pages/Signup.jsx:41-53 | success navigates away leaving the error as it was; failure shows its message; loading ends false |
| SignupPage.SubmitAndSettle | src/pages/Signup.jsx:17-54 | from an idle form (the button is disabled while loading): a request is sent exactly when the checks pass; a refused form shows the check's message and does not navigate; a sent form navigates exactly when the reply is a successful envelope, and then shows no error; the form always ends not loading; the typed fields are left as they were |
| WritingPage.WordCountIsRunCount | src/pages/WritingPage.jsx:104-108 | the word count is the number of maximal runs of non-white-space characters |
| WritingPage.WordCountZero | src/pages/WritingPage.jsx:104-108 | the word count is 0 exactly when the content is blank |
| WritingPage.CategoryName | src/pages/WritingPage.jsx:50-62 | the mapped label for the eight known ids, "Essay" for any other id |
| WritingPage.CategoryNameAsymmetric | src/pages/WritingPage.jsx:51-60 | "resume" is labelled "RESUME" but "RESUME" is labelled "Resume"; the other ids are labelled alike in both spellings |
| WritingPage.CategoryNameMatchesTitles | src/pages/WritingPage.jsx:50-62 | every section id of the listing is labelled with that section's title; every catalog card but resume is labelled with its own title |
| WritingPage.RequestCategory | src/pages/WritingPage.jsx:164 | the category upper-cased letter by letter, "ESSAY" when it is empty |
| WritingPage.CoverLetterRequestCategory | src/pages/WritingPage.jsx:164 | "cover-letter" is sent as "COVER-LETTER", which is not a section id of the listing |
| WritingPage.TitleOnFocus | src/pages/WritingPage.jsx:112-116 | focusing empties the placeholder and leaves any other text as it is; the result is empty exactly when the text was the placeholder or empty |
| WritingPage.TitleOnBlur | src/pages/WritingPage.jsx:118-123 | blank text becomes the placeholder "제목"; other text is kept; the title is never empty |
| WritingPage.SavedTitle | src/pages/WritingPage.jsx:212 | the placeholder is saved as the empty string and any other title is saved unchanged, so the saved title is empty exactly when the title is the placeholder or empty |
| WritingPage.TitleEditing | src/pages/WritingPage.jsx:112-123 | focusing and leaving keeps any non-blank title; after a blur the saved title is empty exactly when the text was blank or the placeholder |
| WritingPage.NormalizeFeedback | src/pages/WritingPage.jsx:175-188 | an array is kept as it is; a string gives non-empty trimmed items; any other value gives the empty list |
| WritingPage.FeedbackLinesRoundTrip | src/pages/WritingPage.jsx:179-184 | a string of trimmed, non-empty lines gives exactly those lines, in order |
| WritingPage.LinesOfJoin | src/pages/WritingPage.jsx:181-184 | a string of lines gives the trimmed lines with the blank ones dropped, in order |
| WritingPage.FeedbackIgnoresBlankLines | src/pages/WritingPage.jsx:181-184 | a blank line anywhere in a string payload changes nothing |
| WritingPage.FeedbackItems | src/pages/WritingPage.jsx:171-188 | a list exactly when the call returned a reply with `success`; an absent `data` gives the empty list |
| WritingPage.RequestType | src/pages/WritingPage.jsx:160 | the request type is 1 exactly for the sentence tab and 0 exactly for the structure tab |
| WritingPage.RouteId | src/pages/WritingPage.jsx:27 | the route id is used exactly when it is truthy |
| WritingPage.ReplyId | src/pages/WritingPage.jsx:222 | `doc_id`, else `documentId`, else the old id; a truthy old id is never lost |
| WritingPage.WritingPage.constructor | src/pages/WritingPage.jsx:16-47 | the state at mount: loading exactly when there is a route id; id, category, title, content and keywords from the router state with their fallbacks; sentence tab, empty lists, no overlay |
| WritingPage.WritingPage.LoadDocument | src/pages/WritingPage.jsx:75-100 | without a route id nothing happens; otherwise a GET of that document, then the reply's fields with their fallbacks, or the load error; loading ends false |
| WritingPage.WritingPage.BlurTitle | src/pages/WritingPage.jsx:118-123 | the title becomes the text, or the placeholder when it is blank; nothing else changes |
| WritingPage.WritingPage.ContentChange | src/pages/WritingPage.jsx:126-131 | the content is replaced and the overlay is hidden; nothing else changes |
| WritingPage.WritingPage.ContentKeyDown | src/pages/WritingPage.jsx:133-137 | any key hides the overlay; nothing else changes |
| WritingPage.WritingPage.FeedbackTypeChange | src/pages/WritingPage.jsx:140-143 | the tab changes and the overlay is hidden; nothing else changes |
| WritingPage.WritingPage.RequestFeedback | src/pages/WritingPage.jsx:146-169 | blank content, then a missing id, refuses with no state change; otherwise loading starts and the request carries the id, the upper-cased category, keywords, description, type 1 exactly for the sentence tab, and the whole content |
| WritingPage.WritingPage.CompleteFeedback | src/pages/WritingPage.jsx:171-204 | success replaces only the list of the tab the request came from and hides the overlay; failure clears both lists; loading ends false in every case |
| WritingPage.WritingPage.Save | src/pages/WritingPage.jsx:208-234 | saves with the placeholder title sent as ""; on success adopts the reply's id or keeps the old one, switches to the sentence tab and shows the evaluation; a failure changes nothing |
| WritingPage.WritingPage.Panel | src/pages/WritingPage.jsx:323-397 | the overlay wins over both tabs and shows the evaluation, or "최종 평가를 불러오는 중..." while it is empty; a tab shows its list, or its hint when the list is empty |
| WritingPage.WritingPage.Screen | src/pages/WritingPage.jsx:236-281 | loading, then the error, then the editor with the category label, the word count as the number of runs, and the feedback button enabled exactly when not loading and the content is not blank |
| WritingPage.SentenceFeedbackScenario | src/pages/WritingPage.jsx:146-205 | for document 42 on the sentence tab, the request has type 1, id 42 and the full content, and a one-suggestion reply shows exactly that suggestion |
| WritingPage.SaveThenUpdateScenario | src/pages/WritingPage.jsx:208-234 | the first save of a new document is a POST to the collection; after the reply names id 7, the next save is a PUT to document 7 |

## Left out

- Rendering: JSX, SVG icons, CSS classes, and the `document.body` class toggling. The
  rendered state is modelled as `Screen` and `Panel` values only.
- Routing and navigation (`src/App.jsx`, `src/components/Header.jsx`, `navigate`).
  `SignupForm.Finish` only reports whether the form navigates.
- I/O: `fetch`, JSON parsing, `alert`, `console.*` and `import.meta.env`. Replies,
  parse failures and environment values are parameters.
- Timing: the order in which asynchronous replies land, and updates after unmount.
  Each handler's reply is handled as one step after the request.
- Date formatting with `toLocaleDateString` in the listing (locale-dependent).
- `getFinalEvaluation` (`src/api/writing.js:121-148`): it is never called. Only its
  failure message is modelled, in `WritingApi.FailureMessage`.
- `requestSentenceFeedback` is imported by the editor but not defined in
  `src/api/writing.js`. Its reply is a parameter of `CompleteFeedback`.
- The `contentEditable` text of the title beyond the placeholder rule. `BlurTitle`
  takes the text the field holds.
- `handleSubmit` in `src/main.jsx` only logs the form; the title and description fields
  are plain setters.
- The login page (`src/pages/Login.jsx`) is a stub with no logic.
- Text.ToUpper: upper-cases only the letters a-z. Other cased letters are not mapped
  here, though JavaScript maps them too.
- WritingPage.CategoryName: ids that name a property of `Object.prototype` (such as
  "constructor") are treated as unknown ids. In JavaScript the lookup would find the
  inherited property.
- WritingPage.NormalizeFeedback: array items and reply fields are modelled as strings.
  An array element of another type is not modelled.
- WritingPage.WritingPage.Screen: the word count is computed from the content at each
  render. The page keeps it in a state variable that an effect updates after each render,
  so the model does not capture the one render where that variable is stale.
- Replies whose JSON is `null`, and fields of unexpected types, are not modelled.
  Reading a field of `null` would throw.
