# task-generator core, in Dafny

task-generator turns a customer's spoken or typed description of a project
into a structured technical specification: sections of developer tasks,
each with a time estimate in minutes, exported as a Word document. This
project models the parts of it that decide what is stored, shown and
allowed, and proves what they promise.

- `ai_service.dfy` (`AiService`): the prompt sent to the local Ollama model
  (a fixed instruction and JSON-format template, then the customer's text),
  the non-streamed request, the stripping of markdown code fences from the
  reply, and the three failure messages.
- `specification_controller.dfy` (`SpecificationController`): `generate`
  (its checks in order, the AI call, the tree written as nested rows with
  `position` = index) and the two reads ordered by position.
- `doc_service.dfy` (`DocService`): `generateDoc` as the loop that pushes
  paragraphs and adds up minutes, proved against a functional `Render`; the
  section and item numbering, the time suffix, the screenshot filter and the
  "h ч m мин" total, with read-back lemmas.
- `prompt_controller.dfy` (`PromptController`): the per-user prompt table
  with `create`, `update` and `remove`, keeping at most one default prompt
  per user and leaving other users' prompts alone.
- `speech_recognition.dfy` (`SpeechRecognition`): the dictation composable
  as a class whose methods are the engine's events and the public
  `start`/`stop`/`clear`, including the automatic restart.
- `auth_middleware.dfy` (`AuthMiddleware`, `BearerRoundTrip`): the server's
  bearer-token check and role gate, and the header's round trip from the
  client's interceptor to the server.
- `api_client.dfy` (`ApiClient`), `auth_store.dfy` (`AuthStore`),
  `browser.dfy` (`Browser`): the frontend's HTTP client interceptors, the
  session store, and the `localStorage`/`window.location` they act on.
- `router.dfy` (`Router`): the route table and the navigation guard.
- `admin_controller.dfy` (`AdminController`): the administrator's role
  change.
- `uploads.dfy` (`Uploads`): the attachment and document upload filters,
  size limits and stored file names.
- `text.dfy` (`Text`), `wrappers.dfy` (`Wrappers`): the JavaScript string
  operations the core relies on (`trim`, `startsWith`, `split`, `join`,
  decimal rendering), and `Option`/`Result`.

External services are parameters: the Ollama exchange is a function from
the request to a transport outcome, `JSON.parse` a partial function,
`jwt.verify` a function from a token to its claims, the HTTP server a
function from a request to its outcome, file existence a predicate, and
the clock and random number are arguments of the file-name builder.

## Model

| member | source | states |
|---|---|---|
| AiService.PromptLayout | backend/src/services/aiService.js:34-61 | the prompt is the role and rules, then the JSON format contract, then the heading, with the customer's text as the verbatim suffix: the contract is always present and nothing the customer says precedes it |
| AiService.DropJsonFences | backend/src/services/aiService.js:101 | removing the json fences never lengthens the reply and leaves a reply without backticks as it is |
| AiService.DropFences | backend/src/services/aiService.js:102 | removing the bare fences never lengthens the reply and leaves a reply without backticks as it is |
| AiService.DropJsonFencesKeepsPlainPrefix | backend/src/services/aiService.js:101 | a backtick-free prefix passes through the json-fence removal unchanged, whatever follows it |
| AiService.DropFencesKeepsPlainPrefix | backend/src/services/aiService.js:102 | a backtick-free prefix passes through the bare-fence removal unchanged, whatever follows it |
| AiService.StripPlainReply | backend/src/services/aiService.js:100-103 | a reply containing no backtick is only trimmed before it is parsed |
| AiService.StripFencedReply | backend/src/services/aiService.js:100-103 | a reply wrapped as a json fenced block around a backtick-free payload is parsed as the trimmed payload |
| AiService.MessagesDistinct | backend/src/services/aiService.js:108-116 | the timeout, server-down and generic messages are pairwise different, so the caller can tell the failures apart |
| AiService.Classify | backend/src/services/aiService.js:88-116 | a timeout is reported exactly for an abort and server-down exactly for a refused connection; success exactly for an OK reply whose stripped text parses, with the parsed value; a non-OK status becomes the generic failure |
| AiService.StatusIsLost | backend/src/services/aiService.js:88-89 | two failing replies that differ only in status and body give the caller the same result |
| AiService.StructureText | backend/src/services/aiService.js:69-117 | the request is exactly the model, the composed prompt and no streaming; the result is the classification of the exchange's outcome; the timer is disarmed on every path |
| SpecificationController.DenseIsSorted | backend/src/controllers/specificationController.js:70-76 | positions equal to the indexes are strictly ascending for sections and for the items of each section |
| SpecificationController.StoredTitle | backend/src/controllers/specificationController.js:51 | a non-empty title is kept and a missing or empty one becomes "Без названия" |
| SpecificationController.StoredEstimate | backend/src/controllers/specificationController.js:61 | an estimate is stored exactly when it is present and not zero, and then as itself; zero and absent both become null |
| SpecificationController.TreeRowsFaithful | backend/src/controllers/specificationController.js:55-65 | the rows written for a tree keep its sections and items in order with their titles and contents, positions 0..n-1, and normalised estimates |
| SpecificationController.NewestFirst | backend/src/controllers/specificationController.js:129-131 | the list holds exactly the caller's specifications |
| SpecificationController.NewestFirstOrder | backend/src/controllers/specificationController.js:144 | with ids handed out in creation order, the list is newest first |
| SpecificationController.Precheck | backend/src/controllers/specificationController.js:16-28 | blank text is refused first, then a missing or zero project id, then a project the caller does not own; the request reaches the AI exactly when all three pass |
| SpecificationController.Persist | backend/src/controllers/specificationController.js:35-84 | an AI failure is answered with its message; nothing is written unless the AI succeeds with a tree that has its section and item lists, and then exactly one specification is appended with the next id, owned by the caller and the project, titled by the fallback rule, holding the tree's rows with dense positions |
| SpecificationController.UnreachableAiWritesNothing | backend/src/controllers/specificationController.js:35-84 | when the Ollama exchange is aborted by the timer or the connection is refused, generate answers with the timeout or the server-down message and writes nothing |
| SpecificationController.SpecificationStore.Generate | backend/src/controllers/specificationController.js:12-85 | the AI is called exactly when the checks pass; a refused request changes nothing; otherwise the reply and the new rows are those of `Persist`; the store keeps ids 1..n and dense positions |
| SpecificationController.SpecificationStore.GetById | backend/src/controllers/specificationController.js:93-121 | a specification is found exactly when the caller owns one with that id, and it comes with sections and items in ascending position |
| SpecificationController.SpecificationStore.GetAll | backend/src/controllers/specificationController.js:127-152 | exactly the caller's specifications, newest first, each with sections and items in ascending position and paired with the name of its project |
| DocService.DocTitle | backend/src/services/docService.js:42 | a non-empty title is the document title, and a missing or empty one gives "Техническое задание" |
| DocService.Minutes | backend/src/services/docService.js:98-100 | an item adds nothing to the total exactly when its estimate is absent or zero |
| DocService.TimeSuffix | backend/src/services/docService.js:94-96 | the time suffix is shown exactly for a truthy estimate |
| DocService.SuffixShowsMinutes | backend/src/services/docService.js:94-100 | the suffix shown on an item reads back as exactly the minutes the item adds to the total |
| DocService.ImageKind | backend/src/services/docService.js:148 | the embedded type is png exactly for "image/png", jpg otherwise |
| DocService.ImageBlocksExactly | backend/src/services/docService.js:133-157 | only screenshots are embedded for attachments, and one is embedded exactly for an image attachment whose file exists, with the type its mimetype selects |
| DocService.ItemBlocksRead | backend/src/services/docService.js:102-158 | an item's paragraphs contain no heading, exactly one item number, its "k.m " label, and show exactly the minutes it adds |
| DocService.ItemsHaveNoHeadings | backend/src/services/docService.js:93-159 | no heading appears among a section's item paragraphs |
| DocService.ItemsNumbered | backend/src/services/docService.js:106 | the items of section k are numbered "k.1 ", "k.2 ", ... in item order, one number per item |
| DocService.ItemsShowMinutes | backend/src/services/docService.js:93-100 | the minutes shown on a section's items add up to the section's minutes |
| DocService.SectionsHeaded | backend/src/services/docService.js:75-90 | the document's headings are "1. title", "2. title", ..., one per section, in order |
| DocService.SectionsShowMinutes | backend/src/services/docService.js:73-100 | the minutes shown on all items add up to the sum of all truthy estimates |
| DocService.RenderedTotalMatchesItems | backend/src/services/docService.js:165-222 | the total table, last in the document, shows the sum of the minutes shown on the items |
| DocService.NoImagesWhenExcluded | backend/src/services/docService.js:133 | with images excluded no screenshot appears anywhere |
| DocService.HourFormFields | backend/src/services/docService.js:165-168 | a total of at least 60 minutes is shown as its whole hours, "ч", the remaining minutes and "мин" |
| DocService.HourFormRoundTrip | backend/src/services/docService.js:165-168 | a total of at least 60 minutes is shown as whole hours and remaining minutes and reads back as the same total |
| DocService.MinuteFormRoundTrip | backend/src/services/docService.js:165-169 | a total under 60 minutes is shown as the minutes and "мин" and reads back as the same total |
| DocService.TotalStringRoundTrip | backend/src/services/docService.js:165-169 | every total reads back from its text; the hour form is used exactly from 60 minutes on, with the whole hours and the remaining minutes as its numbers; below 60 the number is the total |
| DocService.HourFormExample | backend/src/services/docService.js:165-168 | 90 minutes are shown as "1 ч 30 мин" |
| DocService.MinuteFormExample | backend/src/services/docService.js:169 | 45 minutes are shown as "45 мин" |
| DocService.AppendImages | backend/src/services/docService.js:134-157 | the attachment loop pushes exactly the embedded screenshots, in attachment order |
| DocService.AppendItem | backend/src/services/docService.js:94-158 | one item pushes its paragraph and, when images are included and loaded, its screenshots, and adds its truthy estimate |
| DocService.AppendSection | backend/src/services/docService.js:75-159 | one section pushes its heading and then its items' paragraphs in order, and adds up their minutes |
| DocService.GenerateDoc | backend/src/services/docService.js:27-222 | the walk pushes exactly the title, the date, each section's heading and items, the spacer and the total table, and its running total ends as the sum of all truthy estimates |
| PromptController.CreateCheck | backend/src/controllers/promptController.js:44-51 | a blank title is refused before the content is looked at, then blank content; both present is the only way through |
| PromptController.Cleared | backend/src/controllers/promptController.js:54-57 | clearing the defaults unflags every row of the user, changes no other field, and leaves other users' rows as they were |
| PromptController.KeepOrTrim | backend/src/controllers/promptController.js:101-102 | a present non-blank value is stored trimmed, and the existing value stays exactly when the new one is missing, blank or trims to it |
| PromptController.FindOwned | backend/src/controllers/promptController.js:85-87 | finds a row with that id owned by the caller, or reports that none exists |
| PromptController.CreatePrompt | backend/src/controllers/promptController.js:41-72 | a refused create changes nothing; an accepted one appends one row with the next id, the caller as owner, the trimmed fields and the default flag only when asked, after clearing the caller's defaults if so |
| PromptController.UpdatePrompt | backend/src/controllers/promptController.js:81-111 | a prompt the caller does not own gives 404 and no change; otherwise that row is rewritten in place, keeping what the request leaves out, after clearing the caller's defaults when it asks to be the default |
| PromptController.RemovePrompt | backend/src/controllers/promptController.js:119-136 | a prompt the caller does not own gives 404 and no change; otherwise exactly that row is removed |
| PromptController.ClearedKeepsForeign | backend/src/controllers/promptController.js:54-57 | clearing the defaults leaves other users' rows as they were |
| PromptController.ClearedHasNoDefault | backend/src/controllers/promptController.js:53-58 | after clearing, the caller has no default and no user has two |
| PromptController.CreateKeepsInvariant | backend/src/controllers/promptController.js:53-66 | create keeps ids unique and below the next id, and at most one default per user |
| PromptController.CreateKeepsForeign | backend/src/controllers/promptController.js:53-66 | create leaves other users' prompts as they were |
| PromptController.UpdateKeepsInvariant | backend/src/controllers/promptController.js:92-105 | update keeps ids unique and at most one default per user |
| PromptController.UpdateKeepsForeign | backend/src/controllers/promptController.js:92-105 | update leaves other users' prompts as they were |
| PromptController.RemoveKeepsInvariant | backend/src/controllers/promptController.js:128-130 | remove keeps ids unique and at most one default per user |
| PromptController.RemoveKeepsForeign | backend/src/controllers/promptController.js:128-130 | remove leaves other users' prompts as they were |
| PromptController.PromptTable.ClearDefaults | backend/src/controllers/promptController.js:54-57 | the row-by-row loop leaves the table as `Cleared` describes |
| PromptController.PromptTable.Create | backend/src/controllers/promptController.js:41-72 | the reply and the new table are those of `CreatePrompt`, the next id advances exactly on a create, and the table invariant is kept |
| PromptController.PromptTable.Update | backend/src/controllers/promptController.js:81-111 | the reply and the new table are those of `UpdatePrompt`, and the table invariant is kept |
| PromptController.PromptTable.Remove | backend/src/controllers/promptController.js:119-136 | the reply and the new table are those of `RemovePrompt`, and the table invariant is kept |
| SpeechRecognition.FinalTextIsSpacedFinals | frontend/src/composables/useSpeechRecognition.js:76-83 | a session's text is exactly its final results' texts in result order, each followed by one space |
| SpeechRecognition.RestartLosesNothing | frontend/src/composables/useSpeechRecognition.js:126-137 | text saved before an automatic restart, followed by the next session's finals, equals what one session delivering both result lists would show |
| SpeechRecognition.ErrorMessage | frontend/src/composables/useSpeechRecognition.js:100-112 | an error code without a message is shown as the code itself |
| SpeechRecognition.Dictation.constructor | frontend/src/composables/useSpeechRecognition.js:3-39 | a new dictation is idle, with empty texts, no error, no manual stop and nothing sent to the engine |
| SpeechRecognition.Dictation.OnStart | frontend/src/composables/useSpeechRecognition.js:59-62 | the engine starting sets listening and clears the error, and nothing else changes |
| SpeechRecognition.Dictation.OnResult | frontend/src/composables/useSpeechRecognition.js:72-88 | the transcript is rebuilt as the saved text followed by the session's final texts, and the interim text as the non-final texts; nothing is appended to what was shown |
| SpeechRecognition.Dictation.OnError | frontend/src/composables/useSpeechRecognition.js:99-114 | silence changes nothing; any other error shows its message and stops listening, and the texts stay |
| SpeechRecognition.Dictation.OnEnd | frontend/src/composables/useSpeechRecognition.js:126-141 | an end the user did not ask for while listening saves the transcript and sets one restart; any other end stops listening |
| SpeechRecognition.Dictation.FireRestart | frontend/src/composables/useSpeechRecognition.js:131-137 | a due restart starts the engine again, or stops listening when starting throws |
| SpeechRecognition.Dictation.Start | frontend/src/composables/useSpeechRecognition.js:148-159 | without an engine only the error is set; otherwise the texts, the error and the manual-stop flag are reset and the engine is started |
| SpeechRecognition.Dictation.Stop | frontend/src/composables/useSpeechRecognition.js:161-166 | only while listening does stop mark the stop as the user's and stop the engine |
| SpeechRecognition.Dictation.Clear | frontend/src/composables/useSpeechRecognition.js:168-172 | the three texts are emptied; listening and the error stay |
| AuthMiddleware.Authenticate | backend/src/middleware/auth.js:3-24 | a missing header or one without the scheme is refused as "no token", and a token that fails verification as invalid; `next` is reached exactly for a verified token and carries its claims |
| AuthMiddleware.RequireRole | backend/src/middleware/auth.js:25-31 | the request passes exactly when the role is listed, and is otherwise refused with 403 |
| AuthMiddleware.AdminChainAdmitsOnlyAdmins | backend/src/routes/admin.js:13-14 | an admin handler runs exactly for a verified token with role admin; a verified token of another role gets 403 |
| BearerRoundTrip.HeaderRoundTrip | backend/src/middleware/auth.js:6-11 | the header the client builds for a space-free token has the scheme, and the server reads back exactly that token |
| BearerRoundTrip.SpacedTokenIsCut | backend/src/middleware/auth.js:11 | for a token with a space, the server reads only the part before the first space |
| BearerRoundTrip.StoredTokenAuthenticates | frontend/src/api/index.js:10-17 | with a space-free token stored, every request is authenticated exactly when that token verifies, and then as the user it names |
| BearerRoundTrip.NoStoredTokenIsRefused | backend/src/middleware/auth.js:6-10 | without a stored token the client adds no header, and a request without one is refused before verification |
| ApiClient.StoredToken | frontend/src/api/index.js:11-13 | a token is used exactly when a non-empty string is stored under `token` |
| ApiClient.RequestInterceptor | frontend/src/api/index.js:10-17 | the Authorization header is set to "Bearer " and the stored token exactly when one is stored, no other header or field changes, and without a token the request is unchanged |
| ApiClient.HandleResponse | frontend/src/api/index.js:21-31 | every outcome reaches the caller unchanged; a 401 also removes the stored token and user and navigates to /login; nothing else touches storage or location |
| ApiClient.Send | frontend/src/api/index.js:10-31 | a request carries the header for the storage as it was when sent, and the server's answer passes through the 401 handling |
| ApiClient.NoHeaderAfterUnauthorized | frontend/src/api/index.js:24-28 | after the 401 handling later requests go out without the header |
| AuthStore.StoredUser | frontend/src/stores/auth.js:5 | the stored user is read exactly when a user is stored under `user` |
| AuthStore.ReloadAfterSetAuth | frontend/src/stores/auth.js:25-30 | after `setAuth` a reload finds the same user, and the same token when it is non-empty |
| AuthStore.ReloadAfterLogout | frontend/src/stores/auth.js:31-36 | after `logout` a reload finds neither token nor user |
| AuthStore.Session.constructor | frontend/src/stores/auth.js:5-6 | the session loads its token and user from the storage, each null when absent |
| AuthStore.Session.SetAuth | frontend/src/stores/auth.js:25-30 | the pair is held and both keys are written; the session is authenticated exactly for a non-empty token |
| AuthStore.Session.Logout | frontend/src/stores/auth.js:31-36 | the pair is forgotten and both keys removed; the session is no longer authenticated |
| AuthStore.Session.Authorize | frontend/src/stores/auth.js:11-24 | on success exactly the returned token and user are held and persisted; a failure leaves the pair as it was, and a 401 also signs the storage out |
| AuthStore.Session.Login | frontend/src/stores/auth.js:18-24 | the login request is posted to /api/auth/login; its success holds and persists exactly the returned pair without navigating; a 401 signs the storage out to /login; any other failure changes nothing |
| AuthStore.Session.Register | frontend/src/stores/auth.js:11-17 | the registration request is posted to /api/auth/register; its success holds and persists exactly the returned pair without navigating; a 401 signs the storage out to /login; any other failure changes nothing |
| Router.Merge | frontend/src/router/index.js:27-30 | a nested route keeps its parent's authentication and admin requirements |
| Router.TableShape | frontend/src/router/index.js:11-77 | the table holds the two sign-in pages, then the layout's pages carrying the layout's flags |
| Router.LayoutStartsWithDashboard | frontend/src/router/index.js:30-38 | the layout's first route redirects "/" to /dashboard, and its second is the dashboard |
| Router.Guard | frontend/src/router/index.js:91-105 | an unauthenticated visit to a protected page goes to /login; otherwise a signed-in visit to a guest page, or a non-admin visit to an admin page, goes to /dashboard; the navigation proceeds exactly when none applies |
| Router.RootRedirectsToDashboard | frontend/src/router/index.js:31-34 | the empty child path under "/" redirects to /dashboard |
| Router.OnlySignInPagesArePublic | frontend/src/router/index.js:11-77 | every page except /login and /register needs authentication, and so does every admin page |
| Router.RedirectsSettle | frontend/src/router/index.js:91-105 | every redirect from a route of the table leads to a route of the table that the same session is let into |
| AdminController.InvalidRoleMessageText | backend/src/controllers/adminController.js:118-122 | the invalid-role message lists admin, manager and executor in that order |
| AdminController.CheckRoleChange | backend/src/controllers/adminController.js:118-128 | an unknown role is refused before the self-change check, and a valid role for oneself is refused; only a valid role for someone else passes |
| AdminController.FindUser | backend/src/controllers/adminController.js:130-131 | finds the user with that id, or reports that none exists |
| AdminController.ChangeRoleRejects | backend/src/controllers/adminController.js:113-141 | the role is written exactly for a valid role, another user's id and an existing user; anything refused leaves the table unchanged |
| AdminController.ChangeRoleWritesOnlyTheRole | backend/src/controllers/adminController.js:130-136 | a change writes only the role column of exactly one user and answers with that user's id, name, email and new role, never the password |
| AdminController.ChangeRoleKeepsUniqueIds | backend/src/controllers/adminController.js:130-134 | a role change keeps every user's id in place, so ids stay unique |
| AdminController.UserTable.ChangeRoleOf | backend/src/controllers/adminController.js:113-141 | the reply and the new table are those of `ChangeRole`, and user ids stay unique |
| Uploads.Filter | backend/src/middleware/upload.js:42-55 | the filter accepts exactly the listed types without an error, and refuses every other type with the error and never with acceptance |
| Uploads.ImagesAreAttachmentsOnly | backend/src/middleware/uploadDoc.js:25-36 | image types pass the attachment filter but not the document filter, and plain text only the document filter |
| Uploads.SharedTypes | backend/src/middleware/uploadDoc.js:26-30 | the types both uploads accept are exactly the two Word types |
| Uploads.LargeWordFileIsDocumentOnly | backend/src/middleware/uploadDoc.js:42 | a Word file over 5 MB and up to 10 MB is admitted as a document but not as an attachment |
| Uploads.StoredNameRoundTrip | backend/src/middleware/upload.js:30 | the stored name ends with the original name and reads back as exactly the time, the random number and the original name |
| Uploads.StoredNamesDiffer | backend/src/middleware/upload.js:29-32 | two uploads get the same stored name only when time, random number and original name all coincide |
| Text.Trim | backend/src/services/aiService.js:103 | the trimmed text is an infix of the input that neither starts nor ends with whitespace, and all that is cut on either side is whitespace |
| Text.BlankIffAllWhitespace | backend/src/controllers/specificationController.js:16 | a text is blank after trimming exactly when it is all whitespace |
| Text.TrimAppendWhitespace | backend/src/services/aiService.js:103 | appending whitespace to a text does not change what it trims to |
| Text.Split | backend/src/middleware/auth.js:11 | no field contains the separator, and a string that contains it splits into at least two fields |
| Text.JoinSplit | backend/src/middleware/auth.js:11 | joining the fields of a split with the separator gives back the string |
| Text.ParseNatToString | backend/src/services/docService.js:168 | a whole number's decimal text reads back as the number |

## Left out

- HTTP, timers and aborts in the AI service are not modelled as such. The transport is a parameter from the request to one of four outcomes (reply, abort, refused connection, other failure). The 60-second timer is a flag that must end disarmed.
- `JSON.parse` of the reply, and of the response body, is a parameter. No schema of the parsed tree is checked, because the service checks none.
- The sentence-splitting fallback after the `try` in the AI service is not modelled. It cannot be reached, because the `try` always returns or throws.
- `DEFAULT_PROMPT` and `getDefaultText` are not modelled. The constant is imported but never exported by the AI service, so the handler answers with undefined content.
- The prompt listing (`getAll` of the prompt controller) is a plain database read ordered by creation time and is not modelled.
- The specification controller has no create, replace, update or remove handler. The route file imports handlers the controller does not export, and `create` is commented out. None of them is modelled.
- The CRM catalog and its route are not modelled. They are not used by the prompt.
- Database calls are replaced by a table held in a class. Prisma's transaction atomicity and its 500 paths are not modelled, apart from the writes the model shows as not happening.
- Request fields of the wrong JSON type are not modelled: a text or title that is not a string, a project id that is a string, an `isDefault` that is not a boolean. Fields are `Option`s, where None stands for absent.
- PromptController.UpdatePrompt: a body with `isDefault: null` stores null in the source. Here it cannot be expressed, because the flag is an `Option<bool>` and None stands for an absent field.
- DocService.Minutes: estimates are whole numbers of minutes. Fractional estimates (JavaScript numbers) are not modelled.
- DocService.GenerateDoc: the docx library (fonts, sizes, spacing), file reading and packing to a buffer are left out. The date paragraph keeps the stored timestamp, without the locale formatting.
- The upload library's size enforcement is abstracted as `size <= limit`. The directory creation and the destination callback are not modelled.
- Uploads.StoredNameRoundTrip: the random number is any whole number. In the source it is `Math.round(Math.random() * 1000)`, in 0..1000.
- The recognition engine, `navigator.userAgent` (continuous mode on mobile devices), the 200 ms delay and `onUnmounted` are not modelled. The delay is a count of pending restarts.
- SpeechRecognition.Dictation.Start: a `recognition.start()` that throws inside `start()` is not modelled. Only the restart's throwing start is.
- SpeechRecognition.ErrorMessage: codes that name a property of `Object.prototype` are not modelled.
- AuthStore.StoredUser: a plain string stored under `user` reads as no user. In the source, `JSON.parse` of it either throws while the store loads or gives a value that is not a user.
- ApiClient.StoredToken: a user record stored under `token` reads as no token. The source only ever stores a string there.
- `localStorage.setItem` of a null or undefined token is not modelled. Tokens are strings.
- The login and registration bodies are carried in the request but not checked.
- Router.Merge: vue-router merges `meta` shallowly, so a child's explicit `false` would override its parent's flag. No route of the table declares one, so the merge is modelled as "or".
- vue-router's path matching (parameters such as `:id`, case and trailing slashes) is not modelled. Routes are compared by their declared paths.
- The JWT signing and secret are not modelled. `jwt.verify` is a parameter.
- The read-only admin handlers, the auth and project controllers, the attachment and export routes, the PDF and document-reading services, and the server wiring are not part of this model.
