# Whiteboard collection: a Dafny model

This project models the part of the whiteboard application that manages a user's
collection of boards:

- the collection route `/api/whiteboards`, whose `GET` lists the caller's boards and
  whose `POST` creates one;
- the list page, which holds the boards, a filter, a create dialog and a busy flag,
  and whose handlers fetch, create, delete and share boards;
- the middleware that puts sign-in protection on board editor pages.

Modules, one per source file or shared concern:

- `Wrappers`: `Option`.
- `Json`: parsed request bodies and JavaScript truthiness.
- `JsString`: `String.prototype.trim`.
- `WhiteboardTypes`: `src/types/whiteboard.ts`.
- `Url`: reading a search parameter out of a URL.
- `WhiteboardsRoute`: `src/app/api/whiteboards/route.ts`.
- `WhiteboardListPage`: `src/components/WhiteBoardLists.tsx`.
- `Middleware`: `src/middleware.ts`.

How the outside world appears in the model:

- The Prisma table is a `seq<Whiteboard>` in insertion order.
- The caller's identity is an `Option<string>`. An empty string counts as signed out, as `!userId` does.
- A failing store call is the flag `storeUp == false`.
- The store generates `id`, `shareId` and the timestamps; they are parameters of `Post`.
- Both handlers are functions. `Post` returns the response together with the new store.
- The list page is the class `WhiteboardList`, with the component's six state fields.
- Each handler is a method. The server's answer is an `Outcome` parameter: ok with data, not ok, or thrown. The `confirm` answer and the origin are parameters too.
- What a handler sends to the server is its result.

Two details of the route code shape the model:

- `POST` stores the body's `content` and honours a `status` given in the body, so a new board is not always empty or a draft.
- A `name` that is truthy but not a string makes `name.trim` throw. The answer is then 500, not 400.

## Model

| member | source | states |
|---|---|---|
| `JsString.Trim` | src/app/api/whiteboards/route.ts:68-74 | the result has no blank first or last character, is no longer than the input, and is empty exactly when the input is all blanks (ECMAScript WhiteSpace and LineTerminator) |
| `JsString.TrimRemovesBlankEnds` | src/app/api/whiteboards/route.ts:74 | trim removes exactly a blank prefix and a blank suffix: `Trim(a + m + b) == m` for blank `a`, `b` and trimmed `m` |
| `JsString.TrimIdempotent` | src/components/WhiteBoardLists.tsx:63 | trimming twice is trimming once, so the server's trim keeps the name the page already trimmed |
| `WhiteboardTypes.StatusName` | src/types/whiteboard.ts:5 | each status has its wire spelling, and parsing that spelling gives the status back |
| `WhiteboardTypes.ParseStatus` | src/types/whiteboard.ts:5 | only the exact spellings `DRAFT` and `PUBLISHED` are statuses |
| `WhiteboardTypes.CreateRequestJson` | src/components/WhiteBoardLists.tsx:62-64 | the JSON body of a create request has the name, and has `content`/`status` keys exactly when the request sets them |
| `WhiteboardsRoute.WithCount` | src/app/api/whiteboards/route.ts:33-46 | a listed row keeps every selected column of its record, has no `content` (by its type), and carries the record's comment count |
| `WhiteboardsRoute.Selected` | src/app/api/whiteboards/route.ts:26-29 | a row is selected iff it is the projection of a stored record owned by the caller and, when a status is given, of that status |
| `WhiteboardsRoute.InsertByUpdatedDesc` | src/app/api/whiteboards/route.ts:30-32 | inserting into a list sorted by `updatedAt` descending keeps it sorted and adds exactly that row |
| `WhiteboardsRoute.SortByUpdatedDesc` | src/app/api/whiteboards/route.ts:30-32 | the result is ordered by `updatedAt` non-increasing and is a permutation of the input |
| `WhiteboardsRoute.ParseStatusFilter` | src/app/api/whiteboards/route.ts:22-28 | an absent or empty `status` filters nothing; an exact status spelling filters by it; anything else is a value the store refuses |
| `WhiteboardsRoute.Get` | src/app/api/whiteboards/route.ts:13-54 | 401 without identity; 200 iff signed in, with a valid filter and a working store; otherwise 500; a 200 list is sorted by `updatedAt` descending and is a permutation of the selected rows |
| `WhiteboardsRoute.GetListsOnlyMatching` | src/app/api/whiteboards/route.ts:25-46 | every listed row is owned by the caller, has the requested status, and is the projection of a stored record |
| `WhiteboardsRoute.GetListsEveryMatching` | src/app/api/whiteboards/route.ts:25-29 | every stored record of the caller with the requested status is listed |
| `WhiteboardsRoute.EmptyStatusIsNoFilter` | src/app/api/whiteboards/route.ts:28 | `?status=` answers exactly as no parameter |
| `WhiteboardsRoute.Destructure` | src/app/api/whiteboards/route.ts:65-66 | destructuring fails exactly for a `null` body; an object yields its own `name`, `content` and `status` properties (absent ones undefined); any other value yields none of the three |
| `WhiteboardsRoute.CheckName` | src/app/api/whiteboards/route.ts:68-74 | the name is accepted exactly when it is a string that is not all whitespace, and the accepted name is its `trim`, non-empty and trimmed; a truthy non-string is `NotAString` (the `trim` call throws); a missing, falsy or blank name is `Blank` (the 400 case) |
| `WhiteboardsRoute.StoredStatus` | src/app/api/whiteboards/route.ts:66 | an absent status becomes `DRAFT`; a given string is stored as the status it spells, and a value that spells none is refused |
| `WhiteboardsRoute.Post` | src/app/api/whiteboards/route.ts:56-86 | 401 exactly without identity, for any body and with the store unchanged; the status is one of 201, 400, 401, 500, so a signed-in caller whose request is neither created nor refused for its name gets 500 (malformed or null body, non-string name, invalid status, store failure); only 201 changes the store, by appending exactly the returned record; 400 iff signed in with a parsed non-null body whose name is missing, falsy or blank; 201 iff signed in, the body is creatable, the store works and the new keys are free |
| `WhiteboardsRoute.PostCreatedRecord` | src/app/api/whiteboards/route.ts:72-81 | the created record has the trimmed non-empty name, the caller as owner, the body's content, the body's status or `DRAFT`, the generated keys and timestamps, and no comments |
| `WhiteboardsRoute.PostKeepsKeysUnique` | src/app/api/whiteboards/route.ts:72-79 | a store with unique `id`s and `shareId`s keeps them unique after any POST |
| `WhiteboardsRoute.ClientRequestCreatesDraft` | src/components/WhiteBoardLists.tsx:57-65 | with a working store and an `id` and `shareId` that no stored board has, the body the list page sends for a non-blank name is answered 201; the stored board has exactly the trimmed name, is a draft and has no content |
| `Url.IndexOf` | src/app/api/whiteboards/route.ts:22 | the first occurrence of a character, or the length when there is none |
| `Url.Split` | src/app/api/whiteboards/route.ts:22 | the pieces contain no separator and join back, separator between each two, to the input; there is at least one piece, and a string without the separator is one piece |
| `Url.NoQueryNoParam` | src/app/api/whiteboards/route.ts:22-23 | `SearchParam` (`searchParams.get`) gives null for every name of a URL without `?` |
| `Url.SingleParam` | src/app/api/whiteboards/route.ts:22-23 | `SearchParam` (`searchParams.get`) on `path?name=value` yields `value` for `name` |
| `Middleware.ProtectedRouteIff` | src/middleware.ts:3-5 | `IsProtectedRoute`, the matcher for `^/whiteboard/[^/]+$` run as an automaton, accepts a path iff it is `/whiteboard/` followed by a non-empty segment without `/` |
| `Middleware.OtherPrefixNotProtected` | src/middleware.ts:4 | a path that does not begin with `/whiteboard/` is never protected |
| `Middleware.BoardPageProtected` | src/middleware.ts:4 | `/whiteboard/<id>` is protected for every non-empty id without `/` |
| `Middleware.NestedPathNotProtected` | src/middleware.ts:4 | a deeper path `/whiteboard/<id>/<rest>` is never protected |
| `Middleware.EmptySegmentNotProtected` | src/middleware.ts:4 | `/whiteboard/` with an empty segment is not protected |
| `Middleware.ApiRoutesNotProtected` | src/middleware.ts:4 | no `/api/...` path is protected by the middleware; the route handlers check the session |
| `Middleware.Decide` | src/middleware.ts:8-10 | protection is invoked exactly for board page paths; every other request passes through |
| `WhiteboardListPage.FetchUrl` | src/components/WhiteBoardLists.tsx:27-30 | `/api/whiteboards` for `ALL`, `/api/whiteboards?status=<status>` otherwise |
| `WhiteboardListPage.FetchUrlCarriesFilter` | src/components/WhiteBoardLists.tsx:27-30 | the route reads back from the fetch URL exactly the page's filter: no parameter for `ALL`, the status otherwise |
| `WhiteboardListPage.FetchedBoardsMatchFilter` | src/components/WhiteBoardLists.tsx:27-35 | with a working store, a signed-in fetch under any filter is answered 200, and lists only the user's boards of that filter |
| `WhiteboardListPage.RemoveById` | src/components/WhiteBoardLists.tsx:89 | a board stays iff it was in the list and its id differs |
| `WhiteboardListPage.RemoveByIdConcat` | src/components/WhiteBoardLists.tsx:89 | removal distributes over concatenation, so the remaining boards keep their order |
| `WhiteboardListPage.RemoveAbsentId` | src/components/WhiteBoardLists.tsx:89 | removing an id no board has changes nothing |
| `WhiteboardListPage.DeleteUndoesCreate` | src/components/WhiteBoardLists.tsx:69-89 | deleting the board just created gives what deleting its id from the old list gives |
| `WhiteboardListPage.CopyShareLink` | src/components/WhiteBoardLists.tsx:96-105 | a link is produced iff the board is `PUBLISHED`, and it is `origin + "/share/" + shareId` |
| `WhiteboardListPage.ShareLinkIsPublic` | src/components/WhiteBoardLists.tsx:102 | the share page path is never sign-in protected |
| `WhiteboardListPage.EditLinkIsProtected` | src/components/WhiteBoardLists.tsx:220 | the Edit link of a board whose id is one path segment is protected |
| `WhiteboardListPage.RowJson` | src/app/api/whiteboards/route.ts:33-49 | a GET row as the page receives it is an object with the row's `id` and `status` and a `_count` object whose `comments` is the row's comment count |
| `WhiteboardListPage.RecordJson` | src/app/api/whiteboards/route.ts:72-81 | the 201 answer is an object with the created record's `id` and `status` and no `_count` key |
| `WhiteboardListPage.ReadProperty` | src/components/WhiteBoardLists.tsx:215 | reading a property of `undefined` or `null` throws; reading from an object gives the key's value, or undefined when the key is absent; any other value gives undefined |
| `WhiteboardListPage.ListedRowRenders` | src/components/WhiteBoardLists.tsx:215 | a card of a GET row shows its comment count |
| `WhiteboardListPage.PrependCreatedAsWritten` | src/components/WhiteBoardLists.tsx:69 | the first element is the POST answer `RecordJson(created)` itself, and the old list is the tail |
| `WhiteboardListPage.CreatedRowAsWrittenThrows` | src/components/WhiteBoardLists.tsx:215 | as written, reading `_count.comments` on the just-created card throws |
| `WhiteboardListPage.CreatedRowRenders` | src/components/WhiteBoardLists.tsx:215 | the corrected created card shows its comment count, 0 for a new board |
| `WhiteboardListPage.WhiteboardList.constructor` | src/components/WhiteBoardLists.tsx:16-21 | no boards, loading, filter `ALL`, dialog closed, empty name, not creating |
| `WhiteboardListPage.WhiteboardList.FetchWhiteboards` | src/components/WhiteBoardLists.tsx:23-42 | without a user: nothing requested and nothing changed; otherwise the current filter's URL is requested, an ok answer replaces the list, other answers keep it, loading ends, and nothing else changes |
| `WhiteboardListPage.WhiteboardList.AuthOrFilterChanged` | src/components/WhiteBoardLists.tsx:44-50 | before auth loads nothing happens; loaded without a user only ends loading; loaded with a user fetches |
| `WhiteboardListPage.CreateRequest` | src/components/WhiteBoardLists.tsx:53-64 | no request exactly when the typed name is all whitespace; otherwise the request carries the trimmed name, which is non-empty with no whitespace at either end, and sets neither `content` nor `status` |
| `WhiteboardListPage.WhiteboardList.FinishCreate` | src/components/WhiteBoardLists.tsx:55-77 | once the request is sent, an ok answer puts the new board's row first over the old list, and this is the corrected row with its comment count (see ## Findings). It also clears the name and closes the dialog. Any other outcome changes nothing but `creating`, which is false afterwards |
| `WhiteboardListPage.WhiteboardList.CreateWhiteboard` | src/components/WhiteBoardLists.tsx:52-78 | a blank name sends nothing and changes nothing. Otherwise the trimmed name is sent. An ok answer puts the new board first over the old list, as the corrected row with its comment count (see ## Findings), clears the name and closes the dialog. A failure keeps them. `creating` is false afterwards |
| `WhiteboardListPage.WhiteboardList.DeleteWhiteboard` | src/components/WhiteBoardLists.tsx:80-94 | unconfirmed: nothing sent or changed; confirmed: the delete is sent to `DeletePath(id)`, which is `/api/whiteboards/<id>` (line 84), and an ok answer removes exactly the boards with that id; nothing else changes |
| `WhiteboardListPage.WhiteboardList.CancelCreate` | src/components/WhiteBoardLists.tsx:173-176 | closes the dialog and clears the name; the list and everything else are unchanged |
| `WhiteboardListPage.WhiteboardList.OpenCreateDialog` | src/components/WhiteBoardLists.tsx:127 | opens the dialog and changes nothing else |
| `WhiteboardListPage.WhiteboardList.SelectFilter` | src/components/WhiteBoardLists.tsx:139 | sets the filter and changes nothing else |
| `WhiteboardListPage.WhiteboardList.EditName` | src/components/WhiteBoardLists.tsx:159 | sets the name being typed and changes nothing else |

## Left out

- Rendering is not modelled: JSX, CSS classes, date formatting, the loading and signed-out screens, the disabled state of the Create button, and the Enter key. The exception is the comment count cell, which the finding below needs.
- Each handler is modelled as one atomic step, and the interleaving of `await`s is not. So `creating` being true while a create request is in flight is not observable. A fetch that was started under one filter and finishes under another is not modelled.
- `alert`, `confirm`, `navigator.clipboard`, `window.location.origin` and `fetch` are parameters or results. A clipboard write that fails is not modelled.
- `response.json()` throwing counts as a thrown request.
- The authentication library is an identity parameter and a protection decision. If `auth()` itself throws, the model does not give the resulting 500.
- What `auth.protect()` does for a signed-out user (redirecting) is not modelled.
- The middleware's `config.matcher` patterns (src/middleware.ts:12-23) are routing configuration and are not modelled.
- Prisma query semantics:
  - the table is a sequence;
  - a store failure is a flag;
  - the store's refusal of a taken `id` or `shareId` stands for its unique columns. The schema is not part of the project.
- Schema assumption: `status` is an enum column with the values `DRAFT` and `PUBLISHED`. So the store refuses any other non-empty status with an error, and the route answers 500. This applies to the GET query parameter (`ParseStatusFilter`, `Get`) and to the POST body (`StoredStatus`, `Post`). The `as 'DRAFT' | 'PUBLISHED'` cast at src/app/api/whiteboards/route.ts:28 has no run-time effect. With a plain string column, `GET ?status=foo` would answer 200 with an empty list, and `POST` would store `foo`. The model does not cover that reading.
- Schema assumption: the store sets `createdAt` and `updatedAt` of a new board to the same moment, the `now` parameter of `Post`. That corresponds to `@default(now())` and `@updatedAt` columns, which are not part of the project.
- How the store treats a literal JSON `null` given as `content` is not modelled; the value is stored as given.
- `SortByUpdatedDesc`: rows with equal `updatedAt` keep store order. The database leaves that order unspecified; the model fixes one order.
- JSON numbers are integers, so `NaN` and fractions are not modelled. Dates are integer timestamps, also inside the JSON rows.
- `Url.SearchParam` does no percent-decoding and no `+` decoding. The values it reads here contain neither.
- The per-board, comment and share routes and the editor and share pages are not part of this model. Neither are `src/components/TldrawEditor.tsx` and `src/app/page.tsx`, which only wrap the canvas library and `next/dynamic`.
- `Comment`, `UpdateWhiteboardRequest` and `CreateCommentRequest` are declared as data types only, because no modelled operation uses them.

## Findings

| source | as written | input that shows it | evidently intended | confidence | as-written member | corrected member |
|---|---|---|---|---|---|---|
| src/components/WhiteBoardLists.tsx:69 | after a successful create, the page puts the POST answer itself at the front of the list. That record has no `_count` (src/app/api/whiteboards/route.ts:72-81). Rendering its card reads `whiteboard._count.comments` (line 215), which throws a `TypeError`. | create any board with a non-blank name while signed in; the server answers 201 | the new card shows "Comments: 0" | high; not executed | `WhiteboardListPage.CreatedRowAsWrittenThrows` | `WhiteboardListPage.CreatedRowRenders` |

`WhiteboardList.CreateWhiteboard` uses the corrected behaviour. It stores `WithCount(record)`, the row GET would list for that record with its comment count, rather than the raw POST answer.
