# meguca access control and reply trimming, in Dafny

This project models two pieces of the meguca image board.

**Server access-control decisions** (`server_util.dfy`, module `ServerUtil`, from `server/util.go`):

- `checkAuth` decides whether an identity's staff class grants a named right.
- `canAccessBoard` decides whether an identity may see a board. It applies three rules: the staff-board gate, board existence (the synthetic `"all"` board always exists), and the ban flag.
- `canAccessThread` adds the rule for deleted threads on top of the board decision.
- `lookUpIdent` builds the identity of a request from its IP.
- `wrapError.Error` renders a compound error.
- `chooseLang` picks the response language from the `lang` cookie.

The server's global configuration becomes an immutable `Config` value passed to every decision. It holds the staff classes, the staff-board name, the set of board names, the default language and the enabled languages.

**Client reply trimming** (`posts_section.dfy`, module `PostsSection`, from `client/posts/section.js`):

- `Section.shiftReplies` runs on board pages. It shifts the oldest reply IDs off a thread until the thread is within the abbreviation limit.
- Each shifted ID that names a post the client still holds is counted. That post's image, if it has one, is counted too, and the post is removed.
- The class `Section` holds the reply list, the two counters, the post collection and a record of the removed posts. The method updates these fields in place.
- The method is proved against the specification function `DropAll`. The lemmas about `DropAll` state what the trimming means for callers.

`wrappers.dfy` holds the `Option` type used for absent values: the missing cookie and the missing inner error.

Notes on sources that disagree:

- **Where boards are stored.** The code looks a board up in the map `config.Boards.Boards` (server/util.go:62). Its test instead fills the list `config.Boards.Enabled` (server/util_test.go:70) and still expects `"a"` and `"staff"` to exist. The model keeps the board set abstract, as a set of names. `CanAccessBoardScenario` states the test's expectations with that set holding `"a"` and `"staff"`. Which field actually holds the boards is left open.
- **Thread-lookup failures.** A design description of this layer asks that a failed thread lookup be reported as its own outcome. The code discards the database error and reads `deleted` with a default of `false` (server/util.go:75). The model follows the code: `deleted` is an input, and no failure outcome exists.
- **The empty staff class.** `checkAuth` denies an identity without a class (`auth == ""`) only because no staff class is named `""`. The code does not special-case the empty name. `CheckAuth` states the general rule, and `LookedUpIdentAccess` assumes that no class is named `""`.

## Model

| member | source | states |
|---|---|---|
| ServerUtil.CheckAuth | server/util.go:41-46 | the right is granted iff the identity's class is configured, names the action and maps it to true; an unknown class denies every action |
| ServerUtil.CheckAuthIsGranted | server/util.go:41-46 | checkAuth agrees with the set of actions the identity's class grants, so an absent class or action is denial and never an error |
| ServerUtil.CheckAuthScenario | server/util_test.go:36-61 | with one admin class granting canFoo and not canBar: admin may canFoo, not canBar or canBaz; an unknown class and the empty class may not canFoo |
| ServerUtil.LookUpIdent | server/util.go:49-55 | the identity carries the given IP, the empty class and no ban |
| ServerUtil.LookedUpIdentAccess | server/util.go:49-67 | when no class is named "", a looked-up identity holds no rights and reaches exactly the existing boards other than the staff board |
| ServerUtil.CanAccessBoard | server/util.go:58-67 | access iff the board is in the reference set of accessible boards; banned means denied everywhere, "all" included; access only to existing boards; the staff board (plain string equality) needs accessStaffBoard; other boards open to the unbanned iff they exist; an existing staff board open to the unbanned iff they hold the right |
| ServerUtil.CanAccessBoardScenario | server/util_test.go:69-97 | boards a and staff with staff as staff board: a and all open, b and staff closed to a non-staff identity, staff open to admin, a closed to a banned identity |
| ServerUtil.CanAccessThread | server/util.go:70-80 | thread access implies board access; given board access, a thread is open iff it is not deleted or the identity holds seeModeration; banned identities are denied |
| ServerUtil.Message | server/util.go:25-31 | a wrapped error's message starts with its text; it is the text alone without an inner error and continues with ": " with one |
| ServerUtil.MessageIsJoinedChain | server/util.go:25-31 | an error's message is the texts along its wrapping chain joined by ": " |
| ServerUtil.WrapErrorExample | server/util_test.go:17-21 | "bar" wrapping the error "foo" reads "bar: foo" |
| ServerUtil.FindLang | server/util.go:126-130 | the range search finds a language iff the cookie value is enabled, and what it finds equals the cookie value |
| ServerUtil.ChooseLang | server/util.go:119-132 | no cookie gives the default; an enabled cookie value is returned as is; any other value gives the default; the result is always the default or an enabled language |
| ServerUtil.ChooseLangScenario | server/util_test.go:131-159 | with default lv_LV and only en_GB enabled: no cookie and pt_BR give lv_LV, en_GB gives en_GB |
| PostsSection.ShiftCount | client/posts/section.js:73-79 | the loop shifts nothing when the replies are within the limit; for a limit of zero or more exactly min(length, limit) IDs remain; for a negative limit every ID is shifted |
| PostsSection.Section.ShiftReplies | client/posts/section.js:70-91 | on a thread page or within the limit nothing changes; otherwise the replies become the old list without its first ShiftCount IDs, in order, and the other state is DropAll of the old state over the shifted IDs, with the limit ABBREVIATED_REPLIES less one when a reply form is open |
| PostsSection.DropAllRemoves | client/posts/section.js:78-90 | shifting IDs leaves the old posts less the shifted IDs, appends the removed posts to the record and grows omit by their number and image_omit by their images |
| PostsSection.ShiftStep | client/posts/section.js:79-89 | one more shifted ID is removed and counted iff it is still held, and it adds one to the image count iff that post has an image |
| PostsSection.RemovedMembers | client/posts/section.js:79-89 | a post is removed iff its ID was shifted and it was held, so IDs not found are dropped without removal |
| PostsSection.RemovedDistinct | client/posts/section.js:79-89 | no post is removed twice |
| PostsSection.RemovedCount | client/posts/section.js:79-88 | the number of removed posts is the number of distinct shifted IDs that were held |
| PostsSection.ImagesOfRemoved | client/posts/section.js:86-88 | the image count of the removed posts is the number of shifted held posts with an image, and never exceeds the number removed |
| PostsSection.ShiftEffect | client/posts/section.js:78-90 | after a shift: posts are the old ones less the shifted IDs; the newly removed posts are exactly the held shifted ones, each once; omit grows by their number; image_omit grows by those with images, never more than omit grows |

## Left out

- hashBuffer (server/util.go:83-87): a truncated MD5 hash computed by a foreign cryptographic library.
- marshalJSON and unmarshalJSON (server/util.go:90-99): wrappers over the JSON library that panic on errors.
- copyFile (server/util.go:102-108): file I/O.
- logError (server/util.go:135-140): runtime stack capture and logging.
- throw (server/util.go:34-38): a panic on a non-nil error.
- idToString (server/util.go:111-113): a thin wrapper over decimal formatting of an unsigned integer.
- The global configuration and its hot reload: the model passes one immutable snapshot to each call.
- The database read in canAccessThread (server/util.go:75): the thread's `deleted` flag is an input, so the thread ID the read used is not a parameter.
- The ban lookup in lookUpIdent (server/util.go:52): the source leaves it unimplemented, so `banned` is always false.
- Cookie parsing in chooseLang (server/util.go:120-125): the cookie's value is an `Option<string>`, and the panic on parse errors other than a missing cookie is not modelled.
- The rest of client/posts/section.js (initialize, render, insertToTop, renderHide, renderLocked, remove, renderOmit, bumpThread): DOM, jQuery and Backbone view plumbing.
- In shiftReplies, the Backbone change event fired by setting `omit` is not modelled. `omit` is a plain counter.
- In shiftReplies, `post.remove()` is modelled as deleting the post from the client's post collection and appending its ID to the `removed` record. A reply ID that occurs twice is therefore removed only once.
- In shiftReplies, the truthiness of `page.thread` and `postForm` is a boolean parameter, and ABBREVIATED_REPLIES is an integer.
- client/src/util.rs: accessors for the browser window, document and body that panic when one is missing. They hold no decision logic.
