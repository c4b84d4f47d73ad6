# N16 service core in Dafny

This project models the business rules of the N16 backend, a NestJS service for ordering tools and hiring workers. The data store is modelled as one in-memory table per entity: a `map` from row id to row. All tables are fields of the class `Store.Db`, and each ORM call is one atomic update of one of those maps. The services change the store step by step, so they are modelled as methods that modify `Db` fields. Each method is proved against pure specification functions, and lemmas state the rules about those functions. The validators, the message formatter and the upload checks are pure code in the source, so they are modelled as pure functions.

What is modelled, module by module:

- `OrderLedger`, `Appending` and `OrdersService`: order placement.
  - The order row is written first. The tool lines are then walked in array order against the stock. The worker lines follow, and the re-read order is handed to the chat notifier last. `OrdersService` returns the order it hands over; the text posted for it is `OrderNotification.Message`.
  - Nothing is rolled back. Every failure becomes an internal error with the prefix `Error creating order: `.
  - The loops are proved against `TakeAll` and `AppendAll`. Closed forms of both (`Outcome`, `Settled`) give the partial-commit behaviour exactly.
- `AttachedWorkersService`: the gate on a worker's `isFree` flag, and the attach step that clears the flag.
- `CommentsService` and `CommentWorkersService`:
  - existence and ownership guards;
  - rating loops;
  - replacement of the whole rating list.
- `FavoritesService`:
  - a favourite either names an existing item or creates a new one;
  - a duplicate user-item pair is refused;
  - an update can re-point a favourite to another item.
- `ToolLabels`, `CapacitiesService` and `SizesService`: a tool carries each label name at most once, with names compared case-insensitively.
- `CompaniesService`, `CarService` and `AdminsService`: existence checks, duplicate checks and patch merges.
- `AuthService`: the sign-in decision, the derived roles, and session recording and deletion.
- `OrderNotification`: the Markdown text posted to the chat when an order is placed.
- `Uploads`: the file size pipe, and the upload storage's size limit, extension filter and stored file name.
- `Validation`: the global validation pipe (implicit conversion, the property whitelist, the DTOs' own refusal texts, and `@ValidateNested` over the tool and worker lines of an order request) and the DTOs whose validators carry real bounds, lengths or patterns. A line that fails is reported under its array property with no constraint of its own, which the exception factory of `src/main.ts` does not expect, so such a refusal is answered with a 500 instead of a 400. It is the pipe as `src/main.ts` configures it. As written it reaches no route (see Findings), so a service can receive a body its DTO would refuse. `CommentsService.Create` models the one such body whose answer the service's own code decides (a missing `commentWorkers`); the other services take their inputs as their DTOs declare them (see Left out).
- `Bootstrap`: the order of the start-up calls, which global pipes and path prefix the routes are bound with, and what this means for the tool lines `OrdersService.create` receives.

Conventions:

- Store-side constraint outcomes are parameters of type `Verdict`, because the store's schema is not part of the model. These cover unique or foreign-key violations and a missing record.
- External functions are parameters of function type. These are:
  - password hashing and comparison;
  - token signing;
  - date and number rendering;
  - the database's case folding (`Db.fold`);
  - the format validators for UUIDs, emails and phone numbers.
- Ids are natural numbers handed out by `Db.FreshId`.
- `Db.Valid()` states that every key (`Db.Fresh`) and every foreign reference (`Db.Linked`) is below the next fresh id, and that user and admin emails are unique. Every service method that writes the store keeps it.

## Model

| member | source | states |
|---|---|---|
| Common.Wrapped | src/orders/orders.service.ts:140-142 | a caught error becomes an internal server error whose message is the prefix followed by the thrown message |
| Common.Caught | src/attached-workers/attached-workers.service.ts:41-50 | store errors whose code the catch block names become that block's HTTP error; everything else becomes the prefixed internal error |
| OrderLedger.Take | src/orders/orders.service.ts:54-82 | one tool line: a missing tool or a count above the stock stops the walk and leaves the ledger as it was; otherwise exactly one row and one id are added; no tool appears or disappears |
| OrderLedger.TakeAll | src/orders/orders.service.ts:53-84 | the walk keeps the set of tools; a walk that ends without a fault used exactly one id per line |
| OrderLedger.FirstMisfit | src/orders/orders.service.ts:54-66 | the first line that fails its checks: every earlier line fits, and this one does not |
| OrderLedger.FitsPrefix | src/orders/orders.service.ts:54-66 | whether a line passes depends only on the lines up to it |
| OrderLedger.RowsShape | src/orders/orders.service.ts:67-74 | line `j` becomes the order-tool row at id `first + j`, carrying its tool, count and price, and no other id is used |
| OrderLedger.ClosedStep | src/orders/orders.service.ts:67-82 | one more fitting line adds its row and lowers that tool's stock by exactly its count |
| OrderLedger.OutcomeStepAfterMisfit | src/orders/orders.service.ts:53-84 | after the first failure, one more line leaves the result unchanged |
| OrderLedger.OutcomeStepAfterFits | src/orders/orders.service.ts:53-84 | with every earlier line committed, the next line commits exactly when its tool exists and the remaining stock covers it |
| OrderLedger.TakeAllOutcome | src/orders/orders.service.ts:53-84 | closed form of the walk: the lines before the first misfit are committed (total demand drawn from each tool, one row per line) and that misfit's error is the outcome |
| OrderLedger.FaultSticks | src/orders/orders.service.ts:140-142 | once the walk has thrown, no further line is taken |
| OrderLedger.TakeAllSplit | src/orders/orders.service.ts:53-84 | walking `a + b` is walking `a` and then `b` from where `a` stopped |
| OrderLedger.StopsAtFault | src/orders/orders.service.ts:53-84 | a failure at line `i` leaves lines before `i` committed and later lines untouched |
| OrderLedger.DemandCovered | src/orders/orders.service.ts:62-66 | when every line fits, no tool is asked for more than it held |
| OrderLedger.StockStaysNonNegative | src/orders/orders.service.ts:54-82 | stock that starts non-negative stays non-negative whatever the outcome, even when several lines name the same tool |
| OrderLedger.DemandOfOthers | src/orders/orders.service.ts:75-82 | a tool that no line names has zero demand |
| OrderLedger.UnnamedToolUntouched | src/orders/orders.service.ts:75-82 | a tool that no line names keeps its stock |
| OrderLedger.ExactStockAccepted | src/orders/orders.service.ts:62-66 | a count equal to the stock is accepted and leaves zero; one more unit is refused as out of stock |
| OrderLedger.SecondLineSeesDecrement | src/orders/orders.service.ts:54-82 | the stock check reads the stock already lowered by earlier lines (5, then 2 taken, then 4 refused, leaving 3) |
| Appending.Append | src/orders/orders.service.ts:96-119 | a failed check stops the loop and leaves the rows; a passing line adds one row under the next id |
| Appending.AppendAll | src/orders/orders.service.ts:86-121 | a loop that ends without a fault used one id per line |
| Appending.FirstRejected | src/orders/orders.service.ts:96-106 | the first line whose check fails: all before it pass and it does not |
| Appending.MadeShape | src/orders/orders.service.ts:108-119 | line `j` is made into the row at id `first + j`, and no other id is used |
| Appending.AppendAllSettles | src/orders/orders.service.ts:86-121 | closed form of the loop: the lines before the first rejection are inserted in order and that rejection is the outcome |
| Appending.SettledRows | src/comments/comments.service.ts:27-43 | earlier rows are kept, the accepted lines' rows are added in order, and no other row appears |
| Appending.StopsAtRejection | src/comments/comments.service.ts:27-43 | once a line is rejected, later lines change nothing |
| OrdersService.NewOrder | src/orders/orders.service.ts:37-50 | the order row carries the request's user and payment method and takes the default payment status; the request's payment status is not used |
| OrdersService.WorkerFault | src/orders/orders.service.ts:96-106 | a worker line passes exactly when both its proficiency and its level exist |
| OrdersService.ToolItems | src/orders/orders.service.ts:123-137 | the re-read order lists one tool item per line, with no name; the line order is a modelling choice, since the re-read names no ordering |
| OrdersService.Patched | src/orders/orders.service.ts:197-199 | each field the update carries replaces the stored one, and each absent field stays; the owner never changes |
| OrdersService.PatchLaws | src/orders/orders.service.ts:197-199 | an update writes only the fields it carries: the empty patch changes nothing, a repeated patch changes nothing more, and a later patch wins field by field |
| OrdersService.TakeLine | src/orders/orders.service.ts:55-82 | one tool line does exactly what `Take` says: a missing tool or a stock below the count is the fault and changes nothing; otherwise one order-tool row under a fresh id, and the stock drops by the count |
| OrdersService.TakeTools | src/orders/orders.service.ts:53-84 | the loop leaves the tools, order tools and next id exactly as `TakeAll` says, and returns its fault |
| OrdersService.ServeTools | src/orders/orders.service.ts:53-84 | `TakeTools` on a valid store, keeping it valid |
| OrdersService.AddWorkers | src/orders/orders.service.ts:86-121 | the loop leaves the order-worker rows and next id exactly as `AppendAll` says, and returns its fault |
| OrdersService.ServeWorkers | src/orders/orders.service.ts:86-121 | `AddWorkers` on a valid store, keeping it valid |
| OrdersService.PlaceRow | src/orders/orders.service.ts:37-50 | the order row is stored under a fresh id |
| OrdersService.Complete | src/orders/orders.service.ts:86-142 | worker lines as `AppendAll` says; then the re-read order is handed to the notifier; a worker fault or a failed post becomes the prefixed internal error, and the rows stay |
| OrdersService.Fulfil | src/orders/orders.service.ts:53-142 | tool lines as `TakeAll` says; a tool fault stops the call before any worker line, with the committed lines kept; otherwise as `Complete` |
| OrdersService.Create | src/orders/orders.service.ts:19-143 | a refused order row changes nothing; otherwise the order row stays whatever follows, and the tool lines, the worker lines and the hand-over of the re-read order to the notifier follow in that order; every failure is the prefixed internal error |
| OrdersService.Update | src/orders/orders.service.ts:192-211 | a missing order is the prefixed internal error; otherwise the patched order replaces it |
| OrdersService.Remove | src/orders/orders.service.ts:213-222 | a missing order is the prefixed internal error; otherwise exactly that order is deleted and returned |
| AttachedWorkersService.Gate | src/attached-workers/attached-workers.service.ts:18-28 | an attachment passes exactly when the worker and the worker line exist and the worker is free |
| AttachedWorkersService.Busy | src/attached-workers/attached-workers.service.ts:33-38 | only the attached worker changes, and it becomes busy |
| AttachedWorkersService.AttachOnce | src/attached-workers/attached-workers.service.ts:26-38 | after one attachment the same worker cannot be attached again, to any line |
| AttachedWorkersService.AttachKeepsBusy | src/attached-workers/attached-workers.service.ts:30-38 | attaching keeps every attached worker busy |
| AttachedWorkersService.UpdateBypassesGate | src/attached-workers/attached-workers.service.ts:98-110 | one concrete witness: re-pointing an attachment by update passes no gate, so a free worker ends up attached |
| AttachedWorkersService.Patched | src/attached-workers/attached-workers.service.ts:103-105 | the given fields replace the stored ones; absent fields stay |
| AttachedWorkersService.Create | src/attached-workers/attached-workers.service.ts:16-51 | gate failures are caught as internal errors, and a foreign-key refusal becomes its bad request, in both cases with nothing written; on success one row is stored, the worker becomes busy, and all attached workers stay busy |
| AttachedWorkersService.Attach | src/attached-workers/attached-workers.service.ts:30-38 | the row is inserted, then the worker is marked busy |
| AttachedWorkersService.InsertRow | src/attached-workers/attached-workers.service.ts:30-32 | the attachment is stored under a fresh id |
| AttachedWorkersService.MarkBusy | src/attached-workers/attached-workers.service.ts:33-38 | the worker's flag is cleared and nothing else changes |
| AttachedWorkersService.Update | src/attached-workers/attached-workers.service.ts:98-116 | a missing attachment is the prefixed internal error; otherwise the patched row replaces it |
| AttachedWorkersService.Remove | src/attached-workers/attached-workers.service.ts:118-129 | a missing attachment is the prefixed internal error; otherwise only that row goes, and the worker stays busy |
| CommentsService.Ownership | src/comments/comments.service.ts:106-115 | the guard passes exactly when the comment exists, its order exists, and the order's user is the caller |
| CommentsService.NewMessage | src/comments/comments.service.ts:117-120 | a given message replaces the stored one; an absent one leaves it |
| CommentsService.ReplaceAll | src/comments/comments.service.ts:125-142 | after a replacement whose workers all exist, the comment's ratings are exactly the given ones in order, and the ratings of other comments are kept |
| CommentsService.AllAccepted | src/comments/comments.service.ts:128-142 | with every worker present, no rating is rejected |
| CommentsService.AddRatings | src/comments/comments.service.ts:27-43 | the rating loop leaves the rows and next id exactly as `AppendAll` says |
| CommentsService.Rate | src/comments/comments.service.ts:27-43 | `AddRatings` on a valid store, keeping it valid |
| CommentsService.PlaceComment | src/comments/comments.service.ts:23-25 | the comment is stored under a fresh id |
| CommentsService.Rewrite | src/comments/comments.service.ts:117-120 | only that comment row is replaced |
| CommentsService.ClearRatings | src/comments/comments.service.ts:125-127 | every rating of the comment is deleted, and the others stay |
| CommentsService.Create | src/comments/comments.service.ts:16-51 | a missing order fails before anything is written; otherwise the comment is stored first; without `commentWorkers` the loop's TypeError "commentWorkers is not iterable" is answered as the prefixed 500 and the comment stays; otherwise the ratings follow up to the first missing worker, with nothing undone, and the comment itself is returned |
| CommentsService.Update | src/comments/comments.service.ts:98-150 | a guard failure writes nothing; otherwise the message is written; with no ratings or an empty list the ratings stay; otherwise all of the comment's ratings are deleted and the given ones inserted up to the first missing worker |
| CommentsService.Remove | src/comments/comments.service.ts:152-177 | a guard failure or a store refusal deletes nothing; otherwise only that comment goes |
| CommentsService.GuardFailuresAreInternal | src/comments/comments.service.ts:161-176 | guard failures reach the caller as internal errors carrying the guard's message, never as the store's not-found |
| CommentWorkersService.Patched | src/comment-workers/comment-workers.service.ts:110-117 | supplied fields replace stored ones; absent fields stay |
| CommentWorkersService.PatchedIdempotent | src/comment-workers/comment-workers.service.ts:110-117 | applying the same patch again changes nothing more |
| CommentWorkersService.Existence | src/comment-workers/comment-workers.service.ts:18-24 | create passes exactly when both the worker and the comment exist; the worker is checked first |
| CommentWorkersService.Ownership | src/comment-workers/comment-workers.service.ts:95-108 | the guard passes exactly when the rating, its comment and that comment's order exist, and the order belongs to the caller |
| CommentWorkersService.OwnerPasses | src/comment-workers/comment-workers.service.ts:107-108 | the owner passes, and anyone else is refused as not the owner |
| CommentWorkersService.Create | src/comment-workers/comment-workers.service.ts:16-42 | a failed existence check, or a uniqueness or foreign-key refusal mapped to its bad request, writes nothing; otherwise exactly one rating is stored |
| CommentWorkersService.Update | src/comment-workers/comment-workers.service.ts:89-123 | a guard failure changes nothing; otherwise only that row is patched |
| CommentWorkersService.Remove | src/comment-workers/comment-workers.service.ts:125-154 | a guard failure changes nothing; otherwise only that row is deleted |
| FavoritesService.Rewritten | src/favorites/favorites.service.ts:129-134 | the item takes the given count, time unit, time and price, and keeps its tool or worker when none is given |
| FavoritesService.RewrittenLaws | src/favorites/favorites.service.ts:129-134 | rewriting twice with the same data is rewriting once; data naming both a tool and a worker leaves nothing of the old item |
| FavoritesService.InsertKeepsUnique | src/favorites/favorites.service.ts:33-49 | inserting a pair the user does not have keeps user-item pairs unique |
| FavoritesService.RepointCanDuplicate | src/favorites/favorites.service.ts:136-142 | one concrete witness: re-pointing by update checks no pair, so a user ends up with the same item twice |
| FavoritesService.FreshItemIsNoFavorite | src/favorites/favorites.service.ts:26-39 | a newly created item is never already a favourite |
| FavoritesService.PlaceItem | src/favorites/favorites.service.ts:26-31 | the new item is stored under a fresh id |
| FavoritesService.PlaceFavorite | src/favorites/favorites.service.ts:41-49 | the favourite is stored under a fresh id |
| FavoritesService.RewriteItem | src/favorites/favorites.service.ts:129-134 | only that item is replaced |
| FavoritesService.Repoint | src/favorites/favorites.service.ts:136-142 | only that favourite is replaced |
| FavoritesService.Create | src/favorites/favorites.service.ts:16-55 | neither id nor item is refused, unwrapped, before any write; a given id wins over an item; a new item is created only without an id; a duplicate pair is refused; otherwise exactly one favourite links the user to the chosen item; unique pairs stay unique |
| FavoritesService.Link | src/favorites/favorites.service.ts:33-49 | a pair the user already has is refused; otherwise the favourite is stored and pairs stay unique |
| FavoritesService.Update | src/favorites/favorites.service.ts:101-148 | a missing favourite or a different, missing item fails with nothing written; a store refusal of the item write (such as a refused tool or worker reference) is the prefixed 500 with the store's message, with nothing written; otherwise the item data is written to the item the favourite ends up on, then the favourite points at it |
| FavoritesService.Remove | src/favorites/favorites.service.ts:150-171 | a missing favourite fails; otherwise only it goes, and its item stays |
| ToolLabels.CreateGate | src/capacities/capacities.service.ts:18-32 | create passes exactly when the tool exists and no label of that tool has the same name ignoring case |
| ToolLabels.Patched | src/capacities/capacities.service.ts:126-129 | supplied fields replace the stored ones; absent fields stay |
| ToolLabels.UpdateGate | src/capacities/capacities.service.ts:107-125 | update passes exactly when the label exists, the target tool is given and exists, and no other label of that tool matches the name |
| ToolLabels.CaseInsensitiveClash | src/capacities/capacities.service.ts:24-32 | a name that differs only in case from a label on the tool is refused |
| ToolLabels.OtherToolFree | src/capacities/capacities.service.ts:24-32 | a name used only on other tools is free |
| ToolLabels.KeepOwnName | src/capacities/capacities.service.ts:116-125 | an update keeping its own name and tool passes the uniqueness check |
| ToolLabels.NamelessUpdateClashes | src/capacities/capacities.service.ts:116-125 | an update without a name clashes with every other label of the tool |
| ToolLabels.CreateKeepsUnique | src/capacities/capacities.service.ts:24-35 | a label that passed the create gate keeps names unique per tool |
| ToolLabels.UpdateKeepsUnique | src/capacities/capacities.service.ts:116-129 | a patch that passed the update gate keeps names unique per tool |
| CapacitiesService.Create | src/capacities/capacities.service.ts:16-49 | gate failures become internal errors and mapped store codes become their bad requests, with nothing written; otherwise exactly one capacity is stored; unique names stay unique |
| CapacitiesService.FindByName | src/capacities/capacities.service.ts:90-103 | returns a capacity whose name matches ignoring case, and fails exactly when there is none |
| CapacitiesService.Update | src/capacities/capacities.service.ts:105-135 | a gate failure or store refusal is the prefixed internal error with nothing written; otherwise only that row is patched; unique names stay unique |
| CapacitiesService.Remove | src/capacities/capacities.service.ts:137-154 | a missing capacity fails; otherwise only it goes |
| CapacitiesService.MissingIsInternal | src/capacities/capacities.service.ts:139-153 | the service's own not-found becomes an internal error; only the store's record-not-found becomes a not-found |
| SizesService.Create | src/sizes/sizes.service.ts:16-49 | as for capacities: gate failures internal, mapped codes bad requests, otherwise one size stored, names stay unique per tool |
| SizesService.FindByName | src/sizes/sizes.service.ts:88-100 | returns a size whose name matches ignoring case, and fails exactly when there is none |
| SizesService.Update | src/sizes/sizes.service.ts:102-132 | a gate failure or store refusal writes nothing; otherwise only that row is patched; names stay unique per tool |
| SizesService.Remove | src/sizes/sizes.service.ts:134-151 | a missing size fails; otherwise only it goes |
| SizesService.MissingIsInternal | src/sizes/sizes.service.ts:136-150 | the service's own not-found becomes an internal error; only the store's record-not-found becomes a not-found |
| CompaniesService.Patched | src/companies/companies.service.ts:104-107 | supplied fields replace the stored ones; absent ones stay |
| CompaniesService.PatchLaws | src/companies/companies.service.ts:104-107 | the empty patch changes nothing, and a patch applied twice is applied once |
| CompaniesService.UpdateGate | src/companies/companies.service.ts:95-103 | update passes exactly when the company exists and the patch names an existing user |
| CompaniesService.Create | src/companies/companies.service.ts:16-37 | a missing user is caught as an internal error, and a duplicate email becomes its bad request, with nothing written; otherwise one company is stored; owners and unique emails are kept |
| CompaniesService.PlaceCompany | src/companies/companies.service.ts:24-26 | the company is stored under a fresh id |
| CompaniesService.FindByName | src/companies/companies.service.ts:76-88 | returns a company whose name matches ignoring case, and fails exactly when there is none |
| CompaniesService.Update | src/companies/companies.service.ts:90-113 | a gate failure writes nothing; otherwise only that company is patched; owners and unique emails are kept |
| CompaniesService.Remove | src/companies/companies.service.ts:115-129 | a missing company fails; otherwise only it goes |
| CarService.Rethrown | src/car/car.service.ts:24-26 | every failure in a handler is re-raised as a bad request with the handler's prefix |
| CarService.Merged | src/car/car.service.ts:55 | supplied fields replace the stored ones; all others are unchanged |
| CarService.MergeCanDuplicate | src/car/car.service.ts:49-60 | one concrete witness: an update checks no duplicate, so two cars end up with the same make and model |
| CarService.AsWrittenKey | src/car/car.service.ts:39 | the lookup key `+id` is a number, never an object id |
| CarService.AsWrittenKeyMissesAll | src/car/car.service.ts:39 | the numeric key finds no stored car, whatever the path parameter |
| CarService.LookupKey | src/car/car.service.ts:39 | the corrected key names exactly the car with that object id |
| CarService.LookupKeyFindsStored | src/car/car.service.ts:37-47 | the corrected key finds the stored car |
| CarService.CarRepository.FindBy | src/car/car.service.ts:39 | returns a car the key names, and nothing exactly when no car answers to it |
| CarService.Create | src/car/car.service.ts:14-27 | a car with the same make and model, whatever its year or colour, is refused with "Car already exists"; otherwise the car is stored from exactly the input's fields; unique make-model pairs stay unique |
| CarService.FindOne | src/car/car.service.ts:37-47 | with the corrected key of the Findings row (not `+id`): the stored car, or "Car not found" when there is none |
| CarService.Update | src/car/car.service.ts:49-60 | with the corrected key of the Findings row (not `+id`): a missing car is "Car not found"; otherwise the merged car replaces it |
| CarService.Remove | src/car/car.service.ts:62-72 | deleting by the object id, the corrected key of the Findings row (not `+id`): a refused delete is re-raised; deleting nothing fails with "Car not found or already deleted"; otherwise the car goes and the answer is the success message |
| AdminsService.Stored | src/admins/admins.service.ts:15-25 | the stored row holds `hash(password, 7)` in the password column, and the name, email and flag as given |
| AdminsService.Patched | src/admins/admins.service.ts:76-79 | each supplied field replaces the stored one, the password as given (no hash); absent fields stay |
| AdminsService.UpdateSkipsHash | src/admins/admins.service.ts:74-86 | an update stores the password as given, not its hash |
| AdminsService.CreatedAdminBlocksEmail | src/admins/admins.service.ts:17-24 | two creates with one email in turn: when the first succeeds, the second is refused with the prefixed "Admin with this email already exists" and the store holds only the first admin |
| AdminsService.Create | src/admins/admins.service.ts:12-31 | an existing email is refused with the prefixed internal error; otherwise the hashed row is stored under a fresh id |
| AdminsService.PlaceAdmin | src/admins/admins.service.ts:25 | the row is stored under a fresh id, and emails stay unique |
| AdminsService.FindOne | src/admins/admins.service.ts:45-57 | the admin, or nothing when absent (a failing read is not modelled; see Left out) |
| AdminsService.FindOneByEmail | src/admins/admins.service.ts:59-71 | the only admin with that email, or nothing when absent |
| AdminsService.Update | src/admins/admins.service.ts:74-86 | no pre-check: a missing admin or a store refusal becomes the prefixed internal error; otherwise the patched row replaces it |
| AdminsService.Remove | src/admins/admins.service.ts:88-99 | no pre-check: a missing admin or a store refusal becomes the prefixed internal error; otherwise only it goes |
| AuthService.AdminRoles | src/auth/auth.service.ts:50-51 | `admin` first, and `superadmin` exactly when the admin is a super admin |
| AuthService.Admit | src/auth/auth.service.ts:19-27 | admitted exactly when the account exists and the password matches its hash; every refusal is the same not-found |
| AuthService.UniformRefusal | src/auth/auth.service.ts:21-27 | an unknown email and a wrong password get the identical answer |
| AuthService.UserByEmail | src/auth/auth.service.ts:19 | the only user with that email, or nothing when absent |
| AuthService.AdminByEmail | src/auth/auth.service.ts:41 | the only admin with that email, with its super-admin flag, or nothing |
| AuthService.SignInUser | src/auth/auth.service.ts:18-34 | fails exactly when no user with that email has a matching password, writing nothing; otherwise the token signs the user's id, email and the role `user`, and a session is recorded when its insert succeeds |
| AuthService.Device | src/auth/sessions.service.ts:23 | the device text starts with the model and a space and ends with the browser name; with no part known it is `undefined undefined undefined` |
| AuthService.RecordSession | src/auth/sessions.service.ts:20-26 | the session is stored under a fresh id |
| AuthService.SignInAdmin | src/auth/auth.service.ts:40-55 | fails exactly when no admin with that email has a matching password; otherwise the token signs the admin's id, email and derived roles; no session is recorded |
| Common.Without | src/auth/sessions.service.ts:49-57 | exactly the rows owned by others remain, unchanged; the same deletion empties a comment's ratings |
| AuthService.SessionsOf | src/auth/sessions.service.ts:49-57 | the user's sessions and the remaining ones split the table |
| AuthService.SignOutUser | src/auth/auth.service.ts:36-38 | every session of the user is deleted, the others stay, and the count of deleted sessions is returned |
| OrderNotification.Upper | src/orders/telegram-bot.service.ts:50-51 | same length, no lower-case letter left, other characters unchanged |
| OrderNotification.UpperIdempotent | src/orders/telegram-bot.service.ts:50-51 | upper-casing twice is upper-casing once, and it changes exactly the strings with a lower-case letter |
| OrderNotification.SplitJoin | src/orders/telegram-bot.service.ts:56-61 | entries joined with newlines split back into the same entries |
| OrderNotification.MessageLayout | src/orders/telegram-bot.service.ts:30-76 | the message opens with the "New Order Placed!" heading and closes with the tools section and then the workers section |
| OrderNotification.ToolsBlock | src/orders/telegram-bot.service.ts:54-63 | the fallback "No tools added." exactly when the list is missing or empty |
| OrderNotification.WorkersBlock | src/orders/telegram-bot.service.ts:66-75 | the fallback "No workers requested." exactly when the list is missing or empty |
| OrderNotification.ToolsBlockShape | src/orders/telegram-bot.service.ts:54-63 | "No tools added." exactly when the list is missing or empty; otherwise one line per tool, numbered from 1 in order |
| OrderNotification.WorkersBlockShape | src/orders/telegram-bot.service.ts:66-75 | "No workers requested." exactly when the list is missing or empty; otherwise one line per worker, numbered from 1 in order |
| OrderNotification.CustomerFields | src/orders/telegram-bot.service.ts:33-35 | name, email and phone of the customer, or "N/A" for each when there is no customer |
| OrderNotification.UnnamedToolsListedAsTool | src/orders/telegram-bot.service.ts:59 | a tool line without a name is shown as "#i Tool xcount - $price" |
| Uploads.SizeCheck | src/pipes/filesize.pipe.ts:5-11 | refuses exactly a present size above 5 MiB; a missing file or size passes |
| Uploads.PipeAgreesWithLimit | src/multer/multer.config.ts:15-17 | the pipe and the storage limit agree on every size; exactly 5 MiB passes both, and one byte more fails both |
| Uploads.Extname | src/multer/multer.config.ts:19 | the extension is empty or starts with a dot, and has no further dot and no slash |
| Uploads.ExtnameJoin | src/multer/multer.config.ts:19 | a plain stem followed by an extension has that extension |
| Uploads.ExtnameLastDot | src/multer/multer.config.ts:19 | the last dot counts (`a.tar.png` gives `.png`) |
| Uploads.ExtnameLeadingDot | src/multer/multer.config.ts:19 | a name that starts with its only dot has no extension |
| Uploads.ExtnameTrailingSlash | src/multer/multer.config.ts:19 | trailing slashes are ignored |
| Uploads.FileFilter | src/multer/multer.config.ts:18-24 | accepts exactly the extensions `.jpg`, `.jpeg` and `.png`; refuses with the fixed message otherwise |
| Uploads.FilterOnExtension | src/multer/multer.config.ts:20 | the comparison keeps case, so `.PNG` is refused |
| Uploads.StoredName | src/multer/multer.config.ts:9-13 | the stored name starts with the upload time and a dash and ends with the original name's extension |
| Uploads.StoredNameKeepsExtension | src/multer/multer.config.ts:9-13 | the stored name keeps the original's extension, so an accepted file is stored under an accepted name |
| Validation.Coerce | src/main.ts:24-26 | missing and null values are left alone; an array stays an array of the same length, item by item converted; anything else becomes text for a string-typed property, a number or NaN for a number-typed one, and a boolean for a boolean-typed one |
| Validation.ObjectsAndArrays | src/main.ts:24-26 | an object sent for a text property becomes `"[object Object]"` and passes `@IsString`; an array fails `@IsString` and `@IsBoolean` |
| Validation.FalseTextIsTrue | src/main.ts:24-26 | conversion to boolean tests only emptiness, so the text `false` is true |
| Validation.Holds | src/main.ts:19-26 | with missing properties not skipped, every validator fails on a missing or null value, and only `@IsNotEmpty` passes NaN |
| Validation.FieldOk | src/main.ts:19-26 | an optional property that is missing or null passes whatever its validators |
| Validation.Failing | src/main.ts:27-32 | no property is listed exactly when every declared property passes its validators |
| Validation.Check | src/main.ts:19-33 | a body passes exactly when it has no undeclared property and every declared property, its nested lines included, passes after conversion; a refusal is a 400, except that it is a 500 exactly when some property fails only through its nested lines |
| Validation.UndeclaredRefused | src/main.ts:21-22 | a property no decorator declares is refused |
| Validation.OptionalMaySkip | src/tools/dto/create-tool.dto.ts:17-20 | an optional property may be missing or null |
| Validation.PassedField | src/main.ts:19-33 | a passing body satisfies every validator of each required property |
| Validation.PassedRule | src/main.ts:19-33 | a passing body satisfies each single validator of a required property |
| Validation.ParseDueDate | src/cards/dto/create-card.dto.ts:15-19 | parses exactly the `MM/YY` strings, with the month from 1 to 12 and a two-digit year |
| Validation.DueDateFormatParse | src/cards/dto/create-card.dto.ts:16 | every month and year format to an accepted date that parses back |
| Validation.DueDateParseFormat | src/cards/dto/create-card.dto.ts:16 | every accepted date is the format of what it parses to |
| Validation.StrongPasswordExample | src/admins/dto/create-admin.dto.ts:17-23 | `Admin@123` is strong |
| Validation.StrongPassword | src/admins/dto/create-admin.dto.ts:17-23 | a strong password is at least 8 UTF-16 units long (so at least 4 characters); the letter, digit and symbol kinds are stated by `StrongPasswordExample` and `NoSymbolNotStrong` |
| Validation.NoSymbolNotStrong | src/admins/dto/create-admin.dto.ts:17-23 | a password of letters and digits only is never strong |
| Validation.OrderLineCount | src/order-tools/dto/create-order-tool.dto.ts:13-16 | a passing `POST /order-tools` body has a whole count of at least 1 |
| Validation.OrderRequestLines | src/orders/dto/create-order.dto.ts:106-114 | in a passing order request, `orderTools` is missing, null or an array, and every line of it is an object with no property beyond tool id, count and price, a text tool id, a whole count of at least 1 and a numeric price |
| Validation.PassedToolLines | src/orders/dto/create-order.dto.ts:110-114 | an optional array property validated line by line against the tool-line schema holds only lines of that shape |
| Validation.PassedToolLine | src/order-tools/dto/create-order-tool.dto.ts:9-20 | a tool line that passes (the order-tool schema without `orderId`) has a text tool id, a whole count of at least 1 and a numeric price |
| Validation.LineRule | src/orders/dto/create-order.dto.ts:112-113 | a required property of a passing nested line passes each of its validators |
| Validation.BadLineAnswersInternal | src/main.ts:27-32 | an order request whose `orderTools` array holds one failing line is refused with a 500, not a 400 |
| Validation.RatingStars | src/comment-workers/dto/create-comment-worker.dto.ts:24-28 | a passing rating has a whole number of stars from 1 to 5 |
| Validation.ToolBounds | src/tools/dto/create-tool.dto.ts:22-30 | a passing tool has a price above 0 and a stock of at least 0 |
| Validation.ProductBounds | src/products/dto/create-product.dto.ts:13-22 | a passing product has a price of at least 0 and a whole stock of at least 0 |
| Validation.StockFromText | src/products/dto/create-product.input.ts:23-27 | the stock is converted to a number before it is checked |
| Validation.CardFormats | src/cards/dto/create-card.dto.ts:9-19 | a passing card has exactly 16 digits and a due date that parses |
| Validation.RefusedWith | src/main.ts:27-32 | a decorator's own text is among the refusal's texts exactly when a declared property fails with it, and any such failure refuses the body |
| Validation.CardMessages | src/cards/dto/create-card.dto.ts:9-19 | a card is refused with "Card number must be exactly 16 digits" exactly when its number is not 16 digits, and with "Due date must be in MM/YY format" exactly when its due date is not `MM/YY` |
| Validation.OrderUpdateRefused | src/orders/dto/update-order.dto.ts:4-36 | no decorator declares a property of the order update, so with the whitelist on any property is refused as undeclared |
| Validation.OtpLength | src/auth/dto/user-activation.dto.ts:16-21 | a passing activation carries a one-time password of length exactly 6 |
| Validation.AdminPassword | src/admins/dto/create-admin.dto.ts:17-25 | a passing admin has a strong password |
| Validation.WorkerExperience | src/workers/dto/create-worker.dto.ts:87-90 | a passing worker has a whole experience of at least 0 |
| Validation.WorkerLooseFields | src/workers/dto/create-worker.dto.ts:48-62 | a minimum working time above the maximum passes, and `isVerified` passes whatever it holds |
| Validation.PasswordMinimums | src/auth/dto/signup-user.dto.ts:21-24 | a 6- or 7-character password passes sign-up but not user creation (at least 8) |
| Bootstrap.Bound | src/main.ts:7-33 | the routes get exactly the pipes and the prefix registered before the first `listen`, and nothing when the server never listens |
| Bootstrap.AfterListenIgnored | src/main.ts:8-33 | no set-up call after `listen` changes what the routes are bound with |
| Bootstrap.Handed | src/main.ts:19-33 | a route without the pipe passes every body; with it, a body passes exactly when the pipe passes it |
| Bootstrap.AsWrittenBindsNothing | src/main.ts:8-19 | in the order written, the routes carry no pipe and no `api` prefix |
| Bootstrap.LineOf | src/orders/orders.service.ts:54-74 | the tool line the order handler uses for one item: present only for an object; its count is the item's count as received, converted when the route carries the pipe and as sent when it does not (so without the pipe only a numeric count makes a line) |
| Bootstrap.TextCountReadOnlyThroughPipe | src/main.ts:19-26 | a count sent as the text `"3"` makes no tool line in the order written, and a line of 3 units with the corrected set-up |
| Bootstrap.LinesOf | src/orders/orders.service.ts:53-54 | the lines of an array exist exactly when every item is a tool line, one per item in order |
| Bootstrap.ToolLinesOf | src/orders/orders.service.ts:53 | a missing or null `orderTools` gives no lines; an array gives its items' lines |
| Bootstrap.AsWrittenAdmitsNegativeCount | src/main.ts:8-19 | in the order written, a `POST /orders` request whose one tool line asks for -3 units with an undeclared property passes and reaches `OrdersService.create` as that line, and placing it raises a stock of 5 to 8 without error |
| OrderLedger.NegativeCountRaisesStock | src/orders/orders.service.ts:62-82 | the service bounds no count from below: a line for -3 units of a tool holding 5 passes and leaves 8 |
| Bootstrap.CorrectedBindsPipe | src/main.ts:17-33 | with the routing set-up before `listen`, the routes carry the validation pipe under the `api` prefix |
| Bootstrap.CorrectedBoundsCount | src/main.ts:17-22 | with the corrected set-up, a `POST /order-tools` body reaches its handler only with a whole count of at least 1 and no undeclared property |
| Bootstrap.CorrectedRefusesNegativeCount | src/main.ts:17-32 | with the corrected set-up, the same `POST /orders` request is refused before the service, with a 500 because the failure is in a line |
| Bootstrap.CorrectedBoundsOrderLines | src/main.ts:17-22 | with the corrected set-up, every tool line a `POST /orders` request hands `OrdersService.create` asks for at least 1 unit |
| Bootstrap.CorrectedNeverRaisesStock | src/orders/orders.service.ts:53-84 | with the corrected set-up, placing an order never raises any tool's stock, wherever the walk over its lines stops |
| OrderLedger.CountsNeverRaiseStock | src/orders/orders.service.ts:75-82 | when no line asks for a negative count, the walk keeps the set of tools and no tool's stock ends above where it started |
| OrderLedger.DemandNonNegative | src/orders/orders.service.ts:75-82 | lines with non-negative counts ask for a non-negative total of each tool |

## Left out

- Concurrency is not modelled. Each request runs alone, so the oversell race between simultaneous orders is not captured. The `Promise.all` double lookups are modelled as sequential lookups.
- I/O is not modelled:
  - the chat post is a parameter (`postFailure`);
  - the SMS client, the mail service and the one-time password generator are not part of this model.
- Crypto and tokens: `bcrypt.hash`, `bcrypt.compare` and `jwt.sign` are uninterpreted function parameters. Token expiry is not modelled.
- Floating point: prices, coordinates and `maxDecimalPlaces` are reals, and numbers are shown through a rendering parameter.
- Dates: date formatting in the Asia/Tashkent zone is a rendering parameter.
- Uploads: the clock and the random number in the stored file name are parameters, and the upload directory is only a constant.
- Device text: user-agent parsing is a parameter (`DeviceInfo`). The IP address falls back to the empty string.
- Store schema:
  - each unique and foreign-key constraint on a single write is a `Verdict` parameter;
  - the inserts inside loops (order-tool, order-worker and rating rows) are assumed accepted by the store;
  - the deletes of `AttachedWorkersService.Remove` and `FavoritesService.Remove` carry no verdict: the existence check just before them leaves only a concurrent delete to make them fail, and concurrency is not modelled;
  - every read of the store is assumed to succeed. A failing read would surface as the wrapped error of its `catch` (for example "BadRequestException fetching car: " in `src/car/car.service.ts:45`, or "Error fetching admin: " in `src/admins/admins.service.ts:54`);
  - case folding is the abstract `Db.fold`;
  - ids are natural numbers instead of UUIDs, so a caller id that is falsy (an empty string) cannot be expressed.
- Validation:
  - nested validation is one level deep: the lines of an order request are validated, lines within lines are not needed by any DTO;
  - the library's default refusal texts are not modelled; the texts a DTO sets on a decorator itself are;
  - the format checks (UUID, email, phone, date string) are parameters;
  - `Number(text)` is a parameter, so exponent forms are whatever it says.
- Validation.NestedOk: an item of a line array that is itself an array counts as a failing line; class-validator would validate its items in turn. No DTO of the core sends such items.
- Bootstrap.LineOf: the tool id is mapped to a model id by the parameter `ids`, because the model's ids are numbers. Without the pipe, a line whose count or price is not a number as sent is no tool line of the model: the source would compare the text with the stock and then have the store refuse the order-tool row after the order row is written, which the model does not follow.
- Service inputs: apart from the missing `commentWorkers` of `CommentsService.Create`, each service takes its inputs as its DTO declares them. A body of another shape reaches the service as written (no pipe is bound), and what the service then does with it is not modelled.
- Pipe order: the global validation pipe and the size pipe are modelled as independent checks.
- Controllers, thin CRUD services, module wiring and the entity classes are not part of this model.
- CommentWorkersService.Update: its `requires` assumes the store accepts a new comment id only when that comment exists.
- FavoritesService.Create: its `requires` assumes the store accepts a favourite only for an item it holds.
- CompaniesService.Create and CompaniesService.Update: their `requires` assume the store refuses a company email already on record.
- AdminsService.Update: its `requires` assumes the store refuses an admin email already on record.
- CarService.Create: requires a fresh object id.
- CommentsService.Create and CommentsService.Update: the rating inserts of their loops are assumed accepted. The P2002 branch of `src/comment-workers/comment-workers.service.ts:31-33` suggests a unique (comment, worker) constraint, but the store schema is not part of this model. Under such a constraint a request naming one worker twice would fail with the wrapped store error after the first of the two rows is written, where the model answers with success and two rows.
- AuthService.SignInUser: the session insert is not awaited (`src/auth/auth.service.ts:29`). The model writes the row or not, as `sessionInsert` says, and answers with the token either way. A refused insert leaves a rejected promise that nothing handles; what the runtime then does (under Node's default, end the process) is not modelled.
- OrdersService.Update, OrdersService.Remove, AttachedWorkersService.Update, AttachedWorkersService.Remove, CapacitiesService.Update, CapacitiesService.Remove, SizesService.Update, SizesService.Remove, CompaniesService.Update and CompaniesService.Remove: their contracts do not restate `Db.Valid()`. They change one table without adding keys, and the source promises nothing about foreign references left dangling.
- Remove tests: `src/car/car.service.spec.ts` expects a different answer and a different error message from `remove`. The model follows `src/car/car.service.ts`.

## Findings

| source | as written | input that shows it | evidently intended | confidence | as-written member | corrected member |
|---|---|---|---|---|---|---|
| src/car/car.service.ts:39 | `findOne`, `update` and `remove` look the car up by `+id`, the numeric value of the path parameter. Cars are stored in MongoDB under `ObjectId` keys (`src/car/entities/car.entity.ts:6-7`). | the hex object id of a stored car, such as `65f0c0ffee0000000000abcd`: `+id` is `NaN` and matches no car, so the stored car is reported as not found | look the car up by its object id | medium, not executed | CarService.AsWrittenKey (lemma CarService.AsWrittenKeyMissesAll) | CarService.LookupKey (lemma CarService.LookupKeyFindsStored); CarService.FindOne, CarService.Update and CarService.Remove use it |
| src/main.ts:19 | `useGlobalPipes` (line 19) and `setGlobalPrefix` (line 17) run after `await app.listen(...)` (line 8). The routes are bound during `listen` and keep the global pipes registered by then, so they get no validation pipe and no `api` prefix. | a `POST /orders` request whose `orderTools` holds one line with `count: -3` and an extra property: it reaches `OrdersService.create` unchecked, passes the stock check (`inStockCount < -3` is false) and raises the stock by 3 | register the prefix and the pipe before `listen`, so every body is validated and whitelisted (an order update, whose DTO declares no validated property, would then refuse every field) | medium, not executed | Bootstrap.AsWritten (lemmas Bootstrap.AsWrittenBindsNothing, Bootstrap.AsWrittenAdmitsNegativeCount, OrderLedger.NegativeCountRaisesStock) | Bootstrap.Corrected (lemmas Bootstrap.CorrectedBindsPipe, Bootstrap.CorrectedRefusesNegativeCount, Bootstrap.CorrectedBoundsOrderLines, Bootstrap.CorrectedNeverRaisesStock, Bootstrap.CorrectedBoundsCount) |
