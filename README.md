# Equipment booking for a student TV club — a Dafny model

The application lends the club's equipment (cameras, lenses, cards, sound,
light…) to its members. The model covers four parts of it.

- **Booking and catalogue services.** Equipment models, with an access tier
  derived from the name, and numbered items.
- **Bookings.** A booking and its per-item claims go Pending → Approved /
  Cancelled / Completed. The availability query decides which items are free
  for a time window.
- **Users.** Accounts with a role (User, Osnova, Ronin, Admin), bans, refresh
  tokens and a one-time code that links the account to a Telegram chat.
- **The Telegram bot.**
  - The update handler: command lookup, the approve/reject buttons and
    their pending-comment protocol, and username refresh.
  - The `/link`, `/start`, profile and status-filter commands.
  - The administrator and status-change notifications.
- **The web client.** The booking cart, the login and registration forms,
  the session kept in `localStorage`, the avatar address, the request
  guards and the login and user-creation routes.

**The store.** The relational store is `Store.Database`, a class whose
sequence fields are the tables (users, equipment models, equipment items,
bookings with their BookingItem rows) in insertion order. It also keeps the
autoincrement counters. `Valid()` states that identifiers are unique and
below their counters, and that inventory numbers are unique.

**Service operations.** Each service operation that writes is a method on
the database. Its `ensures` ties the new tables to a pure function of the
old ones: `CreateUserOutcome`, `LinkOutcome`, `Cancel`, `CreateItemOutcome`,
and so on. The lemmas about the services are stated on those functions.

**Client state.** The cart, the forms, the session and the bot's handler
are classes whose fields their methods reassign.

**Values from outside.** Time is an integer count of milliseconds passed as
`now`. Things the program obtains from outside the code are parameters:
hashing, random choices, token signing and verification, the current year,
date formatting, and the payload decoder of the client.

## Model

| member | source | states |
|---|---|---|
| Enums.StatusCode | src/app/models/booking/booking.ts:1-6 | a booking status is stored as one of the codes 0 to 3 |
| Enums.StatusOfCode | src/app/models/booking/booking.ts:1-6 | exactly the codes 0 to 3 name a status, and reading a code back gives that code |
| Enums.RoleName | src/app/models/user/user.ts:1-6 | exactly the roles 0 to 3 have a name, and looking that name up gives the role back |
| Enums.RoleOfName | src/app/models/user/user.ts:1-6 | a name that is a role always names one of the roles 0 to 3 |
| Enums.AccessCode | src/app/models/equipment/equipment.ts:1-5 | the three access tiers are the codes 0, 1 and 2 |
| Availability.FreeItems | src/services/bookingService.ts:63-86 | an item is kept exactly when it is of the model, available and claimed by no Pending or Approved booking overlapping the window; never more than the table holds |
| Availability.GetAvailableItems | src/services/bookingService.ts:57-94 | the result is the first min(free count, requiredCount) free items in table order, so never more than requested |
| Availability.NonBlockingStatusesNeverClaim | src/services/bookingService.ts:70-83 | Cancelled and Completed bookings never block an item |
| Availability.TouchingWindowsDoNotConflict | src/services/bookingService.ts:75-82 | a booking that ends when the window starts, or starts when it ends, does not block |
| Availability.ReleasingBookingFrees | src/services/bookingService.ts:70-83 | moving a booking out of Pending/Approved frees every item that no other active overlapping booking claims |
| BookingService.ModelByName | src/services/bookingService.ts:129-135 | a model whose name equals the requested one exactly, or none exactly when no model has it |
| BookingService.AccessRule | src/services/bookingService.ts:137-150 | a role may book a tier exactly when its number is at least the tier's (Ronin needs 2, Osnova 1, User none) |
| BookingService.AccessMonotone | src/services/bookingService.ts:137-150 | Admin passes every tier, and a higher role passes wherever a lower one does |
| BookingService.ShortNoticeWarnings | src/services/bookingService.ts:116-120 | the warning map holds the short-notice key exactly when the start is less than two days after now, and is empty otherwise |
| BookingService.DaysDiffAgrees | src/services/bookingService.ts:116-118 | the integer comparison agrees with the fractional day count of the source |
| BookingService.StageLine | src/services/bookingService.ts:124-163 | the checks run in order: a quantity ≤ 0, an unknown model name, the role below the model's tier, too few free items, each giving its own error, and success when all pass; a success yields exactly `quantity` items of the named model, each available and claimed by no active overlapping booking |
| BookingService.StageLines | src/services/bookingService.ts:124-173 | on success the staged items number the total quantity of the lines, and each is available and claimed by no active overlapping booking |
| BookingService.StageLinesFirstError | src/services/bookingService.ts:124-173 | the request succeeds iff every line does; otherwise it fails with the error of the first failing line, so no later line is looked at |
| BookingService.PlanBookingOrder | src/services/bookingService.ts:96-163 | a failed requester, window or empty-request check decides the outcome before any line is looked at; past them the request succeeds iff every line does, and otherwise fails with the first failing line's error |
| BookingService.PlanBooking | src/services/bookingService.ts:96-173 | a plan exists only past the requester, window and empty-request checks; it holds as many items as the lines ask for in total, each a stored, available item free in the window, and a warning exactly when the start is under two days away |
| BookingService.Preflight | src/services/bookingService.ts:101-114 | the checks run in order: an unknown requester, a start not before the end, no line, each giving its own error, and success when all pass, handing on that requester and those lines |
| BookingService.ClaimRows | src/services/bookingService.ts:165-172 | one BookingItem row per staged item, in order, each with the booking's window and not returned |
| BookingService.SuccessfulBookingShape | src/services/bookingService.ts:159-189 | a booking made is Pending with no admin comment, has one row per requested unit with the booking's window, none returned, and carries the warning exactly on short notice |
| BookingService.BookingItemToDto | src/services/bookingService.ts:44-53 | a row's DTO keeps its id, item id, window and returned flag, and takes the item's inventory number and its model's name, '' where either join is missing |
| BookingService.BookingToResponseDto | src/services/bookingService.ts:31-55 | the DTO takes the owner's name, login and Telegram name ('' when unset or the owner is missing), has one entry per BookingItem that is that row's DTO, names the status, and keeps the window, comments and warnings |
| BookingService.StageRequestLines | src/services/bookingService.ts:124-173 | the loop over the lines returns what StageLines specifies |
| BookingService.StageOne | src/services/bookingService.ts:125-172 | the loop body returns what StageLine specifies for its line |
| BookingService.CreateBooking | src/services/bookingService.ts:96-207 | on any error the store is unchanged and the error is PlanBooking's, which PlanBookingOrder shows is the first failing check; on success exactly one booking with its claims is appended and its DTO returned |
| BookingService.StagedItemsDistinct | src/services/bookingService.ts:124-172 | with distinct model names in a request, no item is staged twice |
| BookingService.AppendFreeBooking | src/services/bookingService.ts:175-189 | appending a booking whose claims are distinct and free keeps the store free of double bookings |
| BookingService.CreatePreservesNoDoubleBooking | src/services/bookingService.ts:96-189 | a booking made as written, with distinct model names on its lines, keeps the store free of double bookings |
| BookingService.DuplicateLineDoubleBooks | src/services/bookingService.ts:124-172 | as written, naming one model on two lines stages one item twice and the new booking clashes with itself |
| BookingService.StageLinesFresh | src/services/bookingService.ts:124-173 | corrected allocation: each line draws only from items no earlier line staged, and the staged items are pairwise distinct |
| BookingService.CreateFreshPreservesNoDoubleBooking | src/services/bookingService.ts:96-189 | with the corrected allocation every booking keeps the store free of double bookings, whatever names its lines repeat |
| BookingService.Approve | src/services/bookingService.ts:381-407 | a booking becomes Approved from any status; an absent or empty comment keeps the old admin comment |
| BookingService.Complete | src/services/bookingService.ts:409-434 | a booking becomes Completed from any status, and nothing else changes |
| BookingService.Cancel | src/services/bookingService.ts:449-468 | fails for an actor who is neither owner nor admin, then for an already Cancelled booking; otherwise Cancelled (Completed bookings included), the comment replaced only by an admin with a non-empty one |
| BookingService.CancelOnce | src/services/bookingService.ts:456-458 | a cancelled booking cannot be cancelled again, whoever asks |
| BookingService.ApproveBooking | src/services/bookingService.ts:381-407 | a missing booking fails with the not-found error and no change; otherwise that row becomes Approve of it and true is returned |
| BookingService.CompleteBooking | src/services/bookingService.ts:409-434 | a missing booking fails with the not-found error and no change; otherwise that row becomes Complete of it |
| BookingService.CancelBooking | src/services/bookingService.ts:436-478 | a missing booking fails first; otherwise the row becomes Cancel of it, or the store stays unchanged with Cancel's error |
| BookingService.UpdateKeepsNoDoubleBooking | src/services/bookingService.ts:381-478 | replacing a booking by one with the same claims that blocks only if the old one did keeps the store free of double bookings |
| BookingService.TransitionsKeepNoDoubleBooking | src/services/bookingService.ts:381-478 | cancelling and completing never create a double booking; approving does not when the booking was Pending or Approved |
| BookingService.ReapprovingCancelledDoubleBooks | src/services/bookingService.ts:392-398 | approving a Cancelled booking, which the service permits, can create a double booking |
| BookingService.GetBookingById | src/services/bookingService.ts:228-254 | a missing booking and a booking without items fail with their messages; a found booking with items is returned as that exact row |
| BookingService.NonEmpty | src/services/bookingService.ts:273-275 | an empty result becomes the error of its query; a non-empty one is passed on |
| BookingService.GetBookingsByUser | src/services/bookingService.ts:256-278 | exactly the user's bookings, or the error naming the user when there are none |
| BookingService.GetBookingsByEquipmentItem | src/services/bookingService.ts:280-308 | exactly the bookings with a row for the item, or the empty-result error |
| BookingService.GetBookingsByStatus | src/services/bookingService.ts:310-332 | exactly the bookings with the status, or the empty-result error |
| BookingService.ItemByInventoryNumber | src/services/bookingService.ts:336-345 | an item whose inventory number equals the given one ignoring case, none iff no item has one |
| BookingService.GetBookingsByInventoryNumber | src/services/bookingService.ts:334-379 | a blank number and an unknown number fail with their messages; a known item no booking mentions fails with the no-bookings message naming the number; otherwise Ok with exactly the bookings that have a row for that item |
| EquipmentService.RoninAnywhere | src/services/equipmentService.ts:30-36 | a name containing "ronin" in any letter case gives the Ronin tier whatever the flag says |
| EquipmentService.DeriveAccess | src/services/equipmentService.ts:30-36 | the Ronin tier exactly when the lower-cased name contains "ronin"; the Osnova tier only when the flag is set |
| EquipmentService.TierWithoutRonin | src/services/equipmentService.ts:30-36 | without "ronin" in the name, the `osnova` flag chooses between Osnova and User |
| EquipmentService.DeriveAccessIgnoresCase | src/services/equipmentService.ts:30-36 | the tier does not depend on the letter case of the name |
| EquipmentService.CreateDtoToEqModel | src/services/equipmentService.ts:25-45 | the model keeps the request's fields and gets the derived tier (the instance copy at 57-77 is identical) |
| EquipmentService.NameClash | src/services/equipmentService.ts:84-88 | a model whose name equals the given one ignoring case, none exactly when no model has it |
| EquipmentService.OtherNameClash | src/services/equipmentService.ts:216-226 | the first model other than the one updated whose name equals the given one ignoring case |
| EquipmentService.CreateModelOutcome | src/services/equipmentService.ts:79-102 | absent data fails, then a name taken ignoring case; a free name succeeds, and the new row takes the next id, the name and the derived tier, and clashes with no model |
| EquipmentService.CreateKeepsNamesUnique | src/services/equipmentService.ts:84-95 | creation keeps model names unique ignoring case |
| EquipmentService.CreateEquipmentModel | src/services/equipmentService.ts:79-102 | the store changes exactly as CreateModelOutcome says, and not on failure |
| EquipmentService.GetEquipmentModelById | src/services/equipmentService.ts:109-123 | a non-positive id and a missing model fail; a positive id of a stored model returns exactly that model row |
| EquipmentService.UpdateModelOutcome | src/services/equipmentService.ts:200-240 | in order: id ≤ 0, absent data, a missing model, a trimmed name that another model holds ignoring case, each its own error, and success otherwise; only that row changes, to the new data with a recomputed tier |
| EquipmentService.UpdateKeepsOwnName | src/services/equipmentService.ts:216-226 | a model may keep its own name |
| EquipmentService.UpdateRecomputesAccess | src/services/equipmentService.ts:228-238 | the updated tier is the one derived from the new name and flag |
| EquipmentService.UpdateAdmitsPaddedDuplicate | src/services/equipmentService.ts:216-238 | as written: models " cam" (id 1) and "lamp" (id 2) have unique names, yet renaming model 2 to " cam" passes the test on the trimmed "cam" and stores a second " cam" |
| EquipmentService.FixedUpdateKeepsNamesUnique | src/services/equipmentService.ts:216-238 | the corrected update, which tests the name as stored, keeps names unique ignoring case |
| EquipmentService.UpdateEquipmentModel | src/services/equipmentService.ts:200-240 | the models change exactly as UpdateModelOutcome says |
| EquipmentService.DeleteEquipmentModel | src/services/equipmentService.ts:242-254 | an unknown id fails without change; otherwise that model row goes, and rows that refer to it are left as they are |
| EquipmentService.InventoryNumberDecodes | src/services/equipmentService.ts:282-294 | an inventory number splits on '-' into category, padded model id and padded sequence, which read back as the three values |
| EquipmentService.InventoryNumberInjective | src/services/equipmentService.ts:282-294 | distinct (category, model, sequence) triples give distinct inventory numbers |
| EquipmentService.CreatedItemShape | src/services/equipmentService.ts:266-316 | a created item is available, belongs to the model, takes the next id and carries an inventory number no item had |
| EquipmentService.CreateItemOutcome | src/services/equipmentService.ts:266-316 | a missing model fails with its message; a created item takes the next id, belongs to the model, is available and carries a number no item had |
| EquipmentService.EqItemToResponseDto | src/services/equipmentService.ts:256-264 | the response keeps the item's id, number and availability, takes the model's name, and names the category, absent for a code outside the nine categories |
| EquipmentService.CreatedItemDto | src/services/equipmentService.ts:289-300 | the response to a creation carries the next id, the new number, available, and the owning model's name and category name |
| EquipmentService.AtMostFiveAttempts | src/services/equipmentService.ts:277-315 | the outcome depends only on what the store does on attempts 0 to 4 |
| EquipmentService.OtherErrorRethrown | src/services/equipmentService.ts:303-312 | an error other than a unique-number collision is returned at once |
| EquipmentService.CollisionExhaustsAttempts | src/services/equipmentService.ts:303-315 | a colliding number is retried until the fifth collision, which fails with the retry-limit error |
| EquipmentService.LoopFailures | src/services/equipmentService.ts:277-315 | every failure is the retry limit or an error the store raised; the final throw after the loop is never reached |
| EquipmentService.TryInsertItem | src/services/equipmentService.ts:277-315 | the while loop with its attempt counter returns what CreateItemLoop specifies |
| EquipmentService.CreateEquipmentItem | src/services/equipmentService.ts:266-316 | the store changes exactly as CreateItemOutcome says: one item appended on success, nothing on failure |
| EquipmentService.DeletedItemBlocksNumbering | src/services/equipmentService.ts:282-294 | as written: for model 1 whose only item is numbered "0-001-02" every attempt computes that same number, and creation fails after the retries |
| EquipmentService.MaxSequence | src/services/equipmentService.ts:282-294 | corrected numbering: no item of the model carries a sequence number above the maximum |
| EquipmentService.NextSequenceIsFree | src/services/equipmentService.ts:282-294 | the corrected next number is never in use |
| EquipmentService.FixedCreationSucceeds | src/services/equipmentService.ts:266-316 | with the corrected numbering creation succeeds on the first attempt unless the store fails otherwise |
| EquipmentService.GetEquipmentItemById | src/services/equipmentService.ts:350-367 | a non-positive id and a missing item fail; a positive id of a stored item returns exactly that item row |
| EquipmentService.GetEquipmentItemsByModel | src/services/equipmentService.ts:369-390 | an unknown model fails; a known one with no items fails with 'no items for the model'; otherwise the result holds exactly the model's items |
| EquipmentService.DeleteEquipmentItem | src/services/equipmentService.ts:392-404 | an unknown id fails without change; otherwise that item row goes, and booking rows that refer to it are left as they are |
| EquipmentService.GetAvailableEquipmentItemsByModel | src/services/equipmentService.ts:406-461 | fails for model id ≤ 0, a reversed window or a missing model; when all three guards pass, Ok with every free item of the model and no count bound |
| EquipmentService.BookingTakesPrefixOfListing | src/services/equipmentService.ts:406-461 | what booking allocates for a model is the head of what this query lists |
| EquipmentService.ToggleAt | src/services/equipmentService.ts:463-478 | one item's available flag is negated and nothing else changes |
| EquipmentService.ToggleTwice | src/services/equipmentService.ts:463-478 | two toggles restore the item table |
| EquipmentService.ToggleAvailability | src/services/equipmentService.ts:463-478 | an unknown id fails without change; otherwise the items become ToggleAt of them |
| EquipmentService.GetAvailableToMe | src/services/equipmentService.ts:158-198 | a missing user fails; otherwise the listing chosen by the user's role, whose tiers VisibilityByRole gives |
| EquipmentService.VisibilityByRole | src/services/equipmentService.ts:169-191 | roles 3 and 4 see all models, role 2 all but the Ronin tier, role 1 the User tier only, and every other role, 0 included, fails |
| EquipmentService.ListingAndBookingDisagree | src/services/equipmentService.ts:169-191 | as written, role 2 may book a Ronin-tier model it is not shown, and role 0 may book User-tier models but cannot list any |
| UserService.CreateDtoToUser | src/services/userService.ts:7-25 | the row keeps the request's login, name and join year, stores the hash of password and salt, takes role Ronin or User by the flag, and is unbanned and unlinked |
| UserService.UserToResponseDto | src/services/userService.ts:27-38 | the DTO keeps the id, name, login, chat id, Telegram username and banned flag, names the role, and reports linked exactly when a chat is bound |
| UserService.LoginIndex | src/services/userService.ts:62-71 | an account whose login equals the given one ignoring case, none exactly when there is none |
| UserService.CreateUserOutcome | src/services/userService.ts:80-102 | fails with the "login taken" error exactly when the login is taken ignoring case; otherwise the new row takes the next id and the login |
| UserService.NewUserRole | src/services/userService.ts:14-24 | the first account is Admin; later ones are Ronin or User by the request's flag, and every new account is unbanned and unlinked |
| UserService.CreateKeepsLoginsUnique | src/services/userService.ts:80-102 | creating an account keeps logins unique ignoring case |
| UserService.CreateUser | src/services/userService.ts:80-102 | the users change exactly as CreateUserOutcome says, and not on failure |
| UserService.SaveRefreshToken | src/services/userService.ts:41-49 | a missing account fails without change; otherwise it holds the token with expiry now plus seven days, and nothing else changes |
| UserService.GetByRefreshToken | src/services/userService.ts:51-60 | an account holding the token with an expiry strictly after now, none exactly when there is none |
| UserService.SavedTokenLifetime | src/services/userService.ts:41-60 | a saved token is accepted for seven days and refused from the instant its expiry is reached |
| UserService.GenerateTelegramLinkCode | src/services/userService.ts:134-158 | a missing or already linked account fails without change; otherwise a six-digit code with expiry ten minutes on is stored and returned |
| UserService.CodeIndex | src/services/userService.ts:165-167 | an account holding the code, none exactly when there is none |
| UserService.ChatIndex | src/services/userService.ts:128-132 | an account bound to the chat, none exactly when there is none |
| UserService.LinkOutcome | src/services/userService.ts:160-198 | an unknown code fails; linking succeeds exactly when the code's account has an unexpired code and no account holds the chat, and yields that account |
| UserService.Linked | src/services/userService.ts:189-197 | the linked row has the chat id and username set and code and expiry cleared; every other field is kept |
| UserService.LinkRefusalNamesTheHolder | src/services/userService.ts:181-187 | the two chat refusals are told apart by whose account holds the chat |
| UserService.BindFreeChatKeepsChatIdsUnique | src/services/userService.ts:189-197 | binding a chat no account holds keeps every chat bound to at most one account |
| UserService.LinkKeepsChatIdsUnique | src/services/userService.ts:160-198 | linking keeps every chat bound to at most one account |
| UserService.LinkTelegramByCode | src/services/userService.ts:160-198 | the users change exactly as LinkOutcome says; on success chat id and username are set and code and expiry cleared |
| UserService.Unlinked | src/services/userService.ts:208-216 | chat id, username, code and expiry cleared; everything else kept |
| UserService.UnlinkUndoesLink | src/services/userService.ts:189-216 | unlinking after linking leaves the same row as unlinking the account before the link |
| UserService.UnlinkTelegram | src/services/userService.ts:200-220 | a missing account fails with the not-found error and no change; otherwise that row becomes Unlinked of it |
| UserService.UnlinkKeepsChatIdsUnique | src/services/userService.ts:200-220 | unlinking keeps every chat bound to at most one account |
| UserService.UpdateTelegramUsername | src/services/userService.ts:222-233 | a write only for the account bound to the chat and only when its stored name differs; otherwise nothing changes |
| UserService.StripAt | src/services/userService.ts:236 | one leading '@' is dropped and nothing else |
| UserService.GenerateTelegramDeepLink | src/services/userService.ts:235-238 | the address starts with `https://t.me/`, then the bot name without its '@', then `?start=` and the parameter |
| UserService.DeepLinkIgnoresAt | src/services/userService.ts:235-238 | a bot name with or without its '@' gives the same link |
| UserService.UpdateUserField | src/services/userService.ts:247-300 | found exactly when the account exists; then only that row is replaced, and nothing changes otherwise |
| UserService.BanUser | src/services/userService.ts:247-256 | false and no change for a missing account; otherwise only its banned flag becomes true |
| UserService.UnbanUser | src/services/userService.ts:258-267 | false and no change for a missing account; otherwise only its banned flag becomes false |
| UserService.SetRole | src/services/userService.ts:269-300 | false and no change for a missing account; otherwise only its role changes |
| UserService.MakeAdmin | src/services/userService.ts:269-278 | only the role changes, to Admin |
| UserService.GrantRonin | src/services/userService.ts:280-289 | only the role changes, to Ronin |
| UserService.MakeUser | src/services/userService.ts:291-300 | only the role changes, to User |
| UserService.DeleteUser | src/services/userService.ts:302-310 | false and no change for a missing account; otherwise that row goes, and bookings that refer to it are left as they are |
| UserService.DeleteRemovesOnlyThatUser | src/services/userService.ts:302-310 | after deletion no row has the id and every other row is in place |
| UpdateHandler.RegisterCommands | src/lib/telegram/updateHandler.ts:24-58 | the fixed commands under their names, then each filter button under its label |
| UpdateHandler.AddButtonsLookup | src/lib/telegram/updateHandler.ts:42-55 | adding the buttons registers each under its label and leaves every other key as it was |
| UpdateHandler.FilterLabelsDistinct | src/lib/telegram/updateHandler.ts:42-55 | the button labels are pairwise distinct |
| UpdateHandler.RegisteredCommands | src/lib/telegram/updateHandler.ts:24-58 | each button's label selects its filter, and the fixed commands keep their names |
| UpdateHandler.NoSlashLabel | src/lib/telegram/updateHandler.ts:42-55 | no button label starts with '/' |
| UpdateHandler.SlashCommandKept | src/lib/telegram/updateHandler.ts:24-58 | a '/'-key is registered exactly as the fixed commands have it |
| UpdateHandler.Lookup | src/lib/telegram/updateHandler.ts:240-255 | the command under the full text, otherwise the one under the first word, otherwise none |
| UpdateHandler.LinkWithArgumentResolves | src/lib/telegram/updateHandler.ts:240-255 | `/link` followed by any argument reaches the link command |
| UpdateHandler.LinkTextUnregistered | src/lib/telegram/updateHandler.ts:24-58 | no registered name is `/link ` followed by more |
| UpdateHandler.ParseCallbackData | src/lib/telegram/updateHandler.ts:103-108 | accepted iff the data starts with `booking:` and splits on ':' into exactly three parts; the action is the second piece and the id is the third read by radix-less `parseInt`, so a `0x` prefix reads hexadecimal |
| UpdateHandler.CallbackDataParses | src/lib/telegram/updateHandler.ts:103-108 | data `booking:<action>:<id>` with no further ':' gives back the action and the id as radix-less `parseInt` reads it |
| UpdateHandler.HexCallbackId | src/lib/telegram/updateHandler.ts:108 | `booking:approve:0x10` names booking 16 |
| UpdateHandler.CallbackOutcome | src/lib/telegram/updateHandler.ts:96-159 | ignored exactly when the data does not parse; a sender not bound to an Admin is refused; the prompt, with the parsed action and id, exactly when the data parses, the sender is a bound Admin and the booking exists and is Pending |
| UpdateHandler.CommentOf | src/lib/telegram/updateHandler.ts:181 | "-" means no comment; any other text is the comment |
| UpdateHandler.CommentedBooking | src/lib/telegram/updateHandler.ts:184-214 | approve gives Approved and reject Cancelled, each overwriting the admin comment; any other action changes nothing |
| UpdateHandler.CommentReplyOf | src/lib/telegram/updateHandler.ts:161-222 | a missing booking or one no longer Pending is answered as already processed |
| UpdateHandler.CommentReplyKeepsNoDoubleBooking | src/lib/telegram/updateHandler.ts:161-222 | the bot only moves Pending bookings, so it keeps the store free of double bookings |
| UpdateHandler.CommentAppliesOnce | src/lib/telegram/updateHandler.ts:173-214 | a second comment for the same booking is refused |
| UpdateHandler.SenderName | src/lib/telegram/updateHandler.ts:72 | never empty: a present non-empty username is kept, a missing or empty one becomes "Unknown" |
| UpdateHandler.RefreshedUsers | src/lib/telegram/updateHandler.ts:224-238 | only the row bound to the chat may change, and only its username; a sender name other than "Unknown" ends up stored there, "Unknown" ends up as no name or unchanged |
| UpdateHandler.RefreshIdempotent | src/lib/telegram/updateHandler.ts:224-238 | refreshing twice stores what refreshing once does |
| UpdateHandler.Handler.constructor | src/lib/telegram/updateHandler.ts:19-22 | the command table is the registered one and no comment is pending |
| UpdateHandler.Handler.LivePending | src/lib/telegram/updateHandler.ts:78-80 | the pending record of a chat while its lifetime lasts |
| UpdateHandler.Handler.HandleCallbackQuery | src/lib/telegram/updateHandler.ts:96-159 | answers CallbackOutcome; only the prompt stores the record, with a 600-second lifetime, and the store is unchanged |
| UpdateHandler.Handler.HandleCommentReply | src/lib/telegram/updateHandler.ts:161-222 | the bookings become CommentedBookings of them |
| UpdateHandler.Handler.UpdateUsername | src/lib/telegram/updateHandler.ts:224-238 | the users become RefreshedUsers of them |
| UpdateHandler.Handler.HandleMessage | src/lib/telegram/updateHandler.ts:60-94 | no text changes nothing; otherwise the username refresh, then the comment (only for a reply with a live record, which is deleted) or the command lookup, with the fallback for an unknown command |
| LinkCommand.Arguments | src/lib/telegram/commands/link.ts:12-24 | present exactly when there is a text; every piece kept is non-empty and holds no space |
| LinkCommand.ParseCode | src/lib/telegram/commands/link.ts:12-36 | a format error exactly unless the text has two pieces; a code is returned only when it is the second piece and six digits |
| LinkCommand.CommandWithSixDigitsParses | src/lib/telegram/commands/link.ts:12-36 | `/link` and a six-digit code parse to that code |
| LinkCommand.LiveCodeIndex | src/lib/telegram/commands/link.ts:92-103 | the first account with the code and an expiry at or after now; none iff there is none |
| LinkCommand.StoredUsername | src/lib/telegram/commands/link.ts:119-127 | an empty username is stored as none |
| LinkCommand.CommandLinkOutcome | src/lib/telegram/commands/link.ts:87-117 | an unknown or expired code fails as not found, a code whose account has a chat as already linked; success exactly when the live code's account has no chat and no account holds the chat, binding that account |
| LinkCommand.CommandLinkKeepsChatIdsUnique | src/lib/telegram/commands/link.ts:105-127 | the command's binding keeps every chat bound to at most one account |
| LinkCommand.CommandAndServiceDisagreeOnRelink | src/lib/telegram/commands/link.ts:105-110 | the command refuses to rebind a linked account, which the service's link (used by `/start`) rebinds |
| LinkCommand.LinkTelegramByCode | src/lib/telegram/commands/link.ts:87-134 | the users change exactly as CommandLinkOutcome says |
| LinkCommand.RoleLabel | src/lib/telegram/commands/link.ts:136-147 | the admin label exactly for role 3, the user label otherwise |
| LinkCommand.ErrorToReply | src/lib/telegram/commands/link.ts:57-84 | the invalid-code reply for the missing-code message; a message carrying the 'already linked' tag, and only such, is shown with the tag dropped |
| LinkCommand.TaggedErrorShownWithoutTag | src/lib/telegram/commands/link.ts:69-72 | a tagged message is shown with the tag dropped |
| LinkCommand.BindingErrorsHaveReplies | src/lib/telegram/commands/link.ts:57-84 | every error of the binding gets its dedicated reply |
| LinkCommand.TelegramLine | src/lib/telegram/commands/link.ts:38-56 | '@' and the stored username, or the placeholder when none is stored |
| LinkCommand.Reply | src/lib/telegram/commands/link.ts:8-85 | the format replies for a bad text; the success reply iff the code parses and the binding succeeds |
| LinkCommand.ExecuteAsync | src/lib/telegram/commands/link.ts:8-85 | sends Reply; the account is bound only on the success reply, and nothing else changes |
| StartCommand.StartParameter | src/lib/telegram/commands/start.ts:20-23 | present exactly when the text has more than one whitespace-separated piece |
| StartCommand.AutoLinkCode | src/lib/telegram/commands/start.ts:25-28 | a code only for a parameter `LINK_` followed by six digits, and that is the code |
| StartCommand.DeepLinkRoundTrip | src/lib/telegram/commands/start.ts:20-28 | the `/start` message that a deep link produces gives back the code it was made from |
| StartCommand.GeneratedLinkStartsLinking | src/services/userService.ts:235-238 | the start value of a generated link is `LINK_` and the code, and the `/start` message Telegram sends for it links with exactly that code |
| StartCommand.ClassifyLinkError | src/lib/telegram/commands/start.ts:59-85 | the invalid-code reply iff the message is the unknown-code one or contains "истек"; otherwise the message echoed, or a default for an empty one |
| StartCommand.CodeErrorsGiveInvalidCodeReply | src/lib/telegram/commands/start.ts:59-73 | both code errors of the service reach the user as the invalid-code reply |
| StartCommand.TelegramLine | src/lib/telegram/commands/start.ts:52 | '@' and the username, or the placeholder when absent |
| StartCommand.Reply | src/lib/telegram/commands/start.ts:14-120 | the success reply iff a code is given and the link succeeds; without a code, the instructions for an unbound chat and the greeting for a bound one |
| StartCommand.ExecuteAsync | src/lib/telegram/commands/start.ts:14-120 | sends Reply; the account is bound only on the success reply |
| BookingFilter.StatusEmoji | src/lib/telegram/commands/bookingFilter.ts:94-107 | four names have their emoji and any other gets the default |
| BookingFilter.StatusLabel | src/lib/telegram/commands/bookingFilter.ts:109-122 | four names have their label and any other is shown as it is |
| BookingFilter.GroupName | src/lib/telegram/commands/bookingFilter.ts:124-139 | a filter that is none of the five names, compared lower-cased, is its own heading |
| BookingFilter.StoredStatusesHaveLabels | src/lib/telegram/commands/bookingFilter.ts:94-122 | every status a booking can carry has its own emoji and label |
| BookingFilter.StatusFilter | src/lib/telegram/commands/bookingFilter.ts:32-36 | "all" keeps every booking; another filter keeps exactly those whose status equals it ignoring case; never more than there were |
| BookingFilter.Truncate | src/lib/telegram/commands/bookingFilter.ts:71-75 | a text over 4000 UTF-16 code units becomes its longest whole-character prefix within 4000 units, followed by the notice; a text within the limit is unchanged |
| BookingFilter.TruncateKeepsPrefix | src/lib/telegram/commands/bookingFilter.ts:71-75 | the reply begins with the text's cut prefix, which is 4000 code units, or 3999 when a surrogate pair straddles the limit; the reply is at most 4000 units plus the notice |
| BookingFilter.AstralTextIsCut | src/lib/telegram/commands/bookingFilter.ts:72-75 | a text of 2100 emoji, fewer than 4000 characters but 4200 code units, is cut |
| BookingFilter.ItemsListed | src/lib/telegram/commands/bookingFilter.ts:57-62 | each item of a booking is listed in its part |
| BookingFilter.RenderItems | src/lib/telegram/commands/bookingFilter.ts:57-62 | the loop builds the item lines in order |
| BookingFilter.RenderPart | src/lib/telegram/commands/bookingFilter.ts:47-69 | one booking's part as PartOf specifies |
| BookingFilter.ResponseParts | src/lib/telegram/commands/bookingFilter.ts:47-69 | the heading first, then one part per booking |
| BookingFilter.PartsInOrder | src/lib/telegram/commands/bookingFilter.ts:47-69 | part k+1 is booking k's, so the parts keep the bookings' order |
| BookingFilter.JoinContainsParts | src/lib/telegram/commands/bookingFilter.ts:71 | joining keeps every part in the text |
| BookingFilter.ShortListShowsEveryBooking | src/lib/telegram/commands/bookingFilter.ts:47-75 | when the joined parts are within 4000 code units, every booking's part is in the reply |
| BookingFilter.RenderList | src/lib/telegram/commands/bookingFilter.ts:47-75 | the reply for a non-empty list is the join of ResponseParts, cut as Truncate says when over 4000 code units |
| BookingFilter.UserDtos | src/services/bookingService.ts:256-278 | fails exactly when the service's lookup fails, with its error; otherwise one DTO per booking of the user, in order, each the booking's response DTO |
| BookingFilter.NoBookingsGiveNoBookingsYet | src/lib/telegram/commands/bookingFilter.ts:82-91 | a linked user without bookings gets the "no bookings yet" reply, because the service's error holds the words the command looks for |
| BookingFilter.ExecuteAsync | src/lib/telegram/commands/bookingFilter.ts:20-92 | nothing for an unbound chat; otherwise the filtered list, the empty-filter reply or the "no bookings yet" reply |
| NotificationService.StatusEmoji | src/lib/telegram/notificationService.ts:156-163 | Approved, Completed and Cancelled have their emoji; every other status gets the hourglass |
| NotificationService.StatusText | src/lib/telegram/notificationService.ts:165-173 | "Неизвестно" exactly for a code that names no status |
| NotificationService.WarningLine | src/lib/telegram/notificationService.ts:144-151 | a line exactly for an array, a string or an object (null, numbers and booleans give none), always headed by the entry's key |
| NotificationService.WarningLinesAppend | src/lib/telegram/notificationService.ts:140-154 | the lines of concatenated entries are the lines of each part, one after the other, so they keep entry order |
| NotificationService.WarningLinesEmpty | src/lib/telegram/notificationService.ts:140-154 | the list is empty exactly when no entry is shown |
| NotificationService.WarningLinesHaveKeys | src/lib/telegram/notificationService.ts:145-150 | every line is prefixed by its entry's key |
| NotificationService.FormatWarnings | src/lib/telegram/notificationService.ts:140-154 | the loop returns the lines of the entries in order |
| NotificationService.EmptyArrayWarningShown | src/lib/telegram/notificationService.ts:144-150 | as written, an empty array is printed as its JSON text `[]` |
| NotificationService.WarningLineFixed | src/lib/telegram/notificationService.ts:144-150 | corrected: an empty array gives no line, and every other value the line the code gives |
| NotificationService.CallbackDataRoundTrip | src/lib/telegram/notificationService.ts:67-74 | both buttons' data pass the handler's three-part parse and give back the action and the booking's id |
| NotificationService.NoWarningsNoSection | src/lib/telegram/notificationService.ts:60-63 | a booking without warning lines gets no warnings section |
| NotificationService.NewBookingEndsPending | src/lib/telegram/notificationService.ts:46-65 | the message ends with the pending footer |
| NotificationService.RenderItems | src/lib/telegram/notificationService.ts:52-54 | the loop adds one line per item, with its model name and inventory number, in order |
| NotificationService.Admins | src/lib/telegram/notificationService.ts:14-19 | exactly the Admin accounts with a chat |
| NotificationService.AdminMessages | src/lib/telegram/notificationService.ts:76-83 | one message per administrator, in order |
| NotificationService.AdminMessagesReachAllAdmins | src/lib/telegram/notificationService.ts:14-19 | only administrators with a chat are written to, and each of them is |
| NotificationService.AdminReached | src/lib/telegram/notificationService.ts:14-19 | each administrator with a chat receives the message |
| NotificationService.OnlyAdminsReached | src/lib/telegram/notificationService.ts:14-19 | every recipient is an administrator with a chat |
| NotificationService.NewBookingNotifications | src/lib/telegram/notificationService.ts:12-87 | nothing for a missing booking; with the owner found, one message per administrator; every message carries the booking's two buttons |
| NotificationService.BuildNewBookingText | src/lib/telegram/notificationService.ts:46-65 | the appended text is the specified message |
| NotificationService.SendToAll | src/lib/telegram/notificationService.ts:76-83 | one message per administrator, in order |
| NotificationService.NotifyAdminsNewBooking | src/lib/telegram/notificationService.ts:12-87 | sends NewBookingNotifications |
| NotificationService.StatusChangeNotification | src/lib/telegram/notificationService.ts:89-138 | a message exactly when the owner's chat is known, sent to that chat without buttons |
| NotificationService.StatusChangeLeadsWithEmoji | src/lib/telegram/notificationService.ts:112-128 | the message starts with the new status's emoji |
| NotificationService.StatusChangeNamesBothStatuses | src/lib/telegram/notificationService.ts:112-128 | the message names the old status and the new one |
| NotificationService.BuildStatusChangeText | src/lib/telegram/notificationService.ts:112-128 | the built text is the specified message |
| NotificationService.NotifyUserBookingStatusChanged | src/lib/telegram/notificationService.ts:89-138 | sends StatusChangeNotification |
| ProfileCommand.RoleLabel | src/lib/telegram/commands/profile.ts:50-60 | the admin label exactly for Admin, the user label otherwise |
| ProfileCommand.RoninPermission | src/lib/telegram/commands/profile.ts:37 | "Да" exactly for Admin and Ronin, "Нет" otherwise |
| ProfileCommand.FilteredLines | src/lib/telegram/commands/profile.ts:32-41 | the filter keeps the five fixed lines and the banned line exactly for a banned account |
| ProfileCommand.BannedLineDistinct | src/lib/telegram/commands/profile.ts:32-38 | the banned line is none of the fixed lines |
| ProfileCommand.ProfileTextShape | src/lib/telegram/commands/profile.ts:32-41 | the text is the five lines joined by breaks, then the banned line for a banned account |
| ProfileCommand.ExecuteAsync | src/lib/telegram/commands/profile.ts:15-48 | the "not found" reply iff the chat is bound to no account; otherwise that account's profile |
| ProfileCommand.ProfileNamesRole | src/lib/telegram/commands/profile.ts:32-60 | the profile shows the role line and the permission line with the role's labels |
| CartContext.Added | src/contexts/CartContext.tsx:26-34 | the quantity one more than before (one if absent), the model stored, other keys untouched |
| CartContext.Removed | src/contexts/CartContext.tsx:36-46 | one fewer while more than one is wanted, otherwise the key goes; no change for an absent key |
| CartContext.QuantityUpdated | src/contexts/CartContext.tsx:48-64 | a quantity ≤ 0 removes the key; a positive one is stored as the key's quantity, keeping its model (none for a new key) and every other key |
| CartContext.OperationsKeepPositive | src/contexts/CartContext.tsx:24-68 | every operation keeps every quantity positive |
| CartContext.AddThenRemoveRestores | src/contexts/CartContext.tsx:26-46 | when every quantity in the cart is positive and any entry already held for that id carries this model, adding the model and then removing it gives the previous cart back |
| CartContext.TotalRemove | src/contexts/CartContext.tsx:70-72 | any key can be taken out of the sum first |
| CartContext.AddRaisesTotalByOne | src/contexts/CartContext.tsx:26-34 | the total rises by exactly one after an add |
| CartContext.RemoveLowersTotal | src/contexts/CartContext.tsx:36-46 | removing a present key lowers the total by one, or by its whole quantity when only one was wanted |
| CartContext.CartProvider.constructor | src/contexts/CartContext.tsx:24 | the cart starts empty |
| CartContext.CartProvider.AddToCart | src/contexts/CartContext.tsx:26-34 | the cart becomes Added of it |
| CartContext.CartProvider.RemoveFromCart | src/contexts/CartContext.tsx:36-46 | the cart becomes Removed of it |
| CartContext.CartProvider.UpdateQuantity | src/contexts/CartContext.tsx:48-64 | the cart becomes QuantityUpdated of it |
| CartContext.CartProvider.ClearCart | src/contexts/CartContext.tsx:66-68 | the cart becomes empty |
| CartContext.CartProvider.GetTotalItems | src/contexts/CartContext.tsx:70-72 | the sum of the quantities |
| CartContext.CartProvider.GetCartItems | src/contexts/CartContext.tsx:74-76 | one value per key, listed in ascending key order |
| MyLoginForm.LoginError | src/components/ui/my/LoginForm.tsx:24-30 | blank, then a space, then fewer than four UTF-16 code units; only the first failing rule speaks |
| MyLoginForm.PasswordError | src/components/ui/my/LoginForm.tsx:32-38 | the same chain with a minimum of eight code units |
| MyLoginForm.AstralLoginLongEnough | src/components/ui/my/LoginForm.tsx:28 | a login of two emoji, two characters but four code units, meets the minimum |
| MyLoginForm.SpacesOnlyIsEmpty | src/components/ui/my/LoginForm.tsx:24-27 | an input of spaces is reported as empty, not as containing spaces |
| MyLoginForm.ValidateForm | src/components/ui/my/LoginForm.tsx:18-41 | at most one message per field, only for login and password, each the first failing rule of its chain |
| MyLoginForm.ErrorsUnique | src/components/ui/my/LoginForm.tsx:18-41 | the error record is determined by the form |
| MyLoginForm.Cleared | src/components/ui/my/LoginForm.tsx:64-72 | a truthy message for the field is removed and no other key changes |
| MyLoginForm.LoginFormState.constructor | src/components/ui/my/LoginForm.tsx:16 | no errors at first |
| MyLoginForm.LoginFormState.OnSubmit | src/components/ui/my/LoginForm.tsx:43-62 | with errors they are shown and nothing is submitted; otherwise the errors are cleared and the fields submitted |
| MyLoginForm.LoginFormState.ClearError | src/components/ui/my/LoginForm.tsx:64-72 | the errors become Cleared of them |
| MyRegisterForm.Years | src/components/ui/my/RegisterForm.tsx:30-34 | no options before 2011; otherwise one option for each year from 2011 to the current one |
| MyRegisterForm.YearsDescend | src/components/ui/my/RegisterForm.tsx:30-34 | the options run from the current year down to 2011, strictly decreasing, and are exactly the years between |
| MyRegisterForm.NameError | src/components/ui/my/RegisterForm.tsx:44-48 | blank, then a space |
| MyRegisterForm.YearError | src/components/ui/my/RegisterForm.tsx:66-68 | an absent or empty year selection is an error |
| MyRegisterForm.ValidateForm | src/components/ui/my/RegisterForm.tsx:36-71 | the record names each failing field once with its first failing rule, and no other key; it is empty exactly when the form is acceptable |
| MyRegisterForm.OfferedYearParses | src/components/ui/my/RegisterForm.tsx:30-34 | any offered year satisfies the year rule, and its text read by radix-less `parseInt` gives back that year |
| MyRegisterForm.RegisterFormState.constructor | src/components/ui/my/RegisterForm.tsx:26 | no errors at first |
| MyRegisterForm.RegisterFormState.OnSubmit | src/components/ui/my/RegisterForm.tsx:73-110 | `create_user` is called exactly for an acceptable form, with its fields; otherwise the errors are shown; success clears them and goes to the login page, failure shows its message; loading ends |
| MyRegisterForm.RegisterFormState.ClearError | src/components/ui/my/RegisterForm.tsx:112-120 | the errors become Cleared of them: only the named key goes, and only when its message is truthy; loading and location are kept |
| UiLoginForm.ValidateLogin | src/components/ui/LoginForm.tsx:37-48 | the first failing rule among blank, space and fewer than four UTF-16 code units, or none |
| UiLoginForm.ValidatePassword | src/components/ui/LoginForm.tsx:50-61 | the same with a minimum of eight code units |
| UiLoginForm.SameRulesAsFormRecord | src/components/ui/LoginForm.tsx:37-61 | for every input these give the message the other login form records for the field |
| UiRegisterForm.ValidateName | src/components/ui/RegisterForm.tsx:37-45 | the empty-name error exactly for a blank value; the spaces error exactly for a non-blank value containing a space; none otherwise |
| UiRegisterForm.ValidateLogin | src/components/ui/RegisterForm.tsx:47-58 | the empty error exactly for a blank value, the spaces error for a non-blank value with a space, the too-short error for a space-free value under four UTF-16 code units; none otherwise |
| UiRegisterForm.ValidatePassword | src/components/ui/RegisterForm.tsx:60-71 | the empty error exactly for a blank value, the spaces error for a non-blank value with a space, the too-short error for a space-free value under eight UTF-16 code units; none otherwise |
| UiRegisterForm.WhitespaceOnlyIsEmpty | src/components/ui/RegisterForm.tsx:37-71 | whitespace only gets the "empty" message of each validator, never the "spaces" one |
| UiRegisterForm.SpacedValueReportsSpaces | src/components/ui/RegisterForm.tsx:37-71 | a non-blank value with a space gets the "spaces" message whatever its length |
| LoginRoute.Promoted | src/app/api/auth/login/route.ts:42-45 | a User whose join year plus one has come becomes Osnova; every other account is unchanged |
| LoginRoute.PromotionIdempotent | src/app/api/auth/login/route.ts:42-45 | promoting twice is promoting once, and it never lowers a role or touches another field |
| LoginRoute.Decide | src/app/api/auth/login/route.ts:14-40 | the account may log in iff its login is known, the hash matches and it is not banned; an unknown login gives the bad-credentials message |
| LoginRoute.NoAccountDisclosure | src/app/api/auth/login/route.ts:14-40 | a wrong password gives the same answer as an unknown login; the ban is revealed only with the right password |
| LoginRoute.Post | src/app/api/auth/login/route.ts:10-55 | a refusal writes nothing; success stores the promoted account with the new refresh token and returns both tokens |
| AuthUtils.BearerToken | src/lib/authUtils.ts:6-10 | the second space-separated piece of the header, when present and non-empty |
| AuthUtils.BearerTokenOfHeader | src/lib/authUtils.ts:6-10 | a header `<scheme> <token>` yields the token |
| AuthUtils.GetUserFromToken | src/lib/authUtils.ts:5-32 | "Unauthorized" iff there is no token, "Invalid token" iff verification fails; otherwise the identity in the payload |
| AuthUtils.GetUserIdFromToken | src/lib/authUtils.ts:34-39 | the identifier, or the same failure |
| AuthUtils.SubjectIdRoundTrip | src/lib/authUtils.ts:34-39 | a subject that prints an identifier gives that identifier back |
| AuthUtils.IsAdmin | src/lib/authUtils.ts:41-48 | true iff the token is valid and its role name is "Admin"; false on any failure |
| AuthUtils.AdminHasAdminRole | src/lib/authUtils.ts:41-48 | an admin token also carries the numeric Admin role |
| AuthUtils.RequireRole | src/lib/authUtils.ts:50-54 | "Forbidden" exactly when the role is below the required one |
| AuthUtils.RequireRoleMonotone | src/lib/authUtils.ts:50-54 | passing a threshold means passing every lower one, and a higher role passes too |
| AuthUtils.RequireRoleExtremes | src/lib/authUtils.ts:50-54 | Admin passes every threshold; User passes only the lowest |
| AuthContext.ReplaceAllChar | src/contexts/AuthContext.tsx:31 | every occurrence of the character is replaced and every other is kept |
| AuthContext.FromBase64Url | src/contexts/AuthContext.tsx:31 | no '-' or '_' is left: '-' becomes '+', '_' becomes '/', other characters stay |
| AuthContext.Padded | src/contexts/AuthContext.tsx:33-35 | the input unchanged in front, then at most three '=' to a multiple of four |
| AuthContext.PaddingIsLeast | src/contexts/AuthContext.tsx:33-35 | the padding is the least that reaches a multiple of four, so padding twice adds nothing |
| AuthContext.PadBase64 | src/contexts/AuthContext.tsx:33-35 | the loop's result is Padded of its input |
| AuthContext.DecodeJwt | src/contexts/AuthContext.tsx:29-45 | the second '.'-segment, re-alphabeted and padded, is decoded; a token without one fails |
| AuthContext.DecodedClaims | src/contexts/AuthContext.tsx:29-45 | a token without a '.' has no second segment and yields no claims |
| AuthContext.PayloadSegmentDecoded | src/contexts/AuthContext.tsx:30 | of `header.payload.signature` it is the payload that is decoded |
| AuthContext.RestoredUser | src/contexts/AuthContext.tsx:55-79 | a user iff a decodable access token is stored that is unexpired or accompanied by a refresh token |
| AuthContext.RestoreKeepsTokensIffSession | src/contexts/AuthContext.tsx:55-79 | with an access token stored, the tokens stay iff a user is restored, and otherwise both go |
| AuthContext.RestoreMonotoneInTime | src/contexts/AuthContext.tsx:55-79 | a session restored at some moment is restored at every earlier one; with a refresh token the clock does not matter |
| AuthContext.NoSessionAfterLogout | src/contexts/AuthContext.tsx:84-89 | after logout's removals no session can be restored |
| AuthContext.AuthProvider.constructor | src/contexts/AuthContext.tsx:48-49 | no user, loading, the stored strings as given |
| AuthContext.AuthProvider.Restore | src/contexts/AuthContext.tsx:51-82 | the user becomes RestoredUser when there is one, the storage RestoredStorage, and loading ends |
| AuthContext.AuthProvider.Logout | src/contexts/AuthContext.tsx:84-89 | both tokens are removed, the user is cleared and the page goes home |
| AuthContext.AuthProvider.SetUser | src/contexts/AuthContext.tsx:93 | only the user changes |
| Avatar.Background | src/lib/avatar.ts:6-12 | e9d5ff exactly for Admin, fef3c7 for Osnova, fecaca for Ronin, d1ecf1 for any other or no role |
| Avatar.EncodeNoSeparator | src/lib/avatar.ts:2-15 | no encoded text holds '&' or '=' |
| Avatar.EncodeAppend | src/lib/avatar.ts:2-15 | the encoding works character by character |
| Avatar.EncodeUnreserved | src/lib/avatar.ts:2-15 | letters, digits and `*-._` pass unchanged |
| Avatar.PairTextSplits | src/lib/avatar.ts:2-15 | a pair goes out as encoded name, '=', encoded value, and splits back into the two |
| Avatar.SerializeThree | src/lib/avatar.ts:2-15 | three pairs give three '&'-separated pieces in order |
| Avatar.AvatarUrlShape | src/lib/avatar.ts:15 | the address is the service address, '?', then exactly the seed, size and colour pairs |
| Avatar.AvatarUrl | src/lib/avatar.ts:1-15 | the address starts with the service address followed by '?' |
| Avatar.SeedEncoding | src/lib/avatar.ts:3 | the seed goes out as the encoded login followed by "GUtv+52" |
| Avatar.BackgroundPlain | src/lib/avatar.ts:6-12 | every colour is sent as it is |
| Avatar.PiecesReadBack | src/lib/avatar.ts:2-15 | the three pieces read back as seed, size 128 and the role's colour |
| Avatar.BackgroundDistinguishesRoles | src/lib/avatar.ts:2-15 | roles with different colours give different addresses |
| CreateUserRoute.Response | src/app/api/users/create/route.ts:10-22 | an unparsed body and a failed field guard (a missing field, or a password under eight UTF-16 code units) are 400s; a creation happens only for a free login and carries the next id |
| CreateUserRoute.TakenLoginIsBadRequest | src/app/api/users/create/route.ts:17-22 | a login taken ignoring case is answered 400 with the service's message |
| CreateUserRoute.FormSubmissionPassesGuard | src/app/api/users/create/route.ts:10-15 | whatever the registration form lets through passes the route's guard |
| CreateUserRoute.GuardAdmitsBlankLogin | src/app/api/users/create/route.ts:10-15 | the route accepts a login of spaces that the form reports as empty |
| CreateUserRoute.Post | src/app/api/users/create/route.ts:10-24 | answers Response; a user is added only on creation |
| Store.Database.InsertBooking | src/services/bookingService.ts:175-189 | the booking takes the next id; its rows must carry the next BookingItem ids in order, and that counter advances by their number; the store stays valid |
| Store.Database.InsertItem | src/services/equipmentService.ts:289-298 | an item whose number is unused and which takes the next item id is appended and the counter advances; no other table or counter changes and the store stays valid |
| Store.Database.InsertUser | src/services/userService.ts:99 | a user taking the next user id is appended and the counter advances; no other table or counter changes and the store stays valid |
| Store.Database.ReplaceUser | src/services/userService.ts:189-197 | row k is replaced by a row with the same id; every other row, table and counter is unchanged and the store stays valid |
| Store.Database.RemoveUser | src/services/userService.ts:306-308 | row k is removed and the other users keep their order; no other table or counter changes and the store stays valid |
| Store.Database.ReplaceBooking | src/services/bookingService.ts:392-398 | booking row k is replaced by a row with the same id; every other row, table and counter is unchanged and the store stays valid |
| Text.TrimEmptyIffBlank | src/components/ui/my/LoginForm.tsx:24 | trimming gives the empty string exactly for a blank input |
| Text.Trim | src/components/ui/my/LoginForm.tsx:24 | no longer than the input; a non-empty result neither starts nor ends with whitespace |
| Text.ParseIntToString | src/lib/authUtils.ts:22 | parsing back a printed integer gives that integer |
| Text.ParseInt | src/lib/authUtils.ts:22 | a blank text, and one whose first non-blank character is neither a sign nor a digit, give NaN; a parsed value is negative exactly when a '-' leads and the value is not zero |
| Text.ParseIntAuto | src/lib/telegram/updateHandler.ts:108 | without a `0x` prefix after the sign, the radix-less reading is the decimal one |
| Text.ParseIntAutoToString | src/components/ui/my/RegisterForm.tsx:91 | parsing back a printed integer without a radix gives that integer |
| Text.HexPrefixRead | src/lib/telegram/updateHandler.ts:108 | `0x10` reads as 16 without a radix and as 0 with radix 10 |
| Text.Utf16Length | src/lib/telegram/commands/bookingFilter.ts:72 | the `length` of a text, in UTF-16 code units, lies between its character count and twice that |
| Text.Utf16Prefix | src/lib/telegram/commands/bookingFilter.ts:74 | the longest prefix of whole characters whose code units fit the bound; the whole text when it fits |
| Text.SplitThree | src/lib/telegram/updateHandler.ts:104-106 | three pieces free of the separator, joined by it, split back into those three pieces |
| Text.Split | src/lib/telegram/updateHandler.ts:104 | at least one piece, and no piece contains the separator |

## Left out

- `getEquipmentModelByName`, `getEquipmentModelByCategory`,
  `getAllEquipmentModels`, `getModelsWithItems`, `getAllEquipmentItems`,
  `getAllBookings`, `getAllUsers`, `getUserById`, `getUsersByName` and
  `getUserByRole` are not modelled. They are plain store reads with no rule
  of their own.
- The JSON text columns are left out. `eqModelToResponseDto` parses
  `attributesJson`, and booking warnings are JSON text. The model keeps
  warnings as already-parsed entries, so the malformed-JSON path is not
  modelled.
- Hashing, randomness and tokens are parameters:
  - SHA-256 password hashing and the base64 digest (the `digest`/`hash`
    functions);
  - `crypto.randomBytes` for salts and refresh tokens (the chosen values);
  - `Math.random` for the link code: a chosen value in [100000, 999999];
  - JWT signing and verification (the `sign` and `verify` parameters);
  - `atob`, `decodeURIComponent` and `JSON.parse` in `decodeJWT` (one
    `decode` parameter).
- The clock is a parameter. Time is integer milliseconds; `new Date()`,
  `Date.now()` and the current year are passed in.
- Timers and Redis: the `setTimeout` pause between attempts of
  `createEquipmentItem` is not modelled, only the attempt counter. Redis
  becomes a map whose entries carry their expiry.
- Formatting and sending are left out. `Intl` and date-fns formatting are
  parameters. Sending a Telegram message, an HTTP response or an alert is
  modelled as a returned value; network failures and the `catch` branches
  that only log are not modelled.
- The 500 response of both routes is not modelled: the model raises no
  unexpected exceptions.
- The notifications that follow a comment reply in the update handler are
  not modelled. They are the status-change notification, which is modelled
  on its own.
- The UI register form's `onSubmit` is not modelled; it only shows an alert.
- CartContext.CartProvider.RemoveFromCart: does not model that the source
  decrements the quantity on the item object it shares with the previous
  state; the model replaces the entry with a new value.
- CreateUserRoute.Response: does not check the types of `joinYear` and
  `ronin`; they arrive already typed.
- StartCommand.ClassifyLinkError: that the two chat-conflict messages do not
  contain "истек" is not proved, so their echo is stated only for other
  messages.
- Text.Lower folds ASCII and Cyrillic letters only. The names the
  application handles are of those scripts.
- EquipmentService.DeleteEquipmentModel: removes only the model row. The
  database schema is not part of this model, and it decides whether the
  delete cascades to the model's items or is refused. The model leaves
  those items in place, and the joins read a missing model as absent.
- EquipmentService.DeleteEquipmentItem: removes only the item row. Whether
  it cascades to the BookingItem rows that name it is the schema's, as
  above; the model leaves them in place and shows '' for the missing item.
- UserService.DeleteUser: removes only the user row. Whether it cascades to
  the user's bookings is the schema's, as above; the model keeps them and
  shows '' for the missing owner.
- BookingFilter.Truncate: JavaScript's `substring(0, 4000)` can end between
  the two halves of a surrogate pair and keep a lone high surrogate. A
  Dafny string holds whole characters only, so in that case the model's cut
  stops one code unit earlier.
- Text.Utf16Length: a text holding a lone surrogate cannot be written as a
  Dafny string, so the length rules are modelled on well-formed text only.
- Concurrency is not modelled. Two requests running at once, e.g. two
  bookings staging the same item, are outside the sequential model.
- No global no-double-booking claim is made. The code permits two ways to
  create a double booking:
  - repeating a model on two lines of one request
    (`BookingService.DuplicateLineDoubleBooks`);
  - approving a Cancelled booking
    (`BookingService.ReapprovingCancelledDoubleBooks`).
  The preservation lemmas state their conditions.
- One documented rule is followed as the code has it, not as documented.
  For `formatWarnings` an empty array is said to produce no line, but the
  code prints it as `[]`, so the model follows the code. The corrected
  reading is `NotificationService.WarningLineFixed` (see Findings).

## Findings

| source | as written | input that shows it | evidently intended | confidence | as-written member | corrected member |
|---|---|---|---|---|---|---|
| src/services/bookingService.ts:152-172 | each request line takes the first free items of its model from the whole table, ignoring the items earlier lines staged | a request with two lines naming the same model, quantity 1 each, when that model has one free item | each line draws only from items not yet staged, so a request never claims one item twice | not executed | BookingService.DuplicateLineDoubleBooks | BookingService.CreateFreshPreservesNoDoubleBooking |
| src/services/equipmentService.ts:282-294 | the next inventory number is the model's item count plus one, recomputed unchanged on every attempt | a model with items numbered 01 and 02, item 01 deleted: the count gives 02, which is taken on all five attempts | the next number is one above the highest number in use | not executed | EquipmentService.DeletedItemBlocksNumbering | EquipmentService.FixedCreationSucceeds |
| src/services/equipmentService.ts:216-238 | the clash test trims the new name but the untrimmed name is stored | another model already stored as " cam" (creation does not trim); renaming a model to " cam" passes because the trimmed "cam" differs from it | the name that is tested is the name that is stored | not executed | EquipmentService.UpdateAdmitsPaddedDuplicate | EquipmentService.FixedUpdateKeepsNamesUnique |
| src/lib/telegram/notificationService.ts:144-150 | an empty array fails the first test and falls through to the object branch | a warnings entry whose value is `[]` gives the line `key: []` | an empty array, like null, gives no line | not executed | NotificationService.EmptyArrayWarningShown | NotificationService.WarningLineFixed |
