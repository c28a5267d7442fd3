# Ouro Rifa raffle backend: a verified Dafny model

This project models the core of the ouro-rifa-api raffle backend in Dafny.
It covers the following parts of the backend:

- **Raffles.** Owners create them, move them through a status machine, edit and delete them, and draw a winner.
- **Tickets.** Buyers reserve ticket numbers. Cancelling a reservation and confirming its payment are also modelled.
- **Payments.** The payment service creates PIX payment records and confirms them. A confirmation moves the ticket to paid and updates the raffle's and the buyer's counters.
- **Accounts.** The account service limits failed logins per email and handles login, registration, profile edits and password changes.
- **Pagination.** The pagination helper's slicing and link rules.

The data manager's JSON files are modelled as one in-memory store, `Entities.Db`.
It holds four lists of records (raffles, tickets, payments and users).
Each list sits behind a generic repository class, `Repository.Repository`, with the base repository's find, filter, create, merge-update and splice-delete.

Each service operation that changes the store is modelled twice:

- A pure function (`...Spec`) maps the store before to the answer and the store after.
- A method over the repositories takes the service's steps in the source's order. It is proved to compute exactly that function.

As written, `TicketService` and `RaffleService` never receive their repository (the first row of "## Findings"):

- Every modelled ticket-service and raffle-service operation throws at its first repository access: ticketService.js lines 37, 69, 79, 92, 130 and 164, and raffleService.js lines 30, 47, 56, 68, 77, 87, 96, 124 and 162.
- The rows of those operations model the services with the repository wired, which is the corrected version of that finding. These are BuySpec, CancelSpec, GetTicketDetails, ConfirmTicketPayment, GetRaffleStats, UpdateStatusSpec, UpdateRaffleSpec, DeleteSpec and DrawSpec. ConfirmSpec and GeneratePixSpec call into the ticket service, so they depend on it too.
- One consequence is that `confirmPayment`, as written, completes the payment (paymentService.js:159) and then throws at line 162 inside `confirmTicketPayment` (ticketService.js:164). The ticket is never paid and no counter moves, so as written no sale is ever counted. `ConfirmSpec` and the lemmas about it describe the wired service.

The properties the backend relies on are proved as lemmas about these functions, for example:

- a second draw is refused;
- confirming twice counts a sale once;
- five failed logins lock an email out;
- a profile edit never touches the credentials.

Some inputs are parameters of the model:

- **Clock.** Timestamps are integer milliseconds; `now` is a parameter.
- **Randomness.** `Math.random()` is a parameter `u` in [0, 1) for the draw. The ticket-number generator makes a nondeterministic choice of an unused number.
- **Passwords.** bcrypt's comparison is a parameter `verify(password, hash)`, and the hash is a parameter.
- **Generated ids.** An id's random suffix is a parameter.

Money is in integer cents.

Where the code's behaviour is easy to mistake, the model follows the code:

- Availability excludes only the numbers of `paid` tickets. Pending reservations do not hold their numbers.
- `confirmPayment` completes a payment in any status other than `completed`. It also turns a cancelled ticket to paid.
- A second draw is refused with "must be active", because the status check comes before the winner check.
- `updateRaffle`'s guard on restricted fields applies only to an active raffle with sales.

## Model

| member | source | states |
|---|---|---|
| Repository.IndexOf | src/repositories/baseRepository.js:43 | the position found is the first row with the id, -1 when none has it |
| Repository.FindFirst | src/repositories/baseRepository.js:14-17 | the row found holds the id and is in the list; nothing is found exactly when no row has the id |
| Repository.Filter | src/repositories/baseRepository.js:19-26 | the result holds exactly the rows kept, none other, and is no longer than the list |
| Repository.FilterAppend | src/repositories/baseRepository.js:19-26 | filtering distributes over concatenation, so list order is kept |
| Repository.FilterHead | src/repositories/baseRepository.js:19-26 | the head of a filter is the row at the first matching position |
| Repository.UpdateRows | src/repositories/baseRepository.js:41-55 | only the first row with the id changes, to the merge of the patch; length and every id are kept |
| Repository.UpdateRowsKeepsIndex | src/repositories/baseRepository.js:41-55 | after an update every id is found at the same position |
| Repository.UpdatedRow | src/repositories/baseRepository.js:41-55 | `update` returns nothing exactly when the id is absent, otherwise the stored merged row |
| Repository.RemoveRow | src/repositories/baseRepository.js:57-67 | splicing out the first row with the id shifts the rows after it left by one and keeps those before |
| Repository.RemoveRowKeepsOthers | src/repositories/baseRepository.js:57-67 | a delete leaves every lookup of another id unchanged |
| Repository.RemoveRowRemoves | src/repositories/baseRepository.js:57-67 | with unique ids, after the delete no row has the id |
| Repository.Repository.FindBy | src/repositories/baseRepository.js:19-26 | exactly the rows whose body meets every criterion |
| Repository.Repository.Create | src/repositories/baseRepository.js:28-39 | appends exactly one record and keeps every earlier one; an input that carries an id key keeps it, even an empty one, because the spread restores it; a missing id is generated and a missing createdAt stamped |
| Repository.Repository.Update | src/repositories/baseRepository.js:41-55 | the list becomes the merged and stamped list; the answer is the merged row or null |
| Repository.Repository.Merge | src/utils/dataManager.js:246-260 | the data manager's `updateRaffle` and `updateTicket` (also lines 317-326): the same merge without an updatedAt stamp, and nothing found and no change for an unknown id |
| Repository.Repository.Delete | src/repositories/baseRepository.js:57-67 | answers true exactly when the id was present; the list is the spliced list |
| Entities.TicketsOfRaffle | src/utils/helpers.js:24 | exactly the tickets of that raffle |
| Entities.PaidTickets | src/repositories/ticketRepository.js:21-23 | exactly the tickets whose paymentStatus is paid |
| TicketNumbers.PadStart | src/utils/helpers.js:11 | the padded string has the larger of the two lengths, ends with the input and is filled with the pad character |
| TicketNumbers.ParseFormat | src/utils/helpers.js:10-11 | reading a formatted ticket number back gives the number |
| TicketNumbers.FormatInjective | src/utils/helpers.js:10-11 | two different numbers never get the same ticket number |
| TicketNumbers.AllNumbersSize | src/utils/helpers.js:34-39 | a raffle of n tickets has exactly n distinct ticket numbers |
| TicketNumbers.SortLex | src/utils/helpers.js:19 | `sort()` with no comparator: sorted in string order and a permutation of its input |
| TicketNumbers.FreshNumberExists | src/utils/helpers.js:9-17 | while fewer than totalTickets numbers are taken, an untaken one in range exists, so the loop can go on |
| TicketNumbers.GenerateTicketNumbers | src/utils/helpers.js:5-20 | exactly quantity numbers, pairwise distinct, each the padded form of some n in [1, totalTickets], in string order |
| TicketNumbers.PaidNumbersMembers | src/utils/helpers.js:27-31 | a number is taken exactly when some paid ticket carries it |
| TicketNumbers.AvailableMembers | src/utils/helpers.js:33-39 | a number is available exactly when it is a ticket number of the raffle and not taken |
| TicketNumbers.AvailableUpTo | src/utils/helpers.js:33-41 | available numbers are in range and untaken, strictly ascending by value, at most totalTickets of them |
| TicketNumbers.CollectPaidNumbers | src/utils/helpers.js:25-31 | the loop collects exactly the numbers of the paid tickets |
| TicketNumbers.GetAvailableTicketNumbers | src/utils/helpers.js:23-42 | the list built is the availability list of the raffle |
| TicketNumbers.UnpaidTicketReservesNothing | src/utils/helpers.js:27-31 | appending a ticket that is not paid leaves availability unchanged |
| TicketNumbers.ReplaceUnpaidKeepsAvailable | src/utils/helpers.js:27-31 | replacing an unpaid ticket by an unpaid one leaves availability unchanged |
| Draw.EntriesOf | src/services/raffleService.js:202-208 | one entry per number of the ticket, in order, carrying the ticket id and user |
| Draw.PoolPosition | src/services/raffleService.js:199-209 | number k of paid ticket j sits at a fixed position of the pool, so every sold number is in the pool |
| Draw.PoolEntryOrigin | src/services/raffleService.js:199-209 | every pool entry is a number of one of the tickets, with that ticket's id and user |
| Draw.PickIndexInterval | src/services/raffleService.js:211 | position i is picked exactly when u is in [i/n, (i+1)/n), so every entry has the same chance |
| Draw.DrawFrom | src/services/raffleService.js:198-219 | succeeds exactly when the pool is non-empty; the winner is a number of one of the tickets, with its id and user |
| Draw.BuildPool | src/services/raffleService.js:199-209 | the nested loops build exactly the pool |
| Draw.PerformDraw | src/services/raffleService.js:198-219 | `performDraw` computes the draw |
| Draw.DrawWinner | src/utils/helpers.js:45-72 | fails with no-paid-tickets exactly when the raffle has no paid ticket; otherwise it is the draw among the raffle's paid tickets (`DrawFrom`): it succeeds exactly when they carry at least one number, picks the pool entry `u` selects, and reports a number of a paid ticket of the raffle with that ticket's id and user; paid tickets without numbers fail with an internal error, as the property read on the missing pool entry throws |
| Stats.SoldOfIsFilterReduce | src/services/raffleService.js:165-167 | filter-then-reduce over the raffle's paid tickets equals the per-ticket sold count |
| Stats.CalculateRaffleStats | src/utils/helpers.js:102-113 | sold is the quantity of paid tickets, revenue their amount, sold plus available is the total, the percentage is 100·sold/total and undefined for a zero total |
| Stats.GetRaffleStats | src/services/raffleService.js:161-176 | null exactly for an unknown raffle; otherwise the raffle's sold count, revenue and remaining tickets |
| Stats.ProgressHundredths | src/controllers/raffleController.js:430-436 | progress in hundredths of a percent, rounded half up; 0 for a non-positive total |
| Stats.ControllerRaffleStats | src/controllers/raffleController.js:421-448 | all zeros when the ticket list throws; otherwise the raffle's sold count and revenue, with sold plus available equal to the total (0 for an unknown raffle) |
| Stats.StatsAgree | src/controllers/raffleController.js:421-448 | on a stored raffle the controller and the service report the same sold, available and revenue |
| Stats.UnpaidTicketCountsNothing | src/utils/helpers.js:103 | a ticket that is not paid changes no statistic |
| TicketRepository.NewTicket | src/repositories/ticketRepository.js:29-40 | the record gets a `ticket_` id and createdAt, no winner flag, no payment date or transaction id, and keeps the request's fields |
| TicketRepository.CreateTicket | src/repositories/ticketRepository.js:29-40 | appends exactly that record |
| TicketRepository.FindByUserAndRaffle | src/repositories/ticketRepository.js:42-44 | exactly the tickets of that user on that raffle |
| TicketRepository.FindByUserAndRaffleSplits | src/repositories/ticketRepository.js:42-44 | the user's tickets on a raffle are the raffle's tickets filtered by user, in the same order |
| TicketRepository.SetWinner | src/repositories/ticketRepository.js:50-52 | sets the winner flag and changes no other field |
| TicketRepository.MarkAsWinner | src/repositories/ticketRepository.js:50-52 | only that ticket is flagged and stamped |
| TicketRepository.CancelPatch | src/services/ticketService.js:92-94 | sets the status to cancelled and changes no other field |
| PaymentRepository.NewPayment | src/repositories/paymentRepository.js:38-48 | the record gets a `payment_` id and createdAt, with no processing time and no transaction id; the other fields are the request's |
| PaymentRepository.FindByTicket | src/repositories/paymentRepository.js:13-16 | null exactly when no payment is for the ticket; otherwise the first payment for it |
| PaymentRepository.FindByStatus | src/repositories/paymentRepository.js:22-24 | exactly the payments in that status |
| PaymentRepository.MarkAsCompleted | src/repositories/paymentRepository.js:50-56 | only that payment changes, by the completion patch, stamped |
| PaymentRepository.MarkAsCompletedFields | src/repositories/paymentRepository.js:50-56 | a completed payment differs only in status, processing time, transaction id and updatedAt |
| PaymentRepository.DateRangeRules | src/repositories/paymentRepository.js:58-66 | the range is inclusive at both ends; a payment is dated by processedAt, else createdAt, and an undated one is never in range |
| BaseService.Lookup | src/services/baseService.js:25-35 | fails without a repository, reports not-found for a missing id, otherwise returns the first record with the id |
| BaseService.AsWrittenFindsNothing | src/services/baseService.js:4-8 | a service built as the ticket and raffle services build it fails to find even a stored record |
| BaseService.WiredFindsStored | src/services/baseService.js:25-35 | with the repository wired, every stored record is found |
| TicketService.CapOf | src/services/ticketService.js:36 | a cap applies exactly when maxTicketsPerPerson is set and non-zero |
| TicketService.Unavailable | src/services/ticketService.js:50 | exactly the drawn numbers that are not in the available list |
| TicketService.BuyCheckOrder | src/services/ticketService.js:24-53 | each refusal is reported exactly when the earlier checks pass and it fails; all pass exactly when the raffle is active, enough numbers are left, the cap allows it and every drawn number is free |
| TicketService.BuySpec | src/services/ticketService.js:15-76 | an unknown raffle is reported first; a refusal changes nothing; a success appends exactly the reserved ticket and answers next step `payment` |
| TicketService.BuySuccess | src/services/ticketService.js:55-69 | a purchase reserves a pending ticket of the buyer, priced at quantity × price, with numbers that were all available, and moves neither availability nor the raffle's figures |
| TicketService.BuyTickets | src/services/ticketService.js:15-76 | computes `BuySpec`; on success the numbers are quantity distinct, in-range ticket numbers in string order |
| TicketService.CancelSpec | src/services/ticketService.js:78-100 | a refusal changes nothing; a success cancels and stamps exactly that ticket |
| TicketService.CancelEffect | src/services/ticketService.js:78-100 | not-found, access-denied and success each happen exactly in their case; a cancel moves neither availability nor the statistics |
| TicketService.CancelTicket | src/services/ticketService.js:78-100 | computes `CancelSpec` over the store |
| TicketService.GetTicketDetails | src/services/ticketService.js:129-153 | not found and access denied each exactly in their case; otherwise the ticket and a summary of its raffle, present exactly when the raffle exists |
| TicketService.ConfirmTicketPayment | src/services/ticketService.js:163-169 | only that ticket changes, to paid with payment date and transaction id |
| TicketService.ConfirmTicketPaymentEffect | src/services/ticketService.js:163-169 | the ticket becomes paid with the transaction id; if it was not paid before, its raffle's sold count and revenue grow by its quantity and amount |
| PaymentService.UpdateRaffleStats | src/services/paymentService.js:183-196 | adds the sale to that raffle's counters without a stamp; an unknown raffle changes nothing |
| PaymentService.UpdateRaffleStatsEffect | src/services/paymentService.js:187-191 | the raffle's counters grow by exactly the sale, a missing counter counting as zero |
| PaymentService.UpdateUserStats | src/services/paymentService.js:198-211 | adds the amount to that user's total spent; an unknown user changes nothing |
| PaymentService.PendingOfUserUnreachable | src/services/paymentService.js:97-107 | the third lookup step never finds anything the first two missed |
| PaymentService.LocateSpec | src/services/paymentService.js:81-140 | a refusal changes nothing; the payment answered is stored; the store changes only by appending the payment created for the caller's own ticket |
| PaymentService.Locate | src/services/paymentService.js:81-140 | computes `LocateSpec` over the store |
| PaymentService.Settle | src/services/paymentService.js:142-176 | refused exactly for another user's payment, changing nothing; already confirmed exactly for a completed payment, changing nothing; otherwise the stored payment becomes completed with the transaction id |
| PaymentService.SettleIn | src/services/paymentService.js:142-176 | computes `Settle` over the store |
| PaymentService.ConfirmSpec | src/services/paymentService.js:75-181 | a missing user id is refused first; a refusal or an already-confirmed answer changes nothing; otherwise the payment is completed with the transaction id |
| PaymentService.ConfirmPayment | src/services/paymentService.js:75-181 | computes `ConfirmSpec` over the store |
| PaymentService.ConfirmLookupOrder | src/services/paymentService.js:85-140 | a payment with the id wins; failing that the ticket's first payment; failing that a payment created from the caller's ticket; an unknown ticket and another user's ticket are refused |
| PaymentService.SettleWrites | src/services/paymentService.js:158-170 | a first confirmation completes the payment, pays the ticket, adds the sale to the raffle and the amount to the user |
| PaymentService.SettleKeepsSync | src/services/paymentService.js:158-170 | the raffle's sold and revenue counters, which confirmation increments through `updateRaffleStats` (lines 183-192), stay equal to the figures recomputed from its paid tickets (the figures `getRaffleStats` reports) when an unpaid ticket of that raffle is paid for its own amount |
| PaymentService.SettlePaidTicketDrifts | src/services/paymentService.js:158-170 | confirming a payment that is not completed but whose ticket is already paid counts the sale again: afterwards the counters exceed the recomputed figures by the ticket's quantity and the payment's amount, so they no longer agree |
| PaymentService.ConfirmTwice | src/services/paymentService.js:148-156 | confirming the same id again answers already confirmed and changes nothing, so a sale is counted once |
| PaymentService.GetPaymentStatus | src/services/paymentService.js:213-225 | not found and access denied each exactly in their case; otherwise the caller's payment |
| PaymentService.PixKey | src/services/paymentService.js:30 | the owner's key, else the configured key, else the fixed default |
| PaymentService.Last4 | src/services/paymentService.js:32 | `slice(-4)`: the last four characters, or the whole string when shorter |
| PaymentService.GeneratePixAsWritten | src/services/paymentService.js:17-30 | as written, generating a PIX payment never succeeds |
| PaymentService.GeneratePixAsWrittenFails | src/services/paymentService.js:19-30 | even with the ticket service's repository wired, a pending ticket of the caller fails with a type error, because the raffle summary has no owner (as written, the call already fails earlier, at line 19) |
| PaymentService.GeneratePixSpec | src/services/paymentService.js:17-73 | a refusal changes nothing; a success stores the payment record it answers |
| PaymentService.GeneratePix | src/services/paymentService.js:17-73 | computes `GeneratePixSpec` over the store |
| PaymentService.GeneratePixRecord | src/services/paymentService.js:31-62 | the PIX payment is for the ticket's amount, the identifier is RIFA + the last four of raffle and ticket ids, it expires in 30 minutes, and afterwards it is the ticket's pending payment |
| RaffleService.ValidateStatusTransition | src/services/raffleService.js:179-196 | passes exactly for a move in the table that, when it activates, has an end date; invalid and end-date-required each exactly in their case |
| RaffleService.TransitionTableShape | src/services/raffleService.js:180-186 | completed and cancelled are final, nothing returns to pending, every open state can be cancelled, active and paused alternate, only active completes |
| RaffleService.RunShape | src/services/raffleService.js:180-186 | along any run of allowed moves only the last state can be final and only the first can be pending |
| RaffleService.OwnedRaffle | src/services/raffleService.js:30-35 | not found and access denied each exactly in their case; otherwise the caller's raffle |
| RaffleService.UpdateStatusSpec | src/services/raffleService.js:76-93 | a refusal changes nothing; success exactly for the owner and a valid transition, and then only the status changes |
| RaffleService.UpdateStatus | src/services/raffleService.js:76-93 | computes `UpdateStatusSpec` over the store |
| RaffleService.RestrictedCheck | src/services/raffleService.js:37-45 | refuses exactly a change of totalTickets or ticketPrice on an active raffle with sales, naming totalTickets first |
| RaffleService.UpdateRaffleSpec | src/services/raffleService.js:29-53 | a refusal changes nothing; success exactly for the owner passing the restricted check, and then the patch is merged and stamped |
| RaffleService.UpdateRaffle | src/services/raffleService.js:29-53 | computes `UpdateRaffleSpec` over the store |
| RaffleService.UpdateRaffleKeeps | src/services/raffleService.js:37-47 | an active raffle with sales keeps its price and size through an edit, and owner and status never change |
| RaffleService.DeleteSpec | src/services/raffleService.js:55-74 | a refusal changes nothing; refused with sales exactly when the owner asks and soldTickets is positive; otherwise the raffle is spliced out |
| RaffleService.DeleteRaffle | src/services/raffleService.js:55-74 | computes `DeleteSpec` over the store |
| RaffleService.DeleteRemovesOnlyIt | src/services/raffleService.js:68 | with unique ids the deleted raffle is gone and every other raffle is still found |
| RaffleService.DrawCheck | src/services/raffleService.js:96-118 | the raffle let through is the stored one |
| RaffleService.DrawGuardOrder | src/services/raffleService.js:96-118 | not found, access denied, not active, already drawn and no paid tickets are each reported exactly when the earlier guards pass and it fails |
| RaffleService.DrawSpec | src/services/raffleService.js:95-147 | every refusal by a guard changes nothing; the draw succeeds exactly when the guards pass, the pool is non-empty and the winner's user exists; an internal error comes from exactly two cases: an empty pool, before any write and with nothing changed, or a missing winner user, after the raffle and ticket writes |
| RaffleService.DrawRaffle | src/services/raffleService.js:95-147 | computes `DrawSpec` over the store |
| RaffleService.DrawnFromPaidTicket | src/services/raffleService.js:113-121 | the drawn number is a number of a paid ticket of that raffle, with that ticket's id and user |
| RaffleService.DrawResult | src/services/raffleService.js:121-146 | after a draw the raffle is completed with the winner, the number and the draw date, the winning ticket is flagged, and the answer names them; the store after is exactly those two writes, so nothing else changes |
| RaffleService.SecondDrawRefused | src/services/raffleService.js:104-110 | a drawn raffle cannot be drawn again: the second draw is refused as not active |
| RaffleController.ActiveRaffles | src/controllers/raffleController.js:34 | exactly the active raffles |
| RaffleController.InitialSettings | src/controllers/raffleController.js:262-267 | a given setting overrides its default (cap 10, comments allowed, no auto-approval) |
| RaffleController.ExplicitZeroCapMeansNoCap | src/controllers/raffleController.js:262-267 | an explicit cap of 0 is stored and then means no cap at purchase; a missing cap gives 10 |
| RaffleController.CreateCheck | src/controllers/raffleController.js:236-247 | passes exactly for non-empty texts, positive price and total and a future end date; missing fields and non-positive values each exactly in their case |
| RaffleController.CreateRaffleSpec | src/controllers/raffleController.js:226-275 | a refusal changes nothing; otherwise exactly one pending raffle of the caller is appended, with no sales, no winner and a future end date |
| RaffleController.CreateRaffle | src/controllers/raffleController.js:226-275 | computes `CreateRaffleSpec` over the store |
| RaffleController.NewRaffleNeedsActivation | src/controllers/raffleController.js:249-268 | a new raffle is not on sale until its owner activates it, and activation is allowed |
| Pagination.JsSlice | src/utils/pagination.js:11 | `slice` on a window inside the list is that window; an empty or inverted window gives nothing |
| Pagination.CeilDiv | src/utils/pagination.js:17 | the page count is the least count covering the list; undefined exactly for a zero limit |
| Pagination.Paginate | src/utils/pagination.js:4-24 | the limit is capped at 100 and a smaller one is kept; the page reports the list's length and the requested page; the page holds only items of the list and is no longer than it |
| Pagination.ValidatePaginationParams | src/utils/pagination.js:26-34 | page at least 1, limit in [1, 100]; a valid value is kept, a missing or zero one takes the default, others are clamped |
| Pagination.PageContents | src/utils/pagination.js:8-11 | on normalised parameters a page is the window from (page-1)·limit, at most limit items, and empty past the end |
| Pagination.PageFlags | src/utils/pagination.js:20-21 | on normalised parameters the previous and next flags agree with page > 1 and page < totalPages, and with the links |
| Pagination.PagesCoverData | src/utils/pagination.js:8-11 | the first k pages in order are the first k·limit items |
| Pagination.AllPagesCoverData | src/utils/pagination.js:4-24 | the pages up to totalPages, in order, are the whole list |
| Pagination.PaginationLinks | src/utils/pagination.js:36-54 | a previous link exactly when page > 1, to page - 1; a next link exactly when page < totalPages, to page + 1; first is 1, last is totalPages |
| UserService.CheckSpec | src/services/userService.js:16-30 | refused exactly when the email's count has reached 5 within the window, changing nothing; an expired entry is zeroed in place and let through |
| UserService.RecordSpec | src/services/userService.js:33-40 | one more failure at now for the email, created if absent; no other entry changes |
| UserService.FailuresCount | src/services/userService.js:16-40 | failures each within the window of the one before are counted one by one |
| UserService.LockoutAfterFiveFailures | src/services/userService.js:21-27 | five failures within the window lock the email out for the window after the last one |
| UserService.WindowExpiryUnlocks | src/services/userService.js:21-23 | once the window has passed the check lets the email through, from a count of zero |
| UserService.ResetUnlocks | src/services/userService.js:43-45 | after a reset the check always lets the email through |
| UserService.View | src/services/userService.js:126 | the answer keeps the id, email and role of the user |
| UserService.ViewForgetsOnlyPassword | src/services/userService.js:82 | two users give the same answer exactly when they differ at most in the password |
| UserService.FindByEmail | src/utils/dataManager.js:154-157 | the first user with the email; none exactly when no user has it |
| UserService.LoginSpec | src/services/userService.js:90-133 | lockout changes nothing; success exactly for an active user with a matching password, which resets the email's entry and stamps lastLogin; an inactive account is refused without a failure being recorded |
| UserService.LoginFailuresCounted | src/services/userService.js:95-111 | invalid credentials exactly for an unknown email or an active user with a wrong password, each counted as one more failure at now; an inactive account adds none |
| UserService.RegisterSpec | src/services/userService.js:47-88 | refused exactly when the email is taken, changing nothing; otherwise an active user with role `user` and the hashed password is appended and is the one the email finds |
| UserService.RegisterTwiceRefused | src/services/userService.js:49-52 | a second registration with the same email is refused |
| UserService.RegisterThenLogin | src/services/userService.js:47-133 | a new user can log in with the registered password whenever the limiter lets the email through |
| UserService.SafeUpdate | src/services/userService.js:149 | the stripped data carries no password, role, id or email, and keeps the other fields |
| UserService.SafeSpreadKeepsCredentials | src/services/userService.js:149-151 | on the stripped data the record spread keeps id, email, password and role, and equals the repository's merge |
| UserService.UpdateProfileSpec | src/services/userService.js:147-159 | unknown user exactly when the id is absent, changing nothing; otherwise only that user changes, is stamped, keeps id, email, password and role, and takes the given name and PIX key |
| UserService.FindUser | src/services/userService.js:139-145 | not found exactly when no user has the id; otherwise that user |
| UserService.ChangePasswordSpec | src/services/userService.js:161-182 | unknown user, then wrong current password, each exactly in their case and changing nothing; otherwise only that user's password changes |
| UserService.UserService.CheckLoginAttempts | src/services/userService.js:16-30 | computes `CheckSpec` on the service's map |
| UserService.UserService.RecordFailedLogin | src/services/userService.js:33-40 | the map becomes `RecordSpec` of the old one |
| UserService.UserService.ResetLoginAttempts | src/services/userService.js:43-45 | the email's entry is removed and nothing else changes |
| UserService.UserService.Login | src/services/userService.js:90-133 | computes `LoginSpec` on the user list and the map |
| UserService.UserService.Register | src/services/userService.js:47-88 | computes `RegisterSpec` on the user list |
| UserService.UserService.UpdateProfile | src/services/userService.js:147-159 | computes `UpdateProfileSpec` on the user list |
| UserService.UserService.ChangePassword | src/services/userService.js:161-182 | computes `ChangePasswordSpec` on the user list |

## Left out

- File persistence: the data manager's JSON files, backups and recovery are modelled as in-memory lists. Reads and writes cannot fail here.
- Concurrency: the model is sequential. The read-then-write races between concurrent buyers or drawers are not represented.
- Timestamps: ISO strings are integer milliseconds passed in as `now`. `new Date(endDate) <= new Date()` is an integer comparison.
- Money: floats and `parseFloat` are integer cents. The controller's `progress` is rounded to hundredths of a percent on integers, and the helper's completion percentage is a `real`.
- Randomness: `Math.random()` is a parameter for the draw. The draw's fairness is stated only as equal-width intervals per pool entry.
- TicketNumbers.GenerateTicketNumbers: the rejection-sampling loop is a choice of any unused number, so the method requires `quantity <= totalTickets` for a positive quantity. With `quantity > totalTickets >= 1` the source loop never ends. The requires also excludes a positive quantity with `totalTickets <= 0`, where the source does end: with `totalTickets = 0` and `quantity = 1` it answers `["0001"]`, and a negative total gives odd strings such as `"00-2"`. No caller reaches these inputs: `buyTickets` refuses any quantity above the available count (ticketService.js:31), and that count is 0 for such a raffle.
- Status strings are enumerations. A status string outside the table, such as an unknown `newStatus`, cannot be expressed.
- Generated ids: only the random suffix is a parameter. The timestamp part is folded into it.
- Foreign libraries: bcrypt hashing and comparison are parameters. The login token (jsonwebtoken) and the QR code (qrcode) are not modelled; the QR code is a parameter.
- `process.env.PIX_KEY` is a parameter.
- UserService.UserService.Login: the answer is the user without the password. The signed token is not part of it.
- User fields: paymentSettings other than its PIX key, notificationSettings, company, phone, document and totalPurchases are not modelled. No operation of the core reads them.
- UserService.UpdateProfileSpec: the patch covers name, active flag and PIX key, plus the four stripped keys. A given `paymentSettings` replaces the whole object, so only its PIX key is modelled.
- RaffleService.UpdateRaffleSpec: the patch is limited to the fields the raffle validator admits (title, description, price, total, end date, settings). `image` is not modelled, although the service itself merges any field.
- The raffle record omits `image`, `imageId`, `startDate` and `commission`. The service's own `createRaffle` is not modelled; the controller's `createRaffle`, which the routes call, is.
- `createRaffleWithImage` is not modelled: it adds file uploads and their clean-up to `createRaffle`.
- The controller's update, delete, draw and status handlers are stubs that answer a fixed message. The service operations are modelled instead.
- The controller's `getRaffles` search filter (lower-casing and substring tests) and its inline pagination on raw query strings are not modelled. Only the active filter is.
- Simple read-only listings are not modelled: `getTicketsByUser`, `getPaymentsByUser`, `getPaymentsByRaffle`, `getSalesPaymentsByOwner` and the repositories' other one-field filters. Each is a `findBy` filter, which `Repository.Repository.FindBy` models.
- Pagination.Paginate: `parseInt` of a non-numeric page or limit (NaN) is not modelled; page and limit are integers. A zero limit gives an undefined page count (`None`).
- Pagination.PaginationLinks: only the page numbers of `createPaginationQuery` are modelled, not the URL strings around them.
- BaseService's `findAll` builds a data-manager method name from a string at run time. It is not modelled.
- The helpers' e-mail, phone, id and currency formatters are not modelled.
- The logger is not modelled.
- PaymentService.ConfirmTwice: it requires unique payment ids and an unused id for a created payment. With duplicate ids, the update can hit an earlier row with the same id.
- Repository.Repository.Create: an `id` key whose value is `undefined` is not modelled. The spread would store `undefined` as the id, and ids here are strings.
- Repository.Repository.Merge: the data manager's `updateUser` throws for an unknown id where Merge answers nothing. The one modelled caller, `updateUserStats`, looks the user up first (paymentService.js:200-206), so that error cannot arise there.
- The services as written, without their repository, are modelled only by `BaseService.AsWrittenFindsNothing`. Every other ticket-service and raffle-service row is about the wired services, as the introduction says.
- RaffleService.DeleteRemovesOnlyIt: it requires unique raffle ids. With duplicates, a second row with the id survives the splice.

## Findings

| source | as written | input that shows it | evidently intended | confidence | as-written member | corrected member |
|---|---|---|---|---|---|---|
| src/services/baseService.js:4-8 | `TicketService` and `RaffleService` call `super(repository)`, but the base constructor stores only `dataManager` and `entityName`, so `this.repository` stays undefined | `cancelTicket(t.id, t.user)` for a stored ticket `t`: `findById` throws "Repository não inicializado" | the repository passed to `super` is the service's repository | high, not executed | BaseService.AsWrittenFindsNothing | BaseService.WiredFindsStored |
| src/services/paymentService.js:19-30 | the raffle owner is read as `raffle.owner` from `getTicketDetails`' summary, which has no owner field (only id, title, description, image and status). As written, the call already fails at line 19, inside `getTicketDetails` (ticketService.js:130; see the row above). Once that repository is wired, `getUserById(undefined)` is undefined and line 30 throws | `generatePix(t.id, t.user)` for a pending ticket `t` whose raffle and owner exist | the owner of the stored raffle supplies the PIX key | high, not executed | PaymentService.GeneratePixAsWrittenFails | PaymentService.GeneratePixRecord |
