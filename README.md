# Megamon apartment rental: a verified model

This project models the core of an apartment-rental system that has two front ends.

**The web marketplace.**
- Pages for apartments, bookings, payments, chat and support, in React.
- A browser data client that fetches whole tables and filters them locally.
- Express routes over SQLite for users, payments, support tickets and messages.

**The Telegram mini-app.**
- A registration page, a property swiper and a bookings page.
- A Prisma backend for properties, bookings and favorites.

What is modelled:
- the rule deciding which dates can be booked, and the booking lifecycle the cards drive;
- payment recording, including the booking it completes;
- the stores behind the routes (users, tickets, messages, the Telegram backend);
- the client's selection functions;
- the form validators, the swiper's index and the status labels.

How it is modelled:
- A server route is a pure function from the stored tables and the request to the new tables and the reply (`Reply<T>` is `Ok(value)` or `Fail(status, error)`). A class holds the same tables as fields, and each of its methods is proved to produce exactly that function's result while keeping the class's invariant (unique ids, ids below the next free id).
- Page logic is functions over the loaded data. `None` stands for data not loaded yet (`undefined`).
- The page's own state (forms, dialogs, the swiper) is a class whose methods update its fields.
- Tables are sequences in insertion order. `ORDER BY created_date DESC` is the reversed filtered sequence, computed by a loop in `Table.SelectNewestFirst`.
- JavaScript truthiness of a string (`None` or `""` is falsy) is `Common.Truthy`. `trim()` and the regex class `\s` use `Common.IsJsSpace`.
- Dates are integer day numbers on the marketplace side and integer timestamps in the Telegram backend. Ids are natural numbers drawn from a counter.

Modules, one per source file:

| module | source file |
|---|---|
| `Availability` | `ApartmentDetails.jsx` |
| `BookingCard` | `BookingCard.jsx` |
| `ApartmentCard` | `ApartmentCard.jsx` |
| `ClientApi` | `base44Client.js` |
| `Payments` | `payments.js` |
| `Auth` | `auth.js` |
| `SupportTickets` | `supportTickets.js` |
| `Messages` | `messages.js` |
| `ChatWindow` | `ChatWindow.jsx` |
| `SupportAdmin` | `SupportAdmin.jsx` |
| `SupportPage` | `Support.jsx` |
| `LoginPage` | `Login.jsx` |
| `RegistrationPage` | `RegistrationPage.tsx` |
| `TelegramBackend` | `server.ts` |
| `PropertySwiper` | `PropertySwiper.tsx` |
| `BookingsPage` | `BookingsPage.tsx` |

Shared modules:
- `Common`: options, truthiness, trimming, filtering, reversal.
- `Table`: the newest-first selection.
- `Entities`: the stored rows.

## Model

| member | source | states |
|---|---|---|
| Availability.BlockingBookings | apartment-booking/src/pages/ApartmentDetails.jsx:79-88 | the page's booking list holds exactly the apartment's pending and confirmed bookings; none is cancelled or completed |
| Availability.ThreePartConflict | apartment-booking/src/pages/ApartmentDetails.jsx:122-126 | every range sharing a night with a booking (half-open overlap) is caught; for non-empty ranges and bookings the test is exactly half-open overlap |
| Availability.BackToBackIsFree | apartment-booking/src/pages/ApartmentDetails.jsx:122-126 | checking in on another stay's check-out day, or out on its check-in day, is not a conflict |
| Availability.ZeroNightRangeAtCheckInConflicts | apartment-booking/src/pages/ApartmentDetails.jsx:122-126 | a zero-night range on a booking's check-in day is flagged although it shares no night |
| Availability.AnyConflict | apartment-booking/src/pages/ApartmentDetails.jsx:117-127 | true iff some listed booking passes the three-part test |
| Availability.IsDateRangeAvailable | apartment-booking/src/pages/ApartmentDetails.jsx:110-128 | a missing date or list counts as available; otherwise available iff no booking conflicts |
| Availability.DatesAvailable | apartment-booking/src/pages/ApartmentDetails.jsx:131 | a missing date or list counts as available; for a real stay among well-formed bookings, available iff no booking shares a night with it |
| Availability.TotalPrice | apartment-booking/src/pages/ApartmentDetails.jsx:133-137 | 0 while a date or the apartment is missing; never negative for an ordered range at a non-negative price; one night costs the nightly price |
| Availability.AvailabilityMonotone | apartment-booking/src/pages/ApartmentDetails.jsx:117-127 | a range free among more bookings is free among any part of them |
| Availability.AvailabilityOfUnion | apartment-booking/src/pages/ApartmentDetails.jsx:117-127 | free in a combined list iff free in each part |
| Availability.NonBlockingBookingIsIgnored | apartment-booking/src/pages/ApartmentDetails.jsx:82-84 | adding a cancelled or completed booking never changes the page's answer |
| Availability.TotalPriceSplits | apartment-booking/src/pages/ApartmentDetails.jsx:133-137 | the price of a stay is the sum of the prices of its parts; one night costs the nightly price, zero nights cost 0 |
| Availability.TotalPriceMissingIsZero | apartment-booking/src/pages/ApartmentDetails.jsx:134 | a missing date or apartment prices the stay at 0 |
| Availability.HandleBooking | apartment-booking/src/pages/ApartmentDetails.jsx:139-153 | the handler returns a request iff both dates are set, the range is available and the user has an email; it is pending, by that user, for those dates, with the chosen guests and special requests, at the computed price |
| Availability.SubmittedRequestDoesNotOverlap | apartment-booking/src/pages/ApartmentDetails.jsx:131-141 | a submitted range shares no night with any blocking booking |
| Availability.ProfileIncomplete | apartment-booking/src/pages/ApartmentDetails.jsx:185 | the profile is complete iff the user is loaded with a non-empty phone and the completed flag set |
| Availability.SubmitEnabled | apartment-booking/src/pages/ApartmentDetails.jsx:428 | an enabled button means both dates, a loaded user, no booking in flight, and no blocking booking in conflict with the range |
| Availability.TotalPriceIsNightByNight | apartment-booking/src/pages/ApartmentDetails.jsx:133-137 | the price of n nights equals charging each night separately, which is n times the nightly price |
| Availability.SubmitForm | apartment-booking/src/pages/ApartmentDetails.jsx:424-430 | the disabled button (missing date, taken range, a booking being created, and the profile test at line 185: no phone or profile not completed) submits nothing; otherwise the handler decides, so a request goes out iff the button is enabled and the user has an email |
| BookingCard.IsOwner | apartment-booking/src/components/bookings/BookingCard.jsx:119 | with the user and the owner known, the viewer is owner iff an administrator or the apartment's creator |
| BookingCard.UnloadedViewerCountsAsOwner | apartment-booking/src/components/bookings/BookingCard.jsx:119 | with neither loaded, both sides are undefined and the viewer counts as owner |
| BookingCard.OwnerlessApartmentHasNoOwner | apartment-booking/src/components/bookings/BookingCard.jsx:119 | for a loaded apartment whose `created_by` is null, only an administrator is owner; `null` never equals an unloaded user's `undefined` |
| BookingCard.CanLeaveReview | apartment-booking/src/components/bookings/BookingCard.jsx:120-122 | a review may be left iff the booking is completed, has no review, and the viewer booked it |
| BookingCard.ChatRecipient | apartment-booking/src/components/bookings/BookingCard.jsx:124 | given the card's owner test, the owner writes to the guest and anyone else to the apartment's creator; both cards use it |
| BookingCard.ShowChat | apartment-booking/src/components/bookings/BookingCard.jsx:229 | the chat button appears only on a pending or confirmed booking whose recipient (the guest, or the apartment's creator) is non-empty |
| BookingCard.ShowPay | apartment-booking/src/components/bookings/BookingCard.jsx:242 | the pay button appears iff the booking is confirmed and the loaded viewer booked it |
| BookingCard.ShowOwnerActions | apartment-booking/src/components/bookings/BookingCard.jsx:275 | the confirm and cancel buttons appear only with actions shown on a pending booking, and for a loaded non-administrator only on their own apartment |
| BookingCard.ChatReachesTheOtherSide | apartment-booking/src/components/bookings/BookingCard.jsx:229 | a shown chat button is on a live booking and reaches the other party |
| BookingCard.OwnerAction | apartment-booking/src/components/bookings/BookingCard.jsx:275-290 | a status change is sent iff actions are shown to the owner on a pending booking and no update is in flight; it carries the booking id and confirmed or cancelled |
| BookingCard.OwnerActionsFollowLifecycle | apartment-booking/src/components/bookings/BookingCard.jsx:275-290 | every change the buttons send is pending to confirmed or pending to cancelled, by an owner |
| BookingCard.GetParam | apartment-booking/src/pages/Payment.jsx:36 | a query parameter is found iff some parameter has exactly that key, and the value is that of the first such parameter |
| BookingCard.PayLinkReachesPayment | apartment-booking/src/components/bookings/BookingCard.jsx:245 | the payment page reads the booking id from this card's link |
| BookingCard.ReviewForm.constructor | apartment-booking/src/components/bookings/BookingCard.jsx:44-49 | every score starts at 5, with an empty comment and the form closed |
| BookingCard.ReviewForm.OnReviewCreated | apartment-booking/src/components/bookings/BookingCard.jsx:79-85 | after a review is stored the form closes and every score resets to 5 |
| BookingCard.SubmitEnabled | apartment-booking/src/components/bookings/BookingCard.jsx:387 | submit is enabled iff no review is being sent and the comment has a non-space character |
| ApartmentCard.OwnerTestsAgree | apartment-booking/src/components/apartments/ApartmentCard.jsx:91-93 | this card's owner test agrees with the other card's except when neither the user nor the apartment is loaded |
| ApartmentCard.IsOwner | apartment-booking/src/components/apartments/ApartmentCard.jsx:91-93 | owner iff an administrator, or both the user and the apartment are loaded and the apartment's creator is the user |
| ApartmentCard.Render | apartment-booking/src/components/apartments/ApartmentCard.jsx:34-42 | a placeholder iff there is no booking; otherwise the owner flag, the chat recipient, and the chat, pay, review and owner-action sections, each exactly under the card's conditions |
| ApartmentCard.StatusChange | apartment-booking/src/components/apartments/ApartmentCard.jsx:79-89 | a change is sent iff the booking has an id and no update is in flight (lines 246 and 255), and it is a pending-to-confirmed or pending-to-cancelled step |
| ApartmentCard.PayLinkAsWrittenLosesBooking | apartment-booking/src/components/apartments/ApartmentCard.jsx:211 | the link as written never carries a booking the payment page can read |
| ApartmentCard.PayLink | apartment-booking/src/components/apartments/ApartmentCard.jsx:211 | the corrected link always carries the booking to the payment page |
| ClientApi.BookingFilter | apartment-booking/src/api/base44Client.js:83-99 | filter by id, else apartment, else creator, else everything, keeping table order |
| ClientApi.PaymentFilter | apartment-booking/src/api/base44Client.js:211-227 | filter by id, else booking, else payer, else everything, keeping table order |
| ClientApi.TicketFilter | apartment-booking/src/api/base44Client.js:169-185 | filter by id, else status, else creator, else everything, keeping table order |
| ClientApi.ReviewFilter | apartment-booking/src/api/base44Client.js:121-130 | filter by apartment, else booking, else everything, keeping table order |
| ClientApi.UserFilter | apartment-booking/src/api/base44Client.js:145-154 | filter by email, else id, else everything, keeping table order |
| ClientApi.ApartmentFilter | apartment-booking/src/api/base44Client.js:49-55 | without an id, all apartments; with one, a failure iff no stored apartment has it, else the one-element list of a stored apartment with that id |
| ClientApi.ApartmentFilterById | apartment-booking/src/api/base44Client.js:49-55 | with unique ids, the one-apartment fetch equals filtering the whole list by the id |
| ClientApi.TicketCreateBody | apartment-booking/src/api/base44Client.js:187-196 | the caller's creator if truthy, else the stored email; other fields unchanged |
| ClientApi.ResolveEmail | apartment-booking/src/api/base44Client.js:256-277 | the explicit email, else the stored one, else the error; a resolved email is never empty |
| ClientApi.FetchError | apartment-booking/src/api/base44Client.js:30-33 | the thrown message is the server's `error` when truthy, else the generic text; never empty |
| ClientApi.EntityRoute | apartment-booking/src/api/base44Client.js:43-236 | the client defines exactly the apartment, booking, review, user, support-ticket and payment entities, each on its own route |
| ClientApi.MessageEntityMissing | apartment-booking/src/components/chat/ChatWindow.jsx:26 | the chat window's `Message` entity is not defined by the client |
| ClientApi.EntityRouteWithMessages | apartment-booking/src/api/base44Client.js:43-236 | the corrected client adds `Message` on the message route and keeps every other entity's route |
| ClientApi.EntityRoutesDistinct | apartment-booking/src/api/base44Client.js:43-236 | with `Message` added, no two entities share a route |
| Payments.Post | apartment-booking/server/routes/payments.js:63-116 | 400 without the four fields, 404 for an unknown booking, both with nothing stored; otherwise one row appended with the given fields and status defaulting to pending; a completed payment sets its booking's status to completed and its update time to now, keeps its other fields, and touches no other booking; payment ids stay unique and below the next id |
| Payments.ListedPayments | apartment-booking/server/routes/payments.js:8-42 | the list holds exactly the payments matching every given filter; with no filter, all |
| Payments.CompletedPaymentCompletesAnyBooking | apartment-booking/server/routes/payments.js:103-108 | a completed payment completes even a cancelled booking |
| Payments.RepeatedCompletedPayment | apartment-booking/server/routes/payments.js:63-116 | the same completed payment posted twice stores two rows with one transaction id |
| Payments.PaymentsRoute.List | apartment-booking/server/routes/payments.js:8-42 | the matching payments, newest first |
| Payments.PaymentsRoute.Get | apartment-booking/server/routes/payments.js:45-60 | 404 iff no payment has the id, otherwise a payment with that id |
| Payments.PaymentsRoute.Create | apartment-booking/server/routes/payments.js:63-116 | the stored state and reply are exactly `Post`'s, and payment ids stay unique and below the next id |
| Auth.PostRegister | apartment-booking/server/routes/auth.js:8-53 | 400 for missing fields, a taken login, then a taken email, in that order and storing nothing; otherwise the user is appended with role user, unblocked, an empty phone stored as none, and returned without the password; unique logins and emails are kept |
| Auth.FindByLoginOrEmail | apartment-booking/server/routes/auth.js:66-67 | none iff no user has that login or email; otherwise such a user |
| Auth.PostLogin | apartment-booking/server/routes/auth.js:56-99 | 400 without both fields, 401 for an unknown user, 403 for a blocked one, 401 for a wrong password, otherwise the profile |
| Auth.UnknownUserLooksLikeWrongPassword | apartment-booking/server/routes/auth.js:70-83 | a login or email no user has gets the same reply as a wrong password for any unblocked user found by login or email |
| Auth.BlockedBeforePassword | apartment-booking/server/routes/auth.js:75-77 | a blocked account is refused with 403 whatever password is given |
| Auth.ProfileHidesPassword | apartment-booking/server/routes/auth.js:43 | the reply does not depend on the password and keeps email, login and role |
| Auth.RegisteredUserCanLogIn | apartment-booking/server/routes/auth.js:8-99 | after a successful registration, logging in with that login and password returns the same profile |
| Auth.GetUser | apartment-booking/server/routes/auth.js:102-124 | 404 iff no user has the email, otherwise that user's profile |
| Auth.UserStore.Register | apartment-booking/server/routes/auth.js:8-53 | the stored users and reply are exactly `PostRegister`'s |
| SupportTickets.ApplyPatch | apartment-booking/server/routes/supportTickets.js:99-110 | every updatable field takes the patch's value when given and keeps its own otherwise; the id is kept and the update time set |
| SupportTickets.OtherKeysIgnored | apartment-booking/server/routes/supportTickets.js:100 | a key outside the seven updatable ones changes nothing |
| SupportTickets.PatchIdempotent | apartment-booking/server/routes/supportTickets.js:99-110 | applying the same patch twice equals applying it once |
| SupportTickets.PutTicket | apartment-booking/server/routes/supportTickets.js:86-126 | 404 for an unknown id, 400 when no updatable key is given, otherwise the ticket is patched in place; ids stay unique |
| SupportTickets.PutTouchesOnlyThatTicket | apartment-booking/server/routes/supportTickets.js:113-118 | every other ticket is unchanged |
| SupportTickets.PostTicket | apartment-booking/server/routes/supportTickets.js:58-83 | 400 without subject and message; otherwise a ticket appended with status defaulting to open and the creator to the anonymous address |
| SupportTickets.ClientTicketsCarryTheUser | apartment-booking/src/api/base44Client.js:187-196 | a ticket created through the client with a stored email is attributed to that email |
| SupportTickets.ListedTickets | apartment-booking/server/routes/supportTickets.js:8-37 | the list holds exactly the tickets matching the given status and creator |
| SupportTickets.TicketStore.List | apartment-booking/server/routes/supportTickets.js:8-37 | the matching tickets, newest first |
| SupportTickets.TicketStore.Get | apartment-booking/server/routes/supportTickets.js:40-55 | 404 iff no ticket has the id, otherwise a ticket with that id |
| SupportTickets.TicketStore.Create | apartment-booking/server/routes/supportTickets.js:58-83 | the stored tickets and reply are exactly `PostTicket`'s |
| SupportTickets.TicketStore.Update | apartment-booking/server/routes/supportTickets.js:86-126 | the stored tickets and reply are exactly `PutTicket`'s |
| Messages.PostMessage | apartment-booking/server/routes/messages.js:39-64 | 400 without text, recipient and sender, storing nothing; otherwise an unread message appended with the given fields |
| Messages.PutMessage | apartment-booking/server/routes/messages.js:67-89 | 404 iff no message has the id; otherwise its read flag becomes the truthiness of `is_read` and the update time is set |
| Messages.MarkReadIdempotent | apartment-booking/server/routes/messages.js:67-89 | marking a message read twice equals marking it once |
| Messages.DeleteMessage | apartment-booking/server/routes/messages.js:92-106 | 404 iff no message has the id; otherwise that message is removed, no row with the id remains and ids stay unique |
| Messages.GetMessage | apartment-booking/server/routes/messages.js:23-36 | 404 iff no message has the id, otherwise a message with that id |
| Messages.DeletedMessageIsGone | apartment-booking/server/routes/messages.js:92-106 | after a delete, reading the id gives 404 |
| Messages.MessageStore.List | apartment-booking/server/routes/messages.js:12-20 | all messages, newest first |
| Messages.MessageStore.Get | apartment-booking/server/routes/messages.js:23-36 | the reply is exactly `GetMessage`'s |
| Messages.MessageStore.Create | apartment-booking/server/routes/messages.js:39-64 | the stored messages and reply are exactly `PostMessage`'s |
| Messages.MessageStore.SetRead | apartment-booking/server/routes/messages.js:67-89 | the stored messages and reply are exactly `PutMessage`'s |
| Messages.MessageStore.Delete | apartment-booking/server/routes/messages.js:92-106 | the stored messages and reply are exactly `DeleteMessage`'s |
| ChatWindow.Shown | apartment-booking/src/components/chat/ChatWindow.jsx:23-38 | a fetched message is shown iff it belongs to the booking, or to the apartment with the viewer as sender or recipient |
| ChatWindow.Visible | apartment-booking/src/components/chat/ChatWindow.jsx:29-35 | a message of the open booking is always kept; any other kept message belongs to the open apartment and has the viewer as sender or recipient |
| ChatWindow.ShownOldestFirst | apartment-booking/src/components/chat/ChatWindow.jsx:26-37 | over the newest-first list, the shown messages are in stored order, oldest first |
| ChatWindow.VisibilityByParticipant | apartment-booking/src/components/chat/ChatWindow.jsx:29-35 | booking messages are shown to anyone who opens the chat; other apartment messages only to their two participants |
| ChatWindow.MarkReadTargets | apartment-booking/src/components/chat/ChatWindow.jsx:63-70 | the loop collects, in order, the ids of the shown unread messages addressed to the viewer, and none without a viewer |
| ChatWindow.MarkReadExactly | apartment-booking/src/components/chat/ChatWindow.jsx:65-69 | every unread message to the viewer is marked, and every marked id is one |
| ChatWindow.IsOwn | apartment-booking/src/components/chat/ChatWindow.jsx:116 | a shown apartment message that is not the viewer's own was sent to the viewer |
| ChatWindow.SendBodyAsWritten | apartment-booking/src/components/chat/ChatWindow.jsx:75-85 | nothing is sent for blank text; a sent body has no sender |
| ChatWindow.SentAsWrittenIsRejected | apartment-booking/src/components/chat/ChatWindow.jsx:79-84 | every body sent as written is refused by the message route with 400 |
| ChatWindow.SendBody | apartment-booking/src/components/chat/ChatWindow.jsx:75-85 | the corrected body carries the viewer as sender |
| ChatWindow.SentIsStoredAndReachesRecipient | apartment-booking/src/components/chat/ChatWindow.jsx:75-85 | the corrected body is stored unread, from the viewer, and is marked by the recipient's window |
| ChatWindow.Composer.OnSent | apartment-booking/src/components/chat/ChatWindow.jsx:44-50 | after a send the input is cleared |
| SupportAdmin.WithStatus | apartment-booking/src/pages/SupportAdmin.jsx:120-122 | a tab holds exactly the tickets with its status, in fetched order |
| SupportAdmin.Render | apartment-booking/src/pages/SupportAdmin.jsx:107-122 | access denied iff the viewer is not an administrator; otherwise the open, in-progress and closed tabs |
| SupportAdmin.TabsPartition | apartment-booking/src/pages/SupportAdmin.jsx:120-122 | no ticket is in two tabs; a ticket is in some tab iff its status is one of the three |
| SupportAdmin.TakeInWork | apartment-booking/src/pages/SupportAdmin.jsx:167-173 | offered iff the ticket is open; it sends only status in progress |
| SupportAdmin.TakeInWorkOnRoute | apartment-booking/src/pages/SupportAdmin.jsx:83-89 | on the route it changes the status and update time only |
| SupportAdmin.ResponsePatch | apartment-booking/src/pages/SupportAdmin.jsx:67-74 | the answer's four keys, all of them updatable by the route |
| SupportAdmin.ResponseClosesTicket | apartment-booking/src/pages/SupportAdmin.jsx:67-74 | an answer closes the ticket, records the response, who and when, keeps the user's fields, and hides the response form |
| SupportAdmin.ResponseFormShown | apartment-booking/src/pages/SupportAdmin.jsx:301 | the form is shown for open and in-progress tickets and hidden for closed ones |
| SupportAdmin.ResponseDialog.OpenTicket | apartment-booking/src/pages/SupportAdmin.jsx:91-95 | selects the ticket and pre-fills its earlier answer, or the empty text |
| SupportAdmin.ResponseDialog.Submit | apartment-booking/src/pages/SupportAdmin.jsx:301-330 | a request goes out iff a ticket is selected, its form is shown (not closed), the required answer is non-empty and no answer is being sent; it is that ticket's answer patch |
| SupportAdmin.ResponseDialog.OnResponded | apartment-booking/src/pages/SupportAdmin.jsx:75-80 | the dialog closes and is cleared |
| SupportPage.OwnTickets | apartment-booking/src/pages/Support.jsx:55-64 | empty without a user; otherwise exactly the fetched tickets the user created, in fetched order |
| SupportPage.SubmitBody | apartment-booking/src/pages/Support.jsx:75-78 | the body holds the subject and message only |
| SupportPage.CreatedTicketIsListed | apartment-booking/src/pages/Support.jsx:55-78 | a ticket submitted with the stored email is created open, by the user, and appears in the user's list |
| SupportPage.TicketForm.OnCreated | apartment-booking/src/pages/Support.jsx:66-73 | the form is emptied and hidden |
| LoginPage.IsEmailMatchesRegex | apartment-booking/src/pages/Login.jsx:73-74 | the computable check accepts exactly the strings the email pattern matches |
| LoginPage.IsEmail | apartment-booking/src/pages/Login.jsx:73-74 | an accepted email has at least five characters, does not start with `@`, and has an `@` after its first character |
| LoginPage.AcceptedEmailShape | apartment-booking/src/pages/Login.jsx:73 | an accepted email has exactly one `@`, not first, and no white space |
| LoginPage.RunsMakeAnEmail | apartment-booking/src/pages/Login.jsx:73 | any three non-empty runs without white space or `@`, joined by `@` and a dot, are accepted |
| LoginPage.RefusedEmails | apartment-booking/src/pages/Login.jsx:73 | a string starting with `@`, or with no dot after an `@`, is refused |
| LoginPage.HandleRegister | apartment-booking/src/pages/Login.jsx:57-88 | a password mismatch, then a short password, then a bad email is reported; the body is sent iff all three pass |
| LoginPage.SentFormHasPasswordAndEmail | apartment-booking/src/pages/Login.jsx:62-88 | a sent form with login and name passes the route's required-field check |
| LoginPage.SignUpPage.Submit | apartment-booking/src/pages/Login.jsx:57-79 | the old error is cleared; a failed check shows its message and sends nothing; otherwise the request goes out and loading starts |
| LoginPage.SignUpPage.OnReply | apartment-booking/src/pages/Login.jsx:93-97 | loading stops; a refusal shows the message `fetchAPI` throws, which is the server's `error` or the generic request-failed text |
| LoginPage.FailureText | apartment-booking/src/pages/Login.jsx:93-97 | the thrown message when it is non-empty, else the page's own registration-failed text |
| LoginPage.RefusalShowsServerMessage | apartment-booking/src/pages/Login.jsx:93-97 | a refused registration shows the server's error, or the request-failed text, and never the page's fallback |
| RegistrationPage.FirstFailure | frontend/src/components/RegistrationPage.tsx:56-76 | none iff no check fails; otherwise the message of the first failing check |
| RegistrationPage.ValidateRegistration | frontend/src/components/RegistrationPage.tsx:56-76 | the first failing check's message, and none iff the name has a non-space character, the email has `@`, the password has at least 6 characters and matches the confirmation |
| RegistrationPage.RegistrationErrorOrder | frontend/src/components/RegistrationPage.tsx:57-74 | a blank name is reported first; a mismatch only once everything else passes |
| RegistrationPage.ValidateLogin | frontend/src/components/RegistrationPage.tsx:78-86 | none iff the email has a non-space character and the password is not empty |
| RegistrationPage.RegisterBody | frontend/src/components/RegistrationPage.tsx:106-111 | an empty phone is left out; the other fields are passed through |
| RegistrationPage.AuthForm.SubmitRegistration | frontend/src/components/RegistrationPage.tsx:88-99 | both messages are cleared; a validation error is shown and nothing is sent; otherwise the request is sent and loading starts |
| RegistrationPage.AuthForm.OnRegistrationReply | frontend/src/components/RegistrationPage.tsx:116-133 | success shows the message and empties the form; failure shows the server's message or the generic one; loading stops |
| RegistrationPage.AuthForm.SubmitLogin | frontend/src/components/RegistrationPage.tsx:136-147 | the same gating for the login form, which is sent as it is |
| RegistrationPage.AuthForm.OnLoginReply | frontend/src/components/RegistrationPage.tsx:159-177 | success greets by first name, or by email without one; failure shows the server's message or the generic one |
| RegistrationPage.AuthForm.OnConnectionError | frontend/src/components/RegistrationPage.tsx:129-133 | the connection error is shown and loading stops |
| TelegramBackend.FindUser | backend/src/server.ts:85-87 | none iff no user has the Telegram id, otherwise such a user |
| TelegramBackend.FindUserIsTheUser | backend/src/server.ts:85-87 | with unique Telegram ids, the user found is the one with that id |
| TelegramBackend.EnsureUser | backend/src/server.ts:85-93 | an existing user is returned with nothing changed; otherwise exactly one user is added; Telegram ids stay unique |
| TelegramBackend.PostBooking | backend/src/server.ts:69-119 | 400 for a missing date or a check-out not after check-in, storing nothing; otherwise a confirmed booking for that property and dates is appended, owned by the user with that Telegram id |
| TelegramBackend.SameTelegramIdSharesUser | backend/src/server.ts:85-93 | two bookings under one Telegram id have the same owner, and the second adds no user |
| TelegramBackend.OverlappingBookingsAreBothConfirmed | backend/src/server.ts:95-106 | the same range booked twice for one property is accepted and confirmed both times |
| TelegramBackend.UserBookings | backend/src/server.ts:122-150 | empty for an unknown Telegram id; otherwise exactly that user's bookings |
| TelegramBackend.PostFavorite | backend/src/server.ts:153-178 | the user is found or created, then exactly one favorite is appended; bookings and properties unchanged |
| TelegramBackend.Backend.GetProperty | backend/src/server.ts:49-66 | 404 iff no property has the id, otherwise a property with that id |
| TelegramBackend.Backend.FindOrCreateUser | backend/src/server.ts:85-93 | the stored state and user are exactly `EnsureUser`'s |
| TelegramBackend.Backend.CreateBooking | backend/src/server.ts:69-119 | the stored state and reply are exactly `PostBooking`'s |
| TelegramBackend.Backend.GetUserBookings | backend/src/server.ts:122-150 | the reply is `UserBookings`, newest first |
| TelegramBackend.Backend.AddFavorite | backend/src/server.ts:153-178 | the stored state and favorite are exactly `PostFavorite`'s |
| Table.SelectNewestFirst | apartment-booking/server/routes/payments.js:30-36 | the loop returns the rows that pass the filter, newest first |
| Table.NewestFirstMembers | apartment-booking/server/routes/supportTickets.js:25-31 | a row is listed iff it is stored and passes the filter |
| PropertySwiper.NextIndex | frontend/src/components/PropertySwiper.tsx:14-22 | one card further unless the last card is shown |
| PropertySwiper.PrevIndex | frontend/src/components/PropertySwiper.tsx:24-32 | one card back unless the first card is shown |
| PropertySwiper.StepsStayInRange | frontend/src/components/PropertySwiper.tsx:14-32 | neither step, made at once, leaves `0 .. max(0, count-1)` |
| PropertySwiper.StepsUndoEachOther | frontend/src/components/PropertySwiper.tsx:14-32 | a step that moved is undone by the opposite step |
| PropertySwiper.SwipeOf | frontend/src/components/PropertySwiper.tsx:40-51 | a move of at most 50 pixels is ignored; upward goes forward, downward goes back |
| PropertySwiper.SwipeIsButtonPress | frontend/src/components/PropertySwiper.tsx:44-50 | a long swipe is the matching button press and a short one changes nothing |
| PropertySwiper.AfterSwipe | frontend/src/components/PropertySwiper.tsx:40-51 | a short touch keeps the index; any swipe moves it by at most one and keeps it in range |
| PropertySwiper.ClassOf | frontend/src/components/PropertySwiper.tsx:63-66 | active iff the shown card, prev iff before it, next iff after it |
| PropertySwiper.Renders | frontend/src/components/PropertySwiper.tsx:68 | a card draws its property iff it is the shown card or next to it |
| PropertySwiper.RenderWindow | frontend/src/components/PropertySwiper.tsx:68 | the shown card renders, and at most one neighbour on each side, so never more than three |
| PropertySwiper.Counter | frontend/src/components/PropertySwiper.tsx:83-85 | the 1-based position over the length |
| PropertySwiper.UpDisabled | frontend/src/components/PropertySwiper.tsx:78 | the up button is disabled iff pressing it would not move |
| PropertySwiper.DownDisabled | frontend/src/components/PropertySwiper.tsx:88 | on a non-empty list the down button is disabled iff pressing it would not move; on an empty list it is enabled |
| PropertySwiper.ButtonsMatchSteps | frontend/src/components/PropertySwiper.tsx:76-92 | on a non-empty list a button is enabled iff pressing it moves; the counter stays between 1 and the length |
| PropertySwiper.EmptyList | frontend/src/components/PropertySwiper.tsx:84-88 | on an empty list the down button is enabled but does nothing, and the counter reads 1 / 0 |
| PropertySwiper.PressAsWritten | frontend/src/components/PropertySwiper.tsx:14-32 | a press checks the index of the last render and queues its step; the index itself does not change |
| PropertySwiper.FireAsWritten | frontend/src/components/PropertySwiper.tsx:14-32 | a timer adds or subtracts one from the index with no bounds check |
| PropertySwiper.QuickPressesLeaveTheList | frontend/src/components/PropertySwiper.tsx:14-32 | two down presses within 300 ms on the next-to-last card end past the last card; two up presses on the second card end at -1 |
| PropertySwiper.FireGuarded | frontend/src/components/PropertySwiper.tsx:14-32 | a timer whose update re-checks the bound makes exactly the step `AfterSwipe` describes and keeps the index in range |
| PropertySwiper.GuardedEventsStayInRange | frontend/src/components/PropertySwiper.tsx:14-32 | with the guarded update, every press and every timer keeps the index in range |
| PropertySwiper.Swiper.Next | frontend/src/components/PropertySwiper.tsx:14-22 | the index becomes `NextIndex` and stays in range |
| PropertySwiper.Swiper.Prev | frontend/src/components/PropertySwiper.tsx:24-32 | the index becomes `PrevIndex` and stays in range |
| PropertySwiper.Swiper.TouchEnd | frontend/src/components/PropertySwiper.tsx:40-51 | the index becomes the one after the swipe and stays in range |
| BookingsPage.StatusText | frontend/src/components/BookingsPage.tsx:37-44 | pending, confirmed and cancelled get their labels; any other status is shown unchanged |
| BookingsPage.LabelsAreDistinct | frontend/src/components/BookingsPage.tsx:37-44 | the three labels differ, and completed is shown as it is |
| BookingsPage.UnknownStatusKeepsItsName | frontend/src/components/BookingsPage.tsx:43 | two statuses outside the three never share a label |
| BookingsPage.StatusClass | frontend/src/components/BookingsPage.tsx:46-48 | `status-` followed by the status |
| BookingsPage.StatusClassInjective | frontend/src/components/BookingsPage.tsx:46-48 | the class determines the status |
| BookingsPage.CardOf | frontend/src/components/BookingsPage.tsx:72-111 | a blank card iff the property is missing; otherwise the status class, label and title |
| BookingsPage.Render | frontend/src/components/BookingsPage.tsx:50-115 | the spinner while loading, the empty state iff there are no bookings, otherwise one card per booking in order |
| BookingsPage.CreatedBookingReadsConfirmed | frontend/src/components/BookingsPage.tsx:39-40 | a booking the Telegram backend created is labelled as confirmed |

## Left out

- Payments: the card provider is not modelled. That covers the Stripe checkout form, payment intents and the payment page's provider calls. No webhook exists in these files, so there is no reconciliation and no de-duplication of transaction ids.
- Payment.jsx's 1% service fee (floating point) is not modelled. Neither is the average rating on the apartment page (`toFixed`).
- Transport and persistence are replaced by in-memory tables: SQL and Prisma, `fetchAPI`, `fetch`. React Query caching, invalidation and polling are not modelled. The `500` replies of every route's `catch` are left out.
- Clocks are parameters. `CURRENT_TIMESTAMP` and `new Date().toISOString()` are passed in as `now` or `at`.
- Ids come from a counter. `generateId` (time plus randomness) and the Prisma auto-increment are replaced by it, which is what makes them unique.
- Timers (`setTimeout`) take effect at once in the page classes. So does the swiper's animation direction, which is therefore not modelled.
- PropertySwiper.StepsStayInRange: the bound holds for steps made at once, as `Swiper.Next`, `Swiper.Prev` and `Swiper.TouchEnd` make them. In the program a step lands 300 ms after its guard, and two quick presses leave the list; `PropertySwiper.QuickPressesLeaveTheList` shows it (see Findings).
- Newest first is taken as reverse insertion order. Ties in `created_date` are not modelled.
- `Common.IsJsSpace` is ECMAScript's WhiteSpace and LineTerminator set, which `trim()` and `\s` use, with the space separators of the Unicode version current when this model was written. A later Unicode space separator would not be in it.
- Concurrency is not modelled. The read-then-write races in registration and payment are outside a single-threaded model.
- Rendering is not modelled: JSX markup, date formatting, icons and colours.
- The apartment card's `statusLabels`, including "completed", is presentation only.
- `telegram.js`, the listing parser, the environment check and `App.tsx` are not part of this model.
- `GET /api/properties` (list all properties) is not part of this model. It is a read with JSON image decoding.
- TelegramBackend.PostBooking: a foreign-key failure for an unknown property is not modelled (it would be a 500).
- TelegramBackend.PostBooking: `parseInt` of a non-numeric property id (NaN) is not modelled.
- TelegramBackend.PostBooking: the `include: { property }` part of the reply is not modelled.
- TelegramBackend.Backend.GetProperty: the JSON-decoded image list is not modelled.
- TelegramBackend.PostBooking: a missing `telegramId` is taken as a string. The Prisma error for it is not modelled.
- Auth.PostLogin: `preferences` is not modelled. The profile carries no `preferences` field. Users created by registration have none stored, so the reply's is `{}`.
- Auth.PostRegister: the reply's `preferences: {}` is not modelled; the profile returned carries no such field.
- Auth.GetUser: the reply's `preferences` (parsed from the stored JSON, or `{}`) is not modelled; the profile returned carries no such field.
- Auth.PostRegister: a new user is taken as not blocked. The table's default for `is_blocked` is not shown.
- RegistrationPage.AuthForm.SubmitRegistration: the request goes to `/api/auth/register` on the Telegram backend. That backend defines no such route, so the reply is a parameter of `OnRegistrationReply`.
- RegistrationPage.AuthForm.OnRegistrationReply: the switch to the login tab two seconds after success is not modelled.
- RegistrationPage.AuthForm.OnLoginReply: the local-storage write, the parent callback and the reload are not modelled.
- LoginPage.SignUpPage.OnReply: signing the new user in and navigating away after success are not modelled.
- SupportTickets.ApplyPatch: patch values are strings. A JSON `null` written into a field is not modelled.
- ClientApi.BookingFilter: a given id is always treated as truthy. In the program ids are `generateId` strings and never falsy; a falsy `id` would fall through to the next criterion. The same holds for the other client filters that take an id.
- ClientApi.ApartmentFilter: the apartments route is not part of this model. A missing apartment is taken to give a non-ok reply, which `fetchAPI` throws as its generic message.
- ChatWindow.Shown: the browser client defines no `Message` entity, so how the window's `Message.list` and `Message.create` reach the messages route is not part of this model. The route is assumed. See the findings: the client as written throws on every `Message` call.
- PropertySwiper.Swiper.TouchEnd: the touch start is a parameter. In the component `touchStartY` is a plain variable (PropertySwiper.tsx:34), reset to 0 whenever the component renders again; a render between touch start and touch end (a pending 300 ms step firing) makes the swipe measure from 0. That case is not modelled.
- ApartmentCard.PayLink: `createPageUrl` (from `@/utils`) is not modelled. It is taken to pass the query string through unchanged.
- Availability.SubmitForm: `guests` is not checked. The input's `min`, `max` and `required` attributes and `parseInt` are left to the browser.
- BookingsPage.StatusText: the label lookup `statuses[status]` also finds inherited object properties, such as `constructor`. The backend never stores such a status, so the model falls back to the status itself for them.
- LoginPage.SignUpPage.Submit: the button is disabled while loading, and the model does not forbid a second submit then.
- LoginPage.HandleRegister: `password.length` counts UTF-16 code units, while the model counts characters. The two differ for characters outside the Basic Multilingual Plane.
- BookingCard.IsOwner: a loaded apartment's `created_by` is `null` when the column is NULL and a string otherwise. An apartment whose JSON omits the key altogether is not modelled.

## Findings

| source | as written | input that shows it | evidently intended | confidence | as-written member | corrected member |
|---|---|---|---|---|---|---|
| apartment-booking/src/components/apartments/ApartmentCard.jsx:211 | the pay button links to `Payment?bookingId=<id>`, while the payment page reads `bookingid` (Payment.jsx:36) and leaves when it is missing | a confirmed booking with id 7 viewed by its guest: the link carries `bookingId=7`, and `get('bookingid')` is null | the key `bookingid`, as BookingCard.jsx:245 writes it | low, not executed; `createPageUrl` (from `@/utils`) is not modelled, and if it lower-cases the whole path the two keys coincide | ApartmentCard.PayLinkAsWrittenLosesBooking | ApartmentCard.PayLink |
| apartment-booking/src/components/chat/ChatWindow.jsx:79-84 | the chat sends text, recipient, apartment and booking, but no `created_by`; the message route answers 400 without one (messages.js:43-47) | any non-blank text, e.g. "hi" to a guest: the body has no sender and the route refuses it | the viewer's email as `created_by` | low, not executed; the client's Message entity is not in the client file, so the route it reaches is assumed | ChatWindow.SentAsWrittenIsRejected | ChatWindow.SentIsStoredAndReachesRecipient |
| frontend/src/components/PropertySwiper.tsx:14-32 | the buttons and swipes check the index of the last render, then move it 300 ms later with `prev => prev + 1` or `prev => prev - 1`, which do no bounds check | a list of 5 cards showing the fourth: two down presses within 300 ms both pass the guard, and the index ends at 5; the counter reads 6 / 5 and no card is active. Two quick up presses on the second card end at -1 | the bound checked inside the delayed update, so that the index never leaves the list | medium, not executed; it needs two events within 300 ms | PropertySwiper.QuickPressesLeaveTheList | PropertySwiper.GuardedEventsStayInRange |
| apartment-booking/src/api/base44Client.js:43-236 | `base44.entities` defines Apartment, Booking, Review, User, SupportTicket and Payment, but the chat window calls `base44.entities.Message.list`, `.create` and `.update` (ChatWindow.jsx:26, 45, 53) | opening any chat: `base44.entities.Message` is undefined, so `.list` throws a TypeError before any request and the window shows no messages; sending throws the same way | a `Message` entity on the message route, like the other entities | high, not executed | ClientApi.MessageEntityMissing | ClientApi.EntityRouteWithMessages |
