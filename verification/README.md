# Connection Travels, modelled in Dafny

Connection Travels is a bus-hire platform with four parts:

- an Express/Prisma backend;
- a customer portal, where people search buses;
- an owner portal, where owners list buses, mark availability and set prices;
- an admin portal, where admins approve owners and buses.

This project models the parts of it that decide things: seat booking, bus and schedule management, moderation, authentication, role checks, real-time fan-out, configuration, and the front-end handlers that edit calendars, prices, queues and sessions.

How the model represents the system:

- The database is a `Database` object with one sequence per table.
- The Socket.IO server is a `Hub` whose outbox records every emit that reaches a room.
- React pages are classes whose fields are the page state.
- `localStorage` is a `Storage` object holding a string map.
- Everything the code cannot see is a parameter of the operation. This covers bcrypt, JWT, base64, `JSON.stringify`/`parse`, `Number`, network calls, clocks and the ids the database assigns.

One module per source file:

| module | models |
|---|---|
| `Domain`, `Store` | the rows and the tables |
| `Socket` | `backend/src/lib/socket.js` |
| `Config` | `backend/src/config/env.js` |
| `BookingService` | `backend/src/services/booking.service.js` |
| `BusService` | `backend/src/services/bus.service.js` |
| `AdminService` | `backend/src/services/admin.service.js` |
| `AdminController` | `backend/src/controllers/admin.controller.js` |
| `AuthService` | `backend/src/services/auth.service.js` |
| `AuthController` | `backend/src/controllers/auth.controller.js` |
| `AuthMiddleware` | `backend/src/middleware/auth.js` |
| `Browser` | the feedback banner and `localStorage` |
| `Availability` | `owner-portal/pages/Availability.tsx` |
| `BusPricing` | `owner-portal/pages/BusPricing.tsx` |
| `SearchResults` | `user-portal/pages/SearchResults.tsx` |
| `ApprovalCenter` | `admin-portal/components/BusApprovalCenter.tsx` |
| `AddBus` | `owner-portal/pages/AddBus.tsx` |
| `OwnerLogin` | `owner-portal/pages/Login.tsx` |
| `Sessions` | the three `session.ts` files |
| `AdminLogin` | `admin-portal/components/Login.tsx` |
| `OwnerApp` | `owner-portal/src/App.tsx` |
| `Common` | the JavaScript string and array operations they share |

Editing a bus does not send it back for approval: `updateBus` never resets `approvalStatus` (`bus.service.js` lines 52-62). `BusService.ApplyBusChanges` keeps the approval status, and the `active` flag follows the request (`?? true`).

## Model

| member | source | states |
|---|---|---|
| Socket.RoomName | connection-travels/backend/src/lib/socket.js:40-53 | rooms are named `owner:<id>`, `admins` and `users` |
| Socket.RoomNameInjective | connection-travels/backend/src/lib/socket.js:40-53 | two different rooms never share a name, so one owner's events never reach another owner, the admins or the customers |
| Socket.JoinedRooms | connection-travels/backend/src/lib/socket.js:13-23 | a connection joins `owner:<ownerId>` only for role `owner` with a non-empty id, `admins` only for `admin`, and `users` only for `user` |
| Socket.Hub.InitSocket | connection-travels/backend/src/lib/socket.js:5-31 | after initialisation the server exists and later emits are delivered |
| Socket.Hub.Connect | connection-travels/backend/src/lib/socket.js:13-23 | a running server records the joined rooms of the connection |
| Socket.Hub.GetIo | connection-travels/backend/src/lib/socket.js:33-38 | returns the server, or the error "Socket.io has not been initialized" before initialisation |
| Socket.Hub.EmitToOwners | connection-travels/backend/src/lib/socket.js:40-43 | the event reaches exactly the owner's room, and nothing is sent before initialisation |
| Socket.Hub.EmitToAdmins | connection-travels/backend/src/lib/socket.js:45-48 | the event reaches exactly `admins`, and nothing is sent before initialisation |
| Socket.Hub.EmitToUsers | connection-travels/backend/src/lib/socket.js:50-53 | the event reaches exactly `users`, and nothing is sent before initialisation |
| Socket.SentTo | connection-travels/backend/src/lib/socket.js:40-53 | the events one room received: a subsequence of the outbox, so in emission order, with each of that room's events as many times as emitted |
| Config.ParseOrigins | connection-travels/backend/src/config/env.js:9-15 | nothing for an unset or empty value; otherwise every non-blank trimmed segment, each as often as it occurs and in order (a subsequence of the trimmed segments), and no blank one |
| Config.TrimmedSegments | connection-travels/backend/src/config/env.js:9-15 | every parsed origin is non-empty, trimmed and free of commas |
| Config.ParseOriginsJoin | connection-travels/backend/src/config/env.js:9-15 | a list of non-empty, trimmed, comma-free origins joined with commas is parsed back as written |
| Config.Load | connection-travels/backend/src/config/env.js:19-33 | an unset or empty variable falls back to its default; the token lifetimes are 30m and 7d; the three localhost origins are used when none is configured |
| BookingService.Admission | connection-travels/backend/src/services/booking.service.js:5-28 | error 400 exactly for a missing schedule id or fewer than one seat; error 409 "Schedule unavailable" exactly when no matching schedule is ACTIVE; error 409 "Not enough seats available" exactly when too few seats are free |
| BookingService.CreateBooking | connection-travels/backend/src/services/booking.service.js:4-61 | on failure no schedule or booking changes and nothing is emitted. On success only the schedule's seats drop, by exactly the seats requested, and stay non-negative. The booking is CONFIRMED, with the requested seats, price × seats as total, and the bus owner and the caller as parties. It is stored, then `booking:confirmed` goes to users, admins and the owner's room |
| BookingService.BookingsForOwner | connection-travels/backend/src/services/booking.service.js:63-78 | exactly the owner's bookings, each as many times as stored, newest first |
| BookingService.BookingsForUser | connection-travels/backend/src/services/booking.service.js:80-88 | exactly the caller's bookings, each as many times as stored, newest first |
| BookingService.NewBookingListedFirst | connection-travels/backend/src/services/booking.service.js:80-88 | a booking newer than the customer's others heads their list |
| BusService.ActiveBuses | connection-travels/backend/src/services/bus.service.js:4-23 | exactly the active buses, kept in their order in the table, each with exactly its ACTIVE schedules |
| BusService.OwnerBuses | connection-travels/backend/src/services/bus.service.js:25-31 | exactly the owner's buses, newest first, each with all its schedules |
| BusService.BusSchedules | connection-travels/backend/src/services/bus.service.js:112-117 | exactly the bus's ACTIVE schedules, earliest departure first |
| BusService.NewBusRow | connection-travels/backend/src/services/bus.service.js:34-43 | a falsy description is stored as null, missing amenities as `[]`, and the other fields as given |
| BusService.CreateBus | connection-travels/backend/src/services/bus.service.js:33-50 | appends exactly one bus (refused when the owner profile does not exist), then emits `bus:created` to admins, users and the owner's room |
| BusService.BroadcastBusUpdate | connection-travels/backend/src/services/bus.service.js:119-123 | `bus:updated` goes to users, admins and the owner's room, in that order |
| BusService.ApplyBusChanges | connection-travels/backend/src/services/bus.service.js:55-61 | description `?? null`, amenities `?? []`, active `?? true`; approval status, note, id, owner and registration unchanged |
| BusService.ApplyBusChangesIdempotent | connection-travels/backend/src/services/bus.service.js:52-62 | sending the same update twice gives the same bus |
| BusService.UpdateBus | connection-travels/backend/src/services/bus.service.js:52-68 | fails and changes nothing unless some bus has both the id and the owner; otherwise only that bus changes, and it is broadcast |
| BusService.ReviseSchedule | connection-travels/backend/src/services/bus.service.js:73-85 | the update branch writes the dates and `statusReason ?? null` and keeps id and bus |
| BusService.FreshSchedule | connection-travels/backend/src/services/bus.service.js:87-99 | the create branch's schedule is on the given bus, with status ACTIVE unless given |
| BusService.BusDetail | connection-travels/backend/src/services/bus.service.js:102-105 | the bus with all its schedules, or none when no bus has that id |
| BusService.ReviseStoredSchedule | connection-travels/backend/src/services/bus.service.js:72-85 | rewrites the one schedule with that id, creates nothing, and fails when there is none |
| BusService.InsertSchedule | connection-travels/backend/src/services/bus.service.js:86-99 | appends exactly one schedule on the bus |
| BusService.UpsertSchedule | connection-travels/backend/src/services/bus.service.js:70-110 | a truthy id updates that schedule, matched by id alone; otherwise one schedule is created; either way the bus is broadcast |
| BusService.UpsertReachesOtherBuses | connection-travels/backend/src/services/bus.service.js:73-74 | the update branch can rewrite a schedule of another bus, since it is matched by id alone |
| AdminService.FormatMedia | connection-travels/backend/src/services/admin.service.js:5-20 | a missing item stays missing; every column is kept; inline bytes become base64 text, and no bytes give null |
| AdminService.FormatMediaRoundTrip | connection-travels/backend/src/services/admin.service.js:9-19 | formatting loses nothing when decoding undoes encoding |
| AdminService.FormatBus | connection-travels/backend/src/services/admin.service.js:22-31 | a missing bus stays missing; non-array media become `[]`; missing pricing becomes null; the bus columns and the owner relation are kept |
| AdminService.OwnerOfBus | connection-travels/backend/src/services/admin.service.js:74-84 | the `owner` relation: present exactly when a profile has the bus's `ownerId`, and then carrying that profile and, when its user exists, that user's first name, last name and e-mail |
| AdminService.Load | connection-travels/backend/src/services/admin.service.js:72-88 | the bus with its owner relation, exactly its media items, and its pricing row if one exists |
| AdminService.DashboardSummary | connection-travels/backend/src/services/admin.service.js:55-69 | counts every owner profile, bus and booking, and only the CUSTOMER users |
| AdminService.NewOwnerNotCounted | connection-travels/backend/src/services/admin.service.js:58 | registering an owner leaves the user count unchanged |
| AdminService.PendingBuses | connection-travels/backend/src/services/admin.service.js:71-92 | exactly the PENDING buses, newest first, each loaded with its owner, media and pricing and formatted |
| AdminService.Moderated | connection-travels/backend/src/services/admin.service.js:95-145 | approval sets APPROVED and active; rejection sets REJECTED and inactive; the note is the given one or null |
| AdminService.ApproveOwner | connection-travels/backend/src/services/admin.service.js:33-53 | the profile becomes verified; exactly one OWNER_APPROVED audit row by the actor is added; only the owner's room is told |
| AdminService.Decide | connection-travels/backend/src/services/admin.service.js:95-171 | fails, changing nothing, when no bus has the id; otherwise only that bus changes and exactly one audit row is added |
| AdminService.ApprovalEmits | connection-travels/backend/src/services/admin.service.js:131-133 | `bus:approved` goes to the owner's room and the admins, and `bus:created` to the users |
| AdminService.RejectionEmits | connection-travels/backend/src/services/admin.service.js:175-177 | `bus:rejected` goes to the owner's room and the admins, and `bus:removed` with only the id to the users |
| AdminService.RejectionHidesBusFromCustomers | connection-travels/backend/src/services/admin.service.js:177 | the users' room never receives the formatted bus on rejection |
| AdminService.ApproveBus | connection-travels/backend/src/services/admin.service.js:94-136 | approves, logs BUS_APPROVED, and emits as `ApprovalEmits` says |
| AdminService.RejectBus | connection-travels/backend/src/services/admin.service.js:138-180 | rejects, logs BUS_REJECTED, and emits as `RejectionEmits` says |
| AdminController.BodyField | connection-travels/backend/src/controllers/admin.controller.js:34 | an absent or null body reads as `{}`, so every field is absent |
| AdminController.ApproveBus | connection-travels/backend/src/controllers/admin.controller.js:31-40 | any body, even none, is accepted, and its `note` is forwarded |
| AdminController.RejectBus | connection-travels/backend/src/controllers/admin.controller.js:42-51 | any body, even none, is accepted, and its `note` is forwarded |
| AdminController.UpdateQuoteNegotiation | connection-travels/backend/src/controllers/admin.controller.js:62-70 | the body (or `{}`) is forwarded unchanged with the caller's id |
| AdminController.LockOwnerPayout | connection-travels/backend/src/controllers/admin.controller.js:72-86 | a null or absent `ownerPayoutPrice` is refused with 400 "ownerPayoutPrice required"; any other value is forwarded |
| AdminController.LockUserPrice | connection-travels/backend/src/controllers/admin.controller.js:88-102 | a null or absent `userFinalPrice` is refused with 400 "userFinalPrice required"; any other value is forwarded |
| AdminController.ZeroPricePasses | connection-travels/backend/src/controllers/admin.controller.js:75-81 | a price of 0 reaches the service |
| AdminController.Handle | connection-travels/backend/src/controllers/admin.controller.js:3-11 | a refusal or a failed call goes to `next`; only a successful call is answered |
| AdminController.RefusalIgnoresService | connection-travels/backend/src/controllers/admin.controller.js:76-80 | a refused lock gives the same 400 whatever the service would do |
| AuthService.AuthError | connection-travels/backend/src/services/auth.service.js:68-72 | the error carries status 401 and the message |
| AuthService.Login | connection-travels/backend/src/services/auth.service.js:6-31 | an unknown e-mail (compared lower-cased) or a wrong password gives 401 "Invalid credentials"; otherwise the user, the profile and both signed tokens are returned |
| AuthService.LoginFailuresIndistinguishable | connection-travels/backend/src/services/auth.service.js:12-19 | an unknown e-mail and a wrong password get identical answers |
| AuthService.LoginIgnoresCase | connection-travels/backend/src/services/auth.service.js:8 | e-mails differing only in letter case log into the same account |
| AuthService.NullIfFalsy | connection-travels/backend/src/services/auth.service.js:57-58 | a falsy optional text becomes null |
| AuthService.RegisterOwner | connection-travels/backend/src/services/auth.service.js:33-66 | a taken e-mail gives 401 "Email already registered" and changes nothing; otherwise exactly one OWNER user (lower-cased e-mail, hashed password) and one unverified profile are added |
| AuthService.RegisteredOwnerCanLogIn | connection-travels/backend/src/services/auth.service.js:6-66 | an owner just registered logs in with that password |
| AuthController.SanitizeUser | connection-travels/backend/src/controllers/auth.controller.js:29-33 | no user gives null; otherwise the user without its password hash |
| AuthController.SanitizeDropsOnlyHash | connection-travels/backend/src/controllers/auth.controller.js:29-33 | putting the hash back gives the stored user |
| AuthController.SanitizeHidesHash | connection-travels/backend/src/controllers/auth.controller.js:29-33 | users differing only in their hash look the same to clients |
| AuthController.LoginResponse | connection-travels/backend/src/controllers/auth.controller.js:3-15 | 200 with the sanitized user, its owner profile inside it, and both tokens; or the error to `next` |
| AuthController.RegisterResponse | connection-travels/backend/src/controllers/auth.controller.js:17-27 | 201 with the sanitized user and the profile, or the error to `next` |
| AuthMiddleware.BearerToken | connection-travels/backend/src/middleware/auth.js:12 | the first occurrence of `Bearer `, wherever it is, is cut out and the rest kept around it; a header without it is used whole |
| AuthMiddleware.Verdict | connection-travels/backend/src/middleware/auth.js:5-29 | a missing header gives 401 "Authorization header missing"; a rejected token or one without a subject gives 401 "Unauthorized"; a subject no user has gives 401 "Invalid token subject"; a user is admitted exactly when the verified subject is a stored user |
| AuthMiddleware.Request.Authenticate | connection-travels/backend/src/middleware/auth.js:5-29 | a denial answers 401 and never calls `next`; an admission sets the user and profile and calls `next` once |
| AuthMiddleware.AuthorizeRoles | connection-travels/backend/src/middleware/auth.js:31-41 | 401 without a user, 403 for a role not allowed, otherwise `next` |
| AuthMiddleware.RouteAccess | connection-travels/backend/src/routes/admin.routes.js:7 | customers reach only the booking routes, owners only the owner routes, and admins the admin and owner routes |
| Store.UserById | connection-travels/backend/src/middleware/auth.js:14-17 | the user with that id, or none when no user has it |
| Availability.StatusForDate | connection-travels/owner-portal/pages/Availability.tsx:49-54 | each calendar status maps to its schedule status |
| Availability.ToDateStatus | connection-travels/owner-portal/pages/Availability.tsx:62-76 | each schedule status maps to its calendar status, and CANCELLED shows as blocked |
| Availability.StatusRoundTrip | connection-travels/owner-portal/pages/Availability.tsx:49-76 | marking a day and reading it back gives the chosen status |
| Availability.DefaultReason | connection-travels/owner-portal/pages/Availability.tsx:56-60 | booked, maintenance and blocked have their default reasons; available has none |
| Availability.DaysInYear | connection-travels/owner-portal/pages/Availability.tsx:229-231 | 366 exactly in Gregorian leap years |
| Availability.YearLength | connection-travels/owner-portal/pages/Availability.tsx:229-237 | consecutive New Year's days are one year length apart |
| Availability.DaysInMonth | connection-travels/owner-portal/pages/Availability.tsx:229-231 | `new Date(y, m + 1, 0).getDate()` is the Gregorian month length: 31 or 30 by month, February 29 exactly in leap years |
| Availability.LeadingEmptyCells | connection-travels/owner-portal/pages/Availability.tsx:233-237 | between 0 and 6 blanks; stepping back that many days from the 1st lands on a Monday, with no Monday in between |
| Availability.EntryOf | connection-travels/owner-portal/pages/Availability.tsx:216-223 | the entry shows the schedule's status, and its own reason or the default |
| Availability.LastDeparture | connection-travels/owner-portal/pages/Availability.tsx:208-224 | the position of the last schedule departing on that day |
| Availability.EntriesShowLastSchedule | connection-travels/owner-portal/pages/Availability.tsx:202-227 | a day is on the calendar exactly when a schedule departs on it that month, and it shows the last such schedule |
| Availability.CalendarEntries | connection-travels/owner-portal/pages/Availability.tsx:202-227 | the loop builds the calendar of the selected bus, and an empty one without a bus |
| Availability.NewReason | connection-travels/owner-portal/pages/Availability.tsx:279 | the reason given, else the shown one, else the default, else none |
| Availability.PayloadFor | connection-travels/owner-portal/pages/Availability.tsx:270-280 | the schedule as it is, with the new status and reason |
| Availability.MarkBuses | connection-travels/owner-portal/pages/Availability.tsx:283-296 | only the selected bus's schedules with that id get the new status and reason |
| Availability.ReplyBuses | connection-travels/owner-portal/pages/Availability.tsx:305-328 | only the selected bus's schedules with the reply's id take the reply's fields |
| Availability.EditedCalendar | connection-travels/owner-portal/pages/Availability.tsx:283-296 | after an offline edit the calendar keeps the same days, and only the edited schedule's days change |
| Availability.MarkedDayShows | connection-travels/owner-portal/pages/Availability.tsx:254-299 | after marking a day offline, it shows the chosen status and reason, and no other day changes |
| Availability.AvailableKeepsShownReason | connection-travels/owner-portal/pages/Availability.tsx:279 | marking a day available without a reason keeps the shown reason |
| Availability.AvailabilityPage.SelectedBus | connection-travels/owner-portal/pages/Availability.tsx:195-198 | the first bus with the selected id |
| Availability.AvailabilityPage.HandleUpdateStatus | connection-travels/owner-portal/pages/Availability.tsx:254-336 | no bus: nothing changes. No schedule on the day: an error, and the editor closes. Offline: a local edit and its message. Online: the reply is applied, a failure leaves the buses, saving ends false, and the editor closes |
| Availability.AvailabilityPage.WriteEntry | connection-travels/owner-portal/pages/Availability.tsx:282-335 | offline, only that schedule takes the new status and reason; online, the buses change only with the reply; either way the editor closes |
| BusPricing.PresetOf | connection-travels/owner-portal/pages/BusPricing.tsx:22-47 | the preset with that id, if any |
| BusPricing.SavedPrice | connection-travels/owner-portal/pages/BusPricing.tsx:134-139 | the saved price of the bus and tier, if any |
| BusPricing.DefaultInput | connection-travels/owner-portal/pages/BusPricing.tsx:141-153 | empty without a bus; else a non-zero saved price; else the preset's suggestion; else empty |
| BusPricing.RouteLabel | connection-travels/owner-portal/pages/BusPricing.tsx:170-171 | the preset's label, or "Custom route" |
| BusPricing.NotePayloadShape | connection-travels/owner-portal/pages/BusPricing.tsx:172-177 | always names the route; adds the trimmed note only when there is one; never empty |
| BusPricing.SetPrice | connection-travels/owner-portal/pages/BusPricing.tsx:180-186 | sets that cell only, leaving every other cell of every bus |
| BusPricing.TagBuses | connection-travels/owner-portal/pages/BusPricing.tsx:187-199 | only the selected bus gets the new price tag |
| BusPricing.SavedPriceIsDefault | connection-travels/owner-portal/pages/BusPricing.tsx:141-153 | a price just saved becomes the input's default for that tier |
| BusPricing.PricingPage.UpdateLocalState | connection-travels/owner-portal/pages/BusPricing.tsx:179-200 | the cell is set and persisted, and the bus shows the new price |
| BusPricing.PricingPage.HandleSave | connection-travels/owner-portal/pages/BusPricing.tsx:161-228 | no bus: nothing changes. An unreadable or non-positive amount: only the error. Otherwise the price is committed offline, or online after a successful share |
| BusPricing.PricingPage.Commit | connection-travels/owner-portal/pages/BusPricing.tsx:202-227 | offline the price is saved locally with its message; online it is saved only after the share succeeds |
| BusPricing.PricingPage.ShareAndCommit | connection-travels/owner-portal/pages/BusPricing.tsx:209-227 | share first; the local save and the cleared note follow only success; saving ends false |
| SearchResults.ParseDataUri | connection-travels/user-portal/pages/SearchResults.tsx:43 | whatever it reads back is a data URI of that MIME type and payload |
| SearchResults.DataUriRoundTrip | connection-travels/user-portal/pages/SearchResults.tsx:43 | a data URI parses back to its MIME type and payload |
| SearchResults.ResolveMediaSource | connection-travels/user-portal/pages/SearchResults.tsx:36-49 | no item gives null; inline data gives a data URI with the MIME type or the kind's fallback; else the URL; else null |
| SearchResults.InlineSourceReadsBack | connection-travels/user-portal/pages/SearchResults.tsx:40-44 | an inline source reads back to its MIME type and data |
| SearchResults.GallerySources | connection-travels/user-portal/pages/SearchResults.tsx:50-53 | the non-empty sources of exactly the IMAGE items |
| SearchResults.GalleryInOrder | connection-travels/user-portal/pages/SearchResults.tsx:50-53 | the gallery of two lists one after the other is the first's gallery followed by the second's, so sources keep the items' order and each item gives at most one |
| SearchResults.FirstImageLeads | connection-travels/user-portal/pages/SearchResults.tsx:50-54 | the first IMAGE item with a source supplies the first gallery source, which the hero image then shows |
| SearchResults.HeroImage | connection-travels/user-portal/pages/SearchResults.tsx:54 | the first gallery source, else the first item's source, else the fixed picture; never empty |
| SearchResults.ToSearchBus | connection-travels/user-portal/pages/SearchResults.tsx:33-77 | available unless `active` is false; an unavailable bus gets "Temporarily unavailable" and its tags lead with "Currently reviewing"; defaults for capacity, features, gallery and description |
| SearchResults.SampleCard | connection-travels/user-portal/pages/SearchResults.tsx:10 | a sample bus is available with the sample tags and is otherwise unchanged |
| SearchResults.FilteredBuses | connection-travels/user-portal/pages/SearchResults.tsx:102-110 | exactly the available buses with every selected feature and enough seats, each as many times as listed, in order |
| SearchResults.SearchPage.constructor | connection-travels/user-portal/pages/SearchResults.tsx:16-26 | the initial state: the feature from the query, budget 200000, the samples |
| SearchResults.SearchPage.ToggleFeature | connection-travels/user-portal/pages/SearchResults.tsx:96-100 | removes a selected feature or appends a new one; nothing else changes |
| SearchResults.SearchPage.LoadBuses | connection-travels/user-portal/pages/SearchResults.tsx:28-91 | a list replaces the cards, and the error is set exactly when every listed bus is inactive; a failure shows the samples with an error; loading ends |
| ApprovalCenter.Without | connection-travels/admin-portal/components/BusApprovalCenter.tsx:53-65 | drops exactly the buses with that id and keeps every other one, as many times as listed, in order |
| ApprovalCenter.WithoutListedUnique | connection-travels/admin-portal/components/BusApprovalCenter.tsx:56-57 | with unique ids, removing a listed id removes exactly one bus |
| ApprovalCenter.ApprovalQueue.Approve | connection-travels/admin-portal/components/BusApprovalCenter.tsx:53-60 | a pending bus moves to the front of the approved list and leaves pending, the others keep their order, and the total is kept with unique ids; an id not pending changes nothing |
| ApprovalCenter.ApprovalQueue.Reject | connection-travels/admin-portal/components/BusApprovalCenter.tsx:62-65 | drops every pending bus with the id, keeps the others in order, leaves approved and closes the confirmation |
| AddBus.Wizard.constructor | connection-travels/owner-portal/pages/AddBus.tsx:17-29 | starts at step 1 with the empty form |
| AddBus.Wizard.NextStep | connection-travels/owner-portal/pages/AddBus.tsx:57 | one step on, never past 3, and the form is unchanged |
| AddBus.Wizard.PrevStep | connection-travels/owner-portal/pages/AddBus.tsx:58 | one step back, never before 1, and the form is unchanged |
| AddBus.Wizard.ToggleFeature | connection-travels/owner-portal/pages/AddBus.tsx:33-40 | flips one feature; every other field is unchanged |
| AddBus.Wizard.HandleAIWrite | connection-travels/owner-portal/pages/AddBus.tsx:42-54 | an empty name or type only raises the alert; otherwise the description becomes the generated text or empty |
| OwnerLogin.Words | connection-travels/owner-portal/pages/Login.tsx:30 | the white-space-free words of a string |
| OwnerLogin.WordsOfJoin | connection-travels/owner-portal/pages/Login.tsx:30 | words joined by single spaces split back into the same words |
| OwnerLogin.SplitName | connection-travels/owner-portal/pages/Login.tsx:28-34 | both names are non-empty; a blank name gives Owner Partner; otherwise the first name is the trimmed name's leading run of non-space characters |
| OwnerLogin.WordsOfTrim | connection-travels/owner-portal/pages/Login.tsx:28-29 | trimming the typed name keeps its words, so splitting the trimmed name on white space sees the typed words |
| OwnerLogin.SplitNameWords | connection-travels/owner-portal/pages/Login.tsx:28-34 | for any typed name: no words gives Owner Partner; otherwise the first word and the remaining words joined by single spaces (Partner when there is one word) |
| OwnerLogin.NameRoundTrip | connection-travels/owner-portal/pages/Login.tsx:28-34 | the first word is the first name, and the remaining words joined by spaces are the last name (Partner when there are none) |
| OwnerLogin.Payload | connection-travels/owner-portal/pages/Login.tsx:31-39 | the registration body, carrying the split name and the form fields |
| OwnerLogin.FailureAlert | connection-travels/owner-portal/pages/Login.tsx:71-72 | the error's message, else the long text; the short text for a non-`Error` |
| OwnerLogin.LoginPage.HandleSubmit | connection-travels/owner-portal/pages/Login.tsx:23-76 | a registration failure that is not offline alerts and leaves the store; otherwise the session is obtained and the store marked signed in; loading ends false |
| OwnerLogin.LoginPage.Register | connection-travels/owner-portal/pages/Login.tsx:41-52 | only while registering, and only for a failure that is not an `Error` naming an unreachable backend, it yields the alert that stops the submission |
| OwnerLogin.LoginPage.SignIn | connection-travels/owner-portal/pages/Login.tsx:55-67 | the store ends as the signed-in store for the form's credentials: the session persisted unless cached, `isLoggedIn` is `'true'`, and the profile only when the owner has one |
| OwnerLogin.MarkSignedIn | connection-travels/owner-portal/pages/Login.tsx:63-66 | `isLoggedIn` is `'true'`; the profile is written when present; no other key changes |
| OwnerLogin.SignedInStore | connection-travels/owner-portal/pages/Login.tsx:55-66 | after sign-in the stored token is the session's token and `isLoggedIn` is `'true'` |
| Sessions.EnsureSession | connection-travels/user-portal/src/services/session.ts:11-23 | the cached pair when both are stored, leaving the store; else a login whose token and user are stored; a failure writes nothing |
| Sessions.EnsureUserSession | connection-travels/user-portal/src/services/session.ts:11-23 | the cached `userToken`/`userAccount` pair is returned with the store untouched; otherwise the configured login's token and user are returned and stored, the user as `show(user)`; a failed login returns nothing and writes nothing |
| Sessions.EnsureAdminSession | connection-travels/admin-portal/src/services/session.ts:11-23 | the cached `adminToken`/`adminUser` pair is returned with the store untouched; otherwise the configured login's token and user are returned and stored, the user as `show(user)`; a failed login returns nothing and writes nothing |
| Sessions.Normalized | connection-travels/owner-portal/services/session.ts:55 | a trimmed, lower-cased e-mail |
| Sessions.NormalizedTwice | connection-travels/owner-portal/services/session.ts:55 | normalizing twice is normalizing once |
| Sessions.DummyUser | connection-travels/owner-portal/services/session.ts:8-26 | the demo owner with the normalized e-mail or the demo address, the trimmed mobile or the demo number, and a verified profile |
| Sessions.OwnerLoginEmail | connection-travels/owner-portal/services/session.ts:55 | the caller's normalized e-mail, else the configured one |
| Sessions.OwnerLoginPassword | connection-travels/owner-portal/services/session.ts:56 | the caller's password, else the configured one |
| Sessions.FreshOwnerSession | connection-travels/owner-portal/services/session.ts:59-66 | the login reply, or the dummy token with the stand-in owner |
| Sessions.DummyKeepsLoginEmail | connection-travels/owner-portal/services/session.ts:55-64 | the stand-in owner carries the e-mail the failed login used |
| Sessions.Persisted | connection-travels/owner-portal/services/session.ts:28-35 | token and user are written, the profile only when present, and every other key is kept |
| Sessions.PersistSession | connection-travels/owner-portal/services/session.ts:28-35 | writes as `Persisted` says and returns its argument |
| Sessions.EnsureOwnerSession | connection-travels/owner-portal/services/session.ts:48-67 | the cached pair leaves the store; otherwise the login or dummy session is persisted; it never fails; the stored token is the returned one |
| AdminLogin.FallbackAdmin | connection-travels/admin-portal/components/Login.tsx:22-28 | the typed e-mail, role ADMIN, marked as a fallback |
| AdminLogin.LoginForm.HandleSubmit | connection-travels/admin-portal/components/Login.tsx:11-33 | success stores the reply; failure stores `dev-fallback-token` and the fallback admin; `onLogin` is called once; loading ends false |
| OwnerApp.OwnerName | connection-travels/owner-portal/src/App.tsx:125 | trimmed; empty without a user or without both names; only one name present gives that name trimmed; two trimmed names give `first last` |
| OwnerApp.MailboxName | connection-travels/owner-portal/src/App.tsx:134 | the e-mail text before its first `@` |
| OwnerApp.Avatar | connection-travels/owner-portal/src/App.tsx:126 | one upper-cased letter of the name, else of the e-mail, else of the company, else T |
| OwnerApp.WelcomeName | connection-travels/owner-portal/src/App.tsx:134 | the name, else the mailbox part, else the company, else Travel Owner |
| OwnerApp.CompanyLine | connection-travels/owner-portal/src/App.tsx:146 | the company, else the owner's name, else `Travel Agency` when both are empty |
| OwnerApp.VerificationBadge | connection-travels/owner-portal/src/App.tsx:147-155 | `Verified` exactly when the profile's `verifiedByAdmin` is set, otherwise (and with no profile) `Pending Verification` |
| OwnerApp.DemoOwnerHeader | connection-travels/owner-portal/src/App.tsx:125-155 | the offline stand-in owner is greeted as Demo Owner, shows D, and is Verified |
| OwnerApp.Shell.LoadFromStorage | connection-travels/owner-portal/src/App.tsx:172-189 | signed in exactly when `isLoggedIn` is `'true'`; profile and user are read only then |
| OwnerApp.Shell.Logout | connection-travels/owner-portal/src/App.tsx:54-61 | removes exactly the four session keys, and the shell forgets the owner |

## Left out

- Prisma and the database engine: tables are sequences; a transaction is "a failure changes nothing"; the ids and timestamps the database assigns are parameters.
- The Prisma schema file is not part of this model. A new bus is assumed to start PENDING and active.
- The error-handling middleware is not part of this model, so database failures carry no HTTP status.
- bcrypt, jsonwebtoken, base64 and JSON are opaque function parameters.
- Token expiry and signature checking are those parameters' business.
- The quote negotiation functions are not defined in the backend source. The model records only the calls the admin controller makes; no lock or negotiation rule is modelled.
- `owner.controller.js`, `booking.controller.js`, `bus.controller.js`, the route wiring other than the role lists, `app.js` and `server.js` are not part of this model.
- Concurrency: React's batched state updates, `await` interleavings and requests racing each other are not modelled. Each handler runs to completion on the state it started from.
- Socket disconnects and listener clean-up (`socket.js` lines 25-27) are not modelled.
- Dates in Availability are local calendar dates. Time zones, ISO parsing and `toLocaleDateString` are left out; `new Date` arithmetic is modelled on day numbers.
- `Number(...)`, `toFixed(2)`, `toString()` and `new Date().toISOString()` in BusPricing are parameters.
- The pricing request is a parameter. The owner portal's API and types define no `updateExpectedPrice` or `OwnerBus` for it.
- The page bootstraps (loading buses, reading the saved pricing matrix, month navigation), the rendering, and `handleSubmit` of AddBus (an alert only) are not modelled.
- Case-insensitive matching and `toLowerCase`/`toUpperCase` are modelled on the Latin letters only.
- BusApprovalCenter's mock data and the selected-bus modal are left out, except as fields.
- Login is an oracle in the session helpers, so "login is not called" on the cached path is shown only by the result and the store not depending on it.
- SearchResults.LoadBuses: the mapped cards do not carry `pricePerDay` and the other sample-bus fields, which the live mapping also omits.
- BusService.ActiveBuses, BookingService.BookingsForOwner, BookingService.BookingsForUser: the included relations are not returned: the owner's user first and last name of each bus (`bus.service.js` lines 7-17), each booking's schedule with its bus and the customer's first name, last name and e-mail (`booking.service.js` lines 66-75), and each booking's schedule with its bus (`booking.service.js` lines 83-85). The models return the rows and their filtered schedules only. `listActiveBuses` has no `orderBy`, so the database may return the buses in any order; keeping table order is this model's choice.
- SearchResults.FilteredBuses: the budget is a parameter that is never consulted, as in the code.
