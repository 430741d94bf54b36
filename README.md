# RideHail conversation and ride lifecycle in Dafny

This project models the core of a WhatsApp ride-hailing bot (`app.py`). It has two parts:

- the `/sms` handler `sms_reply`, which answers one inbound message;
- the background run `simulate_ride_progress`, which drives an assigned ride to completion.

## What the handler does

Each inbound message updates the stored User and Ride rows and gets a reply. A pending booking step takes priority. A `ride_state` of awaiting_pickup, awaiting_destination or awaiting_ride_type is handled first. Otherwise the user's `state` decides:

- editing_profile: the profile-editing commands;
- registered: the command menu;
- any other state: the signup branch.

Commands are compared after `strip()` and `lower()`. The ride type is compared after `capitalize()`.

Assigning a driver draws a driver, a car, an ETA and a fare at random, and starts a lifecycle run for the user. That run moves the ride driver_assigned → driver_arrived → on_trip → completed. It sends one notification per step, then clears the user's `ride_state`.

## How the model is laid out

- `text.dfy` (`Text`): Python's `str.strip()`, `str.lower()`, `str.capitalize()`, and the f-string rendering of integers.
- `records.dfy` (`Records`): the User and Ride rows, plus the first-match queries (`.first()`) as `FindUser` and `FindRide`. It also holds:
  - the ride status graph;
  - a history of committed status writes;
  - the store invariant `Consistent`. It says keys are well formed, every write follows an edge from the status its ride had at that moment, and each ride's status is the replay of its writes.
- `conversation.dfy` (`Conversation`): one message turn as the pure function `Turn`, built from one function per branch of the handler. A turn yields an `Outcome`:
  - the tables it commits;
  - the Body elements of the reply;
  - the status writes it commits;
  - whether it starts a lifecycle run.

  Each Body element is a `Reply` value, and `Render` gives its exact text.
- `lifecycle.dfy` (`Lifecycle`): the lifecycle run as the pure function `Progress`. It yields the final tables, the notifications in order (`Notice`, with text from `NoticeText`) and the three status writes.
- `store.dfy` (`RideHail`): the running service as the class `Store`.
  - Its `users` and `rides` fields are updated in place.
  - Ghost logs record the status history, the sent notifications and the started lifecycle runs.
  - `HandleMessage` is proved to do exactly what `Turn` describes.
  - `SimulateRideProgress` is proved to do exactly what `Progress` describes, with one committed write at a time.
  - Both keep `Consistent`.
- `scenario.dfy` (`Scenarios`): sequences of messages (`Conduct`), and a complete booking followed by its lifecycle run.

## Model

| member | source | states |
|---|---|---|
| Text.StripSpec | app.py:77 | `strip()` returns the slice between the leading and the trailing whitespace. Everything dropped is whitespace, and the slice neither starts nor ends with whitespace. |
| Text.TrimStartSpec | app.py:77 | Dropping leading whitespace leaves a suffix that is empty or starts with a non-space, and everything dropped is space. |
| Text.TrimEndSpec | app.py:77 | Dropping trailing whitespace leaves a prefix that is empty or ends with a non-space, and everything dropped is space. |
| Text.Strip | app.py:77 | `str.strip()` with no argument: drops leading and trailing whitespace. What it returns is stated by `Text.StripSpec`. |
| Text.Lower | app.py:82 | `str.lower()` character by character. It keeps the length; `Text.LowerMatches` states when a text lower-cases to a command. |
| Text.Capitalize | app.py:126 | `str.capitalize()`: the first character in title case, the rest lower case. It keeps the length; `Text.CapitalizeMatchesLower` relates it to `lower()`. |
| Text.LowerMatches | app.py:82 | A text lower-cases to a command (a text with no capitals) exactly when it has the command's length and each character is the command's character, its ASCII capital, or the Kelvin sign for `k`. |
| Text.CapitalizeMatchesLower | app.py:126-127 | A capitalised word (such as Economy or Premium) equals `capitalize()` of a text exactly when the two agree after `lower()`. |
| Text.NatToStringRoundTrip | app.py:135 | The decimal rendering of a number parses back to the number. |
| Records.FindUser | app.py:83 | Returns the position of the first row with the phone number. It returns None exactly when no row has it. |
| Records.FindRide | app.py:129 | Returns the position of the first ride of the user with the status. It returns None exactly when there is none (the same query shape is at lines 46, 192 and 199). |
| Records.FindUserSamePhones | app.py:83 | For a phone number already present, rewriting rows or appending rows without changing the existing phone numbers leaves the user lookup unchanged. |
| Records.ReachableClosesEdges | app.py:51-63 | Reachability contains every status edge and raises the rank along it. It is transitive, no status is reachable out of a terminal one, and every step can be taken along an edge. |
| Records.ChainedMonotone | app.py:51-63 | Along a chained write history, each ride's status after any prefix reaches its status after the whole history. |
| Records.ChainedForward | app.py:51-201 | Every status a chained history produces is reachable from requested. A terminal status is never left. |
| Records.CommitStatus | app.py:51-52 | Committing one status write along an edge, with the ride's key and owner untouched, keeps the store invariant. |
| Conversation.Turn | app.py:74-220 | One `/sms` turn: the tables it commits, the reply, the status writes and the lifecycle start. The lemmas below state what it does in each state. |
| Conversation.Dispatch | app.py:93-214 | The turn for the user row at a given position, after the lookup or the insertion of lines 83-90. |
| Conversation.BookingStateTakesPriority | app.py:94-155 | In the three booking ride states the user's `state` plays no part. Any other `state` gives the same reply, writes, lifecycle start and tables, apart from that field itself. |
| Conversation.RideTypeCaseInsensitive | app.py:126-127 | The ride type is recognised exactly when the text equals "Economy" or "Premium" ignoring case. |
| Conversation.NewSenderWelcomedTwice | app.py:85-93 | An unknown sender gets two awaiting_name rows and two welcomes, and no ride or status changes. Later lookups find the first of the two rows. |
| Conversation.SignupStatesRestart | app.py:208-214 | A user outside the booking ride states whose state is neither registered nor editing_profile gets another awaiting_name row and a welcome. Their own row stays untouched and is still the one found. |
| Conversation.AwaitingPickupStoresLocation | app.py:95-105 | With both coordinates, they are stored on the user and the ride state becomes awaiting_destination. No ride is created and no other row changes. Without both coordinates the handler re-prompts and nothing changes. |
| Conversation.AwaitingDestinationCreatesRide | app.py:106-124 | With both coordinates, exactly one ride is appended: requested, no type, pickup from the stored user coordinates, destination from the message. The ride state becomes awaiting_ride_type. Without both coordinates the handler re-prompts and nothing changes. |
| Conversation.RideTypeAssignsDriver | app.py:125-150 | On a recognised type with a requested ride, the first such ride gets the type, a driver from {Alice, Bob, Charlie}, one of the two cars, an ETA in [2, 10] and a fare "$n" with n in [10, 50]. It becomes driver_assigned and its other fields keep their values. The user's ride state becomes ride_in_progress, one write is committed and one lifecycle run starts for the sender. |
| Conversation.TurnAssignsDriver | app.py:125-150 | The turn of a recognised type with a requested ride is the driver assignment on the first requested ride. |
| Conversation.RideTypeRejects | app.py:151-154 | An unrecognised type gets the invalid-type reply. A recognised type without a requested ride gets the error reply. Neither changes any row. |
| Conversation.EditingProfileCommands | app.py:157-171 | "update name", "update contact" and "cancel" set the state to updating_name, updating_contact and registered. Any other text changes nothing and gets the invalid-command reply. |
| Conversation.RegisteredCommands | app.py:172-207 | "edit profile" enters editing_profile and "book ride" sets the ride state to awaiting_pickup. "help" and unknown text change nothing. Only "cancel ride" can touch a ride or start anything. |
| Conversation.RideStatusReportsEta | app.py:191-196 | "ride status" changes nothing. It reports the ETA of the first driver_assigned ride, and replies "no ongoing rides" exactly when there is none. |
| Conversation.CancelRide | app.py:197-205 | With a requested ride, that ride becomes canceled, the ride state is cleared and one write is committed. Without one, nothing is persisted. |
| Conversation.TurnMovesStatusForward | app.py:95-214 | Every turn makes at most one status write, along an edge, from the ride's current status. New rides start requested. No other ride's status, key, owner or locations change, and driver fields change only on a requested ride. |
| Conversation.TurnKeepsWellformed | app.py:85-214 | Every turn keeps the keys well formed and leaves existing ids and phone numbers unchanged. |
| Conversation.TurnKeepsConsistent | app.py:74-220 | Every turn keeps the store invariant, with its writes appended to the history. |
| Lifecycle.Progress | app.py:43-73 | One lifecycle run: the tables it leaves, the notifications and the status writes in order. `ProgressCompletesRide`, `ProgressWithoutRideIsSilent` and `ProgressKeepsConsistent` state what it does. |
| Lifecycle.ProgressCompletesRide | app.py:43-73 | With a driver_assigned ride, the first such ride ends completed with the new timestamp and the user's ride state is cleared. Exactly three notifications go to the user: arrival, trip start, completion with the fare. Three writes are made along consecutive edges, and nothing else changes. |
| Lifecycle.ProgressWithoutRideIsSilent | app.py:45-48 | Without a user or without a driver_assigned ride, the run changes nothing and sends nothing. |
| Lifecycle.ProgressKeepsConsistent | app.py:50-71 | The run keeps the store invariant, with its three writes appended to the history. |
| RideHail.Store.constructor | app.py:19-26 | An empty store satisfies the invariant, with empty logs. |
| RideHail.Store.HandleMessage | app.py:74-220 | Handling a message commits exactly the tables, writes and lifecycle start of `Turn` and returns its reply. Nothing is sent, and the invariant is kept. |
| RideHail.Store.DispatchUser | app.py:93-214 | Updates the tables in place exactly as `Dispatch` describes, returns its reply, records its writes and lifecycle start, and sends nothing. |
| RideHail.Store.HandlePickup | app.py:95-105 | Updates the tables in place exactly as `PickupTurn` describes and returns its reply. |
| RideHail.Store.HandleDestination | app.py:106-124 | Appends the ride and updates the user in place exactly as `DestinationTurn` describes, and returns its reply. |
| RideHail.Store.HandleRideType | app.py:125-154 | Updates the ride and the user in place, records the write and the lifecycle start, exactly as `RideTypeTurn` describes, and returns its reply. |
| RideHail.Store.HandleProfileCommand | app.py:157-171 | Updates the user in place exactly as `ProfileTurn` describes and returns its reply. |
| RideHail.Store.HandleCommand | app.py:172-207 | Updates the tables in place and records the write exactly as `CommandTurn` describes, and returns its reply. |
| RideHail.Store.RestartSignup | app.py:208-214 | Appends an awaiting_name row exactly as `SignupTurn` describes and returns the welcome. |
| RideHail.Store.SimulateRideProgress | app.py:43-73 | The run leaves exactly the tables of `Progress`, sends its notifications and appends its writes. It starts nothing, and the invariant is kept. |
| RideHail.Store.CompleteRide | app.py:50-73 | After the three in-place status commits and the cleared ride state, the tables, the history and the outbox are exactly those `Progress` describes, and the invariant holds. |
| RideHail.Store.CommitRide | app.py:51-52 | One in-place status commit along an edge updates exactly that ride, records the write and keeps the invariant. |
| Scenarios.BookingTranscript | app.py:95-190 | "book ride", a pickup, a destination and "Economy", followed by any further messages: the booking contributes the three prompts and the confirmation to the replies, one requested → driver_assigned write and one lifecycle start, ahead of what the later messages produce. |
| Scenarios.BookingRunsToCompletion | app.py:43-190 | "book ride", a pickup, a destination and "Economy" (in any case and padding) from a registered user produce the three prompts and the confirmation. One ride is added and assigned in one write, and one lifecycle run starts. That run, at its own later time, completes the ride with the three notifications, stamps it with that time and clears the ride state. Earlier rides are untouched. |

## Left out

- Flask routing and the TwiML response object: the handler takes the parsed message as parameters and returns the list of Body elements. Each element is a `Reply` whose text `Render` gives.
- The Twilio client: `send_message` appends a (recipient, notice) pair to the ghost `outbox`. Nothing is transmitted.
- SQLAlchemy engines and sessions: the store is two in-memory sequences. A committed assignment is a persisted one, and a branch that never commits changes nothing.
- In the model, `send_message` and `session.commit()` never fail. In the source, a raise from either ends the lifecycle thread or the request after the commits already made. A failed send at line 53, 59 or 67 leaves the ride at driver_arrived or on_trip, or completed with `ride_state` never cleared. The lifecycle lemmas and `SimulateRideProgress` describe only the run in which every send succeeds.
- models.py is not part of this model. The model assumes `phone_number` carries no unique constraint, so the second insert at lines 211-213 succeeds as `NewSenderWelcomedTwice` and `SignupStatesRestart` state. With a unique constraint that commit would raise.
- Threads and `time.sleep`: the handler records only that a lifecycle run was started (the ghost `started` log). The run is modelled as its own sequential method, not interleaved with other requests.
- `random.choice` and `random.randint`: the drawn values arrive as an `Offer`. `HandleMessage` requires it to lie in the source's ranges.
- `datetime.now()` is a `Time` parameter. The `config(...)` reads are not modelled.
- Store.SimulateRideProgress: a missing user makes the source raise at line 46 before anything is written. The model changes nothing in that case.
- Onboarding (name, role and emergency-contact steps): that code is not in `app.py`. The signup branch at lines 208-214 is modelled as written.
- Text.Lower: covers only the characters whose lower case is ASCII (A-Z and the Kelvin sign). Other characters keep their case, so no non-ASCII text can match an ASCII command either way.
- Text.Capitalize: title-cases only a-z.
- Row ids are positions plus one (autoincrement), and `.first()` is insertion order.
- The intermediate commit between lines 137 and 139 is not observed separately. The turn commits both changes together.
- No invariant ties `ride_state` to "the user has exactly one active ride", because the code does not keep one. After "book ride" the ride state is awaiting_pickup before any ride exists. A user whose ride is driver_assigned (ride state ride_in_progress) can send "book ride" again and hold two active rides.
- Scenarios.Conduct: every message of a sequence is handled with the same `Offer` and the same time. The lifecycle run after a booking takes its own time.
