/** One inbound message turn of the `/sms` handler (app.py `sms_reply`) as a
    pure function of the stored tables and the parsed message. */
module Conversation {
  import opened Text
  import opened Records

  /** The parsed request: `From`, `Body` (empty when absent) and the optional
      `Latitude` / `Longitude` values. */
  datatype Message = Message(sender: string, body: string, latitude: Option<string>, longitude: Option<string>)

  /** The values drawn at random when a driver is assigned. */
  datatype Offer = Offer(driver: string, car: string, eta: int, fare: int)

  const Drivers: seq<string> := ["Alice", "Bob", "Charlie"]
  const Cars: seq<string> := ["Toyota Camry - XYZ123", "Honda Accord - ABC789"]

  /** The ranges of `random.choice` and `random.randint` at app.py:132-135. */
  predicate ValidOffer(o: Offer) {
    o.driver in Drivers && o.car in Cars && 2 <= o.eta <= 10 && 10 <= o.fare <= 50
  }

  /** What a turn does: the tables it commits, the Body elements of the
      reply, the status writes it commits, and the phone number for which it
      starts a ride lifecycle run. */
  datatype Outcome = Outcome(db: Db, reply: seq<Reply>, writes: seq<StatusWrite>, spawn: Option<string>)

  /** The lifecycle runs a step starts: none, or one for the phone number. */
  function Spawned(spawn: Option<string>): seq<string> {
    match spawn
    case Some(phone) => [phone]
    case None => []
  }

  /** The Body elements a turn replies with; `Render` gives each its text. */
  datatype Reply =
    | Welcome | LocationReceived | SharePickup | DestinationReceived | ShareDestination
    | RideError | InvalidRideType | NewNamePrompt | NewContactPrompt | EditCanceled
    | InvalidEditCommand | HelpText | EditMode | BookPrompt | NoOngoingRides
    | RideCanceled | NothingToCancel | HelpHint
    | DriverOnTheWay(arrival: Option<int>)
    | Confirmation(rideType: RideType, driver: string, car: string, minutes: int, fare: string)

  /** The text of each reply, as the handler writes it. */
  function Render(r: Reply): string {
    match r
    case Welcome => "Welcome to Ride-Hailing App! Please enter your full name:"
    case LocationReceived => "Location received. Please share your destination location."
    case SharePickup => "Please share your current location using the location feature."
    case DestinationReceived => "Destination received. What type of ride would you like? (Economy, Premium)"
    case ShareDestination => "Please share your destination location using the location feature."
    case RideError => "An error occurred while processing your ride. Please try again."
    case InvalidRideType => "Invalid ride type. Please choose 'Economy' or 'Premium'."
    case NewNamePrompt => "Please enter your new full name:"
    case NewContactPrompt => "Please enter your new emergency contact number:"
    case EditCanceled => "Profile editing canceled. How can we assist you today?"
    case InvalidEditCommand => "Invalid command. Send 'UPDATE NAME', 'UPDATE CONTACT', or 'CANCEL'."
    case HelpText => "Available commands:\n- EDIT PROFILE\n- BOOK RIDE\n- RIDE STATUS\n- CANCEL RIDE\n- HELP"
    case EditMode => "You're now in profile editing mode.\nSend 'UPDATE NAME', 'UPDATE CONTACT', or 'CANCEL' to exit."
    case BookPrompt => "Please share your current location using WhatsApp's location feature."
    case NoOngoingRides => "You have no ongoing rides."
    case RideCanceled => "Your ride has been canceled."
    case NothingToCancel => "You have no rides to cancel."
    case HelpHint => "Send 'HELP' for a list of available commands."
    case DriverOnTheWay(eta) => "Your driver is on the way! ETA: " + FormatInt(eta) + " minutes."
    case Confirmation(t, driver, car, eta, fare) =>
      "Your " + RideTypeName(t) + " ride is confirmed!\n"
      + "Driver: " + driver + "\n"
      + "Car: " + car + "\n"
      + "ETA: " + IntToString(eta) + " minutes\n"
      + "Fare Estimate: " + fare + "\n"
      + "You'll receive updates as your driver approaches."
  }

  /** `f"{latitude},{longitude}"`. */
  function FormatLocation(latitude: Option<string>, longitude: Option<string>): string {
    FormatField(latitude) + "," + FormatField(longitude)
  }

  function FormatInt(v: Option<int>): string {
    match v
    case Some(n) => IntToString(n)
    case None => "None"
  }

  function RideTypeName(t: RideType): string {
    match t
    case Economy => "Economy"
    case Premium => "Premium"
  }

  /** `f"${fare}"`. */
  function FareText(fare: int): string {
    "$" + IntToString(fare)
  }

  /** `incoming_msg.capitalize()` looked up in `['Economy', 'Premium']`. */
  function ParseRideType(text: string): Option<RideType> {
    if Capitalize(text) == "Economy" then Some(Economy)
    else if Capitalize(text) == "Premium" then Some(Premium)
    else None
  }

  /** The row `User(phone_number = phone, state = 'awaiting_name')`. */
  function NewUser(id: nat, phone: string): User {
    User(id, phone, AwaitingName, None, None, None)
  }

  function AddUser(db: Db, phone: string): Db {
    db.(users := db.users + [NewUser(|db.users| + 1, phone)])
  }

  function SetUser(db: Db, i: nat, u: User): Db
    requires i < |db.users|
  {
    db.(users := db.users[i := u])
  }

  function Unchanged(db: Db, reply: Reply): Outcome {
    Outcome(db, [reply], [], None)
  }

  /** app.py:95-105. */
  function PickupTurn(db: Db, i: nat, m: Message): Outcome
    requires i < |db.users|
  {
    var u := db.users[i];
    if m.latitude.Some? && m.longitude.Some? then
      var u' := u.(latitude := m.latitude, longitude := m.longitude, rideState := Some(AwaitingDestination));
      Outcome(SetUser(db, i, u'), [LocationReceived], [], None)
    else
      Unchanged(db, SharePickup)
  }

  /** app.py:106-124. */
  function DestinationTurn(db: Db, i: nat, m: Message, now: Time): Outcome
    requires i < |db.users|
  {
    var u := db.users[i];
    if m.latitude.Some? && m.longitude.Some? then
      var ride := Ride(|db.rides| + 1, u.id, FormatLocation(u.latitude, u.longitude),
                       FormatLocation(m.latitude, m.longitude), None, Requested, None, None, None, None, now);
      var u' := u.(rideState := Some(AwaitingRideType));
      Outcome(Db(db.users[i := u'], db.rides + [ride]), [DestinationReceived], [], None)
    else
      Unchanged(db, ShareDestination)
  }

  /** app.py:131-150: the first requested ride `k` gets the type and the
      drawn driver, car, ETA and fare and becomes driver_assigned; the user's
      ride state becomes ride_in_progress and a lifecycle run starts. */
  function AssignDriver(db: Db, i: nat, k: nat, t: RideType, offer: Offer): Outcome
    requires i < |db.users| && k < |db.rides|
  {
    var u := db.users[i];
    var fare := FareText(offer.fare);
    var ride := db.rides[k].(rideType := Some(t), driverName := Some(offer.driver), carDetails := Some(offer.car),
                             estimatedArrival := Some(offer.eta), fareEstimate := Some(fare), status := DriverAssigned);
    Outcome(Db(db.users[i := u.(rideState := Some(RideInProgress))], db.rides[k := ride]),
            [Confirmation(t, offer.driver, offer.car, offer.eta, fare)],
            [StatusWrite(k, Requested, DriverAssigned)], Some(u.phone))
  }

  /** app.py:125-154. */
  function RideTypeTurn(db: Db, i: nat, text: string, offer: Offer): Outcome
    requires i < |db.users|
  {
    match ParseRideType(text)
    case None => Unchanged(db, InvalidRideType)
    case Some(t) =>
      match FindRide(db.rides, db.users[i].id, Requested)
      case None => Unchanged(db, RideError)
      case Some(k) => AssignDriver(db, i, k, t, offer)
  }

  /** app.py:157-171. */
  function ProfileTurn(db: Db, i: nat, command: string): Outcome
    requires i < |db.users|
  {
    var u := db.users[i];
    if command == "update name" then Outcome(SetUser(db, i, u.(state := UpdatingName)), [NewNamePrompt], [], None)
    else if command == "update contact" then Outcome(SetUser(db, i, u.(state := UpdatingContact)), [NewContactPrompt], [], None)
    else if command == "cancel" then Outcome(SetUser(db, i, u.(state := Registered)), [EditCanceled], [], None)
    else Unchanged(db, InvalidEditCommand)
  }

  /** app.py:172-207. Without a requested ride the `ride_state = None` of
      line 198 is never committed, so nothing changes. */
  function CommandTurn(db: Db, i: nat, command: string): Outcome
    requires i < |db.users|
  {
    var u := db.users[i];
    if command == "help" then Unchanged(db, HelpText)
    else if command == "edit profile" then Outcome(SetUser(db, i, u.(state := EditingProfile)), [EditMode], [], None)
    else if command == "book ride" then Outcome(SetUser(db, i, u.(rideState := Some(AwaitingPickup))), [BookPrompt], [], None)
    else if command == "ride status" then
      match FindRide(db.rides, u.id, DriverAssigned)
      case Some(k) => Unchanged(db, DriverOnTheWay(db.rides[k].estimatedArrival))
      case None => Unchanged(db, NoOngoingRides)
    else if command == "cancel ride" then
      match FindRide(db.rides, u.id, Requested)
      case Some(k) => CancelAt(db, i, k)
      case None => Unchanged(db, NothingToCancel)
    else Unchanged(db, HelpHint)
  }

  /** app.py:199-202: ride `k` becomes canceled and the user's ride state is cleared. */
  function CancelAt(db: Db, i: nat, k: nat): Outcome
    requires i < |db.users| && k < |db.rides|
  {
    Outcome(Db(db.users[i := db.users[i].(rideState := None)], db.rides[k := db.rides[k].(status := Canceled)]),
            [RideCanceled], [StatusWrite(k, Requested, Canceled)], None)
  }

  /** app.py:208-214: every other state adds a fresh awaiting_name row. */
  function SignupTurn(db: Db, phone: string): Outcome {
    Outcome(AddUser(db, phone), [Welcome], [], None)
  }

  /** app.py:93-214 for the user at position `i`: a booking ride state takes
      priority, then `state` decides. */
  function Dispatch(db: Db, i: nat, m: Message, offer: Offer, now: Time): Outcome
    requires i < |db.users|
  {
    var u := db.users[i];
    var text := Strip(m.body);
    if u.rideState == Some(AwaitingPickup) then PickupTurn(db, i, m)
    else if u.rideState == Some(AwaitingDestination) then DestinationTurn(db, i, m, now)
    else if u.rideState == Some(AwaitingRideType) then RideTypeTurn(db, i, text, offer)
    else if u.state == EditingProfile then ProfileTurn(db, i, Lower(text))
    else if u.state == Registered then CommandTurn(db, i, Lower(text))
    else SignupTurn(db, m.sender)
  }

  /** app.py:75-220: the whole turn. An unknown sender is added with a
      welcome, and the freshly added row is then dispatched like any other
      (the `if user:` of line 93). */
  function Turn(db: Db, m: Message, offer: Offer, now: Time): Outcome {
    match FindUser(db.users, m.sender)
    case Some(i) => Dispatch(db, i, m, offer, now)
    case None =>
      var r := Dispatch(AddUser(db, m.sender), |db.users|, m, offer, now);
      r.(reply := [Welcome] + r.reply)
  }

  /** The handler reaches the state dispatch only outside the three booking
      ride states. */
  predicate CommandMode(u: User) {
    u.rideState == None || u.rideState == Some(RideInProgress)
  }

  /** A known sender's turn is the dispatch on their first row. */
  lemma TurnKnown(db: Db, m: Message, offer: Offer, now: Time, i: nat)
    requires FindUser(db.users, m.sender) == Some(i)
    ensures Turn(db, m, offer, now) == Dispatch(db, i, m, offer, now)
  {
  }

  /** An unknown sender is added first and welcomed in front of the dispatch
      on the new row. */
  lemma TurnUnknown(db: Db, m: Message, offer: Offer, now: Time)
    requires FindUser(db.users, m.sender) == None
    ensures var r := Dispatch(AddUser(db, m.sender), |db.users|, m, offer, now);
      Turn(db, m, offer, now) == r.(reply := [Welcome] + r.reply)
  {
  }

  /** app.py:95-214: the three booking ride states are looked at first, in
      that order, and only then the conversation state, on the stripped body
      (lower-cased for the commands). */
  lemma DispatchRoutes(db: Db, i: nat, m: Message, offer: Offer, now: Time)
    requires i < |db.users|
    ensures var u := db.users[i]; var r := Dispatch(db, i, m, offer, now); var text := Strip(m.body);
      && (u.rideState == Some(AwaitingPickup) ==> r == PickupTurn(db, i, m))
      && (u.rideState == Some(AwaitingDestination) ==> r == DestinationTurn(db, i, m, now))
      && (u.rideState == Some(AwaitingRideType) ==> r == RideTypeTurn(db, i, text, offer))
      && (CommandMode(u) && u.state == EditingProfile ==> r == ProfileTurn(db, i, Lower(text)))
      && (CommandMode(u) && u.state == Registered ==> r == CommandTurn(db, i, Lower(text)))
      && (CommandMode(u) && u.state != EditingProfile && u.state != Registered ==> r == SignupTurn(db, m.sender))
  {
  }

  // ---------------------------------------------------------------------
  // Properties of one turn

  /** A pending booking step takes priority over the conversation state: in
      the three booking ride states the turn is the same whatever `state`
      the user is in, except for that field itself. */
  lemma BookingStateTakesPriority(db: Db, m: Message, offer: Offer, now: Time, i: nat, s: ConversationState)
    requires FindUser(db.users, m.sender) == Some(i)
    requires db.users[i].rideState in {Some(AwaitingPickup), Some(AwaitingDestination), Some(AwaitingRideType)}
    ensures var r := Turn(db, m, offer, now);
      var r' := Turn(SetUser(db, i, db.users[i].(state := s)), m, offer, now);
      && r'.reply == r.reply && r'.writes == r.writes && r'.spawn == r.spawn
      && |r.db.users| == |db.users|
      && r'.db == SetUser(r.db, i, r.db.users[i].(state := s))
  {
    var db' := SetUser(db, i, db.users[i].(state := s));
    FindUserSamePhones(db.users, db'.users, m.sender);
    TurnKnown(db, m, offer, now, i);
    TurnKnown(db', m, offer, now, i);
    DispatchRoutes(db, i, m, offer, now);
    DispatchRoutes(db', i, m, offer, now);
  }

  /** The ride type is recognised case-insensitively. */
  lemma RideTypeCaseInsensitive(text: string, t: RideType)
    ensures ParseRideType(text) == Some(t) <==> Lower(text) == Lower(RideTypeName(t))
  {
    assert CapitalWord("Economy") && CapitalWord("Premium");
    CapitalizeMatchesLower(text, "Economy");
    CapitalizeMatchesLower(text, "Premium");
    assert Lower("Economy") == "economy";
    assert Lower("Premium") == "premium";
  }

  /** An unknown sender gets two awaiting_name rows and two welcomes, and
      later lookups find the first of them. */
  lemma NewSenderWelcomedTwice(db: Db, m: Message, offer: Offer, now: Time)
    requires FindUser(db.users, m.sender) == None
    ensures var r := Turn(db, m, offer, now);
      && r.db.rides == db.rides
      && r.db.users == db.users + [NewUser(|db.users| + 1, m.sender), NewUser(|db.users| + 2, m.sender)]
      && r.reply == [Welcome, Welcome] && r.writes == [] && r.spawn == None
      && FindUser(r.db.users, m.sender) == Some(|db.users|)
  {
    TurnUnknown(db, m, offer, now);
    DispatchRoutes(AddUser(db, m.sender), |db.users|, m, offer, now);
    var r := Turn(db, m, offer, now);
    assert r.db.users[|db.users|].phone == m.sender;
  }

  /** A user in any state other than registered or editing_profile, outside
      the booking ride states, never moves on: the turn appends another
      awaiting_name row, welcomes again, and the next lookup still finds the
      same untouched row. */
  lemma SignupStatesRestart(db: Db, m: Message, offer: Offer, now: Time, i: nat)
    requires FindUser(db.users, m.sender) == Some(i)
    requires CommandMode(db.users[i]) && db.users[i].state != Registered && db.users[i].state != EditingProfile
    ensures var r := Turn(db, m, offer, now);
      && r.db.rides == db.rides && r.writes == [] && r.spawn == None
      && r.db.users == db.users + [NewUser(|db.users| + 1, m.sender)]
      && r.reply == [Welcome]
      && FindUser(r.db.users, m.sender) == Some(i) && r.db.users[i] == db.users[i]
  {
    TurnKnown(db, m, offer, now, i);
    DispatchRoutes(db, i, m, offer, now);
    var r := Turn(db, m, offer, now);
    FindUserSamePhones(db.users, r.db.users, m.sender);
  }

  /** awaiting_pickup: a location is stored on the user and the ride state
      moves to awaiting_destination, with no ride created; anything else
      re-prompts and changes nothing. */
  lemma AwaitingPickupStoresLocation(db: Db, m: Message, offer: Offer, now: Time, i: nat)
    requires FindUser(db.users, m.sender) == Some(i) && db.users[i].rideState == Some(AwaitingPickup)
    ensures var r := Turn(db, m, offer, now);
      && r.db.rides == db.rides && r.writes == [] && r.spawn == None
      && if m.latitude.Some? && m.longitude.Some? then
           && |r.db.users| == |db.users|
           && (forall j | 0 <= j < |db.users| && j != i :: r.db.users[j] == db.users[j])
           && r.db.users[i] == db.users[i].(latitude := m.latitude, longitude := m.longitude,
                                            rideState := Some(AwaitingDestination))
           && r.reply == [LocationReceived]
         else r.db == db && r.reply == [SharePickup]
  {
    TurnKnown(db, m, offer, now, i);
    DispatchRoutes(db, i, m, offer, now);
  }

  /** awaiting_destination: a location adds exactly one requested ride, from
      the stored pickup to the sent destination, and the ride state moves to
      awaiting_ride_type; anything else re-prompts and changes nothing. */
  lemma AwaitingDestinationCreatesRide(db: Db, m: Message, offer: Offer, now: Time, i: nat)
    requires FindUser(db.users, m.sender) == Some(i) && db.users[i].rideState == Some(AwaitingDestination)
    ensures var r := Turn(db, m, offer, now); var u := db.users[i];
      && r.writes == [] && r.spawn == None
      && if m.latitude.Some? && m.longitude.Some? then
           && |r.db.rides| == |db.rides| + 1 && r.db.rides[..|db.rides|] == db.rides
           && var ride := r.db.rides[|db.rides|];
           && ride.userId == u.id && ride.status == Requested && ride.rideType == None
           && ride.pickup == FormatLocation(u.latitude, u.longitude)
           && ride.destination == FormatLocation(m.latitude, m.longitude)
           && ride.driverName == None && ride.fareEstimate == None && ride.timestamp == now
           && |r.db.users| == |db.users|
           && (forall j | 0 <= j < |db.users| && j != i :: r.db.users[j] == db.users[j])
           && r.db.users[i] == u.(rideState := Some(AwaitingRideType))
           && r.reply == [DestinationReceived]
         else r.db == db && r.reply == [ShareDestination]
  {
    TurnKnown(db, m, offer, now, i);
    DispatchRoutes(db, i, m, offer, now);
    var r := Turn(db, m, offer, now);
    if m.latitude.Some? && m.longitude.Some? {
      assert r.db.rides[..|db.rides|] == db.rides;
    }
  }

  /** awaiting_ride_type with a recognised type and a requested ride: the
      first requested ride of the user gets the type, a driver, car, ETA and
      fare from the listed ranges and becomes driver_assigned; the user's
      ride state becomes ride_in_progress and one lifecycle run is started. */
  lemma RideTypeAssignsDriver(db: Db, m: Message, offer: Offer, now: Time, i: nat, t: RideType, k: nat)
    requires FindUser(db.users, m.sender) == Some(i) && db.users[i].rideState == Some(AwaitingRideType)
    requires Lower(Strip(m.body)) == Lower(RideTypeName(t))
    requires FindRide(db.rides, db.users[i].id, Requested) == Some(k)
    requires ValidOffer(offer)
    ensures var r := Turn(db, m, offer, now); var before := db.rides[k];
      && |r.db.rides| == |db.rides| && |r.db.users| == |db.users|
      && (forall j | 0 <= j < |db.rides| && j != k :: r.db.rides[j] == db.rides[j])
      && (var ride := r.db.rides[k];
          && ride.rideType == Some(t) && ride.status == DriverAssigned
          && ride.driverName.Some? && ride.driverName.value in Drivers
          && ride.carDetails.Some? && ride.carDetails.value in Cars
          && ride.estimatedArrival.Some? && 2 <= ride.estimatedArrival.value <= 10
          && ride.fareEstimate == Some(FareText(offer.fare)) && 10 <= offer.fare <= 50
          && ride.(rideType := before.rideType, status := before.status, driverName := before.driverName,
                   carDetails := before.carDetails, estimatedArrival := before.estimatedArrival,
                   fareEstimate := before.fareEstimate) == before)
      && (forall j | 0 <= j < |db.users| && j != i :: r.db.users[j] == db.users[j])
      && r.db.users[i] == db.users[i].(rideState := Some(RideInProgress))
      && r.writes == [StatusWrite(k, Requested, DriverAssigned)]
      && r.spawn == Some(m.sender)
  {
    TurnAssignsDriver(db, m, offer, now, i, t, k);
    var r := AssignDriver(db, i, k, t, offer);
    assert r.db.users[i] == db.users[i].(rideState := Some(RideInProgress));
  }

  /** The turn of a recognised type with a requested ride is `AssignDriver`. */
  lemma TurnAssignsDriver(db: Db, m: Message, offer: Offer, now: Time, i: nat, t: RideType, k: nat)
    requires FindUser(db.users, m.sender) == Some(i) && db.users[i].rideState == Some(AwaitingRideType)
    requires Lower(Strip(m.body)) == Lower(RideTypeName(t))
    requires FindRide(db.rides, db.users[i].id, Requested) == Some(k)
    ensures Turn(db, m, offer, now) == AssignDriver(db, i, k, t, offer)
  {
    RideTypeCaseInsensitive(Strip(m.body), t);
    TurnKnown(db, m, offer, now, i);
    DispatchRoutes(db, i, m, offer, now);

  }

  /** awaiting_ride_type otherwise: an unrecognised type gets the invalid
      ride type reply, a recognised one without a requested ride the error
      reply; neither changes any row. */
  lemma RideTypeRejects(db: Db, m: Message, offer: Offer, now: Time, i: nat)
    requires FindUser(db.users, m.sender) == Some(i) && db.users[i].rideState == Some(AwaitingRideType)
    requires ParseRideType(Strip(m.body)).None? || FindRide(db.rides, db.users[i].id, Requested).None?
    ensures var r := Turn(db, m, offer, now);
      && r.db == db && r.writes == [] && r.spawn == None
      && r.reply == if (forall t :: Lower(Strip(m.body)) != Lower(RideTypeName(t))) then [InvalidRideType] else [RideError]
  {
    TurnKnown(db, m, offer, now, i);
    DispatchRoutes(db, i, m, offer, now);
    var text := Strip(m.body);
    RideTypeCaseInsensitive(text, Economy);
    RideTypeCaseInsensitive(text, Premium);
  }

  /** editing_profile: the three commands move to updating_name,
      updating_contact or registered, and any other text changes nothing. */
  lemma EditingProfileCommands(db: Db, m: Message, offer: Offer, now: Time, i: nat)
    requires FindUser(db.users, m.sender) == Some(i)
    requires CommandMode(db.users[i]) && db.users[i].state == EditingProfile
    ensures var r := Turn(db, m, offer, now); var c := Lower(Strip(m.body)); var u := db.users[i];
      && r.db.rides == db.rides && r.writes == [] && r.spawn == None
      && (c == "update name" ==> r.db.users == db.users[i := u.(state := UpdatingName)] && r.reply == [NewNamePrompt])
      && (c == "update contact" ==> r.db.users == db.users[i := u.(state := UpdatingContact)] && r.reply == [NewContactPrompt])
      && (c == "cancel" ==> r.db.users == db.users[i := u.(state := Registered)] && r.reply == [EditCanceled])
      && (c !in {"update name", "update contact", "cancel"} ==> r.db == db && r.reply == [InvalidEditCommand])
  {
    TurnKnown(db, m, offer, now, i);
    DispatchRoutes(db, i, m, offer, now);
  }

  /** registered: "edit profile" enters editing_profile, "book ride" sets the
      ride state to awaiting_pickup, and "help" or unknown text changes
      nothing. */
  lemma RegisteredCommands(db: Db, m: Message, offer: Offer, now: Time, i: nat)
    requires FindUser(db.users, m.sender) == Some(i)
    requires CommandMode(db.users[i]) && db.users[i].state == Registered
    ensures var r := Turn(db, m, offer, now); var c := Lower(Strip(m.body)); var u := db.users[i];
      && (c != "cancel ride" ==>
            r.db.rides == db.rides && r.writes == [] && r.spawn == None)
      && (c == "edit profile" ==> r.db.users == db.users[i := u.(state := EditingProfile)] && r.reply == [EditMode])
      && (c == "book ride" ==> r.db.users == db.users[i := u.(rideState := Some(AwaitingPickup))] && r.reply == [BookPrompt])
      && (c == "help" ==> r.db == db && r.reply == [HelpText])
      && (c !in {"help", "edit profile", "book ride", "ride status", "cancel ride"} ==>
            r.db == db && r.reply == [HelpHint])
  {
    TurnKnown(db, m, offer, now, i);
    DispatchRoutes(db, i, m, offer, now);
    CommandTurnAnswers(db, i, Lower(Strip(m.body)));
  }

  lemma CommandTurnAnswers(db: Db, i: nat, c: string)
    requires i < |db.users|
    ensures var r := CommandTurn(db, i, c); var u := db.users[i];
      && (c != "cancel ride" ==>
            r.db.rides == db.rides && r.writes == [] && r.spawn == None)
      && (c == "edit profile" ==> r.db.users == db.users[i := u.(state := EditingProfile)] && r.reply == [EditMode])
      && (c == "book ride" ==> r.db.users == db.users[i := u.(rideState := Some(AwaitingPickup))] && r.reply == [BookPrompt])
      && (c == "help" ==> r.db == db && r.reply == [HelpText])
      && (c !in {"help", "edit profile", "book ride", "ride status", "cancel ride"} ==>
            r.db == db && r.reply == [HelpHint])
  {
  }

  /** "ride status" changes nothing; it reports the ETA of the user's first
      driver_assigned ride, and "no ongoing rides" exactly when there is none. */
  lemma RideStatusReportsEta(db: Db, m: Message, offer: Offer, now: Time, i: nat)
    requires FindUser(db.users, m.sender) == Some(i)
    requires CommandMode(db.users[i]) && db.users[i].state == Registered
    requires Lower(Strip(m.body)) == "ride status"
    ensures var r := Turn(db, m, offer, now); var found := FindRide(db.rides, db.users[i].id, DriverAssigned);
      && r.db == db && r.writes == [] && r.spawn == None
      && (found.Some? ==> r.reply == [DriverOnTheWay(db.rides[found.value].estimatedArrival)])
      && (r.reply == [NoOngoingRides] <==> found.None?)
  {
    TurnKnown(db, m, offer, now, i);
    DispatchRoutes(db, i, m, offer, now);
  }

  /** "cancel ride" cancels the user's first requested ride and clears the
      ride state; with no requested ride nothing is persisted. */
  lemma CancelRide(db: Db, m: Message, offer: Offer, now: Time, i: nat)
    requires FindUser(db.users, m.sender) == Some(i)
    requires CommandMode(db.users[i]) && db.users[i].state == Registered
    requires Lower(Strip(m.body)) == "cancel ride"
    ensures var r := Turn(db, m, offer, now); var uid := db.users[i].id;
      && r.spawn == None
      && match FindRide(db.rides, uid, Requested)
         case Some(k) =>
           && r.db.users == db.users[i := db.users[i].(rideState := None)]
           && r.db.rides == db.rides[k := db.rides[k].(status := Canceled)]
           && r.writes == [StatusWrite(k, Requested, Canceled)]
           && r.reply == [RideCanceled]
         case None =>
           r.db == db && r.writes == [] && r.reply == [NothingToCancel]
  {
    TurnKnown(db, m, offer, now, i);
    DispatchRoutes(db, i, m, offer, now);
  }

  /** The status discipline of one turn from `db` to `r`: at most one
      write, along an edge of the status graph from the ride's current
      status; every other ride keeps its status; new rides start requested;
      pickup, destination and owner never change, and the driver fields
      change only on the requested -> driver_assigned write. */
  predicate MovesForward(db: Db, r: Outcome) {
    && |r.db.rides| >= |db.rides| && |r.writes| <= 1
    && (forall w | w in r.writes :: w.ride < |db.rides| && w.from == db.rides[w.ride].status
          && Edge(w.from, w.to) && r.db.rides[w.ride].status == w.to)
    && (forall k | 0 <= k < |db.rides| && (forall w | w in r.writes :: w.ride != k)
          :: r.db.rides[k].status == db.rides[k].status)
    && (forall k | |db.rides| <= k < |r.db.rides| :: r.db.rides[k].status == Requested)
    && (forall k | 0 <= k < |db.rides| ::
          && r.db.rides[k].id == db.rides[k].id && r.db.rides[k].userId == db.rides[k].userId
          && r.db.rides[k].pickup == db.rides[k].pickup
          && r.db.rides[k].destination == db.rides[k].destination)
    && (forall k | 0 <= k < |db.rides| && db.rides[k].status != Requested ::
          && r.db.rides[k].driverName == db.rides[k].driverName
          && r.db.rides[k].carDetails == db.rides[k].carDetails
          && r.db.rides[k].estimatedArrival == db.rides[k].estimatedArrival
          && r.db.rides[k].fareEstimate == db.rides[k].fareEstimate)
  }

  /** Keys stay well formed and existing rows keep their id and phone number. */
  predicate KeepsKeys(db: Db, r: Outcome) {
    && Wellformed(r.db) && |r.db.users| >= |db.users|
    && (forall j | 0 <= j < |db.users| :: r.db.users[j].id == db.users[j].id && r.db.users[j].phone == db.users[j].phone)
  }

  /** A branch's effect on the tables is sound when it moves statuses
      forward and, from well-formed keys, keeps them well formed. */
  predicate Sound(db: Db, r: Outcome) {
    MovesForward(db, r) && (Wellformed(db) ==> KeepsKeys(db, r))
  }

  lemma PickupTurnSound(db: Db, i: nat, m: Message)
    requires i < |db.users|
    ensures Sound(db, PickupTurn(db, i, m))
  {
    var r := PickupTurn(db, i, m);
    if m.latitude.Some? && m.longitude.Some? {
      SetUserSound(db, i, db.users[i].(latitude := m.latitude, longitude := m.longitude,
                                       rideState := Some(AwaitingDestination)), r);
    } else {
      UnchangedSound(db, r);
    }
  }

  lemma DestinationTurnSound(db: Db, i: nat, m: Message, now: Time)
    requires i < |db.users|
    ensures Sound(db, DestinationTurn(db, i, m, now))
  {
  }

  lemma AssignDriverSound(db: Db, i: nat, k: nat, t: RideType, offer: Offer)
    requires i < |db.users| && k < |db.rides| && db.rides[k].status == Requested
    ensures Sound(db, AssignDriver(db, i, k, t, offer))
  {
    var r := AssignDriver(db, i, k, t, offer);
    var ride := r.db.rides[k];
    assert r.writes == [StatusWrite(k, Requested, DriverAssigned)];
    assert |r.db.rides| == |db.rides| && ride.status == DriverAssigned;
    assert ride.id == db.rides[k].id && ride.userId == db.rides[k].userId;
    assert ride.pickup == db.rides[k].pickup && ride.destination == db.rides[k].destination;
    assert forall j | 0 <= j < |db.rides| && j != k :: r.db.rides[j] == db.rides[j];
    assert MovesForward(db, r);
    assert r.db.users == db.users[i := r.db.users[i]] && r.db.users[i].id == db.users[i].id;
  }

  lemma RideTypeTurnSound(db: Db, i: nat, text: string, offer: Offer)
    requires i < |db.users|
    ensures Sound(db, RideTypeTurn(db, i, text, offer))
  {
    match ParseRideType(text)
    case None =>
    case Some(t) =>
      match FindRide(db.rides, db.users[i].id, Requested)
      case None =>
      case Some(k) => AssignDriverSound(db, i, k, t, offer);
  }

  lemma ProfileTurnSound(db: Db, i: nat, command: string)
    requires i < |db.users|
    ensures Sound(db, ProfileTurn(db, i, command))
  {
    var u := db.users[i];
    var r := ProfileTurn(db, i, command);
    if command == "update name" {
      SetUserSound(db, i, u.(state := UpdatingName), r);
    } else if command == "update contact" {
      SetUserSound(db, i, u.(state := UpdatingContact), r);
    } else if command == "cancel" {
      SetUserSound(db, i, u.(state := Registered), r);
    } else {
      UnchangedSound(db, r);
    }
  }

  lemma CancelAtSound(db: Db, i: nat, k: nat)
    requires i < |db.users| && k < |db.rides| && db.rides[k].status == Requested
    ensures Sound(db, CancelAt(db, i, k))
  {
    var r := CancelAt(db, i, k);
    assert forall j | 0 <= j < |db.rides| && j != k :: r.db.rides[j] == db.rides[j];
  }

  lemma CommandTurnSound(db: Db, i: nat, command: string)
    requires i < |db.users|
    ensures Sound(db, CommandTurn(db, i, command))
  {
    var u := db.users[i];
    var r := CommandTurn(db, i, command);
    if command == "edit profile" {
      SetUserSound(db, i, u.(state := EditingProfile), r);
    } else if command == "book ride" {
      SetUserSound(db, i, u.(rideState := Some(AwaitingPickup)), r);
    } else if command == "cancel ride" && FindRide(db.rides, u.id, Requested).Some? {
      CancelAtSound(db, i, FindRide(db.rides, u.id, Requested).value);
    } else {
      UnchangedSound(db, r);
    }
  }

  /** A step that commits nothing is sound. */
  lemma UnchangedSound(db: Db, r: Outcome)
    requires r.db == db && r.writes == []
    ensures Sound(db, r)
  {
  }

  /** A step that only rewrites the non-key fields of one user is sound. */
  lemma SetUserSound(db: Db, i: nat, u: User, r: Outcome)
    requires i < |db.users| && u.id == db.users[i].id && u.phone == db.users[i].phone
    requires r.db == SetUser(db, i, u) && r.writes == []
    ensures Sound(db, r)
  {
  }

  lemma SignupTurnSound(db: Db, phone: string)
    ensures Sound(db, SignupTurn(db, phone))
  {
  }

  lemma DispatchSound(db: Db, i: nat, m: Message, offer: Offer, now: Time)
    requires i < |db.users|
    ensures Sound(db, Dispatch(db, i, m, offer, now))
  {
    var u := db.users[i];
    var text := Strip(m.body);
    if u.rideState == Some(AwaitingPickup) {
      PickupTurnSound(db, i, m);
    } else if u.rideState == Some(AwaitingDestination) {
      DestinationTurnSound(db, i, m, now);
    } else if u.rideState == Some(AwaitingRideType) {
      RideTypeTurnSound(db, i, text, offer);
    } else if u.state == EditingProfile {
      ProfileTurnSound(db, i, Lower(text));
    } else if u.state == Registered {
      CommandTurnSound(db, i, Lower(text));
    } else {
      SignupTurnSound(db, m.sender);
    }
  }

  /** Every turn moves ride statuses forward only (see `MovesForward`). */
  lemma TurnMovesStatusForward(db: Db, m: Message, offer: Offer, now: Time)
    ensures MovesForward(db, Turn(db, m, offer, now))
  {
    match FindUser(db.users, m.sender)
    case Some(i) =>
      TurnKnown(db, m, offer, now, i);
      DispatchSound(db, i, m, offer, now);
    case None =>
      TurnUnknown(db, m, offer, now);
      DispatchSound(AddUser(db, m.sender), |db.users|, m, offer, now);
  }

  /** Turns add rows and rewrite non-key fields only, so keys stay well formed. */
  lemma TurnKeepsWellformed(db: Db, m: Message, offer: Offer, now: Time)
    requires Wellformed(db)
    ensures KeepsKeys(db, Turn(db, m, offer, now))
  {
    match FindUser(db.users, m.sender)
    case Some(i) =>
      TurnKnown(db, m, offer, now, i);
      DispatchSound(db, i, m, offer, now);
    case None =>
      TurnUnknown(db, m, offer, now);
      var db1 := AddUser(db, m.sender);
      assert Wellformed(db1);
      DispatchSound(db1, |db.users|, m, offer, now);
  }

  /** Any sound step keeps the store invariant, its writes appended to the history. */
  lemma SoundKeepsConsistent(db: Db, h: seq<StatusWrite>, r: Outcome)
    requires Consistent(db, h) && Sound(db, r)
    ensures Consistent(r.db, h + r.writes)
  {
    if r.writes == [] {
      SilentStepKeepsConsistent(db, h, r);
    } else {
      WritingStepKeepsConsistent(db, h, r);
    }
  }

  lemma SilentStepKeepsConsistent(db: Db, h: seq<StatusWrite>, r: Outcome)
    requires Consistent(db, h) && Sound(db, r) && r.writes == []
    ensures Consistent(r.db, h + r.writes)
  {
    assert h + r.writes == h;
    forall k | |db.rides| <= k < |r.db.rides| ensures r.db.rides[k].status == Replay(h, k) {
      ReplayUntouched(h, k);
    }
  }

  lemma WritingStepKeepsConsistent(db: Db, h: seq<StatusWrite>, r: Outcome)
    requires Consistent(db, h) && Sound(db, r) && r.writes != []
    ensures Consistent(r.db, h + r.writes)
  {
    var w := r.writes[0];
    assert r.writes == [w];
    ChainedAppend(h, w);
    forall k | 0 <= k < |r.db.rides| ensures r.db.rides[k].status == Replay(h + [w], k) {
      ReplayAppend(h, w, k);
      if k >= |db.rides| {
        ReplayUntouched(h, k);
      }
    }
  }

  /** Each turn keeps the store invariant, its writes appended to the history. */
  lemma TurnKeepsConsistent(db: Db, h: seq<StatusWrite>, m: Message, offer: Offer, now: Time)
    requires Consistent(db, h)
    ensures var r := Turn(db, m, offer, now); Consistent(r.db, h + r.writes)
  {
    TurnMovesStatusForward(db, m, offer, now);
    TurnKeepsWellformed(db, m, offer, now);
    SoundKeepsConsistent(db, h, Turn(db, m, offer, now));
  }
}
