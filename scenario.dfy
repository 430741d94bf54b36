/** Whole conversations: a sequence of requests handled one after another,
    and a booking followed by its lifecycle run. */
module Scenarios {
  import opened Text
  import opened Records
  import opened Conversation
  import opened Lifecycle

  /** What a sequence of `/sms` requests leaves behind: the tables, every
      Body element replied, every committed status write and every
      lifecycle run started, in order. */
  datatype Transcript = Transcript(db: Db, replies: seq<Reply>, writes: seq<StatusWrite>, started: seq<string>)

  /** One turn's outcome in front of the transcript of the turns after it. */
  function Prepend(r: Outcome, t: Transcript): Transcript {
    Transcript(t.db, r.reply + t.replies, r.writes + t.writes, Spawned(r.spawn) + t.started)
  }

  /** The requests `ms` handled one after another, from `db`. */
  function Conduct(db: Db, ms: seq<Message>, offer: Offer, now: Time): Transcript
    decreases |ms|
  {
    if ms == [] then Transcript(db, [], [], [])
    else
      var r := Turn(db, ms[0], offer, now);
      Prepend(r, Conduct(r.db, ms[1..], offer, now))
  }

  /** Three turns that only reply, then one more turn, then `t`. */
  lemma PrependThree(o1: Outcome, o2: Outcome, o3: Outcome, r: Outcome, t: Transcript)
    requires o1.writes == [] && o2.writes == [] && o3.writes == []
    requires o1.spawn == None && o2.spawn == None && o3.spawn == None
    requires |o1.reply| == 1 && |o2.reply| == 1 && |o3.reply| == 1
    ensures Prepend(o1, Prepend(o2, Prepend(o3, Prepend(r, t))))
         == Transcript(t.db, [o1.reply[0], o2.reply[0], o3.reply[0]] + r.reply + t.replies,
                       r.writes + t.writes, Spawned(r.spawn) + t.started)
  {
    assert o1.reply + (o2.reply + (o3.reply + (r.reply + t.replies)))
        == [o1.reply[0], o2.reply[0], o3.reply[0]] + r.reply + t.replies;
  }

  lemma Nest<T>(a: T, b: T, c: T, d: T)
    ensures [a, b, c, d] == [a] + ([b] + ([c] + ([d] + [])))
    ensures [a, b, c] + [d] + [] == [a, b, c, d]
  {
  }

  /** Handling `m` first, then `ms`, is one turn followed by the rest. */
  lemma ConductFirst(db: Db, m: Message, ms: seq<Message>, offer: Offer, now: Time)
    ensures var r := Turn(db, m, offer, now);
      Conduct(db, [m] + ms, offer, now) == Prepend(r, Conduct(r.db, ms, offer, now))
  {
    assert ([m] + ms)[1..] == ms;
  }

  /** "book ride" from a registered user with no open booking, then `ms`. */
  lemma BookFirst(db: Db, i: nat, m: Message, ms: seq<Message>, offer: Offer, now: Time)
    requires Lower(Strip(m.body)) == "book ride"
    requires FindUser(db.users, m.sender) == Some(i)
    requires db.users[i].state == Registered && db.users[i].rideState == None
    ensures var db' := Db(db.users[i := db.users[i].(rideState := Some(AwaitingPickup))], db.rides);
      && Conduct(db, [m] + ms, offer, now) == Prepend(Outcome(db', [BookPrompt], [], None), Conduct(db', ms, offer, now))
      && FindUser(db'.users, m.sender) == Some(i)
  {
    RegisteredCommands(db, m, offer, now, i);
    FindUserSamePhones(db.users, db.users[i := db.users[i].(rideState := Some(AwaitingPickup))], m.sender);
    ConductFirst(db, m, ms, offer, now);
  }

  /** A pickup location while awaiting_pickup, then `ms`. */
  lemma PickupFirst(db: Db, i: nat, m: Message, ms: seq<Message>, offer: Offer, now: Time)
    requires FindUser(db.users, m.sender) == Some(i) && db.users[i].rideState == Some(AwaitingPickup)
    requires m.latitude.Some? && m.longitude.Some?
    ensures var db' := Db(db.users[i := db.users[i].(latitude := m.latitude, longitude := m.longitude,
                                                     rideState := Some(AwaitingDestination))], db.rides);
      && Conduct(db, [m] + ms, offer, now) == Prepend(Outcome(db', [LocationReceived], [], None), Conduct(db', ms, offer, now))
      && FindUser(db'.users, m.sender) == Some(i)
  {
    TurnKnown(db, m, offer, now, i);
    DispatchRoutes(db, i, m, offer, now);
    FindUserSamePhones(db.users, PickupTurn(db, i, m).db.users, m.sender);
    ConductFirst(db, m, ms, offer, now);
  }

  /** A destination location while awaiting_destination, then `ms`. */
  lemma DestinationFirst(db: Db, i: nat, m: Message, ms: seq<Message>, offer: Offer, now: Time)
    requires FindUser(db.users, m.sender) == Some(i) && db.users[i].rideState == Some(AwaitingDestination)
    requires m.latitude.Some? && m.longitude.Some?
    requires forall k | 0 <= k < |db.rides| && db.rides[k].userId == db.users[i].id :: db.rides[k].status != Requested
    ensures var u := db.users[i];
      var ride := Ride(|db.rides| + 1, u.id, FormatLocation(u.latitude, u.longitude),
                       FormatLocation(m.latitude, m.longitude), None, Requested, None, None, None, None, now);
      var db' := Db(db.users[i := u.(rideState := Some(AwaitingRideType))], db.rides + [ride]);
      && Conduct(db, [m] + ms, offer, now) == Prepend(Outcome(db', [DestinationReceived], [], None), Conduct(db', ms, offer, now))
      && FindUser(db'.users, m.sender) == Some(i)
      && FindRide(db'.rides, u.id, Requested) == Some(|db.rides|)
  {
    TurnKnown(db, m, offer, now, i);
    DispatchRoutes(db, i, m, offer, now);
    var db' := DestinationTurn(db, i, m, now).db;
    FindUserSamePhones(db.users, db'.users, m.sender);
    FindRideAppended(db.rides, db'.rides[|db.rides|], db.users[i].id, Requested);
    ConductFirst(db, m, ms, offer, now);
  }

  /** A recognised ride type while awaiting_ride_type, with requested ride `k`, then `ms`. */
  lemma RideTypeFirst(db: Db, i: nat, m: Message, ms: seq<Message>, offer: Offer, now: Time, t: RideType, k: nat)
    requires FindUser(db.users, m.sender) == Some(i) && db.users[i].rideState == Some(AwaitingRideType)
    requires Lower(Strip(m.body)) == Lower(RideTypeName(t))
    requires FindRide(db.rides, db.users[i].id, Requested) == Some(k)
    ensures var r := AssignDriver(db, i, k, t, offer);
      && Conduct(db, [m] + ms, offer, now) == Prepend(r, Conduct(r.db, ms, offer, now))
      && FindUser(r.db.users, m.sender) == Some(i)
  {
    FindUserSamePhones(db.users, AssignDriver(db, i, k, t, offer).db.users, m.sender);
    TurnAssignsDriver(db, m, offer, now, i, t, k);
    ConductFirst(db, m, ms, offer, now);
  }

  /** A destination location, then "Economy", then `ms`: the new requested
      ride gets a driver in one write and one lifecycle run starts. */
  lemma DestinationThenEconomy(db: Db, i: nat, m3: Message, m4: Message, ms: seq<Message>, offer: Offer, now: Time)
    requires m4.sender == m3.sender
    requires FindUser(db.users, m3.sender) == Some(i) && db.users[i].rideState == Some(AwaitingDestination)
    requires m3.latitude.Some? && m3.longitude.Some?
    requires Lower(Strip(m4.body)) == Lower(RideTypeName(Economy))
    requires forall k | 0 <= k < |db.rides| && db.rides[k].userId == db.users[i].id :: db.rides[k].status != Requested
    ensures var db3 := DestinationTurn(db, i, m3, now).db;
      var r := AssignDriver(db3, i, |db.rides|, Economy, offer);
      Conduct(db, [m3] + ([m4] + ms), offer, now)
        == Prepend(Outcome(db3, [DestinationReceived], [], None), Prepend(r, Conduct(r.db, ms, offer, now)))
  {
    DestinationFirst(db, i, m3, [m4] + ms, offer, now);
    RideTypeFirst(DestinationTurn(db, i, m3, now).db, i, m4, ms, offer, now, Economy, |db.rides|);
  }

  /** The four requests of a booking, from a registered user with no open
      booking, then `ms`: the booking adds its three prompts and the
      confirmation to the replies, one write and one lifecycle start. */
  lemma BookingTranscript(db: Db, i: nat, m1: Message, m2: Message, m3: Message, m4: Message, ms: seq<Message>,
                          offer: Offer, now: Time)
    requires m2.sender == m1.sender && m3.sender == m1.sender && m4.sender == m1.sender
    requires Lower(Strip(m1.body)) == "book ride" && Lower(Strip(m4.body)) == Lower(RideTypeName(Economy))
    requires m2.latitude.Some? && m2.longitude.Some? && m3.latitude.Some? && m3.longitude.Some?
    requires FindUser(db.users, m1.sender) == Some(i)
    requires db.users[i].state == Registered && db.users[i].rideState == None
    requires forall k | 0 <= k < |db.rides| && db.rides[k].userId == db.users[i].id :: db.rides[k].status != Requested
    ensures var r := AssignDriver(Booked(db, i, m2, m3, now), i, |db.rides|, Economy, offer);
      var t := Conduct(r.db, ms, offer, now);
      Conduct(db, [m1] + ([m2] + ([m3] + ([m4] + ms))), offer, now)
        == Transcript(t.db, [BookPrompt, LocationReceived, DestinationReceived] + r.reply + t.replies,
                      r.writes + t.writes, [m1.sender] + t.started)
  {
    var u := db.users[i];
    var db1 := Db(db.users[i := u.(rideState := Some(AwaitingPickup))], db.rides);
    var u2 := db1.users[i].(latitude := m2.latitude, longitude := m2.longitude, rideState := Some(AwaitingDestination));
    var db2 := Db(db1.users[i := u2], db1.rides);
    var db3 := Booked(db, i, m2, m3, now);
    var r := AssignDriver(db3, i, |db.rides|, Economy, offer);
    PrependThree(Outcome(db1, [BookPrompt], [], None), Outcome(db2, [LocationReceived], [], None),
                 Outcome(db3, [DestinationReceived], [], None), r, Conduct(r.db, ms, offer, now));
    BookedAfterPickup(db, i, m2, m3, now);
    BookFirst(db, i, m1, [m2] + ([m3] + ([m4] + ms)), offer, now);
    PickupFirst(db1, i, m2, [m3] + ([m4] + ms), offer, now);
    DestinationThenEconomy(db2, i, m3, m4, ms, offer, now);
  }

  /** The tables after the pickup and destination of a booking: the user
      holds the pickup and awaits a ride type, and the new requested ride
      is last. */
  function Booked(db: Db, i: nat, pickup: Message, destination: Message, now: Time): Db
    requires i < |db.users|
  {
    var u := db.users[i];
    var ride := Ride(|db.rides| + 1, u.id, FormatLocation(pickup.latitude, pickup.longitude),
                     FormatLocation(destination.latitude, destination.longitude),
                     None, Requested, None, None, None, None, now);
    Db(db.users[i := u.(latitude := pickup.latitude, longitude := pickup.longitude, rideState := Some(AwaitingRideType))],
       db.rides + [ride])
  }

  /** The pickup and destination turns of a booking leave `Booked`. */
  lemma BookedAfterPickup(db: Db, i: nat, pickup: Message, destination: Message, now: Time)
    requires i < |db.users| && destination.latitude.Some? && destination.longitude.Some?
    ensures var u := db.users[i];
      var db1 := Db(db.users[i := u.(rideState := Some(AwaitingPickup))], db.rides);
      var u2 := db1.users[i].(latitude := pickup.latitude, longitude := pickup.longitude,
                              rideState := Some(AwaitingDestination));
      DestinationTurn(Db(db1.users[i := u2], db1.rides), i, destination, now).db == Booked(db, i, pickup, destination, now)
  {
    var u := db.users[i];
    var db1 := Db(db.users[i := u.(rideState := Some(AwaitingPickup))], db.rides);
    var u2 := db1.users[i].(latitude := pickup.latitude, longitude := pickup.longitude,
                            rideState := Some(AwaitingDestination));
    var db2 := Db(db1.users[i := u2], db1.rides);
    var b := Booked(db, i, pickup, destination, now);
    var d := DestinationTurn(db2, i, destination, now).db;
    assert d.users == b.users;
  }

  /** The ride a booking assigns is completed by its lifecycle run. */
  lemma BookedRideCompletes(db: Db, phone: string, i: nat, pickup: Message, destination: Message, offer: Offer,
                            now: Time, done: Time)
    requires FindUser(db.users, phone) == Some(i)
    requires forall k | 0 <= k < |db.rides| && db.rides[k].userId == db.users[i].id ::
               db.rides[k].status != Requested && db.rides[k].status != DriverAssigned
    ensures var n := |db.rides|; var db4 := AssignDriver(Booked(db, i, pickup, destination, now), i, n, Economy, offer).db;
      var p := Progress(db4, phone, done); var fare := FareText(offer.fare);
      && |db4.rides| == n + 1 && db4.rides[..n] == db.rides && |db4.users| == |db.users|
      && db4.rides[n] == Ride(n + 1, db.users[i].id, FormatLocation(pickup.latitude, pickup.longitude),
                              FormatLocation(destination.latitude, destination.longitude),
                              Some(Economy), DriverAssigned, Some(offer.driver), Some(offer.car),
                              Some(offer.eta), Some(fare), now)
      && db4.users[i].rideState == Some(RideInProgress)
      && p.db.rides == db4.rides[n := db4.rides[n].(status := Completed, timestamp := done)]
      && |p.db.users| == |db.users| && p.db.users[i].rideState == None
      && p.sent == [Notification(phone, ArrivalNotice), Notification(phone, TripStartNotice),
                    Notification(phone, CompletionNotice(Some(fare)))]
  {
    var n := |db.rides|;
    var db4 := AssignDriver(Booked(db, i, pickup, destination, now), i, n, Economy, offer).db;
    FindUserSamePhones(db.users, db4.users, phone);
    assert db4.rides == db.rides + [db4.rides[n]];
    FindRideAppended(db.rides, db4.rides[n], db.users[i].id, DriverAssigned);
    ProgressCompletesRide(db4, phone, done, i, n);
  }

  /** The booking's four requests and nothing after them. */
  lemma BookingAlone(db: Db, i: nat, m1: Message, m2: Message, m3: Message, m4: Message, offer: Offer, now: Time)
    requires m2.sender == m1.sender && m3.sender == m1.sender && m4.sender == m1.sender
    requires Lower(Strip(m1.body)) == "book ride" && Lower(Strip(m4.body)) == Lower(RideTypeName(Economy))
    requires m2.latitude.Some? && m2.longitude.Some? && m3.latitude.Some? && m3.longitude.Some?
    requires FindUser(db.users, m1.sender) == Some(i)
    requires db.users[i].state == Registered && db.users[i].rideState == None
    requires forall k | 0 <= k < |db.rides| && db.rides[k].userId == db.users[i].id :: db.rides[k].status != Requested
    ensures var r := AssignDriver(Booked(db, i, m2, m3, now), i, |db.rides|, Economy, offer);
      Conduct(db, [m1, m2, m3, m4], offer, now)
        == Transcript(r.db, [BookPrompt, LocationReceived, DestinationReceived,
                             Confirmation(Economy, offer.driver, offer.car, offer.eta, FareText(offer.fare))],
                      [StatusWrite(|db.rides|, Requested, DriverAssigned)], [m1.sender])
  {
    var r := AssignDriver(Booked(db, i, m2, m3, now), i, |db.rides|, Economy, offer);
    Nest(m1, m2, m3, m4);
    Nest(BookPrompt, LocationReceived, DestinationReceived, Confirmation(Economy, offer.driver, offer.car, offer.eta, FareText(offer.fare)));
    Nest(m1.sender, m1.sender, m1.sender, m1.sender);
    var c := Confirmation(Economy, offer.driver, offer.car, offer.eta, FareText(offer.fare));
    var w := StatusWrite(|db.rides|, Requested, DriverAssigned);
    assert r.reply == [c] && r.writes == [w];
    assert Conduct(r.db, [], offer, now) == Transcript(r.db, [], [], []);
    BookingTranscript(db, i, m1, m2, m3, m4, [], offer, now);
    assert [w] + [] == [w];
  }

  /** A registered user with no open ride books one: "book ride" in any
      case and padding, a pickup location, a destination location, then
      "Economy" in any case and padding. The four replies are the prompts
      and the confirmation, exactly one ride is added (requested, then
      driver_assigned with the offer, in one committed write) and one
      lifecycle run is started; that run, at its own time `done`, completes
      the ride with the three notifications, stamps it with `done` and
      clears the ride state. Earlier rides are never
      touched. */
  lemma BookingRunsToCompletion(db: Db, phone: string, i: nat, pickupLat: string, pickupLon: string,
                                destLat: string, destLon: string, book: string, b2: string, b3: string,
                                economy: string, offer: Offer, now: Time, done: Time)
    requires Lower(Strip(book)) == "book ride" && Lower(Strip(economy)) == Lower(RideTypeName(Economy))
    requires FindUser(db.users, phone) == Some(i)
    requires db.users[i].state == Registered && db.users[i].rideState == None
    requires forall k | 0 <= k < |db.rides| && db.rides[k].userId == db.users[i].id ::
               db.rides[k].status != Requested && db.rides[k].status != DriverAssigned
    ensures
      var t := Conduct(db, [Message(phone, book, None, None), Message(phone, b2, Some(pickupLat), Some(pickupLon)),
                            Message(phone, b3, Some(destLat), Some(destLon)), Message(phone, economy, None, None)],
                       offer, now);
      var p := Progress(t.db, phone, done);
      var n := |db.rides|;
      var fare := FareText(offer.fare);
      && t.replies == [BookPrompt, LocationReceived, DestinationReceived,
                       Confirmation(Economy, offer.driver, offer.car, offer.eta, fare)]
      && t.writes == [StatusWrite(n, Requested, DriverAssigned)] && t.started == [phone]
      && |t.db.rides| == n + 1 && t.db.rides[..n] == db.rides
      && t.db.rides[n] == Ride(n + 1, db.users[i].id, pickupLat + "," + pickupLon, destLat + "," + destLon,
                               Some(Economy), DriverAssigned, Some(offer.driver), Some(offer.car),
                               Some(offer.eta), Some(fare), now)
      && |t.db.users| == |db.users| && t.db.users[i].rideState == Some(RideInProgress)
      && p.db.rides == t.db.rides[n := t.db.rides[n].(status := Completed, timestamp := done)]
      && |p.db.users| == |db.users| && p.db.users[i].rideState == None
      && p.sent == [Notification(phone, ArrivalNotice), Notification(phone, TripStartNotice),
                    Notification(phone, CompletionNotice(Some(fare)))]
  {
    var m1 := Message(phone, book, None, None);
    var m2 := Message(phone, b2, Some(pickupLat), Some(pickupLon));
    var m3 := Message(phone, b3, Some(destLat), Some(destLon));
    var m4 := Message(phone, economy, None, None);
    BookingAlone(db, i, m1, m2, m3, m4, offer, now);
    BookedRideCompletes(db, phone, i, m2, m3, offer, now, done);
  }
}
