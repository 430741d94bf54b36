/** The running service: the User and Ride tables the `/sms` handler and
    the lifecycle runs update in place, with the notification sink and the
    lifecycle starts recorded as ghost logs. */
module RideHail {
  import opened Text
  import opened Records
  import opened Conversation
  import opened Lifecycle

  class Store {
    var users: seq<User>
    var rides: seq<Ride>
    /** Every committed status assignment, in order. */
    ghost var history: seq<StatusWrite>
    /** Every notification sent (`send_message`), in order. */
    ghost var outbox: seq<Notification>
    /** The phone numbers a lifecycle run was started for, in order. */
    ghost var started: seq<string>

    ghost function Snapshot(): Db
      reads this
    {
      Db(users, rides)
    }

    ghost predicate Valid()
      reads this
    {
      Consistent(Snapshot(), history)
    }

    /** The step did what `r` describes: committed its tables and status
        writes, replied with its Body elements, started its lifecycle run and
        sent nothing. */
    twostate predicate Performed(r: Outcome, reply: seq<Reply>)
      reads this
    {
      && Snapshot() == r.db && reply == r.reply
      && history == old(history) + r.writes
      && started == old(started) + Spawned(r.spawn)
      && outbox == old(outbox)
    }

    constructor ()
      ensures Valid()
      ensures users == [] && rides == [] && history == [] && outbox == [] && started == []
    {
      users, rides := [], [];
      history, outbox, started := [], [], [];
    }

    /** The `/sms` handler: one inbound message, one turn. */
    method HandleMessage(m: Message, offer: Offer, now: Time) returns (reply: seq<Reply>)
      requires Valid() && ValidOffer(offer)
      modifies this
      ensures Valid()
      ensures Performed(Turn(old(Snapshot()), m, offer, now), reply)
    {
      ghost var before := Snapshot();
      var found := FindUser(users, m.sender);
      var i: nat;
      if found.Some? {
        i := found.value;
        reply := [];
      } else {
        users := users + [NewUser(|users| + 1, m.sender)];
        i := |users| - 1;
        reply := [Welcome];
      }
      var more := DispatchUser(i, m, offer, now);
      reply := reply + more;
      TurnKeepsConsistent(before, old(history), m, offer, now);
    }

    /** app.py:93-214 for the user at position `i`. */
    method DispatchUser(i: nat, m: Message, offer: Offer, now: Time) returns (reply: seq<Reply>)
      requires i < |users|
      modifies this
      ensures Performed(Dispatch(old(Snapshot()), i, m, offer, now), reply)
    {
      ghost var db := Snapshot();
      var text := Strip(m.body);
      var user := users[i];
      if user.rideState == Some(AwaitingPickup) {
        assert Dispatch(db, i, m, offer, now) == PickupTurn(db, i, m);
        reply := HandlePickup(i, m);
      } else if user.rideState == Some(AwaitingDestination) {
        assert Dispatch(db, i, m, offer, now) == DestinationTurn(db, i, m, now);
        reply := HandleDestination(i, m, now);
      } else if user.rideState == Some(AwaitingRideType) {
        assert Dispatch(db, i, m, offer, now) == RideTypeTurn(db, i, text, offer);
        reply := HandleRideType(i, text, offer);
      } else if user.state == EditingProfile {
        assert Dispatch(db, i, m, offer, now) == ProfileTurn(db, i, Lower(text));
        reply := HandleProfileCommand(i, Lower(text));
      } else if user.state == Registered {
        assert Dispatch(db, i, m, offer, now) == CommandTurn(db, i, Lower(text));
        reply := HandleCommand(i, Lower(text));
      } else {
        assert Dispatch(db, i, m, offer, now) == SignupTurn(db, m.sender);
        reply := RestartSignup(m.sender);
      }
    }

    method RestartSignup(phone: string) returns (reply: seq<Reply>)
      modifies this
      ensures Performed(SignupTurn(old(Snapshot()), phone), reply)
    {
      users := users + [NewUser(|users| + 1, phone)];
      reply := [Welcome];
    }

    method HandlePickup(i: nat, m: Message) returns (reply: seq<Reply>)
      requires i < |users|
      modifies this
      ensures Performed(PickupTurn(old(Snapshot()), i, m), reply)
    {
      if m.latitude.Some? && m.longitude.Some? {
        var user := users[i];
        users := users[i := user.(latitude := m.latitude, longitude := m.longitude,
                                  rideState := Some(AwaitingDestination))];
        reply := [LocationReceived];
      } else {
        reply := [SharePickup];
      }
    }

    method HandleDestination(i: nat, m: Message, now: Time) returns (reply: seq<Reply>)
      requires i < |users|
      modifies this
      ensures Performed(DestinationTurn(old(Snapshot()), i, m, now), reply)
    {
      if m.latitude.Some? && m.longitude.Some? {
        var user := users[i];
        var ride := Ride(|rides| + 1, user.id, FormatLocation(user.latitude, user.longitude),
                         FormatLocation(m.latitude, m.longitude), None, Requested, None, None, None, None, now);
        rides := rides + [ride];
        users := users[i := user.(rideState := Some(AwaitingRideType))];
        reply := [DestinationReceived];
      } else {
        reply := [ShareDestination];
      }
    }

    method HandleRideType(i: nat, text: string, offer: Offer) returns (reply: seq<Reply>)
      requires i < |users|
      modifies this
      ensures Performed(RideTypeTurn(old(Snapshot()), i, text, offer), reply)
    {
      var rideType := ParseRideType(text);
      if rideType.None? {
        reply := [InvalidRideType];
        return;
      }
      var user := users[i];
      var current := FindRide(rides, user.id, Requested);
      if current.None? {
        reply := [RideError];
        return;
      }
      var k := current.value;
      var fare := FareText(offer.fare);
      rides := rides[k := rides[k].(rideType := rideType, driverName := Some(offer.driver),
                                    carDetails := Some(offer.car), estimatedArrival := Some(offer.eta),
                                    fareEstimate := Some(fare), status := DriverAssigned)];
      history := history + [StatusWrite(k, Requested, DriverAssigned)];
      users := users[i := user.(rideState := Some(RideInProgress))];
      reply := [Confirmation(rideType.value, offer.driver, offer.car, offer.eta, fare)];
      started := started + [user.phone];
    }

    method HandleProfileCommand(i: nat, command: string) returns (reply: seq<Reply>)
      requires i < |users|
      modifies this
      ensures Performed(ProfileTurn(old(Snapshot()), i, command), reply)
    {
      var user := users[i];
      if command == "update name" {
        users := users[i := user.(state := UpdatingName)];
        reply := [NewNamePrompt];
      } else if command == "update contact" {
        users := users[i := user.(state := UpdatingContact)];
        reply := [NewContactPrompt];
      } else if command == "cancel" {
        users := users[i := user.(state := Registered)];
        reply := [EditCanceled];
      } else {
        reply := [InvalidEditCommand];
      }
    }

    method HandleCommand(i: nat, command: string) returns (reply: seq<Reply>)
      requires i < |users|
      modifies this
      ensures Performed(CommandTurn(old(Snapshot()), i, command), reply)
    {
      var user := users[i];
      if command == "help" {
        reply := [HelpText];
      } else if command == "edit profile" {
        users := users[i := user.(state := EditingProfile)];
        reply := [EditMode];
      } else if command == "book ride" {
        users := users[i := user.(rideState := Some(AwaitingPickup))];
        reply := [BookPrompt];
      } else if command == "ride status" {
        var current := FindRide(rides, user.id, DriverAssigned);
        if current.Some? {
          reply := [DriverOnTheWay(rides[current.value].estimatedArrival)];
        } else {
          reply := [NoOngoingRides];
        }
      } else if command == "cancel ride" {
        var current := FindRide(rides, user.id, Requested);
        if current.Some? {
          var k := current.value;
          users := users[i := user.(rideState := None)];
          rides := rides[k := rides[k].(status := Canceled)];
          history := history + [StatusWrite(k, Requested, Canceled)];
          reply := [RideCanceled];
        } else {
          reply := [NothingToCancel];
        }
      } else {
        reply := [HelpHint];
      }
    }

    /** The lifecycle run for `phone`, start to finish: three committed
        status writes, each followed by its notification, then the user's
        ride state is cleared. Each committed intermediate state keeps the
        store invariant. */
    method SimulateRideProgress(phone: string, now: Time)
      requires Valid()
      modifies this
      ensures Valid()
      ensures var p := Progress(old(Snapshot()), phone, now);
        && Snapshot() == p.db && outbox == old(outbox) + p.sent
        && history == old(history) + p.writes && started == old(started)
    {
      var found := FindUser(users, phone);
      if found.None? {
        return;
      }
      var i := found.value;
      var current := FindRide(rides, users[i].id, DriverAssigned);
      if current.None? {
        return;
      }
      CompleteRide(phone, i, current.value, now);
    }

    /** app.py:50-73, once the user at `i` and their driver_assigned ride
        at `k` are found. */
    method CompleteRide(phone: string, i: nat, k: nat, now: Time)
      requires Valid()
      requires FindUser(users, phone) == Some(i) && FindRide(rides, users[i].id, DriverAssigned) == Some(k)
      modifies this
      ensures Valid()
      ensures var p := Progress(old(Snapshot()), phone, now);
        && Snapshot() == p.db && outbox == old(outbox) + p.sent
        && history == old(history) + p.writes && started == old(started)
    {
      ghost var db := Snapshot();
      var user := users[i];
      ProgressUnfolds(db, phone, now, i, k);

      CommitRide(k, rides[k].(status := DriverArrived));
      outbox := outbox + [Notification(user.phone, ArrivalNotice)];

      CommitRide(k, rides[k].(status := OnTrip));
      outbox := outbox + [Notification(user.phone, TripStartNotice)];

      CommitRide(k, rides[k].(status := Completed, timestamp := now));
      var totalFare := rides[k].fareEstimate;
      outbox := outbox + [Notification(user.phone, CompletionNotice(totalFare))];

      users := users[i := user.(rideState := None)];
      AppendThree(old(outbox), Notification(user.phone, ArrivalNotice), Notification(user.phone, TripStartNotice),
                  Notification(user.phone, CompletionNotice(totalFare)));
      AppendThree(old(history), StatusWrite(k, DriverAssigned, DriverArrived), StatusWrite(k, DriverArrived, OnTrip),
                  StatusWrite(k, OnTrip, Completed));
      UpdateThrice(db.rides, k, db.rides[k].(status := DriverArrived), db.rides[k].(status := OnTrip),
                   db.rides[k].(status := Completed, timestamp := now));
      ProgressKeepsConsistent(db, old(history), phone, now);
    }

    /** `current_ride.status = ...` followed by `session.commit()` in the
        lifecycle run: one status write along an edge, recorded in the
        history; the store invariant holds after every such commit. */
    method CommitRide(k: nat, ride: Ride)
      requires Valid() && k < |rides|
      requires Edge(rides[k].status, ride.status)
      requires ride.id == rides[k].id && ride.userId == rides[k].userId
      modifies this
      ensures Valid()
      ensures rides == old(rides)[k := ride] && users == old(users)
      ensures history == old(history) + [StatusWrite(k, old(rides)[k].status, ride.status)]
      ensures outbox == old(outbox) && started == old(started)
    {
      CommitStatus(Snapshot(), history, k, ride);
      history := history + [StatusWrite(k, rides[k].status, ride.status)];
      rides := rides[k := ride];
    }
  }
}
