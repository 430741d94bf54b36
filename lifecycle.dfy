/** The ride lifecycle run started after a driver is assigned (app.py
    `simulate_ride_progress`), run to completion as one sequential step. */
module Lifecycle {
  import opened Records

  /** The three messages a run sends; `NoticeText` gives each its text. */
  datatype Notice = ArrivalNotice | TripStartNotice | CompletionNotice(fare: Option<string>)

  function NoticeText(n: Notice): string {
    match n
    case ArrivalNotice => "Your driver has arrived!"
    case TripStartNotice => "Your trip has started."
    case CompletionNotice(fare) =>
      "You have arrived at your destination. Total fare: " + FormatField(fare) + ". Thank you for riding with us!"
  }

  /** One call of the notification sink (`send_message`): recipient and message. */
  datatype Notification = Notification(to: string, notice: Notice)

  /** What a run does: the tables it leaves, the notifications it sends in
      order, and the status writes it commits in order. */
  datatype Progression = Progression(db: Db, sent: seq<Notification>, writes: seq<StatusWrite>)

  /** app.py:43-73. The first driver_assigned ride of the first user with
      the phone number goes to completed, one notification per step, and the
      user's ride state is cleared. A missing user ends the run at line 46
      before anything is written. */
  function Progress(db: Db, phone: string, now: Time): Progression {
    match FindUser(db.users, phone)
    case None => Progression(db, [], [])
    case Some(i) =>
      var u := db.users[i];
      match FindRide(db.rides, u.id, DriverAssigned)
      case None => Progression(db, [], [])
      case Some(k) =>
        var ride := db.rides[k];
        Progression(
          Db(db.users[i := u.(rideState := None)], db.rides[k := ride.(status := Completed, timestamp := now)]),
          [Notification(u.phone, ArrivalNotice), Notification(u.phone, TripStartNotice),
           Notification(u.phone, CompletionNotice(ride.fareEstimate))],
          [StatusWrite(k, DriverAssigned, DriverArrived), StatusWrite(k, DriverArrived, OnTrip),
           StatusWrite(k, OnTrip, Completed)])
  }

  lemma ProgressUnfolds(db: Db, phone: string, now: Time, i: nat, k: nat)
    requires FindUser(db.users, phone) == Some(i)
    requires FindRide(db.rides, db.users[i].id, DriverAssigned) == Some(k)
    ensures var u := db.users[i];
      Progress(db, phone, now) == Progression(
        Db(db.users[i := u.(rideState := None)], db.rides[k := db.rides[k].(status := Completed, timestamp := now)]),
        [Notification(u.phone, ArrivalNotice), Notification(u.phone, TripStartNotice),
         Notification(u.phone, CompletionNotice(db.rides[k].fareEstimate))],
        [StatusWrite(k, DriverAssigned, DriverArrived), StatusWrite(k, DriverArrived, OnTrip),
         StatusWrite(k, OnTrip, Completed)])
  {
  }

  /** With a driver_assigned ride, the run completes that ride, clears the
      user's ride state, sends exactly the arrival, trip start and completion
      (with the fare) notifications to the user in that order, and writes
      the three statuses along consecutive edges. Nothing else changes. */
  lemma ProgressCompletesRide(db: Db, phone: string, now: Time, i: nat, k: nat)
    requires FindUser(db.users, phone) == Some(i)
    requires FindRide(db.rides, db.users[i].id, DriverAssigned) == Some(k)
    ensures var p := Progress(db, phone, now); var ride := db.rides[k];
      && |p.db.rides| == |db.rides| && |p.db.users| == |db.users|
      && p.db.rides[k] == ride.(status := Completed, timestamp := now)
      && (forall j | 0 <= j < |db.rides| && j != k :: p.db.rides[j] == db.rides[j])
      && p.db.users[i] == db.users[i].(rideState := None)
      && (forall j | 0 <= j < |db.users| && j != i :: p.db.users[j] == db.users[j])
      && |p.sent| == 3 && (forall n | 0 <= n < 3 :: p.sent[n].to == phone)
      && p.sent[0].notice == ArrivalNotice && p.sent[1].notice == TripStartNotice
      && p.sent[2].notice == CompletionNotice(ride.fareEstimate)
      && |p.writes| == 3 && p.writes[0].from == DriverAssigned && p.writes[2].to == Completed
      && (forall n | 0 <= n < 3 :: p.writes[n].ride == k && Edge(p.writes[n].from, p.writes[n].to))
      && (forall n | 0 <= n < 2 :: p.writes[n].to == p.writes[n + 1].from)
  {
    ProgressUnfolds(db, phone, now, i, k);
  }

  /** Without a user, or without a driver_assigned ride, the run changes
      nothing and sends nothing. */
  lemma ProgressWithoutRideIsSilent(db: Db, phone: string, now: Time)
    requires FindUser(db.users, phone).None?
      || FindRide(db.rides, db.users[FindUser(db.users, phone).value].id, DriverAssigned).None?
    ensures var p := Progress(db, phone, now); p.db == db && p.sent == [] && p.writes == []
  {
  }

  /** A run keeps the store invariant, its three writes appended to the history. */
  lemma ProgressKeepsConsistent(db: Db, h: seq<StatusWrite>, phone: string, now: Time)
    requires Consistent(db, h)
    ensures var p := Progress(db, phone, now); Consistent(p.db, h + p.writes)
  {
    var p := Progress(db, phone, now);
    match FindUser(db.users, phone)
    case None =>
      assert h + p.writes == h;
    case Some(i) =>
      match FindRide(db.rides, db.users[i].id, DriverAssigned)
      case None =>
        assert h + p.writes == h;
      case Some(k) =>
        var u := db.users[i];
        var r0 := db.rides[k];
        var r1 := r0.(status := DriverArrived);
        var r2 := r1.(status := OnTrip);
        var r3 := r2.(status := Completed, timestamp := now);
        var w0, w1, w2 := StatusWrite(k, DriverAssigned, DriverArrived), StatusWrite(k, DriverArrived, OnTrip),
                          StatusWrite(k, OnTrip, Completed);
        assert p.writes == [w0, w1, w2];
        CommitStatus(db, h, k, r1);
        var db1 := Db(db.users, db.rides[k := r1]);
        CommitStatus(db1, h + [w0], k, r2);
        var db2 := Db(db.users, db1.rides[k := r2]);
        CommitStatus(db2, h + [w0] + [w1], k, r3);
        AppendThree(h, w0, w1, w2);
        UpdateThrice(db.rides, k, r1, r2, r3);
        ConsistentSameKeys(Db(db.users, db.rides[k := r3]), db.users[i := u.(rideState := None)], h + p.writes);
  }
}
