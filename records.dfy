/** The User and Ride rows the handler reads and writes, the first-match
    queries it runs against them, the ride status graph, and the consistency
    invariant the whole store keeps. */
module Records {

  datatype Option<+T> = None | Some(value: T)

  /** `user.state`: the dialogue position outside ride booking. */
  datatype ConversationState =
    | AwaitingName | AwaitingRole | AwaitingEmergencyContact
    | Registered | EditingProfile | UpdatingName | UpdatingContact

  /** `user.ride_state` when it is not None. */
  datatype RideState = AwaitingPickup | AwaitingDestination | AwaitingRideType | RideInProgress

  /** `ride.status`. */
  datatype RideStatus = Requested | DriverAssigned | DriverArrived | OnTrip | Completed | Canceled

  datatype RideType = Economy | Premium

  /** A clock reading (`datetime.now()`), supplied by the caller. */
  type Time = nat

  /** A User row. `id` is the autoincrement key; the coordinates are the
      strings the last pickup message carried. */
  datatype User = User(
    id: nat,
    phone: string,
    state: ConversationState,
    rideState: Option<RideState>,
    latitude: Option<string>,
    longitude: Option<string>)

  /** A Ride row; `userId` is the owning User's `id`. */
  datatype Ride = Ride(
    id: nat,
    userId: nat,
    pickup: string,
    destination: string,
    rideType: Option<RideType>,
    status: RideStatus,
    driverName: Option<string>,
    carDetails: Option<string>,
    estimatedArrival: Option<int>,
    fareEstimate: Option<string>,
    timestamp: Time)

  /** The persisted tables, in insertion order. */
  datatype Db = Db(users: seq<User>, rides: seq<Ride>)

  /** One committed assignment to `rides[ride].status`. */
  datatype StatusWrite = StatusWrite(ride: nat, from: RideStatus, to: RideStatus)

  /** How an f-string renders a nullable column: its value, or `None`. */
  function FormatField(v: Option<string>): string {
    match v
    case Some(s) => s
    case None => "None"
  }

  /** `query(User).filter_by(phone_number = phone).first()`: the position of
      the first row with that phone number, if any. */
  function FindUser(users: seq<User>, phone: string): (r: Option<nat>)
    ensures r.Some? ==> r.value < |users| && users[r.value].phone == phone
    ensures r.Some? ==> forall j | 0 <= j < r.value :: users[j].phone != phone
    ensures r.None? <==> forall j | 0 <= j < |users| :: users[j].phone != phone
  {
    if users == [] then None
    else if users[0].phone == phone then Some(0)
    else match FindUser(users[1..], phone)
      case None => None
      case Some(j) => Some(j + 1)
  }

  /** `query(Ride).filter_by(user_id = userId, status = status).first()`. */
  function FindRide(rides: seq<Ride>, userId: nat, status: RideStatus): (r: Option<nat>)
    ensures r.Some? ==> r.value < |rides| && rides[r.value].userId == userId && rides[r.value].status == status
    ensures r.Some? ==> forall j | 0 <= j < r.value :: !(rides[j].userId == userId && rides[j].status == status)
    ensures r.None? <==> forall j | 0 <= j < |rides| :: !(rides[j].userId == userId && rides[j].status == status)
  {
    if rides == [] then None
    else if rides[0].userId == userId && rides[0].status == status then Some(0)
    else match FindRide(rides[1..], userId, status)
      case None => None
      case Some(j) => Some(j + 1)
  }

  /** Rewriting rows without touching phone numbers leaves the user lookup as it was. */
  lemma FindUserSamePhones(users: seq<User>, users': seq<User>, phone: string)
    requires |users| <= |users'|
    requires forall j | 0 <= j < |users| :: users'[j].phone == users[j].phone
    requires FindUser(users, phone).Some?
    ensures FindUser(users', phone) == FindUser(users, phone)
  {
    var i := FindUser(users, phone).value;
    assert users'[i].phone == phone;
  }

  /** A matching ride appended after rows that do not match is the one found. */
  lemma FindRideAppended(rides: seq<Ride>, ride: Ride, userId: nat, status: RideStatus)
    requires forall k | 0 <= k < |rides| :: !(rides[k].userId == userId && rides[k].status == status)
    requires ride.userId == userId && ride.status == status
    ensures FindRide(rides + [ride], userId, status) == Some(|rides|)
  {
    var all := rides + [ride];
    assert all[|rides|] == ride;
    assert forall k | 0 <= k < |rides| :: all[k] == rides[k];
  }

  /** Keys are positions plus one and every ride belongs to an existing user. */
  predicate Wellformed(db: Db) {
    && (forall i | 0 <= i < |db.users| :: db.users[i].id == i + 1)
    && (forall k | 0 <= k < |db.rides| :: db.rides[k].id == k + 1 && 1 <= db.rides[k].userId <= |db.users|)
  }

  /** The ride status graph:
      requested -> driver_assigned -> driver_arrived -> on_trip -> completed,
      and requested -> canceled. */
  predicate Edge(from: RideStatus, to: RideStatus) {
    || (from == Requested && to == DriverAssigned)
    || (from == DriverAssigned && to == DriverArrived)
    || (from == DriverArrived && to == OnTrip)
    || (from == OnTrip && to == Completed)
    || (from == Requested && to == Canceled)
  }

  predicate Terminal(s: RideStatus) {
    s == Completed || s == Canceled
  }

  /** Position along the main line of the graph (canceled sits beside requested). */
  function Rank(s: RideStatus): nat {
    match s
    case Requested => 0
    case Canceled => 1
    case DriverAssigned => 1
    case DriverArrived => 2
    case OnTrip => 3
    case Completed => 4
  }

  /** `to` can be reached from `from` by following zero or more edges. */
  predicate Reachable(from: RideStatus, to: RideStatus) {
    from == to
    || (from == Requested && to == Canceled)
    || (from != Canceled && to != Canceled && Rank(from) < Rank(to))
  }

  /** Reachability is the reflexive-transitive closure of `Edge`: it contains
      every edge, is transitive, and nothing leaves a terminal status. */
  lemma ReachableClosesEdges(a: RideStatus, b: RideStatus, c: RideStatus)
    ensures Edge(a, b) ==> Reachable(a, b) && Rank(a) < Rank(b)
    ensures Reachable(a, b) && Reachable(b, c) ==> Reachable(a, c)
    ensures Terminal(a) && Reachable(a, b) ==> a == b
    ensures Reachable(a, b) && a != b ==> exists m :: Edge(a, m) && Reachable(m, b)
  {
    if Reachable(a, b) && a != b {
      var m := match a
        case Requested => if b == Canceled then Canceled else DriverAssigned
        case DriverAssigned => DriverArrived
        case DriverArrived => OnTrip
        case _ => Completed;
      assert Edge(a, m) && Reachable(m, b);
    }
  }

  function Last<T>(h: seq<T>): T
    requires h != []
  {
    h[|h| - 1]
  }

  /** The status of ride `k` after the writes `h`, for a ride created as requested. */
  function Replay(h: seq<StatusWrite>, k: nat): RideStatus {
    if h == [] then Requested
    else if Last(h).ride == k then Last(h).to
    else Replay(h[..|h| - 1], k)
  }

  /** Every write starts from the status its ride had at that point and
      follows an edge. */
  predicate Chained(h: seq<StatusWrite>) {
    forall j | 0 <= j < |h| :: h[j].from == Replay(h[..j], h[j].ride) && Edge(h[j].from, h[j].to)
  }

  /** The invariant of the store: well-formed keys, a chained write history
      about existing rides, and every ride's status equal to the replay of
      its writes. */
  predicate Consistent(db: Db, h: seq<StatusWrite>) {
    && Wellformed(db)
    && Chained(h)
    && (forall j | 0 <= j < |h| :: h[j].ride < |db.rides|)
    && (forall k | 0 <= k < |db.rides| :: db.rides[k].status == Replay(h, k))
  }

  lemma ReplayAppend(h: seq<StatusWrite>, w: StatusWrite, k: nat)
    ensures Replay(h + [w], k) == if w.ride == k then w.to else Replay(h, k)
  {
    assert (h + [w])[..|h|] == h;
  }

  /** A write that starts where its ride stands and follows an edge keeps
      the history chained. */
  lemma ChainedAppend(h: seq<StatusWrite>, w: StatusWrite)
    requires Chained(h)
    requires w.from == Replay(h, w.ride) && Edge(w.from, w.to)
    ensures Chained(h + [w])
  {
    var h' := h + [w];
    forall j | 0 <= j < |h'|
      ensures h'[j].from == Replay(h'[..j], h'[j].ride) && Edge(h'[j].from, h'[j].to)
    {
      if j < |h| {
        assert h'[..j] == h[..j];
      } else {
        assert h'[..j] == h;
      }
    }
  }

  /** A ride no write mentions is still requested. */
  lemma {:induction false} ReplayUntouched(h: seq<StatusWrite>, k: nat)
    requires forall j | 0 <= j < |h| :: h[j].ride != k
    ensures Replay(h, k) == Requested
  {
    if h != [] {
      ReplayUntouched(h[..|h| - 1], k);
    }
  }

  /** Along a chained history each ride's status only moves forward: the
      status after any prefix reaches the status after the whole history. */
  lemma {:induction false} ChainedMonotone(h: seq<StatusWrite>, n: nat, k: nat)
    requires Chained(h) && n <= |h|
    ensures Reachable(Replay(h[..n], k), Replay(h, k))
  {
    if n < |h| {
      var p := h[..|h| - 1];
      assert Chained(p) by {
        forall j | 0 <= j < |p| ensures p[j].from == Replay(p[..j], p[j].ride) && Edge(p[j].from, p[j].to) {
          assert p[..j] == h[..j];
        }
      }
      assert p[..n] == h[..n];
      ChainedMonotone(p, n, k);
      var w := Last(h);
      assert h[..|h| - 1] == p;
      if w.ride == k {
        ReachableClosesEdges(Replay(h[..n], k), Replay(p, k), w.to);
      }
    } else {
      assert h[..n] == h;
    }
  }

  /** Every status a chained history produces is reachable from requested,
      and a terminal status is never left. */
  lemma ChainedForward(h: seq<StatusWrite>, n: nat, k: nat)
    requires Chained(h) && n <= |h|
    ensures Reachable(Requested, Replay(h, k))
    ensures Terminal(Replay(h[..n], k)) ==> Replay(h, k) == Replay(h[..n], k)
  {
    ChainedMonotone(h, 0, k);
    assert h[..0] == [];
    ChainedMonotone(h, n, k);
  }

  /** Committing one status write along an edge, with the ride's key and
      owner untouched, keeps the store invariant. */
  lemma CommitStatus(db: Db, h: seq<StatusWrite>, k: nat, ride: Ride)
    requires Consistent(db, h) && k < |db.rides|
    requires Edge(db.rides[k].status, ride.status)
    requires ride.id == db.rides[k].id && ride.userId == db.rides[k].userId
    ensures Consistent(Db(db.users, db.rides[k := ride]), h + [StatusWrite(k, db.rides[k].status, ride.status)])
  {
    var w := StatusWrite(k, db.rides[k].status, ride.status);
    ChainedAppend(h, w);
    forall j | 0 <= j < |db.rides| ensures db.rides[k := ride][j].status == Replay(h + [w], j) {
      ReplayAppend(h, w, j);
    }
  }

  /** Three appends of one element each are one append of all three. */
  lemma AppendThree<T>(s: seq<T>, a: T, b: T, c: T)
    ensures s + [a] + [b] + [c] == s + [a, b, c]
  {
  }

  /** Updating one position three times leaves only the last update. */
  lemma UpdateThrice<T>(s: seq<T>, k: nat, a: T, b: T, c: T)
    requires k < |s|
    ensures s[k := a][k := b][k := c] == s[k := c]
  {
  }

  /** Rewriting user rows without touching their keys keeps the store invariant. */
  lemma ConsistentSameKeys(db: Db, users: seq<User>, h: seq<StatusWrite>)
    requires Consistent(db, h)
    requires |users| == |db.users| && forall j | 0 <= j < |users| :: users[j].id == db.users[j].id
    ensures Consistent(Db(users, db.rides), h)
  {
  }
}
