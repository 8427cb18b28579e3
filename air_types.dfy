/** The data model shared by the server and the two browser scripts: the five
    readings, the fixed room, device and rule sets, the home snapshot that the
    server returns as JSON, and the partial-update request body that the
    clients post to /api/update. */
module AirTypes {

  datatype Option<+T> = None | Some(value: T)

  /** The five scalar measurements, in the order the update handler visits them. */
  datatype Sensor = Pm25 | Co2 | Voc | Humidity | Temp

  /** One set of the five readings (whole-home aggregate or one room). */
  datatype Reading = Reading(pm25: real, co2: real, voc: real, humidity: real, temp: real)
  {
    function Get(s: Sensor): real
    {
      match s
      case Pm25 => pm25
      case Co2 => co2
      case Voc => voc
      case Humidity => humidity
      case Temp => temp
    }

    /** The reading with field `s` replaced by `v`. */
    function With(s: Sensor, v: real): (r: Reading)
      ensures r.Get(s) == v
      ensures forall s' :: s' != s ==> r.Get(s') == Get(s')
    {
      match s
      case Pm25 => this.(pm25 := v)
      case Co2 => this.(co2 := v)
      case Voc => this.(voc := v)
      case Humidity => this.(humidity := v)
      case Temp => this.(temp := v)
    }
  }

  datatype RoomId = LivingRoom | Bedroom | Kitchen

  /** The three fixed rooms' readings (the keys of `rooms`). */
  datatype Rooms = Rooms(livingRoom: Reading, bedroom: Reading, kitchen: Reading)
  {
    function Get(q: RoomId): Reading
    {
      match q
      case LivingRoom => livingRoom
      case Bedroom => bedroom
      case Kitchen => kitchen
    }

    function With(q: RoomId, r: Reading): (rs: Rooms)
      ensures rs.Get(q) == r
      ensures forall q' :: q' != q ==> rs.Get(q') == Get(q')
    {
      match q
      case LivingRoom => this.(livingRoom := r)
      case Bedroom => this.(bedroom := r)
      case Kitchen => this.(kitchen := r)
    }
  }

  /** Where a scalar write goes: the whole home or one room. */
  datatype Target = All | Room(room: RoomId)

  /** The identifier a client sends as `currentRoom`. */
  function TargetName(t: Target): string
  {
    match t
    case All => "all"
    case Room(LivingRoom) => "livingRoom"
    case Room(Bedroom) => "bedroom"
    case Room(Kitchen) => "kitchen"
  }

  /** The server's reading of `currentRoom`: "all", or a key of `rooms`.
      Any other value names no room. */
  function ParseTarget(name: string): (t: Option<Target>)
    ensures t.Some? <==> name in {"all", "livingRoom", "bedroom", "kitchen"}
    ensures t.Some? ==> TargetName(t.value) == name
  {
    if name == "all" then Some(All)
    else if name == "livingRoom" then Some(Room(LivingRoom))
    else if name == "bedroom" then Some(Room(Bedroom))
    else if name == "kitchen" then Some(Room(Kitchen))
    else None
  }

  lemma TargetNameRoundTrip(t: Target)
    ensures ParseTarget(TargetName(t)) == Some(t)
  {
  }

  datatype DeviceId = IntakeFan | HepaFilter | AirPurifier | WindowServo

  /** A device record. Only the intake fan starts with a `speed` field, but a
      merged partial can add one to any device, so it is optional. */
  datatype DeviceState = DeviceState(active: bool, speed: Option<int>)

  /** The four fixed devices (the keys of `devices`). */
  datatype Devices = Devices(intakeFan: DeviceState, hepaFilter: DeviceState,
                             airPurifier: DeviceState, windowServo: DeviceState)
  {
    function Get(d: DeviceId): DeviceState
    {
      match d
      case IntakeFan => intakeFan
      case HepaFilter => hepaFilter
      case AirPurifier => airPurifier
      case WindowServo => windowServo
    }

    function With(d: DeviceId, s: DeviceState): (ds: Devices)
      ensures ds.Get(d) == s
      ensures forall d' :: d' != d ==> ds.Get(d') == Get(d')
    {
      match d
      case IntakeFan => this.(intakeFan := s)
      case HepaFilter => this.(hepaFilter := s)
      case AirPurifier => this.(airPurifier := s)
      case WindowServo => this.(windowServo := s)
    }
  }

  /** A partial device record in a request: only the present fields are merged. */
  datatype DevicePatch = DevicePatch(active: Option<bool>, speed: Option<int>)

  datatype RuleId = Pm25Rule | Co2Rule | VocRule | HumidityRule

  /** The four rule-enable flags (the keys of `rules`). */
  datatype Rules = Rules(pm25: bool, co2: bool, voc: bool, humidity: bool)
  {
    function Get(k: RuleId): bool
    {
      match k
      case Pm25Rule => pm25
      case Co2Rule => co2
      case VocRule => voc
      case HumidityRule => humidity
    }

    function With(k: RuleId, b: bool): (rs: Rules)
      ensures rs.Get(k) == b
      ensures forall k' :: k' != k ==> rs.Get(k') == Get(k')
    {
      match k
      case Pm25Rule => this.(pm25 := b)
      case Co2Rule => this.(co2 := b)
      case VocRule => this.(voc := b)
      case HumidityRule => this.(humidity := b)
    }
  }

  /** The whole state the server holds and returns (the `sensorData` object). */
  datatype Home = Home(
    aggregate: Reading,
    rooms: Rooms,
    currentRoom: string,
    devices: Devices,
    rules: Rules)

  /** The readings a view shows for a room selection: the aggregate for the
      whole home, the room's own record otherwise. */
  function View(h: Home, t: Target): (r: Reading)
    ensures t == All ==> r == h.aggregate
    ensures t.Room? ==> r == h.rooms.Get(t.room)
  {
    match t
    case All => h.aggregate
    case Room(q) => h.rooms.Get(q)
  }

  /** A partial-update request body. Absent JSON fields are `None` or absent keys. */
  datatype Update = Update(
    scalars: map<Sensor, real>,
    currentRoom: Option<string>,
    devices: map<DeviceId, DevicePatch>,
    rules: map<RuleId, bool>)
  {
    predicate HasScalar()
    {
      scalars != map[]
    }
  }

  /** The body `{}`. */
  const EmptyUpdate: Update := Update(map[], None, map[], map[])

  /** JavaScript's Math.round on an exact value: the nearest integer, halves
      rounded up. */
  function JsRound(x: real): (n: int)
    ensures n as real - 0.5 <= x < n as real + 0.5
  {
    (x + 0.5).Floor
  }

  lemma JsRoundMonotone(x: real, y: real)
    requires x <= y
    ensures JsRound(x) <= JsRound(y)
  {
  }

  lemma JsRoundOfInteger(n: int)
    ensures JsRound(n as real) == n
  {
  }
}
