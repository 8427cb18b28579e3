/** The server's in-memory home state and its /api/update handler
    (server/server.js). The pure functions below define what one request does
    to a snapshot; the class HomeStore holds the state in fields and is proved
    to do the same thing in place. */
module Server {
  import opened AirTypes

  /** The state at process start. The aggregate is a copy of the living room,
      not the room mean. */
  function Defaults(): (h: Home)
    ensures h.aggregate == h.rooms.Get(LivingRoom)
    ensures forall d: DeviceId :: !h.devices.Get(d).active
    ensures forall k: RuleId :: h.rules.Get(k)
    ensures h.currentRoom == "all"
  {
    Home(
      Reading(12.0, 450.0, 20.0, 55.0, 28.0),
      Rooms(Reading(12.0, 450.0, 20.0, 55.0, 28.0),
            Reading(10.0, 400.0, 15.0, 52.0, 26.0),
            Reading(18.0, 600.0, 35.0, 60.0, 29.0)),
      "all",
      Devices(DeviceState(false, Some(0)), DeviceState(false, None),
              DeviceState(false, None), DeviceState(false, None)),
      Rules(true, true, true, true))
  }

  /** The mean of one field over the three rooms (the `reduce` sum divided by
      the room count). */
  function RoomMean(rooms: Rooms, s: Sensor): real
  {
    (rooms.livingRoom.Get(s) + rooms.bedroom.Get(s) + rooms.kitchen.Get(s)) / 3.0
  }

  /** Every aggregate field is the mean of the three rooms' values. */
  predicate MeanConsistent(h: Home)
  {
    forall s: Sensor :: h.aggregate.Get(s) == RoomMean(h.rooms, s)
  }

  lemma DefaultsNotMeanConsistent()
    ensures !MeanConsistent(Defaults())
  {
    assert Defaults().aggregate.Get(Pm25) == 12.0;
    assert RoomMean(Defaults().rooms, Pm25) == 40.0 / 3.0;
  }

  /** updateAverages: all five aggregate fields become the room means. */
  function WithAverages(h: Home): (r: Home)
    ensures MeanConsistent(r)
    ensures r == h.(aggregate := r.aggregate)
  {
    h.(aggregate := Reading(RoomMean(h.rooms, Pm25), RoomMean(h.rooms, Co2), RoomMean(h.rooms, Voc),
                            RoomMean(h.rooms, Humidity), RoomMean(h.rooms, Temp)))
  }

  /** Every room's reading with field `s` set to `v`. */
  function AllRoomsWith(rooms: Rooms, s: Sensor, v: real): (r: Rooms)
    ensures forall q: RoomId :: r.Get(q) == rooms.Get(q).With(s, v)
  {
    Rooms(rooms.livingRoom.With(s, v), rooms.bedroom.With(s, v), rooms.kitchen.With(s, v))
  }

  /** One scalar block of the handler once its room is known: a whole-home
      write sets the aggregate field and that field in every room; a room
      write sets that room's field, leaves the other rooms alone and
      recomputes every aggregate field. */
  function AfterScalarWrite(h: Home, s: Sensor, v: real, t: Target): (r: Home)
    ensures r.devices == h.devices && r.rules == h.rules && r.currentRoom == h.currentRoom
    ensures forall q: RoomId :: r.rooms.Get(q) == if t == All || t == Room(q) then h.rooms.Get(q).With(s, v) else h.rooms.Get(q)
    ensures t == All ==> r.aggregate == h.aggregate.With(s, v)
    ensures t.Room? ==> MeanConsistent(r)
  {
    match t
    case All => h.(aggregate := h.aggregate.With(s, v), rooms := AllRoomsWith(h.rooms, s, v))
    case Room(q) => WithAverages(h.(rooms := h.rooms.With(q, h.rooms.Get(q).With(s, v))))
  }

  /** A whole-home write keeps a consistent aggregate consistent. */
  lemma AllWritePreservesMean(h: Home, s: Sensor, v: real)
    requires MeanConsistent(h)
    ensures MeanConsistent(AfterScalarWrite(h, s, v, All))
  {
    var r := AfterScalarWrite(h, s, v, All);
    forall s' ensures r.aggregate.Get(s') == RoomMean(r.rooms, s') {
      if s' == s {
        assert RoomMean(r.rooms, s) == (v + v + v) / 3.0;
      } else {
        assert RoomMean(r.rooms, s') == RoomMean(h.rooms, s');
      }
    }
  }

  /** A room write of one field also rewrites the other four aggregate
      fields: from the defaults, a kitchen PM2.5 write moves the CO2
      aggregate from the living-room copy 450 to the mean 1450/3. */
  lemma RoomWriteRecomputesOtherFields()
    ensures Defaults().aggregate.co2 == 450.0
    ensures AfterScalarWrite(Defaults(), Pm25, 90.0, Room(Kitchen)).aggregate.co2 == 1450.0 / 3.0
  {
    var r := AfterScalarWrite(Defaults(), Pm25, 90.0, Room(Kitchen));
    assert r.aggregate.Get(Co2) == RoomMean(r.rooms, Co2);
    assert r.rooms.Get(Kitchen).Get(Co2) == 600.0;
  }

  /** The room a request's scalars go to: "all" or one of the three room keys.
      Anything else, absent included, names no room. */
  function ScalarTarget(u: Update): Option<Target>
  {
    if u.currentRoom.Some? then ParseTarget(u.currentRoom.value) else None
  }

  /** Field `s` of `r` replaced by the request's value for `s`, if it has one. */
  function StepReading(r: Reading, scalars: map<Sensor, real>, s: Sensor): Reading
  {
    if s in scalars then r.With(s, scalars[s]) else r
  }

  /** A reading with every scalar the request carries written over it. */
  function Overlay(r: Reading, scalars: map<Sensor, real>): (o: Reading)
    ensures forall s: Sensor :: o.Get(s) == if s in scalars then scalars[s] else r.Get(s)
  {
    StepReading(StepReading(StepReading(StepReading(StepReading(r, scalars, Pm25), scalars, Co2), scalars, Voc), scalars, Humidity), scalars, Temp)
  }

  function WriteIfPresent(h: Home, u: Update, s: Sensor, t: Target): (r: Home)
    ensures r.devices == h.devices && r.rules == h.rules && r.currentRoom == h.currentRoom
    ensures forall q: RoomId :: r.rooms.Get(q) == if t == All || t == Room(q) then StepReading(h.rooms.Get(q), u.scalars, s) else h.rooms.Get(q)
    ensures t == All ==> r.aggregate == StepReading(h.aggregate, u.scalars, s)
    ensures t.Room? && s in u.scalars ==> MeanConsistent(r)
    ensures s !in u.scalars ==> r == h
  {
    if s in u.scalars then AfterScalarWrite(h, s, u.scalars[s], t) else h
  }

  /** The five scalar blocks of the handler, in source order. */
  function WriteScalars(h: Home, u: Update, t: Target): (r: Home)
    ensures r.devices == h.devices && r.rules == h.rules && r.currentRoom == h.currentRoom
    ensures forall q: RoomId :: r.rooms.Get(q) == if t == All || t == Room(q) then Overlay(h.rooms.Get(q), u.scalars) else h.rooms.Get(q)
    ensures t == All ==> r.aggregate == Overlay(h.aggregate, u.scalars)
    ensures t.Room? && u.HasScalar() ==> MeanConsistent(r)
    ensures !u.HasScalar() ==> r == h
  {
    var h1 := WriteIfPresent(h, u, Pm25, t);
    var h2 := WriteIfPresent(h1, u, Co2, t);
    var h3 := WriteIfPresent(h2, u, Voc, t);
    var h4 := WriteIfPresent(h3, u, Humidity, t);
    var r := WriteIfPresent(h4, u, Temp, t);
    assert t.Room? && u.HasScalar() ==> MeanConsistent(r) by {
      if t.Room? && u.HasScalar() {
        ScalarPresent(u.scalars);
      }
    }
    r
  }

  /** A request that carries a scalar names one of the five sensors. */
  lemma ScalarPresent(m: map<Sensor, real>)
    requires m != map[]
    ensures Pm25 in m || Co2 in m || Voc in m || Humidity in m || Temp in m
  {
    var s :| s in m;
    match s
    case Pm25 =>
    case Co2 =>
    case Voc =>
    case Humidity =>
    case Temp =>
  }

  /** Merge of one partial device record over the current one (the object
      spread): the fields present in the patch win, the others are kept. */
  function MergeDevice(d: DeviceState, p: DevicePatch): (r: DeviceState)
    ensures p.active.Some? ==> r.active == p.active.value
    ensures p.active.None? ==> r.active == d.active
    ensures p.speed.Some? ==> r.speed == p.speed
    ensures p.speed.None? ==> r.speed == d.speed
  {
    DeviceState(
      if p.active.Some? then p.active.value else d.active,
      if p.speed.Some? then p.speed else d.speed)
  }

  lemma MergeDeviceIdempotent(d: DeviceState, p: DevicePatch)
    ensures MergeDevice(MergeDevice(d, p), p) == MergeDevice(d, p)
    ensures MergeDevice(d, DevicePatch(None, None)) == d
  {
  }

  /** The device block: every device named in the patch gets its partial
      merged; devices not named keep their record. */
  function MergeDevices(devs: Devices, patch: map<DeviceId, DevicePatch>): (r: Devices)
    ensures forall d: DeviceId :: r.Get(d) == if d in patch then MergeDevice(devs.Get(d), patch[d]) else devs.Get(d)
  {
    var m := (d: DeviceId) => if d in patch then MergeDevice(devs.Get(d), patch[d]) else devs.Get(d);
    Devices(m(IntakeFan), m(HepaFilter), m(AirPurifier), m(WindowServo))
  }

  /** The rule block: the rules named in the patch take the sent flag, the
      others keep theirs. */
  function MergeRules(rules: Rules, patch: map<RuleId, bool>): (r: Rules)
    ensures forall k: RuleId :: r.Get(k) == if k in patch then patch[k] else rules.Get(k)
  {
    var m := (k: RuleId) => if k in patch then patch[k] else rules.Get(k);
    Rules(m(Pm25Rule), m(Co2Rule), m(VocRule), m(HumidityRule))
  }

  /** Whether the rule that drives device `d` fires on snapshot `h`: the rule
      is enabled and the aggregate reading is strictly above its threshold. */
  predicate Fires(h: Home, d: DeviceId)
  {
    match d
    case AirPurifier => h.rules.pm25 && h.aggregate.pm25 > 25.0
    case WindowServo => h.rules.co2 && h.aggregate.co2 > 1000.0
    case IntakeFan => h.rules.co2 && h.aggregate.co2 > 1000.0
    case HepaFilter => h.rules.voc && h.aggregate.voc > 100.0
  }

  /** What a firing rule makes of device `d`: it is switched on, and the
      intake fan's speed is set to 75. */
  function SwitchedOn(d: DeviceId, s: DeviceState): (r: DeviceState)
    ensures r.active
    ensures r.speed == if d == IntakeFan then Some(75) else s.speed
  {
    if d == IntakeFan then s.(active := true, speed := Some(75)) else s.(active := true)
  }

  /** applyAutomation, rule by rule as the source runs them. The contract
      gives the same effect device by device. */
  function Automate(h: Home): (r: Home)
    ensures r == h.(devices := r.devices)
    ensures forall d: DeviceId :: r.devices.Get(d) == if Fires(h, d) then SwitchedOn(d, h.devices.Get(d)) else h.devices.Get(d)
  {
    var d0 := h.devices;
    var d1 := if h.rules.pm25 && h.aggregate.pm25 > 25.0
              then d0.(airPurifier := d0.airPurifier.(active := true)) else d0;
    var d2 := if h.rules.co2 && h.aggregate.co2 > 1000.0
              then d1.(windowServo := d1.windowServo.(active := true),
                       intakeFan := d1.intakeFan.(active := true, speed := Some(75)))
              else d1;
    var d3 := if h.rules.voc && h.aggregate.voc > 100.0
              then d2.(hepaFilter := d2.hepaFilter.(active := true)) else d2;
    h.(devices := d3)
  }

  /** Automation only switches devices on, and its only speed write is 75. */
  lemma AutomationOnlySwitchesOn(h: Home)
    ensures forall d: DeviceId :: h.devices.Get(d).active ==> Automate(h).devices.Get(d).active
    ensures Automate(h).devices.intakeFan.speed in {h.devices.intakeFan.speed, Some(75)}
    ensures forall d: DeviceId :: d != IntakeFan ==> Automate(h).devices.Get(d).speed == h.devices.Get(d).speed
  {
    assert Automate(h).devices.Get(IntakeFan) == Automate(h).devices.intakeFan;
  }

  /** A rule that is disabled, or whose reading is at or below its threshold,
      leaves its devices untouched; the humidity rule drives no device. */
  lemma AutomationLeavesQuietDevices(h: Home)
    ensures !h.rules.pm25 || h.aggregate.pm25 <= 25.0 ==> Automate(h).devices.airPurifier == h.devices.airPurifier
    ensures !h.rules.co2 || h.aggregate.co2 <= 1000.0 ==>
              Automate(h).devices.windowServo == h.devices.windowServo && Automate(h).devices.intakeFan == h.devices.intakeFan
    ensures !h.rules.voc || h.aggregate.voc <= 100.0 ==> Automate(h).devices.hepaFilter == h.devices.hepaFilter
  {
  }

  /** A rule that is enabled and strictly above its threshold switches its
      devices on; the CO2 rule also sets the fan to 75. */
  lemma AutomationFires(h: Home)
    ensures h.rules.pm25 && h.aggregate.pm25 > 25.0 ==> Automate(h).devices.airPurifier.active
    ensures h.rules.co2 && h.aggregate.co2 > 1000.0 ==>
              Automate(h).devices.windowServo.active && Automate(h).devices.intakeFan == DeviceState(true, Some(75))
    ensures h.rules.voc && h.aggregate.voc > 100.0 ==> Automate(h).devices.hepaFilter.active
  {
  }

  /** The rules read only the aggregate PM2.5, CO2 and VOC and their flags:
      humidity, temperature, the humidity flag and the room readings have no
      device effect. */
  lemma AutomationIgnoresHumidityAndRooms(h: Home, humidity: real, temp: real, flag: bool, rooms: Rooms)
    ensures var h' := h.(aggregate := h.aggregate.(humidity := humidity, temp := temp),
                         rules := h.rules.(humidity := flag), rooms := rooms);
            Automate(h').devices == Automate(h).devices
  {
  }

  /** Running the rules twice is the same as running them once. */
  lemma AutomateIdempotent(h: Home)
    ensures Automate(Automate(h)) == Automate(h)
  {
  }

  /** The single speed write can lower a fan an operator set to 100. */
  lemma AutomationCanLowerFanSpeed()
    ensures var h := Defaults().(aggregate := Defaults().aggregate.(co2 := 1500.0),
                                 devices := Defaults().devices.(intakeFan := DeviceState(true, Some(100))));
            Automate(h).devices.intakeFan == DeviceState(true, Some(75))
  {
  }

  /** The handler's result: the new state, or the TypeError that a scalar
      write to a room that does not exist throws (a server error). */
  datatype Outcome = Done(state: Home) | Rejected

  /** The state after the merge steps of a request, before automation. */
  function Merged(h: Home, u: Update): Home
  {
    var target := ScalarTarget(u);
    var h1 := if target.Some? then WriteScalars(h, u, target.value) else h;
    var h2 := h1.(devices := MergeDevices(h1.devices, u.devices), rules := MergeRules(h1.rules, u.rules));
    if u.currentRoom.Some? && u.currentRoom.value != "" then h2.(currentRoom := u.currentRoom.value) else h2
  }

  /** The /api/update handler body: scalars in order, then the device merge,
      the rule flags, the stored room, and the automation pass. A scalar
      aimed at a room that does not exist fails before anything is written. */
  function Handle(h: Home, u: Update): (r: Outcome)
    ensures r.Rejected? <==> u.HasScalar() && ScalarTarget(u).None?
  {
    if u.HasScalar() && ScalarTarget(u).None? then Rejected else Done(Automate(Merged(h, u)))
  }

  /** An accepted request: scalars land where the target says; the
      aggregate is kept without scalars and overlaid on a whole-home write
      (unsent fields keep their values); rules are
      merged, the room is stored only when a non-empty one is sent, and each
      device is its merged record, switched on where its rule fires. */
  lemma HandleEffect(h: Home, u: Update)
    requires Handle(h, u).Done?
    ensures var r := Handle(h, u).state;
            && (forall q: RoomId, s: Sensor :: r.rooms.Get(q).Get(s) ==
                  if s in u.scalars && (ScalarTarget(u) == Some(All) || ScalarTarget(u) == Some(Room(q)))
                  then u.scalars[s] else h.rooms.Get(q).Get(s))
            && (!u.HasScalar() ==> r.aggregate == h.aggregate)
            && (ScalarTarget(u) == Some(All) ==> r.aggregate == Overlay(h.aggregate, u.scalars))
            && r.rules == MergeRules(h.rules, u.rules)
            && r.currentRoom == (if u.currentRoom.Some? && u.currentRoom.value != "" then u.currentRoom.value else h.currentRoom)
            && (forall d: DeviceId :: var m := MergeDevices(h.devices, u.devices).Get(d);
                  r.devices.Get(d) == if Fires(r, d) then SwitchedOn(d, m) else m)
  {
    var m := Merged(h, u);
    var r := Handle(h, u).state;
    assert m.devices == MergeDevices(h.devices, u.devices);
    forall d: DeviceId ensures Fires(r, d) == Fires(m, d) {
    }
  }

  /** A device that the request does not mention keeps its record unless its
      rule fires on the new state. */
  lemma HandleLeavesUnmentionedDevices(h: Home, u: Update, d: DeviceId)
    requires Handle(h, u).Done? && d !in u.devices
    ensures var r := Handle(h, u).state;
            !Fires(r, d) ==> r.devices.Get(d) == h.devices.Get(d)
  {
    HandleEffect(h, u);
  }

  lemma ReadingExt(a: Reading, b: Reading)
    requires forall s: Sensor :: a.Get(s) == b.Get(s)
    ensures a == b
  {
    assert a.Get(Pm25) == b.Get(Pm25) && a.Get(Co2) == b.Get(Co2) && a.Get(Voc) == b.Get(Voc);
    assert a.Get(Humidity) == b.Get(Humidity) && a.Get(Temp) == b.Get(Temp);
  }

  /** A room write changes no other room and leaves every aggregate field
      equal to the room mean. */
  lemma HandleRoomWrite(h: Home, u: Update, q: RoomId)
    requires u.HasScalar() && ScalarTarget(u) == Some(Room(q))
    ensures Handle(h, u).Done?
    ensures forall q': RoomId :: q' != q ==> Handle(h, u).state.rooms.Get(q') == h.rooms.Get(q')
    ensures forall s :: s in u.scalars ==> Handle(h, u).state.rooms.Get(q).Get(s) == u.scalars[s]
    ensures MeanConsistent(Handle(h, u).state)
  {
    var r := Handle(h, u).state;
    HandleEffect(h, u);
    forall q': RoomId | q' != q ensures r.rooms.Get(q') == h.rooms.Get(q') {
      ReadingExt(r.rooms.Get(q'), h.rooms.Get(q'));
    }
    assert MeanConsistent(Merged(h, u));
  }

  /** A whole-home write sets the sent fields in the aggregate and in every
      room; the aggregate fields not sent keep their values. */
  lemma HandleAllWrite(h: Home, u: Update)
    requires u.HasScalar() && ScalarTarget(u) == Some(All)
    ensures Handle(h, u).Done?
    ensures forall s, q: RoomId :: s in u.scalars ==>
              Handle(h, u).state.aggregate.Get(s) == u.scalars[s] && Handle(h, u).state.rooms.Get(q).Get(s) == u.scalars[s]
    ensures Handle(h, u).state.aggregate == Overlay(h.aggregate, u.scalars)
  {
    HandleEffect(h, u);
    assert Handle(h, u).state.aggregate == Merged(h, u).aggregate;
  }

  /** Once the aggregate is the room mean, every accepted request keeps it so. */
  lemma MeanConsistencyPreserved(h: Home, u: Update)
    requires MeanConsistent(h) && Handle(h, u).Done?
    ensures MeanConsistent(Handle(h, u).state)
  {
    var target := ScalarTarget(u);
    var m := Merged(h, u);
    if target.Some? {
      var w := WriteScalars(h, u, target.value);
      if target.value == All {
        forall s: Sensor ensures w.aggregate.Get(s) == RoomMean(w.rooms, s) {
          if s in u.scalars {
            assert RoomMean(w.rooms, s) == (u.scalars[s] + u.scalars[s] + u.scalars[s]) / 3.0;
          } else {
            assert RoomMean(w.rooms, s) == RoomMean(h.rooms, s);
          }
        }
      } else if !u.HasScalar() {
        assert w.aggregate == h.aggregate && w.rooms == h.rooms by {
          assert u.scalars == map[];
        }
      }
      assert MeanConsistent(w);
      assert m.aggregate == w.aggregate && m.rooms == w.rooms;
    } else {
      assert m.aggregate == h.aggregate && m.rooms == h.rooms;
    }
  }

  /** Each response is already a fixpoint of the rules. */
  lemma HandleResultIsAutomated(h: Home, u: Update)
    requires Handle(h, u).Done?
    ensures Automate(Handle(h, u).state) == Handle(h, u).state
  {
    AutomateIdempotent(Merged(h, u));
  }

  /** Automation runs after the device merge: an operator's "fan off" sent
      while the CO2 rule fires ends with the fan on at 75. */
  lemma ManualOffOverriddenByAutomation(h: Home)
    requires h.rules.co2 && h.aggregate.co2 > 1000.0
    ensures var u := EmptyUpdate.(devices := map[IntakeFan := DevicePatch(Some(false), Some(0))]);
            Handle(h, u).Done? && Handle(h, u).state.devices.intakeFan == DeviceState(true, Some(75))
  {
  }

  /** With no scalar in the request, an unknown room name is not checked:
      it is stored as the current room. */
  lemma UnknownRoomStoredWithoutScalars(h: Home)
    ensures Handle(h, EmptyUpdate.(currentRoom := Some("attic"))).Done?
    ensures Handle(h, EmptyUpdate.(currentRoom := Some("attic"))).state.currentRoom == "attic"
  {
  }

  /** The server's state, held in the fields of the module-level object. */
  class HomeStore {
    var aggregate: Reading
    var rooms: Rooms
    var currentRoom: string
    var devices: Devices
    var rules: Rules

    function Snapshot(): Home
      reads this
    {
      Home(aggregate, rooms, currentRoom, devices, rules)
    }

    constructor ()
      ensures Snapshot() == Defaults()
    {
      var d := Defaults();
      aggregate, rooms, currentRoom, devices, rules := d.aggregate, d.rooms, d.currentRoom, d.devices, d.rules;
    }

    /** updateAverages */
    method UpdateAverages()
      modifies this
      ensures Snapshot() == WithAverages(old(Snapshot()))
    {
      aggregate := Reading(RoomMean(rooms, Pm25), RoomMean(rooms, Co2), RoomMean(rooms, Voc),
                           RoomMean(rooms, Humidity), RoomMean(rooms, Temp));
    }

    /** One scalar block of the handler. Fails, before writing anything, when
        the room is neither "all" nor a room key. */
    method WriteScalar(s: Sensor, v: real, room: Option<string>) returns (ok: bool)
      modifies this
      ensures ok == (room.Some? && ParseTarget(room.value).Some?)
      ensures ok ==> Snapshot() == AfterScalarWrite(old(Snapshot()), s, v, ParseTarget(room.value).value)
      ensures !ok ==> Snapshot() == old(Snapshot())
    {
      if room == Some("all") {
        aggregate := aggregate.With(s, v);
        var keys := [LivingRoom, Bedroom, Kitchen];
        for i := 0 to |keys|
          invariant Snapshot() == old(Snapshot()).(aggregate := old(aggregate).With(s, v), rooms := rooms)
          invariant forall q: RoomId :: rooms.Get(q) == if q in keys[..i] then old(rooms.Get(q)).With(s, v) else old(rooms.Get(q))
        {
          rooms := rooms.With(keys[i], rooms.Get(keys[i]).With(s, v));
        }
        assert keys[..|keys|] == keys;
        assert rooms.Get(LivingRoom) == old(rooms.Get(LivingRoom)).With(s, v);
        assert rooms.Get(Bedroom) == old(rooms.Get(Bedroom)).With(s, v);
        assert rooms.Get(Kitchen) == old(rooms.Get(Kitchen)).With(s, v);
        assert rooms == AllRoomsWith(old(rooms), s, v);
        ok := true;
      } else if room.Some? && ParseTarget(room.value).Some? {
        var q := ParseTarget(room.value).value.room;
        rooms := rooms.With(q, rooms.Get(q).With(s, v));
        UpdateAverages();
        ok := true;
      } else {
        ok := false;
      }
    }

    /** The device block: each named device record becomes the merge of its
        old record and the sent partial. */
    method UpdateDevices(patch: map<DeviceId, DevicePatch>)
      modifies this
      ensures Snapshot() == old(Snapshot()).(devices := MergeDevices(old(devices), patch))
    {
      var pending := patch.Keys;
      while pending != {}
        invariant pending <= patch.Keys
        invariant Snapshot() == old(Snapshot()).(devices := devices)
        invariant forall d: DeviceId :: devices.Get(d) ==
                    if d in patch && d !in pending then MergeDevice(old(devices.Get(d)), patch[d]) else old(devices.Get(d))
        decreases pending
      {
        var d :| d in pending;
        devices := devices.With(d, MergeDevice(devices.Get(d), patch[d]));
        pending := pending - {d};
      }
      DevicesExt(devices, MergeDevices(old(devices), patch));
    }

    /** The rule block: each named rule takes the sent flag. */
    method UpdateRules(patch: map<RuleId, bool>)
      modifies this
      ensures Snapshot() == old(Snapshot()).(rules := MergeRules(old(rules), patch))
    {
      var pending := patch.Keys;
      while pending != {}
        invariant pending <= patch.Keys
        invariant Snapshot() == old(Snapshot()).(rules := rules)
        invariant forall k: RuleId :: rules.Get(k) == if k in patch && k !in pending then patch[k] else old(rules.Get(k))
        decreases pending
      {
        var k :| k in pending;
        rules := rules.With(k, patch[k]);
        pending := pending - {k};
      }
      RulesExt(rules, MergeRules(old(rules), patch));
    }

    /** applyAutomation */
    method ApplyAutomation()
      modifies this
      ensures Snapshot() == Automate(old(Snapshot()))
    {
      if rules.pm25 {
        if aggregate.pm25 > 25.0 {
          devices := devices.(airPurifier := devices.airPurifier.(active := true));
        }
      }
      if rules.co2 {
        if aggregate.co2 > 1000.0 {
          devices := devices.(windowServo := devices.windowServo.(active := true));
          devices := devices.(intakeFan := devices.intakeFan.(active := true));
          devices := devices.(intakeFan := devices.intakeFan.(speed := Some(75)));
        }
      }
      if rules.voc {
        if aggregate.voc > 100.0 {
          devices := devices.(hepaFilter := devices.hepaFilter.(active := true));
        }
      }
    }

    /** One of the five scalar blocks of the handler, for sensor `s`. */
    method ScalarBlock(u: Update, s: Sensor) returns (ok: bool)
      modifies this
      ensures ok == (s !in u.scalars || ScalarTarget(u).Some?)
      ensures ok ==> Snapshot() == if ScalarTarget(u).Some? then WriteIfPresent(old(Snapshot()), u, s, ScalarTarget(u).value) else old(Snapshot())
      ensures !ok ==> Snapshot() == old(Snapshot())
    {
      ok := true;
      if s in u.scalars {
        ok := WriteScalar(s, u.scalars[s], u.currentRoom);
      }
    }

    /** The /api/update handler body. On `ok` the state is the handler's
        result; otherwise the state is untouched. */
    method Update(u: Update) returns (ok: bool)
      modifies this
      ensures ok == Handle(old(Snapshot()), u).Done?
      ensures ok ==> Snapshot() == Handle(old(Snapshot()), u).state
      ensures !ok ==> Snapshot() == old(Snapshot())
    {
      ghost var h := Snapshot();
      ghost var t := ScalarTarget(u);
      ok := ScalarBlock(u, Pm25);
      if !ok { return; }
      ok := ScalarBlock(u, Co2);
      if !ok { return; }
      ok := ScalarBlock(u, Voc);
      if !ok { return; }
      ok := ScalarBlock(u, Humidity);
      if !ok { return; }
      ok := ScalarBlock(u, Temp);
      if !ok { return; }
      assert t.Some? ==> Snapshot() == WriteScalars(h, u, t.value);
      if u.HasScalar() {
        ScalarPresent(u.scalars);
      }
      UpdateDevices(u.devices);
      UpdateRules(u.rules);
      if u.currentRoom.Some? && u.currentRoom.value != "" {
        currentRoom := u.currentRoom.value;
      }
      assert Snapshot() == Merged(h, u);
      ApplyAutomation();
    }
  }

  lemma DevicesExt(a: Devices, b: Devices)
    requires forall d: DeviceId :: a.Get(d) == b.Get(d)
    ensures a == b
  {
    assert a.Get(IntakeFan) == b.Get(IntakeFan) && a.Get(HepaFilter) == b.Get(HepaFilter);
    assert a.Get(AirPurifier) == b.Get(AirPurifier) && a.Get(WindowServo) == b.Get(WindowServo);
  }

  lemma RulesExt(a: Rules, b: Rules)
    requires forall k: RuleId :: a.Get(k) == b.Get(k)
    ensures a == b
  {
    assert a.Get(Pm25Rule) == b.Get(Pm25Rule) && a.Get(Co2Rule) == b.Get(Co2Rule);
    assert a.Get(VocRule) == b.Get(VocRule) && a.Get(HumidityRule) == b.Get(HumidityRule);
  }
}
