/** The operator control panel (backend/control.js): the client-side
    automation check and the request bodies the panel posts to /api/update.
    Each builder is pure; the lemmas say what the server makes of its body. */
module ControlPanel {
  import opened AirTypes
  import Server

  /** checkAutomation's `updates` object: the devices the three pollutant
      rules would switch on, judged on the aggregate readings. */
  function AutomationDelta(h: Home): (delta: map<DeviceId, DevicePatch>)
    ensures forall d :: d in delta ==> delta[d].active == Some(true)
    ensures AirPurifier in delta <==> h.rules.pm25 && h.aggregate.pm25 > 25.0
    ensures WindowServo in delta <==> h.rules.co2 && h.aggregate.co2 > 1000.0
    ensures IntakeFan in delta <==> h.rules.co2 && h.aggregate.co2 > 1000.0
    ensures HepaFilter in delta <==> h.rules.voc && h.aggregate.voc > 100.0
    ensures IntakeFan in delta ==> delta[IntakeFan].speed == Some(75)
    ensures forall d :: d in delta && d != IntakeFan ==> delta[d].speed.None?
  {
    var on := DevicePatch(Some(true), None);
    var u0: map<DeviceId, DevicePatch> := map[];
    var u1 := if h.rules.pm25 && h.aggregate.pm25 > 25.0 then u0[AirPurifier := on] else u0;
    var u2 := if h.rules.co2 && h.aggregate.co2 > 1000.0
              then u1[WindowServo := on][IntakeFan := DevicePatch(Some(true), Some(75))]
              else u1;
    if h.rules.voc && h.aggregate.voc > 100.0 then u2[HepaFilter := on] else u2
  }

  /** checkAutomation: the request it sends, if any. Nothing is sent before
      the first snapshot has arrived or when no rule fires. */
  function CheckAutomation(data: Option<Home>): (request: Option<Update>)
    ensures request.Some? <==> data.Some? && exists d :: Server.Fires(data.value, d)
    ensures request.Some? ==> request.value == EmptyUpdate.(devices := AutomationDelta(data.value))
  {
    if data.None? then None
    else
      var delta := AutomationDelta(data.value);
      assert delta != map[] <==> exists d :: Server.Fires(data.value, d) by {
        forall d ensures d in delta <==> Server.Fires(data.value, d) {
          DeltaFires(data.value, d);
        }
        if delta != map[] {
          var d :| d in delta;
          assert Server.Fires(data.value, d);
        }
      }
      if delta != map[] then Some(EmptyUpdate.(devices := delta)) else None
  }

  /** A device is in the delta exactly when the server's rule for it fires. */
  lemma DeltaFires(h: Home, d: DeviceId)
    ensures d in AutomationDelta(h) <==> Server.Fires(h, d)
  {
    match d
    case IntakeFan =>
    case HepaFilter =>
    case AirPurifier =>
    case WindowServo =>
  }

  /** The delta never mentions humidity or temperature: it is the same for
      any values of those readings and of the humidity flag. */
  lemma DeltaIgnoresHumidity(h: Home, humidity: real, temp: real, flag: bool)
    ensures AutomationDelta(h.(aggregate := h.aggregate.(humidity := humidity, temp := temp),
                               rules := h.rules.(humidity := flag))) == AutomationDelta(h)
  {
  }

  /** The client's delta, merged onto the devices, is exactly what the
      server's own automation pass produces. */
  lemma DeltaAgreesWithServer(h: Home)
    ensures Server.MergeDevices(h.devices, AutomationDelta(h)) == Server.Automate(h).devices
  {
    var merged := Server.MergeDevices(h.devices, AutomationDelta(h));
    forall d: DeviceId ensures merged.Get(d) == Server.Automate(h).devices.Get(d) {
      match d
      case IntakeFan =>
      case HepaFilter =>
      case AirPurifier =>
      case WindowServo =>
    }
    Server.DevicesExt(merged, Server.Automate(h).devices);
  }

  /** Posting the delta computed from a server response changes nothing:
      the server has already applied the same rules. */
  lemma DeltaRequestIsRedundant(h: Home, u: Update)
    requires Server.Handle(h, u).Done?
    requires CheckAutomation(Some(Server.Handle(h, u).state)).Some?
    ensures var r := Server.Handle(h, u).state;
            Server.Handle(r, CheckAutomation(Some(r)).value) == Server.Done(r)
  {
    var r := Server.Handle(h, u).state;
    var req := CheckAutomation(Some(r)).value;
    Server.HandleResultIsAutomated(h, u);
    DeltaAgreesWithServer(r);
    assert Server.Merged(r, req) == r.(devices := Server.MergeDevices(r.devices, req.devices)) by {
      Server.RulesExt(Server.MergeRules(r.rules, map[]), r.rules);
    }
  }

  /** toggleDevice: names exactly the toggled device; switching the intake
      fan off also sends speed 0. */
  function ToggleDevice(id: DeviceId, active: bool): (u: Update)
    ensures u.devices.Keys == {id}
    ensures u.devices[id].active == Some(active)
    ensures u.devices[id].speed == if id == IntakeFan && !active then Some(0) else None
    ensures u.scalars == map[] && u.currentRoom.None? && u.rules == map[]
  {
    var patch := DevicePatch(Some(active), None);
    var patch' := if id == IntakeFan && !active then patch.(speed := Some(0)) else patch;
    EmptyUpdate.(devices := map[id := patch'])
  }

  /** What the server makes of a toggle: the device is on iff it was switched
      on or its rule fires; a fan switched off with no CO2 breach is stopped;
      every other device only sees the automation pass. */
  lemma ToggleDeviceHandled(h: Home, id: DeviceId, active: bool)
    ensures Server.Handle(h, ToggleDevice(id, active)).Done?
    ensures var r := Server.Handle(h, ToggleDevice(id, active)).state;
            && r.devices.Get(id).active == (active || Server.Fires(h, id))
            && (id == IntakeFan && !active && !Server.Fires(h, IntakeFan) ==> r.devices.intakeFan == DeviceState(false, Some(0)))
            && (forall d: DeviceId :: d != id ==> r.devices.Get(d) == Server.Automate(h).devices.Get(d))
  {
    var u := ToggleDevice(id, active);
    var m := Server.Merged(h, u);
    Server.HandleEffect(h, u);
    forall d: DeviceId ensures Server.Fires(Server.Handle(h, u).state, d) == Server.Fires(h, d) {
      assert m.aggregate == h.aggregate;
      Server.RulesExt(m.rules, h.rules);
    }
  }

  /** toggleRule: names exactly the toggled rule. */
  function ToggleRule(k: RuleId, enabled: bool): (u: Update)
    ensures u.rules == map[k := enabled]
    ensures u.scalars == map[] && u.currentRoom.None? && u.devices == map[]
  {
    EmptyUpdate.(rules := map[k := enabled])
  }

  /** The server sets the toggled flag, keeps the others, and runs the
      rules under the new flags: re-enabling a rule acts at once. */
  lemma ToggleRuleHandled(h: Home, k: RuleId, enabled: bool)
    ensures Server.Handle(h, ToggleRule(k, enabled)) == Server.Done(Server.Automate(h.(rules := h.rules.With(k, enabled))))
  {
    var u := ToggleRule(k, enabled);
    Server.RulesExt(Server.MergeRules(h.rules, u.rules), h.rules.With(k, enabled));
    Server.DevicesExt(Server.MergeDevices(h.devices, map[]), h.devices);
  }

  /** updateFanSpeed: the fan is active exactly when the speed is positive,
      and the speed is passed through. */
  function UpdateFanSpeed(speed: int): (u: Update)
    ensures u.devices.Keys == {IntakeFan}
    ensures u.devices[IntakeFan].active == Some(speed > 0)
    ensures u.devices[IntakeFan].speed == Some(speed)
    ensures u.scalars == map[] && u.currentRoom.None? && u.rules == map[]
  {
    EmptyUpdate.(devices := map[IntakeFan := DevicePatch(Some(speed > 0), Some(speed))])
  }

  /** The slider's speed reaches the server unless the CO2 rule fires, in
      which case the fan runs at 75. */
  lemma FanSpeedHandled(h: Home, speed: int)
    ensures Server.Handle(h, UpdateFanSpeed(speed)).Done?
    ensures var fan := Server.Handle(h, UpdateFanSpeed(speed)).state.devices.intakeFan;
            fan == if Server.Fires(h, IntakeFan) then DeviceState(true, Some(75)) else DeviceState(speed > 0, Some(speed))
  {
    var u := UpdateFanSpeed(speed);
    var m := Server.Merged(h, u);
    assert m.aggregate == h.aggregate && m.rules.co2 == h.rules.co2;
    assert Server.Fires(m, IntakeFan) == Server.Fires(h, IntakeFan);
    assert m.devices.Get(IntakeFan) == DeviceState(speed > 0, Some(speed));
  }

  /** One preset of setScenario: the five readings, written to the whole
      home, and the four devices. */
  datatype Scenario = Scenario(reading: Reading, fanOn: bool, fanSpeed: int,
                               hepaFilter: bool, airPurifier: bool, windowServo: bool)
  {
    /** The preset's `active` flag for device `d`. */
    function Active(d: DeviceId): bool
    {
      match d
      case IntakeFan => fanOn
      case HepaFilter => hepaFilter
      case AirPurifier => airPurifier
      case WindowServo => windowServo
    }
  }

  /** The presets of the `switch` in setScenario; any other name has none. */
  function ScenarioOf(kind: string): (sc: Option<Scenario>)
    ensures sc.Some? <==> kind in {"good", "moderate", "poor", "reset"}
  {
    if kind == "good" || kind == "reset" then
      Some(Scenario(Reading(8.0, 400.0, 15.0, 50.0, 25.0), false, 0, false, false, false))
    else if kind == "moderate" then
      Some(Scenario(Reading(35.0, 850.0, 80.0, 65.0, 30.0), false, 0, false, true, false))
    else if kind == "poor" then
      Some(Scenario(Reading(75.0, 1500.0, 200.0, 75.0, 33.0), true, 75, true, true, true))
    else None
  }

  /** The request body of a preset. */
  function ScenarioUpdate(sc: Scenario): (u: Update)
    ensures u.currentRoom == Some("all") && u.rules == map[]
    ensures forall s :: s in u.scalars ==> u.scalars[s] == sc.reading.Get(s)
    ensures Pm25 in u.scalars && Co2 in u.scalars && Voc in u.scalars && Humidity in u.scalars && Temp in u.scalars
    ensures IntakeFan in u.devices && HepaFilter in u.devices && AirPurifier in u.devices && WindowServo in u.devices
    ensures forall d :: d in u.devices ==> u.devices[d].active == Some(sc.Active(d))
    ensures forall d :: d in u.devices ==> u.devices[d].speed == if d == IntakeFan then Some(sc.fanSpeed) else None
  {
    var r := sc.reading;
    Update(
      map[Pm25 := r.pm25, Co2 := r.co2, Voc := r.voc, Humidity := r.humidity, Temp := r.temp],
      Some("all"),
      map[IntakeFan := DevicePatch(Some(sc.fanOn), Some(sc.fanSpeed)),
          HepaFilter := DevicePatch(Some(sc.hepaFilter), None),
          AirPurifier := DevicePatch(Some(sc.airPurifier), None),
          WindowServo := DevicePatch(Some(sc.windowServo), None)],
      map[])
  }

  /** setScenario's body: the preset's request, or `{}` for an unknown name
      (which the handler still posts). */
  function SetScenario(kind: string): (u: Update)
    ensures ScenarioOf(kind).None? ==> u == EmptyUpdate
    ensures ScenarioOf(kind).Some? ==> u == ScenarioUpdate(ScenarioOf(kind).value)
  {
    match ScenarioOf(kind)
    case None => EmptyUpdate
    case Some(sc) => ScenarioUpdate(sc)
  }

  /** The "good" and "reset" presets send the same body. */
  lemma GoodIsReset()
    ensures SetScenario("good") == SetScenario("reset")
  {
  }

  /** A preset agrees with the rules its own readings trigger: every device
      a rule would switch on is already on, and a fan that CO2 switches on
      already runs at 75. */
  predicate SelfConsistent(sc: Scenario)
  {
    && (sc.reading.pm25 > 25.0 ==> sc.airPurifier)
    && (sc.reading.co2 > 1000.0 ==> sc.windowServo && sc.fanOn && sc.fanSpeed == 75)
    && (sc.reading.voc > 100.0 ==> sc.hepaFilter)
  }

  /** Every preset of setScenario is self-consistent. */
  lemma PresetsSelfConsistent(kind: string)
    requires ScenarioOf(kind).Some?
    ensures SelfConsistent(ScenarioOf(kind).value)
  {
  }

  /** A preset carries all five scalars, so it overwrites any reading. */
  lemma PresetOverlay(x: Reading, sc: Scenario)
    ensures Server.Overlay(x, ScenarioUpdate(sc).scalars) == sc.reading
  {
    Server.ReadingExt(Server.Overlay(x, ScenarioUpdate(sc).scalars), sc.reading);
  }

  /** A preset request writes its readings to the home and every room, so the
      aggregate is the room mean, and stores "all" as the room. */
  lemma ScenarioReadings(h: Home, sc: Scenario)
    ensures Server.Handle(h, ScenarioUpdate(sc)).Done?
    ensures var r := Server.Handle(h, ScenarioUpdate(sc)).state;
            && r.aggregate == sc.reading
            && (forall q: RoomId :: r.rooms.Get(q) == sc.reading)
            && Server.MeanConsistent(r)
            && r.currentRoom == "all"
  {
    var u := ScenarioUpdate(sc);
    assert Server.ScalarTarget(u) == Some(All);
    var w := Server.WriteScalars(h, u, All);
    PresetOverlay(h.aggregate, sc);
    forall q: RoomId ensures w.rooms.Get(q) == sc.reading {
      PresetOverlay(h.rooms.Get(q), sc);
    }
    var r := Server.Handle(h, u).state;
    assert r.aggregate == w.aggregate && r.rooms == w.rooms;
    assert Server.MeanConsistent(r) by {
      forall s: Sensor ensures r.aggregate.Get(s) == Server.RoomMean(r.rooms, s) {
        assert Server.RoomMean(r.rooms, s) == (sc.reading.Get(s) + sc.reading.Get(s) + sc.reading.Get(s)) / 3.0;
      }
    }
  }

  /** A self-consistent preset lands with exactly its own device flags and
      fan speed: the automation pass after it switches nothing further on. */
  lemma ScenarioDevices(h: Home, sc: Scenario)
    requires SelfConsistent(sc)
    ensures Server.Handle(h, ScenarioUpdate(sc)).Done?
    ensures var r := Server.Handle(h, ScenarioUpdate(sc)).state;
            && (forall d: DeviceId :: r.devices.Get(d).active == sc.Active(d))
            && r.devices.intakeFan.speed == Some(sc.fanSpeed)
  {
    var u := ScenarioUpdate(sc);
    var m := Server.Merged(h, u);
    ScenarioReadings(h, sc);
    assert m.aggregate == Server.Handle(h, u).state.aggregate;
    forall d: DeviceId ensures m.devices.Get(d).active == sc.Active(d) {
      assert d in u.devices;
    }
  }

  /** What the server makes of a preset: the home and every room carry the
      preset readings, the aggregate is the room mean, and every device has
      the preset's `active` flag. */
  lemma ScenarioHandled(h: Home, kind: string)
    requires ScenarioOf(kind).Some?
    ensures Server.Handle(h, SetScenario(kind)).Done?
    ensures var sc := ScenarioOf(kind).value;
            var r := Server.Handle(h, SetScenario(kind)).state;
            && r.aggregate == sc.reading
            && (forall q: RoomId :: r.rooms.Get(q) == sc.reading)
            && Server.MeanConsistent(r)
            && r.currentRoom == "all"
            && (forall d: DeviceId :: r.devices.Get(d).active == sc.Active(d))
            && r.devices.intakeFan.speed == Some(sc.fanSpeed)
  {
    var sc := ScenarioOf(kind).value;
    PresetsSelfConsistent(kind);
    ScenarioReadings(h, sc);
    ScenarioDevices(h, sc);
  }

  /** The "good" (or "reset") preset is how every device gets switched off,
      whatever the state before. */
  lemma GoodScenarioSwitchesEverythingOff(h: Home)
    ensures Server.Handle(h, SetScenario("good")).Done?
    ensures var r := Server.Handle(h, SetScenario("good")).state;
            (forall d: DeviceId :: !r.devices.Get(d).active) && r.devices.intakeFan.speed == Some(0)
  {
    ScenarioHandled(h, "good");
  }

  /** An unknown preset name posts `{}`: only the automation pass runs. */
  lemma UnknownScenarioOnlyAutomates(h: Home, kind: string)
    requires ScenarioOf(kind).None?
    ensures Server.Handle(h, SetScenario(kind)) == Server.Done(Server.Automate(h))
  {
    assert Server.MergeDevices(h.devices, map[]) == h.devices by {
      Server.DevicesExt(Server.MergeDevices(h.devices, map[]), h.devices);
    }
    assert Server.MergeRules(h.rules, map[]) == h.rules by {
      Server.RulesExt(Server.MergeRules(h.rules, map[]), h.rules);
    }
  }

  /** updateValue: nothing is sent for an input that parses to NaN
      (`None`); otherwise the body is the panel's room and the one value. */
  function UpdateValue(sensor: Sensor, input: Option<real>, room: string): (request: Option<Update>)
    ensures request.None? <==> input.None?
    ensures request.Some? ==> request.value.scalars == map[sensor := input.value]
    ensures request.Some? ==> request.value.currentRoom == Some(room)
    ensures request.Some? ==> request.value.devices == map[] && request.value.rules == map[]
  {
    if input.None? then None
    else Some(EmptyUpdate.(currentRoom := Some(room), scalars := map[sensor := input.value]))
  }

  /** A value edited for a known room (or the whole home) runs exactly one
      scalar block on the server, stores the room, and then automation. */
  lemma UpdateValueHandled(h: Home, sensor: Sensor, v: real, t: Target)
    ensures var u := UpdateValue(sensor, Some(v), TargetName(t)).value;
            Server.Handle(h, u) == Server.Done(Server.Automate(Server.AfterScalarWrite(h, sensor, v, t).(currentRoom := TargetName(t))))
  {
    var u := UpdateValue(sensor, Some(v), TargetName(t)).value;
    TargetNameRoundTrip(t);
    var w := Server.WriteScalars(h, u, t);
    var a := Server.AfterScalarWrite(h, sensor, v, t);
    assert u.HasScalar();
    forall q: RoomId ensures w.rooms.Get(q) == a.rooms.Get(q) {
      Server.ReadingExt(Server.Overlay(h.rooms.Get(q), u.scalars), h.rooms.Get(q).With(sensor, v));
    }
    assert w.rooms == a.rooms by {
      assert w.rooms.Get(LivingRoom) == a.rooms.Get(LivingRoom);
      assert w.rooms.Get(Bedroom) == a.rooms.Get(Bedroom);
      assert w.rooms.Get(Kitchen) == a.rooms.Get(Kitchen);
    }
    if t == All {
      Server.ReadingExt(Server.Overlay(h.aggregate, u.scalars), h.aggregate.With(sensor, v));
    } else {
      forall s: Sensor ensures w.aggregate.Get(s) == a.aggregate.Get(s) {
        assert w.aggregate.Get(s) == Server.RoomMean(w.rooms, s);
      }
      Server.ReadingExt(w.aggregate, a.aggregate);
    }
    assert Server.MergeDevices(w.devices, map[]) == w.devices by {
      Server.DevicesExt(Server.MergeDevices(w.devices, map[]), w.devices);
    }
    assert Server.MergeRules(w.rules, map[]) == w.rules by {
      Server.RulesExt(Server.MergeRules(w.rules, map[]), w.rules);
    }
  }

  /** How a field shows a reading: rounded to an integer, except the
      temperature (its one-decimal formatting is not modelled). */
  function Displayed(s: Sensor, x: real): (y: real)
    ensures s == Temp ==> y == x
    ensures s != Temp ==> y == JsRound(x) as real && x - 0.5 < y <= x + 0.5
  {
    if s == Temp then x else JsRound(x) as real
  }

  /** updateInputFields: every field shows the selected view, except the
      field being edited, which keeps what the operator typed; before the
      first snapshot nothing changes. */
  function UpdateInputFields(shown: Reading, data: Option<Home>, room: Target, editing: Option<Sensor>): (r: Reading)
    ensures data.None? ==> r == shown
    ensures forall s :: editing == Some(s) ==> r.Get(s) == shown.Get(s)
    ensures data.Some? ==> forall s :: editing != Some(s) ==> r.Get(s) == Displayed(s, View(data.value, room).Get(s))
  {
    if data.None? then shown
    else
      var src := View(data.value, room);
      var field := (s: Sensor) => if editing == Some(s) then shown.Get(s) else Displayed(s, src.Get(s));
      Reading(field(Pm25), field(Co2), field(Voc), field(Humidity), field(Temp))
  }
}
