/** The read-only dashboard (frontend/app.js): the air-quality index and
    badge of the selected view, the room label, the narration of rule
    changes and the bounded system log it writes to. */
module Dashboard {
  import opened AirTypes
  import Server
  import ControlPanel

  // ---------------------------------------------------------------------
  // Air-quality index

  /** The PM2.5 sub-score: 100 up to 12, then 75, 50, 25, and 0 above 75. */
  function Pm25Score(x: real): (score: int)
    ensures score in {0, 25, 50, 75, 100}
    ensures score == 100 <==> x <= 12.0
    ensures score == 0 <==> x > 75.0
  {
    if x > 75.0 then 0 else if x > 50.0 then 25 else if x > 25.0 then 50 else if x > 12.0 then 75 else 100
  }

  /** The CO2 sub-score: 100 up to 800 ppm, 0 above 2000 ppm. */
  function Co2Score(x: real): (score: int)
    ensures score in {0, 25, 50, 75, 100}
    ensures score == 100 <==> x <= 800.0
    ensures score == 0 <==> x > 2000.0
  {
    if x > 2000.0 then 0 else if x > 1500.0 then 25 else if x > 1000.0 then 50 else if x > 800.0 then 75 else 100
  }

  /** The VOC sub-score: 100 up to 50 ppb, 0 above 300 ppb. */
  function VocScore(x: real): (score: int)
    ensures score in {0, 25, 50, 75, 100}
    ensures score == 100 <==> x <= 50.0
    ensures score == 0 <==> x > 300.0
  {
    if x > 300.0 then 0 else if x > 200.0 then 25 else if x > 100.0 then 50 else if x > 50.0 then 75 else 100
  }

  /** The humidity sub-score: 100 in the ideal band 40..65 %, never below 25. */
  function HumidityScore(x: real): (score: int)
    ensures score in {25, 50, 75, 100}
    ensures score == 100 <==> 40.0 <= x <= 65.0
    ensures score == 25 <==> x > 80.0 || x < 30.0
  {
    if x > 80.0 || x < 30.0 then 25
    else if x > 70.0 || x < 35.0 then 50
    else if x > 65.0 || x < 40.0 then 75
    else 100
  }

  /** The temperature sub-score: 100 in the ideal band 20..28 degrees, never below 25. */
  function TempScore(x: real): (score: int)
    ensures score in {25, 50, 75, 100}
    ensures score == 100 <==> 20.0 <= x <= 28.0
    ensures score == 25 <==> x > 35.0 || x < 15.0
  {
    if x > 35.0 || x < 15.0 then 25
    else if x > 32.0 || x < 18.0 then 50
    else if x > 28.0 || x < 20.0 then 75
    else 100
  }

  /** Every reading is in its ideal band. */
  predicate Ideal(r: Reading)
  {
    && r.pm25 <= 12.0 && r.co2 <= 800.0 && r.voc <= 50.0
    && 40.0 <= r.humidity <= 65.0 && 20.0 <= r.temp <= 28.0
  }

  /** The weighted sum 0.35, 0.35, 0.15, 0.08, 0.07 of the sub-scores,
      computed exactly, before rounding. */
  function WeightedScore(r: Reading): real
  {
    (35 * Pm25Score(r.pm25) + 35 * Co2Score(r.co2) + 15 * VocScore(r.voc)
      + 8 * HumidityScore(r.humidity) + 7 * TempScore(r.temp)) as real / 100.0
  }

  /** calculateAQI: the rounded weighted score, clamped to 0..100. It is 100
      exactly when every reading is ideal, and never below 4. */
  function CalculateAqi(r: Reading): (aqi: int)
    ensures 4 <= aqi <= 100
    ensures aqi == 100 <==> Ideal(r)
  {
    var raw := JsRound(WeightedScore(r));
    if raw < 0 then 0 else if raw > 100 then 100 else raw
  }

  /** The clamp never binds: the weighted score lies in 3.75..100, which
      rounds into 4..100. */
  lemma ClampIsDead(r: Reading)
    ensures 4 <= JsRound(WeightedScore(r)) <= 100
    ensures CalculateAqi(r) == JsRound(WeightedScore(r))
  {
    assert 3.75 <= WeightedScore(r) <= 100.0;
    JsRoundMonotone(3.75, WeightedScore(r));
    JsRoundMonotone(WeightedScore(r), 100.0);
    JsRoundOfInteger(100);
    assert JsRound(3.75) == 4;
  }

  /** The three pollutant sub-scores never rise as their reading rises. */
  lemma SubScoresMonotone(x: real, y: real)
    requires x <= y
    ensures Pm25Score(y) <= Pm25Score(x)
    ensures Co2Score(y) <= Co2Score(x)
    ensures VocScore(y) <= VocScore(x)
  {
  }

  /** A higher PM2.5 reading never raises the index. */
  lemma {:induction false} AqiMonotoneInPm25(r: Reading, y: real)
    requires r.pm25 <= y
    ensures CalculateAqi(r.(pm25 := y)) <= CalculateAqi(r)
  {
    SubScoresMonotone(r.pm25, y);
    assert WeightedScore(r.(pm25 := y)) <= WeightedScore(r);
    JsRoundMonotone(WeightedScore(r.(pm25 := y)), WeightedScore(r));
    ClampIsDead(r);
    ClampIsDead(r.(pm25 := y));
  }

  /** A higher CO2 reading never raises the index. */
  lemma {:induction false} AqiMonotoneInCo2(r: Reading, y: real)
    requires r.co2 <= y
    ensures CalculateAqi(r.(co2 := y)) <= CalculateAqi(r)
  {
    SubScoresMonotone(r.co2, y);
    assert WeightedScore(r.(co2 := y)) <= WeightedScore(r);
    JsRoundMonotone(WeightedScore(r.(co2 := y)), WeightedScore(r));
    ClampIsDead(r);
    ClampIsDead(r.(co2 := y));
  }

  /** A higher VOC reading never raises the index. */
  lemma {:induction false} AqiMonotoneInVoc(r: Reading, y: real)
    requires r.voc <= y
    ensures CalculateAqi(r.(voc := y)) <= CalculateAqi(r)
  {
    SubScoresMonotone(r.voc, y);
    assert WeightedScore(r.(voc := y)) <= WeightedScore(r);
    JsRoundMonotone(WeightedScore(r.(voc := y)), WeightedScore(r));
    ClampIsDead(r);
    ClampIsDead(r.(voc := y));
  }

  /** The status badge. */
  datatype Badge = Excellent | Moderate | Poor

  /** updateAirQualityStatus: EXCELLENT from 80, MODERATE from 50, POOR below. */
  function BadgeFor(aqi: int): (b: Badge)
    ensures b == Excellent <==> aqi >= 80
    ensures b == Moderate <==> 50 <= aqi < 80
    ensures b == Poor <==> aqi < 50
  {
    if aqi >= 80 then Excellent else if aqi >= 50 then Moderate else Poor
  }

  /** The index and badge updateDisplay shows for a room selection. */
  function DisplayedBadge(data: Home, room: Target): (b: Badge)
    ensures Ideal(View(data, room)) ==> b == Excellent
  {
    BadgeFor(CalculateAqi(View(data, room)))
  }

  /** The start-up state shows EXCELLENT in every view: the whole home and
      two rooms score 100, and the kitchen's 18 and 29 degrees still leave
      it above 80. */
  lemma DefaultsShowExcellent(t: Target)
    ensures DisplayedBadge(Server.Defaults(), t) == Excellent
  {
    var d := Server.Defaults();
    assert WeightedScore(d.rooms.Get(Kitchen)) == 89.5;
  }

  /** Each preset of the control panel shows the badge it is named after
      (indices 100, 68 and 41). */
  lemma PresetBadges()
    ensures BadgeFor(CalculateAqi(ControlPanel.ScenarioOf("good").value.reading)) == Excellent
    ensures BadgeFor(CalculateAqi(ControlPanel.ScenarioOf("moderate").value.reading)) == Moderate
    ensures BadgeFor(CalculateAqi(ControlPanel.ScenarioOf("poor").value.reading)) == Poor
  {
    var moderate := ControlPanel.ScenarioOf("moderate").value.reading;
    var poor := ControlPanel.ScenarioOf("poor").value.reading;
    assert WeightedScore(moderate) == 68.25;
    assert WeightedScore(poor) == 41.25;
  }

  // ---------------------------------------------------------------------
  // Room label

  /** ASCII upper-casing of one character. */
  function UpperChar(c: char): (u: char)
    ensures !('a' <= u <= 'z')
    ensures 'a' <= c <= 'z' ==> u as int == c as int - 32
    ensures !('a' <= c <= 'z') ==> u == c
  {
    if 'a' <= c <= 'z' then (c as int - 32) as char else c
  }

  /** String.prototype.toUpperCase, on ASCII letters only. */
  function ToUpper(s: string): (u: string)
    ensures |u| == |s|
    ensures forall i :: 0 <= i < |s| ==> u[i] == UpperChar(s[i])
  {
    if s == [] then [] else [UpperChar(s[0])] + ToUpper(s[1..])
  }

  /** Upper-casing twice is upper-casing once. */
  lemma ToUpperIdempotent(s: string)
    ensures ToUpper(ToUpper(s)) == ToUpper(s)
  {
    assert forall i :: 0 <= i < |s| ==> ToUpper(ToUpper(s))[i] == ToUpper(s)[i];
  }

  /** getRoomDisplayName: the label of a known selection, otherwise the
      identifier upper-cased. */
  function RoomDisplayName(room: string): (name: string)
    ensures room == "all" ==> name == "ALL ROOMS"
    ensures room == "livingRoom" ==> name == "LIVING ROOM"
    ensures room == "bedroom" ==> name == "BEDROOM"
    ensures room == "kitchen" ==> name == "KITCHEN"
    ensures room !in {"all", "livingRoom", "bedroom", "kitchen"} ==> name == ToUpper(room)
  {
    if room == "all" then "ALL ROOMS"
    else if room == "livingRoom" then "LIVING ROOM"
    else if room == "bedroom" then "BEDROOM"
    else if room == "kitchen" then "KITCHEN"
    else ToUpper(room)
  }

  /** A label never holds a lower-case ASCII letter. */
  lemma LabelIsUpperCase(room: string)
    ensures forall i :: 0 <= i < |RoomDisplayName(room)| ==> !('a' <= RoomDisplayName(room)[i] <= 'z')
  {
    var name := RoomDisplayName(room);
    if room !in {"all", "livingRoom", "bedroom", "kitchen"} {
      assert forall i :: 0 <= i < |name| ==> name[i] == UpperChar(room[i]);
    } else {
      assert name in {"ALL ROOMS", "LIVING ROOM", "BEDROOM", "KITCHEN"};
    }
  }

  // ---------------------------------------------------------------------
  // Narration

  /** The message kinds of addLog. */
  datatype LogKind = Info | Success | Warning | Error

  /** The bracketed tag a log line carries for its kind. */
  function Prefix(k: LogKind): (tag: string)
    ensures |tag| >= 4 && tag[0] == '[' && tag[|tag| - 1] == ']'
  {
    match k
    case Info => "[INFO]"
    case Success => "[OK]"
    case Warning => "[WARN]"
    case Error => "[ERR]"
  }

  /** Different kinds are tagged differently. */
  lemma PrefixInjective(a: LogKind, b: LogKind)
    requires Prefix(a) == Prefix(b)
    ensures a == b
  {
    match a
    case Info => assert Prefix(a)[1] == 'I';
    case Success => assert Prefix(a)[1] == 'O';
    case Warning => assert Prefix(a)[1] == 'W';
    case Error => assert Prefix(a)[1] == 'E' && |Prefix(a)| == 5;
  }

  /** One narrated message, carrying the aggregate value it quotes. */
  datatype Note =
    | PurifierActivated(pm25: real) | PurifierDeactivated(pm25: real)
    | WindowOpened(co2: real) | WindowClosed(co2: real)
    | HepaActivated(voc: real) | HepaDeactivated(voc: real)
    | DehumidifyAdvice(humidity: real)

  /** A high reading is a warning, a normalised one a success, the humidity
      advice information. */
  function KindOf(n: Note): (k: LogKind)
    ensures k == Warning <==> n.PurifierActivated? || n.WindowOpened? || n.HepaActivated?
    ensures k == Success <==> n.PurifierDeactivated? || n.WindowClosed? || n.HepaDeactivated?
    ensures k == Info <==> n.DehumidifyAdvice?
  {
    match n
    case PurifierActivated(_) => Warning
    case WindowOpened(_) => Warning
    case HepaActivated(_) => Warning
    case PurifierDeactivated(_) => Success
    case WindowClosed(_) => Success
    case HepaDeactivated(_) => Success
    case DehumidifyAdvice(_) => Info
  }

  /** One pollutant rule's narration: when enabled, a high reading with the
      device off is announced, a reading at or below the low mark with the
      device on is announced as normalised, and between the two marks
      nothing is said; a disabled rule, or a device already in the announced
      state, says nothing either. */
  function RuleNote(enabled: bool, value: real, high: real, low: real, deviceOn: bool,
                    raised: Note, lowered: Note): (ns: seq<Note>)
    requires low < high && raised != lowered
    ensures ns in {[], [raised], [lowered]}
    ensures ns == [raised] <==> enabled && value > high && !deviceOn
    ensures ns == [lowered] <==> enabled && value <= low && deviceOn
    ensures !enabled ==> ns == []
    ensures low < value <= high ==> ns == []
    ensures value > high && deviceOn ==> ns == []
    ensures value <= low && !deviceOn ==> ns == []
  {
    if !enabled then []
    else if value > high && !deviceOn then [raised]
    else if value <= low && deviceOn then [lowered]
    else []
  }

  /** The PM2.5 rule's narration: the purifier is announced as activated
      above 25 while it is off, and as deactivated at or below 12 while it
      is on. */
  function Pm25Notes(data: Home): (ns: seq<Note>)
    ensures var x := data.aggregate.pm25;
            && ns in {[], [PurifierActivated(x)], [PurifierDeactivated(x)]}
            && (ns == [PurifierActivated(x)] <==> data.rules.pm25 && x > 25.0 && !data.devices.airPurifier.active)
            && (ns == [PurifierDeactivated(x)] <==> data.rules.pm25 && x <= 12.0 && data.devices.airPurifier.active)
  {
    var x := data.aggregate.pm25;
    RuleNote(data.rules.pm25, x, 25.0, 12.0, data.devices.airPurifier.active,
             PurifierActivated(x), PurifierDeactivated(x))
  }

  /** The CO2 rule's narration, judged on the window alone (not the fan):
      opened above 1000 while it is closed, closed at or below 800 while it
      is open. */
  function Co2Notes(data: Home): (ns: seq<Note>)
    ensures var x := data.aggregate.co2;
            && ns in {[], [WindowOpened(x)], [WindowClosed(x)]}
            && (ns == [WindowOpened(x)] <==> data.rules.co2 && x > 1000.0 && !data.devices.windowServo.active)
            && (ns == [WindowClosed(x)] <==> data.rules.co2 && x <= 800.0 && data.devices.windowServo.active)
  {
    var x := data.aggregate.co2;
    RuleNote(data.rules.co2, x, 1000.0, 800.0, data.devices.windowServo.active,
             WindowOpened(x), WindowClosed(x))
  }

  /** The VOC rule's narration: the HEPA filter is announced as activated
      above 100 while it is off, and as deactivated at or below 50 while it
      is on. */
  function VocNotes(data: Home): (ns: seq<Note>)
    ensures var x := data.aggregate.voc;
            && ns in {[], [HepaActivated(x)], [HepaDeactivated(x)]}
            && (ns == [HepaActivated(x)] <==> data.rules.voc && x > 100.0 && !data.devices.hepaFilter.active)
            && (ns == [HepaDeactivated(x)] <==> data.rules.voc && x <= 50.0 && data.devices.hepaFilter.active)
  {
    var x := data.aggregate.voc;
    RuleNote(data.rules.voc, x, 100.0, 50.0, data.devices.hepaFilter.active,
             HepaActivated(x), HepaDeactivated(x))
  }

  /** The humidity advice, given whenever the rule is on and humidity is above 65. */
  function HumidityNotes(data: Home): (ns: seq<Note>)
    ensures ns == [DehumidifyAdvice(data.aggregate.humidity)] <==> data.rules.humidity && data.aggregate.humidity > 65.0
    ensures ns == [] <==> !(data.rules.humidity && data.aggregate.humidity > 65.0)
  {
    if data.rules.humidity && data.aggregate.humidity > 65.0 then [DehumidifyAdvice(data.aggregate.humidity)] else []
  }

  /** app.js checkAutomation: the messages, in rule order PM2.5, CO2, VOC,
      humidity, at most one per rule. What each rule says, and when it is
      silent, is the contract of Pm25Notes, Co2Notes, VocNotes and
      HumidityNotes. */
  function Narration(data: Home): (ns: seq<Note>)
    ensures |ns| <= 4
  {
    Pm25Notes(data) + Co2Notes(data) + VocNotes(data) + HumidityNotes(data)
  }

  /** Inside every dead band, with humidity not high, nothing is narrated,
      whatever the devices and rules. */
  lemma DeadBandIsSilent(data: Home)
    requires 12.0 < data.aggregate.pm25 <= 25.0
    requires 800.0 < data.aggregate.co2 <= 1000.0
    requires 50.0 < data.aggregate.voc <= 100.0
    requires data.aggregate.humidity <= 65.0
    ensures Narration(data) == []
  {
  }

  /** A warning is narrated for a device exactly when the control panel's
      delta would switch it on and it is still off. */
  lemma WarningsMatchDelta(data: Home)
    ensures PurifierActivated(data.aggregate.pm25) in Narration(data) <==>
            AirPurifier in ControlPanel.AutomationDelta(data) && !data.devices.airPurifier.active
    ensures WindowOpened(data.aggregate.co2) in Narration(data) <==>
            WindowServo in ControlPanel.AutomationDelta(data) && !data.devices.windowServo.active
    ensures HepaActivated(data.aggregate.voc) in Narration(data) <==>
            HepaFilter in ControlPanel.AutomationDelta(data) && !data.devices.hepaFilter.active
  {
    var n := Narration(data);
    assert n == Pm25Notes(data) + Co2Notes(data) + VocNotes(data) + HumidityNotes(data);
  }

  /** On any state the server returns, automation has already switched on
      every device whose rule fires, so the dashboard never narrates a
      warning about it. */
  lemma ServedStateHasNoWarnings(h: Home, u: Update)
    requires Server.Handle(h, u).Done?
    ensures forall n :: n in Narration(Server.Handle(h, u).state) ==> KindOf(n) != Warning
  {
    var r := Server.Handle(h, u).state;
    Server.HandleResultIsAutomated(h, u);
    assert Server.Fires(r, AirPurifier) ==> r.devices.Get(AirPurifier).active;
    assert Server.Fires(r, WindowServo) ==> r.devices.Get(WindowServo).active;
    assert Server.Fires(r, HepaFilter) ==> r.devices.Get(HepaFilter).active;
    assert Narration(r) == Pm25Notes(r) + Co2Notes(r) + VocNotes(r) + HumidityNotes(r);
  }

  /** The start-up state narrates nothing. */
  lemma DefaultsNarrateNothing()
    ensures Narration(Server.Defaults()) == []
  {
  }

  // ---------------------------------------------------------------------
  // System log

  /** What a log line says: a narrated note or a fixed text. */
  datatype Message = Narrated(note: Note) | Text(text: string)

  /** One log line; the clock reading is passed in. */
  datatype LogEntry = LogEntry(timestamp: string, kind: LogKind, message: Message)

  /** The start of the text addLog renders for an entry: the time stamp, a
      space, the kind's tag and a space; the message follows. */
  function LineHead(e: LogEntry): (head: string)
    ensures |head| == |e.timestamp| + |Prefix(e.kind)| + 2
    ensures head[..|e.timestamp|] == e.timestamp
    ensures head[|e.timestamp| + 1..|head| - 1] == Prefix(e.kind)
    ensures head[|e.timestamp|] == ' ' && head[|head| - 1] == ' '
  {
    var head := e.timestamp + " " + Prefix(e.kind) + " ";
    assert head[|e.timestamp| + 1..|head| - 1] == Prefix(e.kind);
    head
  }

  /** Two lines stamped at the same time start alike only for the same kind:
      the rendered tag tells the kind. */
  lemma LineHeadShowsKind(e1: LogEntry, e2: LogEntry)
    requires e1.timestamp == e2.timestamp && LineHead(e1) == LineHead(e2)
    ensures e1.kind == e2.kind
  {
    var h := LineHead(e1);
    var n := |e1.timestamp|;
    assert Prefix(e1.kind) == h[n + 1..|h| - 1] == Prefix(e2.kind);
    PrefixInjective(e1.kind, e2.kind);
  }

  /** MAX_LOG_ENTRIES. */
  const MaxLogEntries: nat := 50

  /** addLog's bookkeeping: the entry is appended, and when that makes the
      log longer than the maximum the oldest entry is dropped. */
  function Pushed(log: seq<LogEntry>, e: LogEntry): (r: seq<LogEntry>)
    ensures |log| < MaxLogEntries ==> r == log + [e]
    ensures |log| >= MaxLogEntries ==> r == log[1..] + [e]
    ensures r[|r| - 1] == e
  {
    var grown := log + [e];
    if |grown| > MaxLogEntries then grown[1..] else grown
  }

  /** A log within the bound stays within it. */
  lemma PushedKeepsBound(log: seq<LogEntry>, e: LogEntry)
    requires |log| <= MaxLogEntries
    ensures |Pushed(log, e)| <= MaxLogEntries
    ensures |log| == MaxLogEntries ==> |Pushed(log, e)| == MaxLogEntries
  {
  }

  /** The entries pushed one after another. */
  function PushAll(log: seq<LogEntry>, es: seq<LogEntry>): seq<LogEntry>
    decreases |es|
  {
    if es == [] then log else PushAll(Pushed(log, es[0]), es[1..])
  }

  /** The last (at most) MaxLogEntries entries of a sequence. */
  function Newest(s: seq<LogEntry>): (r: seq<LogEntry>)
    ensures |r| == if |s| <= MaxLogEntries then |s| else MaxLogEntries
  {
    if |s| <= MaxLogEntries then s else s[|s| - MaxLogEntries..]
  }

  /** Pushing a batch onto a log within the bound keeps exactly the newest
      MaxLogEntries of the old entries followed by the batch. */
  lemma {:induction false} PushAllKeepsNewest(log: seq<LogEntry>, es: seq<LogEntry>)
    requires |log| <= MaxLogEntries
    ensures PushAll(log, es) == Newest(log + es)
    decreases |es|
  {
    if es != [] {
      var p := Pushed(log, es[0]);
      PushAllKeepsNewest(p, es[1..]);
      assert log + es == (log + [es[0]]) + es[1..];
      if |log| == MaxLogEntries {
        assert p + es[1..] == (log + es)[1..];
      }
    }
  }

  /** Pushing a concatenation is pushing its two parts in turn. */
  lemma {:induction false} PushAllAppend(log: seq<LogEntry>, a: seq<LogEntry>, b: seq<LogEntry>)
    ensures PushAll(log, a + b) == PushAll(PushAll(log, a), b)
    decreases |a|
  {
    if a != [] {
      assert (a + b)[0] == a[0];
      assert (a + b)[1..] == a[1..] + b;
      PushAllAppend(Pushed(log, a[0]), a[1..], b);
    } else {
      assert a + b == b;
    }
  }

  /** The log entries a narration produces, all stamped with one clock reading. */
  function NarrationEntries(ns: seq<Note>, timestamp: string): (es: seq<LogEntry>)
    ensures |es| == |ns|
    ensures forall i :: 0 <= i < |ns| ==> es[i] == LogEntry(timestamp, KindOf(ns[i]), Narrated(ns[i]))
  {
    if ns == [] then [] else [LogEntry(timestamp, KindOf(ns[0]), Narrated(ns[0]))] + NarrationEntries(ns[1..], timestamp)
  }

  lemma NarrationEntriesAppend(a: seq<Note>, b: seq<Note>, timestamp: string)
    ensures NarrationEntries(a + b, timestamp) == NarrationEntries(a, timestamp) + NarrationEntries(b, timestamp)
  {
    var l := NarrationEntries(a + b, timestamp);
    var r := NarrationEntries(a, timestamp) + NarrationEntries(b, timestamp);
    assert forall i :: 0 <= i < |l| ==> l[i] == r[i] by {
      forall i | 0 <= i < |l| ensures l[i] == r[i] {
        if i < |a| {
          assert (a + b)[i] == a[i];
        } else {
          assert (a + b)[i] == b[i - |a|];
        }
      }
    }
  }

  /** The dashboard's page state: the last snapshot and the log. */
  class Monitor {
    var sensorData: Option<Home>
    var logEntries: seq<LogEntry>

    /** The page as loaded: no snapshot yet and an empty log. */
    constructor ()
      ensures sensorData == None && logEntries == []
    {
      sensorData := None;
      logEntries := [];
    }

    /** Within the bound. */
    predicate Valid()
      reads this
    {
      |logEntries| <= MaxLogEntries
    }

    /** addLog. */
    method AddLog(message: Message, kind: LogKind, timestamp: string)
      modifies this
      ensures logEntries == Pushed(old(logEntries), LogEntry(timestamp, kind, message))
      ensures sensorData == old(sensorData)
      ensures old(Valid()) ==> Valid()
    {
      logEntries := logEntries + [LogEntry(timestamp, kind, message)];
      if |logEntries| > MaxLogEntries {
        logEntries := logEntries[1..];
      }
    }

    /** Logs one rule's narration, if any. */
    method LogNotes(ns: seq<Note>, timestamp: string)
      requires |ns| <= 1
      modifies this
      ensures logEntries == PushAll(old(logEntries), NarrationEntries(ns, timestamp))
      ensures sensorData == old(sensorData)
      ensures old(Valid()) ==> Valid()
    {
      if ns != [] {
        AddLog(Narrated(ns[0]), KindOf(ns[0]), timestamp);
        assert NarrationEntries(ns, timestamp) == [LogEntry(timestamp, KindOf(ns[0]), Narrated(ns[0]))];
      }
    }

    /** app.js checkAutomation: logs the narration, rule by rule. */
    method CheckAutomation(data: Home, timestamp: string)
      modifies this
      ensures logEntries == PushAll(old(logEntries), NarrationEntries(Narration(data), timestamp))
      ensures sensorData == old(sensorData)
      ensures old(Valid()) ==> Valid()
    {
      var a, b, c, d := Pm25Notes(data), Co2Notes(data), VocNotes(data), HumidityNotes(data);
      LogNotes(a, timestamp);
      LogNotes(b, timestamp);
      LogNotes(c, timestamp);
      LogNotes(d, timestamp);
      var t := timestamp;
      NarrationEntriesAppend(a, b, t);
      NarrationEntriesAppend(a + b, c, t);
      NarrationEntriesAppend(a + b + c, d, t);
      PushAllAppend(old(logEntries), NarrationEntries(a, t), NarrationEntries(b, t));
      PushAllAppend(old(logEntries), NarrationEntries(a + b, t), NarrationEntries(c, t));
      PushAllAppend(old(logEntries), NarrationEntries(a + b + c, t), NarrationEntries(d, t));
    }

    /** A successful poll: the snapshot is kept, and narrated only when it
        differs from the previous one. */
    method Receive(data: Home, timestamp: string)
      modifies this
      ensures sensorData == Some(data)
      ensures logEntries == if old(sensorData) != Some(data)
                            then PushAll(old(logEntries), NarrationEntries(Narration(data), timestamp))
                            else old(logEntries)
      ensures old(Valid()) ==> Valid()
    {
      var changed := sensorData != Some(data);
      sensorData := Some(data);
      if changed {
        CheckAutomation(data, timestamp);
      }
    }

    /** A failed poll logs a connection error. */
    method ConnectionError(timestamp: string)
      modifies this
      ensures logEntries == Pushed(old(logEntries), LogEntry(timestamp, Error, Text("Connection error")))
      ensures sensorData == old(sensorData)
      ensures old(Valid()) ==> Valid()
    {
      AddLog(Text("Connection error"), Error, timestamp);
    }
  }
}
