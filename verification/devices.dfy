/** The device registry of the SmartNest dashboard: the five seeded devices,
    the values their fields may take, and the commands the UI callbacks apply
    to them. Every command is a pure function from one snapshot of the
    devices to the next; each writes exactly one field. */
module Devices {
  import opened Options

  // ----- on/off status -----

  const ON: string := "ON"
  const OFF: string := "OFF"

  /** The status strings a toggle can leave behind. */
  predicate IsOnOff(s: string) {
    s == ON || s == OFF
  }

  /** The toggle rule shared by the dashboard cards and the light detail
      screen: anything that is not "ON" becomes "ON". */
  function Flip(status: string): (r: string)
    ensures IsOnOff(r)
    ensures r == ON <==> status != ON
  {
    if status == ON then OFF else ON
  }

  /** Flipping twice restores a status exactly when it was "ON" or "OFF";
      any other text (such as the thermostat's "Heating") comes back as "OFF". */
  lemma FlipInvolution(s: string)
    ensures Flip(Flip(s)) == s <==> IsOnOff(s)
    ensures !IsOnOff(s) ==> Flip(Flip(s)) == OFF
  {
  }

  // ----- slider ranges -----

  const BrightnessMin: int := 0
  const BrightnessMax: int := 100
  const ColorTempMin: int := 2000
  const ColorTempMax: int := 6500
  const TargetMin: int := 15
  const TargetMax: int := 30
  const SpeedMin: int := 0
  const SpeedMax: int := 3

  predicate BrightnessOk(v: int) { BrightnessMin <= v <= BrightnessMax }
  predicate ColorTempOk(v: int) { ColorTempMin <= v <= ColorTempMax }
  predicate TargetOk(v: int) { TargetMin <= v <= TargetMax }
  predicate SpeedOk(v: int) { SpeedMin <= v <= SpeedMax }

  // ----- thermostat modes -----

  /** The three "Mode" buttons of the thermostat detail screen. */
  datatype ModeChoice = Heat | Cool | Auto

  /** The three "Fan" buttons of the thermostat detail screen. */
  datatype FanChoice = FanAuto | FanOff | FanOn

  /** The string each mode button stores. */
  function ModeName(c: ModeChoice): string {
    match c
    case Heat => "heat"
    case Cool => "cool"
    case Auto => "auto"
  }

  /** The string each fan button stores. */
  function FanName(c: FanChoice): string {
    match c
    case FanAuto => "auto"
    case FanOff => "off"
    case FanOn => "on"
  }

  /** The mode button whose value a stored mode string is, if any. */
  function ModeOf(s: string): (r: Option<ModeChoice>)
    ensures r.Some? ==> ModeName(r.value) == s
    ensures r.None? ==> forall c :: ModeName(c) != s
  {
    if s == "heat" then Some(Heat)
    else if s == "cool" then Some(Cool)
    else if s == "auto" then Some(Auto)
    else None
  }

  /** The fan button whose value a stored fan string is, if any. */
  function FanOf(s: string): (r: Option<FanChoice>)
    ensures r.Some? ==> FanName(r.value) == s
    ensures r.None? ==> forall c :: FanName(c) != s
  {
    if s == "auto" then Some(FanAuto)
    else if s == "off" then Some(FanOff)
    else if s == "on" then Some(FanOn)
    else None
  }

  /** Distinct buttons store distinct strings, so a stored string names its button. */
  lemma ModeRoundTrip(c: ModeChoice)
    ensures ModeOf(ModeName(c)) == Some(c)
  {
  }

  lemma FanRoundTrip(c: FanChoice)
    ensures FanOf(FanName(c)) == Some(c)
  {
  }

  // ----- device records -----

  datatype Light = Light(status: string, brightness: int, colorTemp: int)
  datatype Door = Door(status: string, locked: bool)
  datatype Thermostat = Thermostat(status: string, current: int, target: int, mode: string, fan: string)
  datatype Fan = Fan(status: string, speed: int)

  /** The two lights, by device id. */
  datatype LightId = LivingRoom | Bedroom

  /** The devices that have an on/off card on the dashboard. */
  datatype SwitchId = LightSwitch(light: LightId) | DoorSwitch

  /** The whole device registry. The source keys a dictionary by device id;
      the set of ids is fixed at start-up, so each id is a field here. */
  datatype Home = Home(
    livingRoomLight: Light,
    bedroomLight: Light,
    frontDoor: Door,
    thermostat: Thermostat,
    ceilingFan: Fan)

  function LightOf(h: Home, l: LightId): Light {
    match l
    case LivingRoom => h.livingRoomLight
    case Bedroom => h.bedroomLight
  }

  function StatusOf(h: Home, id: SwitchId): string {
    match id
    case LightSwitch(l) => LightOf(h, l).status
    case DoorSwitch => h.frontDoor.status
  }

  // ----- observations: one per stored field -----

  /** Every field of every device record. */
  datatype Field =
    | Status(switch: SwitchId)
    | Brightness(light: LightId)
    | ColorTemp(light: LightId)
    | Locked
    | ThermostatStatus
    | CurrentTemp
    | TargetTemp
    | Mode
    | FanMode
    | FanStatus
    | Speed

  /** A field's value, in the shapes the source stores. */
  datatype Value = Text(s: string) | Number(n: int) | Flag(b: bool)

  /** Reads one field of the registry. */
  function Read(h: Home, f: Field): Value {
    match f
    case Status(id) => Text(StatusOf(h, id))
    case Brightness(l) => Number(LightOf(h, l).brightness)
    case ColorTemp(l) => Number(LightOf(h, l).colorTemp)
    case Locked => Flag(h.frontDoor.locked)
    case ThermostatStatus => Text(h.thermostat.status)
    case CurrentTemp => Number(h.thermostat.current)
    case TargetTemp => Number(h.thermostat.target)
    case Mode => Text(h.thermostat.mode)
    case FanMode => Text(h.thermostat.fan)
    case FanStatus => Text(h.ceilingFan.status)
    case Speed => Number(h.ceilingFan.speed)
  }

  /** Two registries agree on every field but possibly `f`. */
  ghost predicate SameExcept(h: Home, r: Home, f: Field) {
    forall g :: g != f ==> Read(r, g) == Read(h, g)
  }

  /** The fields are a complete view of the registry: two registries that
      agree on every field are equal. This makes the frame conditions below
      exact, not just partial. */
  lemma Extensionality(a: Home, b: Home)
    requires forall f :: Read(a, f) == Read(b, f)
    ensures a == b
  {
    assert Read(a, Status(LightSwitch(LivingRoom))) == Read(b, Status(LightSwitch(LivingRoom)));
    assert Read(a, Brightness(LivingRoom)) == Read(b, Brightness(LivingRoom));
    assert Read(a, ColorTemp(LivingRoom)) == Read(b, ColorTemp(LivingRoom));
    assert Read(a, Status(LightSwitch(Bedroom))) == Read(b, Status(LightSwitch(Bedroom)));
    assert Read(a, Brightness(Bedroom)) == Read(b, Brightness(Bedroom));
    assert Read(a, ColorTemp(Bedroom)) == Read(b, ColorTemp(Bedroom));
    assert Read(a, Status(DoorSwitch)) == Read(b, Status(DoorSwitch));
    assert Read(a, Locked) == Read(b, Locked);
    assert Read(a, ThermostatStatus) == Read(b, ThermostatStatus);
    assert Read(a, CurrentTemp) == Read(b, CurrentTemp);
    assert Read(a, TargetTemp) == Read(b, TargetTemp);
    assert Read(a, Mode) == Read(b, Mode);
    assert Read(a, FanMode) == Read(b, FanMode);
    assert Read(a, FanStatus) == Read(b, FanStatus);
    assert Read(a, Speed) == Read(b, Speed);
  }

  // ----- invariants -----

  /** Every value a control can leave in the registry lies in that control's
      range: statuses of the switchable devices are "ON"/"OFF", numbers lie
      within their slider bounds, modes are button values. */
  predicate Valid(h: Home) {
    && IsOnOff(h.livingRoomLight.status)
    && IsOnOff(h.bedroomLight.status)
    && IsOnOff(h.frontDoor.status)
    && IsOnOff(h.ceilingFan.status)
    && BrightnessOk(h.livingRoomLight.brightness)
    && BrightnessOk(h.bedroomLight.brightness)
    && ColorTempOk(h.livingRoomLight.colorTemp)
    && ColorTempOk(h.bedroomLight.colorTemp)
    && TargetOk(h.thermostat.target)
    && SpeedOk(h.ceilingFan.speed)
    && ModeOf(h.thermostat.mode).Some?
    && FanOf(h.thermostat.fan).Some?
  }

  /** The fields some command writes. The others (the door's `locked`, the
      thermostat's status and current reading, the fan's status) are only
      ever read. */
  predicate Writable(f: Field) {
    f.Status? || f.Brightness? || f.ColorTemp? || f == TargetTemp || f == Mode || f == FanMode || f == Speed
  }

  /** The registry as seeded at start-up. */
  function Seed(): (h: Home)
    ensures Valid(h)
    ensures StatusOf(h, LightSwitch(LivingRoom)) == ON && StatusOf(h, LightSwitch(Bedroom)) == OFF
    ensures !h.frontDoor.locked
    ensures ModeOf(h.thermostat.mode) == Some(Heat) && FanOf(h.thermostat.fan) == Some(FanAuto)
    ensures h.thermostat.current < h.thermostat.target
  {
    Home(
      Light(ON, 75, 4000),
      Light(OFF, 50, 3000),
      Door(ON, false),
      Thermostat("Heating", 21, 22, "heat", "auto"),
      Fan(OFF, 2))
  }

  // ----- commands -----

  /** Replaces one light record. */
  function WithLight(h: Home, l: LightId, x: Light): Home {
    match l
    case LivingRoom => h.(livingRoomLight := x)
    case Bedroom => h.(bedroomLight := x)
  }

  /** The on/off button of a dashboard card, and the toggle of the light
      detail screen. */
  function Toggle(h: Home, id: SwitchId): (r: Home)
    ensures IsOnOff(StatusOf(r, id))
    ensures StatusOf(r, id) == ON <==> StatusOf(h, id) != ON
    ensures SameExcept(h, r, Status(id))
    ensures Valid(h) ==> Valid(r)
  {
    match id
    case LightSwitch(l) =>
      var x := LightOf(h, l);
      WithLight(h, l, x.(status := Flip(x.status)))
    case DoorSwitch =>
      h.(frontDoor := h.frontDoor.(status := Flip(h.frontDoor.status)))
  }

  /** The thermostat target slider (dashboard card and detail screen). */
  function SetTarget(h: Home, v: int): (r: Home)
    requires TargetOk(v)
    ensures Read(r, TargetTemp) == Number(v)
    ensures SameExcept(h, r, TargetTemp)
    ensures Valid(h) ==> Valid(r)
  {
    h.(thermostat := h.thermostat.(target := v))
  }

  /** The ceiling fan speed slider. */
  function SetSpeed(h: Home, v: int): (r: Home)
    requires SpeedOk(v)
    ensures Read(r, Speed) == Number(v)
    ensures SameExcept(h, r, Speed)
    ensures Valid(h) ==> Valid(r)
  {
    h.(ceilingFan := h.ceilingFan.(speed := v))
  }

  /** The brightness slider of a light's detail screen. */
  function SetBrightness(h: Home, l: LightId, v: int): (r: Home)
    requires BrightnessOk(v)
    ensures Read(r, Brightness(l)) == Number(v)
    ensures SameExcept(h, r, Brightness(l))
    ensures Valid(h) ==> Valid(r)
  {
    WithLight(h, l, LightOf(h, l).(brightness := v))
  }

  /** The colour temperature slider of a light's detail screen. */
  function SetColorTemp(h: Home, l: LightId, v: int): (r: Home)
    requires ColorTempOk(v)
    ensures Read(r, ColorTemp(l)) == Number(v)
    ensures SameExcept(h, r, ColorTemp(l))
    ensures Valid(h) ==> Valid(r)
  {
    WithLight(h, l, LightOf(h, l).(colorTemp := v))
  }

  /** A mode button is drawn as selected when the stored mode equals its value. */
  predicate ModeSelected(t: Thermostat, c: ModeChoice) {
    t.mode == ModeName(c)
  }

  predicate FanSelected(t: Thermostat, c: FanChoice) {
    t.fan == FanName(c)
  }

  /** A thermostat mode button: afterwards that button, and only that one,
      is drawn as selected. */
  function SetMode(h: Home, c: ModeChoice): (r: Home)
    ensures ModeOf(r.thermostat.mode) == Some(c)
    ensures forall c' :: ModeSelected(r.thermostat, c') <==> c' == c
    ensures SameExcept(h, r, Mode)
    ensures Valid(h) ==> Valid(r)
  {
    h.(thermostat := h.thermostat.(mode := ModeName(c)))
  }

  /** A thermostat fan button: afterwards that button, and only that one,
      is drawn as selected. */
  function SetFanMode(h: Home, c: FanChoice): (r: Home)
    ensures FanOf(r.thermostat.fan) == Some(c)
    ensures forall c' :: FanSelected(r.thermostat, c') <==> c' == c
    ensures SameExcept(h, r, FanMode)
    ensures Valid(h) ==> Valid(r)
  {
    h.(thermostat := h.thermostat.(fan := FanName(c)))
  }

  // ----- properties relating several commands -----

  /** Toggling twice restores the registry exactly when the status was "ON"
      or "OFF" (always the case in a valid registry). */
  lemma ToggleInvolution(h: Home, id: SwitchId)
    ensures Toggle(Toggle(h, id), id) == h <==> IsOnOff(StatusOf(h, id))
  {
  }

  /** A mode button pressed again changes nothing; pressing the button that
      is already selected changes nothing either. */
  lemma SetModeIdempotent(h: Home, c: ModeChoice)
    ensures SetMode(SetMode(h, c), c) == SetMode(h, c)
    ensures ModeSelected(h.thermostat, c) ==> SetMode(h, c) == h
  {
  }

  lemma SetFanModeIdempotent(h: Home, c: FanChoice)
    ensures SetFanMode(SetFanMode(h, c), c) == SetFanMode(h, c)
    ensures FanSelected(h.thermostat, c) ==> SetFanMode(h, c) == h
  {
  }

  /** A slider can raise a change event for each value it passes; only the last one
      matters. Each slider's later write overrides an earlier one, so a
      repeated value is idempotent. */
  lemma SliderLastWriteWins(h: Home, l: LightId, b1: int, b2: int, k1: int, k2: int, t1: int, t2: int, s1: int, s2: int)
    requires BrightnessOk(b1) && BrightnessOk(b2) && ColorTempOk(k1) && ColorTempOk(k2)
    requires TargetOk(t1) && TargetOk(t2) && SpeedOk(s1) && SpeedOk(s2)
    ensures SetBrightness(SetBrightness(h, l, b1), l, b2) == SetBrightness(h, l, b2)
    ensures SetColorTemp(SetColorTemp(h, l, k1), l, k2) == SetColorTemp(h, l, k2)
    ensures SetTarget(SetTarget(h, t1), t2) == SetTarget(h, t2)
    ensures SetSpeed(SetSpeed(h, s1), s2) == SetSpeed(h, s2)
  {
  }

  /** The light sliders are independent: sliders of different lights commute,
      and so do the brightness and colour temperature sliders of one light. */
  lemma LightSlidersCommute(h: Home, l: LightId, other: LightId, b: int, k: int, b': int, k': int)
    requires BrightnessOk(b) && ColorTempOk(k) && BrightnessOk(b') && ColorTempOk(k')
    ensures SetBrightness(SetColorTemp(h, l, k), l, b) == SetColorTemp(SetBrightness(h, l, b), l, k)
    ensures l != other ==> SetBrightness(SetBrightness(h, l, b), other, b') == SetBrightness(SetBrightness(h, other, b'), l, b)
    ensures l != other ==> SetColorTemp(SetColorTemp(h, l, k), other, k') == SetColorTemp(SetColorTemp(h, other, k'), l, k)
  {
  }
}
