/** The application as a state machine. A state is the navigation state,
    the device registry and the two profile strings. An event is one click
    or slider movement on a widget; it can only happen while the screen that
    draws that widget is shown, and a slider only produces values inside its
    bounds. `Step` applies one event, `Run` a sequence of them. */
module App {
  import opened Devices
  import opened Navigation
  import Scenes

  datatype App = App(nav: Nav, home: Home, userName: string, userEmail: string)

  /** The state after start-up. */
  function Init(): (a: App)
    ensures AppValid(a)
    ensures a.nav.view == "dashboard" && a.nav.screen == DashboardScreen
    ensures !a.home.frontDoor.locked
  {
    App(InitialNav, Seed(), "Jordan Smith", "jordan.smith@example.com")
  }

  predicate AppValid(a: App) {
    NavValid(a.nav) && Valid(a.home)
  }

  datatype Event =
    | NavClick(item: NavItem)                // a sidebar item
    | CardToggle(card: nat)                  // on/off button of a dashboard card
    | CardDetails(target: Card)              // "Details" button of a dashboard card
    | TargetSlider(value: int)               // thermostat card slider
    | SpeedSlider(value: int)                // fan card slider
    | SceneCardActivate(scene: nat)          // "Activate Scene" on the dashboard
    | BackArrow                              // back arrow of a detail screen
    | ModeButton(mode: ModeChoice)           // thermostat detail mode buttons
    | FanButton(fan: FanChoice)              // thermostat detail fan buttons
    | DetailTargetSlider(value: int)         // thermostat detail slider
    | LightToggle                            // light detail on/off button
    | BrightnessSlider(value: int)           // light detail brightness slider
    | ColorTempSlider(value: int)            // light detail colour temperature slider
    | SceneDetailActivate(scene: nat)        // scene card on the scenes screen
    | SaveProfile(name: string, email: string) // "Save Changes" on the profile screen

  predicate IsNavigation(e: Event) {
    e.NavClick? || e.CardDetails? || e.BackArrow?
  }

  predicate IsSceneActivation(e: Event) {
    e.SceneCardActivate? || e.SceneDetailActivate?
  }

  /** Whether the widget that raises `e` is on the screen, and the value is
      one its slider can produce. */
  predicate Enabled(a: App, e: Event) {
    var s := a.nav.screen;
    match e
    case NavClick(_) => true
    case CardToggle(k) => s == DashboardScreen && k < |DeviceCards|
    case CardDetails(c) => s == DashboardScreen && (c.OnOffCard? ==> c.card in DeviceCards)
    case TargetSlider(v) => s == DashboardScreen && TargetOk(v)
    case SpeedSlider(v) => s == DashboardScreen && SpeedOk(v)
    case SceneCardActivate(k) => s == DashboardScreen && k < |Scenes.DashboardSceneCards|
    case BackArrow => IsDetail(s)
    case ModeButton(_) => s == ThermostatDetail
    case FanButton(_) => s == ThermostatDetail
    case DetailTargetSlider(v) => s == ThermostatDetail && TargetOk(v)
    case LightToggle => s.LightDetail?
    case BrightnessSlider(v) => s.LightDetail? && BrightnessOk(v)
    case ColorTempSlider(v) => s.LightDetail? && ColorTempOk(v)
    case SceneDetailActivate(k) => s == ScenesScreen && k < |Scenes.SceneDetailCards|
    case SaveProfile(_, _) => s == ProfileScreen
  }

  /** The registry field an event writes, as an independent table: at most
      one per event. */
  function Writes(a: App, e: Event): set<Field> {
    var s := a.nav.screen;
    match e
    case CardToggle(k) => if k < |DeviceCards| then {Status(DeviceCards[k].id)} else {}
    case TargetSlider(_) => {TargetTemp}
    case DetailTargetSlider(_) => {TargetTemp}
    case SpeedSlider(_) => {Speed}
    case ModeButton(_) => {Mode}
    case FanButton(_) => {FanMode}
    case LightToggle => if s.LightDetail? then {Status(LightSwitch(s.light))} else {}
    case BrightnessSlider(_) => if s.LightDetail? then {Brightness(s.light)} else {}
    case ColorTempSlider(_) => if s.LightDetail? then {ColorTemp(s.light)} else {}
    case _ => {}
  }

  /** Only writable fields are ever written. */
  lemma WritesAreWritable(a: App, e: Event, f: Field)
    requires f in Writes(a, e)
    ensures Writable(f)
  {
  }

  /** One event. Device commands leave the navigation state alone (their
      handlers redraw the screen they are on); navigation leaves the devices
      alone; scene activation changes nothing at all. */
  function Step(a: App, e: Event): (r: App)
    requires Enabled(a, e)
    ensures AppValid(a) ==> AppValid(r)
    ensures forall f :: f !in Writes(a, e) ==> Read(r.home, f) == Read(a.home, f)
    ensures |Writes(a, e)| <= 1
    ensures IsNavigation(e) ==> r.home == a.home && r.userName == a.userName && r.userEmail == a.userEmail
    ensures !IsNavigation(e) ==> r.nav == a.nav
    ensures !e.SaveProfile? ==> r.userName == a.userName && r.userEmail == a.userEmail
    ensures IsSceneActivation(e) ==> r == a
    ensures e.NavClick? ==> r.nav == ClickAsWritten(a.nav, e.item, |a.userName| == 0)
  {
    var s := a.nav.screen;
    match e
    case NavClick(i) => a.(nav := ClickAsWritten(a.nav, i, |a.userName| == 0))
    case CardToggle(k) => a.(home := Toggle(a.home, DeviceCards[k].id))
    case CardDetails(c) =>
      DeviceCardsWellFormed();
      a.(nav := Details(a.nav, c))
    case TargetSlider(v) => a.(home := SetTarget(a.home, v))
    case SpeedSlider(v) => a.(home := SetSpeed(a.home, v))
    case SceneCardActivate(_) => a
    case BackArrow => a.(nav := Back(a.nav))
    case ModeButton(c) => a.(home := SetMode(a.home, c))
    case FanButton(c) => a.(home := SetFanMode(a.home, c))
    case DetailTargetSlider(v) => a.(home := SetTarget(a.home, v))
    case LightToggle => a.(home := Toggle(a.home, LightSwitch(s.light)))
    case BrightnessSlider(v) => a.(home := SetBrightness(a.home, s.light, v))
    case ColorTempSlider(v) => a.(home := SetColorTemp(a.home, s.light, v))
    case SceneDetailActivate(_) => a
    case SaveProfile(name, email) => a.(userName := name, userEmail := email)
  }

  /** A sequence of events. An event whose widget is not on screen cannot
      be raised, so it is passed over. */
  function Run(a: App, events: seq<Event>): (r: App)
    ensures AppValid(a) ==> AppValid(r)
    ensures forall f :: !Writable(f) ==> Read(r.home, f) == Read(a.home, f)
    ensures (forall k :: 0 <= k < |events| ==> !IsNavigation(events[k])) ==> r.nav == a.nav
    decreases |events|
  {
    if |events| == 0 then a
    else if Enabled(a, events[0]) then
      var b := Step(a, events[0]);
      assert forall f :: !Writable(f) ==> Read(b.home, f) == Read(a.home, f) by {
        forall f | !Writable(f) ensures Read(b.home, f) == Read(a.home, f) {
          if f in Writes(a, events[0]) {
            WritesAreWritable(a, events[0], f);
          }
        }
      }
      Run(b, events[1..])
    else Run(a, events[1..])
  }

  /** Every reachable state is valid, the door is never locked, and the
      fields no handler writes keep their start-up values. */
  lemma ReachableInvariants(events: seq<Event>)
    ensures AppValid(Run(Init(), events))
    ensures !Run(Init(), events).home.frontDoor.locked
    ensures Run(Init(), events).home.thermostat.current == Init().home.thermostat.current
    ensures Run(Init(), events).home.thermostat.status == "Heating"
    ensures Run(Init(), events).home.ceilingFan.status == OFF
  {
    var r := Run(Init(), events);
    assert Read(r.home, Locked) == Read(Init().home, Locked);
    assert Read(r.home, CurrentTemp) == Read(Init().home, CurrentTemp);
    assert Read(r.home, ThermostatStatus) == Read(Init().home, ThermostatStatus);
    assert Read(r.home, FanStatus) == Read(Init().home, FanStatus);
  }

  /** Any run of scene activations leaves the whole state unchanged. */
  lemma {:induction false} ScenesAreInert(a: App, events: seq<Event>)
    requires forall k :: 0 <= k < |events| ==> IsSceneActivation(events[k])
    ensures Run(a, events) == a
    decreases |events|
  {
    if |events| > 0 {
      ScenesAreInert(a, events[1..]);
    }
  }

  /** Pressing a dashboard on/off button twice restores the state of a valid
      application. */
  lemma CardToggleTwice(a: App, k: nat)
    requires AppValid(a) && a.nav.screen == DashboardScreen && k < |DeviceCards|
    ensures Run(a, [CardToggle(k), CardToggle(k)]) == a
  {
    var id := DeviceCards[k].id;
    assert IsOnOff(StatusOf(a.home, id));
    ToggleInvolution(a.home, id);
    var b := Step(a, CardToggle(k));
    assert [CardToggle(k), CardToggle(k)][1..] == [CardToggle(k)];
    assert Run(a, [CardToggle(k), CardToggle(k)]) == Run(b, [CardToggle(k)]);
    assert b.nav == a.nav && b.home == Toggle(a.home, id);
    var c := Step(b, CardToggle(k));
    assert [CardToggle(k)][1..] == [];
    assert Run(b, [CardToggle(k)]) == Run(c, []);
    assert c.home == Toggle(Toggle(a.home, id), id);
  }

  /** The light detail screen's toggle acts on exactly the light it shows,
      and the card's on/off button for that light has the same effect. */
  lemma LightToggleMatchesCard(a: App, k: nat)
    requires k < |DeviceCards| && DeviceCards[k].deviceType == "light"
    requires a.nav.screen == DashboardScreen
    ensures var d := Step(a, CardDetails(OnOffCard(DeviceCards[k])));
      d.nav.screen == LightDetail(DeviceCards[k].id.light) &&
      Step(d, LightToggle).home == Step(a, CardToggle(k)).home
  {
    DeviceCardsWellFormed();
  }

  /** "Save Changes" stores both text fields and touches nothing else. */
  lemma SaveProfileStores(a: App, name: string, email: string)
    requires a.nav.screen == ProfileScreen
    ensures var r := Step(a, SaveProfile(name, email));
      r.userName == name && r.userEmail == email && r.home == a.home && r.nav == a.nav
  {
  }

  /** The profile click as written: after the name is saved empty, a click on
      "Profile" from the dashboard records the view "profile" but the
      dashboard stays on screen. */
  lemma EmptyNameBlocksProfile()
    ensures Run(Init(), [NavClick(ProfileItem), SaveProfile("", "x"), NavClick(DashboardItem), NavClick(ProfileItem)]).nav
         == Nav("profile", DashboardScreen)
  {
    var evs := [NavClick(ProfileItem), SaveProfile("", "x"), NavClick(DashboardItem), NavClick(ProfileItem)];
    var a0 := Init();
    var a1 := Step(a0, evs[0]);
    assert a1.nav.screen == ProfileScreen;
    var a2 := Step(a1, evs[1]);
    assert a2.userName == "";
    var a3 := Step(a2, evs[2]);
    assert a3.nav == Nav("dashboard", DashboardScreen) && a3.userName == "";
    var a4 := Step(a3, evs[3]);
    assert a4.nav == Nav("profile", DashboardScreen);
    assert Run(a0, evs) == Run(a1, evs[1..]);
    assert evs[1..][1..] == evs[2..];
    assert Run(a1, evs[1..]) == Run(a2, evs[2..]);
    assert evs[2..][1..] == evs[3..];
    assert Run(a2, evs[2..]) == Run(a3, evs[3..]);
    assert evs[3..][1..] == [];
    assert Run(a3, evs[3..]) == Run(a4, []);
  }

  /** With a non-empty saved name (the start-up name, for one) the profile
      click follows the intended sidebar rule and draws the profile screen. */
  lemma ProfileClickShowsProfile(a: App)
    requires |a.userName| > 0
    ensures Step(a, NavClick(ProfileItem)).nav == Nav("profile", ProfileScreen)
    ensures Step(a, NavClick(ProfileItem)).nav == Click(a.nav, ProfileItem)
  {
  }
}
