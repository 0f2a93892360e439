# SmartNest state model in Dafny

This project models the state logic of the SmartNest dashboard (`SmartHomeApp` in
`smartNest.py`). The application keeps five simulated devices in memory: two lights,
a front door, a thermostat and a ceiling fan. It also keeps a static scene catalog,
the name of the current sidebar view and two profile strings. The callbacks do
four kinds of thing. The device buttons and sliders write one device field; the
buttons then redraw their screen, while the sliders only refresh a label. The
sidebar, "Details" and back buttons choose which screen is shown; the sidebar
also records a view name. The profile page's "Save Changes" button stores the
two profile strings. The scene buttons change nothing. The model keeps the
writes and the choice of screen. It drops the widget trees.

## Modules

- `Options` (`options.dfy`): the `Option` datatype used by the partial inverses of the name tables.
- `Devices` (`devices.dfy`): the registry.
  - Typed records for each device kind, collected in a `Home` record with one field per device id.
  - The slider ranges and the mode and fan button values.
  - The commands: `Toggle`, `SetTarget`, `SetSpeed`, `SetBrightness`, `SetColorTemp`, `SetMode` and `SetFanMode`.
  - `Field` and `Read` give a uniform view of every stored field. Each command's frame condition is stated through them ("every other field reads the same"). `Extensionality` shows these fields determine the whole registry.
- `Navigation` (`navigation.dfy`): `current_view`, the shown `Screen`, the sidebar items, the dashboard cards and their "Details" buttons, and the back arrow.
- `Scenes` (`scenes.dfy`): the scene catalog and the two places that draw it.
- `App` (`app.dfy`): the whole application as a state machine.
  - `Enabled` says which events can happen. A widget must be on the shown screen, and a slider value must lie in that slider's range.
  - `Step` applies one event. `Run` applies a sequence of events.

Behaviour that the model follows from the code:

- The source does no validation, and the registry has no error results. The only bounds on numeric input are the sliders' `min`/`max`, so they become preconditions.
- Scene activation has no effect on any state. The dashboard stub does nothing, and the scenes screen only shows an acknowledgement.
- Navigation has no "not found" case. The device ids are fixed, so a detail screen always names an existing light (or the thermostat).
- One navigation can fail part-way. The profile screen's header shows the first letter of the saved user name (smartNest.py:387). After "Save Changes" with an empty name, a later "Profile" click has already set `current_view` when that lookup fails. The exception leaves the old screen on display. `Navigation.ClickAsWritten` and `App.Step` model this, and "## Findings" records it.
- The dashboard toggle computes its new status from `is_on`, which it captured when the card was drawn. The dashboard is redrawn after every status change, and no status changes while it is shown without a redraw. Events are handled one at a time, each to completion (see "## Left out"). Under that assumption `is_on` always equals the live status, and `Toggle` reads the live status.
- The door card's label reads "Lock"/"Unlock" from `locked`, but its button flips `status`. Nothing ever writes `locked`, so it stays `false` in every reachable state (`App.ReachableInvariants`).
- A sidebar click on "automations", "settings" or "logout" records the view name but leaves the shown screen as it was. "Back" redraws the dashboard but keeps the recorded view name.

## Model

| member | source | states |
|---|---|---|
| Devices.Flip | smartNest.py:794 | the toggle rule always yields "ON" or "OFF", and yields "ON" exactly when the old status was not "ON" |
| Devices.FlipInvolution | smartNest.py:173 | flipping twice restores a status exactly when it was "ON" or "OFF"; any other text comes back as "OFF" |
| Devices.ModeOf | smartNest.py:584-586 | a stored mode string maps back to the button whose value it is, and to none when no button has that value |
| Devices.FanOf | smartNest.py:591-593 | a stored fan string maps back to the button whose value it is, and to none when no button has that value |
| Devices.ModeRoundTrip | smartNest.py:563-567 | the value a mode button stores identifies that button again |
| Devices.FanRoundTrip | smartNest.py:569-573 | the value a fan button stores identifies that button again |
| Devices.Extensionality | smartNest.py:18-24 | two registries that agree on every field of every device are equal, so the per-field frame conditions pin down each command's result |
| Devices.Seed | smartNest.py:18-24 | the seeded registry is in range; the living-room light is on and the bedroom light off; the door is unlocked; mode is heat, fan auto; current is below target |
| Devices.Toggle | smartNest.py:172-174 | the toggled status is "ON"/"OFF" and is "ON" iff it was not "ON"; every other field of every device reads the same; validity is preserved |
| Devices.SetTarget | smartNest.py:223-224 | a target in 15..30 is stored as given; mode, fan, current, status and every other device read the same; validity is preserved |
| Devices.SetSpeed | smartNest.py:276-277 | a speed in 0..3 is stored as given; every other field reads the same; validity is preserved |
| Devices.SetBrightness | smartNest.py:797-798 | a brightness in 0..100 is stored on the chosen light only; every other field reads the same; validity is preserved |
| Devices.SetColorTemp | smartNest.py:802-803 | a colour temperature in 2000..6500 is stored on the chosen light only; every other field reads the same; validity is preserved |
| Devices.SetMode | smartNest.py:563-567 | the stored mode is the chosen button's value, so exactly that button is drawn selected; nothing else changes; validity is preserved |
| Devices.SetFanMode | smartNest.py:569-573 | the stored fan mode is the chosen button's value, so exactly that button is drawn selected; nothing else changes; validity is preserved |
| Devices.ToggleInvolution | smartNest.py:793-795 | toggling a device twice restores the whole registry exactly when its status was "ON" or "OFF" |
| Devices.SetModeIdempotent | smartNest.py:584-587 | pressing a mode button twice equals pressing it once, and pressing the selected button changes nothing |
| Devices.SetFanModeIdempotent | smartNest.py:590-594 | pressing a fan button twice equals pressing it once, and pressing the selected button changes nothing |
| Devices.SliderLastWriteWins | smartNest.py:223-277 | for each of the four sliders (the thermostat and fan card sliders here, and the detail-screen sliders at lines 575-576 and 797-803), a later value overrides an earlier one, so rewriting a value is idempotent |
| Devices.LightSlidersCommute | smartNest.py:797-803 | sliders of different lights commute, and a light's brightness and colour-temperature sliders commute |
| Navigation.ItemOf | smartNest.py:76-80 | a recorded view name maps back to the sidebar item that set it, and to none when no item has that name |
| Navigation.SidebarNames | smartNest.py:48-55 | the seven sidebar items each appear once and carry distinct view names |
| Navigation.Click | smartNest.py:79-89 | the sidebar rule as intended: a click records the item's view name; "dashboard", "profile", "scenes" and "rooms" show the dashboard, profile, scenes and statistics screens; the other three keep the shown screen; no click opens a detail screen |
| Navigation.ClickAsWritten | smartNest.py:79-84 | the click as the handler runs it: it follows the sidebar rule, except that "profile" with an empty saved name records the view name and keeps the shown screen |
| Navigation.ClickIdempotent | smartNest.py:81-88 | under the intended sidebar rule, clicking an item twice equals clicking once, and a screen-drawing item lands in the same state from anywhere |
| Navigation.ClickAsWrittenIdempotent | smartNest.py:79-88 | as the handler runs it, clicking an item twice equals clicking once; a screen-drawing item lands in the same state from anywhere except "profile" with an empty saved name, whose result depends on the screen shown before |
| Navigation.DeviceCardsWellFormed | smartNest.py:111-134 | the dashboard's on/off cards are typed "light" exactly for the two lights |
| Navigation.Details | smartNest.py:176-178 | "Details" opens the light's detail screen for a light card, the thermostat screen for the thermostat card, and changes nothing for the door and fan cards; the view name is kept |
| Navigation.Back | smartNest.py:790-791 | the back arrow shows the dashboard and keeps the recorded view name |
| Navigation.DetailsThenBack | smartNest.py:228-229 | opening a detail screen from the dashboard and going back restores the navigation state |
| Scenes.CatalogConsistent | smartNest.py:27-31 | every catalog scene's action count equals its number of action lines, names are unique, and both scene displays list the catalog's scenes |
| App.Init | smartNest.py:12-24 | the start-up state shows the dashboard with view "dashboard", is valid, and has the door unlocked |
| App.Step | smartNest.py:168-322 | for every callback (the dashboard's here; the sidebar at 79-89, profile save at 361-363, detail screens at 560-576 and 790-803, scene cards at 1089-1090): one event preserves validity and writes at most one registry field; navigation events leave devices and profile alone; device commands leave navigation alone; scene activation leaves the whole state unchanged; a sidebar click moves navigation exactly as `Navigation.ClickAsWritten` does |
| App.Run | smartNest.py:168-317 | any sequence of events preserves validity, leaves every never-written field unchanged, and leaves navigation alone when it contains no navigation event |
| App.ReachableInvariants | smartNest.py:21-22 | in every reachable state all ranges hold, the door is unlocked, and the thermostat's status and current reading and the fan's status keep their seeded values |
| App.ScenesAreInert | smartNest.py:1089-1090 | any sequence of scene activations leaves the whole state unchanged |
| App.CardToggleTwice | smartNest.py:172-174 | pressing a dashboard on/off button twice restores a valid application state |
| App.LightToggleMatchesCard | smartNest.py:793-795 | a light card's "Details" opens that light's screen, and its toggle has the same effect as the card's on/off button |
| App.SaveProfileStores | smartNest.py:361-363 | "Save Changes" stores both text fields and changes neither devices nor navigation |
| App.EmptyNameBlocksProfile | smartNest.py:387 | after the name is saved empty, Dashboard then Profile leaves the dashboard shown with view "profile" |
| App.ProfileClickShowsProfile | smartNest.py:382-387 | with a non-empty saved name, a Profile click shows the profile screen with view "profile", as the sidebar rule intends |

## Findings

| source | as written | input that shows it | evidently intended | confidence | as-written member | corrected member |
|---|---|---|---|---|---|---|
| smartNest.py:387 | the profile header indexes the first character of the saved user name, and "Save Changes" accepts an empty name | Profile, "Save Changes" with an empty name, Dashboard, Profile: view "profile" but the dashboard stays shown | a Profile click draws the profile screen for any saved name | not executed; high that the lookup fails on an empty name | App.EmptyNameBlocksProfile | Navigation.Click |

`App.Step` follows the code as written through `Navigation.ClickAsWritten`. That function defers to the intended rule `Navigation.Click` in every case except the failing profile click. `App.ProfileClickShowsProfile` proves that the intended rule holds whenever the saved name is non-empty, which includes the start-up name.

## Left out

- Concurrent or interleaved handlers: events are handled one at a time, each to completion, on widgets still on screen. A second click that the UI framework delivers to a stale card before its redraw is not modelled. Two such toggles would write the same captured value rather than restore the status, so `App.CardToggleTwice` and the `is_on` argument rely on this assumption.
- Exceptions in general: the only one the modelled handlers can raise is the empty-name lookup above. Its effect is modelled as the handler stopping after `current_view` is written. The error message the UI framework logs is not modelled.
- Widget construction, colours, icons, layout, scrolling, snack bars and `page.update()`: presentation with no state.
- The float slider values and their `int(...)` conversion: slider inputs are modelled as integers already inside the slider's bounds.
- The sidebar highlight: it is computed once, when the sidebar is built, and is never recomputed. It is presentation only.
- The hard-coded statistics, energy, schedule and information figures, and the bar-width arithmetic of the energy comparison rows: static display text and float arithmetic for display.
- The "Create New Scene" button and the profile page's other buttons: the first only shows a message, and the others have no handler.
- Error results (not found, out of range, invalid value) and scene effects on devices: the code has none, so the model has none.
