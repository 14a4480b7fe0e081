# aoapps: the OSP apps manager and its stock apps, in Dafny

This project models the apps manager of the ams-OSRAM OSP `aoapps` library and its
four stock apps, runled, dither, aniscript and swflag, and proves properties of them.

- **Manager.** It keeps up to eight registered apps; slot 0 is always the "voidapp".
  Exactly one app is current, and that app either runs or is stopped. Each step the
  manager steps the current app. It can route the app through the "with topo" wrapper
  (build the chain's topology first, then start the app), send repair telegrams
  (clrerror, goactive) every 250 ms, and latch the first error. An app with NEXTONERR
  moves on to the next app once the error has been latched for 10 s.
- **`apps` command.** The manager's command handler lists apps, switches between them
  (by number or by name prefix) and forwards `apps config` to an app's own command.
- **The apps.**
  - runled runs a coloured cursor up and down the chain.
  - dither ramps all LEDs up and down and toggles the SAID dithering flag.
  - aniscript plays a script from an I2C EEPROM, or a built-in heartbeat script.
  - swflag shows one of four flags, chosen by the buttons of an I/O expander.

How the model is built:

- **Manager state.** Module `MngrModel` describes the manager as pure functions from
  its state to its new state. Class `Mngr.AppManager` holds the same state in fields
  and a fixed array of eight slots. Each of its methods is proved to leave exactly the
  state the matching `MngrModel` function computes. Lemmas about those functions state
  what the manager promises.
- **Apps.** The file-level `static` state of each app becomes a class whose fields the
  methods update. The pure parts of each app are functions with lemmas: the cursor
  walk, the dim ramp, the frame-time buttons, the EEPROM search, the flag table command.
- **Clock and collaborators.** Time is an integer number of milliseconds, passed in as
  `now`. Every collaborator the code calls (telegram layer, topology builder, I2C
  search, painters, the app callbacks) is replaced by its answer, passed in as a
  parameter. `MngrModel.Env` carries those answers for the manager. Every call the
  model makes is returned as a trace value (`Call`, `Sent`, `Act`), so the contracts
  can state which calls happen and in which order.
- **Names.** The C `aocmd_cint_isprefix(full, prefix)` is `Results.IsPrefix(prefix, full)`.

Worth knowing when reading the proofs:

- **Button repeat fires one step late.** The auto-repeat gate of the button handlers
  back-dates its time stamp by exactly the repeat period on a press and then compares
  with `>`. So a press does not act on the step where it is seen, only on the next step
  while the button is held (`AppsUi.PressFiresOneLater`).
- **Failed start inside the wrapper.** If the app's start fails inside the "with topo"
  wrapper, the wrapper sets its ERROR state and then overwrites it with APPANIM on the
  next line. The manager's error latch still stops the app from being stepped
  (`MngrModel.FailedAppStartFreezes`).
- **Failed scan step reported late.** A failed topology scan step is reported to the
  manager one step late (`MngrModel.ScanFailureSurfacesLate`).
- **Empty app names.** The registration comment (src/aoapps_mngr.cpp:87) asks for a short
  alphanumeric name. Registration checks only each character, so an empty name gets through. The model
  follows the code: `MngrModel.Registrable` accepts the empty name.

## Model

| member | source | states |
|---|---|---|
| Results.FirstPrefixIndex | src/aoapps_mngr.cpp:597-602 | the result is -1 or an index whose name starts with the argument |
| Results.FirstPrefixIndexIsFirst | src/aoapps_mngr.cpp:597-602 | no name before the result starts with the argument, and -1 comes back exactly when none does |
| Results.FirstPrefixIndexUnique | src/aoapps_swflag.cpp:146-152 | any search that returns a match with no match before it, or -1 with no match at all, agrees with the first-match lookup |
| MngrH.FlagsKnown | src/aoapps_mngr.cpp:145 | a flag mask passes registration exactly when it has no bit outside the three features (is below 8) |
| MngrH.FlagBits | src/aoapps_mngr.h:41-45 | the three feature flags are distinct single bits and FLAGS_ALL is their union |
| MngrModel.Init | src/aoapps_mngr.cpp:200-210 | after init only the voidapp is registered, it is current and not running, no error is latched, and the manager invariant holds |
| MngrModel.Register | src/aoapps_mngr.cpp:141-161 | a descriptor that passes the checks takes slot `count`, earlier slots and all other state stay, and the invariant is kept |
| MngrModel.ShowStatus | src/aoapps_mngr.cpp:214-233 | with an error latched the error time is stamped; otherwise the heartbeat stamp moves to now only after more than 500 ms; nothing else changes |
| MngrModel.Repair | src/aoapps_mngr.cpp:237-248 | nothing happens within 250 ms; otherwise clrerror then goactive, stopping at the first failure, whose result is returned; the time stamp moves to now exactly when both succeed |
| MngrModel.StepWithTopo | src/aoapps_mngr.cpp:470-496 | scan steps until the scan is done (a failing one enters ERROR but returns ok); then the app's start once, then the app's step; ERROR is terminal and returns the latched error |
| MngrModel.Start | src/aoapps_mngr.cpp:271-297 | the app becomes current and running; with the topo flag the scan is triggered and ok latched, otherwise the app's start result is latched; the heartbeat restarts, an error is stamped |
| MngrModel.Stop | src/aoapps_mngr.cpp:348-355 | the app's stop is called and the manager goes idle; index and latched result stay |
| MngrModel.Switch | src/aoapps_mngr.cpp:369-372 | the old app's stop comes first, then the new app is started and running |
| MngrModel.NextAppix | src/aoapps_mngr.cpp:383 | the next index is the successor, wrapping from the last app to 1, never the voidapp |
| MngrModel.SwitchNext | src/aoapps_mngr.cpp:382-384 | switches to the next app, which is never the voidapp |
| MngrModel.NextOnErrImpliesTwoApps | src/aoapps_mngr.cpp:317-320 | an app with NEXTONERR is never the voidapp, so there are at least two apps and the modulo in switchnext is safe |
| MngrModel.Step | src/aoapps_mngr.cpp:312-337 | a step keeps the invariant, the app set and the running mode |
| MngrModel.Run | src/aoapps_mngr.cpp:312-337 | any number of steps keeps the invariant, the app set and the running mode |
| MngrModel.StepWithLatchedError | src/aoapps_mngr.cpp:316-322 | with an error latched a step changes nothing and calls nothing, unless NEXTONERR is set and the error is older than 10 s, in which case it is switchnext |
| MngrModel.ErrorFreezes | src/aoapps_mngr.cpp:316-322 | while the NEXTONERR timeout is not due, any number of steps leave the manager unchanged and call nothing |
| MngrModel.StepWhenOk | src/aoapps_mngr.cpp:325-336 | without a latched error the app (or wrapper) step is made, repair follows only after success and with the repair flag, and its result is latched |
| MngrModel.NextIter | src/aoapps_mngr.cpp:382-384 | repeated switchnext stays in range and leaves the voidapp for good |
| MngrModel.NextIterUp | src/aoapps_mngr.cpp:382-384 | from app j, k switchnexts reach j+k while no wrap happens |
| MngrModel.NextIterVisitsInOrder | src/aoapps_mngr.cpp:382-384 | starting from the voidapp, switchnext visits apps 1, 2, ..., count-1 in order |
| MngrModel.NextIterAdd | src/aoapps_mngr.cpp:382-384 | a+b switchnexts are a switchnexts followed by b |
| MngrModel.NextIterPeriodic | src/aoapps_mngr.cpp:382-384 | the visiting order repeats with period count-1 and never returns to the voidapp |
| MngrModel.ScanFailureSurfacesLate | src/aoapps_mngr.cpp:473-477 | the step that runs a failing scan step moves the wrapper to ERROR but does not latch the scan error (only a repair result can be latched); when nothing was latched, the next step latches the scan error and calls no collaborator |
| MngrModel.FailedAppStartFreezes | src/aoapps_mngr.cpp:480-482 | a failed app start in the wrapper latches the error in the manager, and the next step does not step the app |
| MngrModel.TopoGating | src/aoapps_mngr.cpp:473-483 | with k "not done" scan polls then "done", the wrapper makes exactly k scan steps, then one app start, and reports its result |
| MngrModel.RepairCadence | src/aoapps_mngr.cpp:240-245 | completed repairs are more than 250 ms apart, so up to time t at most (t-last)/251 of them happen, however often the ticker runs |
| Mngr.AppManager.Init | src/aoapps_mngr.cpp:200-210 | the manager object after init equals `MngrModel.Init` and keeps the invariant |
| Mngr.AppManager.Register | src/aoapps_mngr.cpp:141-161 | the descriptor is written into slot `count`, the count goes up by one, every other slot and field stays, as `MngrModel.Register` |
| Mngr.AppManager.ShowStatus | src/aoapps_mngr.cpp:214-233 | the new state is `MngrModel.ShowStatus` of the old |
| Mngr.AppManager.Repair | src/aoapps_mngr.cpp:237-248 | result, calls and repair stamp are those of `MngrModel.Repair`; nothing else changes |
| Mngr.AppManager.StartWithTopo | src/aoapps_mngr.cpp:462-467 | the wrapper is reset to TOPOBUILD with no error, the scan is triggered, ok is returned |
| Mngr.AppManager.StepWithTopo | src/aoapps_mngr.cpp:470-496 | result, calls and wrapper state are those of `MngrModel.StepWithTopo` |
| Mngr.AppManager.Start | src/aoapps_mngr.cpp:271-297 | the new state and calls are `MngrModel.Start` of the old state (default index 1) |
| Mngr.AppManager.Stop | src/aoapps_mngr.cpp:348-355 | the new state and calls are `MngrModel.Stop` of the old state |
| Mngr.AppManager.Switch | src/aoapps_mngr.cpp:369-372 | the new state and calls are `MngrModel.Switch` of the old state |
| Mngr.AppManager.SwitchNext | src/aoapps_mngr.cpp:382-384 | the new state and calls are `MngrModel.SwitchNext` of the old state |
| Mngr.AppManager.Step | src/aoapps_mngr.cpp:312-337 | the new state and calls are `MngrModel.Step` of the old state |
| Mngr.AppManager.AppAppix | src/aoapps_mngr.cpp:396-398 | the current index is a registered index |
| Mngr.AppManager.AppRunning | src/aoapps_mngr.cpp:406-408 | reports the run mode of the manager's state: true while the current app runs, false once it is stopped |
| Mngr.AppManager.AppCount | src/aoapps_mngr.cpp:416-418 | the count is between 1 and 8 |
| Mngr.AppManager.AppName | src/aoapps_mngr.cpp:428-430 | a registered name is alphanumeric, and slot 0 is "voidapp" |
| Mngr.AppManager.AppOled | src/aoapps_mngr.cpp:440-442 | slot 0's display name is "USB command" |
| MngrCmd.ListOne | src/aoapps_mngr.cpp:550-564 | the line shows index, name and display name; mode is stop for a non-current app and run or idle for the current one; each flag letter is upper case exactly when its feature is set |
| MngrCmd.ExactlyOneCurrent | src/aoapps_mngr.cpp:555-557 | in any listing exactly one app is not shown as stopped |
| MngrCmd.ListAll | src/aoapps_mngr.cpp:568-573 | one line per registered app, in index order, each as `ListOne` |
| MngrCmd.FindApp | src/aoapps_mngr.cpp:597-602 | the lookup loop returns the first app whose name starts with the argument, or -1 |
| MngrCmd.Configurable | src/aoapps_mngr.cpp:505-516 | `apps config` lists exactly the apps with a help text, in index order |
| MngrCmd.ConfigScan | src/aoapps_mngr.cpp:519-545 | the apps served all match the argument and have a command, in index order |
| MngrCmd.ConfigScanStops | src/aoapps_mngr.cpp:521-523 | the scan stops exactly when some matching app has no command, and serves nothing at or after that app |
| MngrCmd.ConfigScanComplete | src/aoapps_mngr.cpp:536-541 | every matching app with a command before the first blocked one is served |
| MngrCmd.ListConfigurable | src/aoapps_mngr.cpp:505-516 | the loop of `apps config` collects exactly `Configurable` |
| MngrCmd.ScanConfig | src/aoapps_mngr.cpp:519-545 | the name loop serves exactly `ConfigScan`, and when forwarding calls each served app's command in order |
| MngrCmd.CmdConfig | src/aoapps_mngr.cpp:503-546 | the reply is `Config` of the registry and arguments; the app commands called are exactly those of the forwarded apps, in order |
| MngrCmd.Resolve | src/aoapps_mngr.cpp:577-611 | a switch target is in range; a number selects itself and is refused exactly when out of bounds; a name selects the lowest prefix match, and is resolved to a switch exactly when some app name starts with it |
| MngrCmd.Cmd | src/aoapps_mngr.cpp:577-612 | only a resolved switch changes the manager, to `MngrModel.Switch`; listing, config and every refusal leave it unchanged |
| MngrCmd.RefusedSwitchKeepsState | src/aoapps_mngr.cpp:591 | an out-of-bounds number is refused and no switch happens |
| AppsUi.CDiv | src/aoapps_runled.cpp:116 | integer division truncates toward zero as in C |
| AppsUi.PerKibiStep | src/aoapps_runled.cpp:116 | the step of `v*perkibi/1024+1` is at least 1 and at most v+1 |
| AppsUi.DimTarget | src/aoapps_runled.cpp:115-118 | X asks for a lower dim level, otherwise a higher one; a step of at most the whole level never takes it below -1 |
| AppsUi.ButtonGate | src/aoapps_runled.cpp:110-114 | a step fires only while X or Y is held and then stamps now; a press back-dates the stamp by the period |
| AppsUi.PressFiresOneLater | src/aoapps_runled.cpp:110-113 | a press does not fire on its own step but fires on any later step while held |
| AppsUi.HeldRepeatsEveryPeriod | src/aoapps_runled.cpp:113 | while held, the next step fires exactly when more than the period has passed since the last |
| RunLed.Move | src/aoapps_runled.cpp:85-95 | the cursor moves one triplet on, or at either end reverses and steps colour (wrapping after the last); the cursor invariant is kept |
| RunLed.MovesAdd | src/aoapps_runled.cpp:85-95 | a+b frames are a frames followed by b |
| RunLed.SweepUp | src/aoapps_runled.cpp:85-87 | going up from triplet 0 the cursor visits triplets in order |
| RunLed.SweepDown | src/aoapps_runled.cpp:85-87 | going down from the last triplet it visits them in reverse order |
| RunLed.RoundTrip | src/aoapps_runled.cpp:85-95 | after n frames the cursor is at the end going down in the next colour; after 2n it is back at 0 going up, two colours on |
| RunLed.RunLedApp.constructor | src/aoapps_runled.cpp:66-69 | the zero-initialised statics |
| RunLed.RunLedApp.Start | src/aoapps_runled.cpp:133-141 | cursor at 0 going up in the first colour, both stamps now, the dim level saved, ok |
| RunLed.RunLedApp.Anim | src/aoapps_runled.cpp:73-97 | before 25 ms nothing; otherwise the current triplet is painted, and the cursor moves as `Move` only when painting succeeded |
| RunLed.RunLedApp.ButtonsCheck | src/aoapps_runled.cpp:109-122 | the dim level is set to `DimTarget` exactly when the gate fires; the cursor stays |
| RunLed.RunLedApp.Step | src/aoapps_runled.cpp:145-155 | buttons then one frame, with both effects as above: the frame stamp moves to now exactly when a frame was due, and the dim level saved at start is kept for stop |
| RunLed.RunLedApp.Stop | src/aoapps_runled.cpp:159-162 | the dim level saved at start is restored |
| Dither.FirstFailure | src/aoapps_dither.cpp:55-63 | the loop stops at the first failing answer, all before it succeeded |
| Dither.LoopResult | src/aoapps_dither.cpp:55-63 | the loop returns ok exactly when every answer is ok, otherwise the first failure |
| Dither.Attempts | src/aoapps_dither.cpp:55-63 | telegrams are sent up to and including the first failure |
| Dither.SetDither | src/aoapps_dither.cpp:55-63 | node 1, 2, ... get the dither flag until the first failure, whose result is returned |
| Dither.SetDim | src/aoapps_dither.cpp:67-75 | triplet 0, 1, ... are set to the grey level until the first failure, whose result is returned |
| Dither.Next | src/aoapps_dither.cpp:123-133 | the level stays in 0..32767; it rises going up and falls going down; the direction reverses only at an end, clipped to that end |
| Dither.NextN | src/aoapps_dither.cpp:123-133 | any number of ramp steps keeps the ramp invariant |
| Dither.ReachesTop | src/aoapps_dither.cpp:123-130 | going up, full brightness is reached and the ramp turns within 32768-lvl steps |
| Dither.ReachesBottom | src/aoapps_dither.cpp:123-127 | going down, darkness is reached and the ramp turns within lvl+1 steps |
| Dither.DitherApp.constructor | src/aoapps_dither.cpp:88-92 | the zero-initialised statics |
| Dither.DitherApp.Start | src/aoapps_dither.cpp:147-160 | dark, going up, ramp and dither on, frame due at once; grey 0 to all triplets, then dither to all nodes, stopping at the first failure |
| Dither.DitherApp.Anim | src/aoapps_dither.cpp:96-140 | Y toggles and pushes dithering and ends the step; X toggles the ramp and makes the frame due; a due frame with the ramp on takes one `Next` step and pushes it |
| Aniscript.Find | src/aoapps_aniscript.cpp:74-91 | the stick is probed first and wins when found; a real error stops the search; not found is reported only when neither EEPROM is there; on failure the outputs are the "none" markers |
| Aniscript.Load | src/aoapps_aniscript.cpp:96-120 | no EEPROM installs the heartbeat script; a found EEPROM installs its script only when reading succeeds; a search or read error installs nothing and is returned |
| Aniscript.StickWins | src/aoapps_aniscript.cpp:80-81 | a found stick is played whatever the SAIDbasic board answers |
| Aniscript.FrameStep | src/aoapps_aniscript.cpp:162-169 | Y shortens the frame time, otherwise it grows, always within 1..2000 ms and strictly until the bound |
| Aniscript.HoldingYReachesMin | src/aoapps_aniscript.cpp:162-165 | holding Y for frameMs-1 button steps or more reaches the 1 ms frame time |
| Aniscript.AniscriptApp.constructor | src/aoapps_aniscript.cpp:127-129 | the zero-initialised statics, no script |
| Aniscript.AniscriptApp.LoadScript | src/aoapps_aniscript.cpp:96-120 | the result is `Load`'s, and the script changes only on success |
| Aniscript.AniscriptApp.Start | src/aoapps_aniscript.cpp:180-192 | only after a successful load: 100 ms frames starting now; a failed load changes nothing, and the button stamp is never touched |
| Aniscript.AniscriptApp.ButtonsCheck | src/aoapps_aniscript.cpp:156-173 | the frame time takes one `FrameStep` exactly when the gate fires; always ok |
| Aniscript.AniscriptApp.Anim | src/aoapps_aniscript.cpp:133-144 | a frame is played exactly when the frame time has passed, and then its result is returned |
| Aniscript.AniscriptApp.Step | src/aoapps_aniscript.cpp:196-206 | buttons first, then a frame against the frame time the buttons left |
| SwFlag.Pressed | src/aoapps_swflag.cpp:83-86 | the highest indicator button that went down selects its flag; with none the flag stays |
| SwFlag.TableNames | src/aoapps_swflag.cpp:156-160 | `get` shows, per switch, the catalogue name of its flag |
| SwFlag.FirstUnknown | src/aoapps_swflag.cpp:180-181 | the first of the four arguments that names no flag, all before it name one |
| SwFlag.SetTable | src/aoapps_swflag.cpp:182-183 | switch i gets the first catalogue flag whose name starts with argument i |
| SwFlag.SetTableInCatalogue | src/aoapps_swflag.cpp:180-183 | since every name was found first, the new table names only catalogue flags |
| SwFlag.Command | src/aoapps_swflag.cpp:164-189 | the table stays a catalogue table and is either unchanged or exactly `SetTable` of the arguments |
| SwFlag.SetAllOrNothing | src/aoapps_swflag.cpp:176-185 | `set` with four names replaces the whole table when all four are known, and changes nothing when one is not |
| SwFlag.OnlySetWrites | src/aoapps_swflag.cpp:166-188 | every other form of the command leaves the table unchanged |
| SwFlag.SwFlagApp.constructor | src/aoapps_swflag.cpp:59-70 | the flag table holds its defaults; the other statics are zero |
| SwFlag.SwFlagApp.Start | src/aoapps_swflag.cpp:215-249 | a real search error aborts; with an expander it is initialised; flag 0 is painted and its LED lit; only full success stamps the time and saves the dim level |
| SwFlag.SwFlagApp.Anim | src/aoapps_swflag.cpp:74-109 | with an expander the pressed button picks the flag, without one the flag advances every 2 s; a new flag is painted and its LED lit; a failed button scan returns its error and changes nothing |
| SwFlag.SwFlagApp.ButtonsCheck | src/aoapps_swflag.cpp:121-137 | when the gate fires the dim level is set to `DimTarget` and the flag repainted; the flag stays |
| SwFlag.SwFlagApp.CmdFind | src/aoapps_swflag.cpp:146-152 | the lookup loop returns the first flag whose name starts with the argument, or -1 |
| SwFlag.SwFlagApp.CheckNames | src/aoapps_swflag.cpp:180-181 | the checking loop stops at `FirstUnknown`, the first argument that names no flag |
| SwFlag.SwFlagApp.WriteTable | src/aoapps_swflag.cpp:182-183 | the copying loop leaves the table equal to `SetTable` |
| SwFlag.SwFlagApp.CmdSet | src/aoapps_swflag.cpp:176-185 | the check loop refuses the first unknown name and writes nothing; otherwise the copy loop writes `SetTable` |
| SwFlag.SwFlagApp.CmdMain | src/aoapps_swflag.cpp:164-189 | reply and new table are those of `Command` |
| SwFlag.SwFlagApp.Stop | src/aoapps_swflag.cpp:267-272 | the indicator LEDs go off and the saved dim level is restored |
| StockApps.RegisterStock | src/aoapps_runled.cpp:176-180 | registering the four stock descriptors after init is accepted, fills slots 1..4, and only swflag has a command |

## Left out

- Output of every kind is left out. The Serial text, the OLED and the signalling LEDs
  of the manager are not modelled. What the manager and the apps print is modelled as
  reply values (`MngrCmd.Reply`, `SwFlag.Reply`), not as formatted text. The long
  help strings are not modelled.
- The middleware the code calls is not part of this model: the aomw topology,
  dim, flag, I/O-expander, EEPROM and tscript modules, the aoosp telegram layer and the
  aoui32 buttons. Each call is replaced by its answer, passed as a parameter.
- The command tokeniser is not part of this model. The bodies of `aocmd_cint_isprefix`
  and `aocmd_cint_parse_dec` are not part of this model either.
  - `isprefix` is modelled as a plain sequence prefix, so the empty prefix matches
    every name.
  - `parse_dec` is modelled as an optional '-' followed by one or more decimal digits.
- MngrModel.Step: `millis()` is read once per call. The C code reads it several times
  within one step. The 32-bit wrap-around of the millisecond counter and of the time
  differences is not modelled. The same holds for every app method that takes `now`.
- AppsUi.DimTarget: the level is the one requested from `aomw_topo_dim_set`. The
  clipping done inside that function is not modelled. runled and swflag both use it.
- Aniscript.Find: this assumes that `aomw_topo_i2cfind` leaves the address untouched
  when it fails, so a failed search reports the "none" markers 0xFFFF and 0xFF.
- The contents of the script are not modelled: the EEPROM bytes, the `memcpy` of the
  heartbeat script and the instruction buffer of MAXNUMINST entries. An installed
  script is modelled as `Aniscript.Script`.
- The painter of each flag is not modelled, and neither is the constant value of its
  index. The catalogue of flag names is a parameter, and the default flag table is
  passed to the `SwFlag.SwFlagApp` constructor.
- `aoapps_swflag_resethw` is not part of this model. It is a setup helper outside the
  manager loop.
- Three things are left out because they hold no logic: the handler typedefs,
  `aoapps_mngr_cmd_register`, and the declarations in aoapps.h and aoapps_runled.h.
- The voidapp's start, step and stop do nothing and return ok. They are modelled like
  any app's callbacks, through the answers in `Env`.
- `Dither.DitherApp.Stop` is modelled as a method that does nothing, as in the source.
  It has no contract.
- The AORESULT_ASSERT checks are modelled as preconditions: the registration checks,
  "running" in step and stop, "not running" and the index range in start.
- MngrModel.SwitchNext and Mngr.AppManager.SwitchNext require at least two registered
  apps, a requirement the C code does not check: with only the voidapp registered, the
  `% (count-1)` at src/aoapps_mngr.cpp:383 divides by zero, which has no defined result to
  model. The step's own use of it is covered: `MngrModel.NextOnErrImpliesTwoApps` shows
  that a NEXTONERR app implies two apps.
