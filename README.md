# breadboard, modelled in Dafny

`breadboard` is MicroPython firmware for a Raspberry Pi Pico enclosure
controller. It reads a JSON configuration that describes the attached
devices: fans, NeoPixel strips, buttons, switches, rotary encoders, button
matrices, a character LCD, and CCS811 and DHT sensors. It builds a device
registry and a table of event actions from that file, and registers named
action chains with its HTTP router. Each stateful device then recomputes its
state from its pins in a polling loop and runs the actions bound to that
state. `pico_enclosure` is the older package with the same shape: a
configuration-driven device map, a fan, an LED strip, CCS811 and DHT drivers,
a logger and a minimal web server.

This project models that core as Dafny modules, one per source file:

- **Devices.** `Base` holds the stateful device and its `process_events`
  step. `Devices` and `EventActions` hold the configuration wiring: the
  tolerant registry, all-or-nothing action chains, the events table, webhook
  URL parsing and device actions.
- **State rules.** `Button`, `Switch`, `RotaryEncoder` and `Matrix` hold the
  per-kind state rules.
- **Buffers.** `Lcd`, `Led`, `LedStrip`, `Fan` and `PicoFan` hold the cursor,
  pixel-buffer and duty-cycle state.
- **Decoders.** `Ccs811`, `Dht` and `PicoDht` hold the sensor byte and bit
  decoders.
- **Logging and routing.** `Logging` and `PicoLogging` are the two loggers.
  `PicoApi` is the enclosure's web server and `PicoDevices` its device map.
- **Helpers.** `Wrappers`, `Json` and `Numeric` are shared: results and
  errors, parsed configuration values, and integer and decimal helpers.

Objects whose fields the firmware updates are classes with those fields. The
LCD data pins, the NeoPixel buffers and the matrix columns are arrays. Pin
readings, received bytes, the clock and the outcome of each action are
inputs. Pin writes are recorded as outputs.

The router `breadboard/api.py` is not part of this model. The action-chain
routes `/action/<name>` that `Devices` registers are recorded by a registrar
that keeps each path and handler; the routes each device registers for itself
are left out.

## Model

| member | source | states |
|---|---|---|
| Base.TryToInstantiate | breadboard/base.py:18-28 | a successful construction is returned with nothing logged; a failing one yields None and logs exactly one error naming the class |
| Base.Bound | breadboard/base.py:71 | the actions bound to a device and state are the table's list when both keys exist and the empty list otherwise |
| Base.RunInOrder | breadboard/base.py:71-72 | actions start in list order; every started action but the last succeeded; no exception comes out iff every action ran and succeeded; otherwise the exception is the last started action's |
| Base.RunInOrderStopsAtFirstFailure | breadboard/base.py:71-72 | when action k is the first to fail, exactly actions 0..k start and action k's exception propagates |
| Base.StatefulDevice.RunActions | breadboard/base.py:71-72 | the loop over the bound actions starts and raises exactly what `RunInOrder` says |
| Base.StatefulDevice.ProcessEvents | breadboard/base.py:59-72 | (intended; as written a plain `manage_state` fails at the await, see Base.PlainManageStateRunsNothing) a missing `manage_state` raises AttributeError with the state untouched; a failing recompute propagates; a `None` state raises RuntimeError; otherwise the new state is stored and the actions bound to it run in order |
| Base.LookupUsesRecomputedState | breadboard/base.py:69-71 | the actions run are looked up under the state just recomputed, not the previous one |
| Base.ActionsRunOnEveryCall | breadboard/base.py:69-72 | the bound actions run on every call, even when the state did not change |
| Base.UnboundStateRunsNothing | breadboard/base.py:71 | a device or state missing from the events table runs no action and raises nothing |
| Base.PlainManageStateRunsNothing | breadboard/base.py:69 | as written, a `manage_state` that is a plain function runs (storing its state, or raising its own exception) and then the await of its string or `None` result raises, so no action runs |
| Base.CoroutineManageStateIsProcessStep | breadboard/base.py:69-72 | a `manage_state` that is a coroutine function is awaited to completion, which is exactly the intended step |
| Base.StatefulDevice.constructor | breadboard/base.py:38-43 | a new device has its name, its declared states and no state yet |
| Base.StatefulDevice.State | breadboard/base.py:45-50 | reading the state fails with RuntimeError until one is set, and otherwise yields it |
| Base.StatefulDevice.States | breadboard/base.py:52-57 | reading the states fails with RuntimeError when the class declares none, and otherwise yields them |
| Base.StatefulDevice.GetState | breadboard/base.py:74-75 | the API handler answers `{"state": state}`, failing like the state property |
| Devices.Kwargs | breadboard/devices.py:98-108 | a kind constructor receives `name` first, then exactly the entry's members other than "device" |
| Devices.RegistryHolds | breadboard/devices.py:97-114 | a name other than "_OnboardLED" is a device exactly when a non-reserved entry of that name built a truthy object, and the device is the object that entry built |
| Devices.BuiltHolds | breadboard/devices.py:97-113 | the two comprehensions bind a name exactly when a non-reserved entry of that name builds a truthy object, and bind it to that object |
| Devices.BuiltKeys | breadboard/devices.py:97-113 | the names the comprehensions keep are exactly those of non-reserved entries that build a truthy object |
| Devices.BuiltValue | breadboard/devices.py:97-113 | a kept name holds the object an entry of that name built |
| Devices.BuildLog | breadboard/base.py:18-28 | once the first comprehension completes, the log is every failed construction it caught |
| Devices.LogKeptOnRaise | breadboard/devices.py:97-111 | an entry that raises ends the comprehension, and the failed constructions that `try_to_instantiate` (breadboard/base.py:18-28) logged for earlier entries stay logged, whatever follows |
| Devices.ReservedNeverDevices | breadboard/devices.py:110 | "network", "actions", "context" and "events" never become devices |
| Devices.OnboardAlwaysPresent | breadboard/devices.py:114 | "_OnboardLED" is always in the registry, replacing any configured entry of that name |
| Devices.UnknownKindRaises | breadboard/devices.py:98 | an entry whose "device" is not in `DEVICE_MAP` raises KeyError naming it, outside the tolerant factory |
| Devices.FailedConstructionLogged | breadboard/devices.py:98-108 | a kind constructor that raises yields `None` and one logged failure with the class name |
| Devices.CompileStep | breadboard/devices.py:121-125 | a compiled step always calls an attribute that its named device has |
| Devices.CompileStepDeviceErrors | breadboard/devices.py:121-125 | a step that is not a dict raises an error other than `KeyError`; a missing "device" member or a name that is no registered device raises `KeyError` naming it; a list or dict as the name raises `TypeError` |
| Devices.CompileStepResolves | breadboard/devices.py:121-125 | once the device is found, the step compiles into the call of its "action" attribute with the step's other members (without "device" and "action") as keyword arguments, which is `_curry` at breadboard/devices.py:60-66; a missing "action" raises `KeyError`, a non-string name `TypeError`, an attribute the device lacks `AttributeError` |
| Devices.ExecuteFunctions | breadboard/devices.py:69-77 | a chain returns `{}` iff every call returns, and then all calls ran in order; otherwise the calls stop at the first that raises, whose exception propagates |
| Devices.EmptyChainIsNoOp | breadboard/devices.py:69-77 | an empty chain calls nothing and returns `{}` |
| Devices.MapAllOk | breadboard/devices.py:119-125 | a step list compiles iff every step does, each into its own call in order |
| Devices.MapAllErr | breadboard/devices.py:119-134 | a failing step list fails with the error of its first failing step, all earlier steps having compiled |
| Devices.MapAllStops | breadboard/devices.py:126-134 | the first failing step ends the step list with its error (the `break`) |
| Devices.CompileChainAllOrNothing | breadboard/devices.py:119-136 | a chain compiles all or nothing: every step into its own call, or the error of the first step that fails |
| Devices.Failure | breadboard/devices.py:126-134 | a KeyError is logged as a device not found, every other exception as an action that failed to load |
| Devices.RouteRegisteredIff | breadboard/devices.py:116-136 | when the loop raises nothing (no step list that cannot be iterated, no failure whose log line raises; see Devices.NothingRaisedIff), `/action/<name>` is registered with a chain exactly when the steps of an action of that name compile into it |
| Devices.FailureLoggedIff | breadboard/devices.py:116-134 | when the loop raises nothing, a failure is logged for an action exactly when its steps fail to compile, with the failing step's error; a failing chain affects no other action |
| Devices.Registrar.constructor | breadboard/devices.py:136 | the router starts with no routes |
| Devices.Registrar.Route | breadboard/devices.py:136 | registering a route appends it and changes nothing else |
| Devices.CompileSteps | breadboard/devices.py:119-134 | the step loop compiles exactly what `CompileChain` says |
| Devices.MapInOrder | breadboard/devices.py:119-134 | the loop that stops at the first failure computes `MapAll` |
| Devices.CompileOne | breadboard/devices.py:116-136 | one action registers its route when its chain compiles, logs its failure when it does not (and then raises the formatting error when the text of an exception other than KeyError cannot be formatted by `logger.error`), or raises when its steps cannot be iterated |
| Devices.CompileActions | breadboard/devices.py:116-136 | the actions loop registers, logs and raises exactly what `CompileAll` says, including the exception raised by the `logger.error(str(e))` line |
| Devices.AttributeTextFormats | breadboard/devices.py:133 | logging the text of an AttributeError raises exactly when the '%' signs of the missing attribute's name do not pair up |
| Devices.StepErrorKinds | breadboard/devices.py:121-125 | a step fails with KeyError, AttributeError or a TypeError whose text holds no '%' |
| Devices.StepLogRaises | breadboard/devices.py:121-133 | of the exceptions a step raises, exactly an AttributeError naming an attribute with an unpaired '%' makes `logger.error(str(e))` raise |
| Devices.PassRaises | breadboard/devices.py:116-134 | one action raises exactly when its steps cannot be iterated or they fail with an exception whose log line raises |
| Devices.NothingRaisedIff | breadboard/devices.py:116-134 | the actions loop ends without an exception exactly when no action on its own raises |
| Devices.PercentAttributeStopsLoop | breadboard/devices.py:120-134 | a step naming the attribute "50%" of a device that lacks it logs the failure, then raises from the log line of its text, and no later action is registered or logged |
| Devices.CompileAllStops | breadboard/devices.py:116-119 | once a step list raises, later actions are neither registered nor logged |
| Devices.TableCollects | breadboard/devices.py:138-148 | the events table holds (device, state) exactly when some event names both, and then the actions of those events concatenated in declaration order |
| Devices.InsertHolds | breadboard/devices.py:140-148 | inserting one event creates its (device, state) entry if missing and appends its actions; every other entry keeps its actions |
| Devices.InsertInSteps | breadboard/devices.py:141-148 | creating the missing dict and list, then extending, is one insertion |
| Devices.Extend | breadboard/devices.py:141-148 | the step-by-step update of the table is one insertion |
| Devices.ReadEvent | breadboard/devices.py:140-147 | the pops of one event and the parsing of its action give `ParseEvent` |
| Devices.BuildEvents | breadboard/devices.py:138-148 | the events loop builds `EventsTable`: the table of all parsed events, or the first exception raised |
| Devices.Devices.constructor | breadboard/devices.py:91-148 | the object holds the registry and the events table it is given |
| Devices.Devices.Get | breadboard/devices.py:154-155 | indexing yields the device of that name, and raises KeyError naming the key otherwise |
| Devices.Load | breadboard/devices.py:91-148 | `Devices.__init__` succeeds exactly when `Wire` does, with its registry, table, routes and logs, and otherwise raises its error; the failed constructions logged before the error are kept, including those before an entry that raised in the device comprehension |
| EventActions.Scheme | breadboard/event_actions.py:6 | the scheme group is "https" or "http", taken with its "://" from the start of the URL, and there is none exactly when the URL starts with neither |
| EventActions.DigitRun | breadboard/event_actions.py:6 | the greedy `\d*` takes the longest run of ASCII digits at its position |
| EventActions.LazyHost | breadboard/event_actions.py:6 | the lazy host group stops at the first position where the rest of the pattern matches, never passing a newline |
| EventActions.LineLength | breadboard/event_actions.py:6 | the greedy `.*` of the path group runs to the next newline or the end |
| EventActions.ParseUrlSound | breadboard/event_actions.py:17-29 | a URL that matches starts with its scheme and "://", and its host and its path, which starts with "/", hold no newline |
| EventActions.ParseLayout | breadboard/event_actions.py:17-29 | a URL assembled from a scheme, a host, an optional ":", digits and a path parses back into those pieces, the port being `int(digits)` or 80 |
| EventActions.ExplicitPortRoundTrip | breadboard/event_actions.py:17-29 | with an explicit ":port", scheme, host, port and path are recovered exactly |
| EventActions.PortlessRoundTrip | breadboard/event_actions.py:25 | with no port the port is 80, provided the host does not end in a digit or ":" |
| EventActions.TrailingHostDigitsBecomePort | breadboard/event_actions.py:6-25 | digits at the end of a port-less host are taken as the port, since the host group is lazy |
| EventActions.CallWebhook | breadboard/event_actions.py:31-42 | the request "GET <path> HTTP/1.1" plus two CRLFs is written exactly when the connection and the write succeed and the '%' signs of the path and host pair up; once connected, an unpaired '%' makes the debug line raise TypeError or ValueError, which leaves the call with nothing written and nothing logged; socket failures are logged as OSError and not raised |
| EventActions.FormatsWithoutParams | breadboard/logging.py:80 | `message % ()` succeeds exactly when every '%' of the message is half of a "%%" |
| EventActions.DebugFormats | breadboard/event_actions.py:37-38 | the debug line built from `repr(request)`, the host and the port formats exactly when the path's and the host's '%' signs pair up |
| EventActions.PercentEncodedPathRaises | breadboard/event_actions.py:31-42 | a percent-encoded path such as "/a%20b" is never sent: the call raises after connecting and logs nothing |
| EventActions.Invoke | breadboard/event_actions.py:60-61 | calling a device action calls its operation with exactly the stored keyword arguments |
| EventActions.Resolve | breadboard/event_actions.py:56-57 | the operation resolves exactly when the device exists and has that attribute; a missing device raises KeyError and a missing attribute AttributeError |
| EventActions.DeviceActionBuilt | breadboard/event_actions.py:56-84 | a device action is built only from a dict naming an existing device and one of its attributes, and keeps the other members as keyword arguments |
| EventActions.WebhookBuilt | breadboard/event_actions.py:17-84 | a webhook is built only from a dict whose "url" is a string the pattern matches, and holds its parsed parts |
| EventActions.ActionObjects | breadboard/event_actions.py:79-82 | a single dict is wrapped in a list, a list is iterated as is, and a value that cannot be iterated raises |
| EventActions.BuildAll | breadboard/event_actions.py:83-84 | the pairs of one action object give one action each, in order, or the first failure raises |
| EventActions.SingleObjectIsOneElementList | breadboard/event_actions.py:79-80 | a single action object parses as the one-element list holding it |
| EventActions.OneActionPerPair | breadboard/event_actions.py:82-86 | an action object parses iff each of its pairs builds, into one action per pair in order |
| EventActions.UnknownKindRaisesKeyError | breadboard/event_actions.py:64-84 | an action kind other than "webhook" or "device" raises KeyError naming it |
| EventActions.ParseEventActions | breadboard/event_actions.py:67-86 | the two nested loops return exactly `ParseSpec`: every action in order, or the first error |
| EventActions.AppendActions | breadboard/event_actions.py:83-84 | the inner loop appends the actions of one object after those already built, stopping at the first failure |
| Json.Lookup | breadboard/devices.py:116-139 | `dict.get` finds a value exactly when some member has the key, and the value is that member's |
| Json.Without | breadboard/devices.py:100-107 | the members other than the dropped key are kept, and only they |
| Json.Subscript | breadboard/devices.py:98 | `entry["device"]` succeeds exactly on a dict holding the key, and raises KeyError on a dict without it |
| Json.Pop | breadboard/devices.py:122-147 | `pop` yields the key's value and leaves the other members; a missing key raises KeyError, a list raises the TypeError of a string index and any other value AttributeError |
| Json.Items | breadboard/event_actions.py:83 | `.items()` exists only on a dict and yields its members in order |
| Json.Iterate | breadboard/devices.py:119-139 | iteration works on lists, strings and dicts (one item per element, character or key) and raises on anything else |
| Json.KeyText | breadboard/devices.py:126-128 | a KeyError on a string key shows that string |
| Button.Level | breadboard/button.py:43 | a reading maps to one of the two button states, and to "on" exactly when the input is high |
| Button.ButtonMode | breadboard/button.py:17-19 | only "toggle" (1) and "momentary" (2) are known modes; any other hashable key raises KeyError naming it |
| Button.ToggleRuleFollowsEdges | breadboard/button.py:48-57 | the toggle button's state follows the reading when it differs from the last one seen, and stays put otherwise |
| Button.FirstToggleIsAChange | breadboard/button.py:46-56 | with no reading seen yet, the first poll always sets the state from the input |
| Button.FlipTwiceRestores | breadboard/button.py:97-104 | toggling a momentary or virtual button twice restores its state |
| Button.ToggleButton.constructor | breadboard/button.py:39-46 | the initial state follows the input and no reading is recorded |
| Button.ToggleButton.ToggleState | breadboard/button.py:48-57 | on a new reading the state follows it and the reading is recorded; a repeated reading changes nothing; the state is returned |
| Button.ToggleButton.ProcessEvents | breadboard/button.py:59-62 | (intended; as written see Button.ToggleRunsNoActionAsWritten) one poll processes events with the toggle rule for the current reading and records that reading |
| Button.MomentaryButton.constructor | breadboard/button.py:79-95 | the initial state follows the input and the mode is stored |
| Button.MomentaryButton.ManageState | breadboard/button.py:92-93 | `manage_state` is the flip rule in toggle mode and unset in any other mode |
| Button.MomentaryButton.Poll | breadboard/button.py:106-111 | (intended; as written see Button.MomentaryToggleRunsNoActionAsWritten) a low input does nothing; a high input processes events once |
| Button.ToggleRunsNoActionAsWritten | breadboard/button.py:44-57 | as written, a poll stores the state that follows the reading and then fails at the await of the returned string, so a toggle button runs no action |
| Button.MomentaryToggleRunsNoActionAsWritten | breadboard/button.py:93-104 | as written, a press in toggle mode flips the state and then fails at the await, so no action runs |
| Button.NewMomentaryButton | breadboard/button.py:79-95 | construction fails exactly when the mode name is unknown, with the lookup's error; otherwise the mode and initial state are set |
| Button.MomentaryModeRaises | breadboard/button.py:91-93 | a button in "momentary" mode raises AttributeError on a press and keeps its state |
| Button.VirtualInitial | breadboard/button.py:129-134 | no default gives "off"; a default must be one of the states, else RuntimeError |
| Button.VirtualOnAsWritten | breadboard/button.py:135 | as written, `on()` on an "off" virtual button raises AttributeError and leaves it "off" |
| Button.VirtualOnCorrected | breadboard/button.py:141-148 | with `manage_state` bound to `toggle_state` and the await at breadboard/base.py:69 completing, `on()` makes it "on" and runs the actions bound to "on" |
| Button.VirtualOnBindingOnlyAsWritten | breadboard/button.py:141-148 | with `manage_state` bound to `toggle_state` but the await at breadboard/base.py:69 as written, `on()` stores "on", then awaiting the returned string raises TypeError and no action runs |
| Button.VirtualToggleButton.constructor | breadboard/button.py:124-139 | the state is the validated initial one and the events table is empty; the class is the intended one with `manage_state = toggle_state` and the await at breadboard/base.py:69 completing (as written, breadboard/button.py:135 binds `on_state_change`: see Button.VirtualOnAsWritten) |
| Button.VirtualToggleButton.Loop | breadboard/button.py:150-154 | `_loop` only hands over the events table |
| Button.VirtualToggleButton.On | breadboard/button.py:156-161 | intended behaviour with `manage_state = toggle_state` and the await at breadboard/base.py:69 completing: the output goes high; events are processed only from "off"; the reply is `{"state": state}` unless an action raised (as written, processing events from "off" raises AttributeError: Button.VirtualOnAsWritten) |
| Button.VirtualToggleButton.Off | breadboard/button.py:163-168 | intended behaviour with `manage_state = toggle_state` and the await at breadboard/base.py:69 completing: the output goes low; events are processed only from "on"; the reply is `{"state": state}` unless an action raised (as written, processing events raises AttributeError as in Button.VirtualOnAsWritten) |
| Button.NewVirtualToggleButton | breadboard/button.py:124-134 | construction fails exactly when the default is not a state, and otherwise starts in the validated initial state |
| Switch.StateNames | breadboard/switch.py:27-31 | the declared states are the mapping's states, one per entry, in mapping order |
| Switch.Put | breadboard/switch.py:38-40 | assigning a pin's entry adds that entry, keeps every entry of another pin and adds nothing else, and keeps one entry per pin |
| Switch.BuildTable | breadboard/switch.py:28-40 | the pin table holds one entry per pin, and every state in it is one of the mapping's states |
| Switch.HighStates | breadboard/switch.py:30-37 | the states whose pins read high at construction are among the mapping's states |
| Switch.OffState | breadboard/switch.py:43-58 | looking up the off state succeeds iff the table has an "off" entry, gives that entry's state, and otherwise raises KeyError("off") |
| Switch.InitialStateIsAState | breadboard/switch.py:30-43 | a switch that constructs starts in one of its own states |
| Switch.HighStatesPrefix | breadboard/switch.py:30-37 | the high states of a prefix of the mapping are a prefix of its high states |
| Switch.FirstChange | breadboard/switch.py:50-56 | a change is found iff some high pin's state differs from the current one, and it is the first such pin in table order, all earlier high pins holding the current state |
| Switch.SwitchStaysInStates | breadboard/switch.py:47-60 | from one of its states, a switch whose step succeeds stays in one of its states |
| Switch.HeldPositionKeepsState | breadboard/switch.py:50-58 | when every high pin maps to the current state, the state is kept |
| Switch.ReleasedGoesOff | breadboard/switch.py:57-59 | with no pin high the state becomes the off state whatever it was, and a switch without an off position raises KeyError("off") |
| Switch.Switch.constructor | breadboard/switch.py:25-45 | a switch holds its declared states, its pin table and its initial state |
| Switch.Switch.ManageState | breadboard/switch.py:47-60 | the for/else loop moves the state exactly as `SwitchNext` says, or raises its error and keeps the state |
| Switch.Switch.ProcessEvents | breadboard/switch.py:62-64 | (intended; as written see Switch.SwitchRunsNoActionAsWritten) one event-processing call with the switch's pins as the state rule moves the state and runs the actions exactly as `ProcessStep` says |
| Switch.SwitchRunsNoActionAsWritten | breadboard/switch.py:47-60 | as written, `manage_state` returns `None`, so every poll stores the new state (or raises KeyError for a missing off position) and then raises TypeError at the await: a switch runs no action |
| Switch.FirstChangeAt | breadboard/switch.py:50-56 | a high pin with a new state after high pins that all hold the current state is the first change |
| Switch.MappingStep | breadboard/switch.py:30-40 | one more mapping entry adds its state to the declared states, its pin to the table, and its state to the high states when its pin reads high |
| Switch.NewSwitch | breadboard/switch.py:25-45 | constructing succeeds iff at most one pin reads high and, when none does, the mapping has an off position; the switch then declares the mapping's states, holds its pin table and starts in the high pin's state or the off state; two high pins raise RuntimeError |
| Switch.WalkMapping | breadboard/switch.py:30-40 | the constructor loop stops at a second high pin; otherwise it collects the states and the pin table, and finds the one high state if there is one |
| RotaryEncoder.Status | breadboard/rotary_encoder.py:47 | the reading is a two-bit number whose high bit is channel a and low bit channel b |
| RotaryEncoder.TurnDecodesEdges | breadboard/rotary_encoder.py:52-60 | for two-bit readings, "decreasing" is reported iff the reading goes from 10 to 00, "increasing" iff it goes from 01 to 00, and no turn otherwise |
| RotaryEncoder.RotaryEncoder.constructor | breadboard/rotary_encoder.py:21-38 | an encoder declares the states "increasing" and "decreasing", starts in state '' and with last reading 0 |
| RotaryEncoder.RotaryEncoder.Process | breadboard/rotary_encoder.py:41-66 | an unchanged reading changes nothing; a changed one becomes the last reading, and the state becomes the reported turn when there is one and is kept otherwise |
| RotaryEncoder.InitialStateUndeclared | breadboard/rotary_encoder.py:21-33 | the initial state '' is not one of the declared states |
| Matrix.FirstRow | breadboard/matrix.py:39-42 | the row found is the first high row of the column at or after the start; no row is found only when none in range reads high |
| Matrix.Scan | breadboard/matrix.py:37-47 | the button found is pressed, every column before it has no high row and its column has no high row above it; nothing is found only when no button in the matrix is pressed |
| Matrix.ColumnsDriven | breadboard/matrix.py:37-45 | a scan drives at most every column |
| Matrix.Pulses | breadboard/matrix.py:38-43 | the writes of a scan over n columns are, for each column in order, one "on" followed by one "off" |
| Matrix.ScanAt | breadboard/matrix.py:40-45 | when earlier columns found nothing, a high row in the current column ends the scan there, otherwise the scan moves to the next column |
| Matrix.ScanDone | breadboard/matrix.py:46-47 | a scan that runs past the last column found nothing and drove every column |
| Matrix.Released | breadboard/matrix.py:43 | after the first n columns were driven and released they read low and every other column keeps its level |
| Matrix.LabelInjective | breadboard/matrix.py:41 | different buttons get different "<column>_<row>" state names |
| Matrix.LabelShape | breadboard/matrix.py:41 | a state name is the column's digits followed by '_' |
| Matrix.LabelIsNotNoButton | breadboard/matrix.py:41-47 | no button's state name is "None", so a pressed button is never mistaken for no button |
| Matrix.Matrix.constructor | breadboard/matrix.py:21-33 | the matrix starts in state "None" with the given columns and rows and nothing declared |
| Matrix.Matrix.ScanColumn | breadboard/matrix.py:39-42 | the inner loop returns exactly `FirstRow` of the driven column |
| Matrix.Matrix.Probe | breadboard/matrix.py:38-43 | the column is driven and released, leaving it low and every other column unchanged, and its first high row is returned |
| Matrix.Matrix.Drive | breadboard/matrix.py:37-47 | the scan loop finds exactly `Scan`'s button, writes exactly `Pulses` of the columns it drove and leaves those columns low |
| Matrix.Matrix.ManageState | breadboard/matrix.py:35-52 | the state becomes the scanned button's label or "None"; it counts as changed (the debounce sleep) iff it differs from the old state |
| Matrix.Matrix.ProcessEvents | breadboard/matrix.py:54-56 | one event-processing call with the matrix's scan as the state rule moves the state and runs the actions exactly as `ProcessStep` says |
| Lcd.Drive | breadboard/lcd.py:167-168 | bit i of a nibble (from 0) drives data pin `-(i+1)`, and the other pins keep their level |
| Lcd.Nibbles | breadboard/lcd.py:165 | a transfer is split into `bits[:4]` and `bits[4:8]`, neither longer than four bits |
| Lcd.SetData | breadboard/lcd.py:162-170 | a transfer keeps four data pins and leaves the cursor where it was |
| Lcd.EightBitTransfer | breadboard/lcd.py:162-170 | an 8-bit transfer latches exactly two frames with the given register select, the high nibble then the low nibble, which read DB7 first spell the byte sent |
| Lcd.NibbleFrame | breadboard/lcd.py:166-170 | a full nibble latches one frame whose bus reads that nibble |
| Lcd.FourBitTransfer | breadboard/lcd.py:165-170 | a 4-bit transfer latches a single frame: the empty second nibble is skipped |
| Lcd.CommandBytes | breadboard/lcd.py:102-140 | the address command for an address below 128 is 0x80 plus the address, and a character is sent as its code modulo 256 |
| Lcd.MoveTo | breadboard/lcd.py:95-116 | with `update_cursor`, a column or row past the last raises and changes nothing (negative values are not checked); otherwise the address command for x + 64y is sent; on success the cursor is (x, y) |
| Lcd.AdvanceStaysInside | breadboard/lcd.py:143-153 | from inside the display the cursor moves one cell on in reading order, wrapping at the end, and stays inside |
| Lcd.WriteChar | breadboard/lcd.py:118-153 | writing a character keeps four data pins; from inside the display it never raises and moves the cursor one cell on in reading order, wrapping after the last cell |
| Lcd.WriteCharInside | breadboard/lcd.py:118-153 | within the display a character never raises: it latches its two frames, then the address frames only on a wrap |
| Lcd.WriteString | breadboard/lcd.py:155-160 | writing a string keeps four data pins; from inside the display any string is written without error and leaves the cursor `len(string)` cells further on in reading order, modulo the display size |
| Lcd.Clear | breadboard/lcd.py:172-186 | `clear` homes the cursor to (0, 0) |
| Lcd.ClearSendsOneCommand | breadboard/lcd.py:172-186 | `clear` latches exactly the two frames of 0x01 with register select low, and no address command |
| Lcd.Display.constructor | breadboard/lcd.py:44-84 | the pins start low, nothing is latched and the cursor is at (0, 0) |
| Lcd.Display.DriveNibble | breadboard/lcd.py:167-168 | the pin loop leaves the data pins as `Drive` says |
| Lcd.Display.SendData | breadboard/lcd.py:162-170 | the nibble loop on the pin array does exactly what `SetData` says |
| Lcd.Display.MoveCursor | breadboard/lcd.py:95-116 | `move_to` on the display does what `MoveTo` says, changing nothing when it raises |
| Lcd.Display.PutChar | breadboard/lcd.py:118-153 | `write_char` on the display does what `WriteChar` says |
| Lcd.Display.Write | breadboard/lcd.py:155-160 | the character loop does what `WriteString` says and returns `{}` unless a character raises |
| Lcd.Display.ClearDisplay | breadboard/lcd.py:172-186 | `clear` on the display does what `Clear` says and returns `{}` |
| Lcd.NewDisplay | breadboard/lcd.py:66-84 | construction raises RuntimeError unless exactly four data pins are given, and otherwise starts blank at (0, 0) |
| Led.FullBrightnessIsExact | breadboard/led.py:170-180 | at brightness 100 every channel keeps its value |
| Led.ScaleMonotonic | breadboard/led.py:170-180 | a brighter setting never gives a dimmer channel |
| Led.Paint | breadboard/led.py:54-59 | every pixel off the blacklist takes the colour, and blacklisted pixels keep theirs |
| Led.Show | breadboard/led.py:79-86 | every pixel off the blacklist shows its recorded colour as the byte buffer stores it, and blacklisted pixels keep theirs |
| Led.ByteOf | breadboard/led.py:58 | a channel stored in the NeoPixel driver's `bytearray` becomes a byte that differs from the value by a multiple of 256, and a value already in 0..255 is kept |
| Led.Stored | breadboard/led.py:58 | `_np[idx] = color` leaves a colour of three bytes, equal to the colour when its channels already fit |
| Led.StoredAll | pico_enclosure/led_strip.py:65-67 | every record as the byte buffer stores it, one per pixel |
| Led.OverBrightGreyWraps | breadboard/led.py:71-74 | `set(brightness=200)` asks for the grey level 510, which the buffer holds as 254 |
| Led.Dark | breadboard/led.py:91-95 | every pixel, blacklisted or not, shows (0, 0, 0) |
| Led.ShowIdempotent | breadboard/led.py:79-86 | turning on twice shows the same as turning on once |
| Led.OffThenOnRestores | breadboard/led.py:79-95 | off, then on, gives back what the lit strip showed, since `off` leaves the record alone |
| Led.PaintThenShow | breadboard/led.py:54-86 | after a colour is written, turning on shows exactly the bytes the write showed |
| Led.EffectiveBrightness | breadboard/led.py:164 | a missing or zero brightness falls back to the default, then to 100; the result is never 0 |
| Led.ReplaceGrey | breadboard/led.py:179 | `replace("grey", "gray")` keeps the length, turns the 'e' of every "grey" into 'a' and keeps every other character |
| Led.ReplaceGreyLeavesNoGrey | breadboard/led.py:179 | no "grey" is left after the replacement |
| Led.RgbColor | breadboard/led.py:164-186 | every failure of the colour computation is a ValueError |
| Led.RgbColorCases | breadboard/led.py:164-186 | truthy channels need all three channels and are scaled; otherwise a non-empty name is looked up lower-cased with "grey" as "gray" and scaled, failing iff unknown; with neither, ValueError |
| Led.NeoPixel.constructor | breadboard/led.py:36-43 | a new strip shows nothing and records the initial colour for every pixel |
| Led.NeoPixel.WriteColor | breadboard/led.py:54-61 | the record takes the colour and the strip its low bytes, except on blacklisted pixels; the strip holds only bytes |
| Led.NeoPixel.On | breadboard/led.py:79-86 | the strip shows the record's low bytes off the blacklist; the record is unchanged; returns `{}` |
| Led.NeoPixel.Off | breadboard/led.py:91-95 | every pixel goes dark; the record is unchanged; returns `{}` |
| Led.NeoPixel.SetBrightness | breadboard/led.py:71-74 | every pixel off the blacklist records the grey level `round(255 * brightness / 100)` and shows its low byte; returns `{"brightness": brightness}` |
| Led.NeoPixel.SetColor | breadboard/led.py:155-193 | a failing colour raises and changes nothing; otherwise the colour is written and pixel 0's recorded colour returned, with KeyError on an empty strip |
| Led.NewNeoPixel | breadboard/led.py:27-52 | every pixel records the grey of the default brightness (0 when none) and the strip is turned on |
| Led.DefaultColorOf | breadboard/led.py:126-128 | no default colour gives (0, 0, 0); a name is looked up as given and raises KeyError iff unknown |
| Led.NewRgbNeoPixel | breadboard/led.py:115-141 | construction fails iff the default colour name is unknown; every pixel records the default colour scaled by the default brightness, shown only with `default_on` |
| LedStrip.ChannelStep | pico_enclosure/led_strip.py:45-54 | an ascending or flat channel steps by 1; a descending one steps by minus `round(abs(start - end) / len(self))`, rounded half to even; on an empty strip a descending channel raises ZeroDivisionError; a step is never 0 |
| LedStrip.RangeLength | pico_enclosure/led_strip.py:45-56 | a channel range is empty exactly when its start is already at or past its end in the step's direction |
| LedStrip.FlatChannelWritesNothing | pico_enclosure/led_strip.py:56-61 | a channel whose start equals its end makes the gradient write nothing |
| LedStrip.AscendingGradientLength | pico_enclosure/led_strip.py:45-56 | ascending channels step by 1, so channels that each rise by at least d give at least d colours |
| LedStrip.ZeroStepRaises | pico_enclosure/led_strip.py:49-51 | a descending channel on a non-empty strip raises ValueError exactly when its drop is at most half the strip's length, so the step rounds to 0 (the tie at exactly half rounds to the even 0) |
| LedStrip.LEDStrip.constructor | pico_enclosure/led_strip.py:19-23 | every recorded colour starts as (0, 0, 0) |
| LedStrip.LEDStrip.Fill | pico_enclosure/led_strip.py:25-42 | the record of every pixel off the blacklist takes the colour and the strip its low bytes; blacklisted pixels are unchanged |
| LedStrip.LEDStrip.Gradient | pico_enclosure/led_strip.py:44-63 | a failing step raises and changes nothing; otherwise colour k goes to the record of pixel k, and its low bytes to the strip, for every pixel off the blacklist up to the shortest range, and a pixel past the strip's end raises IndexError after those before it were written |
| LedStrip.LEDStrip.On | pico_enclosure/led_strip.py:65-68 | every recorded colour is shown as its low bytes, blacklisted pixels included |
| LedStrip.LEDStrip.Off | pico_enclosure/led_strip.py:70-73 | every pixel goes dark and the record is unchanged |
| LedStrip.Written | pico_enclosure/led_strip.py:56-61 | the gradient stops at the first pixel off the blacklist past the strip's end, or after all its colours |
| Fan.DutyEndpoints | breadboard/fan.py:53-57 | speed 0 drives the maximum duty value and speed 100 drives 0 |
| Fan.DutyNonIncreasing | breadboard/fan.py:53-57 | the duty value never rises as the speed rises (the fan's input is inverted) |
| Fan.OutOfRangeSpeeds | breadboard/fan.py:55-72 | speeds are not range-checked: above 100 the duty is at most 0, below 0 it is at least the maximum, and with the default maximum 101 and -1 already leave [0, 65530] |
| Fan.Fan.constructor | breadboard/fan.py:23-41 | the idle speed is stored and its duty applied at once |
| Fan.Fan.On | breadboard/fan.py:43-46 | the stored speed is applied and kept |
| Fan.Fan.Off | breadboard/fan.py:48-51 | the maximum duty value (speed 0) is applied and the stored speed kept for the next `on` |
| Fan.Fan.Set | breadboard/fan.py:70-73 | the new speed is stored and its duty applied |
| PicoFan.DutyShape | pico_enclosure/fan.py:25-26 | speed 0 writes duty 65535, speed 100 writes 0, and the duty never rises with the speed |
| PicoFan.Fan.constructor | pico_enclosure/fan.py:15-17 | a fan starts with stored speed 0 and nothing written to the duty register |
| PicoFan.Fan.On | pico_enclosure/fan.py:19-20 | `on` writes the duty of the stored speed and keeps the speed |
| PicoFan.Fan.Off | pico_enclosure/fan.py:22-23 | `off` writes the full duty 65535 (speed 0) and keeps the stored speed |
| PicoFan.Fan.Set | pico_enclosure/fan.py:28-30 | `set` stores the speed and writes its duty |
| Ccs811.StatusByte | breadboard/environment.py:204-211 | a sensor status always fits in one byte |
| Ccs811.StatusRoundTrip | breadboard/environment.py:204-211 | parsing the status byte recovers fw_mode (bit 7), app_valid (bit 4), data_ready (bit 3) and error (bit 0) exactly (also pico_enclosure/environment.py:155-162 and pico_enclosure/air_quality.py:155-162) |
| Ccs811.ErrorByte | breadboard/environment.py:274-282 | a set of error flags always fits in one byte |
| Ccs811.ErrorRoundTrip | breadboard/environment.py:274-282 | parsing the error byte recovers the six flags of bits 0 to 5 exactly (also pico_enclosure/environment.py:217-225 and pico_enclosure/air_quality.py:217-225) |
| Ccs811.ModeByte | breadboard/environment.py:177-190 | mode 4 raises and nothing else does; the byte written is a multiple of 16 no larger than 0x70 whose bits 4 to 6 are the mode's bits 0 to 2 (also pico_enclosure/environment.py:129-141 and pico_enclosure/air_quality.py:129-141) |
| Ccs811.ModeRoundTrip | breadboard/environment.py:177-202 | every supported mode 0 to 7 reads back as the same drive mode with the data-ready interrupt off (also pico_enclosure/environment.py:129-153 and pico_enclosure/air_quality.py:129-153) |
| Ccs811.ModeGuardAsWritten | breadboard/environment.py:180-182 | as written, mode 12 passes the guard and writes 0x40, which reads back as the unsupported drive mode 4 |
| Ccs811.CheckedModeByte | breadboard/environment.py:180-182 | a guard on the encoded mode refuses exactly the arguments that would select drive mode 4, and agrees with the original on 0 to 7 |
| Ccs811.BigEndianTwoBytes | breadboard/environment.py:48 | two bytes decode as high * 256 + low, and 16-bit values round-trip through two big-endian bytes |
| Ccs811.Data | breadboard/environment.py:249-272 | eCO2 is bytes 0-1 and TVOC bytes 2-3 big-endian; status and error flags appear exactly when asked for, parsed from bytes 4 and 5; a read too short for a requested flag byte raises IndexError (the enclosure copies, pico_enclosure/environment.py:183-215 and pico_enclosure/air_quality.py:183-215, are this function) |
| Ccs811.FalseStringIsTruthy | breadboard/environment.py:264-268 | the query value "false" still includes the status and error flags |
| Ccs811.CompensatedFlagsAsWritten | breadboard/environment.py:260-268 | as written, with a compensation device asking for the status raises KeyError although the register holds the byte |
| Ccs811.BoardData | breadboard/environment.py:249-272 | a failed compensation reading propagates; without one the result is unchanged; with one the climate reading is merged and the flags come from the register bytes (intended; as written the status request raises KeyError: Ccs811.CompensatedFlagsAsWritten) |
| Ccs811.FindAddress | breadboard/environment.py:82-99 | an empty scan raises "No CCS811 devices could be found"; only the first address found is used, and only when it is a CCS811 address; a foreign first address leaves `device_addr` unset, so the reset write raises AttributeError (the enclosure copies, pico_enclosure/environment.py:78-87 and pico_enclosure/air_quality.py:78-87, break at the same level and are this function) |
| Ccs811.LaterAddressIgnored | breadboard/environment.py:82-93 | a CCS811 address after a foreign one in the scan is never used |
| Dht.PulseCyclesExact | breadboard/environment.py:373-377 | a start pulse of `ms` milliseconds is `ms * 500` state machine cycles: 10000 for the DHT11, 1000 for the DHT22 |
| Dht.Decode | breadboard/environment.py:424-452 | a frame is accepted exactly when byte 4 is the low byte of the sum of the other four, and otherwise raises "Checksum validation failed." |
| Dht.Encode | breadboard/environment.py:424-452 | a measurement in range is sent as five bytes |
| Dht.DecodeEncode | breadboard/environment.py:424-452 | every measurement in range survives being sent as a sign-magnitude frame and decoded |
| Dht.NegativeZero | breadboard/environment.py:448-452 | a set sign bit with zero magnitude reads as 0, like a clear one |
| Dht.FahrenheitShape | breadboard/environment.py:457-460 | 0 C converts to 32.0 F and 100 C to 212.0 F, and the conversion keeps order |
| Dht.Report | breadboard/environment.py:457-462 | "celsius" reports the stored reading; any other unit converts it to Fahrenheit, raising TypeError before the first measurement |
| Dht.DHTXX.constructor | breadboard/environment.py:361-389 | a new sensor has no reading, a last measurement time of 0 and the start pulse in cycles |
| Dht.DHTXX.Data | breadboard/environment.py:413-462 | within the rest time the stored reading is reported unchanged; after it a bad checksum raises and changes nothing, and a good frame is stored with the time taken |
| Dht.NewDht11 | breadboard/environment.py:471-490 | a DHT11 rests 1 s and pulses for 10000 cycles |
| Dht.NewDht22 | breadboard/environment.py:493-513 | a DHT22 (and an AM2302) rests 2 s and pulses for 1000 cycles |
| PicoDht.Pack | pico_enclosure/environment.py:287-297 | the read loop packs the 40 readings into the number whose bit i is the i-th reading |
| PicoDht.DHTXX.constructor | pico_enclosure/environment.py:249-255 | a sensor starts with no temperature or humidity, last measurement time 0 and the given rest time |
| PicoDht.DHTXX.Measure | pico_enclosure/environment.py:257-318 | within the rest time the stored fields are returned unchanged; otherwise humidity and temperature are decoded from the packed readings and stored, then a checksum mismatch raises "Checksum validation failed."; the measurement time is never updated |
| PicoDht.NewDht11 | pico_enclosure/environment.py:321-325 | a DHT11 rests 1 second between measurements |
| PicoDht.NewDht22 | pico_enclosure/environment.py:328-335 | a DHT22 (and AM2302) rests 2 seconds between measurements |
| PicoDht.HumidityFromLastReadings | pico_enclosure/environment.py:295-299 | bit k of the reported humidity is reading 24 + k: the temperature's low byte and the checksum, in reverse bit order |
| PicoDht.TemperatureQuirk | pico_enclosure/environment.py:300-302 | a set sign bit reads as 1 whatever the magnitude, a positive raw reading t reads as 32768 - t, and 0 reads as 0 |
| PicoDht.SignAsWritten | pico_enclosure/environment.py:302 | raw 0.5 degrees reads as 32763 and raw -0.5 degrees as 1, where the sign-magnitude reading gives 5 and -5 |
| PicoDht.UnmaskedChecksumRejects | pico_enclosure/environment.py:307-313 | a frame whose four data bytes sum above 255 is always rejected, because the checksum field is one byte and the sum is not masked |
| PicoDht.ChecksumAsWritten | pico_enclosure/environment.py:304-313 | the frame for 60.0 % and 25.0 degrees, with its correct checksum 84, fails the unmasked check, while the masked frame decoder accepts it |
| PicoDht.SentBits | pico_enclosure/environment.py:282-297 | a sensor sends 8 readings per byte of its frame |
| PicoDht.BitOrderAsWritten | pico_enclosure/environment.py:295-313 | the correct frame 0, 0, 0, 1, 1 (0.1 degrees, 0 %), sent most significant bit first, is rejected by the driver's packing, while the frame decoder accepts it |
| PicoDht.PackedFields | pico_enclosure/environment.py:299-304 | the packed number 0x80_8000_0000 gives humidity 0x8080, raw temperature 0 and checksum 0 |
| PicoDht.FrameBytes | pico_enclosure/environment.py:282-297 | 40 readings make up five bytes |
| PicoDht.CorrectedRoundTrip | pico_enclosure/environment.py:287-313 | decoding the readings most significant bit first, with a sign-magnitude temperature and a masked checksum, returns every in-range measurement the sensor sends |
| PicoDht.FrameBytesOfSent | pico_enclosure/environment.py:282-297 | reading bytes back from the readings of five sent bytes gives those bytes |
| Logging.RevIsInverse | breadboard/logging.py:8-15 | the reversed table swaps every pair of the level table: the two maps are inverse to each other and the levels are exactly 0 to 3 |
| Logging.BoundLevels | breadboard/logging.py:61-64 | `debug`, `info`, `warn`, `error` log at levels 0, 1, 2, 3, and their records name the level in lower case |
| Logging.PadTwoDigits | breadboard/logging.py:39 | a field from 0 to 99 is padded to exactly two digits that read back as the field |
| Logging.PadYear | breadboard/logging.py:39 | a four-digit year is kept as four digits that read back as the year |
| Logging.TimeLayout | breadboard/logging.py:37-41 | a time with a four-digit year and two-digit other fields renders as 19 characters "YYYY-MM-DD hh:mm:ss" whose digit groups read back as the six fields |
| Logging.Escape | breadboard/logging.py:83 | every quote of an escaped value is preceded by a backslash, and the value never starts with a quote |
| Logging.UnescapeEscape | breadboard/logging.py:83 | escaping loses nothing: reading `\"` back as a quote returns the original value |
| Logging.CustomEntriesAppend | breadboard/logging.py:82-85 | the custom entries of concatenated keyword lists are the concatenation of their entries: each keyword renders independently, in order |
| Logging.OneLine | breadboard/logging.py:98 | the message keeps its length, contains no newline, and every non-newline character is unchanged |
| Logging.Render | breadboard/logging.py:93-100 | rendering succeeds iff the clock tuple has at least six fields and the requested level has a name; then the line is the template filled with the stamp, the lower-case level name, the custom entries and the one-line message |
| Logging.LevelSetterAsWritten | breadboard/logging.py:70-87 | after `level = "INFO"` the stored level is the name, so every later comparison with a requested level raises TypeError; a stored number would compare normally |
| Logging.Writes | breadboard/logging.py:88-101 | a passing record appends one console line exactly when `serial_log` is on and one HTML-wrapped line exactly when `file_log` is on |
| Logging.Outcome | breadboard/logging.py:87-101 | intended behaviour (as written, any passing record with `file_log` off raises AttributeError: Logging.FileLogOffAsWritten): a record below the threshold, or with no destination on, writes nothing and cannot fail; any other fails exactly when the clock cannot unpack or the level has no name |
| Logging.FileLogOffAsWritten | breadboard/logging.py:54-91 | with `file_log` off the destination list reads the missing `log_buffer`, so a passing record raises AttributeError; the intended logger prints the rendered line and nothing else |
| Logging.Logger.constructor | breadboard/logging.py:54-60 | the logger starts with the given switches and threshold and with nothing written |
| Logging.Logger.SetLevel | breadboard/logging.py:70-74 | intended setter (as written it stores the name, and the next log call raises TypeError: Logging.LevelSetterAsWritten): an unknown name raises "Unknown logging level" and keeps the threshold; a known one sets the threshold to that name's number; nothing is written |
| Logging.Logger.PrintLog | breadboard/logging.py:76-101 | the console and the buffer grow by exactly what `Outcome` says, or stay unchanged while its error is raised; the threshold is unchanged |
| Logging.NewLogger | breadboard/logging.py:54-60 | an unknown level name raises KeyError; otherwise the logger has that level's number, the given switches and empty output |
| PicoLogging.Interpolate | pico_enclosure/logging.py:59 | `message % params` with string parameters fails only with ValueError (a lone '%' at the end, an unsupported conversion character) or TypeError (too few or too many parameters) |
| PicoLogging.PlainPrefix | pico_enclosure/logging.py:59 | text without '%' in front of a template is copied unchanged ahead of the rest's formatting, or the rest's error is raised |
| PicoLogging.PlainText | pico_enclosure/logging.py:59 | text without '%' formats to itself with no parameters and raises TypeError ("not all arguments converted") with any |
| PicoLogging.ParamsInOrder | pico_enclosure/logging.py:59 | each `%s` takes the next parameter: a template of n + 1 plain pieces joined by `%s` formats with exactly n parameters, placed in order, and raises TypeError with any other number |
| PicoLogging.EscapeRoundTrip | pico_enclosure/logging.py:59 | doubling every '%' of a text gives a template that formats back to that text without parameters |
| PicoLogging.PercentSigns | pico_enclosure/logging.py:59 | "100%" with no parameters raises ValueError("incomplete format"); "a%%b" formats to "a%b" |
| PicoLogging.Format | pico_enclosure/logging.py:59 | an exception object handed to `message % params` raises TypeError; a format string is formatted with its parameters |
| PicoLogging.LineShape | pico_enclosure/logging.py:16-65 | a record at one of the four levels is "[", the level's digit, " - ", the time, "] " and the message |
| PicoLogging.Outcome | pico_enclosure/logging.py:58-71 | a record raises iff its message cannot be formatted (an exception object, or a format error), with that error, at any level; a formatted record below the threshold writes nothing; one at or above it prints its line when `serial_log` is on and appends it with a newline when `file_log` is on |
| PicoLogging.Logger.constructor | pico_enclosure/logging.py:36-42 | the logger starts with the given switches and threshold and with nothing written |
| PicoLogging.Logger.SetLevel | pico_enclosure/logging.py:52-56 | intended setter (as written it stores the name, and the next log call raises TypeError: Logging.LevelSetterAsWritten): an unknown name raises "Unknown logging level" and keeps the threshold; a known one sets the threshold to that name's number; nothing is written |
| PicoLogging.Logger.PrintLog | pico_enclosure/logging.py:58-71 | the console and the buffer grow by exactly what `Outcome` says, or stay unchanged while its error is raised; the threshold is unchanged |
| PicoLogging.NewLogger | pico_enclosure/logging.py:36-42 | an unknown level name raises KeyError; otherwise the logger has that level's number, the given switches and empty output |
| PicoLogging.DefaultLevel | pico_enclosure/logging.py:36-46 | at the default INFO threshold a formattable `debug` record writes nothing and `info`, `warn` and `error` records reach every enabled destination with the formatted text |
| PicoLogging.ExceptionRaises | pico_enclosure/logging.py:59-74 | `exception(e)` as written raises TypeError whatever the level and destinations; logging the exception's text at ERROR through `"%s"` reaches every enabled destination whatever '%' signs it holds |
| PicoApi.Split | pico_enclosure/api.py:20-21 | splitting on a character gives at least one piece and no piece holds the character |
| PicoApi.JoinSplit | pico_enclosure/api.py:20-21 | splitting loses nothing: joining the pieces with the separator gives the text back |
| PicoApi.SplitJoin | pico_enclosure/api.py:20-21 | pieces that hold no separator split back out of their join unchanged |
| PicoApi.SplitCount | pico_enclosure/api.py:20 | a split has exactly one more piece than the text has separators |
| PicoApi.Quote | pico_enclosure/api.py:16 | `str(bytes)` quotes with either a single or a double quote |
| PicoApi.ReprByteSpaces | pico_enclosure/api.py:16 | in `str(bytes)` only a space byte shows as a space |
| PicoApi.ReprPieces | pico_enclosure/api.py:16-20 | the text of a request line splits on spaces into one more piece than the line has space bytes |
| PicoApi.ReprRequest | pico_enclosure/api.py:16 | the text of "method path protocol" is "b", the quote and the escaped method, a space, the escaped path, a space, and the escaped protocol and the quote |
| PicoApi.ReprBodyPlain | pico_enclosure/api.py:16 | printable bytes other than the backslash and the quote show as themselves |
| PicoApi.RequestPath | pico_enclosure/api.py:16-20 | a request line whose method and protocol hold no space splits into exactly three pieces, and a plain path comes out as its own characters |
| PicoApi.Insert | pico_enclosure/api.py:24 | assigning `d[k] = v` binds k to v and keeps every other key's value; an existing key keeps its place and a new key goes at the end |
| PicoApi.DictOf | pico_enclosure/api.py:24 | building the parameter dictionary fails iff some segment does not split on "=" into exactly two parts, and then with ValueError; on success the keys are those of the segments in order of first occurrence, each bound to the value of the last segment with that key |
| PicoApi.RespondCases | pico_enclosure/api.py:28-60 | an unknown route, or a KeyError from its handler, answers 404; a result answers 200 with the result as the page heading; any other error escapes |
| PicoApi.HeaderEnd | pico_enclosure/api.py:17-18 | the header loop stops at the first line after the request line that is exactly "\r\n", and never stops when there is none |
| PicoApi.API.constructor | pico_enclosure/api.py:5-6 | the route table starts empty |
| PicoApi.API.Route | pico_enclosure/api.py:8-13 | registering a handler binds the path to it, replacing an earlier one, leaves other paths alone and returns the handler itself |
| PicoApi.API.RouteRequests | pico_enclosure/api.py:15-60 | serving a connection reads the request line, skips the headers and answers exactly as `Serve` says: hangs without a blank line, raises, or writes the status and page |
| PicoApi.NewApi | pico_enclosure/api.py:63-68 | the module's server has exactly the "/test" route |
| PicoApi.TestServes | pico_enclosure/api.py:66-68 | a well-formed request for "/test" answers 200 with "Hello, World" as the heading |
| PicoApi.TestPath | pico_enclosure/api.py:21-68 | the path "/test" answers 200 with "Hello, World" |
| PicoApi.MalformedRequest | pico_enclosure/api.py:20 | a request line with other than two spaces raises ValueError before any route is looked up |
| PicoApi.TwoPieceRequest | pico_enclosure/api.py:20 | the request line "GET /x" raises ValueError "not enough values to unpack (expected 3, got 2)" |
| PicoApi.UnknownRoute | pico_enclosure/api.py:21-60 | a path whose part before "?" is not a route, and without exactly one "?", answers 404 |
| PicoApi.ParamsAsWritten | pico_enclosure/api.py:21-24 | with exactly one "?", the parameters are built from the route part, which holds no "=", so the request raises ValueError |
| PicoApi.ParamsCorrected | pico_enclosure/api.py:21-24 | taking the parameters from the query, "route?key=value" gives the dictionary {key: value} |
| PicoApi.QueryAsWritten | pico_enclosure/api.py:20-29 | any whole request with a query whose route part holds no '=' raises ValueError whatever the routes are |
| PicoApi.QueryCorrected | pico_enclosure/api.py:20-29 | with the parameters taken from the query, the route's handler is called with the parameter's key |
| PicoDevices.Kwargs | pico_enclosure/devices.py:44-52 | the keyword arguments are exactly the entry's members other than "device" and "name" |
| PicoDevices.Unexpected | pico_enclosure/devices.py:43-53 | no keyword is reported iff every keyword is a parameter of the constructor; a reported one is a given keyword the constructor does not accept |
| PicoDevices.Construct | pico_enclosure/devices.py:43-53 | calling a kind's class succeeds iff every keyword is a parameter and "pin" (and for LEDStrip "led_count") is given; the device is of that kind with the given pin; a failure is a TypeError |
| PicoDevices.Entry | pico_enclosure/devices.py:42-55 | a built entry has a hashable "name" as its key and a known "device" kind whose construction gives the device; the value is evaluated before the key, so an entry without "device" raises KeyError("device") and one without "name" raises KeyError("name") only once its device is built |
| PicoDevices.NamelessEntry | pico_enclosure/devices.py:42-55 | an entry without "name" raises KeyError(kind) for an unknown kind, the constructor's TypeError for bad arguments, and KeyError("name") only for a buildable device |
| PicoDevices.KeyOf | pico_enclosure/devices.py:54 | a name is its own dict key unless it is a boolean, which is the same key as the integer 1 or 0 it equals (`True == 1`, `False == 0` with equal hashes) |
| PicoDevices.Keyed | pico_enclosure/devices.py:54 | an entry's result keeps its device and error and has its name replaced by the dict key that name stands for |
| PicoDevices.Results | pico_enclosure/devices.py:54 | the comprehension evaluates one entry per configuration element, in order |
| PicoDevices.KeyedAll | pico_enclosure/devices.py:54 | each result is keyed, in order, by the dict key its name stands for |
| PicoDevices.FoldHolds | pico_enclosure/devices.py:42-55 | a dict comprehension that succeeds met no error, holds exactly the results' keys and binds each key to the value of the last result with that key |
| PicoDevices.FoldAllOk | pico_enclosure/devices.py:42-55 | a dict comprehension that succeeds met no error |
| PicoDevices.FoldKeys | pico_enclosure/devices.py:42-55 | the keys of the comprehension's dictionary are exactly the keys of its results |
| PicoDevices.FoldLast | pico_enclosure/devices.py:42-55 | a key is bound to the value of the last result with that key |
| PicoDevices.FoldStops | pico_enclosure/devices.py:42-55 | the first failing result's error is the comprehension's error |
| PicoDevices.FoldOk | pico_enclosure/devices.py:42-55 | results without an error always build a dictionary |
| PicoDevices.GetItem | pico_enclosure/devices.py:57-58 | looking up a device succeeds iff the dict key its name stands for is registered (so `True` finds the entry named `1`), returns that device, and otherwise raises KeyError with the key as given |
| PicoDevices.BuildHolds | pico_enclosure/devices.py:42-55 | the registry is built iff every entry builds; a name is found in it iff some entry's name equals it as a dict key, and it gives the device of the last such entry |
| PicoDevices.BuildKeysNormal | pico_enclosure/devices.py:42-55 | a built registry never holds a boolean key beside the integer it equals: every key is the representative of its class |
| PicoDevices.BoolNameIsIntName | pico_enclosure/devices.py:42-58 | two entries that build, named `1` and `true`, make one registry entry, bound to the later device, which both `devices[True]` and `devices[1]` find |
| PicoDevices.KeyedPair | pico_enclosure/devices.py:54 | two results that build are keyed in order, each by the dict key its name stands for |
| PicoDevices.KeyedHolds | pico_enclosure/devices.py:42-55 | a keyed comprehension that succeeds finds a name iff some result's name equals it as a dict key, bound to the value of the last such result |
| PicoDevices.FoldSameKey | pico_enclosure/devices.py:54 | two results with the same key leave one binding, to the second value |
| PicoDevices.BuildStops | pico_enclosure/devices.py:42-55 | the first entry that raises decides the registry's error |
| PicoDevices.UnknownKind | pico_enclosure/devices.py:24-43 | an entry whose kind is not in the device map raises KeyError with the kind |
| PicoDevices.FanEntry | pico_enclosure/fan.py:15 | a fan entry with a hashable name and only a pin builds a fan on that pin with the default frequency 25000, keyed by the name as given |
| Numeric.RoundHalfEven | breadboard/fan.py:55 | `round` of a quotient is an integer within half of it, and a tie goes to the even neighbour |
| Numeric.RoundHalfEvenMonotonic | breadboard/led.py:171-173 | rounding never reverses the order of two quotients with the same divisor |
| Numeric.RoundHalfEvenExact | breadboard/led.py:73 | rounding a whole quotient gives it exactly |
| Numeric.Lower | breadboard/logging.py:97 | lower-casing keeps the length, maps each ASCII capital to its small letter and keeps every other character |
| Numeric.IntToString | breadboard/logging.py:39 | `str` of an integer is its decimal digits, after "-" when it is negative |
| Devices.TruthyAppend | breadboard/devices.py:113 | keeping only truthy devices: one more built entry binds its name when the device is truthy and removes the name otherwise |
| Devices.PathDeterminesName | breadboard/devices.py:136 | different action names get different "/action/<name>" routes |

## Left out

- Scheduling is not modelled: `Devices.loop`, the per-device `_loop` bodies, their sleeps, the debounce timing and the `asyncio` tasks. One `process_events` call is modelled instead. The concurrency exists only to interleave those calls.
- Base.StatefulDevice.ProcessEvents: it models the intended step, in which the await at breadboard/base.py:69 completes. As written, ToggleButton, MomentaryButton in toggle mode and Switch assign a plain function as `manage_state`, so every poll stores the new state and then fails at the await: `await None` (Switch) raises TypeError, and awaiting the returned string (both buttons) raises TypeError in CPython and never completes normally in MicroPython. No physical button or switch ever runs an action; Base.PlainManageStateRunsNothing and the Findings table state this, with the failure taken as CPython's TypeError.
- Button.MomentaryButton.Poll: models the intended step. As written, a press in toggle mode fails at the await after flipping the state (Button.MomentaryToggleRunsNoActionAsWritten); in "momentary" mode it raises AttributeError (Button.MomentaryModeRaises).
- Button.ToggleButton.ProcessEvents, Switch.Switch.ProcessEvents: model the intended step; the as-written failure is Button.ToggleRunsNoActionAsWritten and Switch.SwitchRunsNoActionAsWritten.
- The `logger.debug` lines that devices print when their state changes (breadboard/switch.py:55 and 60, breadboard/button.py:55, 103 and 147, breadboard/matrix.py:51, breadboard/rotary_encoder.py:64) are not modelled. A device or state name with an unpaired '%' makes them raise after the new state is stored, which the model does not capture.
- Devices.ExceptionText: `str(e)` of an AttributeError leaves out the quoted type name the interpreter puts in front, which holds no '%' and so cannot change whether `logger.error(str(e))` at breadboard/devices.py:133 raises. The exception that line raises is the TypeError or ValueError of PicoLogging.Interpolate; its kind and text can differ from the interpreter's for conversion characters it does not model.
- EventActions.CallWebhook: `repr` is modelled with ASCII escapes only (non-printable non-ASCII characters are kept as they are), which cannot change where '%' signs fall. The exception raised is the TypeError or ValueError of PicoLogging.Interpolate, whose kind can differ from the interpreter's for conversions it does not model. What `logger.debug` does after formatting (the level filter and the destinations) is not modelled here.
- The router `breadboard/api.py` is not part of this model. Only the action-chain routes `/action/<name>` (breadboard/devices.py:136) are recorded, by Devices.Registrar. The routes each device registers for itself are left out: `api.register` (breadboard/base.py:13), `/state` (breadboard/base.py:43), and those at breadboard/button.py:137-138, breadboard/fan.py:37-39, breadboard/led.py:47-49, breadboard/lcd.py:82-83 and breadboard/environment.py:103-107 and 392. `api.documentation` (breadboard/devices.py:151) and `gc.collect` are left out with it.
- Json.Items, Json.Iterate: a dict's members are taken in the order iteration yields them, and the model takes that to be file order, as in CPython 3.7 and later. MicroPython's plain dict, which `json.load` returns, iterates in hash-table order. So the interpreter's order, not file order, decides which configuration error surfaces first, which logged failures count as earlier (Devices.LogKeptOnRaise, Devices.Load), the order of the actions within one action object (EventActions.BuildAll) and which high Switch pin is seen first (Switch.FirstChange).
- Logging.Escape, Logging.CustomEntriesAppend: breadboard/logging.py:83 reuses the f-string's own quote and puts a backslash inside a replacement field. Only Python 3.12 and later accept that; MicroPython's lexer ends the f-string at the inner quote, so the module does not compile there. The model gives the line its Python 3.12 meaning.
- The `Network(...)` call at breadboard/devices.py:95 is not modelled. It is WLAN association with busy-wait I/O.
- `open`/`json.load` of the configuration file is not modelled. The parsed document is the input.
- Hardware I/O is not modelled: I2C transfers, the CCS811 reset, app-start and `ENV_REG` writes, the DHT start-code handshake, the PIO program, LCD enable-pulse timing and the `_reset` sequence, and NeoPixel `write()`. Their readings are inputs and their writes are recorded outputs.
- The CCS811 compensation device's construction and its humidity/temperature encoding (breadboard/environment.py:120-149, 516-520) are not modelled. They are floating-point work over I2C.
- Led.Stored: follows MicroPython's `bytearray`, which keeps the low byte of a channel outside 0..255; CPython's `bytearray` would raise ValueError there instead.
- Fan.Fan.Set: takes an integer speed. `int(value)` of a string or a float argument is not modelled.
- Fan.DutyNonIncreasing: `(100 - v) / 100 * max` is evaluated on the exact rational and rounded half to even. Floating-point rounding of that product is not modelled. Python's `round` rounds ties to even, which the model keeps.
- Led.RgbColor: colour channels are integers. `int(red)` of a string and floating-point brightness are not modelled. `round(v * b / 100)` is taken on the exact rational.
- LedStrip.LEDStrip.Fill: only brightness 1, the default, is modelled. Other brightness values scale by a float.
- Dht.Report: temperatures and humidities are kept in tenths. The division by 10 and the Fahrenheit conversion are floating point.
- Numeric.Lower: `str.lower()` is modelled for ASCII only. The level names it is applied to are ASCII.
- Switch.NewSwitch: `pin is not OFF_STATE` is an identity test. It is modelled as a comparison with the off position. The RuntimeError's message leaves out the switch's name.
- Logging.Render: `message % params` and `sys.print_exception` are not modelled; the message comes in formatted. The clock reading is one value, where the source reads the clock once per destination.
- PicoLogging.Outcome: the time is taken as already rendered text.
- PicoLogging.Interpolate: parameters are taken as their `str` texts; flags, widths, precisions, `%(key)` mapping keys and the conversions other than `%s` and `%%` are not modelled (a template using them reads as an unsupported character), and the ValueError text leaves out the character's code and index.
- PicoApi.DictOf, PicoApi.Dispatch: the ValueError messages are CPython 3.12's. MicroPython raises the same ValueError with its own texts ("dict update sequence has wrong length" and its own unpacking message).
- PicoApi.API.RouteRequests: handlers are taken as synchronous functions from their arguments to a result or an error. `print(result)`, `drain` and `wait_closed` are not modelled. `*params` passes the parameter dictionary's keys as positional arguments, as in the source.
- PicoApi.Quote: `str(bytes)` escapes are modelled for printable ASCII, backslash, quotes, tab, newline and carriage return, and `\xNN` for other bytes.
- PicoDevices.Build: keys each device by the integer a boolean name equals, where Python keeps the key object inserted first (`True` if it came first); lookups agree, only the listing of the keys differs, and `Devices` offers only lookup by key.
- PicoDevices.Construct: the Fan and LEDStrip hardware set-up is not modelled. A built device records the arguments bound to its parameters.
- PicoDht.DHTXX.Measure: the bit-banging timing loops are not modelled. The 40 pin readings are an input.
- UART pass-through (`breadboard/serial.py`), the `_OnboardLED` blink loop, `pico_enclosure/base.py`, `pico_enclosure/loop.py` and `pico_enclosure/network.py` are outside this model.

## Findings

| source | as written | input that shows it | evidently intended | confidence | as-written member | corrected member |
|---|---|---|---|---|---|---|
| breadboard/button.py:135 | `VirtualToggleButton` assigns `on_state_change`, so `process_events` finds no `manage_state` and raises AttributeError | `on()` on a virtual button in state "off" | `manage_state = toggle_state` together with the await at breadboard/base.py:69 completing (the binding alone still fails at the await: Button.VirtualOnBindingOnlyAsWritten), so `on()` switches the button on and runs the "on" actions, as Button.VirtualToggleButton.On and Button.VirtualToggleButton.Off model | not executed | Button.VirtualOnAsWritten | Button.VirtualOnCorrected |
| breadboard/environment.py:180-182 | the guard refuses the argument 4, but the byte written is `0x70 & mode << 4`; the enclosure copies have the same guard (pico_enclosure/environment.py:131-133, pico_enclosure/air_quality.py:131-133) | mode 12 writes 0x40, drive mode 4 | refuse every argument whose written drive mode is 4 | not executed | Ccs811.ModeGuardAsWritten | Ccs811.CheckedModeByte |
| breadboard/environment.py:260-268 | with a compensation device, `data` is rebound to the device's dict before `data[4]` is read | status requested with a compensation device | read the flags from the algorithm register bytes | not executed | Ccs811.CompensatedFlagsAsWritten | Ccs811.BoardData |
| pico_enclosure/environment.py:295 | the i-th reading is packed at bit i, though the sensor sends each byte most significant bit first | frame 0, 0, 0, 1, 1 (0.1 degrees, 0 %) is rejected | pack most significant bit first, as the frame is sent | not executed | PicoDht.BitOrderAsWritten | PicoDht.CorrectedRoundTrip |
| pico_enclosure/environment.py:302 | `-1 * raw_temp & (2**15 - 1)` binds as `(-raw_temp) & 0x7FFF`, and a set sign bit gives 1 | raw 0x0005 reads 32763 and raw 0x8005 reads 1 | sign-magnitude: 5 and -5 tenths of a degree | not executed | PicoDht.SignAsWritten | PicoDht.CorrectedRoundTrip |
| pico_enclosure/environment.py:307-312 | the checksum is compared with the unmasked sum of the four bytes | 60.0 % and 25.0 degrees, checksum 84, is rejected | compare with the sum masked to one byte | not executed | PicoDht.ChecksumAsWritten | PicoDht.CorrectedRoundTrip |
| breadboard/logging.py:70-74 | the level setter stores the name, and the next `requested_level >= self._level` compares an int with a str | `logger.level = "INFO"` followed by any log call | store `LOGGING_LEVELS[value]` | not executed | Logging.LevelSetterAsWritten | Logging.Logger.SetLevel |
| pico_enclosure/logging.py:52-56 | the enclosure's level setter also stores the name | `logger.level = "INFO"` followed by any log call | store `LOGGING_LEVELS[value]` | not executed | Logging.LevelSetterAsWritten | PicoLogging.Logger.SetLevel |
| breadboard/logging.py:88-91 | the destination list reads `self.log_buffer`, which exists only with `file_log` | `Logger(file_log=False)` and any passing record | skip the buffer when `file_log` is off | not executed | Logging.FileLogOffAsWritten | Logging.Outcome |
| pico_enclosure/api.py:24 | the parameters are built from `parts[0]`, the route, not from the query | "GET /x?a=b HTTP/1.1" raises ValueError | build the parameters from `parts[1]` | not executed | PicoApi.QueryAsWritten | PicoApi.QueryCorrected |
| breadboard/base.py:69 | `manage_state` of ToggleButton, MomentaryButton in toggle mode and Switch is a plain function, and awaiting its string or `None` result fails after the new state is stored | any Switch poll: the state moves, then TypeError, and no bound action runs | `manage_state` as a coroutine function (or not awaited), so the actions bound to the new state run | not executed | Base.PlainManageStateRunsNothing | Base.StatefulDevice.ProcessEvents |
| pico_enclosure/logging.py:59-74 | `exception(e)` hands the exception object to `message % params`, which raises TypeError | `logger.exception(Exception("x"))` at any level | log the exception's text at ERROR | not executed | PicoLogging.ExceptionRaises | PicoLogging.ExceptionRaises |
