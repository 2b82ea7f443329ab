/** `breadboard/devices.py`: wiring the parsed configuration file into the device
    registry, the `/action/<name>` chains and the events table.

    The configuration is the parsed top-level dict, as its (key, value) items in
    the order iteration yields them. What a kind's constructor does with its
    arguments is an input, `construct`. The router (`breadboard/api.py`) is
    not modelled; the `Registrar` below records the `/action/<name>` routes
    this file registers. */
module Devices {
  import opened Wrappers
  import opened Json
  import opened Base
  import opened EventActions
  import PicoLogging

  // ---------------------------------------------------------------------------
  // The device registry (breadboard/devices.py:40-54, 97-114)
  // ---------------------------------------------------------------------------

  /** `DEVICE_MAP`: the "device" value of an entry → the class it instantiates
      (through `try_to_instantiate`). "AM2302" is a second name for `DHT22`. */
  const DeviceMap: map<string, string> := map[
    "Fan" := "Fan",
    "NeoPixel" := "NeoPixel",
    "RGBNeoPixel" := "RGBNeoPixel",
    "CCS811" := "CCS811",
    "DHT11" := "DHT11",
    "DHT22" := "DHT22",
    "AM2302" := "DHT22",
    "VirtualToggleButton" := "VirtualToggleButton",
    "MomentaryButton" := "MomentaryButton",
    "ToggleButton" := "ToggleButton",
    "Serial" := "Serial",
    "Switch" := "Switch",
    "HD44780U_LCD" := "HD44780U_LCD"
  ]

  /** Messages of the TypeErrors raised while building devices and steps. */
  const Unhashable: string := "unhashable type"
  const NameTwice: string := "got multiple values for keyword argument 'name'"
  const AttributeNotString: string := "attribute name must be string"

  /** Top-level keys that configure something other than a device. */
  predicate Reserved(key: string) {
    key in ["network", "actions", "context", "events"]
  }

  /** What `cls(name=..., **kwargs)` does for a class name, a device name and the
      keyword arguments (in the order they are passed). */
  type Construct = (string, string, seq<(string, Json)>) -> Result<DeviceObject>

  /** The keyword arguments a kind constructor receives: `name`, then every
      member of the entry except "device". */
  function Kwargs(name: string, entry: seq<(string, Json)>): (r: seq<(string, Json)>)
    ensures |r| >= 1 && r[0] == ("name", JStr(name))
    ensures forall p :: p in r[1..] <==> p in entry && p.0 != "device"
  {
    [("name", JStr(name))] + Without(entry, "device")
  }

  /** `DEVICE_MAP[entry["device"]](name=name, **{...})` for one entry: the
      constructed object (`None` when the tolerant factory caught an exception)
      and what the factory logged. Errors here are raised, not tolerated. */
  function BuildDevice(name: string, entry: Json, construct: Construct): (r: Result<(Option<DeviceObject>, seq<FailedInstantiation>)>)
  {
    var kind :- Subscript(entry, "device");
    if !Hashable(kind) then Err(TypeError(Unhashable))
    else if !kind.JStr? || kind.s !in DeviceMap then Err(KeyError(KeyText(kind)))
    else if Lookup(entry.fields, "name").Some? then Err(TypeError(NameTwice))
    else
      var className := DeviceMap[kind.s];
      Ok(TryToInstantiate(className, construct(className, name, Kwargs(name, entry.fields))))
  }

  /** What building one entry gives: the object, if any, and the factory's log. */
  type EntryBuilder = (string, Json) -> Result<(Option<DeviceObject>, seq<FailedInstantiation>)>

  /** `BuildDevice` with the constructors fixed. */
  function Factory(construct: Construct): EntryBuilder
  {
    (name: string, entry: Json) => BuildDevice(name, entry, construct)
  }

  /** The first dict comprehension, over the first `|config|` entries: the object
      built for each non-reserved key, in order, and the factory's log. */
  function Built(config: seq<(string, Json)>, build: EntryBuilder): (r: Result<(seq<(string, Option<DeviceObject>)>, seq<FailedInstantiation>)>)
    decreases |config|
  {
    if config == [] then Ok(([], []))
    else
      var before :- Built(config[..|config| - 1], build);
      var (name, entry) := config[|config| - 1];
      if Reserved(name) then Ok(before)
      else
        var one :- build(name, entry);
        Ok((before.0 + [(name, one.0)], before.1 + one.1))
  }

  /** The second dict comprehension: the truthy objects, by name (a later item
      with the same name replaces an earlier one). */
  function Truthy(built: seq<(string, Option<DeviceObject>)>): (r: map<string, DeviceObject>)
    decreases |built|
  {
    if built == [] then map[]
    else
      var (name, d) := built[|built| - 1];
      var before := Truthy(built[..|built| - 1]);
      if d.Some? && d.value.Truthy() then before[name := d.value] else before - {name}
  }

  /** `self.devices` after line 114, and the factory's log. */
  function Registry(config: seq<(string, Json)>, construct: Construct, onboard: DeviceObject): (r: Result<(map<string, DeviceObject>, seq<FailedInstantiation>)>)
  {
    var built :- Built(config, Factory(construct));
    Ok((Truthy(built.0)["_OnboardLED" := onboard], built.1))
  }

  /** What the factory has logged once the first comprehension ends: the whole
      log when it completes, and when an entry raises, the log of the entries
      built before it (the tolerant factory logs as it goes). */
  function BuildLog(config: seq<(string, Json)>, build: EntryBuilder): (r: seq<FailedInstantiation>)
    ensures Built(config, build).Ok? ==> r == Built(config, build).value.1
    decreases |config|
  {
    if config == [] then []
    else
      var init := config[..|config| - 1];
      var (name, entry) := config[|config| - 1];
      if Built(init, build).Err? || Reserved(name) || build(name, entry).Err? then BuildLog(init, build)
      else BuildLog(init, build) + build(name, entry).value.1
  }

  /** An entry that raises leaves in the log exactly what the entries before it
      logged, whatever comes after it. */
  lemma {:induction false} LogKeptOnRaise(config: seq<(string, Json)>, build: EntryBuilder, k: nat)
    requires k < |config| && !Reserved(config[k].0)
    requires Built(config[..k], build).Ok? && build(config[k].0, config[k].1).Err?
    ensures Built(config, build).Err?
    ensures BuildLog(config, build) == Built(config[..k], build).value.1
    decreases |config|
  {
    var init := config[..|config| - 1];
    if k == |config| - 1 {
      assert init == config[..k];
    } else {
      assert init[..k] == config[..k];
      LogKeptOnRaise(init, build, k);
    }
  }

  /** The keys of a dict are distinct. */
  predicate DistinctKeys(items: seq<(string, Json)>) {
    forall i, j :: 0 <= i < j < |items| ==> KeyAt(items, i) != KeyAt(items, j)
  }

  /** The key of item `i`. */
  function KeyAt(items: seq<(string, Json)>, i: nat): string
    requires i < |items|
  {
    items[i].0
  }

  /** The entry builds an object, and that object is truthy. */
  predicate Makes(build: EntryBuilder, name: string, entry: Json)
  {
    build(name, entry).Ok? && build(name, entry).value.0.Some? && build(name, entry).value.0.value.Truthy()
  }

  /** The entry builds the object `d`. */
  predicate BuildsInto(build: EntryBuilder, name: string, entry: Json, d: DeviceObject)
  {
    build(name, entry).Ok? && build(name, entry).value.0 == Some(d)
  }

  /** A device is in the registry under a name other than "_OnboardLED" exactly
      when the configuration has a non-reserved entry of that name whose
      construction gave a truthy object; that object is the device. */
  lemma RegistryHolds(config: seq<(string, Json)>, construct: Construct, onboard: DeviceObject, name: string)
    requires DistinctKeys(config)
    requires Registry(config, construct, onboard).Ok?
    requires name != "_OnboardLED"
    ensures var devices := Registry(config, construct, onboard).value.0;
            name in devices <==>
              exists i :: 0 <= i < |config| && config[i].0 == name && !Reserved(name) && Makes(Factory(construct), name, config[i].1)
    ensures var devices := Registry(config, construct, onboard).value.0;
            name in devices ==>
              exists i :: 0 <= i < |config| && config[i].0 == name && BuildsInto(Factory(construct), name, config[i].1, devices[name])
  {
    BuiltHolds(config, Factory(construct), name);
  }

  /** Over any builder: a name is bound exactly when a non-reserved entry of
      that name builds a truthy object, and it is bound to an object that an
      entry of that name built. */
  lemma BuiltHolds(config: seq<(string, Json)>, build: EntryBuilder, name: string)
    requires DistinctKeys(config)
    requires Built(config, build).Ok?
    ensures var devices := Truthy(Built(config, build).value.0);
            name in devices <==>
              exists i :: 0 <= i < |config| && config[i].0 == name && !Reserved(name) && Makes(build, name, config[i].1)
    ensures var devices := Truthy(Built(config, build).value.0);
            name in devices ==>
              exists i :: 0 <= i < |config| && config[i].0 == name && BuildsInto(build, name, config[i].1, devices[name])
  {
    BuiltKeys(config, build, name);
    if name in Truthy(Built(config, build).value.0) {
      BuiltValue(config, build, name);
    }
  }

  /** The devices after the last entry: a reserved entry changes nothing; any
      other binds its name if it builds a truthy object and drops it otherwise. */
  lemma BuiltStep(config: seq<(string, Json)>, build: EntryBuilder)
    requires config != [] && Built(config, build).Ok?
    ensures var n := |config| - 1;
            var before := Built(config[..n], build);
            var devices := Truthy(Built(config, build).value.0);
            before.Ok? &&
            (Reserved(config[n].0) ==> devices == Truthy(before.value.0)) &&
            (!Reserved(config[n].0) && Makes(build, config[n].0, config[n].1) ==>
               devices == Truthy(before.value.0)[config[n].0 := build(config[n].0, config[n].1).value.0.value]) &&
            (!Reserved(config[n].0) && !Makes(build, config[n].0, config[n].1) ==>
               devices == Truthy(before.value.0) - {config[n].0})
  {
    var n := |config| - 1;
    var (last, entry) := config[n];
    var before := Built(config[..n], build).value;
    if !Reserved(last) {
      var one := build(last, entry).value;
      assert Built(config, build).value.0 == before.0 + [(last, one.0)];
      TruthyAppend(before.0, last, one.0);
    } else {
      assert Built(config, build).value == before;
    }
  }

  /** The names bound are those of the non-reserved entries that build a truthy object. */
  lemma {:induction false} BuiltKeys(config: seq<(string, Json)>, build: EntryBuilder, name: string)
    requires DistinctKeys(config)
    requires Built(config, build).Ok?
    ensures name in Truthy(Built(config, build).value.0) <==>
              exists i :: 0 <= i < |config| && config[i].0 == name && !Reserved(name) && Makes(build, name, config[i].1)
    decreases |config|
  {
    if config != [] {
      var n := |config| - 1;
      var init := config[..n];
      assert DistinctKeys(init) by {
        assert forall i :: 0 <= i < n ==> KeyAt(init, i) == KeyAt(config, i);
      }
      BuiltStep(config, build);
      BuiltKeys(init, build, name);
      var devices := Truthy(Built(config, build).value.0);
      var earlier := Truthy(Built(init, build).value.0);
      if name == config[n].0 {
        forall i | 0 <= i < n
          ensures init[i].0 != name && config[i].0 != name
        {
          assert init[i] == config[i] && KeyAt(config, i) != KeyAt(config, n);
        }
        assert name !in earlier;
      } else {
        assert name in devices <==> name in earlier;
        if exists i :: 0 <= i < |config| && config[i].0 == name && !Reserved(name) && Makes(build, name, config[i].1) {
          var i :| 0 <= i < |config| && config[i].0 == name && !Reserved(name) && Makes(build, name, config[i].1);
          assert i < n && init[i] == config[i];
        }
        if name in earlier {
          var i :| 0 <= i < n && init[i].0 == name && !Reserved(name) && Makes(build, name, init[i].1);
          assert config[i] == config[..n][i];
        }
      }
    }
  }

  /** A bound name holds the object that an entry of that name built. */
  lemma {:induction false} BuiltValue(config: seq<(string, Json)>, build: EntryBuilder, name: string)
    requires Built(config, build).Ok?
    requires name in Truthy(Built(config, build).value.0)
    ensures exists i :: 0 <= i < |config| && config[i].0 == name &&
              BuildsInto(build, name, config[i].1, Truthy(Built(config, build).value.0)[name])
    decreases |config|
  {
    var n := |config| - 1;
    var init := config[..n];
    var devices := Truthy(Built(config, build).value.0);
    BuiltStep(config, build);
    if name == config[n].0 && !Reserved(name) && Makes(build, name, config[n].1) {
      assert BuildsInto(build, name, config[n].1, devices[name]);
    } else {
      var earlier := Truthy(Built(init, build).value.0);
      assert name in earlier && devices[name] == earlier[name];
      BuiltValue(init, build, name);
      var i :| 0 <= i < n && init[i].0 == name && BuildsInto(build, name, init[i].1, earlier[name]);
      assert config[i] == init[i];
    }
  }

  /** One more built object binds its name if it is truthy and drops the name otherwise. */
  lemma TruthyAppend(built: seq<(string, Option<DeviceObject>)>, name: string, d: Option<DeviceObject>)
    ensures Truthy(built + [(name, d)]) ==
              if d.Some? && d.value.Truthy() then Truthy(built)[name := d.value] else Truthy(built) - {name}
  {
    var b := built + [(name, d)];
    assert b[..|b| - 1] == built;
  }

  /** Reserved keys never become devices. */
  lemma ReservedNeverDevices(config: seq<(string, Json)>, construct: Construct, onboard: DeviceObject, name: string)
    requires DistinctKeys(config)
    requires Registry(config, construct, onboard).Ok?
    requires Reserved(name)
    ensures name !in Registry(config, construct, onboard).value.0
  {
    RegistryHolds(config, construct, onboard, name);
  }

  /** "_OnboardLED" is always present, replacing any configured device of that name. */
  lemma OnboardAlwaysPresent(config: seq<(string, Json)>, construct: Construct, onboard: DeviceObject)
    requires Registry(config, construct, onboard).Ok?
    ensures Registry(config, construct, onboard).value.0["_OnboardLED"] == onboard
  {
  }

  /** An entry whose "device" names no kind raises `KeyError`, which the
      tolerant factory never sees. */
  lemma UnknownKindRaises(name: string, entry: seq<(string, Json)>, kind: string, construct: Construct)
    requires Lookup(entry, "device") == Some(JStr(kind)) && kind !in DeviceMap
    ensures BuildDevice(name, JObject(entry), construct) == Err(KeyError(kind))
  {
  }

  /** A construction that raises is logged with the class name and the entry
      yields `None`, which the registry drops. */
  lemma FailedConstructionLogged(name: string, entry: seq<(string, Json)>, kind: string, construct: Construct, e: Error)
    requires Lookup(entry, "device") == Some(JStr(kind)) && kind in DeviceMap
    requires Lookup(entry, "name").None?
    requires construct(DeviceMap[kind], name, Kwargs(name, entry)) == Err(e)
    ensures BuildDevice(name, JObject(entry), construct) == Ok((None, [FailedInstantiation(DeviceMap[kind], e)]))
  {
  }

  // ---------------------------------------------------------------------------
  // _execute_functions (breadboard/devices.py:69-77); a `_curry` call
  // (breadboard/devices.py:60-66) is an `Invocation` waiting to be made
  // ---------------------------------------------------------------------------

  /** `_execute_functions(chain)()`: the calls started, and `{}` once every call
      has returned, or the exception of the first call that raised. */
  function ExecuteFunctions(chain: seq<Invocation>, fails: Invocation -> Option<Error>): (r: (seq<Invocation>, Result<map<string, Json>>))
    ensures r.1.Ok? <==> forall i :: 0 <= i < |chain| ==> fails(chain[i]).None?
    ensures r.1.Ok? ==> r.1.value == map[] && r.0 == chain
    ensures r.1.Err? ==> r.0 != [] && r.0 <= chain && fails(r.0[|r.0| - 1]) == Some(r.1.error)
  {
    var run := RunInOrder(chain, fails);
    (run.0, if run.1.None? then Ok(map[]) else Err(run.1.value))
  }

  /** An empty chain is a route that does nothing and returns `{}`. */
  lemma EmptyChainIsNoOp(fails: Invocation -> Option<Error>)
    ensures ExecuteFunctions([], fails) == ([], Ok(map[]))
  {
  }

  // ---------------------------------------------------------------------------
  // The /action/<name> chains (breadboard/devices.py:116-136)
  // ---------------------------------------------------------------------------

  /** One step of a chain: `getattr(self.devices[step.pop("device")],
      step.pop("action"))`, curried with what is left of the step. A compiled
      step always calls an attribute that the named device has. */
  function CompileStep(step: Json, devices: map<string, DeviceObject>): (r: Result<Invocation>)
    ensures r.Ok? ==> r.value.device in devices && r.value.operation in devices[r.value.device].attributes
  {
    var d :- Pop(step, "device");
    var device := d.0;
    if !Hashable(device) then Err(TypeError(Unhashable))
    else if !device.JStr? || device.s !in devices then Err(KeyError(KeyText(device)))
    else
      var a :- Pop(JObject(d.1), "action");
      var operation := a.0;
      if !operation.JStr? then Err(TypeError(AttributeNotString))
      else if operation.s !in devices[device.s].attributes then Err(AttributeError(operation.s))
      else Ok(Invocation(device.s, operation.s, a.1))
  }

  /** How a step fails before its device is found: a step that is not a dict
      raises past the `except KeyError`, a missing "device" member or a name
      that is no registered device raises `KeyError`, and a list or dict as
      the name raises `TypeError` from the dict lookup. */
  lemma CompileStepDeviceErrors(step: Json, devices: map<string, DeviceObject>)
    ensures !step.JObject? ==> CompileStep(step, devices).Err? && !CompileStep(step, devices).error.KeyError?
    ensures step.JObject? && Lookup(step.fields, "device").None? ==>
              CompileStep(step, devices) == Err(KeyError("device"))
    ensures step.JObject? && Lookup(step.fields, "device").Some? ==>
              var name := Lookup(step.fields, "device").value;
              (!Hashable(name) ==> CompileStep(step, devices) == Err(TypeError(Unhashable))) &&
              (Hashable(name) && !(name.JStr? && name.s in devices) ==>
                 CompileStep(step, devices) == Err(KeyError(KeyText(name))))
  {
  }

  /** Once the device `d` is found, the step compiles into the call of its
      "action" attribute with the step's remaining members as keyword
      arguments; a missing "action" raises `KeyError`, a name that is not a
      string `TypeError`, and an attribute the device lacks `AttributeError`. */
  lemma CompileStepResolves(fs: seq<(string, Json)>, devices: map<string, DeviceObject>, d: string)
    requires Lookup(fs, "device") == Some(JStr(d)) && d in devices
    ensures var rest := Without(fs, "device");
            var action := Lookup(rest, "action");
            var r := CompileStep(JObject(fs), devices);
            (action.None? ==> r == Err(KeyError("action"))) &&
            (action.Some? && !action.value.JStr? ==> r == Err(TypeError(AttributeNotString))) &&
            (action.Some? && action.value.JStr? && action.value.s !in devices[d].attributes ==>
               r == Err(AttributeError(action.value.s))) &&
            (action.Some? && action.value.JStr? && action.value.s in devices[d].attributes ==>
               r == Ok(Invocation(d, action.value.s, Without(rest, "action"))))
  {
    var rest := Without(fs, "device");
    assert Pop(JObject(fs), "device") == Ok((JStr(d), rest));
    var action := Lookup(rest, "action");
    if action.Some? {
      assert Pop(JObject(rest), "action") == Ok((action.value, Without(rest, "action")));
    }
  }

  /** `f` applied to each element in order, stopping at the first failure. */
  function MapAll<S, T>(xs: seq<S>, f: S -> Result<T>): (r: Result<seq<T>>)
    ensures r.Ok? ==> |r.value| == |xs|
    decreases |xs|
  {
    if xs == [] then Ok([])
    else
      var before :- MapAll(xs[..|xs| - 1], f);
      var last :- f(xs[|xs| - 1]);
      Ok(before + [last])
  }

  /** All or nothing: every element succeeds, each giving its own result in
      order, or the map fails. */
  lemma {:induction false} MapAllOk<S, T>(xs: seq<S>, f: S -> Result<T>)
    ensures MapAll(xs, f).Ok? <==> forall i :: 0 <= i < |xs| ==> f(xs[i]).Ok?
    ensures MapAll(xs, f).Ok? ==> forall i :: 0 <= i < |xs| ==> MapAll(xs, f).value[i] == f(xs[i]).value
    decreases |xs|
  {
    if xs != [] {
      var init := xs[..|xs| - 1];
      MapAllOk(init, f);
      assert forall i :: 0 <= i < |init| ==> init[i] == xs[i];
    }
  }

  /** A failing map fails with the error of the first element that fails. */
  lemma {:induction false} MapAllErr<S, T>(xs: seq<S>, f: S -> Result<T>)
    requires MapAll(xs, f).Err?
    ensures exists k :: 0 <= k < |xs| && f(xs[k]) == Err(MapAll(xs, f).error) &&
              forall i :: 0 <= i < k ==> f(xs[i]).Ok?
    decreases |xs|
  {
    var init := xs[..|xs| - 1];
    assert forall i :: 0 <= i < |init| ==> init[i] == xs[i];
    if MapAll(init, f).Err? {
      MapAllErr(init, f);
    } else {
      MapAllOk(init, f);
    }
  }

  /** One more element that succeeds extends the map by its result. */
  lemma MapAllNext<S, T>(xs: seq<S>, f: S -> Result<T>, i: nat, done: seq<T>, v: T)
    requires i < |xs| && MapAll(xs[..i], f) == Ok(done) && f(xs[i]) == Ok(v)
    ensures MapAll(xs[..i + 1], f) == Ok(done + [v])
  {
    assert xs[..i + 1][..i] == xs[..i];
  }

  /** The first failure ends the whole map with its error. */
  lemma {:induction false} MapAllStops<S, T>(xs: seq<S>, f: S -> Result<T>, i: nat)
    requires i < |xs| && MapAll(xs[..i], f).Ok? && f(xs[i]).Err?
    ensures MapAll(xs, f) == Err(f(xs[i]).error)
  {
    assert xs[..i + 1][..i] == xs[..i];
    MapAllStopsLater(xs, f, f(xs[i]).error, i + 1);
  }

  lemma {:induction false} MapAllStopsLater<S, T>(xs: seq<S>, f: S -> Result<T>, e: Error, n: nat)
    requires n <= |xs| && MapAll(xs[..n], f) == Err(e)
    ensures MapAll(xs, f) == Err(e)
    decreases |xs| - n
  {
    if n < |xs| {
      assert xs[..n + 1][..n] == xs[..n];
      MapAllStopsLater(xs, f, e, n + 1);
    } else {
      assert xs[..n] == xs;
    }
  }

  /** `CompileStep` for a fixed registry. */
  function Compiler(devices: map<string, DeviceObject>): Json -> Result<Invocation>
  {
    step => CompileStep(step, devices)
  }

  /** The steps of one chain, up to the first that fails (the `break`). */
  function CompileChain(steps: seq<Json>, devices: map<string, DeviceObject>): Result<seq<Invocation>>
  {
    MapAll(steps, Compiler(devices))
  }

  /** A chain compiles all or nothing: every step compiles, each into its own
      call in order, or the error is that of the first step that fails. */
  lemma CompileChainAllOrNothing(steps: seq<Json>, devices: map<string, DeviceObject>)
    ensures CompileChain(steps, devices).Ok? <==> forall i :: 0 <= i < |steps| ==> CompileStep(steps[i], devices).Ok?
    ensures CompileChain(steps, devices).Ok? ==>
              var chain := CompileChain(steps, devices).value;
              |chain| == |steps| && forall i :: 0 <= i < |steps| ==> chain[i] == CompileStep(steps[i], devices).value
    ensures CompileChain(steps, devices).Err? ==>
              exists k :: 0 <= k < |steps| && CompileStep(steps[k], devices) == Err(CompileChain(steps, devices).error) &&
                forall i :: 0 <= i < k ==> CompileStep(steps[i], devices).Ok?
  {
    MapAllOk(steps, Compiler(devices));
    if CompileChain(steps, devices).Err? {
      MapAllErr(steps, Compiler(devices));
    }
  }

  /** What `logger.error` is given when a chain fails: a `KeyError` reads as a
      missing device, anything else as an action that failed to load. */
  datatype ChainFailure =
    | DeviceNotFound(key: string, action: string)
    | LoadFailed(action: string, error: Error)

  function Failure(action: string, e: Error): (r: ChainFailure)
    ensures r.DeviceNotFound? <==> e.KeyError?
  {
    if e.KeyError? then DeviceNotFound(e.key, action) else LoadFailed(action, e)
  }

  /** `str(e)`, which the `except Exception` branch passes to `logger.error`
      as the message, formatted with `message % ()` (breadboard/logging.py:80).
      The interpreter's `AttributeError` text begins with the quoted type name
      of the object, which holds no '%' and is left out here. */
  function ExceptionText(e: Error): string
  {
    match e
    case KeyError(key) => "'" + key + "'"
    case AttributeError(attribute) => "object has no attribute '" + attribute + "'"
    case TypeError(reason) => reason
    case ValueError(reason) => reason
    case RuntimeError(reason) => reason
    case IndexError => "index out of range"
    case ZeroDivisionError => "divide by zero"
    case OSError => "OSError"
    case Exception(reason) => reason
  }

  /** Logging the text of an `AttributeError` raises exactly when the '%'
      signs of the missing attribute's name do not pair up. */
  lemma AttributeTextFormats(attribute: string)
    ensures PicoLogging.Interpolate(ExceptionText(AttributeError(attribute)), []).Ok? <==> PercentsPaired(attribute)
  {
    var text := ExceptionText(AttributeError(attribute));
    var prefix := "object has no attribute '";
    assert text == prefix + (attribute + "'");
    assert '%' !in prefix by {
      assert forall i :: 0 <= i < |prefix| ==> prefix[i] != '%';
    }
    PlainBefore(prefix, attribute + "'");
    PairedBefore(attribute, "'");
    FormatsWithoutParams(text);
  }

  /** An exception other than `KeyError` that breaks a chain makes
      `logger.error(str(e))` raise in turn. */
  predicate LogRaises(e: Error)
  {
    !e.KeyError? && PicoLogging.Interpolate(ExceptionText(e), []).Err?
  }

  /** Of the exceptions a step raises, only an `AttributeError` naming an
      attribute with an unpaired '%' makes its log line raise; the other texts
      hold no '%'. */
  lemma StepLogRaises(step: Json, devices: map<string, DeviceObject>)
    requires CompileStep(step, devices).Err?
    ensures var e := CompileStep(step, devices).error;
            LogRaises(e) <==> e.AttributeError? && !PercentsPaired(e.attribute)
  {
    var e := CompileStep(step, devices).error;
    StepErrorKinds(step, devices);
    if e.AttributeError? {
      AttributeTextFormats(e.attribute);
    } else if e.TypeError? {
      PlainTextFormats(e.reason);
    }
  }

  /** A step fails with `KeyError`, `AttributeError`, or one of three
      `TypeError`s whose texts hold no '%'. */
  lemma StepErrorKinds(step: Json, devices: map<string, DeviceObject>)
    requires CompileStep(step, devices).Err?
    ensures var e := CompileStep(step, devices).error;
            e.KeyError? || e.AttributeError? ||
            (e.TypeError? && e.reason != [] && '%' !in e.reason)
  {
    var d := Pop(step, "device");
    if d.Ok? && Hashable(d.value.0) && d.value.0.JStr? && d.value.0.s in devices {
      var a := Pop(JObject(d.value.1), "action");
      if a.Ok? && !a.value.0.JStr? {
        TextWithoutPercent(AttributeNotString);
      }
    } else if d.Ok? && !Hashable(d.value.0) {
      TextWithoutPercent(Unhashable);
    } else if step.JList? {
      TextWithoutPercent(ListIndex);
    }
  }

  lemma TextWithoutPercent(text: string)
    requires text in {Unhashable, AttributeNotString, ListIndex}
    ensures text != [] && '%' !in text
  {
    assert forall i :: 0 <= i < |text| ==> text[i] != '%';
  }

  /** A text without '%' formats without parameters. */
  lemma PlainTextFormats(text: string)
    requires text != [] && '%' !in text
    ensures PicoLogging.Interpolate(text, []).Ok?
  {
    ScanPlain(text, false);
    FormatsWithoutParams(text);
  }

  /** A registered route: its path and the chain it runs. */
  type Route = (string, seq<Invocation>)

  /** The loop over `actions.items()`: the routes registered, the failures
      logged, and the exception that escaped the loop, if any (a step list that
      cannot be iterated raises outside the `try`). */
  function CompileAll(actions: seq<(string, Json)>, devices: map<string, DeviceObject>): (r: (seq<Route>, seq<ChainFailure>, Option<Error>))
    decreases |actions|
  {
    if actions == [] then ([], [], None)
    else CompilePass(CompileAll(actions[..|actions| - 1], devices), actions[|actions| - 1], devices)
  }

  /** One pass of the loop over `actions.items()`, after `before`. */
  function CompilePass(before: (seq<Route>, seq<ChainFailure>, Option<Error>), action: (string, Json),
                       devices: map<string, DeviceObject>): (seq<Route>, seq<ChainFailure>, Option<Error>)
  {
    var (name, steps) := action;
    if before.2.Some? then before
    else match Iterate(steps)
      case Err(e) => (before.0, before.1, Some(e))
      case Ok(items) =>
        match CompileChain(items, devices)
        case Ok(chain) => (before.0 + [("/action/" + name, chain)], before.1, None)
        case Err(e) =>
          var logged := before.1 + [Failure(name, e)];
          if e.KeyError? then (before.0, logged, None)
          else match PicoLogging.Interpolate(ExceptionText(e), [])
            case Ok(_) => (before.0, logged, None)
            case Err(raised) => (before.0, logged, Some(raised))
  }

  /** The loop over the first `i + 1` actions is one more pass after the first `i`. */
  lemma CompileAllNext(actions: seq<(string, Json)>, devices: map<string, DeviceObject>, i: nat)
    requires i < |actions|
    ensures CompileAll(actions[..i + 1], devices) == CompilePass(CompileAll(actions[..i], devices), actions[i], devices)
  {
    assert actions[..i + 1][..i] == actions[..i];
  }

  /** When no step list raises, `/action/<name>` is registered with a chain
      exactly when the steps of some action of that name compile into it. */
  lemma {:induction false} RouteRegisteredIff(actions: seq<(string, Json)>, devices: map<string, DeviceObject>, name: string, chain: seq<Invocation>)
    requires CompileAll(actions, devices).2.None?
    ensures ("/action/" + name, chain) in CompileAll(actions, devices).0 <==>
              exists i :: 0 <= i < |actions| && actions[i].0 == name && Compiles(actions[i].1, devices, chain)
    decreases |actions|
  {
    if actions != [] {
      var n := |actions| - 1;
      var init, last := actions[..n], actions[n];
      var before := CompileAll(init, devices);
      assert CompileAll(actions, devices) == CompilePass(before, last, devices);
      CompilePassAfter(before, last, devices);
      PassRegisters(last, devices, name, chain);
      RouteRegisteredIff(init, devices, name, chain);
      var route := ("/action/" + name, chain);
      var one := CompilePass(([], [], None), last, devices);
      assert CompileAll(actions, devices).0 == before.0 + one.0;
      if route in CompileAll(actions, devices).0 {
        if route in before.0 {
          var i :| 0 <= i < n && init[i].0 == name && Compiles(init[i].1, devices, chain);
          assert actions[i] == init[i];
        } else {
          assert route in one.0;
          assert actions[n].0 == name && Compiles(actions[n].1, devices, chain);
        }
      }
      if exists i :: 0 <= i < |actions| && actions[i].0 == name && Compiles(actions[i].1, devices, chain) {
        var i :| 0 <= i < |actions| && actions[i].0 == name && Compiles(actions[i].1, devices, chain);
        if i < n {
          assert init[i] == actions[i];
          assert route in before.0;
        } else {
          assert i == n && actions[i] == last;
          assert route in one.0;
        }
        assert route in CompileAll(actions, devices).0;
      }
    }
  }

  /** The steps of an action iterate and compile into `chain`. */
  predicate Compiles(steps: Json, devices: map<string, DeviceObject>, chain: seq<Invocation>)
  {
    Iterate(steps).Ok? && CompileChain(Iterate(steps).value, devices) == Ok(chain)
  }

  /** The steps of an action iterate but fail to compile with `e`. */
  predicate FailsWith(steps: Json, devices: map<string, DeviceObject>, e: Error)
  {
    Iterate(steps).Ok? && CompileChain(Iterate(steps).value, devices) == Err(e)
  }

  /** One pass on its own registers `/action/<name>` with `chain` exactly
      when the action has that name and its steps compile into `chain`. */
  lemma PassRegisters(action: (string, Json), devices: map<string, DeviceObject>, name: string, chain: seq<Invocation>)
    ensures ("/action/" + name, chain) in CompilePass(([], [], None), action, devices).0 <==>
              action.0 == name && Compiles(action.1, devices, chain)
  {
    PathDeterminesName(name, action.0);
  }

  /** One pass on its own logs `Failure(name, e)` exactly when the action has
      that name and its steps fail to compile with `e`. */
  lemma PassLogs(action: (string, Json), devices: map<string, DeviceObject>, name: string, e: Error)
    ensures Failure(name, e) in CompilePass(([], [], None), action, devices).1 <==>
              action.0 == name && FailsWith(action.1, devices, e)
  {
  }

  lemma PathDeterminesName(name: string, other: string)
    ensures "/action/" + name == "/action/" + other ==> name == other
  {
    if "/action/" + name == "/action/" + other {
      assert name == ("/action/" + name)[8..];
      assert other == ("/action/" + other)[8..];
    }
  }

  /** A failure is logged for an action exactly when its steps do not compile,
      with the error of the failing step: a failing chain affects no other. */
  lemma {:induction false} FailureLoggedIff(actions: seq<(string, Json)>, devices: map<string, DeviceObject>, name: string, e: Error)
    requires CompileAll(actions, devices).2.None?
    ensures Failure(name, e) in CompileAll(actions, devices).1 <==>
              exists i :: 0 <= i < |actions| && actions[i].0 == name && FailsWith(actions[i].1, devices, e)
    decreases |actions|
  {
    if actions != [] {
      var n := |actions| - 1;
      var init, last := actions[..n], actions[n];
      var before := CompileAll(init, devices);
      assert CompileAll(actions, devices) == CompilePass(before, last, devices);
      CompilePassAfter(before, last, devices);
      PassLogs(last, devices, name, e);
      FailureLoggedIff(init, devices, name, e);
      var failure := Failure(name, e);
      var one := CompilePass(([], [], None), last, devices);
      assert CompileAll(actions, devices).1 == before.1 + one.1;
      if failure in CompileAll(actions, devices).1 {
        if failure in before.1 {
          var i :| 0 <= i < n && init[i].0 == name && FailsWith(init[i].1, devices, e);
          assert actions[i] == init[i];
        } else {
          assert failure in one.1;
          assert actions[n].0 == name && FailsWith(actions[n].1, devices, e);
        }
      }
      if exists i :: 0 <= i < |actions| && actions[i].0 == name && FailsWith(actions[i].1, devices, e) {
        var i :| 0 <= i < |actions| && actions[i].0 == name && FailsWith(actions[i].1, devices, e);
        if i < n {
          assert init[i] == actions[i];
          assert failure in before.1;
        } else {
          assert i == n && actions[i] == last;
          assert failure in one.1;
        }
        assert failure in CompileAll(actions, devices).1;
      }
    }
  }

  /** One pass on its own raises exactly when its steps cannot be iterated, or
      they fail with an exception whose log line raises. */
  lemma PassRaises(action: (string, Json), devices: map<string, DeviceObject>)
    ensures CompilePass(([], [], None), action, devices).2.Some? <==>
              Iterate(action.1).Err? || exists e :: FailsWith(action.1, devices, e) && LogRaises(e)
  {
    if Iterate(action.1).Ok? && CompileChain(Iterate(action.1).value, devices).Err? {
      var e := CompileChain(Iterate(action.1).value, devices).error;
      assert FailsWith(action.1, devices, e);
    }
  }

  /** The loop ends without an exception exactly when no action's pass, taken
      on its own, raises. */
  lemma {:induction false} NothingRaisedIff(actions: seq<(string, Json)>, devices: map<string, DeviceObject>)
    ensures CompileAll(actions, devices).2.None? <==>
              forall i :: 0 <= i < |actions| ==> CompilePass(([], [], None), actions[i], devices).2.None?
    decreases |actions|
  {
    if actions != [] {
      var n := |actions| - 1;
      var init := actions[..n];
      var before := CompileAll(init, devices);
      assert CompileAll(actions, devices) == CompilePass(before, actions[n], devices);
      NothingRaisedIff(init, devices);
      assert forall i :: 0 <= i < n ==> init[i] == actions[i];
      if before.2.None? {
        CompilePassAfter(before, actions[n], devices);
      }
    }
  }

  /** A step naming the attribute "50%" of a device that lacks it: the failure
      is logged, then the log line of the `AttributeError`'s text raises, and
      no later action is compiled. */
  lemma PercentAttributeStopsLoop(devices: map<string, DeviceObject>, later: (string, Json))
    requires "fan" in devices && "50%" !in devices["fan"].attributes
    ensures var step := JObject([("device", JStr("fan")), ("action", JStr("50%"))]);
            var all := CompileAll([("go", JList([step])), later], devices);
            all.0 == [] && all.1 == [LoadFailed("go", AttributeError("50%"))] && all.2.Some?
  {
    var step := JObject([("device", JStr("fan")), ("action", JStr("50%"))]);
    var actions := [("go", JList([step])), later];
    assert CompileStep(step, devices) == Err(AttributeError("50%"));
    assert CompileChain([step], devices) == Err(AttributeError("50%")) by {
      assert [step][..0] == [];
      MapAllStops([step], Compiler(devices), 0);
    }
    assert !PercentsPaired("50%") by {
      assert PercentScan("50%", false) == PercentScan("0%", false) == PercentScan("%", false);
    }
    AttributeTextFormats("50%");
    assert actions[..1] == [("go", JList([step]))];
    assert CompileAll(actions[..1], devices) == CompilePass(([], [], None), actions[0], devices) by {
      assert actions[..1][..0] == [];
    }
    CompileAllStops(actions, devices, 1);
  }

  /** The routes registered so far (`api.route(path)(handler)`), in order. */
  class Registrar {
    var routes: seq<Route>

    constructor ()
      ensures routes == []
    {
      routes := [];
    }

    method Route(path: string, handler: seq<Invocation>)
      modifies this
      ensures routes == old(routes) + [(path, handler)]
    {
      routes := routes + [(path, handler)];
    }
  }

  /** `for step in steps: try ... except ...: break else: ...`: the compiled
      chain, or the error of the step that broke the loop. */
  method CompileSteps(steps: seq<Json>, devices: map<string, DeviceObject>) returns (r: Result<seq<Invocation>>)
    ensures r == CompileChain(steps, devices)
  {
    r := MapInOrder(steps, Compiler(devices));
  }

  /** The loop of `CompileSteps` for any per-step function: apply it to each
      element in turn, stopping at the first failure. */
  method MapInOrder<S, T>(xs: seq<S>, f: S -> Result<T>) returns (r: Result<seq<T>>)
    ensures r == MapAll(xs, f)
  {
    var done: seq<T> := [];
    var i := 0;
    while i < |xs|
      invariant 0 <= i <= |xs|
      invariant MapAll(xs[..i], f) == Ok(done)
    {
      var one := f(xs[i]);
      if one.Err? {
        MapAllStops(xs, f, i);
        return Err(one.error);
      }
      MapAllNext(xs, f, i, done, one.value);
      done := done + [one.value];
      i := i + 1;
    }
    assert xs[..i] == xs;
    return Ok(done);
  }

  /** A pass after a loop that has not raised extends what it registered and logged. */
  lemma CompilePassAfter(before: (seq<Route>, seq<ChainFailure>, Option<Error>), action: (string, Json),
                         devices: map<string, DeviceObject>)
    requires before.2.None?
    ensures var one := CompilePass(([], [], None), action, devices);
            CompilePass(before, action, devices) == (before.0 + one.0, before.1 + one.1, one.2)
  {
    var (name, steps) := action;
    match Iterate(steps)
    case Err(e) =>
      assert before.0 + [] == before.0;
      assert before.1 + [] == before.1;
    case Ok(items) =>
      match CompileChain(items, devices)
      case Ok(chain) =>
        assert before.1 + [] == before.1;
        assert [] + [("/action/" + name, chain)] == [("/action/" + name, chain)];
      case Err(e) =>
        assert before.0 + [] == before.0;
        assert [] + [Failure(name, e)] == [Failure(name, e)];
  }

  /** The body of the actions loop for one action: register its chain, log
      its failure (and raise when the exception's own text cannot be
      formatted), or pass on the error its step list raised. */
  method CompileOne(action: (string, Json), devices: map<string, DeviceObject>, api: Registrar)
    returns (failed: seq<ChainFailure>, raised: Option<Error>, ghost added: seq<Route>)
    modifies api
    ensures var pass := CompilePass(([], [], None), action, devices);
            added == pass.0 && failed == pass.1 && raised == pass.2
    ensures api.routes == old(api.routes) + added
  {
    var (name, steps) := action;
    var items := Iterate(steps);
    if items.Err? {
      return [], Some(items.error), [];
    }
    var chain := CompileSteps(items.value, devices);
    if chain.Ok? {
      api.Route("/action/" + name, chain.value);
      return [], None, [("/action/" + name, chain.value)];
    }
    failed := [Failure(name, chain.error)];
    if chain.error.KeyError? {
      return failed, None, [];
    }
    var text := PicoLogging.Interpolate(ExceptionText(chain.error), []);
    if text.Err? {
      return failed, Some(text.error), [];
    }
    return failed, None, [];
  }

  /** The actions loop, registering each chain as soon as it compiles. */
  method CompileActions(actions: seq<(string, Json)>, devices: map<string, DeviceObject>, api: Registrar)
    returns (logged: seq<ChainFailure>, raised: Option<Error>)
    modifies api
    ensures api.routes == old(api.routes) + CompileAll(actions, devices).0
    ensures logged == CompileAll(actions, devices).1
    ensures raised == CompileAll(actions, devices).2
  {
    logged, raised := [], None;
    ghost var registered: seq<Route> := [];
    var i := 0;
    while i < |actions| && raised.None?
      invariant 0 <= i <= |actions|
      invariant CompileAll(actions[..i], devices) == (registered, logged, raised)
      invariant api.routes == old(api.routes) + registered
    {
      CompileAllNext(actions, devices, i);
      CompilePassAfter(CompileAll(actions[..i], devices), actions[i], devices);
      var failed;
      ghost var added;
      failed, raised, added := CompileOne(actions[i], devices, api);
      logged := logged + failed;
      registered := registered + added;
      i := i + 1;
    }
    if raised.Some? {
      CompileAllStops(actions, devices, i);
    } else {
      assert actions[..i] == actions;
    }
  }

  /** Once a step list has raised, later actions are not looked at. */
  lemma {:induction false} CompileAllStops(actions: seq<(string, Json)>, devices: map<string, DeviceObject>, n: nat)
    requires n <= |actions| && CompileAll(actions[..n], devices).2.Some?
    ensures CompileAll(actions, devices) == CompileAll(actions[..n], devices)
    decreases |actions| - n
  {
    if n < |actions| {
      assert actions[..n + 1][..n] == actions[..n];
      CompileAllStops(actions, devices, n + 1);
    } else {
      assert actions[..n] == actions;
    }
  }

  // ---------------------------------------------------------------------------
  // The events table (breadboard/devices.py:138-148)
  // ---------------------------------------------------------------------------

  /** One event: its device and state (both used as dict keys, so both must be
      hashable) and the actions parsed from its "action" member. */
  function ParseEvent(event: Json, devices: map<string, DeviceObject>): (r: Result<(Json, Json, seq<Action>)>)
  {
    var d :- Pop(event, "device");
    if !Hashable(d.0) then Err(TypeError(Unhashable))
    else
      var s :- Pop(JObject(d.1), "state");
      if !Hashable(s.0) then Err(TypeError(Unhashable))
      else
        var a :- Pop(JObject(s.1), "action");
        var actions :- ParseSpec(a.0, devices);
        Ok((d.0, s.0, actions))
  }

  /** `ParseEvent` for a fixed registry. */
  function EventParser(devices: map<string, DeviceObject>): Json -> Result<(Json, Json, seq<Action>)>
  {
    event => ParseEvent(event, devices)
  }

  /** `self.events[device][state].extend(actions)`, creating the inner dict and
      list when missing. */
  function Insert(table: Events<Action>, device: Json, state: Json, actions: seq<Action>): Events<Action>
  {
    var inner := if device in table then table[device] else map[];
    var before := if state in inner then inner[state] else [];
    table[device := inner[state := before + actions]]
  }

  /** The table after the given parsed events, inserted in order. */
  function Table(parsed: seq<(Json, Json, seq<Action>)>): Events<Action>
    decreases |parsed|
  {
    if parsed == [] then map[]
    else
      var (d, s, actions) := parsed[|parsed| - 1];
      Insert(Table(parsed[..|parsed| - 1]), d, s, actions)
  }

  /** The actions of every parsed event for (device, state), in declaration order. */
  function Collected(parsed: seq<(Json, Json, seq<Action>)>, device: Json, state: Json): seq<Action>
    decreases |parsed|
  {
    if parsed == [] then []
    else
      var (d, s, actions) := parsed[|parsed| - 1];
      Collected(parsed[..|parsed| - 1], device, state) + (if d == device && s == state then actions else [])
  }

  /** The table holds (device, state) exactly when some event names them, and
      then the concatenation of those events' actions in declaration order. */
  lemma {:induction false} TableCollects(parsed: seq<(Json, Json, seq<Action>)>, device: Json, state: Json)
    ensures device in Table(parsed) && state in Table(parsed)[device] <==>
              exists i :: 0 <= i < |parsed| && parsed[i].0 == device && parsed[i].1 == state
    ensures device in Table(parsed) && state in Table(parsed)[device] ==>
              Table(parsed)[device][state] == Collected(parsed, device, state)
    decreases |parsed|
  {
    if parsed != [] {
      var n := |parsed| - 1;
      var init := parsed[..n];
      var (d, s, actions) := parsed[n];
      var before := Table(init);
      assert Table(parsed) == Insert(before, d, s, actions);
      assert Collected(parsed, device, state) ==
               Collected(init, device, state) + (if d == device && s == state then actions else []);
      InsertHolds(before, d, s, actions, device, state);
      TableCollects(init, device, state);
      var held := device in before && state in before[device];
      if !held {
        forall i | 0 <= i < n
          ensures !(parsed[i].0 == device && parsed[i].1 == state)
        {
          assert parsed[i] == init[i];
        }
        CollectedNone(init, device, state);
      } else {
        var i :| 0 <= i < n && init[i].0 == device && init[i].1 == state;
        assert parsed[i] == init[i];
      }
    }
  }

  /** Inserting (d, s) adds that pair to the table and appends to its actions;
      every other pair keeps its actions. */
  lemma InsertHolds(table: Events<Action>, d: Json, s: Json, actions: seq<Action>, device: Json, state: Json)
    ensures var t := Insert(table, d, s, actions);
            var held := device in table && state in table[device];
            var hit := d == device && s == state;
            (device in t && state in t[device] <==> held || hit) &&
            (held || hit ==>
               t[device][state] == (if held then table[device][state] else []) + (if hit then actions else []))
  {
    if !(d == device && s == state) && device in table && state in table[device] {
      assert table[device][state] + [] == table[device][state];
    }
  }

  lemma {:induction false} CollectedNone(parsed: seq<(Json, Json, seq<Action>)>, device: Json, state: Json)
    requires forall i :: 0 <= i < |parsed| ==> !(parsed[i].0 == device && parsed[i].1 == state)
    ensures Collected(parsed, device, state) == []
    decreases |parsed|
  {
    if parsed != [] {
      CollectedNone(parsed[..|parsed| - 1], device, state);
    }
  }

  /** `self.events` after the events loop, or the exception that ended it. */
  function EventsTable(events: seq<Json>, devices: map<string, DeviceObject>): Result<Events<Action>>
  {
    var parsed :- MapAll(events, EventParser(devices));
    Ok(Table(parsed))
  }

  /** The events loop. The table entries for (device, state) are created before
      the action is parsed; when anything raises, `__init__` fails as a whole,
      so they matter only on success. */
  method BuildEvents(events: seq<Json>, devices: map<string, DeviceObject>) returns (r: Result<Events<Action>>)
    ensures r == EventsTable(events, devices)
  {
    var table: Events<Action> := map[];
    ghost var parsed: seq<(Json, Json, seq<Action>)> := [];
    var i := 0;
    while i < |events|
      invariant 0 <= i <= |events|
      invariant MapAll(events[..i], EventParser(devices)) == Ok(parsed) && table == Table(parsed)
    {
      var event := ReadEvent(events[i], devices);
      if event.Err? {
        MapAllStops(events, EventParser(devices), i);
        return Err(event.error);
      }
      var (device, state, actions) := event.value;
      table := Extend(table, device, state, actions);
      MapAllNext(events, EventParser(devices), i, parsed, (device, state, actions));
      parsed := parsed + [(device, state, actions)];
      assert parsed[..|parsed| - 1] == parsed[..i];
      i := i + 1;
    }
    assert events[..i] == events;
    return Ok(table);
  }

  /** One event's insertion into the table, step by step. */
  method Extend(table: Events<Action>, device: Json, state: Json, actions: seq<Action>) returns (t: Events<Action>)
    ensures t == Insert(table, device, state, actions)
  {
    t := table;
    if device !in t {
      t := t[device := map[]];
    }
    if state !in t[device] {
      t := t[device := t[device][state := []]];
    }
    t := t[device := t[device][state := t[device][state] + actions]];
    InsertInSteps(table, device, state, actions);
  }

  /** Creating the missing dict and list, then extending, is `Insert`. */
  lemma InsertInSteps(table: Events<Action>, device: Json, state: Json, actions: seq<Action>)
    ensures var t1 := if device !in table then table[device := map[]] else table;
            var t2 := if state !in t1[device] then t1[device := t1[device][state := []]] else t1;
            t2[device := t2[device][state := t2[device][state] + actions]] == Insert(table, device, state, actions)
  {
    var inner := if device in table then table[device] else map[];
    var t1 := if device !in table then table[device := map[]] else table;
    assert t1[device] == inner;
    var t2 := if state !in t1[device] then t1[device := t1[device][state := []]] else t1;
    var list := if state in inner then inner[state] else [];
    assert t2[device] == inner[state := list];
    assert t2[device][state := t2[device][state] + actions] == inner[state := list + actions];
    assert t2[device := inner[state := list + actions]] == table[device := inner[state := list + actions]];
  }

  /** The pops of one event and the parsing of its actions. */
  method ReadEvent(event: Json, devices: map<string, DeviceObject>) returns (r: Result<(Json, Json, seq<Action>)>)
    ensures r == ParseEvent(event, devices)
  {
    var d := Pop(event, "device");
    if d.Err? {
      return Err(d.error);
    }
    if !Hashable(d.value.0) {
      return Err(TypeError(Unhashable));
    }
    var s := Pop(JObject(d.value.1), "state");
    if s.Err? {
      return Err(s.error);
    }
    if !Hashable(s.value.0) {
      return Err(TypeError(Unhashable));
    }
    var a := Pop(JObject(s.value.1), "action");
    if a.Err? {
      return Err(a.error);
    }
    var actions := ParseEventActions(a.value.0, devices);
    if actions.Err? {
      return Err(actions.error);
    }
    return Ok((d.value.0, s.value.0, actions.value));
  }

  // ---------------------------------------------------------------------------
  // Devices.__init__ and __getitem__
  // ---------------------------------------------------------------------------

  /** What `Devices(path)` leaves behind: the registry and the events table (or
      the exception that ended `__init__`), the routes registered, and what was
      logged on the way. */
  datatype Wiring = Wiring(result: Result<(map<string, DeviceObject>, Events<Action>)>,
                           routes: seq<Route>, failures: seq<FailedInstantiation>, chainLog: seq<ChainFailure>)

  function Wire(config: seq<(string, Json)>, construct: Construct, onboard: DeviceObject): (r: Wiring)
  {
    match Registry(config, construct, onboard)
    case Err(e) => Wiring(Err(e), [], BuildLog(config, Factory(construct)), [])
    case Ok(reg) =>
      var (devices, failures) := reg;
      match (match Lookup(config, "actions") case None => Ok([]) case Some(a) => Items(a))
      case Err(e) => Wiring(Err(e), [], failures, [])
      case Ok(actions) =>
        var (routes, chainLog, raised) := CompileAll(actions, devices);
        if raised.Some? then Wiring(Err(raised.value), routes, failures, chainLog)
        else match (match Lookup(config, "events") case None => Ok([]) case Some(ev) => Iterate(ev))
          case Err(e) => Wiring(Err(e), routes, failures, chainLog)
          case Ok(events) =>
            match EventsTable(events, devices)
            case Err(e) => Wiring(Err(e), routes, failures, chainLog)
            case Ok(table) => Wiring(Ok((devices, table)), routes, failures, chainLog)
  }

  class Devices {
    var devices: map<string, DeviceObject>
    var events: Events<Action>

    constructor (devices: map<string, DeviceObject>, events: Events<Action>)
      ensures this.devices == devices && this.events == events
    {
      this.devices := devices;
      this.events := events;
    }

    /** `__getitem__`. */
    function Get(key: string): (r: Result<DeviceObject>)
      reads this
      ensures r.Ok? <==> key in devices
      ensures r.Ok? ==> r.value == devices[key]
      ensures r.Err? ==> r.error == KeyError(key)
    {
      if key in devices then Ok(devices[key]) else Err(KeyError(key))
    }
  }

  /** `Devices.__init__` on a parsed configuration. */
  method Load(config: seq<(string, Json)>, construct: Construct, onboard: DeviceObject, api: Registrar)
    returns (r: Result<Devices>, failures: seq<FailedInstantiation>, chainLog: seq<ChainFailure>)
    modifies api
    ensures var w := Wire(config, construct, onboard);
            r.Ok? == w.result.Ok? && failures == w.failures && chainLog == w.chainLog &&
            api.routes == old(api.routes) + w.routes
    ensures r.Ok? ==> fresh(r.value) && r.value.devices == Wire(config, construct, onboard).result.value.0 &&
                      r.value.events == Wire(config, construct, onboard).result.value.1
    ensures r.Err? ==> r.error == Wire(config, construct, onboard).result.error
  {
    chainLog := [];
    var registry := Registry(config, construct, onboard);
    if registry.Err? {
      return Err(registry.error), BuildLog(config, Factory(construct)), [];
    }
    var devices := registry.value.0;
    failures := registry.value.1;
    var actions: seq<(string, Json)> := [];
    var declared := Lookup(config, "actions");
    if declared.Some? {
      var items := Items(declared.value);
      if items.Err? {
        return Err(items.error), failures, [];
      }
      actions := items.value;
    }
    var raised;
    chainLog, raised := CompileActions(actions, devices, api);
    if raised.Some? {
      return Err(raised.value), failures, chainLog;
    }
    var events: seq<Json> := [];
    var listed := Lookup(config, "events");
    if listed.Some? {
      var iterated := Iterate(listed.value);
      if iterated.Err? {
        return Err(iterated.error), failures, chainLog;
      }
      events := iterated.value;
    }
    var table := BuildEvents(events, devices);
    if table.Err? {
      return Err(table.error), failures, chainLog;
    }
    var d := new Devices(devices, table.value);
    return Ok(d), failures, chainLog;
  }
}
