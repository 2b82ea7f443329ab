/** `pico_enclosure/devices.py`: the enclosure's device registry, built from
    the parsed configuration file by one dict comprehension.

    Each configuration entry names a device and its kind; the kind's class is
    called with the entry's remaining members as keyword arguments. The
    classes' hardware set-up is not modelled: a built device is the kind with
    the arguments bound to its parameters. */
module PicoDevices {
  import opened Wrappers
  import opened Json

  /** A device as its constructor receives it: `Fan(pin, freq=25000)` and
      `LEDStrip(pin, led_count, blacklist=None)`. */
  datatype Device =
    | FanDevice(pin: Json, freq: Json)
    | StripDevice(pin: Json, ledCount: Json, blacklist: Json)

  /** `DEVICE_MAP`'s keys. */
  const DeviceKinds: set<string> := {"Fan", "LEDStrip"}

  /** The entry's members other than "device" and "name", in entry order. */
  function Kwargs(fields: seq<(string, Json)>): (r: seq<(string, Json)>)
    ensures forall p :: p in r <==> p in fields && p.0 != "device" && p.0 != "name"
  {
    if fields == [] then []
    else if fields[0].0 == "device" || fields[0].0 == "name" then Kwargs(fields[1..])
    else [fields[0]] + Kwargs(fields[1..])
  }

  /** The keyword names a kind's constructor accepts. */
  function Parameters(kind: string): set<string>
  {
    if kind == "Fan" then {"pin", "freq"} else {"pin", "led_count", "blacklist"}
  }

  /** The first keyword the constructor does not accept, if any. */
  function Unexpected(kwargs: seq<(string, Json)>, accepted: set<string>): (r: Option<string>)
    ensures r.None? <==> forall i :: 0 <= i < |kwargs| ==> kwargs[i].0 in accepted
    ensures r.Some? ==> r.value !in accepted && exists i :: 0 <= i < |kwargs| && kwargs[i].0 == r.value
  {
    if kwargs == [] then None
    else if kwargs[0].0 !in accepted then Some(kwargs[0].0)
    else
      var r := Unexpected(kwargs[1..], accepted);
      assert forall i :: 1 <= i < |kwargs| ==> kwargs[i] == kwargs[1..][i - 1];
      r
  }

  /** Messages of the TypeErrors raised while building devices. */
  const UnexpectedKeyword: string := "unexpected keyword argument '"
  const MissingPin: string := "missing required argument 'pin'"
  const MissingLedCount: string := "missing required argument 'led_count'"
  const Unhashable: string := "unhashable type"

  /** `cls(**kwargs)` for a known kind: every keyword must be a parameter and
      every parameter without a default must be given. */
  function Construct(kind: string, kwargs: seq<(string, Json)>): (r: Result<Device>)
    requires kind in DeviceKinds
    ensures r.Ok? <==> (forall i :: 0 <= i < |kwargs| ==> kwargs[i].0 in Parameters(kind)) &&
                       Lookup(kwargs, "pin").Some? && (kind == "LEDStrip" ==> Lookup(kwargs, "led_count").Some?)
    ensures r.Ok? ==> r.value.FanDevice? == (kind == "Fan") && r.value.pin == Lookup(kwargs, "pin").value
    ensures r.Err? ==> r.error.TypeError?
  {
    var unexpected := Unexpected(kwargs, Parameters(kind));
    if unexpected.Some? then Err(TypeError(UnexpectedKeyword + unexpected.value + "'"))
    else if Lookup(kwargs, "pin").None? then Err(TypeError(MissingPin))
    else if kind == "Fan" then
      Ok(FanDevice(Lookup(kwargs, "pin").value, Default(Lookup(kwargs, "freq"), JInt(25000))))
    else if Lookup(kwargs, "led_count").None? then Err(TypeError(MissingLedCount))
    else
      Ok(StripDevice(Lookup(kwargs, "pin").value, Lookup(kwargs, "led_count").value, Default(Lookup(kwargs, "blacklist"), JNull)))
  }

  function Default(given: Option<Json>, otherwise: Json): Json
  {
    if given.Some? then given.value else otherwise
  }

  /** One entry of the comprehension. MicroPython evaluates a dict
      comprehension's value before its key, so
      `DEVICE_MAP[entry["device"]](**kwargs)` runs first and `entry["name"]`
      is read only once the device is built. */
  function Entry(entry: Json): (r: Result<(Json, Device)>)
    ensures r.Ok? ==> entry.JObject? && Lookup(entry.fields, "name") == Some(r.value.0) && Hashable(r.value.0)
    ensures r.Ok? ==> var kind := Lookup(entry.fields, "device");
                      kind.Some? && kind.value.JStr? && kind.value.s in DeviceKinds &&
                      Construct(kind.value.s, Kwargs(entry.fields)) == Ok(r.value.1)
    ensures entry.JObject? && Lookup(entry.fields, "device").None? ==> r == Err(KeyError("device"))
    ensures entry.JObject? && Lookup(entry.fields, "name").None? ==>
              r.Err? && (Built(entry) ==> r.error == KeyError("name"))
  {
    var kind :- Subscript(entry, "device");
    if !Hashable(kind) then Err(TypeError(Unhashable))
    else if !kind.JStr? || kind.s !in DeviceKinds then Err(KeyError(KeyText(kind)))
    else
      var device :- Construct(kind.s, Kwargs(entry.fields));
      var name :- Subscript(entry, "name");
      if !Hashable(name) then Err(TypeError(Unhashable))
      else Ok((name, device))
  }

  /** The value half of an entry succeeds: a known kind whose constructor
      accepts the remaining members. */
  predicate Built(entry: Json)
  {
    entry.JObject? && var kind := Lookup(entry.fields, "device");
    kind.Some? && kind.value.JStr? && kind.value.s in DeviceKinds &&
    Construct(kind.value.s, Kwargs(entry.fields)).Ok?
  }

  /** An entry without a "name" raises the device's error when its device
      cannot be built; only a buildable device gets as far as the missing key. */
  lemma NamelessEntry(fields: seq<(string, Json)>, kind: string)
    requires Lookup(fields, "name").None? && Lookup(fields, "device") == Some(JStr(kind))
    ensures kind !in DeviceKinds ==> Entry(JObject(fields)) == Err(KeyError(kind))
    ensures kind in DeviceKinds && Construct(kind, Kwargs(fields)).Err? ==>
              Entry(JObject(fields)) == Err(Construct(kind, Kwargs(fields)).error)
    ensures kind in DeviceKinds && Construct(kind, Kwargs(fields)).Ok? ==> Entry(JObject(fields)) == Err(KeyError("name"))
  {
  }

  /** A dict comprehension over results computed in order: each key bound to
      its value, a later binding of a key replacing an earlier one; the first
      result that is an error ends it. */
  function Fold<K(==), V>(rs: seq<Result<(K, V)>>): Result<map<K, V>>
    decreases |rs|
  {
    if rs == [] then Ok(map[])
    else
      var m :- Fold(rs[..|rs| - 1]);
      var kv :- rs[|rs| - 1];
      Ok(m[kv.0 := kv.1])
  }

  /** The dict key a name stands for. `True == 1` and `False == 0`, with equal
      hashes, so a boolean name and the matching integer are one key; the
      map is keyed by this representative. (Python keeps the key object
      inserted first, which only shows when the keys are listed.) */
  function KeyOf(name: Json): (k: Json)
    ensures k == name <==> !name.JBool?
    ensures !k.JBool?
    ensures name.JBool? ==> k == JInt(if name.b then 1 else 0)
  {
    if name.JBool? then JInt(if name.b then 1 else 0) else name
  }

  /** Python's `==` on two names used as dict keys. */
  predicate SameKey(a: Json, b: Json) {
    KeyOf(a) == KeyOf(b)
  }

  /** An entry's result with its name replaced by the key it stands for. */
  function Keyed(r: Result<(Json, Device)>): (k: Result<(Json, Device)>)
    ensures k.Ok? <==> r.Ok?
    ensures r.Ok? ==> k.value == (KeyOf(r.value.0), r.value.1)
    ensures r.Err? ==> k == r
  {
    match r
    case Ok((name, device)) => Ok((KeyOf(name), device))
    case Err(e) => Err(e)
  }

  /** What each entry gives, in entry order. */
  function Results(entries: seq<Json>): (r: seq<Result<(Json, Device)>>)
    ensures |r| == |entries| && forall i :: 0 <= i < |entries| ==> r[i] == Entry(entries[i])
  {
    seq(|entries|, i requires 0 <= i < |entries| => Entry(entries[i]))
  }

  /** Each result keyed by the key its name stands for. */
  function KeyedAll(rs: seq<Result<(Json, Device)>>): (r: seq<Result<(Json, Device)>>)
    ensures |r| == |rs| && forall i :: 0 <= i < |rs| ==> r[i] == Keyed(rs[i])
  {
    seq(|rs|, i requires 0 <= i < |rs| => Keyed(rs[i]))
  }

  /** The comprehension over `entries`. */
  function Build(entries: seq<Json>): Result<map<Json, Device>>
  {
    Fold(KeyedAll(Results(entries)))
  }

  /** A fold that succeeds holds exactly the keys of the results, each bound
      to the value of the LAST result with that key. */
  lemma FoldHolds<K, V>(rs: seq<Result<(K, V)>>, key: K)
    requires Fold(rs).Ok?
    ensures forall i :: 0 <= i < |rs| ==> rs[i].Ok?
    ensures key in Fold(rs).value <==> exists i :: 0 <= i < |rs| && rs[i].value.0 == key
    ensures key in Fold(rs).value ==>
              exists i :: 0 <= i < |rs| && rs[i].value == (key, Fold(rs).value[key]) &&
                          forall j :: i < j < |rs| ==> rs[j].value.0 != key
  {
    FoldAllOk(rs);
    FoldKeys(rs, key);
    if key in Fold(rs).value {
      FoldLast(rs, key);
    }
  }

  /** A fold that succeeds met no error. */
  lemma {:induction false} FoldAllOk<K, V>(rs: seq<Result<(K, V)>>)
    requires Fold(rs).Ok?
    ensures forall i :: 0 <= i < |rs| ==> rs[i].Ok?
    decreases |rs|
  {
    if rs != [] {
      var n := |rs| - 1;
      FoldStep(rs);
      FoldAllOk(rs[..n]);
      assert forall i :: 0 <= i < n ==> rs[i] == rs[..n][i];
    }
  }

  /** The keys of a fold are the keys of its results. */
  lemma {:induction false} FoldKeys<K, V>(rs: seq<Result<(K, V)>>, key: K)
    requires Fold(rs).Ok? && forall i :: 0 <= i < |rs| ==> rs[i].Ok?
    ensures key in Fold(rs).value <==> exists i :: 0 <= i < |rs| && rs[i].value.0 == key
    decreases |rs|
  {
    if rs != [] {
      var n := |rs| - 1;
      var prefix := rs[..n];
      FoldStep(rs);
      assert forall i :: 0 <= i < n ==> rs[i] == prefix[i];
      FoldKeys(prefix, key);
      if key in Fold(prefix).value {
        var i :| 0 <= i < n && prefix[i].value.0 == key;
        assert rs[i].value.0 == key;
      }
    }
  }

  /** A key of a fold is bound to the value of the last result with that key. */
  lemma {:induction false} FoldLast<K, V>(rs: seq<Result<(K, V)>>, key: K)
    requires Fold(rs).Ok? && forall i :: 0 <= i < |rs| ==> rs[i].Ok?
    requires key in Fold(rs).value
    ensures exists i :: 0 <= i < |rs| && rs[i].value == (key, Fold(rs).value[key]) &&
                        forall j :: i < j < |rs| ==> rs[j].value.0 != key
    decreases |rs|
  {
    var n := |rs| - 1;
    var prefix := rs[..n];
    FoldStep(rs);
    if rs[n].value.0 == key {
      assert rs[n].value == (key, Fold(rs).value[key]);
    } else {
      assert forall i :: 0 <= i < n ==> rs[i] == prefix[i];
      FoldLast(prefix, key);
      var i :| 0 <= i < n && prefix[i].value == (key, Fold(prefix).value[key]) &&
               forall j :: i < j < n ==> prefix[j].value.0 != key;
      assert rs[i].value == (key, Fold(rs).value[key]);
    }
  }

  /** A fold that succeeds is the fold of all but the last result, with the
      last result's binding added. */
  lemma FoldStep<K, V>(rs: seq<Result<(K, V)>>)
    requires rs != [] && Fold(rs).Ok?
    ensures var n := |rs| - 1;
            Fold(rs[..n]).Ok? && rs[n].Ok? &&
            Fold(rs).value == Fold(rs[..n]).value[rs[n].value.0 := rs[n].value.1]
  {
  }

  /** The first error among the results is the fold's error. */
  lemma {:induction false} FoldStops<K, V>(rs: seq<Result<(K, V)>>, k: nat)
    requires k < |rs| && rs[k].Err?
    requires forall i :: 0 <= i < k ==> rs[i].Ok?
    ensures Fold(rs) == Err(rs[k].error)
    decreases |rs|
  {
    var n := |rs| - 1;
    var prefix := rs[..n];
    if k < n {
      FoldStops(prefix, k);
    } else {
      FoldOk(prefix);
    }
  }

  /** Results without an error fold into a map. */
  lemma {:induction false} FoldOk<K, V>(rs: seq<Result<(K, V)>>)
    requires forall i :: 0 <= i < |rs| ==> rs[i].Ok?
    ensures Fold(rs).Ok?
    decreases |rs|
  {
    if rs != [] {
      var n := |rs| - 1;
      assert forall i :: 0 <= i < n ==> rs[..n][i] == rs[i];
      FoldOk(rs[..n]);
    }
  }

  /** `Devices(path)` on the parsed file: iterating it must give the entries. */
  function Registry(config: Json): Result<map<Json, Device>>
  {
    var entries :- Iterate(config);
    Build(entries)
  }

  /** `devices[key]`: the key is looked up by the key it stands for. */
  function GetItem(devices: map<Json, Device>, key: Json): (r: Result<Device>)
    requires Hashable(key)
    ensures r.Ok? <==> KeyOf(key) in devices
    ensures r.Ok? ==> r.value == devices[KeyOf(key)]
    ensures r.Err? ==> r.error == KeyError(KeyText(key))
  {
    if KeyOf(key) in devices then Ok(devices[KeyOf(key)]) else Err(KeyError(KeyText(key)))
  }

  /** A registry is built exactly when every entry builds; `key` is found in
      it exactly when some entry's name equals it as a dict key, and then it
      gives the device of the LAST such entry. */
  lemma BuildHolds(entries: seq<Json>, key: Json)
    ensures Build(entries).Ok? <==> forall i :: 0 <= i < |entries| ==> Entry(entries[i]).Ok?
    ensures Build(entries).Ok? ==>
              (KeyOf(key) in Build(entries).value <==>
                 exists i :: 0 <= i < |entries| && SameKey(Entry(entries[i]).value.0, key))
    ensures Build(entries).Ok? && KeyOf(key) in Build(entries).value ==>
              exists i :: 0 <= i < |entries| && SameKey(Entry(entries[i]).value.0, key) &&
                          Entry(entries[i]).value.1 == Build(entries).value[KeyOf(key)] &&
                          forall j :: i < j < |entries| ==> !SameKey(Entry(entries[j]).value.0, key)
  {
    var rs := Results(entries);
    if Build(entries).Ok? {
      KeyedHolds(rs, key);
    } else if forall i :: 0 <= i < |entries| ==> Entry(entries[i]).Ok? {
      FoldOk(KeyedAll(rs));
    }
  }

  /** `BuildHolds` for any sequence of results: a keyed fold that succeeds
      finds `key` exactly when some result's name equals it as a dict key,
      and gives the value of the last such result. */
  lemma KeyedHolds(rs: seq<Result<(Json, Device)>>, key: Json)
    requires Fold(KeyedAll(rs)).Ok?
    ensures forall i :: 0 <= i < |rs| ==> rs[i].Ok?
    ensures KeyOf(key) in Fold(KeyedAll(rs)).value <==> exists i :: 0 <= i < |rs| && SameKey(rs[i].value.0, key)
    ensures KeyOf(key) in Fold(KeyedAll(rs)).value ==>
              exists i :: 0 <= i < |rs| && SameKey(rs[i].value.0, key) &&
                          rs[i].value.1 == Fold(KeyedAll(rs)).value[KeyOf(key)] &&
                          forall j :: i < j < |rs| ==> !SameKey(rs[j].value.0, key)
  {
    var ks := KeyedAll(rs);
    var m := Fold(ks).value;
    FoldHolds(ks, KeyOf(key));
    if exists i :: 0 <= i < |rs| && SameKey(rs[i].value.0, key) {
      var i :| 0 <= i < |rs| && SameKey(rs[i].value.0, key);
      assert ks[i].value.0 == KeyOf(key);
    }
    if KeyOf(key) in m {
      var i :| 0 <= i < |ks| && ks[i].value == (KeyOf(key), m[KeyOf(key)]) &&
               forall j :: i < j < |ks| ==> ks[j].value.0 != KeyOf(key);
      assert SameKey(rs[i].value.0, key);
      forall j | i < j < |rs|
        ensures !SameKey(rs[j].value.0, key)
      {
        assert ks[j].value.0 != KeyOf(key);
      }
    }
  }

  /** Every key of a built registry is its own representative: a boolean
      name never stands beside the integer it equals. */
  lemma BuildKeysNormal(entries: seq<Json>, key: Json)
    requires Build(entries).Ok? && key in Build(entries).value
    ensures !key.JBool?
  {
    var ks := KeyedAll(Results(entries));
    FoldHolds(ks, key);
    var i :| 0 <= i < |ks| && ks[i].value.0 == key;
  }

  /** The first entry that raises decides the registry's error. */
  lemma BuildStops(entries: seq<Json>, k: nat)
    requires k < |entries| && Entry(entries[k]).Err?
    requires forall i :: 0 <= i < k ==> Entry(entries[i]).Ok?
    ensures Build(entries) == Err(Entry(entries[k]).error)
  {
    FoldStops(KeyedAll(Results(entries)), k);
  }

  /** Two entries named `1` and `true` are one device in the registry, the
      later one, and `devices[True]` finds it (`FanEntry` gives such entries). */
  lemma BoolNameIsIntName(e1: Json, e2: Json, d1: Device, d2: Device)
    requires Entry(e1) == Ok((JInt(1), d1)) && Entry(e2) == Ok((JBool(true), d2))
    ensures var built := Build([e1, e2]);
            built == Ok(map[JInt(1) := d2]) &&
            GetItem(built.value, JBool(true)) == Ok(d2) &&
            GetItem(built.value, JInt(1)) == Ok(d2)
  {
    ResultsPair(e1, e2);
    KeyedPair(Results([e1, e2]), (JInt(1), d1), (JBool(true), d2));
    FoldSameKey(JInt(1), d1, d2);
  }

  /** Two entries are evaluated in order. */
  lemma ResultsPair(e1: Json, e2: Json)
    ensures Results([e1, e2]) == [Entry(e1), Entry(e2)]
  {
    var raw := Results([e1, e2]);
    assert raw[0] == Entry(e1) && raw[1] == Entry(e2);
  }

  /** Two results that build are keyed in order. */
  lemma KeyedPair(rs: seq<Result<(Json, Device)>>, r1: (Json, Device), r2: (Json, Device))
    requires rs == [Ok(r1), Ok(r2)]
    ensures KeyedAll(rs) == [Ok((KeyOf(r1.0), r1.1)), Ok((KeyOf(r2.0), r2.1))]
  {
    var ks := KeyedAll(rs);
    assert ks[0] == Keyed(Ok(r1)) && ks[1] == Keyed(Ok(r2));
  }

  /** Two entries with one key leave the second value. */
  lemma FoldSameKey<K, V>(k: K, v1: V, v2: V)
    ensures Fold([Ok((k, v1)), Ok((k, v2))]) == Ok(map[k := v2])
  {
    var rs := [Ok((k, v1)), Ok((k, v2))];
    assert rs[..1][..0] == [];
    assert rs[..|rs| - 1] == [Ok((k, v1))];
    var one: seq<Result<(K, V)>> := [Ok((k, v1))];
    assert one[..|one| - 1] == [];
    assert Fold(one) == Ok(map[k := v1]);
    assert map[k := v1][k := v2] == map[k := v2];
  }

  /** An entry of an unknown kind raises `KeyError` with the kind. */
  lemma UnknownKind(fields: seq<(string, Json)>, name: Json, kind: string)
    requires Lookup(fields, "name") == Some(name) && Lookup(fields, "device") == Some(JStr(kind))
    requires kind !in DeviceKinds
    ensures Entry(JObject(fields)) == Err(KeyError(kind))
  {
  }

  /** A fan entry builds a fan with the default frequency unless the entry
      gives one; its name, when hashable, is kept as given. */
  lemma FanEntry(name: Json, pin: Json)
    requires Hashable(name)
    ensures Entry(JObject([("device", JStr("Fan")), ("name", name), ("pin", pin)])) ==
            Ok((name, FanDevice(pin, JInt(25000))))
  {
    var fields := [("device", JStr("Fan")), ("name", name), ("pin", pin)];
    assert Kwargs([("pin", pin)]) == [("pin", pin)];
    assert fields[1..][1..] == [("pin", pin)];
    assert Kwargs(fields) == [("pin", pin)];
    assert Lookup([("pin", pin)], "freq") == None;
  }
}
