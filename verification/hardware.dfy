// parse_hardware (generate_data.py:68-119): fills a record of default values
// from the DMI files of sysfs, normalises the BIOS date and relabels laptop
// boards. The directory /sys/devices/virtual/dmi/id/ is given as a map from
// file name to file content; a name that is absent stands for a missing file.

module Hardware {
  import opened Common
  import opened PyStr
  import opened Records
  import Dates

  datatype HardwareError =
    | MalformedDate(text: string)  // strptime raised ValueError
    | NotARecord(key: string)      // `x["name"] = ..` on a string raised TypeError

  /** The dict that parse_hardware returns: its sections, then "groups". */
  datatype Hardware = Hardware(sections: seq<Section>, groups: seq<Group>)

  const BoardAt := 0
  const BiosAt := 1
  const ChassisAt := 2
  const ProductAt := 3

  /** The default record, generate_data.py:73-93, without its empty "groups" list. */
  const Defaults: seq<Section> := [BoardDefaults, BiosDefaults, ChassisDefaults, ProductDefaults]

  /** A vendor sub-record before its file is read. */
  const NoVendor := Vendor("_none_", "")

  const BoardDefaults := Section("board", [
    Field("name", Str("__unknown__")),
    Field("board_vendor", NoVendor),
    Field("version", Str("__unknown__"))])

  const BiosDefaults := Section("bios", [
    Field("date", Str("")),
    Field("release", Str("")),
    Field("bios_vendor", NoVendor),
    Field("version", Str("__unknown__"))])

  const ChassisDefaults := Section("chassis", [Field("type", Str(""))])

  const ProductDefaults := Section("product", [Field("family", Str("")), Field("name", Str(""))])

  /** Chassis types that get the laptop treatment (generate_data.py:111). */
  const LaptopTypes: set<Option<Value>> := {Some(Str("8")), Some(Str("9")), Some(Str("10"))}

  /** The same chassis types as the content of the chassis_type file. */
  const LaptopTypeFiles: set<Option<string>> := {Some("8"), Some("9"), Some("10")}

  /** The file a field is read from: a vendor field's own name, otherwise
      `<section>_<key>` (generate_data.py:98). */
  function FilePath(section: string, key: string): (p: string)
    ensures p == key <==> EndsWith(key, "vendor")
    ensures p == key || p == section + "_" + key
  {
    if EndsWith(key, "vendor") then key else section + "_" + key
  }

  /** The stripped content of a file, when it exists and is not blank. */
  function Content(files: map<string, string>, path: string): Option<string>
  {
    if path in files && Strip(files[path]) != "" then Some(Strip(files[path])) else None
  }

  /** The value a field holds once its file has been read (generate_data.py:98-109). */
  function FillValue(section: string, f: Field, files: map<string, string>): Result<Value, HardwareError>
  {
    match Content(files, FilePath(section, f.key))
    case None => Ok(f.value)
    case Some(data) =>
      var converted := if f.key == "date" then Dates.ConvertDate(data) else Some(data);
      match converted
      case None => Err(MalformedDate(data))
      case Some(text) =>
        if EndsWith(f.key, "vendor") then
          match f.value
          case Vendor(_, id) => Ok(Vendor(text, id))
          case Str(_) => Err(NotARecord(f.key))
        else Ok(Str(text))
  }

  /** `hardware[section][key] = v` for the field at position (i, j). */
  function SetValue(t: seq<Section>, i: nat, j: nat, v: Value): (u: seq<Section>)
    requires i < |t| && j < |t[i].fields|
    ensures |u| == |t| && |u[i].fields| == |t[i].fields|
  {
    t[i := t[i].(fields := t[i].fields[j := Field(t[i].fields[j].key, v)])]
  }

  lemma SetValueSame(t: seq<Section>, i: nat, j: nat)
    requires i < |t| && j < |t[i].fields|
    ensures SetValue(t, i, j, t[i].fields[j].value) == t
  {
    var f := t[i].fields;
    assert f[j := Field(f[j].key, f[j].value)] == f;
    assert t[i].(fields := f) == t[i];
  }

  /** (k, l) comes before (i, j) in the order the two loops visit fields. */
  predicate Before(k: nat, l: nat, i: nat, j: nat)
  {
    k < i || (k == i && l < j)
  }

  /** Sections i, i+1, .. of `t` filled in from `files`, starting at field j of
      section i; the first field that fails stops the whole run. */
  function FillFrom(t: seq<Section>, i: nat, j: nat, files: map<string, string>): (r: Result<seq<Section>, HardwareError>)
    ensures r.Ok? ==> |r.value| == |t|
    decreases |t| - i, if i < |t| then |t[i].fields| - j else 0
  {
    if i >= |t| then Ok(t)
    else if j >= |t[i].fields| then FillFrom(t, i + 1, 0, files)
    else
      match FillValue(t[i].name, t[i].fields[j], files)
      case Err(e) => Err(e)
      case Ok(v) => FillFrom(SetValue(t, i, j, v), i, j + 1, files)
  }

  /** Same sections, with the same keys in the same order. */
  ghost predicate SameLayout(t: seq<Section>, u: seq<Section>)
  {
    |t| == |u| &&
    forall k | 0 <= k < |t| ::
      t[k].name == u[k].name && |t[k].fields| == |u[k].fields| &&
      forall l | 0 <= l < |t[k].fields| :: t[k].fields[l].key == u[k].fields[l].key
  }

  /** The layout of the defaults, with sub-records exactly where the defaults have them. */
  ghost predicate Shaped(t: seq<Section>)
  {
    SameLayout(t, Defaults) &&
    forall k, l | 0 <= k < |t| && 0 <= l < |t[k].fields| ::
      t[k].fields[l].value.Vendor? == Defaults[k].fields[l].value.Vendor?
  }

  /** `hardware.pop(name)`. */
  function Pop(t: seq<Section>, name: string): seq<Section>
  {
    if t == [] then []
    else if t[0].name == name then t[1..]
    else [t[0]] + Pop(t[1..], name)
  }

  /** The board name of a laptop: `"<product.name> (<product.family>)"`. */
  function LaptopLabel(t: seq<Section>): string
    requires Shaped(t)
  {
    var product := t[ProductAt].fields;
    assert product[0].key == "family" && product[1].key == "name";
    assert Get(product, "family") == Some(product[0].value);
    assert Get(product, "name") == Some(product[1].value);
    assert !product[0].value.Vendor? && !product[1].value.Vendor? by {
      assert !Defaults[ProductAt].fields[0].value.Vendor?;
      assert !Defaults[ProductAt].fields[1].value.Vendor?;
    }
    Get(product, "name").value.s + " (" + Get(product, "family").value.s + ")"
  }

  /** generate_data.py:111-117. */
  function ChassisOverride(t: seq<Section>): (u: seq<Section>)
    requires Shaped(t)
    ensures Get(t[ChassisAt].fields, "type") in LaptopTypes ==>
      |u| == 2 && u[BoardAt].name == "board" && u[BiosAt] == t[BiosAt]
    ensures Get(t[ChassisAt].fields, "type") !in LaptopTypes ==> u == t
  {
    assert t[ChassisAt].fields[0].key == "type";
    if Get(t[ChassisAt].fields, "type") in LaptopTypes then
      var board := t[BoardAt].(fields := Put(t[BoardAt].fields, "name", Str(LaptopLabel(t))));
      PopLaptop([board] + t[1..]);
      Pop(Pop([board] + t[1..], "chassis"), "product")
    else t
  }

  /** What parse_hardware returns, or the error it raises. */
  function ParseHardwareSpec(files: map<string, string>): (r: Result<Hardware, HardwareError>)
    ensures r.Ok? ==> r.value.groups == [] && (|r.value.sections| == 2 || |r.value.sections| == 4)
    ensures r.Ok? ==> r.value.sections[BoardAt].name == "board" && r.value.sections[BiosAt].name == "bios"
  {
    match FillFrom(Defaults, 0, 0, files)
    case Err(e) => Err(e)
    case Ok(t) =>
      FilledShaped(files);
      Ok(Hardware(ChassisOverride(t), []))
  }

  /** generate_data.py:68-119, reading the DMI files from `files`. */
  method ParseHardware(files: map<string, string>) returns (r: Result<Hardware, HardwareError>)
    ensures r == ParseHardwareSpec(files)
  {
    var filled := FillDefaults(files);
    match filled {
      case Err(e) =>
        return Err(e);
      case Ok(hardware) =>
        FilledShaped(files);
        hardware := RelabelLaptop(hardware);
        r := Ok(Hardware(hardware, []));
    }
  }

  /** The two loops of generate_data.py:96-109: every field of the defaults,
      section by section, read from its file; the first error stops them. */
  method FillDefaults(files: map<string, string>) returns (r: Result<seq<Section>, HardwareError>)
    ensures r == FillFrom(Defaults, 0, 0, files)
  {
    ghost var filled := FillFrom(Defaults, 0, 0, files);
    var hardware := Defaults;
    var i := 0;
    while i < |hardware|
      invariant |hardware| == 4 && 0 <= i <= |hardware|
      invariant filled == FillFrom(hardware, i, 0, files)
    {
      var section := hardware[i].name;
      var j := 0;
      while j < |hardware[i].fields|
        invariant |hardware| == 4 && i < |hardware| && hardware[i].name == section
        invariant 0 <= j <= |hardware[i].fields|
        invariant filled == FillFrom(hardware, i, j, files)
      {
        var read := ReadField(section, hardware[i].fields[j], files);
        match read {
          case Err(e) =>
            return Err(e);
          case Ok(None) =>
            SetValueSame(hardware, i, j);
          case Ok(Some(v)) =>
            hardware := SetValue(hardware, i, j, v);
        }
        j := j + 1;
      }
      i := i + 1;
    }
    return Ok(hardware);
  }

  method ReadField(section: string, f: Field, files: map<string, string>) returns (r: Result<Option<Value>, HardwareError>)
    ensures r.Err? ==> FillValue(section, f, files) == Err(r.error)
    ensures r == Ok(None) ==> FillValue(section, f, files) == Ok(f.value)
    ensures r.Ok? && r.value.Some? ==> FillValue(section, f, files) == Ok(r.value.value)
  {
    var path := FilePath(section, f.key);
    if path in files {
      var data := Strip(files[path]);
      if data != "" {
        if f.key == "date" {
          var date := Dates.ConvertDate(data);
          if date.None? {
            return Err(MalformedDate(data));
          }
          data := date.value;
        }
        if EndsWith(f.key, "vendor") {
          match f.value
          case Str(_) =>
            return Err(NotARecord(f.key));
          case Vendor(_, id) =>
            return Ok(Some(Vendor(data, id)));
        }
        return Ok(Some(Str(data)));
      }
    }
    return Ok(None);
  }

  /** generate_data.py:111-117 on the filled record. */
  method RelabelLaptop(t: seq<Section>) returns (u: seq<Section>)
    requires Shaped(t)
    ensures u == ChassisOverride(t)
  {
    u := t;
    assert u[ChassisAt].fields[0].key == "type";
    if Get(u[ChassisAt].fields, "type") in LaptopTypes {
      var board := u[BoardAt].(fields := Put(u[BoardAt].fields, "name", Str(LaptopLabel(u))));
      u := [board] + u[1..];
      u := Pop(u, "chassis");
      u := Pop(u, "product");
    }
  }

  // ---------------------------------------------------------------------
  // What filling the defaults does, field by field.

  /** Filling from (i, j) keeps the layout, leaves the fields before (i, j)
      alone and gives every later field the value FillValue reads for it. */
  lemma FillFromOk(t: seq<Section>, i: nat, j: nat, files: map<string, string>)
    requires FillFrom(t, i, j, files).Ok?
    ensures var u := FillFrom(t, i, j, files).value;
      SameLayout(t, u) &&
      forall k, l | 0 <= k < |t| && 0 <= l < |t[k].fields| ::
        if Before(k, l, i, j) then u[k].fields[l] == t[k].fields[l]
        else FillValue(t[k].name, t[k].fields[l], files) == Ok(u[k].fields[l].value)
  {
    var u := FillFrom(t, i, j, files).value;
    forall k | 0 <= k < |t|
      ensures u[k].name == t[k].name && |u[k].fields| == |t[k].fields|
    {
      FillFromAt(t, i, j, files, k, 0);
    }
    forall k, l | 0 <= k < |t| && 0 <= l < |t[k].fields|
      ensures u[k].fields[l].key == t[k].fields[l].key
      ensures if Before(k, l, i, j) then u[k].fields[l] == t[k].fields[l]
        else FillValue(t[k].name, t[k].fields[l], files) == Ok(u[k].fields[l].value)
    {
      FillFromAt(t, i, j, files, k, l);
    }
  }

  /** FillFromOk for one field (k, l). */
  lemma {:induction false} FillFromAt(t: seq<Section>, i: nat, j: nat, files: map<string, string>, k: nat, l: nat)
    requires FillFrom(t, i, j, files).Ok? && k < |t|
    ensures var u := FillFrom(t, i, j, files).value;
      |u| == |t| && u[k].name == t[k].name && |u[k].fields| == |t[k].fields| &&
      (l < |t[k].fields| ==>
        u[k].fields[l].key == t[k].fields[l].key &&
        if Before(k, l, i, j) then u[k].fields[l] == t[k].fields[l]
        else FillValue(t[k].name, t[k].fields[l], files) == Ok(u[k].fields[l].value))
    decreases |t| - i, if i < |t| then |t[i].fields| - j else 0
  {
    if i >= |t| {
    } else if j >= |t[i].fields| {
      FillFromAt(t, i + 1, 0, files, k, l);
    } else {
      var v := FillValue(t[i].name, t[i].fields[j], files).value;
      var t' := SetValue(t, i, j, v);
      FillFromAt(t', i, j + 1, files, k, l);
      assert t'[k].name == t[k].name && |t'[k].fields| == |t[k].fields|;
      if l < |t[k].fields| && (k, l) != (i, j) {
        assert t'[k].fields[l] == t[k].fields[l];
      }
    }
  }

  /** Reading field (k, l) of `t` fails. */
  predicate FailsAt(t: seq<Section>, k: int, l: int, files: map<string, string>)
  {
    0 <= k < |t| && 0 <= l < |t[k].fields| && FillValue(t[k].name, t[k].fields[l], files).Err?
  }

  /** Some field at or after (i, j) fails to read. */
  ghost predicate FailsFrom(t: seq<Section>, i: nat, j: nat, files: map<string, string>)
  {
    exists k: nat, l: nat | !Before(k, l, i, j) :: FailsAt(t, k, l, files)
  }

  lemma FailsFromNextSection(t: seq<Section>, i: nat, j: nat, files: map<string, string>)
    requires i < |t| && j >= |t[i].fields|
    ensures FailsFrom(t, i, j, files) <==> FailsFrom(t, i + 1, 0, files)
  {
    if FailsFrom(t, i, j, files) {
      var k: nat, l: nat :| !Before(k, l, i, j) && FailsAt(t, k, l, files);
      assert !Before(k, l, i + 1, 0);
    }
  }

  lemma FailsFromNextField(t: seq<Section>, i: nat, j: nat, v: Value, files: map<string, string>)
    requires i < |t| && j < |t[i].fields|
    requires FillValue(t[i].name, t[i].fields[j], files) == Ok(v)
    ensures FailsFrom(t, i, j, files) <==> FailsFrom(SetValue(t, i, j, v), i, j + 1, files)
  {
    var u := SetValue(t, i, j, v);
    if FailsFrom(u, i, j + 1, files) {
      var k: nat, l: nat :| !Before(k, l, i, j + 1) && FailsAt(u, k, l, files);
      FailsAtSame(t, u, k, l, files);
    }
    if FailsFrom(t, i, j, files) {
      var k: nat, l: nat :| !Before(k, l, i, j) && FailsAt(t, k, l, files);
      FailsAtSet(t, i, j, v, files);
      FailsAtSame(t, u, k, l, files);
    }
  }

  /** The field that was just read does not fail. */
  lemma FailsAtSet(t: seq<Section>, i: nat, j: nat, v: Value, files: map<string, string>)
    requires i < |t| && j < |t[i].fields|
    requires FillValue(t[i].name, t[i].fields[j], files) == Ok(v)
    ensures !FailsAt(t, i, j, files)
  {
  }

  /** A field untouched by the update fails in both records or in neither. */
  lemma FailsAtSame(t: seq<Section>, u: seq<Section>, k: nat, l: nat, files: map<string, string>)
    requires |u| == |t| && (k < |t| ==> |u[k].fields| == |t[k].fields|)
    requires k < |t| && l < |t[k].fields| ==> u[k].name == t[k].name && u[k].fields[l] == t[k].fields[l]
    ensures FailsAt(t, k, l, files) <==> FailsAt(u, k, l, files)
  {
  }

  /** Filling fails exactly when some field from (i, j) on fails. */
  lemma {:induction false} FillFromErr(t: seq<Section>, i: nat, j: nat, files: map<string, string>)
    ensures FillFrom(t, i, j, files).Err? <==> FailsFrom(t, i, j, files)
    decreases |t| - i, if i < |t| then |t[i].fields| - j else 0
  {
    if i >= |t| {
      forall k: nat, l: nat | !Before(k, l, i, j) ensures !FailsAt(t, k, l, files) {
      }
    } else if j >= |t[i].fields| {
      FillFromErr(t, i + 1, 0, files);
      FailsFromNextSection(t, i, j, files);
    } else {
      match FillValue(t[i].name, t[i].fields[j], files)
      case Err(_) =>
        assert FailsAt(t, i, j, files) && !Before(i, j, i, j);
      case Ok(v) =>
        FillFromErr(SetValue(t, i, j, v), i, j + 1, files);
        FailsFromNextField(t, i, j, v, files);
    }
  }

  /** In the defaults, sub-records stand exactly at the keys ending in "vendor". */
  lemma DefaultVendorKeys()
    ensures forall k, l | 0 <= k < |Defaults| && 0 <= l < |Defaults[k].fields| ::
      Defaults[k].fields[l].value.Vendor? <==> EndsWith(Defaults[k].fields[l].key, "vendor")
  {
    forall k, l | 0 <= k < |Defaults| && 0 <= l < |Defaults[k].fields|
      ensures Defaults[k].fields[l].value.Vendor? <==> EndsWith(Defaults[k].fields[l].key, "vendor")
    {
      assert k == 0 || k == 1 || k == 2 || k == 3;
    }
  }

  /** The BIOS date is the only date among the defaults. */
  lemma DefaultDateKey()
    ensures forall k, l | 0 <= k < |Defaults| && 0 <= l < |Defaults[k].fields| ::
      Defaults[k].fields[l].key == "date" ==> k == BiosAt && l == 0
  {
    forall k, l | 0 <= k < |Defaults| && 0 <= l < |Defaults[k].fields|
      ensures Defaults[k].fields[l].key == "date" ==> k == BiosAt && l == 0
    {
      assert k == 0 || k == 1 || k == 2 || k == 3;
    }
  }

  /** The filled record keeps the layout of the defaults. */
  lemma FilledShaped(files: map<string, string>)
    requires FillFrom(Defaults, 0, 0, files).Ok?
    ensures Shaped(FillFrom(Defaults, 0, 0, files).value)
  {
    var u := FillFrom(Defaults, 0, 0, files).value;
    FillFromOk(Defaults, 0, 0, files);
    DefaultVendorKeys();
    forall k, l | 0 <= k < |u| && 0 <= l < |u[k].fields|
      ensures u[k].fields[l].value.Vendor? == Defaults[k].fields[l].value.Vendor?
    {
      assert FillValue(Defaults[k].name, Defaults[k].fields[l], files) == Ok(u[k].fields[l].value);
    }
  }

  /** One default field, once filled, holds what FillValue reads for it. */
  lemma FilledField(files: map<string, string>, k: nat, l: nat)
    requires FillFrom(Defaults, 0, 0, files).Ok?
    requires k < |Defaults| && l < |Defaults[k].fields|
    ensures var u := FillFrom(Defaults, 0, 0, files).value;
      |u| == |Defaults| && |u[k].fields| == |Defaults[k].fields| &&
      u[k].name == Defaults[k].name && u[k].fields[l].key == Defaults[k].fields[l].key &&
      FillValue(Defaults[k].name, Defaults[k].fields[l], files) == Ok(u[k].fields[l].value)
  {
    FillFromOk(Defaults, 0, 0, files);
  }

  /** FilledField for a default field given by its section name and field. */
  lemma FilledAt(files: map<string, string>, k: nat, l: nat, name: string, f: Field)
    requires FillFrom(Defaults, 0, 0, files).Ok?
    requires k < |Defaults| && l < |Defaults[k].fields|
    requires Defaults[k].name == name && Defaults[k].fields[l] == f
    ensures var u := FillFrom(Defaults, 0, 0, files).value;
      |u| == 4 && |u[k].fields| == |Defaults[k].fields| && u[k].name == name &&
      u[k].fields[l].key == f.key && FillValue(name, f, files) == Ok(u[k].fields[l].value)
  {
    FilledField(files, k, l);
  }

  /** The stripped content of a file, or `default` when it is missing or blank. */
  function ReadOr(files: map<string, string>, path: string, default: string): string
  {
    match Content(files, path)
    case Some(data) => data
    case None => default
  }

  lemma PopLaptop(t: seq<Section>)
    requires |t| == 4
    requires t[0].name == "board" && t[1].name == "bios"
    requires t[2].name == "chassis" && t[3].name == "product"
    ensures Pop(Pop(t, "chassis"), "product") == t[..2]
  {
    assert t[1..][1..] == t[2..];
    assert Pop(t[2..], "chassis") == [t[3]];
    assert Pop(t, "chassis") == [t[0], t[1], t[3]];
    var v := [t[0], t[1], t[3]];
    assert v[1..][1..] == [t[3]];
    assert Pop([t[3]], "product") == [];
    assert Pop(v[1..], "product") == [t[1]];
    assert Pop(v, "product") == [t[0], t[1]];
  }

  /** The filled record counts as a laptop exactly when chassis_type reads
      8, 9 or 10. */
  lemma ChassisType(files: map<string, string>)
    requires FillFrom(Defaults, 0, 0, files).Ok?
    ensures var u := FillFrom(Defaults, 0, 0, files).value;
      |u| == 4 && |u[ChassisAt].fields| == 1 &&
      Get(u[ChassisAt].fields, "type") == Some(u[ChassisAt].fields[0].value) &&
      (Get(u[ChassisAt].fields, "type") in LaptopTypes <==> Content(files, "chassis_type") in LaptopTypeFiles)
  {
    FilledAt(files, ChassisAt, 0, "chassis", Field("type", Str("")));
    var u := FillFrom(Defaults, 0, 0, files).value;
    ChassisValue(files, u[ChassisAt].fields[0].value);
  }

  /** The chassis type read from chassis_type is a laptop type exactly when
      the file holds 8, 9 or 10. */
  lemma ChassisValue(files: map<string, string>, v: Value)
    requires FillValue("chassis", Field("type", Str("")), files) == Ok(v)
    ensures Some(v) in LaptopTypes <==> Content(files, "chassis_type") in LaptopTypeFiles
  {
    PlainPath("chassis", "type", "chassis_type");
    PlainValue("chassis", Field("type", Str("")), files, v);
  }

  /** A successful parse is the filled record after the laptop override. */
  lemma SpecIsOverride(files: map<string, string>)
    requires ParseHardwareSpec(files).Ok?
    ensures FillFrom(Defaults, 0, 0, files).Ok?
    ensures Shaped(FillFrom(Defaults, 0, 0, files).value)
    ensures ParseHardwareSpec(files).value ==
      Hardware(ChassisOverride(FillFrom(Defaults, 0, 0, files).value), [])
  {
    FilledShaped(files);
  }

  /** The override either leaves the record alone or keeps the board, with its
      keys in place and the laptop name, and the BIOS section. */
  lemma OverrideShape(u: seq<Section>)
    requires Shaped(u)
    ensures var h := ChassisOverride(u);
      if Get(u[ChassisAt].fields, "type") in LaptopTypes then
        |h| == 2 && h[1] == u[BiosAt] && h[BoardAt].name == u[BoardAt].name &&
        Keys(h[BoardAt].fields) == Keys(u[BoardAt].fields) &&
        Get(h[BoardAt].fields, "name") == Some(Str(LaptopLabel(u)))
      else h == u
  {
    if Get(u[ChassisAt].fields, "type") in LaptopTypes {
      var board := u[BoardAt].(fields := Put(u[BoardAt].fields, "name", Str(LaptopLabel(u))));
      PopLaptop([board] + u[1..]);
      assert u[BoardAt].fields[0].key == "name";
      assert Get(u[BoardAt].fields, "name") == Some(u[BoardAt].fields[0].value);
      assert Keys(board.fields) == Keys(u[BoardAt].fields);
      PutGet(u[BoardAt].fields, "name", Str(LaptopLabel(u)), "name");
    }
  }

  /** The board and BIOS sections always come back with all their default
      keys, and the chassis and product sections come back, with theirs,
      exactly when the machine is not a laptop. */
  lemma HardwareKeysPresent(files: map<string, string>)
    requires ParseHardwareSpec(files).Ok?
    ensures var h := ParseHardwareSpec(files).value;
      var laptop := Content(files, "chassis_type") in LaptopTypeFiles;
      h.groups == [] &&
      |h.sections| == (if laptop then 2 else 4) &&
      forall k | 0 <= k < |h.sections| ::
        h.sections[k].name == Defaults[k].name &&
        Keys(h.sections[k].fields) == Keys(Defaults[k].fields)
  {
    SpecIsOverride(files);
    ChassisType(files);
    OverrideKeys(FillFrom(Defaults, 0, 0, files).value);
  }

  /** The override keeps the first sections of a record laid out like the
      defaults, with their default keys. */
  lemma OverrideKeys(u: seq<Section>)
    requires Shaped(u)
    ensures var h := ChassisOverride(u);
      |h| == (if Get(u[ChassisAt].fields, "type") in LaptopTypes then 2 else 4) &&
      forall k | 0 <= k < |h| ::
        h[k].name == Defaults[k].name && Keys(h[k].fields) == Keys(Defaults[k].fields)
  {
    OverrideShape(u);
    LayoutKeys(u, Defaults);
    var h := ChassisOverride(u);
    forall k | 0 <= k < |h|
      ensures h[k].name == Defaults[k].name && Keys(h[k].fields) == Keys(Defaults[k].fields)
    {
      if h != u {
        assert k == 0 || h[k] == u[k];
      }
    }
  }

  lemma LayoutKeys(t: seq<Section>, u: seq<Section>)
    requires SameLayout(t, u)
    ensures forall k | 0 <= k < |t| :: Keys(t[k].fields) == Keys(u[k].fields)
  {
  }

  /** The files parse_hardware reads, section by section and key by key. */
  function PathsOf(t: seq<Section>): seq<string>
  {
    if t == [] then [] else
      SectionFiles(t[0].name, Keys(t[0].fields)) + PathsOf(t[1..])
  }

  /** FilePath of `section` and each key. */
  function SectionFiles(section: string, keys: seq<string>): (r: seq<string>)
    ensures |r| == |keys| && forall i | 0 <= i < |keys| :: r[i] == FilePath(section, keys[i])
  {
    if keys == [] then [] else [FilePath(section, keys[0])] + SectionFiles(section, keys[1..])
  }

  /** Vendor keys are read from a file of their own name, every other key
      from `<section>_<key>`: the ten files below, bios_version included. */
  lemma DefaultFilePaths()
    ensures PathsOf(Defaults) ==
      ["board_name", "board_vendor", "board_version",
       "bios_date", "bios_release", "bios_vendor", "bios_version",
       "chassis_type", "product_family", "product_name"]
  {
    DefaultPathsBySection();
    DefaultKeys();
    BoardPaths();
    BiosPaths();
    ChassisPaths();
    ProductPaths();
    FileListJoined();
  }

  lemma DefaultPathsBySection()
    ensures PathsOf(Defaults) ==
      SectionFiles("board", Keys(BoardDefaults.fields)) + SectionFiles("bios", Keys(BiosDefaults.fields)) +
      SectionFiles("chassis", Keys(ChassisDefaults.fields)) + SectionFiles("product", Keys(ProductDefaults.fields))
  {
    var product := [ProductDefaults];
    var chassis := [ChassisDefaults] + product;
    var bios := [BiosDefaults] + chassis;
    assert Defaults == [BoardDefaults] + bios;
    SectionPaths(ProductDefaults, []);
    SectionPaths(ChassisDefaults, product);
    SectionPaths(BiosDefaults, chassis);
    SectionPaths(BoardDefaults, bios);
  }

  lemma FileListJoined()
    ensures ["board_name", "board_vendor", "board_version"] +
      ["bios_date", "bios_release", "bios_vendor", "bios_version"] +
      ["chassis_type"] + ["product_family", "product_name"] ==
      ["board_name", "board_vendor", "board_version",
       "bios_date", "bios_release", "bios_vendor", "bios_version",
       "chassis_type", "product_family", "product_name"]
  {
  }

  lemma SectionPaths(s: Section, rest: seq<Section>)
    ensures PathsOf([s] + rest) == SectionFiles(s.name, Keys(s.fields)) + PathsOf(rest)
  {
    assert ([s] + rest)[0] == s && ([s] + rest)[1..] == rest;
  }

  lemma DefaultKeys()
    ensures Keys(BoardDefaults.fields) == ["name", "board_vendor", "version"]
    ensures Keys(BiosDefaults.fields) == ["date", "release", "bios_vendor", "version"]
    ensures Keys(ChassisDefaults.fields) == ["type"]
    ensures Keys(ProductDefaults.fields) == ["family", "name"]
  {
  }

  lemma BoardPaths()
    ensures SectionFiles("board", ["name", "board_vendor", "version"]) == ["board_name", "board_vendor", "board_version"]
  {
    PlainPath("board", "name", "board_name");
    VendorPath("board", "board_vendor");
    PlainPath("board", "version", "board_version");
  }

  lemma BiosPaths()
    ensures SectionFiles("bios", ["date", "release", "bios_vendor", "version"]) == ["bios_date", "bios_release", "bios_vendor", "bios_version"]
  {
    PlainPath("bios", "date", "bios_date");
    PlainPath("bios", "release", "bios_release");
    VendorPath("bios", "bios_vendor");
    PlainPath("bios", "version", "bios_version");
  }

  lemma ChassisPaths()
    ensures SectionFiles("chassis", ["type"]) == ["chassis_type"]
  {
    PlainPath("chassis", "type", "chassis_type");
  }

  lemma ProductPaths()
    ensures SectionFiles("product", ["family", "name"]) == ["product_family", "product_name"]
  {
    PlainPath("product", "family", "product_family");
    PlainPath("product", "name", "product_name");
  }

  lemma PlainPath(section: string, key: string, path: string)
    requires |key| < 6 || key[|key| - 6] != 'v'
    requires path == section + "_" + key
    ensures FilePath(section, key) == path
  {
    assert !EndsWith(key, "vendor") by {
      if |key| >= 6 {
        assert key[|key| - 6..][0] != "vendor"[0];
      }
    }
  }

  lemma VendorPath(section: string, key: string)
    requires EndsWith(key, "vendor")
    ensures FilePath(section, key) == key
  {
  }

  /** Laptops (chassis types 8, 9, 10) lose their chassis and product
      sections and their board is named `"<product name> (<product family>)"`;
      every other machine keeps all four sections and the board name read
      from board_name. */
  lemma LaptopOverride(files: map<string, string>)
    requires ParseHardwareSpec(files).Ok?
    ensures var h := ParseHardwareSpec(files).value.sections;
      var boardName := ReadOr(files, "product_name", "") + " (" + ReadOr(files, "product_family", "") + ")";
      if Content(files, "chassis_type") in LaptopTypeFiles then
        |h| == 2 && Get(h[BoardAt].fields, "name") == Some(Str(boardName))
      else
        |h| == 4 && Get(h[BoardAt].fields, "name") == Some(Str(ReadOr(files, "board_name", "__unknown__")))
  {
    SpecIsOverride(files);
    var u := FillFrom(Defaults, 0, 0, files).value;
    ChassisType(files);
    OverrideShape(u);
    if Content(files, "chassis_type") in LaptopTypeFiles {
      ProductFields(files);
    } else {
      BoardNameField(files);
    }
  }

  /** The filled board name is what board_name holds, `__unknown__` without it. */
  lemma BoardNameField(files: map<string, string>)
    requires FillFrom(Defaults, 0, 0, files).Ok?
    ensures var u := FillFrom(Defaults, 0, 0, files).value;
      |u| == 4 && Get(u[BoardAt].fields, "name") == Some(Str(ReadOr(files, "board_name", "__unknown__")))
  {
    var u := FillFrom(Defaults, 0, 0, files).value;
    PlainFieldAt(files, BoardAt, 0, "board", "name", "__unknown__", "board_name");
    assert Get(u[BoardAt].fields, "name") == Some(u[BoardAt].fields[0].value);
  }

  /** A plain field of the defaults ends up holding its file's content, or
      its default. */
  lemma PlainFieldAt(files: map<string, string>, k: nat, l: nat, name: string, key: string, default: string, path: string)
    requires FillFrom(Defaults, 0, 0, files).Ok?
    requires k < |Defaults| && l < |Defaults[k].fields|
    requires Defaults[k].name == name && Defaults[k].fields[l] == Field(key, Str(default))
    requires key != "date" && (|key| < 6 || key[|key| - 6] != 'v') && path == name + "_" + key
    ensures var u := FillFrom(Defaults, 0, 0, files).value;
      |u| == 4 && |u[k].fields| == |Defaults[k].fields| &&
      u[k].fields[l] == Field(key, Str(ReadOr(files, path, default)))
  {
    FilledAt(files, k, l, name, Field(key, Str(default)));
    PlainPath(name, key, path);
    var v := FillFrom(Defaults, 0, 0, files).value[k].fields[l].value;
    PlainValue(name, Field(key, Str(default)), files, v);
  }

  /** The laptop name is built from product_name and product_family. */
  lemma ProductFields(files: map<string, string>)
    requires FillFrom(Defaults, 0, 0, files).Ok?
    ensures var u := FillFrom(Defaults, 0, 0, files).value;
      Shaped(u) &&
      LaptopLabel(u) == ReadOr(files, "product_name", "") + " (" + ReadOr(files, "product_family", "") + ")"
  {
    FilledShaped(files);
    var u := FillFrom(Defaults, 0, 0, files).value;
    LabelFields(u);
    ProductFamily(files);
    ProductName(files);
  }

  lemma LabelFields(u: seq<Section>)
    requires Shaped(u)
    ensures LaptopLabel(u) == u[ProductAt].fields[1].value.s + " (" + u[ProductAt].fields[0].value.s + ")"
  {
    var p := u[ProductAt].fields;
    assert p[0].key == "family" && p[1].key == "name";
    assert Get(p, "family") == Some(p[0].value);
    assert Get(p, "name") == Some(p[1].value);
  }

  lemma ProductFamily(files: map<string, string>)
    requires FillFrom(Defaults, 0, 0, files).Ok?
    ensures var u := FillFrom(Defaults, 0, 0, files).value;
      |u| == 4 && |u[ProductAt].fields| == 2 &&
      u[ProductAt].fields[0].value == Str(ReadOr(files, "product_family", ""))
  {
    PlainFieldAt(files, ProductAt, 0, "product", "family", "", "product_family");
  }

  lemma ProductName(files: map<string, string>)
    requires FillFrom(Defaults, 0, 0, files).Ok?
    ensures var u := FillFrom(Defaults, 0, 0, files).value;
      |u| == 4 && |u[ProductAt].fields| == 2 &&
      u[ProductAt].fields[1].value == Str(ReadOr(files, "product_name", ""))
  {
    PlainFieldAt(files, ProductAt, 1, "product", "name", "", "product_name");
  }

  /** A plain field reads its file, or keeps its default. */
  /** A field whose file is missing or blank keeps the value it had. */
  lemma MissingKeepsValue(section: string, f: Field, files: map<string, string>)
    requires FilePath(section, f.key) !in files || Strip(files[FilePath(section, f.key)]) == ""
    ensures FillValue(section, f, files) == Ok(f.value)
  {
  }

  lemma PlainValue(section: string, f: Field, files: map<string, string>, v: Value)
    requires f.key != "date" && !EndsWith(f.key, "vendor") && f.value.Str?
    requires FillValue(section, f, files) == Ok(v)
    ensures v == Str(ReadOr(files, FilePath(section, f.key), f.value.s))
  {
  }

  /** A missing or blank file leaves the default value in place. */
  lemma MissingFileKeepsDefault(files: map<string, string>, k: nat, l: nat)
    requires FillFrom(Defaults, 0, 0, files).Ok?
    requires k < |Defaults| && l < |Defaults[k].fields|
    requires Content(files, FilePath(Defaults[k].name, Defaults[k].fields[l].key)).None?
    ensures var u := FillFrom(Defaults, 0, 0, files).value;
      k < |u| && l < |u[k].fields| && u[k].fields[l] == Defaults[k].fields[l]
  {
    FilledField(files, k, l);
  }

  /** A vendor file sets only the name of the vendor sub-record; its vendorid
      stays empty. */
  lemma VendorFillsName(files: map<string, string>, k: nat, l: nat)
    requires FillFrom(Defaults, 0, 0, files).Ok?
    requires k < |Defaults| && l < |Defaults[k].fields|
    requires EndsWith(Defaults[k].fields[l].key, "vendor")
    ensures var u := FillFrom(Defaults, 0, 0, files).value;
      k < |u| && l < |u[k].fields| &&
      u[k].fields[l].value == Vendor(ReadOr(files, Defaults[k].fields[l].key, "_none_"), "")
  {
    FilledField(files, k, l);
    DefaultVendor(k, l);
    var u := FillFrom(Defaults, 0, 0, files).value;
    VendorValue(Defaults[k].name, Defaults[k].fields[l], files, u[k].fields[l].value);
  }

  /** Every vendor field of the defaults is `{"name": "_none_", "vendorid": ""}`. */
  lemma DefaultVendor(k: nat, l: nat)
    requires k < |Defaults| && l < |Defaults[k].fields|
    requires EndsWith(Defaults[k].fields[l].key, "vendor")
    ensures Defaults[k].fields[l].value == NoVendor
  {
    DefaultVendorKeys();
    assert k == BoardAt || k == BiosAt || k == ChassisAt || k == ProductAt;
  }

  /** A vendor sub-record takes the content of the file named by its key as
      its name and keeps its vendorid. */
  lemma VendorValue(section: string, f: Field, files: map<string, string>, v: Value)
    requires EndsWith(f.key, "vendor") && f.value == NoVendor
    requires FillValue(section, f, files) == Ok(v)
    ensures v == Vendor(ReadOr(files, f.key, "_none_"), "")
  {
    assert f.key != "date";
  }

  /** Any other file replaces the default string with its stripped content,
      and the BIOS date with its ISO 8601 spelling. */
  lemma PlainFieldFromFile(files: map<string, string>, k: nat, l: nat, data: string)
    requires FillFrom(Defaults, 0, 0, files).Ok?
    requires k < |Defaults| && l < |Defaults[k].fields|
    requires !EndsWith(Defaults[k].fields[l].key, "vendor")
    requires Content(files, FilePath(Defaults[k].name, Defaults[k].fields[l].key)) == Some(data)
    ensures var u := FillFrom(Defaults, 0, 0, files).value;
      k < |u| && l < |u[k].fields| &&
      if Defaults[k].fields[l].key == "date" then
        Dates.ConvertDate(data).Some? && u[k].fields[l].value == Str(Dates.ConvertDate(data).value)
      else u[k].fields[l].value == Str(data)
  {
    FilledField(files, k, l);
  }

  /** A field other than a date fails only when a vendor key holds a string. */
  lemma OnlyDatesFail(section: string, f: Field, files: map<string, string>)
    requires f.key != "date"
    requires EndsWith(f.key, "vendor") ==> f.value.Vendor?
    ensures FillValue(section, f, files).Ok?
  {
  }

  /** The BIOS date field fails exactly when bios_date is not a valid date. */
  lemma DateFieldFails(files: map<string, string>)
    ensures FillValue("bios", Field("date", Str("")), files).Err? <==>
      Content(files, "bios_date").Some? && Dates.ConvertDate(Content(files, "bios_date").value).None?
  {
    assert FilePath("bios", "date") == "bios_date";
  }

  /** parse_hardware raises exactly when bios_date holds text that is not a
      valid `MM/DD/YYYY` date. */
  lemma HardwareFailsIff(files: map<string, string>)
    ensures ParseHardwareSpec(files).Err? <==>
      Content(files, "bios_date").Some? && Dates.ConvertDate(Content(files, "bios_date").value).None?
  {
    assert ParseHardwareSpec(files).Err? <==> FillFrom(Defaults, 0, 0, files).Err?;
    FillFromErr(Defaults, 0, 0, files);
    DateFieldFails(files);
    assert Defaults[BiosAt] == Section("bios", Defaults[BiosAt].fields);
    assert Defaults[BiosAt].fields[0] == Field("date", Str(""));
    forall k, l | 0 <= k < |Defaults| && 0 <= l < |Defaults[k].fields| && (k, l) != (BiosAt, 0)
      ensures FillValue(Defaults[k].name, Defaults[k].fields[l], files).Ok?
    {
      DefaultVendorKeys();
      DefaultDateKey();
      OnlyDatesFail(Defaults[k].name, Defaults[k].fields[l], files);
    }
    if FailsFrom(Defaults, 0, 0, files) {
      var k: nat, l: nat :| FailsAt(Defaults, k, l, files);
      assert (k, l) == (BiosAt, 0);
    }
    if Content(files, "bios_date").Some? && Dates.ConvertDate(Content(files, "bios_date").value).None? {
      assert FailsAt(Defaults, BiosAt, 0, files) && !Before(BiosAt, 0, 0, 0);
    }
  }

  /** A readable BIOS date comes back in ISO 8601 form in the bios section,
      which the laptop override never drops. */
  lemma BiosDateIso(files: map<string, string>, text: string, iso: string)
    requires Content(files, "bios_date") == Some(text)
    requires Dates.ConvertDate(text) == Some(iso)
    ensures ParseHardwareSpec(files).Ok?
    ensures var h := ParseHardwareSpec(files).value.sections;
      |h| >= 2 && h[BiosAt].name == "bios" && |h[BiosAt].fields| == 4 &&
      h[BiosAt].fields[0] == Field("date", Str(iso))
  {
    HardwareFailsIff(files);
    SpecIsOverride(files);
    var u := FillFrom(Defaults, 0, 0, files).value;
    OverrideShape(u);
    FilledBiosDate(files, text, iso);
  }

  lemma FilledBiosDate(files: map<string, string>, text: string, iso: string)
    requires FillFrom(Defaults, 0, 0, files).Ok?
    requires Content(files, "bios_date") == Some(text)
    requires Dates.ConvertDate(text) == Some(iso)
    ensures var u := FillFrom(Defaults, 0, 0, files).value;
      |u| == 4 && u[BiosAt].name == "bios" && |u[BiosAt].fields| == 4 &&
      u[BiosAt].fields[0] == Field("date", Str(iso))
  {
    BiosDateField(files);
    var v := FillFrom(Defaults, 0, 0, files).value[BiosAt].fields[0].value;
    BiosDatePath(files, text);
    DateValue("bios", Field("date", Str("")), files, v, text);
  }

  lemma BiosDatePath(files: map<string, string>, text: string)
    requires Content(files, "bios_date") == Some(text)
    ensures Content(files, FilePath("bios", "date")) == Some(text)
  {
    PlainPath("bios", "date", "bios_date");
  }

  lemma BiosDateField(files: map<string, string>)
    requires FillFrom(Defaults, 0, 0, files).Ok?
    ensures var u := FillFrom(Defaults, 0, 0, files).value;
      |u| == 4 && u[BiosAt].name == "bios" && |u[BiosAt].fields| == 4 && u[BiosAt].fields[0].key == "date" &&
      FillValue("bios", Field("date", Str("")), files) == Ok(u[BiosAt].fields[0].value)
  {
    FilledAt(files, BiosAt, 0, "bios", Field("date", Str("")));
  }

  /** A date field read from a file takes the date's ISO spelling. */
  lemma DateValue(section: string, f: Field, files: map<string, string>, v: Value, text: string)
    requires f.key == "date"
    requires FillValue(section, f, files) == Ok(v)
    requires Content(files, FilePath(section, f.key)) == Some(text)
    ensures Dates.ConvertDate(text).Some? && v == Str(Dates.ConvertDate(text).value)
  {
  }
}
