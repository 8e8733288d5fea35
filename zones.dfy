/** The passes `simulate` makes over the copied geometry (REVIVE2024/simulate.py): the
    fenestration pass that collects window names, the zone pass that renames each zone
    to its base name and collects the dwelling units, and the later annual pass that
    looks for the units again. Zone names have the form "base|type|bedrooms...". */
module Zones {
  import opened Common
  import opened Text
  import opened Setup

  // ---------------------------------------------------------------------------
  // Zone names

  /** `zone.Name.split('|')[0]`. */
  function BaseName(name: string): string {
    Split(name, "|")[0]
  }

  /** `zone_name[1] if len(zone_name) > 1 else ""`. */
  function ZoneType(name: string): string {
    var parts := Split(name, "|");
    if |parts| > 1 then parts[1] else ""
  }

  predicate IsUnit(name: string) {
    Contains(ZoneType(name), "UNIT")
  }

  /** The bedroom count `float(zone_name[2][0])`, used as a key of the heat-gain table,
      whose keys are 0 to 8: a missing third segment or an empty one is an IndexError, a
      character that is not a digit a ValueError, and the digit 9 a KeyError. */
  function Bedrooms(name: string): (r: Result<nat>)
    ensures var parts := Split(name, "|");
            && (r.Ok? <==> |parts| > 2 && |parts[2]| > 0 && '0' <= parts[2][0] <= '8')
            && (r.Ok? ==> r.value <= 8 && r.value == parts[2][0] as int - '0' as int)
            && (|parts| <= 2 || |parts[2]| == 0 ==> r == Err(IndexOutOfRange))
            && (|parts| > 2 && |parts[2]| > 0 && !('0' <= parts[2][0] <= '9') ==> r == Err(NotANumber([parts[2][0]])))
            && (|parts| > 2 && |parts[2]| > 0 && parts[2][0] == '9' ==> r == Err(KeyMissing("9.0")))
  {
    var parts := Split(name, "|");
    if |parts| <= 2 || |parts[2]| == 0 then Err(IndexOutOfRange)
    else
      var c := parts[2][0];
      if !('0' <= c <= '9') then Err(NotANumber([c]))
      else if c == '9' then Err(KeyMissing("9.0"))
      else Ok(c as int - '0' as int)
  }

  /** A base name holds no '|', so it has no type and is never a unit. */
  lemma BaseNameHasNoType(name: string)
    ensures !Contains(BaseName(name), "|")
    ensures ZoneType(BaseName(name)) == "" && !IsUnit(BaseName(name))
  {
    SplitPartsFree(name, "|", 0);
    SplitWithoutSeparator(BaseName(name), "|");
    assert !OccursAt("UNIT", "", 0);
  }

  /** The base name is the start of the zone name; a name without '|' is its own base
      name and has no type. */
  lemma BaseNameOfPlainName(name: string)
    ensures StartsWith(name, BaseName(name))
    ensures !Contains(name, "|") ==> BaseName(name) == name && ZoneType(name) == ""
  {
    SplitHeadIsPrefix(name, "|");
    if !Contains(name, "|") {
      SplitWithoutSeparator(name, "|");
    }
  }

  /** The base names of the unit zones, in zone order. */
  function UnitNames(names: seq<string>): (r: seq<string>)
    ensures |r| <= |names|
  {
    if |names| == 0 then []
    else UnitNames(names[..|names| - 1]) + if IsUnit(names[|names| - 1]) then [BaseName(names[|names| - 1])] else []
  }

  /** The unit list holds the base name of every unit zone and nothing else. */
  lemma {:induction false} UnitNamesMembers(names: seq<string>)
    ensures forall x :: x in UnitNames(names) <==> exists i :: 0 <= i < |names| && IsUnit(names[i]) && x == BaseName(names[i])
  {
    if |names| > 0 {
      var init := names[..|names| - 1];
      UnitNamesMembers(init);
      assert forall i :: 0 <= i < |init| ==> init[i] == names[i];
    }
  }

  /** What the zone pass leaves behind: the unit list and the occupancy `occ`. */
  datatype ZoneScan = ZoneScan(units: seq<string>, occ: int)

  /** The zone pass over the first zones, with `defaultOcc` the run list's bedrooms
      plus one: each unit zone appends its base name and sets `occ` to one more than its
      bedroom count. */
  function Scan(names: seq<string>, defaultOcc: int): Result<ZoneScan>
  {
    if |names| == 0 then Ok(ZoneScan([], defaultOcc))
    else match Scan(names[..|names| - 1], defaultOcc)
      case Err(f) => Err(f)
      case Ok(s) =>
        var last := names[|names| - 1];
        if !IsUnit(last) then Ok(s)
        else match Bedrooms(last)
          case Err(f) => Err(f)
          case Ok(b) => Ok(ZoneScan(s.units + [BaseName(last)], 1 + b))
  }

  /** The pass succeeds exactly when every unit zone has a usable bedroom count; it
      then lists the unit zones' base names in order, and `occ` comes from the last unit
      zone (or is the default when there is none). */
  lemma ScanMeaning(names: seq<string>, defaultOcc: int)
    ensures Scan(names, defaultOcc).Ok? <==> forall i :: 0 <= i < |names| && IsUnit(names[i]) ==> Bedrooms(names[i]).Ok?
    ensures Scan(names, defaultOcc).Ok? ==> Scan(names, defaultOcc).value.units == UnitNames(names)
    ensures (Scan(names, defaultOcc).Ok? && forall i :: 0 <= i < |names| ==> !IsUnit(names[i])) ==>
              Scan(names, defaultOcc).value.occ == defaultOcc
    ensures Scan(names, defaultOcc).Ok? ==>
              forall i :: (0 <= i < |names| && IsUnit(names[i]) && forall j :: i < j < |names| ==> !IsUnit(names[j])) ==>
                Scan(names, defaultOcc).value.occ == 1 + Bedrooms(names[i]).value
  {
    ScanSucceeds(names, defaultOcc);
    if Scan(names, defaultOcc).Ok? {
      ScanUnits(names, defaultOcc);
      if forall i :: 0 <= i < |names| ==> !IsUnit(names[i]) {
        ScanOccDefault(names, defaultOcc);
      }
      forall i | 0 <= i < |names| && IsUnit(names[i]) && forall j :: i < j < |names| ==> !IsUnit(names[j])
        ensures Scan(names, defaultOcc).value.occ == 1 + Bedrooms(names[i]).value
      {
        ScanOccLast(names, defaultOcc, i);
      }
    }
  }

  lemma {:induction false} ScanSucceeds(names: seq<string>, defaultOcc: int)
    ensures Scan(names, defaultOcc).Ok? <==> forall i :: 0 <= i < |names| && IsUnit(names[i]) ==> Bedrooms(names[i]).Ok?
  {
    if |names| > 0 {
      var init, last := names[..|names| - 1], names[|names| - 1];
      assert forall i :: 0 <= i < |init| ==> init[i] == names[i];
      ScanSucceeds(init, defaultOcc);
    }
  }

  lemma {:induction false} ScanUnits(names: seq<string>, defaultOcc: int)
    requires Scan(names, defaultOcc).Ok?
    ensures Scan(names, defaultOcc).value.units == UnitNames(names)
  {
    if |names| > 0 {
      var init, last := names[..|names| - 1], names[|names| - 1];
      ScanUnits(init, defaultOcc);
    }
  }

  /** Without unit zones `occ` keeps its default. */
  lemma {:induction false} ScanOccDefault(names: seq<string>, defaultOcc: int)
    requires Scan(names, defaultOcc).Ok? && forall i :: 0 <= i < |names| ==> !IsUnit(names[i])
    ensures Scan(names, defaultOcc).value.occ == defaultOcc
  {
    if |names| > 0 {
      var init := names[..|names| - 1];
      assert forall i :: 0 <= i < |init| ==> init[i] == names[i];
      ScanOccDefault(init, defaultOcc);
    }
  }

  /** `occ` comes from the last unit zone. */
  lemma {:induction false} ScanOccLast(names: seq<string>, defaultOcc: int, i: nat)
    requires Scan(names, defaultOcc).Ok? && i < |names| && IsUnit(names[i])
    requires forall j :: i < j < |names| ==> !IsUnit(names[j])
    ensures Bedrooms(names[i]).Ok? && Scan(names, defaultOcc).value.occ == 1 + Bedrooms(names[i]).value
  {
    var init, last := names[..|names| - 1], names[|names| - 1];
    if i < |names| - 1 {
      assert forall j :: i < j < |init| ==> init[j] == names[j];
      assert init[i] == names[i];
      ScanOccLast(init, defaultOcc, i);
    }
  }

  /** The zone pass (simulate.py, the loop over `modeled_zones`): renames every zone to
      its base name in place and collects the unit list; the first unusable bedroom
      count raises and ends the pass. */
  method RenameZones(zones: array<string>, defaultOcc: int) returns (r: Result<ZoneScan>)
    modifies zones
    ensures r == Scan(old(zones[..]), defaultOcc)
    ensures r.Ok? ==> forall i :: 0 <= i < zones.Length ==> zones[i] == BaseName(old(zones[i]))
  {
    ghost var original := zones[..];
    var units: seq<string> := [];
    var occ := defaultOcc;
    var i := 0;
    while i < zones.Length
      invariant 0 <= i <= zones.Length
      invariant Scan(original[..i], defaultOcc) == Ok(ZoneScan(units, occ))
      invariant forall j :: 0 <= j < i ==> zones[j] == BaseName(original[j])
      invariant forall j :: i <= j < zones.Length ==> zones[j] == original[j]
    {
      var name := zones[i];
      assert name == original[i];
      ScanStep(original, i, defaultOcc);
      zones[i] := BaseName(name);
      if IsUnit(name) {
        units := units + [BaseName(name)];
        var b := Bedrooms(name);
        if b.Err? {
          ScanErrStays(original, i, defaultOcc);
          return Err(b.fault);
        }
        occ := 1 + b.value;
      }
      i := i + 1;
    }
    assert original[..i] == original;
    return Ok(ZoneScan(units, occ));
  }

  /** The pass over one more zone. */
  lemma ScanStep(names: seq<string>, i: nat, defaultOcc: int)
    requires i < |names|
    ensures Scan(names[..i + 1], defaultOcc) ==
            match Scan(names[..i], defaultOcc)
            case Err(f) => Err(f)
            case Ok(s) =>
              if !IsUnit(names[i]) then Ok(s)
              else match Bedrooms(names[i])
                case Err(f) => Err(f)
                case Ok(b) => Ok(ZoneScan(s.units + [BaseName(names[i])], 1 + b))
  {
    assert names[..i + 1][..i] == names[..i];
  }

  /** Once the pass over a prefix fails, so does the pass over the whole list. */
  lemma {:induction false} ScanErrStays(names: seq<string>, i: nat, defaultOcc: int)
    requires i < |names| && Scan(names[..i + 1], defaultOcc).Err?
    ensures Scan(names, defaultOcc) == Scan(names[..i + 1], defaultOcc)
    decreases |names| - i
  {
    if i + 1 < |names| {
      assert names[..i + 2][..i + 1] == names[..i + 1];
      ScanErrStays(names, i + 1, defaultOcc);
    } else {
      assert names[..i + 1] == names;
    }
  }

  // ---------------------------------------------------------------------------
  // The annual pass

  /** The annual pass as written (simulate.py, the loop before the cost builder): it
      splits each zone's CURRENT name again and adds an annual ERV to every unit zone. */
  method AnnualErvZonesAsWritten(zones: array<string>) returns (erv: seq<string>)
    ensures erv == UnitNames(zones[..])
  {
    erv := [];
    var i := 0;
    while i < zones.Length
      invariant 0 <= i <= zones.Length
      invariant erv == UnitNames(zones[..i])
    {
      assert zones[..i + 1][..i] == zones[..i];
      if IsUnit(zones[i]) {
        erv := erv + [BaseName(zones[i])];
      }
      i := i + 1;
    }
    assert zones[..i] == zones[..];
  }

  /** Names that hold no '|' contain no unit zones. */
  lemma {:induction false} NoUnitsAfterRename(names: seq<string>)
    requires forall i :: 0 <= i < |names| ==> !Contains(names[i], "|")
    ensures UnitNames(names) == []
  {
    if |names| > 0 {
      var last := names[|names| - 1];
      SplitWithoutSeparator(last, "|");
      assert !OccursAt("UNIT", "", 0);
      NoUnitsAfterRename(names[..|names| - 1]);
    }
  }

  /** After the zone pass has renamed the zones, the annual pass finds no unit zone, so
      no annual ERV is ever added, whatever the geometry file holds; e.g. a single zone
      "Zone 1|UNIT|2" is a unit before renaming and not after. */
  lemma AnnualErvLost(original: seq<string>, renamed: seq<string>)
    requires |renamed| == |original| && forall i :: 0 <= i < |original| ==> renamed[i] == BaseName(original[i])
    ensures UnitNames(renamed) == []
    ensures UnitNames(["Zone 1|UNIT|2"]) == ["Zone 1"]
  {
    forall i | 0 <= i < |renamed| ensures !Contains(renamed[i], "|") {
      BaseNameHasNoType(original[i]);
    }
    NoUnitsAfterRename(renamed);
    UnitZoneExample();
  }

  lemma UnitZoneExample()
    ensures UnitNames(["Zone 1|UNIT|2"]) == ["Zone 1"]
  {
    var name := "Zone 1|UNIT|2";
    assert OccursAt("|", name, 6);
    forall j | 0 <= j < 6 ensures !OccursAt("|", name, j) {
      assert name[j..j + 1][0] == name[j] != '|';
    }
    assert IndexOf(name, "|") == Some(6);
    var rest := name[7..];
    assert rest == "UNIT|2";
    assert OccursAt("|", rest, 4);
    forall j | 0 <= j < 4 ensures !OccursAt("|", rest, j) {
      assert rest[j..j + 1][0] == rest[j] != '|';
    }
    assert IndexOf(rest, "|") == Some(4);
    assert Split(name, "|") == [name[..6]] + Split(rest, "|");
    assert Split(rest, "|") == [rest[..4]] + Split(rest[5..], "|");
    assert BaseName(name) == "Zone 1" && ZoneType(name) == "UNIT";
    assert OccursAt("UNIT", "UNIT", 0);
    assert UnitNames([name]) == UnitNames([]) + [BaseName(name)];
  }

  /** The annual pass as intended: it selects the unit zones by the names read from
      the geometry file, i.e. the same zones the resilience model gives an ERV. */
  method AnnualErvZones(geometryNames: seq<string>) returns (erv: seq<string>)
    ensures erv == UnitNames(geometryNames)
    ensures forall defaultOcc :: Scan(geometryNames, defaultOcc).Ok? ==> erv == Scan(geometryNames, defaultOcc).value.units
  {
    erv := [];
    var i := 0;
    while i < |geometryNames|
      invariant 0 <= i <= |geometryNames|
      invariant erv == UnitNames(geometryNames[..i])
    {
      assert geometryNames[..i + 1][..i] == geometryNames[..i];
      if IsUnit(geometryNames[i]) {
        erv := erv + [BaseName(geometryNames[i])];
      }
      i := i + 1;
    }
    assert geometryNames[..i] == geometryNames;
    forall defaultOcc | Scan(geometryNames, defaultOcc).Ok? ensures erv == Scan(geometryNames, defaultOcc).value.units {
      ScanUnits(geometryNames, defaultOcc);
    }
  }

  // ---------------------------------------------------------------------------
  // Window names

  /** A fenestration surface of the geometry file. */
  datatype Fenestration = Fenestration(name: string, surfaceType: string)

  /** The names of the window surfaces, in file order. */
  function WindowNames(fens: seq<Fenestration>): (r: seq<string>)
    ensures |r| <= |fens|
  {
    if |fens| == 0 then []
    else WindowNames(fens[..|fens| - 1]) + if fens[|fens| - 1].surfaceType == "Window" then [fens[|fens| - 1].name] else []
  }

  /** The window names are the names of the window surfaces and nothing else. */
  lemma {:induction false} WindowNamesMembers(fens: seq<Fenestration>)
    ensures forall x :: x in WindowNames(fens) <==> exists i :: 0 <= i < |fens| && fens[i].surfaceType == "Window" && fens[i].name == x
  {
    if |fens| > 0 {
      var init := fens[..|fens| - 1];
      WindowNamesMembers(init);
      assert forall i :: 0 <= i < |init| ==> init[i] == fens[i];
    }
  }

  /** The window names keep file order and multiplicity: the surfaces of a split file
      are collected part by part, and one surface contributes its name exactly when it
      is a window. */
  lemma {:induction false} WindowNamesAppend(a: seq<Fenestration>, b: seq<Fenestration>)
    ensures WindowNames(a + b) == WindowNames(a) + WindowNames(b)
    decreases |b|
  {
    if |b| == 0 {
      assert a + b == a;
    } else {
      var init, last := b[..|b| - 1], b[|b| - 1];
      assert (a + b)[..|a + b| - 1] == a + init && (a + b)[|a + b| - 1] == last;
      WindowNamesAppend(a, init);
      var tail := if last.surfaceType == "Window" then [last.name] else [];
      assert WindowNames(a + b) == WindowNames(a + init) + tail;
      assert WindowNames(b) == WindowNames(init) + tail;
    }
  }

  lemma WindowNamesSingle(f: Fenestration)
    ensures WindowNames([f]) == if f.surfaceType == "Window" then [f.name] else []
  {
    assert [f][..0] == [];
  }

  /** The fenestration pass: copies each surface, counting them, and keeps the names
      of the windows. The model's copy starts with no fenestration, so the surface at
      position `count` of the copy is the one just copied. */
  method CollectWindowNames(fens: seq<Fenestration>) returns (windowNames: seq<string>, count: int)
    ensures windowNames == WindowNames(fens)
    ensures count == |fens| - 1
  {
    count := -1;
    windowNames := [];
    var copied: seq<Fenestration> := [];
    for i := 0 to |fens|
      invariant copied == fens[..i]
      invariant count == i - 1
      invariant windowNames == WindowNames(fens[..i])
    {
      copied := copied + [fens[i]];
      count := count + 1;
      var windows := copied[count];
      assert fens[..i + 1][..i] == fens[..i];
      if windows.surfaceType == "Window" {
        windowNames := windowNames + [windows.name];
      }
    }
    assert fens[..|fens|] == fens;
  }

  /** The shading controls get the window names in chunks of ten; every window is in
      one of them and no control gets more than ten. */
  lemma ShadingChunks(fens: seq<Fenestration>)
    ensures DivideChunks(WindowNames(fens), 10).Ok?
    ensures Flatten(DivideChunks(WindowNames(fens), 10).value) == WindowNames(fens)
    ensures forall k :: 0 <= k < |DivideChunks(WindowNames(fens), 10).value| ==>
              0 < |DivideChunks(WindowNames(fens), 10).value[k]| <= 10
  {
  }
}
