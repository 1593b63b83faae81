// parse_lspci_output (generate_data.py:122-181): reads the records of
// `lspci -nnvmm` line by line and files every device under the IOMMU group
// its record names, appending to the "groups" list of the structure in place.

module Lspci {
  import opened Common
  import opened PyStr
  import opened Records

  /** A fresh group accumulator: `{"devices": [], "iommugroup": None}`. */
  const EmptyGroup := Group(None, [], [])

  /** The loop's variables: the groups of the structure, the group
      accumulator (`devices` in the source) and the device being read. */
  datatype State = State(groups: seq<Group>, group: Group, device: Device)

  /** How the loop ends: after the last line, or with an IndexError raised on
      a line without a colon, leaving the groups committed so far. */
  datatype Outcome = Finished(last: State) | Raised(committed: seq<Group>)
  {
    function Groups(): seq<Group>
    {
      match this
      case Finished(s) => s.groups
      case Raised(g) => g
    }
  }

  function Start(groups: seq<Group>): State
  {
    State(groups, EmptyGroup, [])
  }

  // ---------------------------------------------------------------------
  // One line.

  /** Field names are lower-cased, and "class" becomes "dev_class". */
  function NormalizeKey(raw: string): (key: string)
    ensures key != "class"
    ensures forall k | 0 <= k < |key| :: !IsUpper(key[k])
    ensures key == Lower(raw) || (Lower(raw) == "class" && key == "dev_class")
  {
    var key := Lower(raw);
    if key == "class" then "dev_class" else key
  }

  /** `re.match(r"\[[\s\w]{4}\]", s)` on a six-character string. */
  predicate IsBracketId(s: string)
  {
    |s| == 6 && s[0] == '[' && s[5] == ']' &&
    forall k | 1 <= k <= 4 :: IsSpace(s[k]) || IsWordChar(s[k])
  }

  /** The value stored for `key`: a vendor field whose text ends in a
      bracketed four-character id becomes `{name, vendorid}`. */
  function SplitVendor(key: string, value: string): (v: Value)
    ensures v.Vendor? <==>
      EndsWith(key, "vendor") && |value| > 6 && IsBracketId(value[|value| - 6..])
    ensures v.Str? ==> v == Str(value)
    ensures v.Vendor? ==>
      |v.vendorid| == 4 && |value| == |v.name| + 7 &&
      value == v.name + [value[|v.name|]] + "[" + v.vendorid + "]"
  {
    if |value| > 6 && EndsWith(key, "vendor") && IsBracketId(value[|value| - 6..]) then
      var n := |value|;
      assert value == value[..n - 7] + [value[n - 7]] + "[" + value[n - 5..n - 1] + "]";
      Vendor(value[..n - 7], value[n - 5..n - 1])
    else Str(value)
  }

  /** `devices.update({key: value})` for a key starting with "iommugroup". */
  function SetGroupAttr(acc: Group, key: string, value: string): Group
  {
    if key == "iommugroup" then acc.(iommugroup := Some(value))
    else acc.(attrs := Put(acc.attrs, key, Str(value)))
  }

  /** A line the source cannot split: not empty, and no colon once the tabs are gone. */
  predicate Malformed(line: string)
  {
    line != "" && ':' !in RemoveTabs(line)
  }

  /** The key and value of a well-formed line, split at the first colon. */
  function KeyValue(line: string): (kv: (string, string))
    requires !Malformed(line) && line != ""
    ensures ':' !in kv.0 && RemoveTabs(line) == kv.0 + ":" + kv.1
  {
    var l := RemoveTabs(line);
    var k := IndexOf(l, ':');
    assert l == l[..k] + ":" + l[k + 1..];
    (l[..k], l[k + 1..])
  }

  /** Reading a non-empty line, or None when it raises IndexError. */
  function ReadLine(st: State, line: string): (r: Option<State>)
    requires line != ""
    ensures r.None? <==> Malformed(line)
    ensures r.Some? ==> r.value.groups == st.groups
    ensures r.Some? ==> r.value.group == st.group || r.value.device == st.device
  {
    if Malformed(line) then None
    else
      var (raw, value) := KeyValue(line);
      var key := NormalizeKey(raw);
      if StartsWith(key, "iommugroup") then Some(st.(group := SetGroupAttr(st.group, key, value)))
      else Some(st.(device := Put(st.device, key, SplitVendor(key, value))))
  }

  // ---------------------------------------------------------------------
  // The blank line that ends a record.

  /** Some group of `groups` has this iommugroup. */
  predicate HasGroup(groups: seq<Group>, id: Option<string>)
  {
    exists g <- groups :: g.iommugroup == id
  }

  function AddDevice(g: Group, id: Option<string>, d: Device): Group
  {
    if g.iommugroup == id then g.(devices := g.devices + [d]) else g
  }

  /** `group["devices"].append(device)` for every group whose iommugroup matches. */
  function AppendMatching(groups: seq<Group>, id: Option<string>, d: Device): (r: seq<Group>)
    ensures |r| == |groups|
  {
    seq(|groups|, k requires 0 <= k < |groups| => AddDevice(groups[k], id, d))
  }

  /** Files device `d` read under accumulator `acc`: appended to the group
      with the same iommugroup, or a new group made of `acc` when none matches. */
  function Commit(groups: seq<Group>, acc: Group, d: Device): (r: seq<Group>)
    ensures |r| == if HasGroup(groups, acc.iommugroup) then |groups| else |groups| + 1
    ensures forall k | 0 <= k < |groups| :: r[k].iommugroup == groups[k].iommugroup && r[k].attrs == groups[k].attrs
    ensures HasGroup(r, acc.iommugroup)
  {
    if !HasGroup(groups, acc.iommugroup) then groups + [acc.(devices := acc.devices + [d])]
    else AppendMatching(groups, acc.iommugroup, d)
  }

  /** A blank line: an empty device is skipped (the group accumulator is
      kept), otherwise the device is committed and both accumulators reset. */
  function Blank(st: State): (r: State)
    ensures r.device == []
    ensures st.device == [] ==> r == st
    ensures st.device != [] ==> r.group == EmptyGroup && |r.groups| >= |st.groups|
  {
    if st.device == [] then st
    else State(Commit(st.groups, st.group, st.device), EmptyGroup, [])
  }

  function Step(st: State, line: string): Option<State>
  {
    if line == "" then Some(Blank(st)) else ReadLine(st, line)
  }

  /** The loop of parse_lspci_output over the remaining lines. */
  function Run(st: State, lines: seq<string>): (r: Outcome)
    ensures |r.Groups()| >= |st.groups|
    decreases |lines|
  {
    if lines == [] then Finished(st)
    else
      match Step(st, lines[0])
      case None => Raised(st.groups)
      case Some(next) => Run(next, lines[1..])
  }

  /** What parse_lspci_output does to `structure["groups"]`. */
  function ParseSpec(output: string, groups: seq<Group>): (r: Outcome)
    ensures |r.Groups()| >= |groups|
  {
    Run(Start(groups), SplitLines(output))
  }

  // ---------------------------------------------------------------------
  // The structure the source updates in place.

  /** The dict built by parse_hardware: its sections and its "groups" list. */
  class Structure {
    var sections: seq<Section>
    var groups: seq<Group>

    constructor (sections: seq<Section>, groups: seq<Group>)
      ensures this.sections == sections && this.groups == groups
    {
      this.sections := sections;
      this.groups := groups;
    }
  }

  /** generate_data.py:122-181. Returns the same structure, or None where the
      source raises IndexError; the groups are then those committed before. */
  method ParseLspciOutput(output: string, structure: Structure) returns (result: Option<Structure>)
    modifies structure`groups
    ensures structure.groups == ParseSpec(output, old(structure.groups)).Groups()
    ensures result.Some? <==> ParseSpec(output, old(structure.groups)).Finished?
    ensures result.Some? ==> result.value == structure
    ensures structure.sections == old(structure.sections)
  {
    var lines := SplitLines(output);
    var group := EmptyGroup;
    var device: Device := [];
    var i := 0;
    while i < |lines|
      invariant 0 <= i <= |lines|
      invariant ParseSpec(output, old(structure.groups)) == Run(State(structure.groups, group, device), lines[i..])
    {
      assert lines[i..] == [lines[i]] + lines[i + 1..];
      var line := lines[i];
      if line != "" {
        var l := RemoveTabs(line);
        if ':' !in l {
          return None;
        }
        var k := IndexOf(l, ':');
        var key := NormalizeKey(l[..k]);
        var value := l[k + 1..];
        assert (l[..k], value) == KeyValue(line);
        if StartsWith(key, "iommugroup") {
          group := SetGroupAttr(group, key, value);
        } else {
          device := Put(device, key, SplitVendor(key, value));
        }
      } else if device != [] {
        if !HasGroup(structure.groups, group.iommugroup) {
          group := group.(devices := group.devices + [device]);
          structure.groups := structure.groups + [group];
        } else {
          ghost var before := structure.groups;
          var j := 0;
          while j < |structure.groups|
            invariant 0 <= j <= |structure.groups| == |before|
            invariant forall n | 0 <= n < j :: structure.groups[n] == AddDevice(before[n], group.iommugroup, device)
            invariant forall n | j <= n < |before| :: structure.groups[n] == before[n]
          {
            if structure.groups[j].iommugroup == group.iommugroup {
              var g := structure.groups[j];
              structure.groups := structure.groups[j := g.(devices := g.devices + [device])];
            }
            j := j + 1;
          }
          assert structure.groups == AppendMatching(before, group.iommugroup, device);
        }
        group := EmptyGroup;
        device := [];
      }
      i := i + 1;
    }
    return Some(structure);
  }
}
