// What parse_lspci_output guarantees about the groups it builds: how runs of
// lines compose, which lines raise, where each device lands, the order and
// number of devices, and the shape of every field name.

module LspciFacts {
  import opened Common
  import opened PyStr
  import opened Records
  import opened Lspci

  // ---------------------------------------------------------------------
  // Composition and blank lines.

  /** Reading `a + b` is reading `a`, then `b` from where `a` stopped. */
  lemma {:induction false} RunAppend(st: State, a: seq<string>, b: seq<string>)
    ensures Run(st, a + b) ==
      match Run(st, a)
      case Finished(s) => Run(s, b)
      case Raised(g) => Raised(g)
    decreases |a|
  {
    if a == [] {
      assert a + b == b;
    } else {
      assert (a + b)[0] == a[0] && (a + b)[1..] == a[1..] + b;
      match Step(st, a[0])
      case None =>
      case Some(next) => RunAppend(next, a[1..], b);
    }
  }

  /** A second blank line changes nothing. */
  lemma BlankTwice(st: State)
    ensures Blank(Blank(st)) == Blank(st)
  {
  }

  /** A run of blank lines acts as a single one. */
  lemma BlankRunsCollapse(st: State, a: seq<string>, b: seq<string>)
    ensures Run(st, a + ["", ""] + b) == Run(st, a + [""] + b)
  {
    assert a + ["", ""] + b == a + (["", ""] + b);
    assert a + [""] + b == a + ([""] + b);
    RunAppend(st, a, ["", ""] + b);
    RunAppend(st, a, [""] + b);
    match Run(st, a)
    case Raised(_) =>
    case Finished(s) =>
      assert (["", ""] + b)[0] == "" && (["", ""] + b)[1..] == [""] + b;
      assert ([""] + b)[0] == "" && ([""] + b)[1..] == b;
      BlankTwice(s);
  }

  /** Fields after the last blank line are never committed: lines without a
      blank one among them leave the groups as they were. */
  lemma {:induction false} TrailingFieldsNotCommitted(st: State, lines: seq<string>)
    requires forall k | 0 <= k < |lines| :: lines[k] != ""
    ensures Run(st, lines).Groups() == st.groups
    decreases |lines|
  {
    if lines != [] {
      match Step(st, lines[0])
      case None =>
      case Some(next) =>
        assert next.groups == st.groups;
        TrailingFieldsNotCommitted(next, lines[1..]);
    }
  }

  /** The loop raises exactly when some line is not empty and has no colon. */
  lemma {:induction false} RunRaisesIff(st: State, lines: seq<string>)
    ensures Run(st, lines).Raised? <==> exists k | 0 <= k < |lines| :: Malformed(lines[k])
    decreases |lines|
  {
    if lines != [] {
      AnyMalformed(lines);
      match Step(st, lines[0])
      case None =>
      case Some(next) => RunRaisesIff(next, lines[1..]);
    }
  }

  lemma AnyMalformed(lines: seq<string>)
    requires lines != []
    ensures (exists k | 0 <= k < |lines| :: Malformed(lines[k])) <==>
      Malformed(lines[0]) || exists k | 0 <= k < |lines[1..]| :: Malformed(lines[1..][k])
  {
    if exists k | 1 <= k < |lines| :: Malformed(lines[k]) {
      var k :| 1 <= k < |lines| && Malformed(lines[k]);
      assert Malformed(lines[1..][k - 1]);
    }
    if exists k | 0 <= k < |lines[1..]| :: Malformed(lines[1..][k]) {
      var k :| 0 <= k < |lines[1..]| && Malformed(lines[1..][k]);
      assert Malformed(lines[k + 1]);
    }
  }

  // ---------------------------------------------------------------------
  // Where a committed device lands.

  /** No two groups share an iommugroup. */
  predicate Distinct(groups: seq<Group>)
  {
    forall i, j | 0 <= i < j < |groups| :: groups[i].iommugroup != groups[j].iommugroup
  }

  /** A blank line after a device files it under exactly one group: the one
      with its iommugroup if there is one, else a new group at the end. */
  lemma CommitPlacesDevice(groups: seq<Group>, acc: Group, d: Device)
    requires Distinct(groups)
    ensures var r := Commit(groups, acc, d);
      Distinct(r) &&
      |r| == |groups| + (if HasGroup(groups, acc.iommugroup) then 0 else 1) &&
      (forall i | 0 <= i < |groups| && groups[i].iommugroup != acc.iommugroup :: r[i] == groups[i]) &&
      exists i | 0 <= i < |r| ::
        r[i].iommugroup == acc.iommugroup &&
        r[i].attrs == (if i < |groups| then groups[i].attrs else acc.attrs) &&
        r[i].devices == (if i < |groups| then groups[i].devices else acc.devices) + [d]
  {
    var r := Commit(groups, acc, d);
    if HasGroup(groups, acc.iommugroup) {
      var g :| g in groups && g.iommugroup == acc.iommugroup;
      var i :| 0 <= i < |groups| && groups[i] == g;
      assert r[i] == AddDevice(groups[i], acc.iommugroup, d);
    } else {
      assert r[|groups|] == acc.(devices := acc.devices + [d]);
      forall i | 0 <= i < |groups| ensures groups[i].iommugroup != acc.iommugroup {
        assert groups[i] in groups;
      }
    }
  }

  /** Two records committed one after the other with the same iommugroup
      put their devices, in that order, at the end of the one group that has it. */
  lemma SameGroupInOrder(groups: seq<Group>, acc1: Group, d1: Device, acc2: Group, d2: Device)
    requires Distinct(groups)
    requires acc1.iommugroup == acc2.iommugroup
    ensures var r := Commit(Commit(groups, acc1, d1), acc2, d2);
      Distinct(r) &&
      exists i | 0 <= i < |r| ::
        r[i].iommugroup == acc1.iommugroup &&
        r[i].devices == (if i < |groups| then groups[i].devices else acc1.devices) + [d1, d2]
  {
    var id := acc1.iommugroup;
    var r1 := Commit(groups, acc1, d1);
    CommitPlacesDevice(groups, acc1, d1);
    var i :| 0 <= i < |r1| && r1[i].iommugroup == id &&
      r1[i].devices == (if i < |groups| then groups[i].devices else acc1.devices) + [d1];
    assert HasGroup(r1, id) by { assert r1[i] in r1; }
    var r := Commit(r1, acc2, d2);
    CommitPlacesDevice(r1, acc2, d2);
    assert r[i] == AddDevice(r1[i], id, d2);
    var before := if i < |groups| then groups[i].devices else acc1.devices;
    assert r[i].devices == before + [d1] + [d2] == before + [d1, d2];
  }

  // ---------------------------------------------------------------------
  // Earlier groups are only ever extended.

  /** `b` keeps every group of `a` in place, with the same iommugroup and
      attributes, and with the devices of `a` as a prefix of its own. */
  ghost predicate Extends(a: seq<Group>, b: seq<Group>)
  {
    |a| <= |b| &&
    forall i | 0 <= i < |a| ::
      b[i].iommugroup == a[i].iommugroup && b[i].attrs == a[i].attrs &&
      |a[i].devices| <= |b[i].devices| && b[i].devices[..|a[i].devices|] == a[i].devices
  }

  lemma ExtendsTrans(a: seq<Group>, b: seq<Group>, c: seq<Group>)
    requires Extends(a, b) && Extends(b, c)
    ensures Extends(a, c)
  {
    forall i | 0 <= i < |a|
      ensures c[i].devices[..|a[i].devices|] == a[i].devices
    {
      assert c[i].devices[..|a[i].devices|] == c[i].devices[..|b[i].devices|][..|a[i].devices|];
    }
  }

  lemma CommitExtends(groups: seq<Group>, acc: Group, d: Device)
    ensures Extends(groups, Commit(groups, acc, d))
  {
    var r := Commit(groups, acc, d);
    forall i | 0 <= i < |groups|
      ensures r[i].devices[..|groups[i].devices|] == groups[i].devices
    {
      if HasGroup(groups, acc.iommugroup) {
        assert r[i] == AddDevice(groups[i], acc.iommugroup, d);
      }
    }
  }

  /** Parsing never removes, reorders or shrinks a group that was there
      before: new groups go at the end and devices are appended. */
  lemma {:induction false} RunExtends(st: State, lines: seq<string>)
    ensures Extends(st.groups, Run(st, lines).Groups())
    decreases |lines|
  {
    if lines == [] || Step(st, lines[0]).None? {
      assert Extends(st.groups, st.groups) by {
        forall i | 0 <= i < |st.groups| ensures st.groups[i].devices[..|st.groups[i].devices|] == st.groups[i].devices {
        }
      }
    } else {
      var next := Step(st, lines[0]).value;
      RunExtends(next, lines[1..]);
      if lines[0] == "" && st.device != [] {
        CommitExtends(st.groups, st.group, st.device);
      } else {
        assert next.groups == st.groups;
      }
      if next.groups == st.groups {
      } else {
        ExtendsTrans(st.groups, next.groups, Run(next, lines[1..]).Groups());
      }
    }
  }

  /** A device committed with some iommugroup, then any lines that leave
      another device read under the same iommugroup: at its blank line the
      second device goes last into the one group that received the first, and
      the first device is still where it was filed. */
  lemma SameGroupAcrossRecords(st: State, lines: seq<string>, st2: State)
    requires Distinct(st.groups) && st.device != []
    requires Run(Blank(st), lines) == Finished(st2)
    requires st2.device != [] && st2.group.iommugroup == st.group.iommugroup
    ensures var r := Blank(st2).groups;
      Distinct(r) &&
      exists i | 0 <= i < |r| ::
        FiledThenLast(r[i], st.group.iommugroup, PriorDevices(st, i), st.device, st2.device)
  {
    FirstFiled(st);
    var r1 := Blank(st).groups;
    var i :| 0 <= i < |r1| && r1[i].iommugroup == st.group.iommugroup &&
      r1[i].devices == PriorDevices(st, i) + [st.device];
    RunExtends(Blank(st), lines);
    RunKeepsDistinct(Blank(st), lines);
    JoinAfterExtends(r1, st2.groups, st2.group, st2.device, i);
    var r := Blank(st2).groups;
    PrefixThenLast(r[i], st2.groups[i].devices, PriorDevices(st, i), st.device, st2.device);
  }

  /** The blank line after `st`'s device files it in some group, after the
      devices that group held. */
  lemma FirstFiled(st: State)
    requires Distinct(st.groups) && st.device != []
    ensures Distinct(Blank(st).groups)
    ensures exists i | 0 <= i < |Blank(st).groups| ::
      Blank(st).groups[i].iommugroup == st.group.iommugroup &&
      Blank(st).groups[i].devices == PriorDevices(st, i) + [st.device]
  {
    CommitPlacesDevice(st.groups, st.group, st.device);
  }

  lemma PrefixThenLast(g: Group, held: seq<Device>, before: seq<Device>, d1: Device, d2: Device)
    requires g.devices == held + [d2]
    requires |before| + 1 <= |held| && held[..|before| + 1] == before + [d1]
    ensures FiledThenLast(g, g.iommugroup, before, d1, d2)
  {
    assert g.devices[..|before| + 1] == held[..|before| + 1];
  }

  /** The devices group `i` held when `st`'s device was committed to it. */
  function PriorDevices(st: State, i: nat): seq<Device>
  {
    if i < |st.groups| then st.groups[i].devices else st.group.devices
  }

  /** Group `g` has iommugroup `id`, and its devices are `before`, then `d1`,
      then possibly others, and `d2` last. */
  predicate FiledThenLast(g: Group, id: Option<string>, before: seq<Device>, d1: Device, d2: Device)
  {
    g.iommugroup == id && |before| + 2 <= |g.devices| &&
    g.devices[..|before| + 1] == before + [d1] && g.devices[|g.devices| - 1] == d2
  }

  /** Groups that extend `r1` receive a device for the iommugroup of group
      `i` of `r1` in that same group, after everything it already held. */
  lemma JoinAfterExtends(r1: seq<Group>, g2: seq<Group>, acc: Group, d: Device, i: nat)
    requires Extends(r1, g2) && Distinct(g2)
    requires i < |r1| && r1[i].iommugroup == acc.iommugroup
    ensures var r := Commit(g2, acc, d);
      Distinct(r) && i < |r| && r[i].iommugroup == acc.iommugroup &&
      r[i].devices == g2[i].devices + [d] &&
      |r1[i].devices| <= |g2[i].devices| && g2[i].devices[..|r1[i].devices|] == r1[i].devices
  {
    assert g2[i].iommugroup == acc.iommugroup;
    assert HasGroup(g2, acc.iommugroup) by { assert g2[i] in g2; }
    CommitPlacesDevice(g2, acc, d);
    assert Commit(g2, acc, d)[i] == AddDevice(g2[i], acc.iommugroup, d);
  }

  /** A structure without repeated iommugroups never gets one. */
  lemma {:induction false} RunKeepsDistinct(st: State, lines: seq<string>)
    requires Distinct(st.groups)
    ensures Distinct(Run(st, lines).Groups())
    decreases |lines|
  {
    if lines != [] {
      match Step(st, lines[0])
      case None =>
      case Some(next) =>
        if lines[0] == "" && st.device != [] {
          CommitPlacesDevice(st.groups, st.group, st.device);
        }
        RunKeepsDistinct(next, lines[1..]);
    }
  }

  // ---------------------------------------------------------------------
  // How many devices are filed.

  function TotalDevices(groups: seq<Group>): nat
  {
    if groups == [] then 0 else |groups[0].devices| + TotalDevices(groups[1..])
  }

  /** Number of groups with this iommugroup. */
  function CountMatching(groups: seq<Group>, id: Option<string>): nat
  {
    if groups == [] then 0
    else (if groups[0].iommugroup == id then 1 else 0) + CountMatching(groups[1..], id)
  }

  lemma {:induction false} TotalAppend(a: seq<Group>, b: seq<Group>)
    ensures TotalDevices(a + b) == TotalDevices(a) + TotalDevices(b)
  {
    if a == [] {
      assert a + b == b;
    } else {
      assert (a + b)[1..] == a[1..] + b;
      TotalAppend(a[1..], b);
    }
  }

  lemma {:induction false} TotalMatching(groups: seq<Group>, id: Option<string>, d: Device)
    ensures TotalDevices(AppendMatching(groups, id, d)) == TotalDevices(groups) + CountMatching(groups, id)
  {
    if groups != [] {
      assert AppendMatching(groups, id, d)[1..] == AppendMatching(groups[1..], id, d);
      TotalMatching(groups[1..], id, d);
    }
  }

  /** Without repeats, an iommugroup is matched by one group or by none. */
  lemma {:induction false} DistinctCount(groups: seq<Group>, id: Option<string>)
    requires Distinct(groups)
    ensures CountMatching(groups, id) == if HasGroup(groups, id) then 1 else 0
  {
    if groups != [] {
      var t := groups[1..];
      assert Distinct(t) by {
        forall i, j | 0 <= i < j < |t| ensures t[i].iommugroup != t[j].iommugroup {
          assert t[i] == groups[i + 1] && t[j] == groups[j + 1];
        }
      }
      DistinctCount(t, id);
      if groups[0].iommugroup == id {
        forall g | g in t ensures g.iommugroup != id {
          var j :| 0 <= j < |t| && t[j] == g;
          assert groups[j + 1] == g;
        }
      } else if HasGroup(groups, id) {
        var g :| g in groups && g.iommugroup == id;
        assert g in t;
      }
    }
  }

  /** A line that puts a field into the device (not an iommugroup field). */
  predicate DeviceLine(line: string)
  {
    line != "" && !Malformed(line) &&
    !StartsWith(NormalizeKey(KeyValue(line).0), "iommugroup")
  }

  /** Number of records committed while reading `lines`: blank lines reached
      while the device holds a field; `open` says it holds one at the start. */
  function CountCommits(lines: seq<string>, open: bool): nat
  {
    if lines == [] then 0
    else if lines[0] == "" then (if open then 1 else 0) + CountCommits(lines[1..], false)
    else CountCommits(lines[1..], open || DeviceLine(lines[0]))
  }

  /** Committing a device adds exactly one device to the groups. */
  lemma CommitAddsOne(groups: seq<Group>, acc: Group, d: Device)
    requires Distinct(groups) && acc.devices == []
    ensures TotalDevices(Commit(groups, acc, d)) == TotalDevices(groups) + 1
  {
    if HasGroup(groups, acc.iommugroup) {
      TotalMatching(groups, acc.iommugroup, d);
      DistinctCount(groups, acc.iommugroup);
    } else {
      assert acc.devices + [d] == [d];
      TotalAppend(groups, [acc.(devices := [d])]);
      assert TotalDevices([acc.(devices := [d])]) == 1;
    }
  }

  /** A field line leaves the groups alone and the device non-empty exactly
      when it was already or the line is a device line. */
  lemma ReadOpens(st: State, line: string)
    requires line != "" && !Malformed(line)
    ensures var next := ReadLine(st, line).value;
      next.groups == st.groups && next.group.devices == st.group.devices &&
      (next.device != [] <==> st.device != [] || DeviceLine(line))
  {
    var (raw, value) := KeyValue(line);
    var key := NormalizeKey(raw);
    if !StartsWith(key, "iommugroup") {
      assert |Put(st.device, key, SplitVendor(key, value))| > 0;
    }
  }

  /** Every committed record adds exactly one device to the structure. */
  lemma {:induction false} RunDeviceCount(st: State, lines: seq<string>)
    requires Distinct(st.groups) && st.group.devices == []
    requires Run(st, lines).Finished?
    ensures TotalDevices(Run(st, lines).last.groups) ==
      TotalDevices(st.groups) + CountCommits(lines, st.device != [])
    decreases |lines|
  {
    if lines != [] {
      var next := Step(st, lines[0]).value;
      if lines[0] == "" {
        if st.device != [] {
          CommitAddsOne(st.groups, st.group, st.device);
          CommitPlacesDevice(st.groups, st.group, st.device);
        }
      } else {
        ReadOpens(st, lines[0]);
      }
      RunDeviceCount(next, lines[1..]);
    }
  }

  /** Parsing the same text again adds its devices a second time: the
      groups differ whenever the text holds at least one record. */
  lemma ReparseDuplicates(output: string, groups: seq<Group>)
    requires Distinct(groups)
    requires ParseSpec(output, groups).Finished?
    requires CountCommits(SplitLines(output), false) > 0
    ensures var once := ParseSpec(output, groups).Groups();
      ParseSpec(output, once).Finished? &&
      TotalDevices(ParseSpec(output, once).Groups()) == TotalDevices(once) + CountCommits(SplitLines(output), false) &&
      ParseSpec(output, once).Groups() != once
  {
    var lines := SplitLines(output);
    var once := ParseSpec(output, groups).Groups();
    RunDeviceCount(Start(groups), lines);
    RunKeepsDistinct(Start(groups), lines);
    RunRaisesIff(Start(groups), lines);
    RunRaisesIff(Start(once), lines);
    RunDeviceCount(Start(once), lines);
  }

  // ---------------------------------------------------------------------
  // Field names.

  /** A field name as it can appear in a device: lower-case, without tab or
      colon, never "class" and never an iommugroup name. */
  predicate DeviceKey(key: string)
  {
    ':' !in key && '\t' !in key && (forall k | 0 <= k < |key| :: !IsUpper(key[k])) &&
    key != "class" && !StartsWith(key, "iommugroup")
  }

  predicate CleanDevice(d: Device)
  {
    UniqueKeys(d) && forall k | 0 <= k < |d| :: DeviceKey(d[k].key)
  }

  predicate CleanGroups(groups: seq<Group>)
  {
    forall i, j | 0 <= i < |groups| && 0 <= j < |groups[i].devices| :: CleanDevice(groups[i].devices[j])
  }

  /** The name a well-formed line stores its field under has no tab or colon
      and no upper-case letter. */
  lemma LineKey(line: string)
    requires line != "" && !Malformed(line)
    ensures var key := NormalizeKey(KeyValue(line).0);
      ':' !in key && '\t' !in key && key != "class" &&
      forall k | 0 <= k < |key| :: !IsUpper(key[k])
  {
    var raw := KeyValue(line).0;
    assert '\t' !in raw by {
      assert RemoveTabs(line)[..|raw|] == raw;
    }
    var key := NormalizeKey(raw);
    if key == "dev_class" {
      assert ':' !in key && '\t' !in key;
    }
  }

  /** A device line adds a clean, unique key to the device. */
  lemma ReadKeepsClean(st: State, line: string)
    requires CleanDevice(st.device)
    requires line != "" && !Malformed(line)
    ensures CleanDevice(ReadLine(st, line).value.device)
  {
    var (raw, value) := KeyValue(line);
    var key := NormalizeKey(raw);
    if !StartsWith(key, "iommugroup") {
      LineKey(line);
      var v := SplitVendor(key, value);
      PutUnique(st.device, key, v);
      var r := Put(st.device, key, v);
      forall k | 0 <= k < |r| ensures DeviceKey(r[k].key) {
        if k >= |st.device| {
          assert r[k] == Field(key, v);
        }
      }
    }
  }

  /** Every device filed by the loop has unique, clean field names: lower
      case, "class" renamed, and no key that starts with "iommugroup". */
  lemma {:induction false} RunKeysClean(st: State, lines: seq<string>)
    requires CleanGroups(st.groups) && CleanDevice(st.device) && st.group.devices == []
    ensures CleanGroups(Run(st, lines).Groups())
    decreases |lines|
  {
    if lines != [] {
      match Step(st, lines[0])
      case None =>
      case Some(next) =>
        if lines[0] == "" {
          if st.device != [] {
            var r := Commit(st.groups, st.group, st.device);
            forall i, j | 0 <= i < |r| && 0 <= j < |r[i].devices|
              ensures CleanDevice(r[i].devices[j])
            {
              if HasGroup(st.groups, st.group.iommugroup) {
                assert r[i] == AddDevice(st.groups[i], st.group.iommugroup, st.device);
              } else if i < |st.groups| {
                assert r[i] == st.groups[i];
              } else {
                assert r[i].devices == [st.device];
              }
            }
          }
        } else {
          ReadKeepsClean(st, lines[0]);
        }
        RunKeysClean(next, lines[1..]);
    }
  }

  // ---------------------------------------------------------------------
  // The bracketed-id rule on the values lspci prints.

  lemma VendorSplitExample()
    ensures SplitVendor("vendor", "Intel Corporation [8086]") == Vendor("Intel Corporation", "8086")
    ensures SplitVendor("svendor", "Ethernet") == Str("Ethernet")
    ensures SplitVendor("device", "Ethernet Connection [15bc]") == Str("Ethernet Connection [15bc]")
  {
    var v := "Intel Corporation [8086]";
    assert v[|v| - 6..] == "[8086]";
    assert EndsWith("vendor", "vendor");
    assert v[..|v| - 7] == "Intel Corporation";
    assert v[|v| - 5..|v| - 1] == "8086";
    assert !EndsWith("device", "vendor") by {
      assert "device"[0] != "vendor"[0];
    }
  }

  // ---------------------------------------------------------------------
  // Two records of IOMMU group 4.

  /** Reading `<Name>:\t<value>`: the key is the lower-cased name and the
      value is the rest of the line without its tabs. */
  lemma ReadNamedLine(st: State, name: string, value: string)
    requires ':' !in name && '\t' !in name && name != ""
    ensures ReadLine(st, name + ":\t" + value) ==
      var key := NormalizeKey(name);
      var v := RemoveTabs(value);
      if StartsWith(key, "iommugroup") then Some(st.(group := SetGroupAttr(st.group, key, v)))
      else Some(st.(device := Put(st.device, key, SplitVendor(key, v))))
  {
    var line := name + ":\t" + value;
    RemoveTabsAppend(name + ":\t", value);
    RemoveTabsAppend(name, ":\t");
    assert RemoveTabs(":\t") == ":";
    var l := RemoveTabs(line);
    assert l == name + [':'] + RemoveTabs(value);
    IndexOfAfter(name, ':', RemoveTabs(value));
    assert l[..|name|] == name;
    assert l[|name| + 1..] == RemoveTabs(value);
  }

  lemma SlotLine(st: State, value: string)
    requires '\t' !in value
    ensures ReadLine(st, "Slot:\t" + value) == Some(st.(device := Put(st.device, "slot", Str(value))))
  {
    assert "Slot:\t" + value == "Slot" + ":\t" + value;
    ReadNamedLine(st, "Slot", value);
    SlotKey();
  }

  lemma SlotKey()
    ensures NormalizeKey("Slot") == "slot"
    ensures !StartsWith("slot", "iommugroup") && !EndsWith("slot", "vendor")
  {
    var s := "Slot";
    var r := Lower(s);
    assert r == "slot" by {
      forall k | 0 <= k < 4 ensures r[k] == "slot"[k] {
        assert r[k] == LowerChar(s[k]);
      }
    }
    assert "slot"[0] != "vendor"[2];
  }

  lemma GroupLine(st: State, value: string)
    requires '\t' !in value
    ensures ReadLine(st, "IOMMUGroup:\t" + value) == Some(st.(group := st.group.(iommugroup := Some(value))))
  {
    assert "IOMMUGroup:\t" + value == "IOMMUGroup" + ":\t" + value;
    ReadNamedLine(st, "IOMMUGroup", value);
    GroupKey();
  }

  lemma GroupKey()
    ensures NormalizeKey("IOMMUGroup") == "iommugroup"
    ensures StartsWith("iommugroup", "iommugroup")
  {
    LowerGroupName();
    assert "iommugroup"[..10] == "iommugroup";
  }

  lemma LowerGroupName()
    ensures Lower("IOMMUGroup") == "iommugroup"
  {
    var s := "IOMMUGroup";
    var r := Lower(s);
    forall k | 0 <= k < 10 ensures r[k] == "iommugroup"[k] {
      assert r[k] == LowerChar(s[k]);
    }
  }

  /** One record `Slot: <slot>`, `IOMMUGroup: <group>` and its blank line. */
  lemma RecordRun(st: State, slot: string, group: string, rest: seq<string>)
    requires '\t' !in slot && '\t' !in group
    ensures Run(st, ["Slot:\t" + slot, "IOMMUGroup:\t" + group, ""] + rest) ==
      var read := st.(device := Put(st.device, "slot", Str(slot)));
      var named := read.(group := read.group.(iommugroup := Some(group)));
      Run(Blank(named), rest)
  {
    var a := "Slot:\t" + slot;
    var b := "IOMMUGroup:\t" + group;
    SlotLine(st, slot);
    var read := st.(device := Put(st.device, "slot", Str(slot)));
    GroupLine(read, group);
    var named := read.(group := read.group.(iommugroup := Some(group)));
    RunRecordLines(st, a, b, read, named);
    RunAppend(st, [a, b, ""], rest);
  }

  /** Two field lines and the blank line that ends the record. */
  lemma RunRecordLines(st: State, a: string, b: string, s1: State, s2: State)
    requires Step(st, a) == Some(s1) && Step(s1, b) == Some(s2)
    ensures Run(st, [a, b, ""]) == Finished(Blank(s2))
  {
    assert [""][0] == "" && [""][1..] == [];
    assert Run(s2, [""]) == Finished(Blank(s2));
    assert [b, ""][0] == b && [b, ""][1..] == [""];
    assert Run(s1, [b, ""]) == Run(s2, [""]);
    assert [a, b, ""][0] == a && [a, b, ""][1..] == [b, ""];
  }

  /** Reading a record's blank line from the start state. */
  lemma RecordCommit(groups: seq<Group>, slot: string, group: string)
    ensures var read := Start(groups).(device := Put([], "slot", Str(slot)));
      var named := read.(group := read.group.(iommugroup := Some(group)));
      Blank(named) == Start(Commit(groups, Group(Some(group), [], []), [Field("slot", Str(slot))]))
  {
  }

  /** A record whose iommugroup is new opens a group of its own. */
  lemma NewGroupRecord(groups: seq<Group>, slot: string, group: string, rest: seq<string>)
    requires '\t' !in slot && '\t' !in group
    requires !HasGroup(groups, Some(group))
    ensures Run(Start(groups), ["Slot:\t" + slot, "IOMMUGroup:\t" + group, ""] + rest) ==
      Run(Start(groups + [Group(Some(group), [], [[Field("slot", Str(slot))]])]), rest)
  {
    RecordRun(Start(groups), slot, group, rest);
    RecordCommit(groups, slot, group);
    var d := [Field("slot", Str(slot))];
    var acc := Group(Some(group), [], []);
    assert acc.(devices := acc.devices + [d]) == Group(Some(group), [], [d]);
    assert Commit(groups, acc, d) == groups + [Group(Some(group), [], [d])];
  }

  /** A record whose iommugroup some group already has joins that group
      (and, the iommugroups being distinct, only that one); no group is added. */
  lemma SameGroupRecord(groups: seq<Group>, slot: string, group: string, rest: seq<string>)
    requires '\t' !in slot && '\t' !in group
    requires HasGroup(groups, Some(group))
    ensures Run(Start(groups), ["Slot:\t" + slot, "IOMMUGroup:\t" + group, ""] + rest) ==
      Run(Start(AppendMatching(groups, Some(group), [Field("slot", Str(slot))])), rest)
  {
    RecordRun(Start(groups), slot, group, rest);
    RecordCommit(groups, slot, group);
  }

  /** Appending to the groups with the iommugroup of the only group `[g]`. */
  lemma AppendToOnlyGroup(g: Group, d: Device)
    ensures HasGroup([g], g.iommugroup)
    ensures AppendMatching([g], g.iommugroup, d) == [g.(devices := g.devices + [d])]
  {
    assert [g][0] in [g];
    assert AppendMatching([g], g.iommugroup, d)[0] == AddDevice(g, g.iommugroup, d);
  }

  /** The first of two records opens the group. */
  lemma FirstRecordOpens(slot1: string, slot2: string, group: string)
    requires '\t' !in slot1 && '\t' !in slot2 && '\t' !in group
    ensures Run(Start([]), ["Slot:\t" + slot1, "IOMMUGroup:\t" + group, "",
                            "Slot:\t" + slot2, "IOMMUGroup:\t" + group, ""]) ==
      Run(Start([Group(Some(group), [], [[Field("slot", Str(slot1))]])]), ["Slot:\t" + slot2, "IOMMUGroup:\t" + group, ""])
  {
    var rest := ["Slot:\t" + slot2, "IOMMUGroup:\t" + group, ""];
    assert ["Slot:\t" + slot1, "IOMMUGroup:\t" + group, "", "Slot:\t" + slot2, "IOMMUGroup:\t" + group, ""] ==
      ["Slot:\t" + slot1, "IOMMUGroup:\t" + group, ""] + rest;
    var g := Group(Some(group), [], [[Field("slot", Str(slot1))]]);
    NewGroupRecord([], slot1, group, rest);
    assert [] + [g] == [g];
  }

  /** The second record joins the group the first one opened. */
  lemma SecondRecordJoins(slot1: string, slot2: string, group: string)
    requires '\t' !in slot2 && '\t' !in group
    ensures Run(Start([Group(Some(group), [], [[Field("slot", Str(slot1))]])]), ["Slot:\t" + slot2, "IOMMUGroup:\t" + group, ""]) ==
      Finished(Start([Group(Some(group), [], [[Field("slot", Str(slot1))], [Field("slot", Str(slot2))]])]))
  {
    var rest := ["Slot:\t" + slot2, "IOMMUGroup:\t" + group, ""];
    var d1 := [Field("slot", Str(slot1))];
    var d2 := [Field("slot", Str(slot2))];
    var g := Group(Some(group), [], [d1]);
    assert rest == rest + [];
    AppendToOnlyGroup(g, d2);
    SameGroupRecord([g], slot2, group, []);
    assert g.(devices := g.devices + [d2]) == Group(Some(group), [], [d1, d2]);
  }

  /** Two records that name the same IOMMU group give one group holding both
      devices, in the order they were read. */
  lemma TwoDevicesOneGroup(slot1: string, slot2: string, group: string)
    requires '\t' !in slot1 && '\t' !in slot2 && '\t' !in group
    ensures Run(Start([]), ["Slot:\t" + slot1, "IOMMUGroup:\t" + group, "",
                            "Slot:\t" + slot2, "IOMMUGroup:\t" + group, ""]) ==
      Finished(Start([Group(Some(group), [], [[Field("slot", Str(slot1))], [Field("slot", Str(slot2))]])]))
  {
    FirstRecordOpens(slot1, slot2, group);
    SecondRecordJoins(slot1, slot2, group);
  }
}
