// The values that generate_data.py builds: insertion-ordered dictionaries
// whose entries are strings or {name, vendorid} sub-records, the sections of
// the hardware record, and the IOMMU groups of PCI devices.

module Records {
  import opened Common
  import opened PyStr

  /** A dictionary entry: a plain string, or a `{"name": .., "vendorid": ..}` sub-record. */
  datatype Value = Str(s: string) | Vendor(name: string, vendorid: string)

  datatype Field = Field(key: string, value: Value)

  /** A Python dict from strings to values, in insertion order. */
  type Dict = seq<Field>

  /** A device record of `lspci -nnvmm`: lower-cased field names to values. */
  type Device = Dict

  /** One section of the hardware record ("board", "bios", "chassis", "product"). */
  datatype Section = Section(name: string, fields: Dict)

  /** An entry of `structure["groups"]`: the `iommugroup` value (None until an
      IOMMUGroup line is read), the other keys beginning with `iommugroup`
      that the record carried, and the devices of the group in order. */
  datatype Group = Group(iommugroup: Option<string>, attrs: Dict, devices: seq<Device>)

  predicate UniqueKeys(d: Dict)
  {
    forall i, j | 0 <= i < j < |d| :: d[i].key != d[j].key
  }

  /** The keys of `d`, in order. */
  function Keys(d: Dict): (ks: seq<string>)
    ensures |ks| == |d| && forall i | 0 <= i < |d| :: ks[i] == d[i].key
  {
    if d == [] then [] else [d[0].key] + Keys(d[1..])
  }

  /** `d.get(key)`. */
  function Get(d: Dict, key: string): Option<Value>
  {
    if d == [] then None
    else if d[0].key == key then Some(d[0].value)
    else Get(d[1..], key)
  }

  /** `d.update({key: v})`: an existing key keeps its place and takes the new
      value; a new key goes last. */
  function Put(d: Dict, key: string, v: Value): (r: Dict)
    ensures |r| == if Get(d, key).Some? then |d| else |d| + 1
    ensures forall i | 0 <= i < |d| :: r[i].key == d[i].key
    ensures Get(d, key).None? ==> r[|d|] == Field(key, v)
  {
    if d == [] then [Field(key, v)]
    else if d[0].key == key then [Field(key, v)] + d[1..]
    else [d[0]] + Put(d[1..], key, v)
  }

  /** After the update, `key` reads `v` and every other key reads as before. */
  lemma {:induction false} PutGet(d: Dict, key: string, v: Value, other: string)
    ensures Get(Put(d, key, v), key) == Some(v)
    ensures other != key ==> Get(Put(d, key, v), other) == Get(d, other)
  {
    if d != [] && d[0].key != key {
      PutGet(d[1..], key, v, other);
      assert Put(d, key, v)[1..] == Put(d[1..], key, v);
    }
  }

  /** The update never duplicates a key. */
  lemma {:induction false} PutUnique(d: Dict, key: string, v: Value)
    requires UniqueKeys(d)
    ensures UniqueKeys(Put(d, key, v))
  {
    if d != [] && d[0].key != key {
      var t := d[1..];
      assert UniqueKeys(t) by {
        forall i, j | 0 <= i < j < |t| ensures t[i].key != t[j].key {
          assert t[i] == d[i + 1] && t[j] == d[j + 1];
        }
      }
      PutUnique(t, key, v);
      var r := Put(d, key, v);
      assert r[1..] == Put(t, key, v);
      forall i, j | 0 <= i < j < |r| ensures r[i].key != r[j].key {
        if i == 0 {
          if j - 1 < |t| {
            assert r[j].key == t[j - 1].key == d[j].key;
          } else {
            assert r[j].key == key;
          }
        } else {
          assert r[i] == r[1..][i - 1] && r[j] == r[1..][j - 1];
        }
      }
    }
  }

  /** Lookup finds exactly the keys that are present. */
  lemma {:induction false} GetPresent(d: Dict, key: string)
    ensures Get(d, key).Some? <==> exists i | 0 <= i < |d| :: d[i].key == key
  {
    if d != [] {
      GetPresent(d[1..], key);
      if d[0].key != key && Get(d[1..], key).Some? {
        var i :| 0 <= i < |d[1..]| && d[1..][i].key == key;
        assert d[i + 1].key == key;
      }
      if d[0].key != key && exists i | 0 <= i < |d| :: d[i].key == key {
        var i :| 0 <= i < |d| && d[i].key == key;
        assert d[1..][i - 1].key == key;
      }
    }
  }
}
