/** The three enum <-> JSON tables of the configuration codec. Each table is
    an ordered list of (value, JSON) pairs, read the way the JSON library's
    enum-serialization macro reads it: converting to JSON takes the first pair
    whose value matches, converting from JSON takes the first pair whose JSON
    is equal; when nothing matches either way, the FIRST pair of the table is
    used instead, so neither direction ever fails. */
module EnumTables {
  import opened JsonTree
  import opened Schema

  type Table<E> = seq<(E, Json)>

  /** Unknown has no text: it is written as null, and null or any unlisted
      value reads back as Unknown. */
  const GuestTypeTable: Table<GuestType> :=
    [(Unknown, Null), (Windows, Str("Windows")), (Linux, Str("Linux"))]

  /** Disabled has no text: it is written as null, and null or any unlisted
      value reads back as Disabled. */
  const GpuAssignmentModeTable: Table<GpuAssignmentMode> :=
    [(Disabled, Null), (Default, Str("Default")), (List, Str("List")), (Mirror, Str("Mirror"))]

  /** Every device type has a text; null or any unlisted value reads as VirtualDisk. */
  const ScsiDeviceTypeTable: Table<ScsiDeviceType> :=
    [(VirtualDisk, Str("VirtualDisk")), (VirtualImage, Str("VirtualImage")), (PhysicalDevice, Str("PhysicalDevice"))]

  /** The JSON of the first pair listing e, or fallback. */
  function JsonOf<E(==)>(table: Table<E>, e: E, fallback: Json): (j: Json)
    ensures j == fallback || exists i :: 0 <= i < |table| && table[i] == (e, j)
    decreases |table|
  {
    if table == [] then fallback
    else if table[0].0 == e then table[0].1
    else
      var j := JsonOf(table[1..], e, fallback);
      assert j != fallback ==> exists i :: 0 <= i < |table| && table[i] == (e, j) by {
        if j != fallback {
          var i :| 0 <= i < |table[1..]| && table[1..][i] == (e, j);
          assert table[i + 1] == (e, j);
        }
      }
      j
  }

  /** The value of the first pair whose JSON equals j, or fallback. */
  function ValueOf<E(==)>(table: Table<E>, j: Json, fallback: E): (e: E)
    ensures e == fallback || exists i :: 0 <= i < |table| && table[i] == (e, j)
    decreases |table|
  {
    if table == [] then fallback
    else if table[0].1 == j then table[0].0
    else
      var e := ValueOf(table[1..], j, fallback);
      assert e != fallback ==> exists i :: 0 <= i < |table| && table[i] == (e, j) by {
        if e != fallback {
          var i :| 0 <= i < |table[1..]| && table[1..][i] == (e, j);
          assert table[i + 1] == (e, j);
        }
      }
      e
  }

  /** `to_json` generated by the macro. */
  function ToJson<E(==)>(table: Table<E>, e: E): Json
    requires table != []
  {
    JsonOf(table, e, table[0].1)
  }

  /** `from_json` generated by the macro. */
  function FromJson<E(==)>(table: Table<E>, j: Json): E
    requires table != []
  {
    ValueOf(table, j, table[0].0)
  }

  /** No two pairs of the table share a JSON value. */
  predicate DistinctJson<E>(table: Table<E>)
  {
    forall i, k :: 0 <= i < k < |table| ==> table[i].1 != table[k].1
  }

  /** Listed values come back from their own JSON when the JSON side of the
      table has no duplicates, whatever the fallbacks. */
  lemma {:induction false} LookupRoundTrip<E>(table: Table<E>, e: E, fj: Json, fe: E)
    requires DistinctJson(table)
    requires exists i :: 0 <= i < |table| && table[i].0 == e
    ensures ValueOf(table, JsonOf(table, e, fj), fe) == e
    decreases |table|
  {
    if table[0].0 != e {
      var tail := table[1..];
      var i :| 0 <= i < |table| && table[i].0 == e;
      assert tail[i - 1].0 == e;
      assert DistinctJson(tail) by {
        forall a, b | 0 <= a < b < |tail|
          ensures tail[a].1 != tail[b].1
        {
          assert tail[a] == table[a + 1] && tail[b] == table[b + 1];
        }
      }
      LookupRoundTrip(tail, e, fj, fe);
      // The JSON found in the tail is some pair's of the tail, so it differs from table[0]'s.
      ListedJsonOf(tail, e, fj);
      var k :| 0 <= k < |tail| && tail[k] == (e, JsonOf(tail, e, fj));
      assert table[k + 1] == tail[k];
    }
  }

  /** For a listed value the fallback is never used. */
  lemma {:induction false} ListedJsonOf<E>(table: Table<E>, e: E, fj: Json)
    requires exists i :: 0 <= i < |table| && table[i].0 == e
    ensures exists k :: 0 <= k < |table| && table[k] == (e, JsonOf(table, e, fj))
    decreases |table|
  {
    if table[0].0 != e {
      var i :| 0 <= i < |table| && table[i].0 == e;
      assert table[1..][i - 1].0 == e;
      ListedJsonOf(table[1..], e, fj);
      var k :| 0 <= k < |table[1..]| && table[1..][k] == (e, JsonOf(table[1..], e, fj));
      assert table[k + 1] == table[1..][k];
    }
  }

  function GuestTypeToJson(g: GuestType): Json
  {
    ToJson(GuestTypeTable, g)
  }

  function GuestTypeFromJson(j: Json): GuestType
  {
    FromJson(GuestTypeTable, j)
  }

  function GpuAssignmentModeToJson(m: GpuAssignmentMode): Json
  {
    ToJson(GpuAssignmentModeTable, m)
  }

  function GpuAssignmentModeFromJson(j: Json): GpuAssignmentMode
  {
    FromJson(GpuAssignmentModeTable, j)
  }

  function ScsiDeviceTypeToJson(t: ScsiDeviceType): Json
  {
    ToJson(ScsiDeviceTypeTable, t)
  }

  function ScsiDeviceTypeFromJson(j: Json): ScsiDeviceType
  {
    FromJson(ScsiDeviceTypeTable, j)
  }

  /** Every guest type survives the table both ways; only Unknown is null. */
  lemma GuestTypeRoundTrip(g: GuestType)
    ensures GuestTypeFromJson(GuestTypeToJson(g)) == g
    ensures GuestTypeToJson(g) == Null <==> g == Unknown
  {
    var t := GuestTypeTable;
    assert DistinctJson(t);
    assert t[0].0 == Unknown && t[1].0 == Windows && t[2].0 == Linux;
    LookupRoundTrip(t, g, t[0].1, t[0].0);
    ListedJsonOf(t, g, t[0].1);
  }

  /** Anything but the two listed strings, null included, reads as Unknown. */
  lemma GuestTypeFallback(j: Json)
    requires j != Str("Windows") && j != Str("Linux")
    ensures GuestTypeFromJson(j) == Unknown
  {
    var t := GuestTypeTable;
    assert t[1..][1..][1..] == [];
  }

  /** Every assignment mode survives the table both ways; only Disabled is null. */
  lemma GpuAssignmentModeRoundTrip(m: GpuAssignmentMode)
    ensures GpuAssignmentModeFromJson(GpuAssignmentModeToJson(m)) == m
    ensures GpuAssignmentModeToJson(m) == Null <==> m == Disabled
  {
    var t := GpuAssignmentModeTable;
    assert DistinctJson(t);
    assert t[0].0 == Disabled && t[1].0 == Default && t[2].0 == List && t[3].0 == Mirror;
    LookupRoundTrip(t, m, t[0].1, t[0].0);
    ListedJsonOf(t, m, t[0].1);
  }

  /** Anything but the three listed strings, null included, reads as Disabled. */
  lemma GpuAssignmentModeFallback(j: Json)
    requires j != Str("Default") && j != Str("List") && j != Str("Mirror")
    ensures GpuAssignmentModeFromJson(j) == Disabled
  {
    var t := GpuAssignmentModeTable;
    assert t[1..][1..][1..][1..] == [];
  }

  /** Every device type survives the table both ways, and none is written as null. */
  lemma ScsiDeviceTypeRoundTrip(d: ScsiDeviceType)
    ensures ScsiDeviceTypeFromJson(ScsiDeviceTypeToJson(d)) == d
    ensures ScsiDeviceTypeToJson(d).Str?
  {
    var t := ScsiDeviceTypeTable;
    assert DistinctJson(t);
    assert t[0].0 == VirtualDisk && t[1].0 == VirtualImage && t[2].0 == PhysicalDevice;
    LookupRoundTrip(t, d, t[0].1, t[0].0);
    ListedJsonOf(t, d, t[0].1);
  }

  /** Anything but the three listed strings, null included, reads as VirtualDisk. */
  lemma ScsiDeviceTypeFallback(j: Json)
    requires j != Str("VirtualDisk") && j != Str("VirtualImage") && j != Str("PhysicalDevice")
    ensures ScsiDeviceTypeFromJson(j) == VirtualDisk
  {
    var t := ScsiDeviceTypeTable;
    assert t[1..][1..][1..] == [];
  }
}
