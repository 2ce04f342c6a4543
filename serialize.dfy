/** SerializeConfiguration: a configuration record to the JSON tree written
    under the "NanaBox" key. An empty sequence is written as null, because
    each array starts as a default-constructed (null) value that only
    push_back turns into an array. The functions state the tree; the methods
    build it the way the source does. */
module Serializer {
  import opened JsonTree
  import opened Schema
  import opened EnumTables

  /** enc applied to each of xs, in order. */
  function EncodeAll<T>(xs: seq<T>, enc: T -> Json): (js: seq<Json>)
    ensures |js| == |xs|
    ensures forall i :: 0 <= i < |xs| ==> js[i] == enc(xs[i])
  {
    if xs == [] then [] else [enc(xs[0])] + EncodeAll(xs[1..], enc)
  }

  function StringJson(s: string): Json
  {
    Str(s)
  }

  function NetworkAdapterJson(a: NetworkAdapterConfiguration): Json
  {
    Obj(map[
      "Enabled" := Bool(a.Enabled),
      "Connected" := Bool(a.Connected),
      "MacAddress" := Str(a.MacAddress)])
  }

  function ScsiDeviceJson(d: ScsiDeviceConfiguration): Json
  {
    Obj(map[
      "Enabled" := Bool(d.Enabled),
      "Type" := ScsiDeviceTypeToJson(d.Type),
      "Path" := Str(d.Path)])
  }

  function SharedFolderJson(f: SharedFolderConfiguration): Json
  {
    Obj(map[
      "Enabled" := Bool(f.Enabled),
      "ReadOnly" := Bool(f.ReadOnly),
      "HostPath" := Str(f.HostPath),
      "GuestName" := Str(f.GuestName)])
  }

  function GpuJson(g: GpuConfiguration): Json
  {
    Obj(map[
      "AssignmentMode" := GpuAssignmentModeToJson(g.AssignmentMode),
      "SelectedDevices" := ArrayOf(EncodeAll(g.SelectedDevices, StringJson))])
  }

  /** The object written under "NanaBox". */
  function RootJson(c: VirtualMachineConfiguration): Json
  {
    Obj(map[
      "Type" := Str("VirtualMachine"),
      "Version" := Num(c.Version),
      "GuestType" := GuestTypeToJson(c.GuestType),
      "Name" := Str(c.Name),
      "ProcessorCount" := Num(c.ProcessorCount),
      "MemorySize" := Num(c.MemorySize),
      "ComPorts" := ArrayOf(EncodeAll(c.ComPorts, StringJson)),
      "Gpu" := GpuJson(c.Gpu),
      "NetworkAdapters" := ArrayOf(EncodeAll(c.NetworkAdapters, NetworkAdapterJson)),
      "ScsiDevices" := ArrayOf(EncodeAll(c.ScsiDevices, ScsiDeviceJson)),
      "SharedFolders" := ArrayOf(EncodeAll(c.SharedFolders, SharedFolderJson)),
      "SecureBoot" := Bool(c.SecureBoot),
      "Tpm" := Bool(c.Tpm),
      "GuestStateFile" := Str(c.GuestStateFile),
      "RuntimeStateFile" := Str(c.RuntimeStateFile)])
  }

  /** The document SerializeConfiguration writes, before it is printed. */
  function Serialize(c: VirtualMachineConfiguration): Json
  {
    Obj(map["NanaBox" := RootJson(c)])
  }

  // ---------------------------------------------------------------------
  // The serializer as the source runs it.

  /** A default-constructed value with enc of each of xs pushed onto it in turn. */
  method BuildArray<T>(xs: seq<T>, enc: T -> Json) returns (arr: Json)
    ensures arr == ArrayOf(EncodeAll(xs, enc))
  {
    arr := Null;
    for i := 0 to |xs|
      invariant arr == ArrayOf(EncodeAll(xs[..i], enc))
    {
      assert xs[..i + 1] == xs[..i] + [xs[i]];
      EncodeAllAppend(xs[..i], [xs[i]], enc);
      arr := PushBack(arr, enc(xs[i]));
    }
    assert xs[..|xs|] == xs;
  }

  lemma {:induction false} EncodeAllAppend<T>(xs: seq<T>, ys: seq<T>, enc: T -> Json)
    ensures EncodeAll(xs + ys, enc) == EncodeAll(xs, enc) + EncodeAll(ys, enc)
  {
    if xs == [] {
      assert xs + ys == ys;
    } else {
      assert (xs + ys)[0] == xs[0];
      assert (xs + ys)[1..] == xs[1..] + ys;
      EncodeAllAppend(xs[1..], ys, enc);
    }
  }

  /** The "Gpu" object: the mode, then the selected devices. */
  method BuildGpu(g: GpuConfiguration) returns (gpu: Json)
    ensures gpu == GpuJson(g)
  {
    var fields: map<string, Json> := map[];
    fields := fields["AssignmentMode" := GpuAssignmentModeToJson(g.AssignmentMode)];
    var devices := BuildArray(g.SelectedDevices, StringJson);
    fields := fields["SelectedDevices" := devices];
    gpu := Obj(fields);
  }

  /** SerializeConfiguration up to the final printing: fills the root object
      key by key and wraps it under "NanaBox". */
  method SerializeConfiguration(c: VirtualMachineConfiguration) returns (doc: Json)
    ensures doc == Serialize(c)
  {
    var root: map<string, Json> := map[];
    root := root["Type" := Str("VirtualMachine")];
    root := root["Version" := Num(c.Version)];
    root := root["GuestType" := GuestTypeToJson(c.GuestType)];
    root := root["Name" := Str(c.Name)];
    root := root["ProcessorCount" := Num(c.ProcessorCount)];
    root := root["MemorySize" := Num(c.MemorySize)];
    var comPorts := BuildArray(c.ComPorts, StringJson);
    root := root["ComPorts" := comPorts];
    var gpu := BuildGpu(c.Gpu);
    root := root["Gpu" := gpu];
    var adapters := BuildArray(c.NetworkAdapters, NetworkAdapterJson);
    root := root["NetworkAdapters" := adapters];
    var devices := BuildArray(c.ScsiDevices, ScsiDeviceJson);
    root := root["ScsiDevices" := devices];
    var folders := BuildArray(c.SharedFolders, SharedFolderJson);
    root := root["SharedFolders" := folders];
    root := root["SecureBoot" := Bool(c.SecureBoot)];
    root := root["Tpm" := Bool(c.Tpm)];
    root := root["GuestStateFile" := Str(c.GuestStateFile)];
    root := root["RuntimeStateFile" := Str(c.RuntimeStateFile)];
    doc := Obj(map["NanaBox" := Obj(root)]);
  }
}
