/** Serialize-then-deserialize gives the record back, exactly for the
    records the deserializer can return. Each entity is shown to survive its
    own encoding first; the record-level theorem assembles them. */
module RoundTrip {
  import opened JsonTree
  import opened Schema
  import opened EnumTables
  import opened Deserializer
  import opened Serializer

  /** Elements that decode to themselves survive a whole array. */
  lemma {:induction false} FilterMapEncoded<T>(xs: seq<T>, enc: T -> Json, f: Json -> Option<T>)
    requires forall x :: x in xs ==> f(enc(x)) == Some(x)
    ensures FilterMap(EncodeAll(xs, enc), f) == xs
  {
    if xs != [] {
      var js := EncodeAll(xs, enc);
      assert js[1..] == EncodeAll(xs[1..], enc);
      FilterMapEncoded(xs[1..], enc, f);
      assert xs == [xs[0]] + xs[1..];
    }
  }

  /** A list of strings (COM ports, GPU devices) survives as written. */
  lemma StringsRoundTrip(ss: seq<string>)
    ensures FilterMap(Elements(ArrayOf(EncodeAll(ss, StringJson))), GetString) == ss
  {
    FilterMapEncoded(ss, StringJson, GetString);
  }

  /** An adapter comes back exactly when its MAC address is not empty. */
  lemma NetworkAdapterRoundTrip(a: NetworkAdapterConfiguration)
    ensures NetworkAdapterOf(NetworkAdapterJson(a)) == if a.Valid() then Some(a) else None
  {
  }

  /** A folder comes back exactly when both its paths are non-empty. */
  lemma SharedFolderRoundTrip(f: SharedFolderConfiguration)
    ensures SharedFolderOf(SharedFolderJson(f)) == if f.Valid() then Some(f) else None
  {
  }

  /** A device comes back exactly when it is valid; an invalid one is skipped
      and never ends the SCSI loop. */
  lemma ScsiDeviceRoundTrip(d: ScsiDeviceConfiguration)
    ensures ScsiStepOf(ScsiDeviceJson(d)) == if d.Valid() then Keep(d) else Skip
  {
    ScsiDeviceTypeRoundTrip(d.Type);
  }

  lemma {:induction false} ScsiDevicesRoundTrip(ds: seq<ScsiDeviceConfiguration>)
    requires forall d :: d in ds ==> d.Valid()
    ensures ScsiDevicesOf(EncodeAll(ds, ScsiDeviceJson)) == ds
  {
    var js := EncodeAll(ds, ScsiDeviceJson);
    if ds != [] {
      assert js[1..] == EncodeAll(ds[1..], ScsiDeviceJson);
      ScsiDeviceRoundTrip(ds[0]);
      ScsiDevicesRoundTrip(ds[1..]);
      assert ds == [ds[0]] + ds[1..];
    }
  }

  /** GPU settings that satisfy the invariant survive as written. */
  lemma GpuRoundTrip(g: GpuConfiguration)
    requires g.Valid()
    ensures GpuOf(GpuJson(g)) == g
  {
    var gpu := GpuJson(g);
    assert Field(gpu, "AssignmentMode") == GpuAssignmentModeToJson(g.AssignmentMode);
    assert Field(gpu, "SelectedDevices") == ArrayOf(EncodeAll(g.SelectedDevices, StringJson));
    GpuAssignmentModeRoundTrip(g.AssignmentMode);
    StringsRoundTrip(g.SelectedDevices);
  }

  /** Reading the fields that never fail into a version-1 record with no
      elements yet gives a valid record. */
  lemma OptionalFieldsValid(root: Json, h: VirtualMachineConfiguration)
    requires root.Obj? && h.Version == 1
    requires h.NetworkAdapters == [] && h.ScsiDevices == [] && h.SharedFolders == []
    ensures WithOptionalFields(root, h).Valid()
  {
    var c := WithOptionalFields(root, h);
    GpuRead(Field(root, "Gpu"));
    forall a | a in c.NetworkAdapters
      ensures a.Valid()
    {
      var items := Elements(Field(root, "NetworkAdapters"));
      FilterMapMembership(items, NetworkAdapterOf, a);
      var e :| e in items && NetworkAdapterOf(e) == Some(a);
      NetworkAdapterKept(e);
    }
    forall f | f in c.SharedFolders
      ensures f.Valid()
    {
      var items := Elements(Field(root, "SharedFolders"));
      FilterMapMembership(items, SharedFolderOf, f);
      var e :| e in items && SharedFolderOf(e) == Some(f);
      SharedFolderKept(e);
    }
  }

  /** The deserializer returns only valid records. */
  lemma ParseYieldsValid(doc: Json)
    requires Parse(doc).Success?
    ensures Parse(doc).config.Valid()
  {
    var root := Field(doc, "NanaBox");
    OptionalFieldsValid(root, ParseHeader(root).config);
  }

  /** The root object's shape with its values left open, so that looking a
      key up is proved once rather than for every record. */
  function RootObject(typ: Json, version: Json, guestType: Json, name: Json, processors: Json, memory: Json, comPorts: Json, gpu: Json, adapters: Json, devices: Json, folders: Json, secureBoot: Json, tpm: Json, guestState: Json, runtimeState: Json): Json
  {
    Obj(map[
      "Type" := typ,
      "Version" := version,
      "GuestType" := guestType,
      "Name" := name,
      "ProcessorCount" := processors,
      "MemorySize" := memory,
      "ComPorts" := comPorts,
      "Gpu" := gpu,
      "NetworkAdapters" := adapters,
      "ScsiDevices" := devices,
      "SharedFolders" := folders,
      "SecureBoot" := secureBoot,
      "Tpm" := tpm,
      "GuestStateFile" := guestState,
      "RuntimeStateFile" := runtimeState])
  }

  // One lemma per key: looking several keys up in one proof costs far more
  // than looking each up on its own.

  lemma RootObjectType(typ: Json, version: Json, guestType: Json, name: Json, processors: Json, memory: Json, comPorts: Json, gpu: Json, adapters: Json, devices: Json, folders: Json, secureBoot: Json, tpm: Json, guestState: Json, runtimeState: Json)
    ensures Field(RootObject(typ, version, guestType, name, processors, memory, comPorts, gpu, adapters, devices, folders, secureBoot, tpm, guestState, runtimeState), "Type") == typ
  {
  }

  lemma RootObjectVersion(typ: Json, version: Json, guestType: Json, name: Json, processors: Json, memory: Json, comPorts: Json, gpu: Json, adapters: Json, devices: Json, folders: Json, secureBoot: Json, tpm: Json, guestState: Json, runtimeState: Json)
    ensures Field(RootObject(typ, version, guestType, name, processors, memory, comPorts, gpu, adapters, devices, folders, secureBoot, tpm, guestState, runtimeState), "Version") == version
  {
  }

  lemma RootObjectGuestType(typ: Json, version: Json, guestType: Json, name: Json, processors: Json, memory: Json, comPorts: Json, gpu: Json, adapters: Json, devices: Json, folders: Json, secureBoot: Json, tpm: Json, guestState: Json, runtimeState: Json)
    ensures Field(RootObject(typ, version, guestType, name, processors, memory, comPorts, gpu, adapters, devices, folders, secureBoot, tpm, guestState, runtimeState), "GuestType") == guestType
  {
  }

  lemma RootObjectName(typ: Json, version: Json, guestType: Json, name: Json, processors: Json, memory: Json, comPorts: Json, gpu: Json, adapters: Json, devices: Json, folders: Json, secureBoot: Json, tpm: Json, guestState: Json, runtimeState: Json)
    ensures Field(RootObject(typ, version, guestType, name, processors, memory, comPorts, gpu, adapters, devices, folders, secureBoot, tpm, guestState, runtimeState), "Name") == name
  {
  }

  lemma RootObjectProcessorCount(typ: Json, version: Json, guestType: Json, name: Json, processors: Json, memory: Json, comPorts: Json, gpu: Json, adapters: Json, devices: Json, folders: Json, secureBoot: Json, tpm: Json, guestState: Json, runtimeState: Json)
    ensures Field(RootObject(typ, version, guestType, name, processors, memory, comPorts, gpu, adapters, devices, folders, secureBoot, tpm, guestState, runtimeState), "ProcessorCount") == processors
  {
  }

  lemma RootObjectMemorySize(typ: Json, version: Json, guestType: Json, name: Json, processors: Json, memory: Json, comPorts: Json, gpu: Json, adapters: Json, devices: Json, folders: Json, secureBoot: Json, tpm: Json, guestState: Json, runtimeState: Json)
    ensures Field(RootObject(typ, version, guestType, name, processors, memory, comPorts, gpu, adapters, devices, folders, secureBoot, tpm, guestState, runtimeState), "MemorySize") == memory
  {
  }

  lemma RootObjectComPorts(typ: Json, version: Json, guestType: Json, name: Json, processors: Json, memory: Json, comPorts: Json, gpu: Json, adapters: Json, devices: Json, folders: Json, secureBoot: Json, tpm: Json, guestState: Json, runtimeState: Json)
    ensures Field(RootObject(typ, version, guestType, name, processors, memory, comPorts, gpu, adapters, devices, folders, secureBoot, tpm, guestState, runtimeState), "ComPorts") == comPorts
  {
  }

  lemma RootObjectGpu(typ: Json, version: Json, guestType: Json, name: Json, processors: Json, memory: Json, comPorts: Json, gpu: Json, adapters: Json, devices: Json, folders: Json, secureBoot: Json, tpm: Json, guestState: Json, runtimeState: Json)
    ensures Field(RootObject(typ, version, guestType, name, processors, memory, comPorts, gpu, adapters, devices, folders, secureBoot, tpm, guestState, runtimeState), "Gpu") == gpu
  {
  }

  lemma RootObjectNetworkAdapters(typ: Json, version: Json, guestType: Json, name: Json, processors: Json, memory: Json, comPorts: Json, gpu: Json, adapters: Json, devices: Json, folders: Json, secureBoot: Json, tpm: Json, guestState: Json, runtimeState: Json)
    ensures Field(RootObject(typ, version, guestType, name, processors, memory, comPorts, gpu, adapters, devices, folders, secureBoot, tpm, guestState, runtimeState), "NetworkAdapters") == adapters
  {
  }

  lemma RootObjectScsiDevices(typ: Json, version: Json, guestType: Json, name: Json, processors: Json, memory: Json, comPorts: Json, gpu: Json, adapters: Json, devices: Json, folders: Json, secureBoot: Json, tpm: Json, guestState: Json, runtimeState: Json)
    ensures Field(RootObject(typ, version, guestType, name, processors, memory, comPorts, gpu, adapters, devices, folders, secureBoot, tpm, guestState, runtimeState), "ScsiDevices") == devices
  {
  }

  lemma RootObjectSharedFolders(typ: Json, version: Json, guestType: Json, name: Json, processors: Json, memory: Json, comPorts: Json, gpu: Json, adapters: Json, devices: Json, folders: Json, secureBoot: Json, tpm: Json, guestState: Json, runtimeState: Json)
    ensures Field(RootObject(typ, version, guestType, name, processors, memory, comPorts, gpu, adapters, devices, folders, secureBoot, tpm, guestState, runtimeState), "SharedFolders") == folders
  {
  }

  lemma RootObjectSecureBoot(typ: Json, version: Json, guestType: Json, name: Json, processors: Json, memory: Json, comPorts: Json, gpu: Json, adapters: Json, devices: Json, folders: Json, secureBoot: Json, tpm: Json, guestState: Json, runtimeState: Json)
    ensures Field(RootObject(typ, version, guestType, name, processors, memory, comPorts, gpu, adapters, devices, folders, secureBoot, tpm, guestState, runtimeState), "SecureBoot") == secureBoot
  {
  }

  lemma RootObjectTpm(typ: Json, version: Json, guestType: Json, name: Json, processors: Json, memory: Json, comPorts: Json, gpu: Json, adapters: Json, devices: Json, folders: Json, secureBoot: Json, tpm: Json, guestState: Json, runtimeState: Json)
    ensures Field(RootObject(typ, version, guestType, name, processors, memory, comPorts, gpu, adapters, devices, folders, secureBoot, tpm, guestState, runtimeState), "Tpm") == tpm
  {
  }

  lemma RootObjectGuestStateFile(typ: Json, version: Json, guestType: Json, name: Json, processors: Json, memory: Json, comPorts: Json, gpu: Json, adapters: Json, devices: Json, folders: Json, secureBoot: Json, tpm: Json, guestState: Json, runtimeState: Json)
    ensures Field(RootObject(typ, version, guestType, name, processors, memory, comPorts, gpu, adapters, devices, folders, secureBoot, tpm, guestState, runtimeState), "GuestStateFile") == guestState
  {
  }

  lemma RootObjectRuntimeStateFile(typ: Json, version: Json, guestType: Json, name: Json, processors: Json, memory: Json, comPorts: Json, gpu: Json, adapters: Json, devices: Json, folders: Json, secureBoot: Json, tpm: Json, guestState: Json, runtimeState: Json)
    ensures Field(RootObject(typ, version, guestType, name, processors, memory, comPorts, gpu, adapters, devices, folders, secureBoot, tpm, guestState, runtimeState), "RuntimeStateFile") == runtimeState
  {
  }

  /** root holds, under each key, what the serializer writes for c. */
  predicate Encodes(root: Json, c: VirtualMachineConfiguration)
  {
    && root.Obj?
    && Field(root, "Type") == Str("VirtualMachine")
    && Field(root, "Version") == Num(c.Version)
    && Field(root, "GuestType") == GuestTypeToJson(c.GuestType)
    && Field(root, "Name") == Str(c.Name)
    && Field(root, "ProcessorCount") == Num(c.ProcessorCount)
    && Field(root, "MemorySize") == Num(c.MemorySize)
    && Field(root, "ComPorts") == ArrayOf(EncodeAll(c.ComPorts, StringJson))
    && Field(root, "Gpu") == GpuJson(c.Gpu)
    && Field(root, "NetworkAdapters") == ArrayOf(EncodeAll(c.NetworkAdapters, NetworkAdapterJson))
    && Field(root, "ScsiDevices") == ArrayOf(EncodeAll(c.ScsiDevices, ScsiDeviceJson))
    && Field(root, "SharedFolders") == ArrayOf(EncodeAll(c.SharedFolders, SharedFolderJson))
    && Field(root, "SecureBoot") == Bool(c.SecureBoot)
    && Field(root, "Tpm") == Bool(c.Tpm)
    && Field(root, "GuestStateFile") == Str(c.GuestStateFile)
    && Field(root, "RuntimeStateFile") == Str(c.RuntimeStateFile)
  }

  /** The serializer's root object encodes the record it was given. */
  lemma RootJsonEncodes(c: VirtualMachineConfiguration)
    ensures Encodes(RootJson(c), c)
  {
    var typ, version, guestType, name, processors, memory :=
      Str("VirtualMachine"), Num(c.Version), GuestTypeToJson(c.GuestType), Str(c.Name),
      Num(c.ProcessorCount), Num(c.MemorySize);
    var comPorts, gpu, adapters, devices, folders :=
      ArrayOf(EncodeAll(c.ComPorts, StringJson)), GpuJson(c.Gpu),
      ArrayOf(EncodeAll(c.NetworkAdapters, NetworkAdapterJson)),
      ArrayOf(EncodeAll(c.ScsiDevices, ScsiDeviceJson)),
      ArrayOf(EncodeAll(c.SharedFolders, SharedFolderJson));
    var secureBoot, tpm, guestState, runtimeState :=
      Bool(c.SecureBoot), Bool(c.Tpm), Str(c.GuestStateFile), Str(c.RuntimeStateFile);
    assert RootJson(c) == RootObject(typ, version, guestType, name, processors, memory, comPorts, gpu, adapters, devices, folders, secureBoot, tpm, guestState, runtimeState);
    RootObjectType(typ, version, guestType, name, processors, memory, comPorts, gpu, adapters, devices, folders, secureBoot, tpm, guestState, runtimeState);
    RootObjectVersion(typ, version, guestType, name, processors, memory, comPorts, gpu, adapters, devices, folders, secureBoot, tpm, guestState, runtimeState);
    RootObjectGuestType(typ, version, guestType, name, processors, memory, comPorts, gpu, adapters, devices, folders, secureBoot, tpm, guestState, runtimeState);
    RootObjectName(typ, version, guestType, name, processors, memory, comPorts, gpu, adapters, devices, folders, secureBoot, tpm, guestState, runtimeState);
    RootObjectProcessorCount(typ, version, guestType, name, processors, memory, comPorts, gpu, adapters, devices, folders, secureBoot, tpm, guestState, runtimeState);
    RootObjectMemorySize(typ, version, guestType, name, processors, memory, comPorts, gpu, adapters, devices, folders, secureBoot, tpm, guestState, runtimeState);
    RootObjectComPorts(typ, version, guestType, name, processors, memory, comPorts, gpu, adapters, devices, folders, secureBoot, tpm, guestState, runtimeState);
    RootObjectGpu(typ, version, guestType, name, processors, memory, comPorts, gpu, adapters, devices, folders, secureBoot, tpm, guestState, runtimeState);
    RootObjectNetworkAdapters(typ, version, guestType, name, processors, memory, comPorts, gpu, adapters, devices, folders, secureBoot, tpm, guestState, runtimeState);
    RootObjectScsiDevices(typ, version, guestType, name, processors, memory, comPorts, gpu, adapters, devices, folders, secureBoot, tpm, guestState, runtimeState);
    RootObjectSharedFolders(typ, version, guestType, name, processors, memory, comPorts, gpu, adapters, devices, folders, secureBoot, tpm, guestState, runtimeState);
    RootObjectSecureBoot(typ, version, guestType, name, processors, memory, comPorts, gpu, adapters, devices, folders, secureBoot, tpm, guestState, runtimeState);
    RootObjectTpm(typ, version, guestType, name, processors, memory, comPorts, gpu, adapters, devices, folders, secureBoot, tpm, guestState, runtimeState);
    RootObjectGuestStateFile(typ, version, guestType, name, processors, memory, comPorts, gpu, adapters, devices, folders, secureBoot, tpm, guestState, runtimeState);
    RootObjectRuntimeStateFile(typ, version, guestType, name, processors, memory, comPorts, gpu, adapters, devices, folders, secureBoot, tpm, guestState, runtimeState);
  }

  /** The header fields of a record, on an otherwise default record. */
  function Header(c: VirtualMachineConfiguration): VirtualMachineConfiguration
  {
    DefaultConfiguration.(
      Version := c.Version,
      GuestType := c.GuestType,
      Name := c.Name,
      ProcessorCount := c.ProcessorCount,
      MemorySize := c.MemorySize)
  }

  /** Each collection of a valid record, and its GPU settings, come back
      from the value the serializer writes for it. */
  lemma ComPortsFromRoot(root: Json, c: VirtualMachineConfiguration)
    requires Field(root, "ComPorts") == ArrayOf(EncodeAll(c.ComPorts, StringJson))
    ensures FilterMap(Elements(Field(root, "ComPorts")), GetString) == c.ComPorts
  {
    StringsRoundTrip(c.ComPorts);
  }

  lemma GpuFromRoot(root: Json, c: VirtualMachineConfiguration)
    requires c.Gpu.Valid() && Field(root, "Gpu") == GpuJson(c.Gpu)
    ensures GpuOf(Field(root, "Gpu")) == c.Gpu
  {
    GpuRoundTrip(c.Gpu);
  }

  lemma NetworkAdaptersFromRoot(root: Json, c: VirtualMachineConfiguration)
    requires forall a :: a in c.NetworkAdapters ==> a.Valid()
    requires Field(root, "NetworkAdapters") == ArrayOf(EncodeAll(c.NetworkAdapters, NetworkAdapterJson))
    ensures FilterMap(Elements(Field(root, "NetworkAdapters")), NetworkAdapterOf) == c.NetworkAdapters
  {
    forall a | a in c.NetworkAdapters
      ensures NetworkAdapterOf(NetworkAdapterJson(a)) == Some(a)
    {
      NetworkAdapterRoundTrip(a);
    }
    FilterMapEncoded(c.NetworkAdapters, NetworkAdapterJson, NetworkAdapterOf);
  }

  lemma ScsiDevicesFromRoot(root: Json, c: VirtualMachineConfiguration)
    requires forall d :: d in c.ScsiDevices ==> d.Valid()
    requires Field(root, "ScsiDevices") == ArrayOf(EncodeAll(c.ScsiDevices, ScsiDeviceJson))
    ensures ScsiDevicesOf(Elements(Field(root, "ScsiDevices"))) == c.ScsiDevices
  {
    ScsiDevicesRoundTrip(c.ScsiDevices);
  }

  lemma SharedFoldersFromRoot(root: Json, c: VirtualMachineConfiguration)
    requires forall f :: f in c.SharedFolders ==> f.Valid()
    requires Field(root, "SharedFolders") == ArrayOf(EncodeAll(c.SharedFolders, SharedFolderJson))
    ensures FilterMap(Elements(Field(root, "SharedFolders")), SharedFolderOf) == c.SharedFolders
  {
    forall f | f in c.SharedFolders
      ensures SharedFolderOf(SharedFolderJson(f)) == Some(f)
    {
      SharedFolderRoundTrip(f);
    }
    FilterMapEncoded(c.SharedFolders, SharedFolderJson, SharedFolderOf);
  }

  /** A version-1 header passes every fatal check and is read as written. */
  lemma HeaderRoundTrip(root: Json, c: VirtualMachineConfiguration)
    requires c.Version == 1 && Encodes(root, c)
    ensures ParseHeader(root) == Success(Header(c))
  {
    GuestTypeRoundTrip(c.GuestType);
  }

  /** Reading the collections into a record with no elements yet puts the
      decoded ones in place. */
  lemma CollectionsRoundTrip(root: Json, x: VirtualMachineConfiguration, c: VirtualMachineConfiguration)
    requires root.Obj?
    requires x.ComPorts == [] && x.NetworkAdapters == [] && x.ScsiDevices == [] && x.SharedFolders == []
    requires FilterMap(Elements(Field(root, "ComPorts")), GetString) == c.ComPorts
    requires GpuOf(Field(root, "Gpu")) == c.Gpu
    requires FilterMap(Elements(Field(root, "NetworkAdapters")), NetworkAdapterOf) == c.NetworkAdapters
    requires ScsiDevicesOf(Elements(Field(root, "ScsiDevices"))) == c.ScsiDevices
    requires FilterMap(Elements(Field(root, "SharedFolders")), SharedFolderOf) == c.SharedFolders
    ensures WithCollections(root, x) == x.(
      ComPorts := c.ComPorts, Gpu := c.Gpu, NetworkAdapters := c.NetworkAdapters,
      ScsiDevices := c.ScsiDevices, SharedFolders := c.SharedFolders)
  {
  }

  /** Flags and state-file paths written as booleans and strings are read
      back as written. */
  lemma FlagsAndPathsRoundTrip(root: Json, x: VirtualMachineConfiguration, c: VirtualMachineConfiguration)
    requires root.Obj?
    requires Field(root, "SecureBoot") == Bool(c.SecureBoot)
    requires Field(root, "Tpm") == Bool(c.Tpm)
    requires Field(root, "GuestStateFile") == Str(c.GuestStateFile)
    requires Field(root, "RuntimeStateFile") == Str(c.RuntimeStateFile)
    ensures WithFlagsAndPaths(root, x) == x.(SecureBoot := c.SecureBoot, Tpm := c.Tpm,
      GuestStateFile := c.GuestStateFile, RuntimeStateFile := c.RuntimeStateFile)
  {
  }

  /** The fields that never fail put c's own values into a record that
      already holds c's header and no elements. */
  lemma OptionalFieldsRoundTrip(root: Json, h: VirtualMachineConfiguration, c: VirtualMachineConfiguration)
    requires c.Valid() && Encodes(root, c)
    requires h.Version == c.Version && h.GuestType == c.GuestType && h.Name == c.Name
    requires h.ProcessorCount == c.ProcessorCount && h.MemorySize == c.MemorySize
    requires h.ComPorts == [] && h.NetworkAdapters == [] && h.ScsiDevices == [] && h.SharedFolders == []
    ensures WithOptionalFields(root, h) == c
  {
    ComPortsFromRoot(root, c);
    GpuFromRoot(root, c);
    NetworkAdaptersFromRoot(root, c);
    ScsiDevicesFromRoot(root, c);
    SharedFoldersFromRoot(root, c);
    CollectionsRoundTrip(root, h, c);
    FlagsAndPathsRoundTrip(root, WithCollections(root, h), c);
  }

  /** Every field of a valid record comes back from a root object that encodes it. */
  lemma RootRoundTrip(root: Json, c: VirtualMachineConfiguration)
    requires c.Valid() && Encodes(root, c)
    ensures ParseRoot(root) == Success(c)
  {
    HeaderRoundTrip(root, c);
    OptionalFieldsRoundTrip(root, Header(c), c);
  }

  /** Serializing a record and deserializing the tree gives the record back
      exactly when the record is valid (Unknown and Disabled travel as null). */
  lemma ParseSerialize(c: VirtualMachineConfiguration)
    ensures Parse(Serialize(c)) == Success(c) <==> c.Valid()
  {
    if c.Valid() {
      assert Field(Serialize(c), "NanaBox") == RootJson(c);
      RootJsonEncodes(c);
      RootRoundTrip(RootJson(c), c);
    } else if Parse(Serialize(c)) == Success(c) {
      ParseYieldsValid(Serialize(c));
    }
  }

  /** Saving what was loaded and loading it again changes nothing, even
      though the first load may have dropped or defaulted parts of the input. */
  lemma ReloadIsStable(doc: Json)
    requires Parse(doc).Success?
    ensures Parse(Serialize(Parse(doc).config)) == Parse(doc)
  {
    ParseYieldsValid(doc);
    ParseSerialize(Parse(doc).config);
  }
}
