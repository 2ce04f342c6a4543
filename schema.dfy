/** The virtual-machine configuration record and its parts, with the
    invariants a record keeps once it has been validated. Field names follow
    the record's own. The record's declaration and its default member values
    live in a header that is not part of this model; the defaults here are
    the ones the codec's behaviour shows. */
module Schema {
  import opened JsonTree

  datatype GuestType = Unknown | Windows | Linux

  datatype GpuAssignmentMode = Disabled | Default | List | Mirror

  datatype ScsiDeviceType = VirtualDisk | VirtualImage | PhysicalDevice

  datatype GpuConfiguration = GpuConfiguration(
    AssignmentMode: GpuAssignmentMode,
    SelectedDevices: seq<string>)
  {
    /** Devices are selected exactly when the mode is List. */
    predicate Valid()
    {
      (AssignmentMode == List) == (SelectedDevices != [])
    }
  }

  datatype NetworkAdapterConfiguration = NetworkAdapterConfiguration(
    Enabled: bool,
    Connected: bool,
    MacAddress: string)
  {
    predicate Valid()
    {
      MacAddress != ""
    }
  }

  datatype ScsiDeviceConfiguration = ScsiDeviceConfiguration(
    Enabled: bool,
    Type: ScsiDeviceType,
    Path: string)
  {
    /** Only a virtual image may have no path (no media inserted). */
    predicate Valid()
    {
      Path != "" || Type == VirtualImage
    }
  }

  datatype SharedFolderConfiguration = SharedFolderConfiguration(
    Enabled: bool,
    ReadOnly: bool,
    HostPath: string,
    GuestName: string)
  {
    predicate Valid()
    {
      HostPath != "" && GuestName != ""
    }
  }

  datatype VirtualMachineConfiguration = VirtualMachineConfiguration(
    Version: uint32,
    GuestType: GuestType,
    Name: string,
    ProcessorCount: uint32,
    MemorySize: uint32,
    ComPorts: seq<string>,
    Gpu: GpuConfiguration,
    NetworkAdapters: seq<NetworkAdapterConfiguration>,
    ScsiDevices: seq<ScsiDeviceConfiguration>,
    SharedFolders: seq<SharedFolderConfiguration>,
    SecureBoot: bool,
    Tpm: bool,
    GuestStateFile: string,
    RuntimeStateFile: string)
  {
    /** What every record the deserializer returns satisfies. */
    predicate Valid()
    {
      && Version == 1
      && Gpu.Valid()
      && (forall a :: a in NetworkAdapters ==> a.Valid())
      && (forall d :: d in ScsiDevices ==> d.Valid())
      && (forall f :: f in SharedFolders ==> f.Valid())
    }
  }

  /** The GPU configuration of a default-constructed record. */
  const DefaultGpu: GpuConfiguration := GpuConfiguration(Disabled, [])

  /** A default-constructed record: the deserializer starts from it and
      overwrites every field except the state-file paths when they are absent,
      and appends to its (empty) sequences. */
  const DefaultConfiguration: VirtualMachineConfiguration :=
    VirtualMachineConfiguration(
      1, Unknown, "", 0, 0, [], DefaultGpu, [], [], [], false, false, "", "")
}
