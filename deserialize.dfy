/** DeserializeConfiguration: a JSON tree to a validated configuration record.
    Each field follows one of three policies: the whole parse fails (Type,
    Version, Name, ProcessorCount, MemorySize), a default is taken (flags and
    state-file paths), or the offending array element is dropped (COM ports,
    GPU devices, network adapters, SCSI devices, shared folders).
    The functions state what a parse yields; the methods compute it the way
    the source does, field by field and element by element, and are proved
    to agree with the functions. */
module Deserializer {
  import opened JsonTree
  import opened Schema
  import opened EnumTables

  /** The exceptions that escape DeserializeConfiguration. */
  datatype ParseError =
    | NotAnObject                        // operator[] on a value that is neither null nor an object
    | TypeNotString                      // "Type" missing or not a string
    | InvalidVirtualMachineConfiguration // "Type" a string other than "VirtualMachine"
    | InvalidVersion                     // "Version" read, but not 1
    | NameNotString                      // "Name" missing or not a string
    | InvalidProcessorCount              // "ProcessorCount" unreadable as uint32
    | InvalidMemorySize                  // "MemorySize" unreadable as uint32

  datatype ParseResult =
    | Success(config: VirtualMachineConfiguration)
    | Failure(error: ParseError)

  /** A range-for over items whose body appends f's value when there is one
      and otherwise skips the element (`continue` or a swallowed exception). */
  function FilterMap<T>(items: seq<Json>, f: Json -> Option<T>): (kept: seq<T>)
    ensures |kept| <= |items|
  {
    if items == [] then []
    else (match f(items[0]) case Some(y) => [y] case None => []) + FilterMap(items[1..], f)
  }

  /** Skipping is local to one element: the kept values of a concatenation
      are the kept values of each part, in order. */
  lemma {:induction false} FilterMapAppend<T>(xs: seq<Json>, ys: seq<Json>, f: Json -> Option<T>)
    ensures FilterMap(xs + ys, f) == FilterMap(xs, f) + FilterMap(ys, f)
  {
    if xs == [] {
      assert xs + ys == ys;
    } else {
      assert (xs + ys)[0] == xs[0];
      assert (xs + ys)[1..] == xs[1..] + ys;
      FilterMapAppend(xs[1..], ys, f);
    }
  }

  /** A skipped element leaves no trace: its siblings are kept as if it were absent. */
  lemma SkippedElementIsInvisible<T>(xs: seq<Json>, e: Json, ys: seq<Json>, f: Json -> Option<T>)
    requires f(e).None?
    ensures FilterMap(xs + [e] + ys, f) == FilterMap(xs + ys, f)
  {
    FilterMapAppend(xs + [e], ys, f);
    FilterMapAppend(xs, [e], f);
    FilterMapAppend(xs, ys, f);
  }

  /** A value is kept exactly when some element yields it. */
  lemma {:induction false} FilterMapMembership<T>(xs: seq<Json>, f: Json -> Option<T>, y: T)
    ensures y in FilterMap(xs, f) <==> exists x :: x in xs && f(x) == Some(y)
  {
    if xs != [] {
      FilterMapMembership(xs[1..], f, y);
      assert forall x :: x in xs <==> x == xs[0] || x in xs[1..] by {
        assert xs == [xs[0]] + xs[1..];
      }
    }
  }

  /** A flag read with a default: a missing element key, a non-object element
      or a non-boolean value all give the default. */
  function BoolOr(v: Option<Json>, default: bool): bool
  {
    match v
    case Some(Bool(b)) => b
    case _ => default
  }

  /** `Element[key].get<std::string>()` on an array element: None when either step throws. */
  function StringAt(e: Json, key: string): (s: Option<string>)
    ensures s.Some? <==> e.Obj? && Field(e, key).Str?
    ensures s.Some? ==> s.value == Field(e, key).s
  {
    match ConstSubscript(e, key)
    case Some(Str(s)) => Some(s)
    case _ => None
  }

  /** One element of "NetworkAdapters"; None when it is skipped. */
  function NetworkAdapterOf(e: Json): Option<NetworkAdapterConfiguration>
  {
    var enabled := BoolOr(ConstSubscript(e, "Enabled"), false);
    var connected := BoolOr(ConstSubscript(e, "Connected"), false);
    match StringAt(e, "MacAddress")
    case None => None
    case Some(mac) =>
      if mac == "" then None
      else Some(NetworkAdapterConfiguration(enabled, connected, mac))
  }

  /** An adapter is kept exactly when its MAC address is a non-empty string;
      the flags are true only when written as true. */
  lemma NetworkAdapterKept(e: Json)
    ensures var a := NetworkAdapterOf(e);
      && (a.Some? <==> Field(e, "MacAddress").Str? && Field(e, "MacAddress").s != "")
      && (a.Some? ==> a.value.Valid() && a.value.MacAddress == Field(e, "MacAddress").s)
      && (a.Some? ==> (a.value.Enabled <==> Field(e, "Enabled") == Bool(true)))
      && (a.Some? ==> (a.value.Connected <==> Field(e, "Connected") == Bool(true)))
  {
  }

  /** One element of "SharedFolders"; None when it is skipped. */
  function SharedFolderOf(e: Json): Option<SharedFolderConfiguration>
  {
    var enabled := BoolOr(ConstSubscript(e, "Enabled"), false);
    var readOnly := BoolOr(ConstSubscript(e, "ReadOnly"), true);
    match StringAt(e, "HostPath")
    case None => None
    case Some(hostPath) =>
      if hostPath == "" then None
      else
        match StringAt(e, "GuestName")
        case None => None
        case Some(guestName) =>
          if guestName == "" then None
          else Some(SharedFolderConfiguration(enabled, readOnly, hostPath, guestName))
  }

  /** A folder is kept exactly when both paths are non-empty strings;
      ReadOnly is true unless written as false. */
  lemma SharedFolderKept(e: Json)
    ensures var f := SharedFolderOf(e);
      && (f.Some? <==>
           && Field(e, "HostPath").Str? && Field(e, "HostPath").s != ""
           && Field(e, "GuestName").Str? && Field(e, "GuestName").s != "")
      && (f.Some? ==> f.value.Valid())
      && (f.Some? ==> f.value.HostPath == Field(e, "HostPath").s && f.value.GuestName == Field(e, "GuestName").s)
      && (f.Some? ==> (f.value.Enabled <==> Field(e, "Enabled") == Bool(true)))
      && (f.Some? ==> (f.value.ReadOnly <==> Field(e, "ReadOnly") != Bool(false)))
  {
  }

  /** What the SCSI loop does with one element: keep a device, skip the
      element (`continue`), or stop the whole loop (an exception that only the
      try around the loop catches). */
  datatype ScsiStep = Keep(device: ScsiDeviceConfiguration) | Skip | Stop

  /** One element of "ScsiDevices". Reading "Type" throws only for a
      non-object element (an unlisted or missing type reads as VirtualDisk);
      reading "Path" throws when it is not a string, and nothing around it
      catches that per element. */
  function ScsiStepOf(e: Json): ScsiStep
  {
    var enabled := BoolOr(ConstSubscript(e, "Enabled"), false);
    match ConstSubscript(e, "Type")
    case None => Skip
    case Some(t) =>
      var deviceType := ScsiDeviceTypeFromJson(t);
      match StringAt(e, "Path")
      case None => Stop
      case Some(path) =>
        if path == "" && deviceType != VirtualImage then Skip
        else Keep(ScsiDeviceConfiguration(enabled, deviceType, path))
  }

  /** The loop stops exactly at an object whose Path is not a string; it
      skips a non-object and a pathless device that is not a virtual image;
      it keeps everything else, as written. */
  lemma ScsiStepCases(e: Json)
    ensures var step := ScsiStepOf(e);
      && (step.Stop? <==> e.Obj? && !Field(e, "Path").Str?)
      && (step.Skip? <==> !e.Obj? || (Field(e, "Path") == Str("") && ScsiDeviceTypeFromJson(Field(e, "Type")) != VirtualImage))
      && (step.Keep? ==> step.device.Valid())
      && (step.Keep? ==> step.device == ScsiDeviceConfiguration(
            Field(e, "Enabled") == Bool(true), ScsiDeviceTypeFromJson(Field(e, "Type")), Field(e, "Path").s))
  {
  }

  /** No element of items stops the SCSI loop. */
  predicate NoStop(items: seq<Json>)
  {
    forall e :: e in items ==> !ScsiStepOf(e).Stop?
  }

  /** The SCSI devices kept from items: those kept before the first element
      that stops the loop. */
  function ScsiDevicesOf(items: seq<Json>): (devices: seq<ScsiDeviceConfiguration>)
    ensures |devices| <= |items|
    ensures forall d :: d in devices ==> d.Valid()
  {
    if items == [] then []
    else
      match ScsiStepOf(items[0])
      case Stop => []
      case Skip => ScsiDevicesOf(items[1..])
      case Keep(d) => ScsiStepCases(items[0]); [d] + ScsiDevicesOf(items[1..])
  }

  /** Elements after one that stops the loop are never looked at; before it,
      skipping is local to one element and order is kept. */
  lemma {:induction false} ScsiDevicesAppend(xs: seq<Json>, ys: seq<Json>)
    ensures ScsiDevicesOf(xs + ys) ==
      ScsiDevicesOf(xs) + (if NoStop(xs) then ScsiDevicesOf(ys) else [])
  {
    if xs == [] {
      assert xs + ys == ys;
    } else {
      assert (xs + ys)[0] == xs[0];
      assert (xs + ys)[1..] == xs[1..] + ys;
      assert NoStop(xs) <==> !ScsiStepOf(xs[0]).Stop? && NoStop(xs[1..]) by {
        assert xs == [xs[0]] + xs[1..];
      }
      ScsiDevicesAppend(xs[1..], ys);
    }
  }

  /** An element that stops the loop keeps the devices accepted before it
      and discards everything after it. */
  lemma ScsiStopKeepsPrefix(xs: seq<Json>, e: Json, ys: seq<Json>)
    requires NoStop(xs) && ScsiStepOf(e).Stop?
    ensures ScsiDevicesOf(xs + [e] + ys) == ScsiDevicesOf(xs)
  {
    ScsiDevicesAppend(xs, [e] + ys);
    assert xs + [e] + ys == xs + ([e] + ys);
  }

  /** The GPU settings read from the "Gpu" value, with the invariant restored:
      a List with no device becomes Disabled, and any mode other than List
      drops its devices. A value that is neither null nor an object throws on
      its first subscript and leaves the default in place. */
  function GpuOf(gpu: Json): GpuConfiguration
  {
    match Subscript(gpu, "AssignmentMode")
    case None => DefaultGpu
    case Some(m) =>
      var mode := GpuAssignmentModeFromJson(m);
      var devices := FilterMap(Elements(Field(gpu, "SelectedDevices")), GetString);
      var mode' := if devices == [] && mode == List then Disabled else mode;
      GpuConfiguration(mode', if mode' != List then [] else devices)
  }

  /** The GPU settings read always keep the invariant; an unreadable value
      leaves the default. Otherwise a mode other than List is kept as written
      with no devices, and a List stays List with every string device unless
      there is none, when it becomes the default. */
  lemma GpuRead(gpu: Json)
    ensures var g := GpuOf(gpu);
      && g.Valid()
      && (!(gpu.Null? || gpu.Obj?) ==> g == DefaultGpu)
      && (g.AssignmentMode == List ==>
            g.SelectedDevices == FilterMap(Elements(Field(gpu, "SelectedDevices")), GetString))
    ensures gpu.Null? || gpu.Obj? ==>
      var m := GpuAssignmentModeFromJson(Field(gpu, "AssignmentMode"));
      var ds := FilterMap(Elements(Field(gpu, "SelectedDevices")), GetString);
      GpuOf(gpu) ==
        if m != List then GpuConfiguration(m, [])
        else if ds == [] then DefaultGpu
        else GpuConfiguration(List, ds)
  {
  }

  function StringOr(j: Json, default: string): string
  {
    match j
    case Str(s) => s
    case _ => default
  }

  /** The fatal fields of the root object, once its "Type" has been accepted,
      in the order they are read, on an otherwise default record. */
  function ParseHeader(root: Json): ParseResult
  {
    var version: uint32 := match GetU32(Field(root, "Version")) case Some(v) => v case None => 1;
    if version != 1 then Failure(InvalidVersion)
    else
      var guestType := GuestTypeFromJson(Field(root, "GuestType"));
      var name := GetString(Field(root, "Name"));
      var processors := GetU32(Field(root, "ProcessorCount"));
      var memory := GetU32(Field(root, "MemorySize"));
      if name.None? then Failure(NameNotString)
      else if processors.None? then Failure(InvalidProcessorCount)
      else if memory.None? then Failure(InvalidMemorySize)
      else
        Success(DefaultConfiguration.(
          Version := version,
          GuestType := guestType,
          Name := name.value,
          ProcessorCount := processors.value,
          MemorySize := memory.value))
  }

  /** The root object once its "Type" has been accepted: the fatal fields,
      then the rest. */
  function ParseRoot(root: Json): ParseResult
    requires root.Obj?
  {
    match ParseHeader(root)
    case Failure(e) => Failure(e)
    case Success(header) => Success(WithOptionalFields(root, header))
  }

  /** The fields that never fail, read into c. */
  function WithOptionalFields(root: Json, c: VirtualMachineConfiguration): VirtualMachineConfiguration
    requires root.Obj?
  {
    WithFlagsAndPaths(root, WithCollections(root, c))
  }

  /** The sequences and the GPU settings: the kept elements are appended to
      c's sequences. */
  function WithCollections(root: Json, c: VirtualMachineConfiguration): VirtualMachineConfiguration
    requires root.Obj?
  {
    c.(
      ComPorts := c.ComPorts + FilterMap(Elements(Field(root, "ComPorts")), GetString),
      Gpu := GpuOf(Field(root, "Gpu")),
      NetworkAdapters := c.NetworkAdapters + FilterMap(Elements(Field(root, "NetworkAdapters")), NetworkAdapterOf),
      ScsiDevices := c.ScsiDevices + ScsiDevicesOf(Elements(Field(root, "ScsiDevices"))),
      SharedFolders := c.SharedFolders + FilterMap(Elements(Field(root, "SharedFolders")), SharedFolderOf))
  }

  /** The flags default to false, and a state-file path that is not a
      string leaves c's path in place. */
  function WithFlagsAndPaths(root: Json, c: VirtualMachineConfiguration): VirtualMachineConfiguration
    requires root.Obj?
  {
    c.(
      SecureBoot := BoolOr(Some(Field(root, "SecureBoot")), false),
      Tpm := BoolOr(Some(Field(root, "Tpm")), false),
      GuestStateFile := StringOr(Field(root, "GuestStateFile"), c.GuestStateFile),
      RuntimeStateFile := StringOr(Field(root, "RuntimeStateFile"), c.RuntimeStateFile))
  }

  /** The outcome of DeserializeConfiguration on a parsed document. */
  function Parse(doc: Json): ParseResult
  {
    match Subscript(doc, "NanaBox")
    case None => Failure(NotAnObject)
    case Some(root) =>
      match Subscript(root, "Type")
      case None => Failure(NotAnObject)
      case Some(t) =>
        if !t.Str? then Failure(TypeNotString)
        else if t.s != "VirtualMachine" then Failure(InvalidVirtualMachineConfiguration)
        else ParseRoot(root)
  }

  /** The documents that parse: the ones whose Type, Version, Name,
      ProcessorCount and MemorySize all pass; nothing else can fail. */
  predicate Accepted(doc: Json)
  {
    var root := Field(doc, "NanaBox");
    var version := GetU32(Field(root, "Version"));
    && Field(root, "Type") == Str("VirtualMachine")
    && (version.None? || version.value == 1)
    && Field(root, "Name").Str?
    && GetU32(Field(root, "ProcessorCount")).Some?
    && GetU32(Field(root, "MemorySize")).Some?
  }

  lemma ParseSucceedsExactlyWhenAccepted(doc: Json)
    ensures Parse(doc).Success? <==> Accepted(doc)
  {
  }

  /** A Type that is a string other than "VirtualMachine" is rejected,
      whatever the rest of the document holds. */
  lemma ParseRejectsOtherType(doc: Json)
    requires Field(Field(doc, "NanaBox"), "Type").Str?
    requires Field(Field(doc, "NanaBox"), "Type").s != "VirtualMachine"
    ensures Parse(doc) == Failure(InvalidVirtualMachineConfiguration)
  {
  }

  /** A missing or non-string Type is rejected too. */
  lemma ParseRejectsMissingType(doc: Json)
    requires !Field(Field(doc, "NanaBox"), "Type").Str?
    ensures Parse(doc).Failure?
  {
  }

  /** A Version that reads as anything but 1 is rejected once Type is
      accepted, whatever the other fields hold; a missing or unreadable
      Version counts as 1. */
  lemma ParseRejectsOtherVersion(doc: Json)
    requires Field(Field(doc, "NanaBox"), "Type") == Str("VirtualMachine")
    ensures GetU32(Field(Field(doc, "NanaBox"), "Version")).Some? &&
            GetU32(Field(Field(doc, "NanaBox"), "Version")).value != 1
            ==> Parse(doc) == Failure(InvalidVersion)
    ensures GetU32(Field(Field(doc, "NanaBox"), "Version")).None? && Parse(doc).Success?
            ==> Parse(doc).config.Version == 1
  {
  }

  /** What a successful read leaves in the fields that never fail when they
      are absent or unreadable: the flags are true only when written as true,
      a state-file path that is not a string stays empty, an absent array
      reads as empty, and an absent Gpu leaves the default settings. */
  lemma ParseDefaults(doc: Json)
    requires Parse(doc).Success?
    ensures var root := Field(doc, "NanaBox");
      var c := Parse(doc).config;
      && (c.SecureBoot <==> Field(root, "SecureBoot") == Bool(true))
      && (c.Tpm <==> Field(root, "Tpm") == Bool(true))
      && (!Field(root, "GuestStateFile").Str? ==> c.GuestStateFile == "")
      && (!Field(root, "RuntimeStateFile").Str? ==> c.RuntimeStateFile == "")
      && (Field(root, "ComPorts") == Null ==> c.ComPorts == [])
      && (Field(root, "NetworkAdapters") == Null ==> c.NetworkAdapters == [])
      && (Field(root, "ScsiDevices") == Null ==> c.ScsiDevices == [])
      && (Field(root, "SharedFolders") == Null ==> c.SharedFolders == [])
      && (Field(root, "Gpu") == Null ==> c.Gpu == DefaultGpu)
  {
  }

  // ---------------------------------------------------------------------
  // The deserializer as the source runs it.

  /** A range-for that appends f's value of each element, skipping the
      elements f rejects. */
  method Collect<T>(items: seq<Json>, f: Json -> Option<T>) returns (kept: seq<T>)
    ensures kept == FilterMap(items, f)
  {
    kept := [];
    var i := 0;
    while i < |items|
      invariant 0 <= i <= |items|
      invariant kept + FilterMap(items[i..], f) == FilterMap(items, f)
    {
      assert items[i..][1..] == items[i + 1..];
      match f(items[i]) {
        case Some(y) => kept := kept + [y];
        case None =>
      }
      i := i + 1;
    }
  }

  /** The body of the SCSI loop for one element, as the source runs it:
      fill a default device field by field, leaving early to skip the element
      or to end the loop. */
  method ReadScsiDevice(e: Json) returns (step: ScsiStep)
    ensures step == ScsiStepOf(e)
  {
    var current := ScsiDeviceConfiguration(false, VirtualDisk, "");
    current := current.(Enabled := BoolOr(ConstSubscript(e, "Enabled"), false));
    var typeValue := ConstSubscript(e, "Type");
    if typeValue.None? {
      return Skip;
    }
    current := current.(Type := ScsiDeviceTypeFromJson(typeValue.value));
    var path := StringAt(e, "Path");
    if path.None? {
      return Stop;
    }
    current := current.(Path := path.value);
    if current.Path == "" && current.Type != VirtualImage {
      return Skip;
    }
    return Keep(current);
  }

  /** The SCSI loop: devices are appended as they are accepted, and an
      element whose Path is not a string ends the loop. */
  method CollectScsiDevices(items: seq<Json>) returns (devices: seq<ScsiDeviceConfiguration>)
    ensures devices == ScsiDevicesOf(items)
  {
    devices := [];
    var i := 0;
    while i < |items|
      invariant 0 <= i <= |items|
      invariant devices + ScsiDevicesOf(items[i..]) == ScsiDevicesOf(items)
    {
      assert items[i..][1..] == items[i + 1..];
      var step := ReadScsiDevice(items[i]);
      match step {
        case Stop => break;
        case Skip =>
        case Keep(device) => devices := devices + [device];
      }
      i := i + 1;
    }
  }

  /** The "Gpu" block: read the mode, append the selected devices, then
      restore the invariant in place. */
  method ReadGpu(gpu: Json) returns (g: GpuConfiguration)
    ensures g == GpuOf(gpu)
  {
    g := DefaultGpu;
    var mode := Subscript(gpu, "AssignmentMode");
    if mode.None? {
      return;
    }
    g := g.(AssignmentMode := GpuAssignmentModeFromJson(mode.value));
    var devices := Collect(Elements(Field(gpu, "SelectedDevices")), GetString);
    g := g.(SelectedDevices := g.SelectedDevices + devices);
    if g.SelectedDevices == [] && g.AssignmentMode == List {
      g := g.(AssignmentMode := Disabled);
    }
    if g.AssignmentMode != List {
      g := g.(SelectedDevices := []);
    }
  }

  /** DeserializeConfiguration on a parsed document: check the document
      type, then read the root object. */
  method DeserializeConfiguration(doc: Json) returns (r: ParseResult)
    ensures r == Parse(doc)
  {
    var rootLookup := Subscript(doc, "NanaBox");
    if rootLookup.None? {
      return Failure(NotAnObject);
    }
    var root := rootLookup.value;
    var typeLookup := Subscript(root, "Type");
    if typeLookup.None? {
      return Failure(NotAnObject);
    }
    var typeName := GetString(typeLookup.value);
    if typeName.None? {
      return Failure(TypeNotString);
    }
    if typeName.value != "VirtualMachine" {
      return Failure(InvalidVirtualMachineConfiguration);
    }
    r := ReadRoot(root);
  }

  /** The rest of DeserializeConfiguration: the fatal fields, then the rest. */
  method ReadRoot(root: Json) returns (r: ParseResult)
    requires root.Obj?
    ensures r == ParseRoot(root)
  {
    r := ReadHeader(root);
    if r.Success? {
      var result := ReadOptionalFields(root, r.config);
      r := Success(result);
    }
  }

  /** Fill a default record with the fatal fields, failing on the first that
      cannot be read. */
  method ReadHeader(root: Json) returns (r: ParseResult)
    ensures r == ParseHeader(root)
  {
    var result := DefaultConfiguration;
    var version := GetU32(Field(root, "Version"));
    result := result.(Version := if version.Some? then version.value else 1);
    if result.Version != 1 {
      return Failure(InvalidVersion);
    }
    result := result.(GuestType := GuestTypeFromJson(Field(root, "GuestType")));
    var name := GetString(Field(root, "Name"));
    if name.None? {
      return Failure(NameNotString);
    }
    result := result.(Name := name.value);
    var processors := GetU32(Field(root, "ProcessorCount"));
    if processors.None? {
      return Failure(InvalidProcessorCount);
    }
    result := result.(ProcessorCount := processors.value);
    var memory := GetU32(Field(root, "MemorySize"));
    if memory.None? {
      return Failure(InvalidMemorySize);
    }
    result := result.(MemorySize := memory.value);
    return Success(result);
  }

  /** The fields of DeserializeConfiguration that never fail, each read
      into the record in place. */
  method ReadOptionalFields(root: Json, c: VirtualMachineConfiguration) returns (result: VirtualMachineConfiguration)
    requires root.Obj?
    ensures result == WithOptionalFields(root, c)
  {
    result := ReadCollections(root, c);
    result := ReadFlagsAndPaths(root, result);
  }

  method ReadCollections(root: Json, c: VirtualMachineConfiguration) returns (result: VirtualMachineConfiguration)
    requires root.Obj?
    ensures result == WithCollections(root, c)
  {
    result := c;
    var comPorts := Collect(Elements(Field(root, "ComPorts")), GetString);
    result := result.(ComPorts := result.ComPorts + comPorts);
    var gpu := ReadGpu(Field(root, "Gpu"));
    result := result.(Gpu := gpu);
    var adapters := Collect(Elements(Field(root, "NetworkAdapters")), NetworkAdapterOf);
    result := result.(NetworkAdapters := result.NetworkAdapters + adapters);
    var devices := CollectScsiDevices(Elements(Field(root, "ScsiDevices")));
    result := result.(ScsiDevices := result.ScsiDevices + devices);
    var folders := Collect(Elements(Field(root, "SharedFolders")), SharedFolderOf);
    result := result.(SharedFolders := result.SharedFolders + folders);
  }

  method ReadFlagsAndPaths(root: Json, c: VirtualMachineConfiguration) returns (result: VirtualMachineConfiguration)
    requires root.Obj?
    ensures result == WithFlagsAndPaths(root, c)
  {
    result := c;
    var secureBoot := GetBool(Field(root, "SecureBoot"));
    result := result.(SecureBoot := if secureBoot.Some? then secureBoot.value else false);
    var tpm := GetBool(Field(root, "Tpm"));
    result := result.(Tpm := if tpm.Some? then tpm.value else false);
    var guestStateFile := GetString(Field(root, "GuestStateFile"));
    if guestStateFile.Some? {
      result := result.(GuestStateFile := guestStateFile.value);
    }
    var runtimeStateFile := GetString(Field(root, "RuntimeStateFile"));
    if runtimeStateFile.Some? {
      result := result.(RuntimeStateFile := runtimeStateFile.value);
    }
  }
}
