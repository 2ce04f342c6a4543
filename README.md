# NanaBox virtual-machine configuration codec

NanaBox keeps each virtual machine's settings in a JSON file. The core of
that file's handling is `NanaBox/VirtualMachineConfiguration.cpp`. It has
two operations:

- `DeserializeConfiguration` turns the `"NanaBox"` object of a JSON document
  into a configuration record. Each field follows one of three policies:
  - **Fatal.** Type, Version, Name, ProcessorCount and MemorySize make the
    whole read fail.
  - **Default.** Flags and the two state-file paths fall back to a default.
  - **Dropped.** A bad element of ComPorts, the GPU's SelectedDevices,
    NetworkAdapters, ScsiDevices or SharedFolders is left out. In
    ScsiDevices, an element whose Path is not a string ends the loop instead.
- `SerializeConfiguration` writes a record back under `"NanaBox"`.

Enum values travel through three tables of (value, JSON) pairs, read as
the JSON library's enum macro reads them. GuestType Unknown and GPU
assignment mode Disabled are written as null.

The project has one module per concern:

- `JsonTree` (`json_tree.dfy`) models the JSON tree and the library
  operations the codec relies on:
  - the two forms of `operator[]`;
  - `get<std::string>`, `get<bool>` and `get<std::uint32_t>`;
  - range-for iteration, which visits nothing for null, an object's values
    in key order, and any other single value once;
  - `push_back`.
- `Schema` (`schema.dfy`) holds the record and its parts. Each has a `Valid()`
  predicate for the invariant that a successful read establishes.
- `EnumTables` (`enum_tables.dfy`) holds the three tables and their lookups.
  An unlisted value falls back to the table's first pair in either
  direction, so these lookups never fail.
- `Deserializer` (`deserialize.dfy`) gives the read in two forms:
  - functions that state what a read yields (`Parse` and its parts);
  - methods that run it the way the source does. They fill a default
    record field by field, append kept elements in loops and leave the SCSI
    loop early. Each method is proved equal to its function.
- `Serializer` (`serialize.dfy`) does the same for the write. Arrays are
  built by `push_back` in a loop, so an empty sequence stays JSON null.
- `RoundTrip` (`round_trip.dfy`) proves two things:
  - deserializing the serialized tree gives the record back exactly when
    the record is valid;
  - saving and reloading a loaded record changes nothing.

Where the field policies as documented and the code differ, the model
follows the code:

- GuestType is never fatal. The enum macro never throws, so an unknown
  string, a number or null all read as Unknown.
- A SCSI element whose Type is an unlisted value or null reads as
  VirtualDisk, so the `continue` after reading Type fires only when the
  element is not an object. A missing Type is undefined in the JSON library;
  the model reads it as null (see "Left out"), so it too reads as VirtualDisk.

## Model

| member | source | states |
|---|---|---|
| EnumTables.JsonOf | NanaBox/VirtualMachineConfiguration.cpp:15-32 | to_json gives the JSON of a pair listing the value, or the fallback |
| EnumTables.ValueOf | NanaBox/VirtualMachineConfiguration.cpp:15-32 | from_json gives the value of a pair listing the JSON, or the fallback |
| EnumTables.LookupRoundTrip | NanaBox/VirtualMachineConfiguration.cpp:15-32 | when no two pairs share a JSON value, every listed value comes back from its own JSON, whatever the fallbacks |
| EnumTables.ListedJsonOf | NanaBox/VirtualMachineConfiguration.cpp:15-32 | a listed value is written as the JSON of one of its own pairs, never the fallback |
| EnumTables.GuestTypeToJson | NanaBox/VirtualMachineConfiguration.cpp:15-19 | defines how a guest type is written, through its table |
| EnumTables.GuestTypeFromJson | NanaBox/VirtualMachineConfiguration.cpp:15-19 | defines how a guest type is read, through its table, never throwing |
| EnumTables.GpuAssignmentModeToJson | NanaBox/VirtualMachineConfiguration.cpp:21-26 | defines how an assignment mode is written, through its table |
| EnumTables.GpuAssignmentModeFromJson | NanaBox/VirtualMachineConfiguration.cpp:21-26 | defines how an assignment mode is read, through its table, never throwing |
| EnumTables.ScsiDeviceTypeToJson | NanaBox/VirtualMachineConfiguration.cpp:28-32 | defines how a device type is written, through its table |
| EnumTables.ScsiDeviceTypeFromJson | NanaBox/VirtualMachineConfiguration.cpp:28-32 | defines how a device type is read, through its table, never throwing |
| EnumTables.GuestTypeRoundTrip | NanaBox/VirtualMachineConfiguration.cpp:15-19 | every guest type survives write then read; only Unknown is written as null |
| EnumTables.GuestTypeFallback | NanaBox/VirtualMachineConfiguration.cpp:65-66 | any JSON but "Windows" and "Linux", null included, reads as Unknown, so GuestType never fails |
| EnumTables.GpuAssignmentModeRoundTrip | NanaBox/VirtualMachineConfiguration.cpp:21-26 | every assignment mode survives write then read; only Disabled is written as null |
| EnumTables.GpuAssignmentModeFallback | NanaBox/VirtualMachineConfiguration.cpp:118-119 | any JSON but the three listed strings, null included, reads as Disabled |
| EnumTables.ScsiDeviceTypeRoundTrip | NanaBox/VirtualMachineConfiguration.cpp:28-32 | every device type survives write then read and is written as a string |
| EnumTables.ScsiDeviceTypeFallback | NanaBox/VirtualMachineConfiguration.cpp:229-230 | any JSON but the three listed strings, null included, reads as VirtualDisk |
| JsonTree.Subscript | NanaBox/VirtualMachineConfiguration.cpp:39 | defines non-const `operator[]`: a value that is neither null nor an object throws; otherwise it yields the key's value, or null when the key is missing |
| JsonTree.ConstSubscript | NanaBox/VirtualMachineConfiguration.cpp:171-172 | defines `operator[]` on a range-for element: a non-object throws; otherwise it yields the key's value |
| JsonTree.GetString | NanaBox/VirtualMachineConfiguration.cpp:68-69 | defines `get<std::string>()`: only a string converts, anything else throws |
| JsonTree.GetBool | NanaBox/VirtualMachineConfiguration.cpp:311-313 | defines `get<bool>()`: only a boolean converts, anything else throws |
| JsonTree.GetU32 | NanaBox/VirtualMachineConfiguration.cpp:52-53 | a number in range reads as itself; the read succeeds exactly for numbers and booleans |
| JsonTree.SortedKeys | NanaBox/VirtualMachineConfiguration.cpp:96 | an object's keys, each once, in std::string order |
| JsonTree.Elements | NanaBox/VirtualMachineConfiguration.cpp:96 | a range-for visits nothing for null, an array's items, every value of an object once, and any other value itself |
| JsonTree.PushBack | NanaBox/VirtualMachineConfiguration.cpp:368 | `push_back` turns null into an array and appends the element |
| JsonTree.ArrayOf | NanaBox/VirtualMachineConfiguration.cpp:364-370 | the value left after pushing xs onto a fresh value is null or an array whose elements are exactly xs |
| Deserializer.FilterMap | NanaBox/VirtualMachineConfiguration.cpp:96-107 | a loop that skips bad elements keeps at most as many values as there are elements |
| Deserializer.FilterMapAppend | NanaBox/VirtualMachineConfiguration.cpp:96-107 | what is kept from two parts is what is kept from each, in input order |
| Deserializer.SkippedElementIsInvisible | NanaBox/VirtualMachineConfiguration.cpp:163-202 | a bad element never affects its siblings: the result is as if it were absent |
| Deserializer.FilterMapMembership | NanaBox/VirtualMachineConfiguration.cpp:96-107 | a value is kept exactly when some element yields it |
| Deserializer.StringAt | NanaBox/VirtualMachineConfiguration.cpp:189-190 | reading a string field of an element succeeds exactly when the element is an object and the field is a string |
| Deserializer.NetworkAdapterKept | NanaBox/VirtualMachineConfiguration.cpp:163-202 | an adapter is kept exactly when its MacAddress is a non-empty string; Enabled and Connected are true only when written as true |
| Deserializer.SharedFolderKept | NanaBox/VirtualMachineConfiguration.cpp:257-303 | a folder is kept exactly when HostPath and GuestName are non-empty strings; Enabled defaults to false and ReadOnly to true |
| Deserializer.ScsiStepCases | NanaBox/VirtualMachineConfiguration.cpp:213-246 | an element ends the loop exactly when it is an object whose Path is not a string; it is skipped exactly when it is not an object or has an empty Path and is not a VirtualImage; otherwise it is kept as written, valid |
| Deserializer.ScsiDevicesOf | NanaBox/VirtualMachineConfiguration.cpp:209-251 | every SCSI device kept is valid, and there are no more than elements |
| Deserializer.ScsiDevicesAppend | NanaBox/VirtualMachineConfiguration.cpp:209-251 | devices from a concatenation are those from the first part, followed by those from the second only when the first part never ends the loop |
| Deserializer.ScsiStopKeepsPrefix | NanaBox/VirtualMachineConfiguration.cpp:237-238 | an element whose Path is not a string keeps the devices accepted before it and drops all after it |
| Deserializer.GpuRead | NanaBox/VirtualMachineConfiguration.cpp:114-157 | the GPU settings read satisfy the invariant; an unreadable Gpu leaves the default; otherwise a mode other than List is kept as written with no devices, and a List keeps exactly its string devices unless there are none, when it becomes Disabled |
| Deserializer.ParseSucceedsExactlyWhenAccepted | NanaBox/VirtualMachineConfiguration.cpp:39-90 | a read succeeds exactly when Type is "VirtualMachine", Version reads as 1 or not at all, Name is a string and ProcessorCount and MemorySize read as uint32 |
| Deserializer.ParseRejectsOtherType | NanaBox/VirtualMachineConfiguration.cpp:41-46 | a Type string other than "VirtualMachine" fails with the invalid-configuration error |
| Deserializer.ParseRejectsMissingType | NanaBox/VirtualMachineConfiguration.cpp:39-42 | a missing or non-string Type fails |
| Deserializer.ParseRejectsOtherVersion | NanaBox/VirtualMachineConfiguration.cpp:50-63 | a Version that reads as anything but 1 fails with the invalid-version error; an unreadable Version counts as 1 |
| Deserializer.NetworkAdapterOf | NanaBox/VirtualMachineConfiguration.cpp:165-201 | defines how one NetworkAdapters element is read: flags default to false, and a non-string or empty MacAddress drops the element; its properties are in NetworkAdapterKept |
| Deserializer.SharedFolderOf | NanaBox/VirtualMachineConfiguration.cpp:259-302 | defines how one SharedFolders element is read: Enabled defaults to false and ReadOnly to true, and a non-string or empty HostPath or GuestName drops the element; its properties are in SharedFolderKept |
| Deserializer.ScsiStepOf | NanaBox/VirtualMachineConfiguration.cpp:215-245 | defines what the SCSI loop does with one element: keep, skip or stop; its properties are in ScsiStepCases |
| Deserializer.GpuOf | NanaBox/VirtualMachineConfiguration.cpp:114-157 | defines the GPU settings read from the Gpu value, with the invariant restored; its properties are in GpuRead |
| Deserializer.BoolOr | NanaBox/VirtualMachineConfiguration.cpp:310-328 | defines a boolean read whose exception is caught and replaced by a default |
| Deserializer.StringOr | NanaBox/VirtualMachineConfiguration.cpp:330-348 | defines a string read whose exception is caught and leaves the field as it was |
| Deserializer.ParseHeader | NanaBox/VirtualMachineConfiguration.cpp:48-90 | defines the reads of the fatal fields, in source order, and the error of the first that fails; ReadHeader is proved equal to it |
| Deserializer.ParseRoot | NanaBox/VirtualMachineConfiguration.cpp:48-350 | defines the read of an accepted root object: the fatal fields, then the rest |
| Deserializer.WithOptionalFields | NanaBox/VirtualMachineConfiguration.cpp:92-348 | defines the reads that never fail: the collections, then the flags and paths |
| Deserializer.WithCollections | NanaBox/VirtualMachineConfiguration.cpp:92-308 | defines the collections read: the kept elements of each array appended to the record's sequences, and the GPU settings replaced |
| Deserializer.WithFlagsAndPaths | NanaBox/VirtualMachineConfiguration.cpp:310-348 | defines the flags and state-file paths read; its properties are in ParseDefaults and FlagsAndPathsRoundTrip |
| Deserializer.Parse | NanaBox/VirtualMachineConfiguration.cpp:34-351 | defines the outcome of DeserializeConfiguration on a parsed document; its properties are in ParseSucceedsExactlyWhenAccepted, ParseDefaults, ParseYieldsValid and ParseSerialize |
| Deserializer.ParseDefaults | NanaBox/VirtualMachineConfiguration.cpp:310-348 | after a successful read, the flags are true only when written as true, a state-file path that is not a string is empty, an absent array is empty, and an absent Gpu leaves the default settings |
| Deserializer.Collect | NanaBox/VirtualMachineConfiguration.cpp:92-112 | the range-for loop appends exactly the values the skipping specification keeps |
| Deserializer.ReadScsiDevice | NanaBox/VirtualMachineConfiguration.cpp:215-245 | filling a device field by field with early exits takes the step the specification gives |
| Deserializer.CollectScsiDevices | NanaBox/VirtualMachineConfiguration.cpp:209-251 | the SCSI loop, with its break, yields exactly the specified devices |
| Deserializer.ReadGpu | NanaBox/VirtualMachineConfiguration.cpp:114-157 | reading the GPU settings and restoring the invariant in place yields the specified settings |
| Deserializer.DeserializeConfiguration | NanaBox/VirtualMachineConfiguration.cpp:34-351 | the read, run step by step, yields exactly the specified result or error |
| Deserializer.ReadRoot | NanaBox/VirtualMachineConfiguration.cpp:48-350 | the fatal fields, then the rest, as specified |
| Deserializer.ReadHeader | NanaBox/VirtualMachineConfiguration.cpp:48-90 | the fatal fields are read in order into a default record, failing on the first bad one |
| Deserializer.ReadOptionalFields | NanaBox/VirtualMachineConfiguration.cpp:92-348 | the fields that never fail are read into the record as specified |
| Deserializer.ReadCollections | NanaBox/VirtualMachineConfiguration.cpp:92-308 | the kept elements are appended to the record's sequences and the GPU settings replaced |
| Deserializer.ReadFlagsAndPaths | NanaBox/VirtualMachineConfiguration.cpp:310-348 | SecureBoot and Tpm default to false; a state-file path that is not a string leaves the record's own |
| Serializer.StringJson | NanaBox/VirtualMachineConfiguration.cpp:368 | defines how a string is written: as a JSON string |
| Serializer.NetworkAdapterJson | NanaBox/VirtualMachineConfiguration.cpp:390-395 | defines the object written for an adapter: Enabled, Connected and MacAddress |
| Serializer.ScsiDeviceJson | NanaBox/VirtualMachineConfiguration.cpp:403-408 | defines the object written for a SCSI device: Enabled, Type and Path |
| Serializer.SharedFolderJson | NanaBox/VirtualMachineConfiguration.cpp:416-422 | defines the object written for a shared folder: Enabled, ReadOnly, HostPath and GuestName |
| Serializer.GpuJson | NanaBox/VirtualMachineConfiguration.cpp:372-385 | defines the Gpu object: AssignmentMode and the SelectedDevices array |
| Serializer.RootJson | NanaBox/VirtualMachineConfiguration.cpp:356-429 | defines the root object: each field of the record under its key; its key-by-key content is in RoundTrip.RootJsonEncodes |
| Serializer.Serialize | NanaBox/VirtualMachineConfiguration.cpp:353-432 | defines the document written, the root object under "NanaBox"; its properties are in RoundTrip.ParseSerialize |
| Serializer.EncodeAll | NanaBox/VirtualMachineConfiguration.cpp:365-369 | the encoding of each element, in order, one for one |
| Serializer.EncodeAllAppend | NanaBox/VirtualMachineConfiguration.cpp:365-369 | encoding distributes over concatenation |
| Serializer.BuildArray | NanaBox/VirtualMachineConfiguration.cpp:364-370 | the push_back loop leaves null for no elements and otherwise the array of the encoded elements |
| Serializer.BuildGpu | NanaBox/VirtualMachineConfiguration.cpp:372-385 | the Gpu object holds the mode and the selected devices |
| Serializer.SerializeConfiguration | NanaBox/VirtualMachineConfiguration.cpp:353-432 | the tree built key by key is the specified document |
| RoundTrip.FilterMapEncoded | NanaBox/VirtualMachineConfiguration.cpp:96-107 | elements that decode to themselves all survive the skipping loop, in order |
| RoundTrip.StringsRoundTrip | NanaBox/VirtualMachineConfiguration.cpp:363-371 | a written string list, COM ports or GPU devices, reads back unchanged, an empty one included |
| RoundTrip.NetworkAdapterRoundTrip | NanaBox/VirtualMachineConfiguration.cpp:386-398 | a written adapter reads back exactly when its MAC address is not empty, and is dropped otherwise |
| RoundTrip.SharedFolderRoundTrip | NanaBox/VirtualMachineConfiguration.cpp:412-425 | a written folder reads back exactly when both its names are non-empty, and is dropped otherwise |
| RoundTrip.ScsiDeviceRoundTrip | NanaBox/VirtualMachineConfiguration.cpp:399-411 | a written device reads back exactly when it is valid, and an invalid one is skipped, never ending the loop |
| RoundTrip.ScsiDevicesRoundTrip | NanaBox/VirtualMachineConfiguration.cpp:399-411 | a written list of valid devices reads back unchanged |
| RoundTrip.GpuRoundTrip | NanaBox/VirtualMachineConfiguration.cpp:372-385 | written GPU settings that satisfy the invariant read back unchanged |
| RoundTrip.OptionalFieldsValid | NanaBox/VirtualMachineConfiguration.cpp:92-348 | the fields that never fail leave a version-1 record valid |
| RoundTrip.ParseYieldsValid | NanaBox/VirtualMachineConfiguration.cpp:34-351 | every record the read returns has Version 1, the GPU invariant, non-empty MACs, SCSI paths unless VirtualImage, and named shared folders |
| RoundTrip.RootJsonEncodes | NanaBox/VirtualMachineConfiguration.cpp:356-429 | the root object holds, under each key, the encoding of the matching field |
| RoundTrip.HeaderRoundTrip | NanaBox/VirtualMachineConfiguration.cpp:48-90 | a written version-1 header passes every fatal check and reads back as written |
| RoundTrip.CollectionsRoundTrip | NanaBox/VirtualMachineConfiguration.cpp:92-308 | appending the decoded collections to empty ones puts them in place |
| RoundTrip.FlagsAndPathsRoundTrip | NanaBox/VirtualMachineConfiguration.cpp:310-348 | written flags and state-file paths read back as written |
| RoundTrip.OptionalFieldsRoundTrip | NanaBox/VirtualMachineConfiguration.cpp:92-348 | a written valid record's non-fatal fields read back unchanged |
| RoundTrip.RootRoundTrip | NanaBox/VirtualMachineConfiguration.cpp:48-350 | a written valid record's root object reads back as the record |
| RoundTrip.ParseSerialize | NanaBox/VirtualMachineConfiguration.cpp:353-434 | serializing then deserializing gives the record back exactly when it is valid, Unknown and Disabled travelling as null |
| RoundTrip.ReloadIsStable | NanaBox/VirtualMachineConfiguration.cpp:34-434 | saving a loaded record and loading it again gives the same result |

## Left out

- Text: `nlohmann::json::parse` (line 37) and `dump(2)` (line 433) are not modelled. A document is its JSON tree, and the indentation and key order of the printed text are not modelled.
- Numbers: floating-point JSON numbers are not modelled. A number is an integer. `get<std::uint32_t>` reduces it modulo 2^32, as a static cast from the library's 64-bit storage does. Integers wider than 64 bits cannot occur in the library and are not excluded here.
- Missing keys on a const element: the library leaves this undefined (an assertion in debug builds). It is modelled as reading null.
- Exceptions are modelled as a `Failure` carrying one error kind per throw site. The message text and the library's exception types are not modelled.
- Defaults: the record's declaration and default member values live in `VirtualMachineConfiguration.h`, which is not part of this model. The assumed defaults are GuestType Unknown, GPU mode Disabled with no devices, false flags, empty sequences, empty names and empty state-file paths.
- The read works on the tree only. The input string and its parse errors are not modelled.
- JsonTree.Elements: for an object, its contract states only the count and the membership of the values. The key order is fixed by its body, through `SortedKeys`.
- Deserializer.FilterMap: its own contract is only a length bound. Order, locality and membership are stated by `FilterMapAppend`, `SkippedElementIsInvisible` and `FilterMapMembership`.
