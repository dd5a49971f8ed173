# Pipeline switches of IDP, modelled in Dafny

IDP builds a data pipeline from command-line switches. Each switch reads its
`key=value` arguments and the stack of processors built so far. It returns
one new processor and the number of processors it consumed from the top of
the stack. This project models three of those switches and proves what they
promise:

- `--create-routerdb` (`CreateRouterDb`). An argument loop resolves vehicle
  lists against the profile catalogue. The aggregate names `all` and
  `motorvehicle(s)` expand to fixed lists. The flags `allcore` and
  `keepwayids` are permissive, and an unknown key is an error. The top of
  the stack must be an OSM stream source. The switch consumes one processor
  and produces a deferred RouterDb source. Its event filter
  `EventsFilter_AddWayId` rewrites a way's tags in place.
- `--read-shape` (`ReadShape`). A pipeline source with four obligatory
  parameters. It rejects an empty vehicle list, then a blank source vertex
  column, then a blank target vertex column. It consumes nothing.
- `--write-pbf` (`WritePbf`). A stack guard. It needs at least one processor,
  and the top one must be an OSM stream source. Only then is the output file
  created. It consumes one processor and produces a PBF writer.

Processors are a capability-tagged datatype (`Processors.Processor`). A
switch's result is applied to the stack by `Processors.PopPush`, which pops
the consumed count and pushes the new processor. A deferred graph build is
represented by the recipe its closure captured (`RouterDbRecipe`): the
vehicles, flags, file and columns it will use when pulled.

The helpers that the switches call but that are not part of this model are
parameters of the model. These are `SplitKeyValue`, `SplitValuesArray`,
`IsTrue`, `ExtractVehicleArguments` and the car profile's `IsRelevant`. Every
property proved here therefore holds whatever those helpers do. `obl` and
`GetOrDefault` get their evident definitions (`SwitchParsers`). An exception
is an `Err` of `SwitchParsers.SwitchError`.

Modules, one per file: `Wrappers`, `Text` (.NET string operations),
`Vehicles`, `Osm`, `Processors`, `SwitchParsers`, `CreateRouterDb`,
`ReadShape`, `WritePbf`, `Pipeline` (switches run one after another).

Behaviour of the code that a reader may not expect:

- The `motorvehicle` aggregate is BigTruck, Bus, Car, MotorCycle and
  SmallTruck. Moped is not in it.
- A flag value that `IsTrue` rejects leaves the flag as it was. So
  `allcore=false` after `allcore=true` does not switch the flag off.
- `--create-routerdb` reads the argument tokens first and has no depth check.
  On an empty stack, reading the top entry fails with the runtime's index
  error (`ArgumentOutOfRange`), after any argument error.
- `--read-shape` reads `svc` and `tvc` with an empty default. A missing
  column is therefore reported as "not defined", like a blank one.
- A missing `file` argument is the dictionary's `KeyNotFound` error. The
  schema validator that runs before `Parse` normally rules this out.

## Model

| member | source | states |
|---|---|---|
| `CreateRouterDb.Parse` | IDP/Switches/RouterDb/SwitchCreateRouterDb.cs:61-175 | The argument loop and stack check compute exactly `ParseSpec`: the settings folded over the tokens, then the top-of-stack check, then one RouterDb source with consumed count 1. |
| `CreateRouterDb.Classify` | IDP/Switches/RouterDb/SwitchCreateRouterDb.cs:73-80 | A token is skipped exactly when it does not split, or when it has a vehicle key whose lower-cased value does not split. A key that lower-cases to `vehicle` or `vehicles` with a value whose lower-cased form splits gives a vehicle list of that split. A vehicle list comes only from such a token. The `allcore` and `keepwayids` flags come exactly from keys that lower-case to those names, with the `IsTrue` reading of the value. A key is unrecognised exactly when it lower-cases to none of the four names, and the error then quotes the key as written. |
| `CreateRouterDb.VehicleKeysAndValuesIgnoreCase` | IDP/Switches/RouterDb/SwitchCreateRouterDb.cs:77-80 | `vehicle` and `vehicles` are one key in any letter case, and vehicle values that differ only in case are read alike. Such a token is either skipped or gives a vehicle list. |
| `CreateRouterDb.ResolveVehicle` | IDP/Switches/RouterDb/SwitchCreateRouterDb.cs:84-113 | A name resolves iff it is a catalogue name or an aggregate name, and then it gives at least one profile. Any other name fails with an error naming it. |
| `CreateRouterDb.ResolveVehicleCases` | IDP/Switches/RouterDb/SwitchCreateRouterDb.cs:84-118 | A catalogue name gives its one profile. `all` gives the 8 profiles and `motorvehicle(s)` the 5 motor vehicles, each in source order. |
| `CreateRouterDb.ResolveVehicles` | IDP/Switches/RouterDb/SwitchCreateRouterDb.cs:82-119 | A resolved list has at least one profile per name. A failure names one of the listed names as the unknown profile. |
| `CreateRouterDb.ResolveVehiclesConcat` | IDP/Switches/RouterDb/SwitchCreateRouterDb.cs:82-119 | Resolving `a + b` is resolving `a` and then `b` and concatenating the results in order. Duplicates are kept. |
| `CreateRouterDb.ResolveVehiclesFirstError` | IDP/Switches/RouterDb/SwitchCreateRouterDb.cs:108-113 | A list resolves iff every element does. Otherwise the error names the first element that does not resolve. |
| `CreateRouterDb.ParseRejectsFirstBadArgument` | IDP/Switches/RouterDb/SwitchCreateRouterDb.cs:70-139 | The arguments are accepted iff no token is an unknown key or an unresolvable vehicle list. A failure carries the error of the first such token. Skipped tokens and flag values never fail. |
| `CreateRouterDb.FlagsOnlyRise` | IDP/Switches/RouterDb/SwitchCreateRouterDb.cs:122-133 | After the loop, `allCore` (or `keepWayIds`) is true iff it started true or some token is that key with a value `IsTrue` accepts. |
| `CreateRouterDb.LastVehicleList` | IDP/Switches/RouterDb/SwitchCreateRouterDb.cs:77-121 | Picks the vehicle list of the last token that gives one. It is `None` iff no token gives a vehicle list, and a later token never gives one. |
| `CreateRouterDb.LastVehicleListWins` | IDP/Switches/RouterDb/SwitchCreateRouterDb.cs:77-121 | The resolved vehicles are the resolution of the last vehicle list alone, or unchanged when there is none. A later `vehicles=` replaces an earlier list. |
| `CreateRouterDb.DefaultSettings` | IDP/Switches/RouterDb/SwitchCreateRouterDb.cs:63-68 | Without vehicle tokens the vehicles are exactly `[Car]`. Without a true `allcore` or `keepwayids` token, that flag is false. |
| `CreateRouterDb.KeysIgnoreCase` | IDP/Switches/RouterDb/SwitchCreateRouterDb.cs:73-80 | Two tokens whose recognised keys differ only in letter case and carry the same value are read alike. |
| `CreateRouterDb.ParseReplacesStreamWithRouterDb` | IDP/Switches/RouterDb/SwitchCreateRouterDb.cs:141-174 | On success the top was an OSM stream source and the consumed count is 1. Pop-then-push keeps the depth and every entry below the top. The new top is a RouterDb source over the same stream with the parsed vehicles and flags. |
| `CreateRouterDb.ParseRequiresStreamOnTop` | IDP/Switches/RouterDb/SwitchCreateRouterDb.cs:134-144 | With a non-stream top entry the switch fails. The error is the argument error if there is one, otherwise "Expected an OSM stream source". |
| `CreateRouterDb.ParseInspectsOnlyTop` | IDP/Switches/RouterDb/SwitchCreateRouterDb.cs:141-146 | Two non-empty stacks with the same top entry give the same result. |
| `CreateRouterDb.KeptTags` | IDP/Switches/RouterDb/SwitchCreateRouterDb.cs:183-201 | Every tag left by the filter is bridge, tunnel, lanes or car-relevant. |
| `CreateRouterDb.KeptTagsCount` | IDP/Switches/RouterDb/SwitchCreateRouterDb.cs:183-201 | A kept tag occurs after filtering exactly as often as before. Any other tag no longer occurs. |
| `CreateRouterDb.KeptTagsConcat` | IDP/Switches/RouterDb/SwitchCreateRouterDb.cs:183-201 | Filtering distributes over concatenation, so kept tags keep their relative order. |
| `CreateRouterDb.FilterStep` | IDP/Switches/RouterDb/SwitchCreateRouterDb.cs:185-200 | One pass of the loop over the copied tags drops the current tag from the live collection exactly when it is not kept. |
| `CreateRouterDb.WayIdTagNamesTheWay` | IDP/Switches/RouterDb/SwitchCreateRouterDb.cs:203 | The filtered tag list ends with `way_id`, and its value reads back as the way's id. |
| `CreateRouterDb.EventsFilterAddWayId` | IDP/Switches/RouterDb/SwitchCreateRouterDb.cs:178-206 | A way's tags become the kept tags followed by `way_id`. Any other entity is left unchanged, and the same object is returned. |
| `Vehicles.TryGetByUniqueName` | IDP/Switches/RouterDb/SwitchCreateRouterDb.cs:86 | Returns the profile whose unique name is the argument, or `None` iff no profile has that name. |
| `Vehicles.AggregatesCoverCatalogue` | IDP/Switches/RouterDb/SwitchCreateRouterDb.cs:88-107 | `all` lists every profile exactly once. The motor-vehicle list is the profiles other than Bicycle, Moped and Pedestrian, in the order of `all`. |
| `Vehicles.AggregateNamesAreNotProfiles` | IDP/Switches/RouterDb/SwitchCreateRouterDb.cs:86-101 | No catalogue profile is named `all`, `motorvehicle` or `motorvehicles`, so the catalogue lookup that comes first never hides an aggregate. |
| `Text.ToLower` | IDP/Switches/RouterDb/SwitchCreateRouterDb.cs:75 | Keeps the length, turns each upper-case letter into the lower-case letter at the same place in the alphabet, leaves no upper-case letter, and changes no other character. |
| `Text.IsNullOrWhiteSpace` | src/IDP/Switches/Shape/SwitchReadShape.cs:79-86 | The empty string is blank. A string is blank iff every character in it is white space, so a column name with a letter or digit in it is never blank. |
| `SwitchParsers.GetOrDefault` | src/IDP/Switches/Shape/SwitchReadShape.cs:71-72 | The argument under the key when it is given, otherwise the default. |
| `Text.Digits` | IDP/Switches/RouterDb/SwitchCreateRouterDb.cs:203 | The decimal text of an id is non-empty, all digits, and has no leading zero. |
| `Text.DigitsRoundTrip` | IDP/Switches/RouterDb/SwitchCreateRouterDb.cs:203 | Reading back the decimal digits of `n` gives `n`. |
| `Text.IdToStringRoundTrip` | IDP/Switches/RouterDb/SwitchCreateRouterDb.cs:203 | `ParseId` inverts `IdToString` for every nullable id, negative ones included. |
| `Osm.RemoveKeyValue` | IDP/Switches/RouterDb/SwitchCreateRouterDb.cs:199 | Removing a tag that is absent changes nothing. Removing a present tag removes exactly one entry. |
| `Osm.RemoveFirstOccurrence` | IDP/Switches/RouterDb/SwitchCreateRouterDb.cs:199 | When the tag does not occur before a given position, removal cuts exactly the occurrence at that position. |
| `Processors.PopPush` | IDP/Switches/RouterDb/SwitchCreateRouterDb.cs:59 | Popping `consumed` entries and pushing the new processor gives depth `depth - consumed + 1`. The new processor is on top, and the entries below the consumed ones are unchanged. |
| `ReadShape.Declaration` | src/IDP/Switches/Shape/SwitchReadShape.cs:39-57 | Answers to exactly `--read-shape` and `--rs` and is stable. Its schema is exactly four obligatory parameters without defaults: file, vehicle, svc, tvc, in that order. |
| `ReadShape.Parse` | src/IDP/Switches/Shape/SwitchReadShape.cs:66-100 | A missing `file` is the dictionary's key error. With `file` given, a rejection by the vehicle helper is that rejection, before any other check. Every other failure is the vehicle helper's rejection, no vehicle, or an undefined source or target column. A success consumes nothing and pushes a RouterDb source built from a shapefile with at least one vehicle. |
| `ReadShape.ParseSucceedsIff` | src/IDP/Switches/Shape/SwitchReadShape.cs:69-99 | Succeeds iff the file is given, the vehicle list is read and not empty, and both columns are present and not null or white space. |
| `ReadShape.ParseCheckOrder` | src/IDP/Switches/Shape/SwitchReadShape.cs:71-87 | An empty vehicle list is reported whatever the columns hold. A missing or blank `svc` is reported next. A `tvc` error is raised exactly when the vehicles and `svc` are good and `tvc` is missing or blank. |
| `ReadShape.ParseIsSource` | src/IDP/Switches/Shape/SwitchReadShape.cs:89-99 | On success it consumes 0, ignores the stack (any stack, the empty one included, gives the same result), and pushes one deferred RouterDb source recording the file, vehicles and both columns. |
| `WritePbf.Declaration` | src/IDP/Switches/Osm/SwitchWritePBF.cs:35-46 | Answers to exactly `--write-pbf` and `--wb`, is stable, and has one obligatory parameter, `file`. |
| `WritePbf.Parse` | src/IDP/Switches/Osm/SwitchWritePBF.cs:52-70 | A success needs a non-empty stack and a `file` argument, consumes one entry, pushes an OSM stream target and creates exactly the named file. A failure creates no file. |
| `WritePbf.EmptyStackRefusedFirst` | src/IDP/Switches/Osm/SwitchWritePBF.cs:55-58 | An empty stack fails with "Expected at least one processors before this one." whatever the arguments, and creates no file. |
| `WritePbf.OnlyTopInspected` | src/IDP/Switches/Osm/SwitchWritePBF.cs:62-65 | Two non-empty stacks with the same top give the same outcome. A non-stream top fails with "Expected an OSM stream source." and creates no file. |
| `WritePbf.FileCreatedOnlyOnSuccess` | src/IDP/Switches/Osm/SwitchWritePBF.cs:55-68 | A file is created iff the result is a success. That happens iff the stack is non-empty, its top is an OSM stream source and `file` is given. The one file created is the named file. |
| `WritePbf.ParseReplacesStreamWithTarget` | src/IDP/Switches/Osm/SwitchWritePBF.cs:67-69 | On success the consumed count is 1. Pop-then-push keeps the depth and every entry below the top. The new top is a PBF writer on the named file over the stream that was on top. |
| `Pipeline.StreamThenWritePbf` | src/IDP/Switches/Osm/SwitchWritePBF.cs:62-69 | A lone OSM stream followed by `--write-pbf` leaves exactly one processor: the writer over that stream. |
| `Pipeline.RouterDbCannotBeWrittenAsPbf` | src/IDP/Switches/Osm/SwitchWritePBF.cs:62-65 | After a successful `--create-routerdb`, `--write-pbf` is refused with "Expected an OSM stream source." and creates no file. |
| `Pipeline.ShapeCannotBeWrittenAsPbf` | src/IDP/Switches/Shape/SwitchReadShape.cs:89-99 | `--read-shape` on an empty stack leaves one RouterDb source, and a following `--write-pbf` is refused without creating a file. |

## Left out

- Building the routing graph is left out: `RouterDbStreamTarget`, `Pull`, `Sort`, `LoadFromShape` and `EdgeDataSerializer.MAX_DISTANCE` are routing-library calls. The deferred graph is the recipe its closure captured.
- PBF encoding and file I/O are left out: `PBFOsmStreamTarget`, `FileInfo`, `Open` and `RegisterSource` belong to OsmSharp and the runtime. The model records the created file and the stream the writer is registered on. Exceptions from `FileInfo` for malformed paths are not modelled.
- `SplitKeyValue`, `SplitValuesArray`, `IsTrue`, `ExtractVehicleArguments` and the car profile's `IsRelevant` are not part of this model. They are function parameters with no assumed behaviour.
- The profile catalogue is a fixed table of the eight profiles under lower-case unique names. The library's registry is not part of this model.
- `Text.ToLower`: lower-cases ASCII letters only, because the culture-dependent Unicode case mapping of `String.ToLower` is not modelled.
- The event-filter wiring (`OsmStreamFilterDelegate`, `MoveToNextEvent`) is library plumbing. Only the per-entity tag rule is modelled.
- `ProcessorOsmStreamSource` appears only as the `OsmStreamSource` constructor of `Processor`.
- A null tag collection on a way, and null dictionary values, are not modelled: tags are a list and values are strings. A null id is `None`.
- The tokenizer, the switch registry, the `DocumentedSwitch` schema validator and the loop that applies switches to the stack are not part of this model. `PopPush` is the single step that loop performs.
- The messages of the runtime's own exceptions (`ArgumentOutOfRange`, `KeyNotFound`) are approximations. The switches' own messages are exact.
