/**
 * The `--read-shape` switch: a pipeline source that checks its vehicle list
 * and vertex columns and defers building the routing graph from the
 * shapefile until the graph is pulled.
 */
module ReadShape {
  import opened Wrappers
  import opened Text
  import opened Vehicles
  import opened Processors
  import opened SwitchParsers

  const Names: seq<string> := ["--read-shape", "--rs"]

  const IsStable: bool := true

  const ExtraParams: seq<ParamSpec> := [
    Obl("file", "The input file to read"),
    Obl("vehicle", "The profile to read. This can be a comma-separated list too."),
    Obl("svc", "The `source-vertex-column` - the attribute of an edge which identifies one end of the edge."),
    Obl("tvc", "The `target-vertex-column` - the attribute of an edge which identifies the other end of the edge.")
  ]

  /** `SwitchReadShape.Parse`; `extractVehicleArguments` is the shared helper
      that reads the vehicle list out of the arguments, or throws. */
  function Parse(arguments: map<string, string>, previous: seq<Processor>,
                 extractVehicleArguments: map<string, string> -> Result<seq<Profile>, string>): (r: Result<Parsed, SwitchError>)
    ensures r.Ok? ==>
      (r.value.consumed == 0 && r.value.processor.RouterDbSource?
       && r.value.processor.getRouterDb.FromShape? && |r.value.processor.getRouterDb.vehicles| > 0)
    ensures "file" !in arguments ==> r == Err(KeyNotFound("file"))
    ensures ("file" in arguments && extractVehicleArguments(arguments).Err?) ==>
      r == Err(VehicleArgumentsRejected(extractVehicleArguments(arguments).error))
    ensures r.Err? ==>
      (r.error.VehicleArgumentsRejected?
       || r.error in {KeyNotFound("file"), NoVehicle, SourceVertexColumnNotDefined, TargetVertexColumnNotDefined})
  {
    if "file" !in arguments then Err(KeyNotFound("file"))
    else
      var localShapefile := arguments["file"];
      match extractVehicleArguments(arguments)
      case Err(message) => Err(VehicleArgumentsRejected(message))
      case Ok(vehicles) =>
        var sourceVertexColumn := GetOrDefault(arguments, "svc", "");
        var targetVertexColumn := GetOrDefault(arguments, "tvc", "");
        if |vehicles| == 0 then Err(NoVehicle)
        else if IsNullOrWhiteSpace(sourceVertexColumn) then Err(SourceVertexColumnNotDefined)
        else if IsNullOrWhiteSpace(targetVertexColumn) then Err(TargetVertexColumnNotDefined)
        else Ok(Parsed(RouterDbSource(FromShape(localShapefile, vehicles, sourceVertexColumn, targetVertexColumn)), 0))
  }

  /** The switch answers to two names, is stable, and declares four
      obligatory parameters without defaults: file, vehicle, svc, tvc. */
  lemma Declaration()
    ensures Names == ["--read-shape", "--rs"] && IsStable
    ensures ParamNames(ExtraParams) == [["file"], ["vehicle"], ["svc"], ["tvc"]]
    ensures AllObligated(ExtraParams)
  {
  }

  /** The switch succeeds exactly when the file is given, the vehicle list is
      read and not empty, and both vertex columns are present and not blank. */
  lemma ParseSucceedsIff(arguments: map<string, string>, previous: seq<Processor>,
                         extractVehicleArguments: map<string, string> -> Result<seq<Profile>, string>)
    ensures Parse(arguments, previous, extractVehicleArguments).Ok? <==>
      && "file" in arguments
      && extractVehicleArguments(arguments).Ok?
      && |extractVehicleArguments(arguments).value| > 0
      && "svc" in arguments && !IsNullOrWhiteSpace(arguments["svc"])
      && "tvc" in arguments && !IsNullOrWhiteSpace(arguments["tvc"])
  {
  }

  /** The checks come in a fixed order: an empty vehicle list is reported
      whatever the columns hold, and the target column is looked at only once
      the source column is good. A missing column counts as blank. */
  lemma ParseCheckOrder(arguments: map<string, string>, previous: seq<Processor>,
                        extractVehicleArguments: map<string, string> -> Result<seq<Profile>, string>)
    requires "file" in arguments && extractVehicleArguments(arguments).Ok?
    ensures extractVehicleArguments(arguments).value == [] ==>
      Parse(arguments, previous, extractVehicleArguments) == Err(NoVehicle)
    ensures extractVehicleArguments(arguments).value != [] && "svc" !in arguments ==>
      Parse(arguments, previous, extractVehicleArguments) == Err(SourceVertexColumnNotDefined)
    ensures extractVehicleArguments(arguments).value != [] && "svc" in arguments && IsNullOrWhiteSpace(arguments["svc"]) ==>
      Parse(arguments, previous, extractVehicleArguments) == Err(SourceVertexColumnNotDefined)
    ensures Parse(arguments, previous, extractVehicleArguments) == Err(TargetVertexColumnNotDefined) ==>
      "svc" in arguments && !IsNullOrWhiteSpace(arguments["svc"])
    ensures (extractVehicleArguments(arguments).value != [] && "svc" in arguments && !IsNullOrWhiteSpace(arguments["svc"])
             && ("tvc" !in arguments || IsNullOrWhiteSpace(arguments["tvc"]))) ==>
      Parse(arguments, previous, extractVehicleArguments) == Err(TargetVertexColumnNotDefined)
  {
  }

  /** A source: it consumes nothing, so it runs on any stack, the empty one
      included, ignores what is on it, and pushes one deferred RouterDb source
      that records the file, the vehicles and both columns. */
  lemma ParseIsSource(arguments: map<string, string>, previous: seq<Processor>, other: seq<Processor>,
                      extractVehicleArguments: map<string, string> -> Result<seq<Profile>, string>)
    requires Parse(arguments, previous, extractVehicleArguments).Ok?
    ensures var parsed := Parse(arguments, previous, extractVehicleArguments).value;
      && parsed.consumed == 0
      && PopPush(previous, parsed) == previous + [parsed.processor]
      && parsed.processor == RouterDbSource(FromShape(arguments["file"], extractVehicleArguments(arguments).value,
                                                      arguments["svc"], arguments["tvc"]))
    ensures Parse(arguments, other, extractVehicleArguments) == Parse(arguments, previous, extractVehicleArguments)
  {
  }
}
