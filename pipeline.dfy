/**
 * Runs of the switches one after another on the processor stack, applying
 * each switch's consumed count with the pop-then-push step.
 */
module Pipeline {
  import opened Wrappers
  import opened Vehicles
  import opened Processors
  import opened SwitchParsers
  import CreateRouterDb
  import ReadShape
  import WritePbf

  /** An OSM stream followed by `--write-pbf` leaves exactly one processor, the
      PBF writer over that stream. */
  lemma StreamThenWritePbf(stream: OsmStream, file: string)
    ensures var stack := [OsmStreamSource(stream)];
      var outcome := WritePbf.Parse(map["file" := file], stack);
      && outcome.result.Ok?
      && PopPush(stack, outcome.result.value) == [OsmStreamTarget(PbfTarget(file, stream))]
  {
  }

  /** `--create-routerdb` replaces the stream on top with a RouterDb source,
      which is not an OSM stream: a `--write-pbf` right after it is refused
      and creates no file. */
  lemma RouterDbCannotBeWrittenAsPbf(arguments: seq<string>, previous: seq<Processor>, p: Parsers,
                                     pbfArguments: map<string, string>)
    requires CreateRouterDb.ParseSpec(arguments, previous, p).Ok?
    requires "file" in pbfArguments
    ensures var stack := PopPush(previous, CreateRouterDb.ParseSpec(arguments, previous, p).value);
      WritePbf.Parse(pbfArguments, stack) == WritePbf.Outcome(Err(ExpectedOsmStreamSource), [])
  {
  }

  /** `--read-shape` on an empty stack leaves one RouterDb source, and the same
      refusal follows for `--write-pbf`. */
  lemma ShapeCannotBeWrittenAsPbf(arguments: map<string, string>,
                                  extractVehicleArguments: map<string, string> -> Result<seq<Profile>, string>,
                                  pbfArguments: map<string, string>)
    requires ReadShape.Parse(arguments, [], extractVehicleArguments).Ok?
    requires "file" in pbfArguments
    ensures var stack := PopPush([], ReadShape.Parse(arguments, [], extractVehicleArguments).value);
      && |stack| == 1 && stack[0].RouterDbSource?
      && WritePbf.Parse(pbfArguments, stack) == WritePbf.Outcome(Err(ExpectedOsmStreamSource), [])
  {
  }
}
