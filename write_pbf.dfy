/**
 * The `--write-pbf` switch: a guard on the processor stack that, once the
 * top entry is known to be an OSM stream source, opens the output file and
 * puts a PBF writer on that stream.
 */
module WritePbf {
  import opened Wrappers
  import opened Processors
  import opened SwitchParsers

  const Names: seq<string> := ["--write-pbf", "--wb"]

  const IsStable: bool := true

  const ExtraParams: seq<ParamSpec> := [Obl("file", "The file to write the .osm.pbf to")]

  /** A parse result, with the files the call created on the way. */
  datatype Outcome = Outcome(result: Result<Parsed, SwitchError>, created: seq<string>)

  /** `SwitchWritePbf.Parse`: the depth check, the capability check, then the
      file is opened (created) and the writer is put on the stream. */
  function Parse(arguments: map<string, string>, previous: seq<Processor>): (r: Outcome)
    ensures r.result.Ok? ==>
      (|previous| >= 1 && r.result.value.consumed == 1
       && r.result.value.processor.OsmStreamTarget? && "file" in arguments
       && r.created == [arguments["file"]])
    ensures r.result.Err? ==> r.created == []
  {
    if |previous| < 1 then Outcome(Err(ExpectedPreviousProcessor), [])
    else if "file" !in arguments then Outcome(Err(KeyNotFound("file")), [])
    else
      var file := arguments["file"];
      match previous[|previous| - 1]
      case OsmStreamSource(source) => Outcome(Ok(Parsed(OsmStreamTarget(PbfTarget(file, source)), 1)), [file])
      case _ => Outcome(Err(ExpectedOsmStreamSource), [])
  }

  /** The switch answers to two names, is stable, and has one obligatory parameter, file. */
  lemma Declaration()
    ensures Names == ["--write-pbf", "--wb"] && IsStable
    ensures ParamNames(ExtraParams) == [["file"]] && AllObligated(ExtraParams)
  {
  }

  /** An empty stack is refused before anything else, arguments included. */
  lemma EmptyStackRefusedFirst(arguments: map<string, string>)
    ensures Parse(arguments, []) == Outcome(Err(ExpectedPreviousProcessor), [])
  {
  }

  /** A top entry that is not an OSM stream source is refused; only the top
      entry decides, whatever lies below it. */
  lemma OnlyTopInspected(arguments: map<string, string>, a: seq<Processor>, b: seq<Processor>)
    requires |a| >= 1 && |b| >= 1 && a[|a| - 1] == b[|b| - 1]
    ensures Parse(arguments, a) == Parse(arguments, b)
    ensures "file" in arguments && !IsOsmStreamSource(a[|a| - 1]) ==>
      Parse(arguments, a) == Outcome(Err(ExpectedOsmStreamSource), [])
  {
  }

  /** The output file is created exactly when both guards pass, and then it is
      the one file named by the arguments. */
  lemma FileCreatedOnlyOnSuccess(arguments: map<string, string>, previous: seq<Processor>)
    ensures Parse(arguments, previous).created != [] <==> Parse(arguments, previous).result.Ok?
    ensures Parse(arguments, previous).result.Ok? <==>
      |previous| >= 1 && IsOsmStreamSource(previous[|previous| - 1]) && "file" in arguments
    ensures Parse(arguments, previous).result.Ok? ==> Parse(arguments, previous).created == [arguments["file"]]
  {
  }

  /** On success one stream is consumed and one writer on that same stream is
      pushed: the stack keeps its depth and everything below the top. */
  lemma ParseReplacesStreamWithTarget(arguments: map<string, string>, previous: seq<Processor>)
    requires Parse(arguments, previous).result.Ok?
    ensures var parsed := Parse(arguments, previous).result.value;
      && parsed.consumed == 1
      && |PopPush(previous, parsed)| == |previous|
      && PopPush(previous, parsed)[..|previous| - 1] == previous[..|previous| - 1]
      && PopPush(previous, parsed)[|previous| - 1] ==
           OsmStreamTarget(PbfTarget(arguments["file"], previous[|previous| - 1].source))
  {
  }
}
