/**
 * Pipeline stages ("processors") as a capability-tagged variant, and the
 * pop-then-push step that applies a switch's result to the processor stack.
 * The payloads the routing and OSM libraries own are opaque handles or the
 * recipe a deferred computation was built from.
 */
module Processors {
  import opened Vehicles

  /** An OsmSharp entity stream, known to the pipeline only by identity. */
  datatype OsmStream = OsmStream(handle: nat)

  /** What a deferred `GetRouterDb` closure captured: the graph is built from
      this only when a consumer pulls it. */
  datatype RouterDbRecipe =
    | FromOsm(source: OsmStream, vehicles: seq<Profile>, allCore: bool, keepWayIds: bool)
    | FromShape(file: string, vehicles: seq<Profile>, sourceVertexColumn: string, targetVertexColumn: string)

  /** A PBF writer bound to an output file and registered on a source stream. */
  datatype PbfTarget = PbfTarget(file: string, source: OsmStream)

  datatype Processor =
    | OsmStreamSource(source: OsmStream)         // IProcessorOsmStreamSource
    | OsmStreamTarget(target: PbfTarget)         // ProcessorOsmStreamTarget
    | RouterDbSource(getRouterDb: RouterDbRecipe) // ProcessorRouterDbSource
    | OtherProcessor(handle: nat)                // any stage without these capabilities

  /** The "OSM stream source" capability the OSM-consuming switches test for. */
  predicate IsOsmStreamSource(p: Processor) {
    p.OsmStreamSource?
  }

  /** A switch's successful `Parse`: the processor it produced and how many
      of the previous processors it consumed. */
  datatype Parsed = Parsed(processor: Processor, consumed: nat)

  /** The stack after popping `parsed.consumed` entries and pushing the new processor. */
  function PopPush(stack: seq<Processor>, parsed: Parsed): (r: seq<Processor>)
    requires parsed.consumed <= |stack|
    ensures |r| == |stack| - parsed.consumed + 1
    ensures r[|r| - 1] == parsed.processor
    ensures forall i :: 0 <= i < |stack| - parsed.consumed ==> r[i] == stack[i]
  {
    stack[..|stack| - parsed.consumed] + [parsed.processor]
  }
}
