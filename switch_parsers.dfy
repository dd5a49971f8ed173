/**
 * What the switches take from the shared argument helpers, which are not
 * part of this model: the splitting and truth-test helpers are given as
 * function values, so every property below holds whatever they do; the
 * parameter-schema entry (`obl`) and `GetOrDefault` have the obvious
 * definitions. Also the exceptions the three switches raise.
 */
module SwitchParsers {
  import opened Wrappers

  /** `SwitchParsers.SplitKeyValue`, `SplitValuesArray` and `IsTrue`; `None` is a `false` return. */
  datatype Parsers = Parsers(
    splitKeyValue: string -> Option<(string, string)>,
    splitValuesArray: string -> Option<seq<string>>,
    isTrue: string -> bool)

  /** One entry of a documented switch's parameter schema. */
  datatype ParamSpec = ParamSpec(args: seq<string>, isObligated: bool, comment: string, defaultValue: Option<string>)

  /** `obl`: an obligatory parameter with a single name and no default. */
  function Obl(name: string, comment: string): ParamSpec {
    ParamSpec([name], true, comment, None)
  }

  /** The key of every entry of a schema, in order. */
  function ParamNames(schema: seq<ParamSpec>): (r: seq<seq<string>>)
    ensures |r| == |schema|
    ensures forall i :: 0 <= i < |schema| ==> r[i] == schema[i].args
  {
    if schema == [] then [] else [schema[0].args] + ParamNames(schema[1..])
  }

  predicate AllObligated(schema: seq<ParamSpec>) {
    forall i :: 0 <= i < |schema| ==> schema[i].isObligated && schema[i].defaultValue == None
  }

  /** `GetOrDefault`: the argument under `key`, or `default` when it is absent. */
  function GetOrDefault(arguments: map<string, string>, key: string, default: string): (r: string)
    ensures key in arguments ==> r == arguments[key]
    ensures key !in arguments ==> r == default
  {
    if key in arguments then arguments[key] else default
  }

  /** The exceptions a switch's `Parse` throws. */
  datatype SwitchError =
    | VehicleProfileNotFound(name: string)   // SwitchParserException
    | ParameterNotRecognized(key: string)    // SwitchParserException
    | ArgumentOutOfRange                     // reading the top of an empty list
    | KeyNotFound(key: string)               // indexing the argument dictionary
    | ExpectedOsmStreamSource                // Exception
    | ExpectedPreviousProcessor              // ArgumentException
    | NoVehicle                              // ArgumentException
    | SourceVertexColumnNotDefined           // ArgumentException
    | TargetVertexColumnNotDefined           // ArgumentException
    | VehicleArgumentsRejected(message: string) // whatever ExtractVehicleArguments throws

  function Message(e: SwitchError): string {
    match e
    case VehicleProfileNotFound(name) =>
      "Invalid parameter value for command --create-routerdb: Vehicle profile '" + name + "' not found."
    case ParameterNotRecognized(key) =>
      "Invalid parameter for command --create-routerdb: " + key + " not recognized."
    case ArgumentOutOfRange => "Index was out of range. Must be non-negative and less than the size of the collection."
    case KeyNotFound(key) => "The given key '" + key + "' was not present in the dictionary."
    case ExpectedOsmStreamSource => "Expected an OSM stream source."
    case ExpectedPreviousProcessor => "Expected at least one processors before this one."
    case NoVehicle => "At least one vehicle expected."
    case SourceVertexColumnNotDefined => "Source vertex column not defined."
    case TargetVertexColumnNotDefined => "Target vertex column not defined."
    case VehicleArgumentsRejected(message) => message
  }
}
