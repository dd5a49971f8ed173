/**
 * The `--create-routerdb` switch: its argument loop (vehicle lists with the
 * aggregate names, the permissive `allcore` and `keepwayids` flags, unknown
 * keys), the check of the top of the processor stack, and the event filter
 * that rewrites a way's tags when way ids are kept.
 */
module CreateRouterDb {
  import opened Wrappers
  import opened Text
  import opened Vehicles
  import opened Osm
  import opened Processors
  import opened SwitchParsers

  const Names: seq<string> := ["--create-routerdb"]

  // ---------------------------------------------------------------------
  // Arguments
  // ---------------------------------------------------------------------

  /** What one argument token asks for, as the loop's `switch` on the lower-cased key reads it. */
  datatype Argument =
    | Skipped                          // SplitKeyValue or SplitValuesArray returned false
    | VehicleList(names: seq<string>)  // key "vehicle" or "vehicles"
    | AllCore(on: bool)                // key "allcore", on == IsTrue(value)
    | KeepWayIds(on: bool)             // key "keepwayids", on == IsTrue(value)
    | Unrecognized(key: string)        // any other key, as written

  function Classify(token: string, p: Parsers): (r: Argument)
    ensures p.splitKeyValue(token).None? ==> r == Skipped
    ensures r.Skipped? ==>
      (p.splitKeyValue(token).None?
       || (ToLower(p.splitKeyValue(token).value.0) in {"vehicle", "vehicles"}
           && p.splitValuesArray(ToLower(p.splitKeyValue(token).value.1)).None?))
    ensures (p.splitKeyValue(token).Some?
             && ToLower(p.splitKeyValue(token).value.0) in {"vehicle", "vehicles"}
             && p.splitValuesArray(ToLower(p.splitKeyValue(token).value.1)).Some?) ==>
      r == VehicleList(p.splitValuesArray(ToLower(p.splitKeyValue(token).value.1)).value)
    ensures r.VehicleList? ==>
      (p.splitKeyValue(token).Some?
       && ToLower(p.splitKeyValue(token).value.0) in {"vehicle", "vehicles"}
       && p.splitValuesArray(ToLower(p.splitKeyValue(token).value.1)) == Some(r.names))
    ensures r.AllCore? <==> p.splitKeyValue(token).Some? && ToLower(p.splitKeyValue(token).value.0) == "allcore"
    ensures r.KeepWayIds? <==> p.splitKeyValue(token).Some? && ToLower(p.splitKeyValue(token).value.0) == "keepwayids"
    ensures (r.AllCore? || r.KeepWayIds?) ==> r.on == p.isTrue(p.splitKeyValue(token).value.1)
    ensures r.Unrecognized? <==>
      (p.splitKeyValue(token).Some?
       && ToLower(p.splitKeyValue(token).value.0) !in {"vehicle", "vehicles", "allcore", "keepwayids"})
    ensures r.Unrecognized? ==> r.key == p.splitKeyValue(token).value.0
  {
    match p.splitKeyValue(token)
    case None => Skipped
    case Some((key, value)) =>
      var k := ToLower(key);
      if k == "vehicles" || k == "vehicle" then
        match p.splitValuesArray(ToLower(value))
        case None => Skipped
        case Some(names) => VehicleList(names)
      else if k == "allcore" then AllCore(p.isTrue(value))
      else if k == "keepwayids" then KeepWayIds(p.isTrue(value))
      else Unrecognized(key)
  }

  /** The three locals the argument loop builds. */
  datatype Settings = Settings(vehicles: seq<Profile>, allCore: bool, keepWayIds: bool)

  const Defaults: Settings := Settings([Car], false, false)

  /** One element of a vehicle list: a catalogue hit, else an aggregate name, else an error. */
  function ResolveVehicle(name: string): (r: Result<seq<Profile>, SwitchError>)
    ensures r.Ok? <==> TryGetByUniqueName(name).Some? || IsAggregateName(name)
    ensures r.Ok? ==> |r.value| >= 1
    ensures r.Err? ==> r.error == VehicleProfileNotFound(name)
  {
    match TryGetByUniqueName(name)
    case Some(vehicle) => Ok([vehicle])
    case None =>
      if name == "all" then Ok(AllVehicles)
      else if name == "motorvehicle" || name == "motorvehicles" then Ok(MotorVehicles)
      else Err(VehicleProfileNotFound(name))
  }

  /** `prefix` in front of a successful result; errors pass through. */
  function Prepend(prefix: seq<Profile>, r: Result<seq<Profile>, SwitchError>): Result<seq<Profile>, SwitchError> {
    match r
    case Ok(rest) => Ok(prefix + rest)
    case Err(e) => Err(e)
  }

  lemma PrependEmpty(r: Result<seq<Profile>, SwitchError>)
    ensures Prepend([], r) == r
  {
    if r.Ok? {
      assert [] + r.value == r.value;
    }
  }

  lemma PrependTwice(a: seq<Profile>, b: seq<Profile>, r: Result<seq<Profile>, SwitchError>)
    ensures Prepend(a, Prepend(b, r)) == Prepend(a + b, r)
  {
    if r.Ok? {
      assert a + (b + r.value) == (a + b) + r.value;
    }
  }

  /** A whole vehicle list, element by element; the first bad element stops it. */
  function ResolveVehicles(names: seq<string>): (r: Result<seq<Profile>, SwitchError>)
    ensures r.Ok? ==> |r.value| >= |names|
    ensures r.Err? ==> r.error.VehicleProfileNotFound? && r.error.name in names
  {
    if names == [] then Ok([])
    else
      match ResolveVehicle(names[0])
      case Err(e) => Err(e)
      case Ok(first) => Prepend(first, ResolveVehicles(names[1..]))
  }

  /** One iteration of the argument loop. */
  function ApplyArgument(s: Settings, a: Argument): Result<Settings, SwitchError> {
    match a
    case Skipped => Ok(s)
    case VehicleList(names) =>
      (match ResolveVehicles(names)
       case Ok(vehicles) => Ok(s.(vehicles := vehicles))
       case Err(e) => Err(e))
    case AllCore(on) => Ok(if on then s.(allCore := true) else s)
    case KeepWayIds(on) => Ok(if on then s.(keepWayIds := true) else s)
    case Unrecognized(key) => Err(ParameterNotRecognized(key))
  }

  /** The argument loop run over `tokens`, starting from `s`. */
  function ParseFrom(s: Settings, tokens: seq<string>, p: Parsers): Result<Settings, SwitchError>
    decreases |tokens|
  {
    if tokens == [] then Ok(s)
    else
      match ApplyArgument(s, Classify(tokens[0], p))
      case Err(e) => Err(e)
      case Ok(next) => ParseFrom(next, tokens[1..], p)
  }

  function ParseArguments(tokens: seq<string>, p: Parsers): Result<Settings, SwitchError> {
    ParseFrom(Defaults, tokens, p)
  }

  /** What `Parse` computes: the settings, then the stack-top check, then one
      deferred RouterDb source that consumes the OSM stream on top. */
  function ParseSpec(arguments: seq<string>, previous: seq<Processor>, p: Parsers): Result<Parsed, SwitchError> {
    match ParseArguments(arguments, p)
    case Err(e) => Err(e)
    case Ok(s) =>
      if |previous| == 0 then Err(ArgumentOutOfRange)
      else
        match previous[|previous| - 1]
        case OsmStreamSource(source) =>
          Ok(Parsed(RouterDbSource(FromOsm(source, s.vehicles, s.allCore, s.keepWayIds)), 1))
        case _ => Err(ExpectedOsmStreamSource)
  }

  /** `SwitchCreateRouterDb.Parse`. */
  method Parse(arguments: seq<string>, previous: seq<Processor>, p: Parsers) returns (r: Result<Parsed, SwitchError>)
    ensures r == ParseSpec(arguments, previous, p)
  {
    var vehicles := [Car];
    var allCore := false;
    var keepWayIds := false;
    for i := 0 to |arguments|
      invariant ParseArguments(arguments, p) == ParseFrom(Settings(vehicles, allCore, keepWayIds), arguments[i..], p)
    {
      ghost var before := Settings(vehicles, allCore, keepWayIds);
      assert arguments[i..][1..] == arguments[i + 1..];
      var split := p.splitKeyValue(arguments[i]);
      if split.None? {
        assert Classify(arguments[i], p) == Skipped;
      } else {
        var (key, value) := split.value;
        var k := ToLower(key);
        if k == "vehicles" || k == "vehicle" {
          var vehicleValues := p.splitValuesArray(ToLower(value));
          if vehicleValues.None? {
            assert Classify(arguments[i], p) == Skipped;
          } else {
            var names := vehicleValues.value;
            assert Classify(arguments[i], p) == VehicleList(names);
            vehicles := [];
            assert names[0..] == names;
            PrependEmpty(ResolveVehicles(names));
            for v := 0 to |names|
              invariant ResolveVehicles(names) == Prepend(vehicles, ResolveVehicles(names[v..]))
            {
              assert names[v..][1..] == names[v + 1..];
              ghost var done := vehicles;
              var vehicle := TryGetByUniqueName(names[v]);
              if vehicle.None? {
                if names[v] == "all" {
                  vehicles := vehicles + AllVehicles;
                } else if names[v] == "motorvehicle" || names[v] == "motorvehicles" {
                  vehicles := vehicles + MotorVehicles;
                } else {
                  assert ParseFrom(before, arguments[i..], p) == Err(VehicleProfileNotFound(names[v]));
                  r := Err(VehicleProfileNotFound(names[v]));
                  return;
                }
              } else {
                vehicles := vehicles + [vehicle.value];
              }
              PrependTwice(done, vehicles[|done|..], ResolveVehicles(names[v + 1..]));
              assert done + vehicles[|done|..] == vehicles;
            }
            assert names[|names|..] == [];
            assert vehicles + [] == vehicles;
          }
        } else if k == "allcore" {
          assert Classify(arguments[i], p) == AllCore(p.isTrue(value));
          if p.isTrue(value) {
            allCore := true;
          }
        } else if k == "keepwayids" {
          assert Classify(arguments[i], p) == KeepWayIds(p.isTrue(value));
          if p.isTrue(value) {
            keepWayIds := true;
          }
        } else {
          assert Classify(arguments[i], p) == Unrecognized(key);
          r := Err(ParameterNotRecognized(key));
          return;
        }
      }
    }
    assert arguments[|arguments|..] == [];
    if |previous| == 0 {
      r := Err(ArgumentOutOfRange);
      return;
    }
    var top := previous[|previous| - 1];
    if !top.OsmStreamSource? {
      r := Err(ExpectedOsmStreamSource);
      return;
    }
    r := Ok(Parsed(RouterDbSource(FromOsm(top.source, vehicles, allCore, keepWayIds)), 1));
  }

  // ---------------------------------------------------------------------
  // Vehicle resolution
  // ---------------------------------------------------------------------

  /** A catalogue name resolves to its one profile; "all" and "motorvehicle(s)"
      to their fixed lists; anything else is reported by name. */
  lemma ResolveVehicleCases(name: string)
    ensures forall v :: UniqueName(v) == name ==> ResolveVehicle(name) == Ok([v])
    ensures name == "all" ==> ResolveVehicle(name) == Ok([Bicycle, BigTruck, Bus, Car, Moped, MotorCycle, Pedestrian, SmallTruck])
    ensures name == "motorvehicle" || name == "motorvehicles" ==> ResolveVehicle(name) == Ok([BigTruck, Bus, Car, MotorCycle, SmallTruck])
  {
  }

  /** Resolving a list is resolving its parts and concatenating the results
      in order; nothing is de-duplicated. */
  lemma {:induction false} ResolveVehiclesConcat(a: seq<string>, b: seq<string>)
    ensures ResolveVehicles(a + b) ==
      match ResolveVehicles(a)
      case Err(e) => Err(e)
      case Ok(front) => Prepend(front, ResolveVehicles(b))
  {
    if a == [] {
      assert a + b == b;
      PrependEmpty(ResolveVehicles(b));
    } else {
      assert (a + b)[0] == a[0];
      assert (a + b)[1..] == a[1..] + b;
      ResolveVehiclesConcat(a[1..], b);
      match ResolveVehicle(a[0])
      case Err(e) =>
      case Ok(first) =>
        match ResolveVehicles(a[1..])
        case Err(e) =>
        case Ok(rest) => PrependTwice(first, rest, ResolveVehicles(b));
    }
  }

  /** A list resolves exactly when each element does; otherwise the error names
      the first element that does not. */
  lemma {:induction false} ResolveVehiclesFirstError(names: seq<string>)
    ensures ResolveVehicles(names).Ok? <==> forall i :: 0 <= i < |names| ==> ResolveVehicle(names[i]).Ok?
    ensures ResolveVehicles(names).Err? ==>
      exists j :: 0 <= j < |names|
        && (forall k :: 0 <= k < j ==> ResolveVehicle(names[k]).Ok?)
        && ResolveVehicle(names[j]).Err?
        && ResolveVehicles(names).error == VehicleProfileNotFound(names[j])
  {
    if names != [] {
      var tail := names[1..];
      ResolveVehiclesFirstError(tail);
      assert forall i :: 1 <= i < |names| ==> names[i] == tail[i - 1];
      if ResolveVehicle(names[0]).Err? {
        assert ResolveVehicles(names).error == VehicleProfileNotFound(names[0]);
      } else if ResolveVehicles(tail).Err? {
        var j :| 0 <= j < |tail|
          && (forall k :: 0 <= k < j ==> ResolveVehicle(tail[k]).Ok?)
          && ResolveVehicle(tail[j]).Err?
          && ResolveVehicles(tail).error == VehicleProfileNotFound(tail[j]);
        assert names[j + 1] == tail[j];
        assert forall k :: 0 <= k < j + 1 ==> ResolveVehicle(names[k]).Ok? by {
          forall k | 0 < k < j + 1 ensures ResolveVehicle(names[k]).Ok? {
            assert names[k] == tail[k - 1];
          }
        }
      }
    }
  }

  // ---------------------------------------------------------------------
  // The argument loop
  // ---------------------------------------------------------------------

  /** The exception one argument raises, whatever the settings before it. */
  function Rejection(a: Argument): Option<SwitchError> {
    match a
    case Unrecognized(key) => Some(ParameterNotRecognized(key))
    case VehicleList(names) => if ResolveVehicles(names).Err? then Some(ResolveVehicles(names).error) else None
    case _ => None
  }

  /** The arguments are accepted exactly when none of them is rejected; an
      unknown key or an unresolvable vehicle fails the whole parse with the
      error of the first argument that is rejected. Flags and skipped tokens
      never fail. */
  lemma {:induction false} ParseRejectsFirstBadArgument(s: Settings, tokens: seq<string>, p: Parsers)
    ensures ParseFrom(s, tokens, p).Ok? <==> forall i :: 0 <= i < |tokens| ==> Rejection(Classify(tokens[i], p)) == None
    ensures ParseFrom(s, tokens, p).Err? ==>
      exists j :: 0 <= j < |tokens|
        && (forall k :: 0 <= k < j ==> Rejection(Classify(tokens[k], p)) == None)
        && Rejection(Classify(tokens[j], p)) == Some(ParseFrom(s, tokens, p).error)
    decreases |tokens|
  {
    if tokens != [] {
      var tail := tokens[1..];
      assert forall i :: 1 <= i < |tokens| ==> tokens[i] == tail[i - 1];
      match ApplyArgument(s, Classify(tokens[0], p))
      case Err(e) =>
        assert Rejection(Classify(tokens[0], p)) == Some(e);
      case Ok(next) =>
        assert Rejection(Classify(tokens[0], p)) == None;
        ParseRejectsFirstBadArgument(next, tail, p);
        if ParseFrom(next, tail, p).Err? {
          var j :| 0 <= j < |tail|
            && (forall k :: 0 <= k < j ==> Rejection(Classify(tail[k], p)) == None)
            && Rejection(Classify(tail[j], p)) == Some(ParseFrom(next, tail, p).error);
          assert tokens[j + 1] == tail[j];
          assert forall k :: 0 <= k < j + 1 ==> Rejection(Classify(tokens[k], p)) == None by {
            forall k | 0 < k < j + 1 ensures Rejection(Classify(tokens[k], p)) == None {
              assert tokens[k] == tail[k - 1];
            }
          }
        }
    }
  }

  /** `allcore` and `keepwayids` are only ever switched on, and only by an
      argument whose value `IsTrue` accepts. */
  lemma {:induction false} FlagsOnlyRise(s: Settings, tokens: seq<string>, p: Parsers)
    requires ParseFrom(s, tokens, p).Ok?
    ensures ParseFrom(s, tokens, p).value.allCore <==>
      s.allCore || exists i :: 0 <= i < |tokens| && Classify(tokens[i], p) == AllCore(true)
    ensures ParseFrom(s, tokens, p).value.keepWayIds <==>
      s.keepWayIds || exists i :: 0 <= i < |tokens| && Classify(tokens[i], p) == KeepWayIds(true)
    decreases |tokens|
  {
    if tokens != [] {
      var tail := tokens[1..];
      assert forall i :: 1 <= i < |tokens| ==> tokens[i] == tail[i - 1];
      var next := ApplyArgument(s, Classify(tokens[0], p)).value;
      FlagsOnlyRise(next, tail, p);
      assert forall i :: 0 <= i < |tail| ==> Classify(tail[i], p) == Classify(tokens[i + 1], p);
    }
  }

  /** The vehicle list of the last argument that names one, if any. */
  function LastVehicleList(tokens: seq<string>, p: Parsers): (r: Option<seq<string>>)
    ensures r.None? <==> forall i :: 0 <= i < |tokens| ==> !Classify(tokens[i], p).VehicleList?
    ensures r.Some? ==>
      exists i :: 0 <= i < |tokens| && Classify(tokens[i], p) == VehicleList(r.value)
        && forall j :: i < j < |tokens| ==> !Classify(tokens[j], p).VehicleList?
    decreases |tokens|
  {
    if tokens == [] then None
    else
      var tail := tokens[1..];
      assert forall i :: 1 <= i < |tokens| ==> tokens[i] == tail[i - 1];
      match LastVehicleList(tail, p)
      case Some(names) =>
        var i :| 0 <= i < |tail| && Classify(tail[i], p) == VehicleList(names)
          && forall j :: i < j < |tail| ==> !Classify(tail[j], p).VehicleList?;
        assert Classify(tokens[i + 1], p) == VehicleList(names);
        Some(names)
      case None =>
        match Classify(tokens[0], p)
        case VehicleList(names) => Some(names)
        case _ => None
  }

  /** The vehicles come from the last vehicle argument alone: a later
      `vehicles=` replaces an earlier list instead of adding to it. */
  lemma {:induction false} LastVehicleListWins(s: Settings, tokens: seq<string>, p: Parsers)
    requires ParseFrom(s, tokens, p).Ok?
    ensures match LastVehicleList(tokens, p)
      case None => ParseFrom(s, tokens, p).value.vehicles == s.vehicles
      case Some(names) => ResolveVehicles(names) == Ok(ParseFrom(s, tokens, p).value.vehicles)
    decreases |tokens|
  {
    if tokens != [] {
      var next := ApplyArgument(s, Classify(tokens[0], p)).value;
      LastVehicleListWins(next, tokens[1..], p);
    }
  }

  /** Without vehicle, allcore or keepwayids arguments the switch builds for
      cars only, with both flags off. */
  lemma DefaultSettings(arguments: seq<string>, p: Parsers)
    requires ParseArguments(arguments, p).Ok?
    ensures (forall i :: 0 <= i < |arguments| ==> !Classify(arguments[i], p).VehicleList?) ==>
      ParseArguments(arguments, p).value.vehicles == [Car]
    ensures (forall i :: 0 <= i < |arguments| ==> Classify(arguments[i], p) != AllCore(true)) ==>
      !ParseArguments(arguments, p).value.allCore
    ensures (forall i :: 0 <= i < |arguments| ==> Classify(arguments[i], p) != KeepWayIds(true)) ==>
      !ParseArguments(arguments, p).value.keepWayIds
  {
    LastVehicleListWins(Defaults, arguments, p);
    FlagsOnlyRise(Defaults, arguments, p);
  }

  /** Keys are compared after lower-casing: two tokens whose keys differ only
      in case and that carry the same value are read alike. */
  lemma KeysIgnoreCase(t1: string, t2: string, k1: string, k2: string, value: string, p: Parsers)
    requires p.splitKeyValue(t1) == Some((k1, value)) && p.splitKeyValue(t2) == Some((k2, value))
    requires ToLower(k1) == ToLower(k2)
    requires !Classify(t1, p).Unrecognized?
    ensures Classify(t1, p) == Classify(t2, p)
  {
  }

  /** "vehicle" and "vehicles" are one key, in any case, and the vehicle
      names are lower-cased before they are split: two vehicle tokens whose
      values differ only in case are read alike. */
  lemma VehicleKeysAndValuesIgnoreCase(t1: string, t2: string, k1: string, k2: string, v1: string, v2: string, p: Parsers)
    requires p.splitKeyValue(t1) == Some((k1, v1)) && p.splitKeyValue(t2) == Some((k2, v2))
    requires ToLower(k1) in {"vehicle", "vehicles"} && ToLower(k2) in {"vehicle", "vehicles"}
    requires ToLower(v1) == ToLower(v2)
    ensures Classify(t1, p) == Classify(t2, p)
    ensures Classify(t1, p).Skipped? || Classify(t1, p).VehicleList?
  {
  }

  // ---------------------------------------------------------------------
  // The processor stack
  // ---------------------------------------------------------------------

  /** On success the switch consumes the OSM stream on top and pushes one
      deferred RouterDb source over that same stream, built with the parsed
      settings: the stack keeps its depth and everything below the top. */
  lemma ParseReplacesStreamWithRouterDb(arguments: seq<string>, previous: seq<Processor>, p: Parsers)
    requires ParseSpec(arguments, previous, p).Ok?
    ensures |previous| >= 1 && IsOsmStreamSource(previous[|previous| - 1])
    ensures ParseArguments(arguments, p).Ok?
    ensures var parsed := ParseSpec(arguments, previous, p).value;
      var s := ParseArguments(arguments, p).value;
      && parsed.consumed == 1
      && |PopPush(previous, parsed)| == |previous|
      && PopPush(previous, parsed)[..|previous| - 1] == previous[..|previous| - 1]
      && PopPush(previous, parsed)[|previous| - 1] ==
           RouterDbSource(FromOsm(previous[|previous| - 1].source, s.vehicles, s.allCore, s.keepWayIds))
  {
  }

  /** Argument errors are raised before the stack is looked at; with good
      arguments, a top entry that is not an OSM stream source is refused. */
  lemma ParseRequiresStreamOnTop(arguments: seq<string>, previous: seq<Processor>, p: Parsers)
    requires |previous| >= 1 && !IsOsmStreamSource(previous[|previous| - 1])
    ensures ParseSpec(arguments, previous, p).Err?
    ensures ParseSpec(arguments, previous, p).error ==
      if ParseArguments(arguments, p).Err? then ParseArguments(arguments, p).error else ExpectedOsmStreamSource
  {
  }

  /** Only the top entry of the stack is inspected. */
  lemma ParseInspectsOnlyTop(arguments: seq<string>, a: seq<Processor>, b: seq<Processor>, p: Parsers)
    requires |a| >= 1 && |b| >= 1 && a[|a| - 1] == b[|b| - 1]
    ensures ParseSpec(arguments, a, p) == ParseSpec(arguments, b, p)
  {
  }

  // ---------------------------------------------------------------------
  // The way-id event filter
  // ---------------------------------------------------------------------

  /** The tags the filter leaves on a way: bridge, tunnel and lanes always,
      other tags when the car profile finds them relevant. */
  predicate KeepsTag(tag: Tag, carIsRelevant: (string, string) -> bool) {
    tag.key == "bridge" || tag.key == "tunnel" || tag.key == "lanes" || carIsRelevant(tag.key, tag.value)
  }

  /** The kept tags, in their original order. */
  function KeptTags(tags: seq<Tag>, carIsRelevant: (string, string) -> bool): (r: seq<Tag>)
    ensures forall t :: t in r ==> KeepsTag(t, carIsRelevant)
  {
    if tags == [] then []
    else
      var last := tags[|tags| - 1];
      KeptTags(tags[..|tags| - 1], carIsRelevant) + if KeepsTag(last, carIsRelevant) then [last] else []
  }

  /** Each kept tag stays as often as it occurred; every other tag is gone. */
  lemma {:induction false} KeptTagsCount(tags: seq<Tag>, carIsRelevant: (string, string) -> bool, t: Tag)
    ensures multiset(KeptTags(tags, carIsRelevant))[t] == if KeepsTag(t, carIsRelevant) then multiset(tags)[t] else 0
  {
    if tags != [] {
      var front := tags[..|tags| - 1];
      assert tags == front + [tags[|tags| - 1]];
      KeptTagsCount(front, carIsRelevant, t);
    }
  }

  /** Filtering works piece by piece, so the kept tags keep their relative order. */
  lemma {:induction false} KeptTagsConcat(a: seq<Tag>, b: seq<Tag>, carIsRelevant: (string, string) -> bool)
    ensures KeptTags(a + b, carIsRelevant) == KeptTags(a, carIsRelevant) + KeptTags(b, carIsRelevant)
    decreases |b|
  {
    if b == [] {
      assert a + b == a;
    } else {
      var front := b[..|b| - 1];
      assert (a + b)[..|a + b| - 1] == a + front;
      KeptTagsConcat(a, front, carIsRelevant);
    }
  }

  /** One step of the filter loop: the tag at `i` is dropped from the working
      list exactly when it is not kept. */
  lemma FilterStep(tags: seq<Tag>, i: nat, carIsRelevant: (string, string) -> bool)
    requires i < |tags|
    ensures var current := KeptTags(tags[..i], carIsRelevant) + tags[i..];
      KeptTags(tags[..i + 1], carIsRelevant) + tags[i + 1..] ==
        if KeepsTag(tags[i], carIsRelevant) then current else RemoveKeyValue(current, tags[i])
  {
    var tag := tags[i];
    assert tags[..i + 1][..i] == tags[..i];
    assert tags[i..] == [tag] + tags[i + 1..];
    var kept := KeptTags(tags[..i], carIsRelevant);
    if KeepsTag(tag, carIsRelevant) {
      assert KeptTags(tags[..i + 1], carIsRelevant) == kept + [tag];
    } else {
      assert KeptTags(tags[..i + 1], carIsRelevant) == kept + [];
      assert kept + tags[i..] == kept + [tag] + tags[i + 1..];
      RemoveFirstOccurrence(kept, tag, tags[i + 1..]);
    }
  }

  /** The tag list of a way after the filter. */
  function WayTags(tags: seq<Tag>, id: Option<int>, carIsRelevant: (string, string) -> bool): seq<Tag> {
    KeptTags(tags, carIsRelevant) + [Tag("way_id", IdToString(id))]
  }

  /** The filter's last tag is `way_id`, and its value gives back the way's id. */
  lemma WayIdTagNamesTheWay(tags: seq<Tag>, id: Option<int>, carIsRelevant: (string, string) -> bool)
    ensures var r := WayTags(tags, id, carIsRelevant);
      r[|r| - 1].key == "way_id" && ParseId(r[|r| - 1].value) == id
  {
    IdToStringRoundTrip(id);
  }

  /** `EventsFilter_AddWayId`: on a way, removes in place every tag that is not
      kept and appends `way_id`; any other entity is returned untouched. */
  method EventsFilterAddWayId(osmGeo: OsmGeo, carIsRelevant: (string, string) -> bool) returns (r: OsmGeo)
    modifies osmGeo`tags
    ensures r == osmGeo
    ensures osmGeo.kind == Way ==> osmGeo.tags == WayTags(old(osmGeo.tags), osmGeo.id, carIsRelevant)
    ensures osmGeo.kind != Way ==> osmGeo.tags == old(osmGeo.tags)
  {
    if osmGeo.kind == Way {
      var tags := osmGeo.tags;
      for i := 0 to |tags|
        invariant osmGeo.tags == KeptTags(tags[..i], carIsRelevant) + tags[i..]
      {
        var tag := tags[i];
        FilterStep(tags, i, carIsRelevant);
        if tag.key == "bridge" || tag.key == "tunnel" || tag.key == "lanes" {
          continue;
        }
        if !carIsRelevant(tag.key, tag.value) {
          osmGeo.tags := RemoveKeyValue(osmGeo.tags, tag);
        }
      }
      assert tags[..|tags|] == tags;
      osmGeo.tags := osmGeo.tags + [Tag("way_id", IdToString(osmGeo.id))];
    }
    r := osmGeo;
  }
}
