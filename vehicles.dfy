/**
 * The vehicle-profile catalogue the switches resolve names against, and the
 * two aggregate names of the create-routerdb switch. The catalogue itself
 * (`Vehicle.TryGetByUniqueName`) belongs to the routing library; here it is
 * the fixed table of its eight profiles, under their lower-case unique names.
 */
module Vehicles {
  import opened Wrappers

  datatype Profile = Bicycle | BigTruck | Bus | Car | Moped | MotorCycle | Pedestrian | SmallTruck

  function UniqueName(p: Profile): string {
    match p
    case Bicycle => "bicycle"
    case BigTruck => "bigtruck"
    case Bus => "bus"
    case Car => "car"
    case Moped => "moped"
    case MotorCycle => "motorcycle"
    case Pedestrian => "pedestrian"
    case SmallTruck => "smalltruck"
  }

  /** `Vehicle.TryGetByUniqueName`: the profile whose unique name is `name`, if any. */
  function TryGetByUniqueName(name: string): (r: Option<Profile>)
    ensures r.Some? ==> UniqueName(r.value) == name
    ensures r.None? ==> forall p :: UniqueName(p) != name
  {
    if name == "bicycle" then Some(Bicycle)
    else if name == "bigtruck" then Some(BigTruck)
    else if name == "bus" then Some(Bus)
    else if name == "car" then Some(Car)
    else if name == "moped" then Some(Moped)
    else if name == "motorcycle" then Some(MotorCycle)
    else if name == "pedestrian" then Some(Pedestrian)
    else if name == "smalltruck" then Some(SmallTruck)
    else None
  }

  /** What the aggregate name "all" expands to, in the order it is added. */
  const AllVehicles: seq<Profile> := [Bicycle, BigTruck, Bus, Car, Moped, MotorCycle, Pedestrian, SmallTruck]

  /** What "motorvehicle" and "motorvehicles" expand to, in the order they are added. */
  const MotorVehicles: seq<Profile> := [BigTruck, Bus, Car, MotorCycle, SmallTruck]

  predicate IsAggregateName(name: string) {
    name == "all" || name == "motorvehicle" || name == "motorvehicles"
  }

  /** "all" names every profile exactly once, and the motor-vehicle list is
      the part of it without Bicycle, Moped and Pedestrian, in the same order. */
  lemma AggregatesCoverCatalogue()
    ensures forall p :: p in AllVehicles
    ensures forall i, j :: 0 <= i < j < |AllVehicles| ==> AllVehicles[i] != AllVehicles[j]
    ensures forall p :: p in MotorVehicles <==> p in AllVehicles && p !in {Bicycle, Moped, Pedestrian}
    ensures MotorVehicles == [AllVehicles[1], AllVehicles[2], AllVehicles[3], AllVehicles[5], AllVehicles[7]]
  {
    forall p: Profile ensures p in AllVehicles {
      match p
      case Bicycle => assert AllVehicles[0] == p;
      case BigTruck => assert AllVehicles[1] == p;
      case Bus => assert AllVehicles[2] == p;
      case Car => assert AllVehicles[3] == p;
      case Moped => assert AllVehicles[4] == p;
      case MotorCycle => assert AllVehicles[5] == p;
      case Pedestrian => assert AllVehicles[6] == p;
      case SmallTruck => assert AllVehicles[7] == p;
    }
  }

  /** No profile is called by an aggregate name, so the catalogue lookup that
      comes first never hides an aggregate. */
  lemma AggregateNamesAreNotProfiles(name: string)
    requires IsAggregateName(name)
    ensures TryGetByUniqueName(name) == None
  {
  }
}
