/** The static data the core consults and the route-based pass of
    coordination-fix resolution (pkg/sim/nas.go:1065-1086).

    Package av (the adaptations, the TRACON table, the aircraft
    performance database and its helper functions) is not part of this
    model: it is given as data and as functions. */
module Adaptation {
  import opened Common
  import opened Squawks
  import opened Messages

  datatype FixType = RouteBasedFix | ZoneBasedFix

  /** av.AdaptationFix: the facility the fix hands traffic to and the one it comes from. */
  datatype AdaptationFix = AdaptationFix(toFacility: string, fromFacility: string, fixType: FixType)

  /** av.AdaptationFixes; `fix` stands for its method Fix(altitude). */
  datatype AdaptationFixes = AdaptationFixes(fix: string -> Result<AdaptationFix>)

  /** av.ERAMAdaptation; the two lookups stand for its methods
      FixForRouteAndAltitude and AdaptationFixForAltitude. */
  datatype ERAMAdaptation = ERAMAdaptation(
    coordinationFixes: map<string, AdaptationFixes>,
    fixForRouteAndAltitude: (string, string) -> (string, bool),
    adaptationFixForAltitude: (string, string) -> Option<AdaptationFix>)

  /** The parts of STARSFacilityAdaptation the core reads. */
  datatype STARSFacilityAdaptation = STARSFacilityAdaptation(
    coordinationFixes: map<string, AdaptationFixes>,
    allowLongScratchpad: (bool, bool))

  /** av.DB and the av helpers the core calls: TRACON id to its ARTCC,
      the ERAM adaptations by ARTCC, the aircraft types known to the
      performance database, av.SquawkIsSPC, av.ParseSquawk and
      FlightPlan.TypeWithoutSuffix. */
  datatype AvDatabase = AvDatabase(
    tracons: map<string, string>,
    eramAdaptations: map<string, ERAMAdaptation>,
    aircraftPerformance: set<string>,
    isSPC: Squawk -> bool,
    parseSquawk: string -> Option<Squawk>,
    typeWithoutSuffix: string -> string)

  /** The ARTCC of a TRACON as `av.DB.TRACONs[tracon].ARTCC` reads it: the
      empty string for a TRACON the table does not hold. */
  function ARTCCOf(db: AvDatabase, tracon: string): string
  {
    if tracon in db.tracons then db.tracons[tracon] else ""
  }

  /** The parts of av.Aircraft the core reads: callsign, squawk and the
      fix names of the planned waypoints. */
  datatype Aircraft = Aircraft(callsign: string, squawk: Squawk, waypoints: seq<string>)

  /** A fix the route-based pass accepts: adapted for the plan's altitude,
      not zone based, and named in the route or by one of the waypoints. */
  predicate RouteMatch(fp: STARSFlightPlan, adapt: STARSFacilityAdaptation, ac: Aircraft, f: string)
  {
    && f in adapt.coordinationFixes
    && adapt.coordinationFixes[f].fix(fp.altitude).Ok?
    && adapt.coordinationFixes[f].fix(fp.altitude).value.fixType != ZoneBasedFix
    && (Contains(fp.base.route, f) || f in ac.waypoints)
  }

  /** The first loop of GetCoordinationFix: some matching fix when there is
      one (Go map order decides which), otherwise none. */
  method RouteCoordinationFix(fp: STARSFlightPlan, adapt: STARSFacilityAdaptation, ac: Aircraft)
    returns (fix: string, ok: bool)
    ensures ok ==> RouteMatch(fp, adapt, ac, fix)
    ensures !ok ==> fix == "" && forall f :: !RouteMatch(fp, adapt, ac, f)
  {
    var remaining := adapt.coordinationFixes.Keys;
    while remaining != {}
      invariant remaining <= adapt.coordinationFixes.Keys
      invariant forall f :: f in adapt.coordinationFixes.Keys - remaining ==> !RouteMatch(fp, adapt, ac, f)
      decreases remaining
    {
      ghost var some := Member(remaining);
      var name :| name in remaining;
      var found := adapt.coordinationFixes[name].fix(fp.altitude);
      if found.Ok? && found.value.fixType != ZoneBasedFix {
        if Contains(fp.base.route, name) {
          return name, true;
        }
        for i := 0 to |ac.waypoints|
          invariant forall j :: 0 <= j < i ==> ac.waypoints[j] != name
        {
          if ac.waypoints[i] == name {
            return name, true;
          }
        }
      }
      remaining := remaining - {name};
    }
    return "", false;
  }
}
