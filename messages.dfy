/** Flight plans, track information and the inter-facility flight-plan
    message, with the pure conversions between them
    (pkg/sim/nas.go:527-637, 385-387, 560-577, 876-919).

    Times are whole seconds of UTC simulated time. */
module Messages {
  import opened Common
  import opened Squawks

  /** av.FlightRules; the zero value is its own constructor. */
  datatype FlightRules = UnknownRules | IFR | VFR

  /** The fields of av.FlightPlan the core reads or writes. Its `altitude`
      is the integer cruise altitude, which STARSFlightPlan shadows with a
      string field of the same name. */
  datatype FlightPlan = FlightPlan(
    callsign: string,
    rules: FlightRules,
    aircraftType: string,
    assignedSquawk: Squawk,
    departureAirport: string,
    arrivalAirport: string,
    altitude: int,
    exit: string,
    route: string,
    ecid: string)

  const ZeroFlightPlan := FlightPlan("", UnknownRules, "", 0, "", "", 0, "", "", "")

  /** Flight plan types (STARS); the zero value is RemoteEnroute. */
  datatype FlightPlanType = RemoteEnroute | RemoteNonEnroute | LocalEnroute | LocalNonEnroute

  /** CoordinationTime: a time and "A", "P" or "E". */
  datatype CoordinationTime = CoordinationTime(time: int, kind: string)

  datatype STARSFlightPlan = STARSFlightPlan(
    base: FlightPlan,
    flightPlanType: FlightPlanType,
    coordinationTime: CoordinationTime,
    coordinationFix: string,
    containedFacilities: seq<string>,
    altitude: string,
    sp1: string,
    sp2: string,
    initialController: string)

  /** `*STARSFlightPlan`: plans are shared by pointer between the plan and
      track tables, so a write through one table is seen through the others. */
  class FlightPlanRef {
    var plan: STARSFlightPlan

    constructor (p: STARSFlightPlan)
      ensures plan == p
    {
      plan := p;
    }
  }

  /** TrackInformation (its RedirectedHandoff field is not part of this model).
      Entries of the track tables are never shared, so they are values. */
  datatype TrackInformation = TrackInformation(
    identifier: string,
    trackOwner: string,
    handoffController: string,
    flightPlan: FlightPlanRef?,
    pointOut: string,
    pointOutHistory: seq<string>,
    sp1: string,
    sp2: string,
    autoAssociateFP: bool)

  const ZeroTrackInformation := TrackInformation("", "", "", null, "", [], "", "", false)

  /** A track entry holding only an owner, a handoff controller and a plan,
      as the `&TrackInformation{...}` literals of the source build it. */
  function NewTrack(owner: string, handoff: string, fp: FlightPlanRef?): TrackInformation
  {
    ZeroTrackInformation.(trackOwner := owner, handoffController := handoff, flightPlan := fp)
  }

  /** The message types, in the order of the source's iota block: the zero
      value is Plan. */
  datatype MessageType =
    | Plan | Amendment | Cancellation | RequestFlightPlan | DepartureDM | BeaconTerminate
    | InitiateTransfer | AcceptRecallTransfer

  datatype AircraftDataMessage = AircraftDataMessage(
    departureLocation: string,
    arrivalLocation: string,
    numberOfAircraft: int,
    aircraftType: string,
    aircraftCategory: string,
    equipment: string)

  const ZeroAircraftData := AircraftDataMessage("", "", 0, "", "", "")

  datatype FlightPlanMessage = FlightPlanMessage(
    sourceID: string,
    messageType: MessageType,
    flightID: string,
    aircraftData: AircraftDataMessage,
    bcn: Squawk,
    coordinationFix: string,
    coordinationTime: CoordinationTime,
    altitude: string,
    route: string,
    track: TrackInformation)

  /** The zero FlightPlanMessage: what Go's `clear` leaves in a queue slot. */
  const ZeroMessage := FlightPlanMessage("", Plan, "", ZeroAircraftData, 0, "", CoordinationTime(0, ""),
                                         "", "", ZeroTrackInformation)

  /** A message queue shared by pointer (`*[]FlightPlanMessage`). */
  class Inbox {
    var msgs: seq<FlightPlanMessage>

    constructor ()
      ensures msgs == []
    {
      msgs := [];
    }

    method Append(m: FlightPlanMessage)
      modifies this
      ensures msgs == old(msgs) + [m]
    {
      msgs := msgs + [m];
    }
  }

  /** A queue that holds only the zero messages Go's clear leaves behind. */
  predicate Cleared(msgs: seq<FlightPlanMessage>)
  {
    forall i :: 0 <= i < |msgs| ==> msgs[i] == ZeroMessage
  }

  /** The queue that `clear` leaves behind: as long as before, every slot
      the zero message. */
  function Zeros(n: nat): (r: seq<FlightPlanMessage>)
    ensures |r| == n && Cleared(r)
  {
    seq(n, _ => ZeroMessage)
  }

  /** How many messages of a queue have the given type: never more than
      the queue holds. */
  function CountType(msgs: seq<FlightPlanMessage>, t: MessageType): (n: nat)
    ensures n <= |msgs|
  {
    if |msgs| == 0 then 0
    else CountType(msgs[..|msgs| - 1], t) + (if msgs[|msgs| - 1].messageType == t then 1 else 0)
  }

  /** Counting is additive over the two parts of a queue. */
  lemma {:induction false} CountTypeAppend(a: seq<FlightPlanMessage>, b: seq<FlightPlanMessage>, t: MessageType)
    ensures CountType(a + b, t) == CountType(a, t) + CountType(b, t)
    decreases |b|
  {
    if |b| > 0 {
      var b' := b[..|b| - 1];
      assert (a + b)[..|a + b| - 1] == a + b';
      CountTypeAppend(a, b', t);
    } else {
      assert a + b == a;
    }
  }

  /** Every slot of a cleared queue reads back as a Plan message with
      beacon code 0. */
  lemma ZerosArePlansWithoutCode(n: nat)
    ensures forall i :: 0 <= i < n ==>
              Zeros(n)[i].messageType == Plan && Zeros(n)[i].bcn == 0 && Zeros(n)[i] == ZeroMessage
  {
  }

  // -----------------------------------------------------------------------
  // Source identifiers

  /** formatSourceID: the facility id followed by the time as `1504Z`
      (two-digit UTC hour, two-digit minute, 'Z'). */
  function FormatSourceID(id: string, t: int): (r: string)
    ensures |r| == |id| + 5
    ensures r[..|id|] == id
    ensures r[|id| + 4] == 'Z'
    ensures IsAllNumbers(r[|id|..|id| + 4])
    ensures IsAllNumbers(r[|id|..|id| + 2]) && IsAllNumbers(r[|id| + 2..|id| + 4])
    ensures DigitsValue(r[|id|..|id| + 2]) == (t / 3600) % 24
    ensures DigitsValue(r[|id| + 2..|id| + 4]) == (t / 60) % 60
  {
    var hh := TwoDigits((t / 3600) % 24);
    var mm := TwoDigits((t / 60) % 60);
    var r := id + hh + mm + "Z";
    assert r[|id|..|id| + 2] == hh;
    assert r[|id| + 2..|id| + 4] == mm;
    assert r[|id|..|id| + 4] == hh + mm;
    r
  }

  /** The receiver of a RequestFlightPlan reads the first three characters
      of the source id back as the facility (pkg/sim/nas.go:232); for a
      three-letter facility id that is exactly the sender. */
  lemma SourceFacilityReadBack(id: string, t: int)
    requires |id| == 3
    ensures |FormatSourceID(id, t)| >= 3 && FormatSourceID(id, t)[..3] == id
  {
  }

  // -----------------------------------------------------------------------
  // Plan <-> message conversions

  /** STARSFlightPlan.Message. `typeWithoutSuffix` stands for
      av.FlightPlan.TypeWithoutSuffix. */
  function Message(fp: STARSFlightPlan, typeWithoutSuffix: string -> string): FlightPlanMessage
  {
    var acType := fp.base.aircraftType;
    FlightPlanMessage(
      "", Plan, fp.base.ecid + fp.base.callsign,
      AircraftDataMessage(fp.base.departureAirport, fp.base.arrivalAirport, 1,
                          typeWithoutSuffix(acType), acType,
                          TrimPrefix(acType, typeWithoutSuffix(acType))),
      fp.base.assignedSquawk, fp.coordinationFix, fp.coordinationTime,
      fp.altitude, fp.base.route, ZeroTrackInformation)
  }

  /** FlightPlanMessage.FlightPlan: the plan a message carries. */
  function ToFlightPlan(msg: FlightPlanMessage): STARSFlightPlan
  {
    var rules := if Contains(msg.altitude, "VFR") then VFR else IFR;
    var base := ZeroFlightPlan.(rules := rules, aircraftType := msg.aircraftData.aircraftType,
                                assignedSquawk := msg.bcn,
                                departureAirport := msg.aircraftData.departureLocation,
                                arrivalAirport := msg.aircraftData.arrivalLocation,
                                route := msg.route);
    var base' := if |msg.flightID| > 3
                 then base.(ecid := msg.flightID[..3], callsign := msg.flightID[3..])
                 else base;
    STARSFlightPlan(base', RemoteEnroute, msg.coordinationTime, msg.coordinationFix, [],
                    msg.altitude, "", "", "")
  }

  /** FlightPlanDepartureMessage: the Plan message an ERAM computer sends
      back for a RequestFlightPlan, built from the embedded av.FlightPlan. */
  function FlightPlanDepartureMessage(fp: FlightPlan, sendingFacility: string, simTime: int,
                                      typeWithoutSuffix: string -> string): FlightPlanMessage
  {
    FlightPlanMessage(
      FormatSourceID(sendingFacility, simTime), Plan, fp.ecid + fp.callsign,
      AircraftDataMessage(fp.departureAirport, fp.arrivalAirport, 1,
                          typeWithoutSuffix(fp.aircraftType), fp.aircraftType,
                          TrimPrefix(fp.aircraftType, typeWithoutSuffix(fp.aircraftType))),
      fp.assignedSquawk, fp.exit, CoordinationTime(0, ""),
      (if fp.rules == VFR then "VFR/" else "") + Itoa(fp.altitude),
      fp.route, ZeroTrackInformation)
  }

  /** What a received message turns into. */
  lemma ToFlightPlanFields(msg: FlightPlanMessage)
    ensures var p := ToFlightPlan(msg);
      && p.base.assignedSquawk == msg.bcn
      && p.base.route == msg.route
      && p.altitude == msg.altitude
      && p.coordinationFix == msg.coordinationFix
      && p.coordinationTime == msg.coordinationTime
      && p.base.departureAirport == msg.aircraftData.departureLocation
      && p.base.arrivalAirport == msg.aircraftData.arrivalLocation
      && p.containedFacilities == []
      && (p.base.rules == VFR <==> Contains(msg.altitude, "VFR"))
      && (p.base.rules != VFR ==> p.base.rules == IFR)
      && (|msg.flightID| > 3 ==> |p.base.ecid| == 3 && p.base.ecid + p.base.callsign == msg.flightID)
      && (|msg.flightID| <= 3 ==> p.base.ecid == "" && p.base.callsign == "")
  {
    var p := ToFlightPlan(msg);
    if |msg.flightID| > 3 {
      assert msg.flightID[..3] + msg.flightID[3..] == msg.flightID;
    }
  }

  /** Sending a plan and reading it back keeps the beacon code, route,
      altitude, coordination fix and time and both airports; it recovers
      the ECID and callsign when the ECID has three characters and the
      callsign is not empty; it sets VFR exactly when the altitude says "VFR". */
  lemma {:induction false} PlanRoundTrip(fp: STARSFlightPlan, typeWithoutSuffix: string -> string)
    ensures var p := ToFlightPlan(Message(fp, typeWithoutSuffix));
      && p.base.assignedSquawk == fp.base.assignedSquawk
      && p.base.route == fp.base.route
      && p.altitude == fp.altitude
      && p.coordinationFix == fp.coordinationFix
      && p.coordinationTime == fp.coordinationTime
      && p.base.departureAirport == fp.base.departureAirport
      && p.base.arrivalAirport == fp.base.arrivalAirport
      && (p.base.rules == VFR <==> Contains(fp.altitude, "VFR"))
      && (|fp.base.ecid| == 3 && fp.base.callsign != "" ==>
            p.base.ecid == fp.base.ecid && p.base.callsign == fp.base.callsign)
  {
    var id := fp.base.ecid + fp.base.callsign;
    if |fp.base.ecid| == 3 && fp.base.callsign != "" {
      assert id[..3] == fp.base.ecid;
      assert id[3..] == fp.base.callsign;
    }
  }

  /** Reading a message and sending the plan again keeps the message's
      code, route, altitude, coordination fix and time and airports, and
      its flight id when that is longer than three characters. */
  lemma {:induction false} MessageRoundTrip(msg: FlightPlanMessage, typeWithoutSuffix: string -> string)
    ensures var m := Message(ToFlightPlan(msg), typeWithoutSuffix);
      && m.bcn == msg.bcn
      && m.route == msg.route
      && m.altitude == msg.altitude
      && m.coordinationFix == msg.coordinationFix
      && m.coordinationTime == msg.coordinationTime
      && m.aircraftData.departureLocation == msg.aircraftData.departureLocation
      && m.aircraftData.arrivalLocation == msg.aircraftData.arrivalLocation
      && m.aircraftData.numberOfAircraft == 1
      && (|msg.flightID| > 3 ==> m.flightID == msg.flightID)
      && (|msg.flightID| <= 3 ==> m.flightID == "")
  {
    if |msg.flightID| > 3 {
      assert msg.flightID[..3] + msg.flightID[3..] == msg.flightID;
    }
  }

  /** A decimal number (with or without a sign) never contains "VFR". */
  lemma NumberHasNoVFR(n: int)
    ensures !Contains(Itoa(n), "VFR")
  {
    var s := Itoa(n);
    forall j | 0 <= j < |s|
      ensures s[j] != 'V'
    {
      if n >= 0 {
        assert IsDigit(s[j]);
      } else if j > 0 {
        assert s[j] == s[1..][j - 1];
        assert IsDigit(s[1..][j - 1]);
      }
    }
    forall i
      ensures !OccursAt(s, "VFR", i)
    {
      if 0 <= i && i + 3 <= |s| {
        assert s[i..i + 3][0] == s[i];
      }
    }
    ContainsIffOccurs(s, "VFR");
  }

  /** The departure message gives the receiver back the plan's code,
      route, airports and exit fix (as coordination fix), the callsign and
      ECID when the ECID has three characters, and VFR exactly when the
      plan's rules are VFR. */
  lemma {:induction false} DepartureMessageReadBack(fp: FlightPlan, fac: string, t: int,
                                                    typeWithoutSuffix: string -> string)
    ensures var p := ToFlightPlan(FlightPlanDepartureMessage(fp, fac, t, typeWithoutSuffix));
      && p.base.assignedSquawk == fp.assignedSquawk
      && p.base.route == fp.route
      && p.base.departureAirport == fp.departureAirport
      && p.base.arrivalAirport == fp.arrivalAirport
      && p.coordinationFix == fp.exit
      && p.altitude == (if fp.rules == VFR then "VFR/" else "") + Itoa(fp.altitude)
      && (p.base.rules == VFR <==> fp.rules == VFR)
      && (|fp.ecid| == 3 && fp.callsign != "" ==>
            p.base.ecid == fp.ecid && p.base.callsign == fp.callsign)
  {
    var m := FlightPlanDepartureMessage(fp, fac, t, typeWithoutSuffix);
    var digits := Itoa(fp.altitude);
    if fp.rules == VFR {
      assert OccursAt(m.altitude, "VFR", 0);
      ContainsIffOccurs(m.altitude, "VFR");
    } else {
      assert m.altitude == digits;
      NumberHasNoVFR(fp.altitude);
    }
    var id := fp.ecid + fp.callsign;
    if |fp.ecid| == 3 && fp.callsign != "" {
      assert id[..3] == fp.ecid;
      assert id[3..] == fp.callsign;
    }
  }

  /** A plan that an ERAM computer stored from a message answers a later
      RequestFlightPlan with altitude "0" or "VFR/0": the departure message
      reads the integer altitude of the embedded av.FlightPlan, which the
      message-to-plan conversion never sets, and the exit fix, also unset. */
  lemma RelayedPlanAltitude(msg: FlightPlanMessage, fac: string, t: int,
                            typeWithoutSuffix: string -> string)
    ensures var d := FlightPlanDepartureMessage(ToFlightPlan(msg).base, fac, t, typeWithoutSuffix);
      && d.altitude == (if Contains(msg.altitude, "VFR") then "VFR/0" else "0")
      && d.coordinationFix == ""
      && d.bcn == msg.bcn
  {
  }
}
