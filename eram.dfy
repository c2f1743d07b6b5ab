/** The ERAM computer of one ARTCC (pkg/sim/nas.go:58-321): the flight
    plans it holds by beacon code, the tracks, the STARS computers under
    it, and the routing of messages between them and the other centres. */
module Eram {
  import opened Common
  import opened Squawks
  import opened Messages
  import opened Adaptation
  import opened Stars

  /** TransmitFPMessageTime: 30 minutes, in seconds. */
  const TransmitFPMessageTime: int := 1800

  /** How a pass of SortMessages ended: a panic of the source ends it early. */
  datatype SortOutcome = Completed | Panicked

  /** The codes of the Plan messages of a queue. */
  function PlanCodes(msgs: seq<FlightPlanMessage>): set<Squawk>
  {
    if |msgs| == 0 then {}
    else PlanCodes(msgs[..|msgs| - 1]) + (if msgs[|msgs| - 1].messageType == Plan then {msgs[|msgs| - 1].bcn} else {})
  }

  /** A queue whose first message is a Plan message names that message's
      code. */
  lemma {:induction false} PlanCodesHead(msgs: seq<FlightPlanMessage>)
    requires |msgs| > 0 && msgs[0].messageType == Plan
    ensures msgs[0].bcn in PlanCodes(msgs)
    decreases |msgs|
  {
    if |msgs| > 1 {
      var front := msgs[..|msgs| - 1];
      assert front[0] == msgs[0];
      PlanCodesHead(front);
    }
  }

  /** The trap a cleared queue sets for a later ERAM pass: every slot is a
      Plan message with code 0, so no non-empty prefix of it avoids code 0,
      and SortMessages handles none of it before panicking. */
  lemma ClearedQueuePanics(q: seq<FlightPlanMessage>)
    requires Cleared(q)
    ensures forall h :: 0 <= h <= |q| && 0 !in PlanCodes(q[..h]) ==> h == 0
  {
    forall h | 0 < h <= |q|
      ensures 0 in PlanCodes(q[..h])
    {
      assert q[..h][0] == ZeroMessage;
      PlanCodesHead(q[..h]);
    }
  }

  lemma PrefixTransitive<T>(a: seq<T>, b: seq<T>, c: seq<T>)
    requires a <= b && b <= c
    ensures a <= c
  {
    assert c[..|a|] == c[..|b|][..|a|];
  }

  /** Replacing one track entry adds at most that entry's plan reference. */
  lemma TrackRefsUpdate(m: map<string, TrackInformation>, k: string, t: TrackInformation)
    ensures TrackRefs(m[k := t]) <= TrackRefs(m) + (if t.flightPlan == null then {} else {t.flightPlan})
  {
    var m1 := m[k := t];
    forall r | r in TrackRefs(m1)
      ensures r in TrackRefs(m) + (if t.flightPlan == null then {} else {t.flightPlan})
    {
      var j :| j in m1 && m1[j].flightPlan != null && m1[j].flightPlan == r;
      if j != k {
        assert m[j].flightPlan == r;
      }
    }
  }

  /** The references of a track table and a plan table. */
  ghost function TableRefs(tracks: map<string, TrackInformation>, plans: map<Squawk, FlightPlanRef>): set<FlightPlanRef?>
  {
    TrackRefs(tracks) + plans.Values
  }

  /** A track entry whose plan the tables already reference adds no reference. */
  lemma TableRefsTrack(tracks: map<string, TrackInformation>, plans: map<Squawk, FlightPlanRef>, k: string,
                       t: TrackInformation)
    requires t.flightPlan == null || t.flightPlan in TableRefs(tracks, plans)
    ensures TableRefs(tracks[k := t], plans) <= TableRefs(tracks, plans)
  {
    TrackRefsUpdate(tracks, k, t);
  }

  /** The plan of a held track, and any plan of the table, is referenced. */
  lemma RefsOfTrack(tracks: map<string, TrackInformation>, plans: map<Squawk, FlightPlanRef>, k: string)
    ensures k in tracks && tracks[k].flightPlan != null ==> tracks[k].flightPlan in TableRefs(tracks, plans)
    ensures forall q :: q in plans ==> plans[q] in TableRefs(tracks, plans)
  {
  }

  /** Replacing one table entry adds at most that entry. */
  lemma ValuesUpdate<K, V>(m: map<K, V>, k: K, v: V)
    ensures m[k := v].Values <= m.Values + {v}
  {
    forall x | x in m[k := v].Values ensures x in m.Values + {v} {
      var j :| j in m[k := v] && m[k := v][j] == x;
      if j != k {
        assert m[j] == x;
      }
    }
  }

  /** No queue received anything. */
  twostate predicate NoneSent(boxes: set<Inbox>)
    reads boxes
  {
    forall b :: b in boxes ==> b.msgs == old(b.msgs)
  }

  /** Exactly `m` was queued, and only in `box` (nothing at all when `box` is null). */
  twostate predicate OnlySent(boxes: set<Inbox>, box: Inbox?, m: FlightPlanMessage)
    reads boxes
  {
    forall b :: b in boxes ==> b.msgs == if b == box then old(b.msgs) + [m] else old(b.msgs)
  }

  /** Since the snapshot `msgs0` of the queues, `m` was appended to `box`
      and nothing else was sent. */
  predicate SentSince(boxes: set<Inbox>, msgs0: map<Inbox, seq<FlightPlanMessage>>, box: Inbox?, m: FlightPlanMessage)
    reads boxes
  {
    forall b :: b in boxes ==> b in msgs0 && b.msgs == if b == box then msgs0[b] + [m] else msgs0[b]
  }

  /** Since the snapshot `msgs0`, the queues were only appended to. */
  predicate GrownSince(boxes: set<Inbox>, msgs0: map<Inbox, seq<FlightPlanMessage>>)
    reads boxes
  {
    forall b :: b in boxes ==> b in msgs0 && msgs0[b] <= b.msgs
  }

  /** Queues are only appended to. */
  twostate predicate Appended(boxes: set<Inbox>)
    reads boxes
  {
    forall b :: b in boxes ==> old(b.msgs) <= b.msgs
  }

  /** `p` is `p0` with at most facilities added to its contained list. */
  predicate GrewFrom(p0: STARSFlightPlan, p: STARSFlightPlan)
  {
    && p == p0.(containedFacilities := p.containedFacilities)
    && p0.containedFacilities <= p.containedFacilities
  }

  /** A plan changed at most by facilities added to its contained list. */
  twostate predicate Grew(r: FlightPlanRef)
    reads r
  {
    GrewFrom(old(r.plan), r.plan)
  }

  /** A plan with neither callsign nor altitude. */
  predicate BlankPlan(p: STARSFlightPlan)
  {
    p.base.callsign == "" && p.altitude == ""
  }

  /** The track entry whose plan is blank, which SendFlightPlans deletes. */
  predicate BlankTrack(t: TrackInformation)
    reads t.flightPlan
  {
    t.flightPlan != null && BlankPlan(t.flightPlan.plan)
  }

  /** The identifiers the blank entries of a track table hold. */
  ghost function BlankIdentifiers(m: map<string, TrackInformation>): set<string>
    reads TrackRefs(m)
  {
    set k | k in m && BlankTrack(m[k]) :: m[k].identifier
  }

  class ERAMComputer {
    const starsComputers: map<string, STARSComputer>
    /** The queues of the other centres' ERAM computers, by ARTCC. */
    var eramInboxes: map<string, Inbox>
    const receivedMessages: Inbox
    var flightPlans: map<Squawk, FlightPlanRef>
    var trackInformation: map<string, TrackInformation>
    /** The NAS pool. */
    const availableSquawks: SquawkPool
    const identifier: string
    const adaptation: ERAMAdaptation
    /** av.DB and the av helpers. */
    const db: AvDatabase

    /** MakeERAMComputer: a computer for the centre `fac` and one STARS
        computer for each TRACON the database places under it, all of them
        sharing one beacon-bank pool and queuing to this computer. */
    constructor (fac: string, adapt: ERAMAdaptation, starsBeaconBank: int, db: AvDatabase)
      ensures identifier == fac && adaptation == adapt && this.db == db
      ensures flightPlans == map[] && trackInformation == map[] && eramInboxes == map[]
      ensures fresh(receivedMessages) && receivedMessages.msgs == []
      ensures fresh(availableSquawks) && availableSquawks.available == NasCodes(db.isSPC)
      ensures starsComputers.Keys == set id | id in db.tracons && db.tracons[id] == fac
      ensures forall id :: id in starsComputers ==>
                var sc := starsComputers[id];
                && fresh(sc) && fresh(sc.receivedMessages) && sc.receivedMessages.msgs == []
                && sc.identifier == id && sc.eramInbox == receivedMessages
                && sc.containedPlans == map[] && sc.trackInformation == map[] && sc.starsInbox == map[]
                && sc.unsupportedTracks == []
                && fresh(sc.availableSquawks) && sc.availableSquawks.available == BankCodes(starsBeaconBank)
                && sc.availableSquawks != availableSquawks
      ensures forall a, b :: a in starsComputers && b in starsComputers ==>
                starsComputers[a].availableSquawks == starsComputers[b].availableSquawks
      ensures forall a, b :: a in starsComputers && b in starsComputers && a != b ==>
                starsComputers[a] != starsComputers[b] &&
                starsComputers[a].receivedMessages != starsComputers[b].receivedMessages
      ensures Valid()
    {
      var inbox := new Inbox();
      var nas := ValidSquawkCodes(db.isSPC);
      var pool := new SquawkPool(nas);
      var bank := BeaconBankSquawks(starsBeaconBank);
      var starsPool := new SquawkPool(bank);
      var stars: map<string, STARSComputer> := map[];
      var remaining := db.tracons.Keys;
      while remaining != {}
        invariant remaining <= db.tracons.Keys
        invariant stars.Keys == set id | id in db.tracons && id !in remaining && db.tracons[id] == fac
        invariant forall id :: id in stars ==>
                    var sc := stars[id];
                    && fresh(sc) && fresh(sc.receivedMessages) && sc.receivedMessages.msgs == []
                    && sc.identifier == id && sc.eramInbox == inbox
                    && sc.containedPlans == map[] && sc.trackInformation == map[] && sc.starsInbox == map[]
                    && sc.unsupportedTracks == [] && sc.availableSquawks == starsPool
                    && sc.receivedMessages != inbox
        invariant forall a, b :: a in stars && b in stars && a != b ==>
                    stars[a] != stars[b] && stars[a].receivedMessages != stars[b].receivedMessages
        invariant starsPool.available == bank && pool.available == nas && inbox.msgs == []
        decreases remaining
      {
        ghost var some := Member(remaining);
        var id :| id in remaining;
        if db.tracons[id] == fac {
          var sc := new STARSComputer(id, starsPool);
          sc.eramInbox := inbox;
          stars := stars[id := sc];
        }
        remaining := remaining - {id};
      }
      starsComputers := stars;
      eramInboxes := map[];
      receivedMessages := inbox;
      flightPlans := map[];
      trackInformation := map[];
      availableSquawks := pool;
      identifier := fac;
      adaptation := adapt;
      this.db := db;
    }

    /** The computer's own queue is not one it sends to. */
    ghost predicate Valid()
      reads this`eramInboxes
    {
      receivedMessages !in Outboxes()
    }

    /** Every queue this computer can send to. */
    ghost function Outboxes(): set<Inbox>
      reads this`eramInboxes
    {
      (set f | f in starsComputers :: starsComputers[f].receivedMessages) + eramInboxes.Values
    }

    function StarsBox(f: string): Inbox?
    {
      if f in starsComputers then starsComputers[f].receivedMessages else null
    }

    function EramBox(f: string): Inbox?
      reads this`eramInboxes
    {
      if f in eramInboxes then eramInboxes[f] else null
    }

    /** The plans the two tables point to. */
    ghost function Refs(): set<FlightPlanRef?>
      reads this`flightPlans, this`trackInformation
    {
      TableRefs(trackInformation, flightPlans)
    }

    function PlanFor(bcn: Squawk): FlightPlanRef?
      reads this`flightPlans
    {
      if bcn in flightPlans then flightPlans[bcn] else null
    }

    /** CreateSquawk: a code from the NAS pool. */
    method CreateSquawk() returns (sq: Squawk, err: Option<Error>)
      modifies availableSquawks
      ensures old(availableSquawks.available) == {} ==>
                sq == 0 && err == Some(ErrNoMoreAvailableSquawkCodes) &&
                availableSquawks.available == old(availableSquawks.available)
      ensures old(availableSquawks.available) != {} ==>
                err == None && sq in old(availableSquawks.available) &&
                availableSquawks.available == old(availableSquawks.available) - {sq}
    {
      sq, err := availableSquawks.CreateSquawk();
    }

    /** ToSTARSFacility: queues the message for a STARS computer under this
        centre; any other facility is unknown. */
    method ToSTARSFacility(facility: string, msg: FlightPlanMessage) returns (err: Option<Error>)
      modifies if facility in starsComputers then {starsComputers[facility].receivedMessages} else {}
      ensures facility in starsComputers ==>
                err == None &&
                starsComputers[facility].receivedMessages.msgs == old(starsComputers[facility].receivedMessages.msgs) + [msg]
      ensures facility !in starsComputers ==> err == Some(ErrUnknownFacility)
      ensures OnlySent(Outboxes(), StarsBox(facility), msg)
      ensures Appended(Outboxes())
    {
      if facility in starsComputers {
        starsComputers[facility].receivedMessages.Append(msg);
        err := None;
      } else {
        err := Some(ErrUnknownFacility);
      }
    }

    /** SendMessageToERAM: queues the message for another centre. */
    method SendMessageToERAM(facility: string, msg: FlightPlanMessage) returns (err: Option<Error>)
      modifies if facility in eramInboxes then {eramInboxes[facility]} else {}
      ensures facility in eramInboxes ==>
                err == None && eramInboxes[facility].msgs == old(eramInboxes[facility].msgs) + [msg]
      ensures facility !in eramInboxes ==> err == Some(ErrUnknownFacility)
      ensures OnlySent(Outboxes(), EramBox(facility), msg)
      ensures Appended(Outboxes())
    {
      if facility in eramInboxes {
        eramInboxes[facility].Append(msg);
        err := None;
      } else {
        err := Some(ErrUnknownFacility);
      }
    }

    // ---------------------------------------------------------------------
    // SortMessages, one message type at a time

    /** The coordination fix a received plan ends up with, and whether one
        was found: the message's own, or else the one the adaptation gives
        for the route and altitude. */
    function ResolvedFix(msg: FlightPlanMessage): (string, bool)
    {
      if msg.coordinationFix == "" then adaptation.fixForRouteAndAltitude(msg.route, msg.altitude)
      else (msg.coordinationFix, true)
    }

    /** The facility a received plan is passed on to, if any: the facility
        its coordination fix leads to, when that is not this centre. */
    function PlanForward(msg: FlightPlanMessage): Option<string>
    {
      var (fix, ok) := ResolvedFix(msg);
      if !ok then None
      else match adaptation.adaptationFixForAltitude(fix, msg.altitude)
        case Some(af) => if af.toFacility != identifier then Some(af.toFacility) else None
        case None => None
    }

    /** Plan: a zero code panics; otherwise a fresh plan read from the
        message is stored under the code, with its coordination fix
        resolved, and the message is passed on to the STARS facility
        that needs it. */
    method HandlePlan(msg: FlightPlanMessage) returns (panicked: bool)
      requires Valid()
      modifies this`flightPlans, Outboxes()
      ensures panicked <==> msg.bcn == 0
      ensures panicked ==> flightPlans == old(flightPlans) && NoneSent(Outboxes())
      ensures !panicked ==>
                && msg.bcn in flightPlans && fresh(flightPlans[msg.bcn])
                && flightPlans == old(flightPlans)[msg.bcn := flightPlans[msg.bcn]]
                && flightPlans[msg.bcn].plan == StoredPlan(msg)
                && OnlySent(Outboxes(), if PlanForward(msg).Some? then StarsBox(PlanForward(msg).value) else null, msg)
      ensures Appended(Outboxes())
      ensures PlanView() == if panicked then old(PlanView()) else old(PlanView())[msg.bcn := StoredPlan(msg)]
    {
      ghost var view0 := PlanView();
      var p := ToFlightPlan(msg);
      if p.base.assignedSquawk == 0 {
        return true;
      }
      var fp := StorePlanEntry(msg);
      ForwardPlan(msg);
      PlanViewSame(view0[msg.bcn := StoredPlan(msg)]);
      return false;
    }

    /** The table part of a Plan message: a fresh plan under its code. */
    method StorePlanEntry(msg: FlightPlanMessage) returns (fp: FlightPlanRef)
      modifies this`flightPlans
      ensures fresh(fp) && flightPlans == old(flightPlans)[msg.bcn := fp]
      ensures fp.plan == StoredPlan(msg)
    {
      var p := ToFlightPlan(msg);
      fp := new FlightPlanRef(p);
      flightPlans := flightPlans[msg.bcn := fp];
      if p.coordinationFix == "" {
        var (fix, ok) := adaptation.fixForRouteAndAltitude(p.base.route, p.altitude);
        fp.plan := fp.plan.(coordinationFix := fix);
      }
    }

    /** The routing part of a Plan message: passed on to the facility its
        resolved coordination fix leads to, when that is not this centre. */
    method ForwardPlan(msg: FlightPlanMessage)
      modifies Outboxes()
      ensures OnlySent(Outboxes(), if PlanForward(msg).Some? then StarsBox(PlanForward(msg).value) else null, msg)
      ensures Appended(Outboxes())
    {
      var (fix, ok) := ResolvedFix(msg);
      if !ok {
        return;
      }
      var af := adaptation.adaptationFixForAltitude(fix, msg.altitude);
      if af.Some? && af.value.toFacility != identifier {
        var _ := ToSTARSFacility(af.value.toFacility, msg);
      }
    }

    /** RequestFlightPlan: a source id shorter than three characters panics;
        otherwise a held plan for the code goes back to the asking facility
        as a departure message, and the head of the queue is dropped. */
    method HandleRequestFlightPlan(msg: FlightPlanMessage, simTime: int) returns (panicked: bool)
      requires Valid()
      requires |receivedMessages.msgs| >= 1
      modifies receivedMessages, Outboxes()
      ensures panicked <==> |msg.sourceID| < 3
      ensures panicked ==> receivedMessages.msgs == old(receivedMessages.msgs) && NoneSent(Outboxes())
      ensures !panicked ==> receivedMessages.msgs == old(receivedMessages.msgs)[1..]
      ensures !panicked && msg.bcn in flightPlans ==>
                OnlySent(Outboxes(), StarsBox(msg.sourceID[..3]),
                         FlightPlanDepartureMessage(flightPlans[msg.bcn].plan.base, identifier, simTime,
                                                    db.typeWithoutSuffix))
      ensures !panicked && msg.bcn !in flightPlans ==> NoneSent(Outboxes())
      ensures Appended(Outboxes())
      ensures PlanView() == old(PlanView())
    {
      ghost var view0 := PlanView();
      if |msg.sourceID| < 3 {
        return true;
      }
      ReplyToRequest(msg, simTime);
      label replied:
      DropHead();
      assert forall b :: b in Outboxes() ==> b.msgs == old@replied(b.msgs);
      PlanViewSame(view0);
      return false;
    }

    /** The reply to a RequestFlightPlan: the held plan for the code, as a
        departure message to the facility the source id names. */
    method ReplyToRequest(msg: FlightPlanMessage, simTime: int)
      requires |msg.sourceID| >= 3
      modifies Outboxes()
      ensures msg.bcn in flightPlans ==>
                OnlySent(Outboxes(), StarsBox(msg.sourceID[..3]),
                         FlightPlanDepartureMessage(flightPlans[msg.bcn].plan.base, identifier, simTime,
                                                    db.typeWithoutSuffix))
      ensures msg.bcn !in flightPlans ==> NoneSent(Outboxes())
      ensures Appended(Outboxes())
    {
      if msg.bcn !in flightPlans {
        return;
      }
      var plan := flightPlans[msg.bcn];
      var m := FlightPlanDepartureMessage(plan.plan.base, identifier, simTime, db.typeWithoutSuffix);
      var _ := ToSTARSFacility(msg.sourceID[..3], m);
      assert flightPlans == old(flightPlans) && plan.plan == old(plan.plan);
    }

    /** `*ReceivedMessages = (*ReceivedMessages)[1:]`. */
    method DropHead()
      requires |receivedMessages.msgs| >= 1
      modifies receivedMessages
      ensures receivedMessages.msgs == old(receivedMessages.msgs)[1..]
    {
      receivedMessages.msgs := receivedMessages.msgs[1..];
    }

    /** Where an InitiateTransfer for a fix leading to `to` goes: another
        centre when the id starts with 'Z', a TRACON otherwise. */
    function TransferBox(to: string): Inbox?
      reads this`eramInboxes
    {
      if |to| > 0 && to[0] == 'Z' then EramBox(to) else StarsBox(to)
    }

    /** The adaptation fix of the message's coordination fix at the altitude
        of the track's plan, when there is one. */
    function TransferFix(msg: FlightPlanMessage, fp: FlightPlanRef?): Option<AdaptationFix>
      reads fp
    {
      if msg.coordinationFix in adaptation.coordinationFixes && fp != null &&
         adaptation.coordinationFixes[msg.coordinationFix].fix(fp.plan.altitude).Ok?
      then Some(adaptation.coordinationFixes[msg.coordinationFix].fix(fp.plan.altitude).value)
      else None
    }

    /** The transfer stays with this centre. */
    predicate TransferStays(msg: FlightPlanMessage, fp: FlightPlanRef?)
      reads fp
    {
      TransferFix(msg, fp).Some? && TransferFix(msg, fp).value.toFacility == identifier
    }

    /** The queue a transfer is passed on to, if any. */
    function TransferTarget(msg: FlightPlanMessage, fp: FlightPlanRef?): Inbox?
      reads this`eramInboxes, fp
    {
      if TransferFix(msg, fp).Some? && TransferFix(msg, fp).value.toFacility != identifier
      then TransferBox(TransferFix(msg, fp).value.toFacility)
      else null
    }

    /** The track entry an InitiateTransfer starts from: the one held, or a
        new one with the plan held for the code. */
    function TransferBase(msg: FlightPlanMessage): TrackInformation
      reads this`trackInformation, this`flightPlans
    {
      if msg.track.identifier in trackInformation then trackInformation[msg.track.identifier]
      else ZeroTrackInformation.(flightPlan := PlanFor(msg.bcn))
    }

    /** InitiateTransfer: the track is made or updated with the new owner
        and handoff controller and the code goes back to the NAS pool; then,
        for the message's coordination fix, the message is passed on to the
        facility the fix leads to or, when that is this centre, the track is
        remade. */
    method HandleInitiateTransfer(msg: FlightPlanMessage, simTime: int) returns (panicked: bool)
      requires Valid()
      modifies this`trackInformation, availableSquawks, Outboxes()
      ensures availableSquawks.available == old(availableSquawks.available) + {msg.bcn}
      ensures var fp0 := old(TransferBase(msg)).flightPlan;
        && (adaptation.coordinationFixes != map[] && fp0 == null ==> panicked)
        && (panicked ==> adaptation.coordinationFixes != map[] &&
                         (fp0 == null || (TransferStays(msg, fp0) && PlanFor(msg.bcn) == null)))
        && (!panicked ==> trackInformation == old(trackInformation)[msg.track.identifier :=
              if TransferStays(msg, fp0)
              then NewTrack(msg.track.trackOwner, msg.track.handoffController, PlanFor(msg.bcn))
              else old(TransferBase(msg)).(trackOwner := msg.track.trackOwner,
                                           handoffController := msg.track.handoffController)])
        && (!panicked ==> OnlySent(Outboxes(), TransferTarget(msg, fp0),
                                   msg.(sourceID := FormatSourceID(identifier, simTime))))
      ensures Appended(Outboxes())
    {
      ghost var tracks0 := trackInformation;
      ghost var msgs0: map<Inbox, seq<FlightPlanMessage>> := map b | b in Outboxes() :: b.msgs;
      var updated := OpenTransfer(msg);
      panicked := TransferByFix(msg, msg.(sourceID := FormatSourceID(identifier, simTime)), updated, tracks0, msgs0);
    }

    /** The first part of InitiateTransfer: the track gets the new owner and
        handoff controller, and the code goes back to the NAS pool. */
    method OpenTransfer(msg: FlightPlanMessage) returns (updated: TrackInformation)
      modifies this`trackInformation, availableSquawks
      ensures updated == old(TransferBase(msg)).(trackOwner := msg.track.trackOwner,
                                                 handoffController := msg.track.handoffController)
      ensures trackInformation == old(trackInformation)[msg.track.identifier := updated]
      ensures availableSquawks.available == old(availableSquawks.available) + {msg.bcn}
    {
      var base := TransferBase(msg);
      updated := base.(trackOwner := msg.track.trackOwner, handoffController := msg.track.handoffController);
      trackInformation := trackInformation[msg.track.identifier := updated];
      availableSquawks.Insert(msg.bcn);
    }

    /** The loop of InitiateTransfer over the coordination fixes. The
        altitude is read through the track's plan on every iteration, so a
        track without a plan panics as soon as there is any fix, and so does
        a track remade without a plan when a fix is left to visit. */
    method TransferByFix(msg: FlightPlanMessage, m: FlightPlanMessage, updated: TrackInformation,
                         ghost tracks0: map<string, TrackInformation>, ghost msgs0: map<Inbox, seq<FlightPlanMessage>>)
      returns (panicked: bool)
      requires Valid()
      requires trackInformation == tracks0[msg.track.identifier := updated]
      requires forall b :: b in Outboxes() ==> b in msgs0 && b.msgs == msgs0[b]
      modifies this`trackInformation, Outboxes()
      ensures GrownSince(Outboxes(), msgs0)
      ensures var fp0 := updated.flightPlan;
        && (adaptation.coordinationFixes != map[] && fp0 == null ==> panicked)
        && (panicked ==> adaptation.coordinationFixes != map[] &&
                         (fp0 == null || (TransferStays(msg, fp0) && PlanFor(msg.bcn) == null)))
        && (!panicked ==> trackInformation == tracks0[msg.track.identifier :=
              if TransferStays(msg, fp0)
              then NewTrack(msg.track.trackOwner, msg.track.handoffController, PlanFor(msg.bcn))
              else updated])
        && (!panicked ==> SentSince(Outboxes(), msgs0, TransferTarget(msg, fp0), m))
    {
      var remaining := adaptation.coordinationFixes.Keys;
      while remaining != {}
        invariant remaining <= adaptation.coordinationFixes.Keys
        invariant TransferInv(msg, m, updated, tracks0, msgs0, remaining)
        decreases remaining
      {
        ghost var some := Member(remaining);
        var name :| name in remaining;
        panicked := TransferStep(name, msg, m, updated, tracks0, msgs0, remaining);
        if panicked {
          return;
        }
        remaining := remaining - {name};
      }
      return false;
    }

    /** What the loop of TransferByFix keeps, `remaining` being the fixes
        still to visit: the track is the updated one, or the remade one once
        the message's own fix was visited and it stays here; the message was
        passed on once that fix was visited, and nothing else was sent. */
    ghost predicate TransferInv(msg: FlightPlanMessage, m: FlightPlanMessage, updated: TrackInformation,
                                tracks0: map<string, TrackInformation>, msgs0: map<Inbox, seq<FlightPlanMessage>>,
                                remaining: set<string>)
      reads this`trackInformation, this`flightPlans, this`eramInboxes, Outboxes(), updated.flightPlan
    {
      var fp0 := updated.flightPlan;
      var visited := msg.coordinationFix !in remaining;
      && trackInformation == tracks0[msg.track.identifier :=
           if TransferStays(msg, fp0) && visited
           then NewTrack(msg.track.trackOwner, msg.track.handoffController, PlanFor(msg.bcn))
           else updated]
      && (remaining != adaptation.coordinationFixes.Keys ==> fp0 != null)
      && SentSince(Outboxes(), msgs0, if visited then TransferTarget(msg, fp0) else null, m)
      && GrownSince(Outboxes(), msgs0)
    }

    /** One turn of the loop of TransferByFix. */
    method TransferStep(name: string, msg: FlightPlanMessage, m: FlightPlanMessage, updated: TrackInformation,
                        ghost tracks0: map<string, TrackInformation>, ghost msgs0: map<Inbox, seq<FlightPlanMessage>>,
                        ghost remaining: set<string>)
      returns (panicked: bool)
      requires Valid()
      requires name in remaining && remaining <= adaptation.coordinationFixes.Keys
      requires TransferInv(msg, m, updated, tracks0, msgs0, remaining)
      modifies this`trackInformation, Outboxes()
      ensures GrownSince(Outboxes(), msgs0)
      ensures updated.flightPlan == null ==> panicked
      ensures panicked ==> updated.flightPlan == null ||
                           (TransferStays(msg, updated.flightPlan) && PlanFor(msg.bcn) == null)
      ensures !panicked ==> TransferInv(msg, m, updated, tracks0, msgs0, remaining - {name})
    {
      var id := msg.track.identifier;
      ghost var fp0 := updated.flightPlan;
      ghost var stays := TransferStays(msg, fp0);
      ghost var target := TransferTarget(msg, fp0);
      ghost var sent := if msg.coordinationFix !in remaining then target else null;
      panicked := VisitFix(name, msg, m);
      if panicked {
        return;
      }
      if name == msg.coordinationFix {
        MapUpdateTwice(tracks0, id, updated,
                       if stays then NewTrack(msg.track.trackOwner, msg.track.handoffController, PlanFor(msg.bcn))
                       else updated);
      }
      forall b | b in Outboxes()
        ensures b.msgs == if b == (if name == msg.coordinationFix then target else sent) then msgs0[b] + [m] else msgs0[b]
        ensures msgs0[b] <= b.msgs
      {
        assert old(b.msgs) == if b == sent then msgs0[b] + [m] else msgs0[b];
      }
    }

    /** One iteration of that loop: panics on a track without a plan, and
        acts only for the message's own coordination fix. */
    method VisitFix(name: string, msg: FlightPlanMessage, m: FlightPlanMessage) returns (panicked: bool)
      requires Valid()
      requires name in adaptation.coordinationFixes && msg.track.identifier in trackInformation
      modifies this`trackInformation, Outboxes()
      ensures var fp := old(trackInformation[msg.track.identifier].flightPlan);
        && (panicked <==> fp == null)
        && (!panicked && name == msg.coordinationFix ==>
              && trackInformation == old(trackInformation)[msg.track.identifier :=
                   if TransferStays(msg, fp)
                   then NewTrack(msg.track.trackOwner, msg.track.handoffController, PlanFor(msg.bcn))
                   else old(trackInformation[msg.track.identifier])]
              && OnlySent(Outboxes(), TransferTarget(msg, fp), m))
        && (panicked || name != msg.coordinationFix ==>
              trackInformation == old(trackInformation) && NoneSent(Outboxes()))
      ensures Appended(Outboxes())
    {
      var id := msg.track.identifier;
      var fp := trackInformation[id].flightPlan;
      if fp == null {
        return true;
      }
      var fix := adaptation.coordinationFixes[name].fix(fp.plan.altitude);
      if fix.Ok? {
        if name == msg.coordinationFix && fix.value.toFacility != identifier {
          var dest := fix.value.toFacility;
          if |dest| > 0 && dest[0] == 'Z' {
            var _ := SendMessageToERAM(dest, m);
          } else {
            var _ := ToSTARSFacility(dest, m);
          }
        } else if name == msg.coordinationFix && fix.value.toFacility == identifier {
          trackInformation := trackInformation[id := NewTrack(msg.track.trackOwner, msg.track.handoffController, PlanFor(msg.bcn))];
        }
      }
      return false;
    }

    /** AcceptRecallTransfer: for a known coordination fix, the track takes
        the owner the message names (the code goes back to the NAS pool when
        that owner is unchanged, a recall); the altitude is then read through
        the track's plan, which panics when the track or its plan is missing,
        and the message goes back to the centre the fix comes from. */
    method HandleAcceptRecallTransfer(msg: FlightPlanMessage) returns (panicked: bool)
      requires Valid()
      modifies this`trackInformation, availableSquawks, Outboxes()
      ensures var id := msg.track.identifier;
        && (msg.coordinationFix !in adaptation.coordinationFixes ==>
              && !panicked && trackInformation == old(trackInformation)
              && availableSquawks.available == old(availableSquawks.available) && NoneSent(Outboxes()))
        && (msg.coordinationFix in adaptation.coordinationFixes ==>
              && (panicked <==> id !in old(trackInformation) || old(trackInformation)[id].flightPlan == null)
              && (id in old(trackInformation) ==>
                    var info := old(trackInformation)[id];
                    && trackInformation == old(trackInformation)[id := info.(trackOwner := msg.track.trackOwner)]
                    && availableSquawks.available == old(availableSquawks.available) +
                         (if msg.track.trackOwner == info.trackOwner then {msg.bcn} else {}))
              && (id !in old(trackInformation) ==>
                    trackInformation == old(trackInformation) &&
                    availableSquawks.available == old(availableSquawks.available))
              && (!panicked ==>
                    var af := adaptation.coordinationFixes[msg.coordinationFix].fix(trackInformation[id].flightPlan.plan.altitude);
                    OnlySent(Outboxes(), if af.Ok? && af.value.fromFacility != identifier then EramBox(af.value.fromFacility) else null, msg)))
      ensures panicked ==> NoneSent(Outboxes())
      ensures Appended(Outboxes())
    {
      if msg.coordinationFix !in adaptation.coordinationFixes {
        return false;
      }
      RecallOwner(msg);
      panicked := ReturnRecall(msg);
    }

    /** The second part of AcceptRecallTransfer: the altitude is read
        through the track's plan, which panics when the track or its plan
        is missing, and the message goes back to the centre the fix comes
        from, unless that is this centre. */
    method ReturnRecall(msg: FlightPlanMessage) returns (panicked: bool)
      requires msg.coordinationFix in adaptation.coordinationFixes
      modifies Outboxes()
      ensures var id := msg.track.identifier;
        && (panicked <==> id !in trackInformation || trackInformation[id].flightPlan == null)
        && (!panicked ==>
              var af := adaptation.coordinationFixes[msg.coordinationFix].fix(trackInformation[id].flightPlan.plan.altitude);
              OnlySent(Outboxes(), if af.Ok? && af.value.fromFacility != identifier then EramBox(af.value.fromFacility) else null, msg))
      ensures panicked ==> NoneSent(Outboxes())
      ensures Appended(Outboxes())
    {
      var fixes := adaptation.coordinationFixes[msg.coordinationFix];
      var id := msg.track.identifier;
      if id !in trackInformation || trackInformation[id].flightPlan == null {
        return true;
      }
      var af := fixes.fix(trackInformation[id].flightPlan.plan.altitude);
      if af.Ok? && af.value.fromFacility != identifier {
        var _ := SendMessageToERAM(af.value.fromFacility, msg);
      }
      return false;
    }

    /** The first part of AcceptRecallTransfer: a held track takes the
        owner the message names, and the code goes back to the NAS pool
        when that owner is unchanged. */
    method RecallOwner(msg: FlightPlanMessage)
      modifies this`trackInformation, availableSquawks
      ensures var id := msg.track.identifier;
        && (id in old(trackInformation) ==>
              var info := old(trackInformation)[id];
              && trackInformation == old(trackInformation)[id := info.(trackOwner := msg.track.trackOwner)]
              && availableSquawks.available == old(availableSquawks.available) +
                   (if msg.track.trackOwner == info.trackOwner then {msg.bcn} else {}))
        && (id !in old(trackInformation) ==>
              trackInformation == old(trackInformation) && availableSquawks.available == old(availableSquawks.available))
    {
      var id := msg.track.identifier;
      if id in trackInformation {
        var info := trackInformation[id];
        if msg.track.trackOwner == info.trackOwner {
          availableSquawks.Insert(msg.bcn);
        }
        trackInformation := trackInformation[id := info.(trackOwner := msg.track.trackOwner)];
      }
    }

    /** An InitiateTransfer as SortMessages sees it: what it keeps of the
        tables, the pool and the queues. */
    method TransferMessage(msg: FlightPlanMessage, simTime: int) returns (panicked: bool)
      requires Valid()
      modifies this`trackInformation, availableSquawks, Outboxes()
      ensures old(availableSquawks.available) <= availableSquawks.available
      ensures Appended(Outboxes())
      ensures panicked ==> adaptation.coordinationFixes != map[]
      ensures PlanView() == old(PlanView())
      ensures !panicked ==> Refs() <= old(Refs())
    {
      ghost var tracks0, plans0 := trackInformation, flightPlans;
      ghost var view0 := PlanView();
      panicked := HandleInitiateTransfer(msg, simTime);
      PlanViewSame(view0);
      if !panicked {
        RefsOfTrack(tracks0, plans0, msg.track.identifier);
        TableRefsTrack(tracks0, plans0, msg.track.identifier, trackInformation[msg.track.identifier]);
      }
    }

    /** An AcceptRecallTransfer as SortMessages sees it. */
    method AcceptRecallMessage(msg: FlightPlanMessage) returns (panicked: bool)
      requires Valid()
      modifies this`trackInformation, availableSquawks, Outboxes()
      ensures old(availableSquawks.available) <= availableSquawks.available
      ensures Appended(Outboxes())
      ensures panicked ==> msg.coordinationFix in adaptation.coordinationFixes
      ensures PlanView() == old(PlanView())
      ensures Refs() <= old(Refs())
    {
      ghost var tracks0, plans0 := trackInformation, flightPlans;
      ghost var view0 := PlanView();
      panicked := HandleAcceptRecallTransfer(msg);
      PlanViewSame(view0);
      if msg.track.identifier in tracks0 {
        RefsOfTrack(tracks0, plans0, msg.track.identifier);
        TableRefsTrack(tracks0, plans0, msg.track.identifier, trackInformation[msg.track.identifier]);
      }
    }

    /** The plan table as values: the plan each code holds. */
    ghost function PlanView(): (v: map<Squawk, STARSFlightPlan>)
      reads this`flightPlans, flightPlans.Values
      ensures v.Keys == flightPlans.Keys
    {
      map c | c in flightPlans :: flightPlans[c].plan
    }

    /** The table holds the plans `view`, code for code. */
    lemma PlanViewSame(view: map<Squawk, STARSFlightPlan>)
      requires view.Keys == flightPlans.Keys
      requires forall c :: c in flightPlans ==> flightPlans[c].plan == view[c]
      ensures PlanView() == view
    {
      var v := PlanView();
      assert v.Keys == view.Keys;
      assert forall c :: c in v ==> v[c] == view[c];
    }

    /** The plan a Plan message leaves under its code: the one it carries,
        with its coordination fix resolved from the route when it has none. */
    function StoredPlan(msg: FlightPlanMessage): STARSFlightPlan
    {
      ToFlightPlan(msg).(coordinationFix := ResolvedFix(msg).0)
    }

    /** The plan table the Plan messages of `msgs` leave, handled in order
        from the table `v`: their codes join it. */
    function PlanEntries(v: map<Squawk, STARSFlightPlan>, msgs: seq<FlightPlanMessage>): (w: map<Squawk, STARSFlightPlan>)
      ensures w.Keys == v.Keys + PlanCodes(msgs)
    {
      if |msgs| == 0 then v
      else
        var w := PlanEntries(v, msgs[..|msgs| - 1]);
        var m := msgs[|msgs| - 1];
        if m.messageType == Plan then w[m.bcn := StoredPlan(m)] else w
    }

    /** The last Plan message for a code decides what the code holds. */
    lemma {:induction false} PlanEntriesLast(v: map<Squawk, STARSFlightPlan>, msgs: seq<FlightPlanMessage>, i: int)
      requires 0 <= i < |msgs| && msgs[i].messageType == Plan
      requires forall j :: i < j < |msgs| ==> msgs[j].messageType != Plan || msgs[j].bcn != msgs[i].bcn
      ensures msgs[i].bcn in PlanEntries(v, msgs) && PlanEntries(v, msgs)[msgs[i].bcn] == StoredPlan(msgs[i])
      decreases |msgs|
    {
      if i < |msgs| - 1 {
        PlanEntriesLast(v, msgs[..|msgs| - 1], i);
      }
    }

    /** A code no Plan message names keeps what it held. */
    lemma {:induction false} PlanEntriesOther(v: map<Squawk, STARSFlightPlan>, msgs: seq<FlightPlanMessage>, c: Squawk)
      requires c in v && c !in PlanCodes(msgs)
      ensures PlanEntries(v, msgs)[c] == v[c]
      decreases |msgs|
    {
      if |msgs| > 0 {
        PlanEntriesOther(v, msgs[..|msgs| - 1], c);
      }
    }

    /** Handling one more message extends the fold by it. */
    lemma PlanEntriesStep(v: map<Squawk, STARSFlightPlan>, msgs: seq<FlightPlanMessage>, i: int)
      requires 0 <= i < |msgs|
      ensures PlanEntries(v, msgs[..i + 1]) ==
                if msgs[i].messageType == Plan then PlanEntries(v, msgs[..i])[msgs[i].bcn := StoredPlan(msgs[i])]
                else PlanEntries(v, msgs[..i])
    {
      assert msgs[..i + 1][..i] == msgs[..i];
    }

    /** What lets a message panic, as far as the message and the
        adaptation decide: a Plan with a zero code, a RequestFlightPlan with
        a source id shorter than three characters; an InitiateTransfer only
        when there is a coordination fix, an AcceptRecallTransfer only for a
        known one (whether they do depends on the tracks). */
    predicate MayPanic(msg: FlightPlanMessage)
    {
      match msg.messageType
      case Plan => msg.bcn == 0
      case RequestFlightPlan => |msg.sourceID| < 3
      case InitiateTransfer => adaptation.coordinationFixes != map[]
      case AcceptRecallTransfer => msg.coordinationFix in adaptation.coordinationFixes
      case _ => false
    }

    /** One message of SortMessages; the DepartureDM and BeaconTerminate
        types are accepted and ignored. A Plan message replaces the entry of
        its code, a RequestFlightPlan drops the head of the queue, and no
        other message touches the plan table or the queue. */
    method HandleMessage(msg: FlightPlanMessage, simTime: int, ghost msgs0: map<Inbox, seq<FlightPlanMessage>>)
      returns (panicked: bool, ghost created: set<FlightPlanRef?>)
      requires Valid()
      requires msg.messageType == RequestFlightPlan ==> |receivedMessages.msgs| >= 1
      requires QueuesFrom(msgs0)
      modifies this`flightPlans, this`trackInformation, availableSquawks, receivedMessages, Outboxes()
      ensures QueuesFrom(msgs0)
      ensures old(availableSquawks.available) <= availableSquawks.available
      ensures panicked ==> MayPanic(msg)
      ensures msg.messageType == Plan || msg.messageType == RequestFlightPlan ==> (panicked <==> MayPanic(msg))
      ensures receivedMessages.msgs ==
                if msg.messageType == RequestFlightPlan && !panicked then old(receivedMessages.msgs)[1..]
                else old(receivedMessages.msgs)
      ensures PlanView() ==
                if msg.messageType == Plan && !panicked then old(PlanView())[msg.bcn := StoredPlan(msg)]
                else old(PlanView())
      ensures fresh(created) && (!panicked ==> Refs() <= old(Refs()) + created)
    {
      created := {};
      ghost var plans0 := flightPlans;
      match msg.messageType {
        case Plan =>
          panicked := HandlePlan(msg);
          if !panicked {
            created := {flightPlans[msg.bcn]};
            ValuesUpdate(plans0, msg.bcn, flightPlans[msg.bcn]);
          }
        case RequestFlightPlan =>
          panicked := HandleRequestFlightPlan(msg, simTime);
        case InitiateTransfer =>
          panicked := TransferMessage(msg, simTime);
        case AcceptRecallTransfer =>
          panicked := AcceptRecallMessage(msg);
        case _ =>
          panicked := false;
      }
      forall b | b in msgs0 ensures msgs0[b] <= b.msgs {
        PrefixTransitive(msgs0[b], old(b.msgs), b.msgs);
      }
    }

    /** Every queue this computer can send to holds at least what `msgs0`
        says it held. */
    ghost predicate QueuesFrom(msgs0: map<Inbox, seq<FlightPlanMessage>>)
      reads this`eramInboxes, msgs0.Keys
    {
      Outboxes() == msgs0.Keys && forall b :: b in msgs0 ==> msgs0[b] <= b.msgs
    }

    /** SortMessages: handles the messages queued when it starts, in
        order, then clears the queue, which keeps its length and zeroes every
        slot. `handled` messages were handled without a panic: the plan
        table is what their Plan messages leave, each code holding the plan
        of its last Plan message, and each of their RequestFlightPlans
        dropped the head of the queue. A completed pass handled them all and
        leaves the queue cleared; a panic ends the pass at the next message,
        with the queue not cleared. */
    method SortMessages(simTime: int) returns (outcome: SortOutcome, ghost handled: nat, ghost created: set<FlightPlanRef?>)
      requires Valid()
      modifies this`flightPlans, this`trackInformation, availableSquawks, receivedMessages, Outboxes()
      ensures Appended(Outboxes())
      ensures old(availableSquawks.available) <= availableSquawks.available
      ensures handled <= |old(receivedMessages.msgs)| && (outcome == Completed <==> handled == |old(receivedMessages.msgs)|)
      ensures PlanView() == PlanEntries(old(PlanView()), old(receivedMessages.msgs)[..handled])
      ensures 0 !in PlanCodes(old(receivedMessages.msgs)[..handled])
      ensures outcome == Panicked ==>
                && MayPanic(old(receivedMessages.msgs)[handled])
                && receivedMessages.msgs ==
                     old(receivedMessages.msgs)[CountType(old(receivedMessages.msgs)[..handled], RequestFlightPlan)..]
      ensures outcome == Completed ==>
                && |receivedMessages.msgs| == |old(receivedMessages.msgs)| - CountType(old(receivedMessages.msgs), RequestFlightPlan)
                && Cleared(receivedMessages.msgs)
      ensures old(flightPlans).Keys <= flightPlans.Keys
      ensures outcome == Completed ==> flightPlans.Keys == old(flightPlans).Keys + PlanCodes(old(receivedMessages.msgs))
      ensures outcome == Completed ==> Refs() <= old(Refs()) + created
      ensures Cleared(old(receivedMessages.msgs)) && |old(receivedMessages.msgs)| > 0 ==>
                outcome == Panicked && handled == 0 && receivedMessages.msgs == old(receivedMessages.msgs)
      ensures fresh(created)
    {
      var msgs := receivedMessages.msgs;
      ghost var msgs0: map<Inbox, seq<FlightPlanMessage>> := map b | b in Outboxes() :: b.msgs;
      ghost var view0, codes0, refs0 := PlanView(), availableSquawks.available, Refs();
      var panicked;
      panicked, handled, created := SortLoop(msgs, simTime, msgs0);
      assert flightPlans.Keys == PlanEntries(view0, msgs[..handled]).Keys;
      if !panicked {
        assert msgs[..handled] == msgs;
        ClearQueue(msgs, view0, codes0, msgs0, refs0 + created);
        outcome := Completed;
      } else {
        outcome := Panicked;
      }
      if Cleared(msgs) {
        ClearedQueuePanics(msgs);
        assert msgs[..0] == [];
      }
      forall b | b in Outboxes() ensures old(b.msgs) <= b.msgs {
        assert msgs0[b] == old(b.msgs);
      }
    }

    /** The end of a completed pass: the queue is cleared in place, which
        keeps its length. */
    method ClearQueue(msgs: seq<FlightPlanMessage>, ghost view0: map<Squawk, STARSFlightPlan>, ghost codes0: set<Squawk>,
                      ghost msgs0: map<Inbox, seq<FlightPlanMessage>>, ghost refs: set<FlightPlanRef?>)
      requires Valid() && SortLoopInv(msgs, |msgs|, false, view0, codes0, msgs0, refs)
      modifies receivedMessages
      ensures SortLoopPlans(msgs, |msgs|, view0, codes0, msgs0) && (Refs() <= refs)
      ensures |receivedMessages.msgs| == |msgs| - CountType(msgs, RequestFlightPlan) && Cleared(receivedMessages.msgs)
    {
      assert msgs[..|msgs|] == msgs;
      receivedMessages.msgs := Zeros(|receivedMessages.msgs|);
    }

    /** The loop of SortMessages over the snapshot `msgs` of its queue. */
    method SortLoop(msgs: seq<FlightPlanMessage>, simTime: int, ghost msgs0: map<Inbox, seq<FlightPlanMessage>>)
      returns (panicked: bool, ghost handled: nat, ghost created: set<FlightPlanRef?>)
      requires Valid()
      requires receivedMessages.msgs == msgs && QueuesFrom(msgs0)
      modifies this`flightPlans, this`trackInformation, availableSquawks, receivedMessages, Outboxes()
      ensures handled <= |msgs| && (panicked <==> handled < |msgs|)
      ensures SortLoopInv(msgs, handled, panicked, old(PlanView()), old(availableSquawks.available), msgs0,
                          old(Refs()) + created)
      ensures fresh(created)
    {
      ghost var view0 := PlanView();
      ghost var codes0 := availableSquawks.available;
      ghost var refs0 := Refs();
      ghost var bound := refs0;
      assert msgs[..0] == [];
      created := {};
      var i := 0;
      while i < |msgs|
        invariant SortLoopInv(msgs, i, false, view0, codes0, msgs0, bound)
        invariant fresh(created) && bound == refs0 + created
      {
        ghost var more;
        panicked, bound, more := SortStep(msgs, i, simTime, view0, codes0, msgs0, bound);
        created := created + more;
        if panicked {
          handled := i;
          return;
        }
        i := i + 1;
      }
      panicked, handled := false, i;
    }

    /** The part of the invariant of SortMessages about the plan table, the
        other queues and the pool, after the first `i` messages of the snapshot
        `msgs`, against the table `view0`, the free codes `codes0` and the
        queues `msgs0` it started from. */
    ghost predicate SortLoopPlans(msgs: seq<FlightPlanMessage>, i: int, view0: map<Squawk, STARSFlightPlan>,
                                  codes0: set<Squawk>, msgs0: map<Inbox, seq<FlightPlanMessage>>)
      reads this`flightPlans, flightPlans.Values, this`eramInboxes, availableSquawks, msgs0.Keys
    {
      && 0 <= i <= |msgs|
      && QueuesFrom(msgs0)
      && codes0 <= availableSquawks.available
      && PlanView() == PlanEntries(view0, msgs[..i])
      && 0 !in PlanCodes(msgs[..i])
    }

    /** What SortMessages keeps after handling the first `i` messages
        without a panic: SortLoopPlans, the queue without the heads their
        RequestFlightPlans dropped, and a bound `refs` on the plans the
        tables point to unless the next message panicked. */
    ghost predicate SortLoopInv(msgs: seq<FlightPlanMessage>, i: int, panicked: bool, view0: map<Squawk, STARSFlightPlan>,
                                codes0: set<Squawk>, msgs0: map<Inbox, seq<FlightPlanMessage>>,
                                refs: set<FlightPlanRef?>)
      reads this`flightPlans, flightPlans.Values, this`trackInformation, this`eramInboxes, receivedMessages,
            availableSquawks, msgs0.Keys
    {
      && SortLoopPlans(msgs, i, view0, codes0, msgs0)
      && receivedMessages.msgs == msgs[CountType(msgs[..i], RequestFlightPlan)..]
      && (panicked ==> i < |msgs| && MayPanic(msgs[i]))
      && (!panicked ==> Refs() <= refs)
    }

    /** One message of that pass: handled without a panic, the first `i + 1`
        messages are; after a panic, the first `i` still are. `refs1` bounds
        the plans the tables point to, and the plans it adds to `refs` are
        new. */
    method SortStep(msgs: seq<FlightPlanMessage>, i: int, simTime: int, ghost view0: map<Squawk, STARSFlightPlan>,
                    ghost codes0: set<Squawk>, ghost msgs0: map<Inbox, seq<FlightPlanMessage>>,
                    ghost refs: set<FlightPlanRef?>)
      returns (panicked: bool, ghost refs1: set<FlightPlanRef?>, ghost created: set<FlightPlanRef?>)
      requires Valid()
      requires i < |msgs|
      requires SortLoopInv(msgs, i, false, view0, codes0, msgs0, refs)
      modifies this`flightPlans, this`trackInformation, availableSquawks, receivedMessages, Outboxes()
      ensures SortLoopInv(msgs, if panicked then i else i + 1, panicked, view0, codes0, msgs0, refs1)
      ensures fresh(created) && refs1 == refs + created
    {
      ghost var k := CountType(msgs[..i], RequestFlightPlan);
      panicked, created := HandleMessage(msgs[i], simTime, msgs0);
      refs1 := refs + created;
      if !panicked {
        assert msgs[..i + 1][..i] == msgs[..i];
        PlanEntriesStep(view0, msgs, i);
        if msgs[i].messageType == RequestFlightPlan {
          assert msgs[k..][1..] == msgs[k + 1..];
        }
      }
    }

    // ---------------------------------------------------------------------
    // SendFlightPlans

    /** The adaptation fix of a plan's coordination fix at its altitude, or
        why there is none. */
    function FixOf(p: STARSFlightPlan): Result<AdaptationFix>
    {
      if p.coordinationFix in adaptation.coordinationFixes
      then adaptation.coordinationFixes[p.coordinationFix].fix(p.altitude)
      else Err(ErrNoMatchingFix)
    }

    /** Nothing is left to send for the plan at this time: its coordination
        time is more than TransmitFPMessageTime away, it has no adaptation
        fix, or the facility its fix leads to already holds it. */
    predicate Settled(r: FlightPlanRef, simTime: int)
      reads r
    {
      SettledPlan(r.plan, simTime)
    }

    predicate SettledPlan(p: STARSFlightPlan, simTime: int)
    {
      || simTime + TransmitFPMessageTime < p.coordinationTime.time
      || FixOf(p).Err?
      || FixOf(p).value.toFacility in p.containedFacilities
    }

    /** A plan once SendFlightPlan has sent it: the facility its fix leads
        to is recorded as holding it, and nothing else changes. */
    function SentPlan(p: STARSFlightPlan): (q: STARSFlightPlan)
      requires FixOf(p).Ok?
      ensures GrewFrom(p, q) && FixOf(q) == FixOf(p)
      ensures forall t :: SettledPlan(q, t)
    {
      p.(containedFacilities := p.containedFacilities + [FixOf(p).value.toFacility])
    }

    /** The Plan message SendFlightPlan sends for a plan, stamped by this centre. */
    function PlanMessage(p: STARSFlightPlan, simTime: int): FlightPlanMessage
    {
      Message(p, db.typeWithoutSuffix).(messageType := Plan, sourceID := FormatSourceID(identifier, simTime))
    }

    /** The queue SendFlightPlan uses: the TRACON's STARS computer, or
        else the ERAM computer of the TRACON's centre. */
    function PlanBox(tracon: string): (b: Inbox?)
      reads this`eramInboxes
      ensures b != null ==> b in Outboxes()
    {
      if tracon in starsComputers then StarsBox(tracon) else EramBox(ARTCCOf(db, tracon))
    }

    /** SendFlightPlan: sends the plan as a Plan message stamped by this
        centre and records the facility its fix leads to as holding it. */
    method SendFlightPlan(fp: FlightPlanRef, tracon: string, simTime: int) returns (err: Option<Error>)
      modifies fp, Outboxes()
      ensures var p := old(fp.plan);
        && (FixOf(p).Err? ==> err == Some(FixOf(p).error) && fp.plan == p && NoneSent(Outboxes()))
        && (FixOf(p).Ok? ==>
              && err == None
              && fp.plan == SentPlan(p)
              && OnlySent(Outboxes(), PlanBox(tracon), PlanMessage(p, simTime)))
    {
      var msg := Message(fp.plan, db.typeWithoutSuffix);
      msg := msg.(messageType := Plan, sourceID := FormatSourceID(identifier, simTime));
      if fp.plan.coordinationFix !in adaptation.coordinationFixes {
        return Some(ErrNoMatchingFix);
      }
      var adaptFix := adaptation.coordinationFixes[fp.plan.coordinationFix].fix(fp.plan.altitude);
      if adaptFix.Err? {
        return Some(adaptFix.error);
      }
      var e := ToSTARSFacility(tracon, msg);
      if e.Some? {
        var _ := SendMessageToERAM(ARTCCOf(db, tracon), msg);
      }
      fp.plan := fp.plan.(containedFacilities := fp.plan.containedFacilities + [adaptFix.value.toFacility]);
      return None;
    }

    /** sendPlanIfReady: a plan that is not yet settled is sent, and then
        is; a settled one is left alone. */
    method SendPlanIfReady(fp: FlightPlanRef, tracon: string, simTime: int)
      modifies fp, Outboxes()
      ensures Settled(fp, simTime)
      ensures old(Settled(fp, simTime)) ==> fp.plan == old(fp.plan) && NoneSent(Outboxes())
      ensures !old(Settled(fp, simTime)) ==>
                && fp.plan == SentPlan(old(fp.plan))
                && OnlySent(Outboxes(), PlanBox(tracon), PlanMessage(old(fp.plan), simTime))
    {
      if simTime + TransmitFPMessageTime < fp.plan.coordinationTime.time {
        return;
      }
      if fp.plan.coordinationFix !in adaptation.coordinationFixes {
        return;
      }
      var adaptFix := adaptation.coordinationFixes[fp.plan.coordinationFix].fix(fp.plan.altitude);
      if adaptFix.Err? {
        return;
      }
      if adaptFix.value.toFacility !in fp.plan.containedFacilities {
        var _ := SendFlightPlan(fp, tracon, simTime);
      }
    }

    /** The Plan messages of the plans `sent`, in that order, read from `plans0`. */
    function Sends(sent: seq<FlightPlanRef>, plans0: map<FlightPlanRef, STARSFlightPlan>, simTime: int): (q: seq<FlightPlanMessage>)
      requires forall r :: r in sent ==> r in plans0
      ensures |q| == |sent|
      ensures forall i :: 0 <= i < |sent| ==> q[i] == PlanMessage(plans0[sent[i]], simTime)
    {
      if |sent| == 0 then []
      else Sends(sent[..|sent| - 1], plans0, simTime) + [PlanMessage(plans0[sent[|sent| - 1]], simTime)]
    }

    /** Sending one more plan adds its Plan message at the end of the queue. */
    lemma SendsAppend(q0: seq<FlightPlanMessage>, sent: seq<FlightPlanRef>, fp: FlightPlanRef,
                      plans0: map<FlightPlanRef, STARSFlightPlan>, simTime: int)
      requires forall r :: r in sent ==> r in plans0
      requires fp in plans0
      ensures q0 + Sends(sent, plans0, simTime) + [PlanMessage(plans0[fp], simTime)] == q0 + Sends(sent + [fp], plans0, simTime)
    {
      assert (sent + [fp])[..|sent|] == sent;
    }

    /** What the two loops of SendFlightPlans keep, against the plans
        `plans0` and the queues `msgs0` they started from: the plans of
        `sent`, each listed once, were not settled then and now have their
        fix's facility recorded; PlanBox(tracon) received their Plan
        messages, in that order, and nothing else; no other plan changed,
        and no other queue received anything. */
    ghost predicate SentInv(tracon: string, simTime: int, plans0: map<FlightPlanRef, STARSFlightPlan>,
                            msgs0: map<Inbox, seq<FlightPlanMessage>>, sent: seq<FlightPlanRef>)
      reads this`eramInboxes, plans0.Keys, msgs0.Keys
    {
      && Outboxes() == msgs0.Keys
      && (forall i, j :: 0 <= i < j < |sent| ==> sent[i] != sent[j])
      && (forall r :: r in sent ==> r in plans0 && !SettledPlan(plans0[r], simTime) && r.plan == SentPlan(plans0[r]))
      && (forall r :: r in plans0 && r !in sent ==> r.plan == plans0[r])
      && (forall b :: b in msgs0 && b != PlanBox(tracon) ==> b.msgs == msgs0[b])
      && (PlanBox(tracon) != null ==> PlanBox(tracon).msgs == msgs0[PlanBox(tracon)] + Sends(sent, plans0, simTime))
    }

    /** A plan of `plans0` is settled once sent, or when it was settled
        already; its callsign and altitude never change. */
    lemma SentInvPlan(tracon: string, simTime: int, plans0: map<FlightPlanRef, STARSFlightPlan>,
                      msgs0: map<Inbox, seq<FlightPlanMessage>>, sent: seq<FlightPlanRef>, r: FlightPlanRef)
      requires SentInv(tracon, simTime, plans0, msgs0, sent) && r in plans0
      ensures Settled(r, simTime) <==> r in sent || SettledPlan(plans0[r], simTime)
      ensures GrewFrom(plans0[r], r.plan) && (BlankPlan(r.plan) <==> BlankPlan(plans0[r]))
    {
    }

    /** Sends `fp` if it is ready, keeping SentInv: `fp` joins `sent`
        exactly when it was neither sent already nor settled. */
    method SendVisit(fp: FlightPlanRef, tracon: string, simTime: int,
                     ghost plans0: map<FlightPlanRef, STARSFlightPlan>, ghost msgs0: map<Inbox, seq<FlightPlanMessage>>,
                     ghost sent: seq<FlightPlanRef>)
      returns (ghost sent1: seq<FlightPlanRef>)
      requires fp in plans0 && SentInv(tracon, simTime, plans0, msgs0, sent)
      modifies fp, Outboxes()
      ensures sent1 == if fp in sent || SettledPlan(plans0[fp], simTime) then sent else sent + [fp]
      ensures SentInv(tracon, simTime, plans0, msgs0, sent1)
    {
      SentInvPlan(tracon, simTime, plans0, msgs0, sent, fp);
      // SendPlanIfReady makes the same test; splitting on it here keeps
      // each case's proof apart.
      if Settled(fp, simTime) {
        SendSettled(fp, tracon, simTime, plans0, msgs0, sent);
        sent1 := sent;
      } else {
        sent1 := SendReady(fp, tracon, simTime, plans0, msgs0, sent);
      }
    }

    /** A settled plan: SendPlanIfReady changes nothing. */
    method SendSettled(fp: FlightPlanRef, tracon: string, simTime: int,
                       ghost plans0: map<FlightPlanRef, STARSFlightPlan>, ghost msgs0: map<Inbox, seq<FlightPlanMessage>>,
                       ghost sent: seq<FlightPlanRef>)
      requires fp in plans0 && Settled(fp, simTime) && SentInv(tracon, simTime, plans0, msgs0, sent)
      modifies fp, Outboxes()
      ensures SentInv(tracon, simTime, plans0, msgs0, sent)
    {
      SendPlanIfReady(fp, tracon, simTime);
      assert forall b :: b in msgs0 ==> b.msgs == old(b.msgs);
    }

    /** A plan not yet sent nor settled: SendPlanIfReady sends it, and it
        joins `sent`. */
    method SendReady(fp: FlightPlanRef, tracon: string, simTime: int,
                     ghost plans0: map<FlightPlanRef, STARSFlightPlan>, ghost msgs0: map<Inbox, seq<FlightPlanMessage>>,
                     ghost sent: seq<FlightPlanRef>)
      returns (ghost sent1: seq<FlightPlanRef>)
      requires fp in plans0 && fp !in sent && !SettledPlan(plans0[fp], simTime)
      requires SentInv(tracon, simTime, plans0, msgs0, sent)
      modifies fp, Outboxes()
      ensures sent1 == sent + [fp]
      ensures SentInv(tracon, simTime, plans0, msgs0, sent1)
    {
      ghost var box := PlanBox(tracon);
      ghost var q := if box != null then box.msgs else [];
      SendPlanIfReady(fp, tracon, simTime);
      sent1 := sent + [fp];
      assert forall i, j :: 0 <= i < j < |sent1| ==> sent1[i] != sent1[j];
      assert forall r :: r in sent1 <==> r in sent || r == fp;
      assert fp.plan == SentPlan(plans0[fp]);
      if box != null {
        assert box.msgs == q + [PlanMessage(plans0[fp], simTime)];
        SendsAppend(msgs0[box], sent, fp, plans0, simTime);
      }
    }

    /** The plans of `refs`, as they are now. */
    ghost function PlansOf(refs: set<FlightPlanRef?>): (m: map<FlightPlanRef, STARSFlightPlan>)
      reads refs
    {
      map r: FlightPlanRef | r in refs :: r.plan
    }

    /** The contents of the queues `boxes`, as they are now. */
    ghost function QueuesOf(boxes: set<Inbox>): map<Inbox, seq<FlightPlanMessage>>
      reads boxes
    {
      map b | b in boxes :: b.msgs
    }

    /** SendFlightPlans: deletes the blank track entries (by the identifier
        the entry holds, not by its key) and sends every plan of the other
        tracks and of the plan table that is not yet settled. `sent` are
        the plans sent: SentInv says, against the plans and the queues
        before, that each went out once, as a Plan message to
        PlanBox(tracon), and now has its fix's facility recorded, and that
        nothing else changed. */
    method SendFlightPlans(tracon: string, simTime: int) returns (ghost sent: seq<FlightPlanRef>)
      modifies this`trackInformation, TrackRefs(trackInformation), flightPlans.Values, Outboxes()
      ensures trackInformation.Keys <= old(trackInformation).Keys
      ensures forall k :: k in trackInformation ==> trackInformation[k] == old(trackInformation)[k]
      ensures old(trackInformation).Keys - old(BlankIdentifiers(trackInformation)) <= trackInformation.Keys
      ensures forall k :: k in old(trackInformation) && old(BlankTrack(trackInformation[k])) &&
                          old(trackInformation[k]).identifier == k
                          ==> k !in trackInformation
      ensures SentInv(tracon, simTime, old(PlansOf(TrackRefs(trackInformation) + flightPlans.Values)),
                      old(QueuesOf(Outboxes())), sent)
      ensures forall k :: k in trackInformation && trackInformation[k].flightPlan != null &&
                          !old(BlankTrack(trackInformation[k]))
                          ==> Settled(trackInformation[k].flightPlan, simTime) &&
                              (trackInformation[k].flightPlan in sent || old(Settled(trackInformation[k].flightPlan, simTime)))
      ensures forall sq :: sq in flightPlans ==>
                Settled(flightPlans[sq], simTime) && (flightPlans[sq] in sent || old(Settled(flightPlans[sq], simTime)))
    {
      ghost var plans0 := PlansOf(TrackRefs(trackInformation) + flightPlans.Values);
      ghost var msgs0 := QueuesOf(Outboxes());
      ghost var tracks0 := trackInformation;
      ghost var table := flightPlans;
      assert BlankIdentifiers(tracks0) == BlankIds(tracks0, plans0);
      assert forall k :: k in tracks0 && tracks0[k].flightPlan != null ==>
               tracks0[k].flightPlan in plans0 && plans0[tracks0[k].flightPlan] == tracks0[k].flightPlan.plan;
      assert forall sq :: sq in table ==> table[sq] in plans0 && plans0[table[sq]] == table[sq].plan;
      sent := SendTrackPlans(tracon, simTime, plans0, msgs0, []);
      sent := SendTablePlans(tracon, simTime, plans0, msgs0, sent);
      forall k | k in trackInformation && trackInformation[k].flightPlan != null &&
                 !old(BlankTrack(trackInformation[k]))
        ensures Settled(trackInformation[k].flightPlan, simTime)
      {
        SentInvPlan(tracon, simTime, plans0, msgs0, sent, trackInformation[k].flightPlan);
      }
      forall sq | sq in flightPlans ensures Settled(flightPlans[sq], simTime) {
        SentInvPlan(tracon, simTime, plans0, msgs0, sent, flightPlans[sq]);
      }
    }

    /** The identifiers the blank entries of `tracks` hold, the plans read
        from `plans0`. */
    static ghost function BlankIds(tracks: map<string, TrackInformation>, plans0: map<FlightPlanRef, STARSFlightPlan>): set<string>
    {
      set k | k in tracks && tracks[k].flightPlan != null && tracks[k].flightPlan in plans0 &&
              BlankPlan(plans0[tracks[k].flightPlan]) :: tracks[k].identifier
    }

    /** The first loop of SendFlightPlans, over the track entries, from the
        plans `sent` already: every entry that survives and is not blank
        has its plan sent or settled. */
    method SendTrackPlans(tracon: string, simTime: int, ghost plans0: map<FlightPlanRef, STARSFlightPlan>,
                          ghost msgs0: map<Inbox, seq<FlightPlanMessage>>, ghost sent: seq<FlightPlanRef>)
      returns (ghost sent1: seq<FlightPlanRef>)
      requires forall k :: k in trackInformation && trackInformation[k].flightPlan != null ==>
                 trackInformation[k].flightPlan in plans0
      requires SentInv(tracon, simTime, plans0, msgs0, sent)
      modifies this`trackInformation, plans0.Keys, msgs0.Keys
      ensures SentInv(tracon, simTime, plans0, msgs0, sent1) && sent <= sent1
      ensures old(trackInformation).Keys - BlankIds(old(trackInformation), plans0) <= trackInformation.Keys
      ensures trackInformation.Keys <= old(trackInformation).Keys
      ensures forall k :: k in trackInformation ==> trackInformation[k] == old(trackInformation)[k]
      ensures forall k :: k in old(trackInformation) && old(trackInformation)[k].flightPlan != null &&
                          BlankPlan(plans0[old(trackInformation)[k].flightPlan]) &&
                          old(trackInformation)[k].identifier == k
                          ==> k !in trackInformation
      ensures forall k :: k in trackInformation && trackInformation[k].flightPlan != null &&
                          !BlankPlan(plans0[trackInformation[k].flightPlan])
                          ==> trackInformation[k].flightPlan in sent1 ||
                              SettledPlan(plans0[trackInformation[k].flightPlan], simTime)
    {
      ghost var tracks0 := trackInformation;
      ghost var blanks := BlankIds(trackInformation, plans0);
      ghost var done: set<FlightPlanRef> := {};
      sent1 := sent;
      var remaining := trackInformation.Keys;
      while remaining != {}
        invariant TrackLoopKeys(trackInformation, tracks0, blanks, plans0, remaining, done)
        invariant TrackLoopPlans(tracon, simTime, plans0, msgs0, sent, sent1, done)
        decreases remaining
      {
        remaining, done, sent1 := TrackLoopStep(tracon, simTime, remaining, done, tracks0, blanks, plans0, msgs0, sent, sent1);
      }
    }

    /** The part of the first loop's invariant about the track table
        `tracks`, against the table `tracks0` it started from, the
        identifiers `blanks` of its blank entries and the plans `plans0`:
        the keys still to visit, the plans `done` of the entries visited. */
    static ghost predicate TrackLoopKeys(tracks: map<string, TrackInformation>, tracks0: map<string, TrackInformation>,
                                         blanks: set<string>, plans0: map<FlightPlanRef, STARSFlightPlan>,
                                         remaining: set<string>, done: set<FlightPlanRef>)
    {
      && (forall k :: k in tracks0 && tracks0[k].flightPlan != null ==> tracks0[k].flightPlan in plans0)
      && (forall k :: k in tracks0 && tracks0[k].flightPlan != null && BlankPlan(plans0[tracks0[k].flightPlan])
                      ==> tracks0[k].identifier in blanks)
      && remaining <= tracks.Keys <= tracks0.Keys
      && tracks0.Keys - blanks <= tracks.Keys
      && (forall k :: k in tracks ==> tracks[k] == tracks0[k])
      && (forall k :: k in tracks && k !in remaining && tracks[k].flightPlan != null &&
                      !BlankPlan(plans0[tracks[k].flightPlan])
                      ==> tracks[k].flightPlan in done)
      && (forall k :: k in tracks0 && k !in remaining && tracks0[k].flightPlan != null &&
                      BlankPlan(plans0[tracks0[k].flightPlan]) && tracks0[k].identifier == k
                      ==> k !in tracks)
    }

    /** Visiting key `k` keeps the part of the invariant about the track
        table: a blank entry goes, with the key it names, and the plan of
        any other entry is done. */
    static lemma TrackLoopKeysStep(tracks: map<string, TrackInformation>, tracks1: map<string, TrackInformation>,
                                   tracks0: map<string, TrackInformation>, blanks: set<string>,
                                   plans0: map<FlightPlanRef, STARSFlightPlan>, remaining: set<string>,
                                   done: set<FlightPlanRef>, k: string, deleted: Option<string>,
                                   rest: set<string>, done1: set<FlightPlanRef>)
      requires TrackLoopKeys(tracks, tracks0, blanks, plans0, remaining, done) && k in remaining
      requires var info := tracks[k];
        && (info.flightPlan != null && BlankPlan(plans0[info.flightPlan]) ==>
              deleted == Some(info.identifier) && tracks1 == tracks - {info.identifier})
        && (info.flightPlan == null || !BlankPlan(plans0[info.flightPlan]) ==>
              deleted == None && tracks1 == tracks)
      requires rest == if deleted.Some? then remaining - {k} - {deleted.value} else remaining - {k}
      requires done1 == if deleted.None? && tracks[k].flightPlan != null then done + {tracks[k].flightPlan} else done
      ensures TrackLoopKeys(tracks1, tracks0, blanks, plans0, rest, done1)
    {
    }

    /** The part of the first loop's invariant about the plans and the
        queues: SentInv holds, and the plans `done` are sent or settled. */
    ghost predicate TrackLoopPlans(tracon: string, simTime: int, plans0: map<FlightPlanRef, STARSFlightPlan>,
                                   msgs0: map<Inbox, seq<FlightPlanMessage>>, sent: seq<FlightPlanRef>,
                                   sent1: seq<FlightPlanRef>, done: set<FlightPlanRef>)
      reads this`eramInboxes, plans0.Keys, msgs0.Keys
    {
      && SentInv(tracon, simTime, plans0, msgs0, sent1) && sent <= sent1
      && done <= plans0.Keys
      && (forall r :: r in done ==> r in sent1 || SettledPlan(plans0[r], simTime))
    }

    /** One turn of that loop: some key still to visit is visited. */
    method TrackLoopStep(tracon: string, simTime: int, remaining: set<string>, ghost done: set<FlightPlanRef>,
                         ghost tracks0: map<string, TrackInformation>, ghost blanks: set<string>,
                         ghost plans0: map<FlightPlanRef, STARSFlightPlan>,
                         ghost msgs0: map<Inbox, seq<FlightPlanMessage>>, ghost sent: seq<FlightPlanRef>,
                         ghost sent1: seq<FlightPlanRef>)
      returns (rest: set<string>, ghost done1: set<FlightPlanRef>, ghost sent2: seq<FlightPlanRef>)
      requires remaining != {}
      requires TrackLoopKeys(trackInformation, tracks0, blanks, plans0, remaining, done)
      requires TrackLoopPlans(tracon, simTime, plans0, msgs0, sent, sent1, done)
      modifies this`trackInformation, plans0.Keys, msgs0.Keys
      ensures TrackLoopKeys(trackInformation, tracks0, blanks, plans0, rest, done1)
      ensures TrackLoopPlans(tracon, simTime, plans0, msgs0, sent, sent2, done1)
      ensures rest < remaining
    {
      ghost var some := Member(remaining);
      var k :| k in remaining;
      ghost var tracks := trackInformation;
      var deleted;
      deleted, sent2, done1 := VisitTrackPlans(k, tracon, simTime, plans0, msgs0, sent, sent1, done);
      rest := remaining - {k};
      if deleted.Some? {
        rest := rest - {deleted.value};
      }
      TrackLoopKeysStep(tracks, trackInformation, tracks0, blanks, plans0, remaining, done, k, deleted, rest, done1);
    }

    /** Visiting key `k` keeps the part of the first loop's invariant about
        the plans and the queues: the plan of an entry not deleted is done. */
    method VisitTrackPlans(k: string, tracon: string, simTime: int, ghost plans0: map<FlightPlanRef, STARSFlightPlan>,
                           ghost msgs0: map<Inbox, seq<FlightPlanMessage>>, ghost sent: seq<FlightPlanRef>,
                           ghost sent1: seq<FlightPlanRef>, ghost done: set<FlightPlanRef>)
      returns (deleted: Option<string>, ghost sent2: seq<FlightPlanRef>, ghost done1: set<FlightPlanRef>)
      requires k in trackInformation
      requires trackInformation[k].flightPlan != null ==> trackInformation[k].flightPlan in plans0
      requires TrackLoopPlans(tracon, simTime, plans0, msgs0, sent, sent1, done)
      modifies this`trackInformation, plans0.Keys, msgs0.Keys
      ensures var info := old(trackInformation[k]);
        && (info.flightPlan != null && BlankPlan(plans0[info.flightPlan]) ==>
              deleted == Some(info.identifier) && trackInformation == old(trackInformation) - {info.identifier})
        && (info.flightPlan == null || !BlankPlan(plans0[info.flightPlan]) ==>
              deleted == None && trackInformation == old(trackInformation))
      ensures done1 == if deleted.None? && old(trackInformation[k]).flightPlan != null
                       then done + {old(trackInformation[k]).flightPlan} else done
      ensures TrackLoopPlans(tracon, simTime, plans0, msgs0, sent, sent2, done1)
    {
      var fp := trackInformation[k].flightPlan;
      if fp != null {
        SentInvPlan(tracon, simTime, plans0, msgs0, sent1, fp);
      }
      deleted, sent2 := VisitTrack(k, tracon, simTime, plans0, msgs0, sent1);
      done1 := done;
      if deleted.None? && fp != null {
        done1 := done + {fp};
      }
    }

    /** One entry of that loop: a blank entry is deleted by the identifier
        it holds, the plan of any other entry is sent if it is ready. */
    method VisitTrack(k: string, tracon: string, simTime: int, ghost plans0: map<FlightPlanRef, STARSFlightPlan>,
                      ghost msgs0: map<Inbox, seq<FlightPlanMessage>>, ghost sent: seq<FlightPlanRef>)
      returns (deleted: Option<string>, ghost sent1: seq<FlightPlanRef>)
      requires k in trackInformation
      requires var fp := trackInformation[k].flightPlan;
        fp != null ==> fp in plans0 && (BlankPlan(fp.plan) <==> BlankPlan(plans0[fp]))
      requires SentInv(tracon, simTime, plans0, msgs0, sent)
      modifies this`trackInformation, Outboxes()
      modifies if trackInformation[k].flightPlan != null then {trackInformation[k].flightPlan} else {}
      ensures var info := old(trackInformation[k]);
        && (info.flightPlan != null && BlankPlan(plans0[info.flightPlan]) ==>
              deleted == Some(info.identifier) && trackInformation == old(trackInformation) - {info.identifier}
              && sent1 == sent)
        && (info.flightPlan == null ==> deleted == None && trackInformation == old(trackInformation) && sent1 == sent)
        && (info.flightPlan != null && !BlankPlan(plans0[info.flightPlan]) ==>
              && deleted == None && trackInformation == old(trackInformation)
              && sent1 == if info.flightPlan in sent || SettledPlan(plans0[info.flightPlan], simTime)
                          then sent else sent + [info.flightPlan])
      ensures SentInv(tracon, simTime, plans0, msgs0, sent1)
    {
      var info := trackInformation[k];
      var fp := info.flightPlan;
      deleted, sent1 := None, sent;
      if fp != null {
        if fp.plan.base.callsign == "" && fp.plan.altitude == "" {
          trackInformation := trackInformation - {info.identifier};
          deleted := Some(info.identifier);
        } else {
          sent1 := SendVisit(fp, tracon, simTime, plans0, msgs0, sent);
        }
      }
    }

    /** The second loop of SendFlightPlans, over the plan table, from the
        plans `sent` already: every plan of the table ends sent or settled. */
    method SendTablePlans(tracon: string, simTime: int, ghost plans0: map<FlightPlanRef, STARSFlightPlan>,
                          ghost msgs0: map<Inbox, seq<FlightPlanMessage>>, ghost sent: seq<FlightPlanRef>)
      returns (ghost sent1: seq<FlightPlanRef>)
      requires flightPlans.Values <= plans0.Keys
      requires SentInv(tracon, simTime, plans0, msgs0, sent)
      modifies plans0.Keys, msgs0.Keys
      ensures SentInv(tracon, simTime, plans0, msgs0, sent1) && sent <= sent1
      ensures forall sq :: sq in flightPlans ==>
                flightPlans[sq] in sent1 || SettledPlan(plans0[flightPlans[sq]], simTime)
    {
      sent1 := sent;
      var plans := flightPlans.Keys;
      while plans != {}
        invariant TableLoopInv(tracon, simTime, plans0, msgs0, sent, sent1, plans)
        decreases plans
      {
        plans, sent1 := TableLoopStep(tracon, simTime, plans, plans0, msgs0, sent, sent1);
      }
    }

    /** What the second loop of SendFlightPlans keeps: SentInv holds, and
        every plan of the table not still to visit is sent or settled. */
    ghost predicate TableLoopInv(tracon: string, simTime: int, plans0: map<FlightPlanRef, STARSFlightPlan>,
                                 msgs0: map<Inbox, seq<FlightPlanMessage>>, sent: seq<FlightPlanRef>,
                                 sent1: seq<FlightPlanRef>, plans: set<Squawk>)
      reads this`flightPlans, this`eramInboxes, plans0.Keys, msgs0.Keys
    {
      && flightPlans.Values <= plans0.Keys
      && plans <= flightPlans.Keys
      && SentInv(tracon, simTime, plans0, msgs0, sent1) && sent <= sent1
      && (forall sq :: sq in flightPlans && sq !in plans ==>
            flightPlans[sq] in sent1 || SettledPlan(plans0[flightPlans[sq]], simTime))
    }

    /** One turn of that loop: some code still to visit is visited. */
    method TableLoopStep(tracon: string, simTime: int, plans: set<Squawk>,
                         ghost plans0: map<FlightPlanRef, STARSFlightPlan>,
                         ghost msgs0: map<Inbox, seq<FlightPlanMessage>>, ghost sent: seq<FlightPlanRef>,
                         ghost sent1: seq<FlightPlanRef>)
      returns (rest: set<Squawk>, ghost sent2: seq<FlightPlanRef>)
      requires plans != {}
      requires TableLoopInv(tracon, simTime, plans0, msgs0, sent, sent1, plans)
      modifies plans0.Keys, msgs0.Keys
      ensures TableLoopInv(tracon, simTime, plans0, msgs0, sent, sent2, rest)
      ensures rest < plans
    {
      ghost var some := Member(plans);
      var sq :| sq in plans;
      var fp := flightPlans[sq];
      sent2 := SendVisit(fp, tracon, simTime, plans0, msgs0, sent1);
      rest := plans - {sq};
    }

    /** CompletelyDeleteAircraft: drops every track of the aircraft here
        and in every STARS computer under this centre. */
    method CompletelyDeleteAircraft(ac: Aircraft)
      modifies this`trackInformation, starsComputers.Values`trackInformation
      ensures trackInformation == Without(old(trackInformation), old(AircraftKeys(trackInformation, ac)))
      ensures forall sc :: sc in starsComputers.Values ==>
                sc.trackInformation == Without(old(sc.trackInformation), old(AircraftKeys(sc.trackInformation, ac)))
    {
      trackInformation := WithoutAircraft(trackInformation, ac);
      ghost var kept := trackInformation;
      var remaining := starsComputers.Values;
      while remaining != {}
        invariant remaining <= starsComputers.Values
        invariant trackInformation == kept
        invariant forall sc :: sc in remaining ==> sc.trackInformation == old(sc.trackInformation)
        invariant forall sc :: sc in starsComputers.Values && sc !in remaining ==>
                    sc.trackInformation == Without(old(sc.trackInformation), old(AircraftKeys(sc.trackInformation, ac)))
        decreases remaining
      {
        ghost var some := Member(remaining);
        var sc :| sc in remaining;
        assert AircraftKeys(sc.trackInformation, ac) == old(AircraftKeys(sc.trackInformation, ac));
        sc.CompletelyDeleteAircraft(ac);
        remaining := remaining - {sc};
      }
    }
  }
}
