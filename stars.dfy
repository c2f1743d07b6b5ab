/** The STARS computer of one TRACON (pkg/sim/nas.go:323-526): the flight
    plans it holds by beacon code, the tracks it knows by callsign, and the
    handling of the messages queued for it. */
module Stars {
  import opened Common
  import opened Squawks
  import opened Messages
  import opened Adaptation

  datatype EventType = TransferAcceptedEvent | TransferRejectedEvent

  /** The fields of the simulation's Event that the core fills in. */
  datatype Event = Event(eventType: EventType, callsign: string, toController: string)

  /** The simulation's event stream, as far as the core posts to it. */
  class EventStream {
    var events: seq<Event>

    constructor ()
      ensures events == []
    {
      events := [];
    }

    method Post(ev: Event)
      modifies this
      ensures events == old(events) + [ev]
    {
      events := events + [ev];
    }
  }

  /** UnsupportedTrack without its location. */
  datatype UnsupportedTrack = UnsupportedTrack(owner: string, handoffController: string, flightPlan: FlightPlanRef?)

  // -----------------------------------------------------------------------
  // The tables as values: what the plan references point to, read out.

  /** A track entry with its plan reference replaced by the plan it points to. */
  datatype TrackView = TrackView(info: TrackInformation, plan: Option<STARSFlightPlan>)

  datatype StarsView = StarsView(plans: map<Squawk, STARSFlightPlan>, tracks: map<string, TrackView>)

  ghost function PlanValues(m: map<Squawk, FlightPlanRef>): map<Squawk, STARSFlightPlan>
    reads m.Values
  {
    map sq | sq in m :: m[sq].plan
  }

  /** The plan references a track table holds. */
  ghost function TrackRefs(m: map<string, TrackInformation>): set<FlightPlanRef?>
  {
    set k | k in m && m[k].flightPlan != null :: m[k].flightPlan
  }

  ghost function ViewTrack(t: TrackInformation): TrackView
    reads t.flightPlan
  {
    TrackView(t.(flightPlan := null), if t.flightPlan == null then None else Some(t.flightPlan.plan))
  }

  ghost function TrackValues(m: map<string, TrackInformation>): map<string, TrackView>
    reads TrackRefs(m)
  {
    map k | k in m :: ViewTrack(m[k])
  }

  // -----------------------------------------------------------------------
  // What SortReceivedMessages does with one message and with a queue.

  /** The effect of one received message on the tables, and the events it posts. */
  function Step(v: StarsView, msg: FlightPlanMessage): (StarsView, seq<Event>)
  {
    var id := msg.track.identifier;
    var owner := msg.track.trackOwner;
    match msg.messageType
    case Plan =>
      if msg.bcn != 0 then (v.(plans := v.plans[msg.bcn := ToFlightPlan(msg)]), []) else (v, [])
    case Amendment =>
      (v.(plans := v.plans[msg.bcn := ToFlightPlan(msg)]), [])
    case Cancellation =>
      (v.(plans := v.plans - {msg.bcn}), [])
    case InitiateTransfer =>
      var track := NewTrack(owner, msg.track.handoffController, null);
      if msg.bcn in v.plans then
        (StarsView(v.plans - {msg.bcn}, v.tracks[id := TrackView(track, Some(v.plans[msg.bcn]))]),
         [Event(TransferAcceptedEvent, id, owner)])
      else if id in v.tracks then
        (StarsView(v.plans - {msg.bcn}, v.tracks[id := TrackView(track, v.tracks[id].plan)]),
         [Event(TransferAcceptedEvent, id, owner)])
      else
        (v, [Event(TransferRejectedEvent, id, owner)])
    case AcceptRecallTransfer =>
      if id !in v.tracks then (v, [])
      else if owner != v.tracks[id].info.trackOwner then
        var t := v.tracks[id];
        (v.(tracks := v.tracks[id := t.(info := t.info.(trackOwner := owner, handoffController := ""))]), [])
      else
        (v.(tracks := v.tracks - {id}), [])
    case _ => (v, [])
  }

  /** The queue handled in order, with all the events it posts. */
  function Fold(v: StarsView, msgs: seq<FlightPlanMessage>): (StarsView, seq<Event>)
    decreases |msgs|
  {
    if |msgs| == 0 then (v, [])
    else
      var before := Fold(v, msgs[..|msgs| - 1]);
      var after := Step(before.0, msgs[|msgs| - 1]);
      (after.0, before.1 + after.1)
  }

  /** Exactly the InitiateTransfer messages post an event, one each. */
  lemma {:induction false} FoldEventCount(v: StarsView, msgs: seq<FlightPlanMessage>)
    ensures |Fold(v, msgs).1| == CountType(msgs, InitiateTransfer)
    decreases |msgs|
  {
    if |msgs| > 0 {
      FoldEventCount(v, msgs[..|msgs| - 1]);
    }
  }

  /** A cleared queue handled again changes nothing and posts nothing:
      every slot is a Plan message with beacon code 0, which is ignored. */
  lemma {:induction false} ClearedQueueIsInert(v: StarsView, q: seq<FlightPlanMessage>)
    requires Cleared(q)
    ensures Fold(v, q) == (v, [])
    decreases |q|
  {
    if |q| > 0 {
      var front := q[..|q| - 1];
      assert Cleared(front) by {
        forall i | 0 <= i < |front| ensures front[i] == ZeroMessage {
          assert front[i] == q[i];
        }
      }
      ClearedQueueIsInert(v, front);
      assert q[|q| - 1] == ZeroMessage;
      assert Step(v, ZeroMessage) == (v, []);
      var none: seq<Event> := [];
      assert none + none == none;
    }
  }

  /** A Plan with a non-zero code stores the plan the message carries; a
      Cancellation drops the code; an Amendment stores even code 0. */
  lemma PlanTableSteps(v: StarsView, msg: FlightPlanMessage)
    ensures msg.messageType == Plan && msg.bcn != 0 ==>
              Step(v, msg).0.plans == v.plans[msg.bcn := ToFlightPlan(msg)] && Step(v, msg).0.tracks == v.tracks
    ensures msg.messageType == Plan && msg.bcn == 0 ==> Step(v, msg) == (v, [])
    ensures msg.messageType == Amendment ==> Step(v, msg).0.plans == v.plans[msg.bcn := ToFlightPlan(msg)]
    ensures msg.messageType == Cancellation ==> Step(v, msg).0.plans == v.plans - {msg.bcn}
    ensures msg.messageType in {Plan, Amendment, Cancellation} ==>
              Step(v, msg).1 == [] && Step(v, msg).0.tracks == v.tracks
  {
  }

  /** A transfer is accepted exactly when the code's plan or the callsign's
      track is held; then the track belongs to the new owner with the plan
      that was held and the plan is no longer held by code. */
  lemma TransferSteps(v: StarsView, msg: FlightPlanMessage)
    requires msg.messageType == InitiateTransfer
    ensures var r := Step(v, msg);
      && |r.1| == 1
      && r.1[0].callsign == msg.track.identifier
      && r.1[0].toController == msg.track.trackOwner
      && (r.1[0].eventType == TransferAcceptedEvent <==>
            msg.bcn in v.plans || msg.track.identifier in v.tracks)
      && (r.1[0].eventType == TransferAcceptedEvent ==>
            && msg.track.identifier in r.0.tracks
            && r.0.tracks[msg.track.identifier].info.trackOwner == msg.track.trackOwner
            && r.0.tracks[msg.track.identifier].info.handoffController == msg.track.handoffController
            && msg.bcn !in r.0.plans
            && r.0.tracks[msg.track.identifier].plan ==
                 (if msg.bcn in v.plans then Some(v.plans[msg.bcn]) else v.tracks[msg.track.identifier].plan))
      && (r.1[0].eventType == TransferRejectedEvent ==> r.0 == v)
  {
  }

  /** An accept (a different owner comes back) gives the track to that owner
      and ends the handoff; a recall (the same owner) drops the track. */
  lemma AcceptRecallSteps(v: StarsView, msg: FlightPlanMessage)
    requires msg.messageType == AcceptRecallTransfer
    ensures var r := Step(v, msg);
      var id := msg.track.identifier;
      && r.1 == [] && r.0.plans == v.plans
      && (id !in v.tracks ==> r.0 == v)
      && (id in v.tracks && msg.track.trackOwner != v.tracks[id].info.trackOwner ==>
            id in r.0.tracks && r.0.tracks[id].info.trackOwner == msg.track.trackOwner &&
            r.0.tracks[id].info.handoffController == "" && r.0.tracks[id].plan == v.tracks[id].plan)
      && (id in v.tracks && msg.track.trackOwner == v.tracks[id].info.trackOwner ==>
            r.0.tracks == v.tracks - {id})
  {
  }

  // -----------------------------------------------------------------------

  /** A track that belongs to the aircraft: its plan has the aircraft's
      callsign or its beacon code. */
  predicate TrackOfAircraft(t: TrackInformation, ac: Aircraft)
    reads {t.flightPlan}`plan
  {
    t.flightPlan != null &&
    (t.flightPlan.plan.base.callsign == ac.callsign || t.flightPlan.plan.base.assignedSquawk == ac.squawk)
  }

  /** The keys of the aircraft's tracks in a track table. */
  ghost function AircraftKeys(tracks: map<string, TrackInformation>, ac: Aircraft): set<string>
    reads TrackRefs(tracks)`plan
  {
    set k | k in tracks && TrackOfAircraft(tracks[k], ac)
  }

  /** A track table less the given keys. */
  function Without(tracks: map<string, TrackInformation>, gone: set<string>): (r: map<string, TrackInformation>)
    ensures r.Keys == tracks.Keys - gone
    ensures forall k :: k in r ==> r[k] == tracks[k]
  {
    map k | k in tracks && k !in gone :: tracks[k]
  }

  /** The tracks `after` keeps of `before`: every track of the aircraft
      is gone, every other track is there unchanged. */
  ghost predicate Pruned(before: map<string, TrackInformation>, after: map<string, TrackInformation>, ac: Aircraft)
    reads TrackRefs(before)`plan
  {
    && after.Keys <= before.Keys
    && (forall k :: k in before ==> (k in after <==> !TrackOfAircraft(before[k], ac)))
    && (forall k :: k in after ==> after[k] == before[k])
  }

  /** Dropping the aircraft's keys is exactly what Pruned describes. */
  lemma PrunedIsWithout(before: map<string, TrackInformation>, after: map<string, TrackInformation>, ac: Aircraft)
    ensures Pruned(before, after, ac) <==> after == Without(before, AircraftKeys(before, ac))
  {
    var w := Without(before, AircraftKeys(before, ac));
    if Pruned(before, after, ac) {
      assert after.Keys == w.Keys;
    }
  }

  /** The loop of CompletelyDeleteAircraft, which the ERAM and the STARS
      computers both run over their track tables: every track of the
      aircraft is deleted, every other track is kept as it is. */
  method WithoutAircraft(tracks: map<string, TrackInformation>, ac: Aircraft)
    returns (r: map<string, TrackInformation>)
    ensures Pruned(tracks, r, ac)
    ensures r == Without(tracks, AircraftKeys(tracks, ac))
  {
    r := tracks;
    var remaining := tracks.Keys;
    while remaining != {}
      invariant remaining <= tracks.Keys
      invariant r.Keys <= tracks.Keys
      invariant forall k :: k in remaining ==> k in r
      invariant forall k :: k in tracks && k !in remaining ==> (k in r <==> !TrackOfAircraft(tracks[k], ac))
      invariant forall k :: k in r ==> r[k] == tracks[k]
      decreases remaining
    {
      ghost var some := Member(remaining);
      var k :| k in remaining;
      var fp := tracks[k].flightPlan;
      if fp != null {
        if fp.plan.base.callsign == ac.callsign {
          r := r - {k};
        } else if fp.plan.base.assignedSquawk == ac.squawk {
          r := r - {k};
        }
      }
      remaining := remaining - {k};
    }
    PrunedIsWithout(tracks, r, ac);
  }

  lemma PlanValuesUpdate(m: map<Squawk, FlightPlanRef>, k: Squawk, r: FlightPlanRef)
    ensures PlanValues(m[k := r]) == PlanValues(m)[k := r.plan]
  {
  }

  lemma PlanValuesRemove(m: map<Squawk, FlightPlanRef>, k: Squawk)
    ensures PlanValues(m - {k}) == PlanValues(m) - {k}
  {
  }

  lemma TrackValuesUpdate(m: map<string, TrackInformation>, k: string, t: TrackInformation)
    ensures TrackValues(m[k := t]) == TrackValues(m)[k := ViewTrack(t)]
  {
  }

  lemma TrackValuesRemove(m: map<string, TrackInformation>, k: string)
    ensures TrackValues(m - {k}) == TrackValues(m) - {k}
  {
  }

  class STARSComputer {
    const identifier: string
    var containedPlans: map<Squawk, FlightPlanRef>
    /** ReceivedMessages; the overlying ERAM computer and the other STARS
        computers append to it through their pointers to it. */
    const receivedMessages: Inbox
    var trackInformation: map<string, TrackInformation>
    /** The overlying ERAM computer's queue; null until it is wired up. */
    var eramInbox: Inbox?
    /** The queues of the other STARS computers, by TRACON. */
    var starsInbox: map<string, Inbox>
    var unsupportedTracks: seq<UnsupportedTrack>
    /** The beacon-bank pool, shared with the other STARS computers of the centre. */
    const availableSquawks: SquawkPool

    /** MakeSTARSComputer. */
    constructor (id: string, sq: SquawkPool)
      ensures identifier == id && availableSquawks == sq
      ensures containedPlans == map[] && trackInformation == map[] && starsInbox == map[]
      ensures fresh(receivedMessages) && receivedMessages.msgs == []
      ensures eramInbox == null && unsupportedTracks == []
    {
      identifier := id;
      containedPlans := map[];
      receivedMessages := new Inbox();
      trackInformation := map[];
      eramInbox := null;
      starsInbox := map[];
      unsupportedTracks := [];
      availableSquawks := sq;
    }

    /** The tables as values. */
    ghost function View(): StarsView
      reads this, containedPlans.Values, TrackRefs(trackInformation)
    {
      StarsView(PlanValues(containedPlans), TrackValues(trackInformation))
    }

    /** CreateSquawk: a code from the shared beacon-bank pool. */
    method CreateSquawk() returns (sq: Squawk, err: Option<Error>)
      modifies availableSquawks
      ensures old(availableSquawks.available) == {} ==>
                sq == 0 && err == Some(ErrNoMoreAvailableSquawkCodes) &&
                availableSquawks.available == old(availableSquawks.available)
      ensures old(availableSquawks.available) != {} ==>
                err == None && sq in old(availableSquawks.available) &&
                availableSquawks.available == old(availableSquawks.available) - {sq}
    {
      sq, err := availableSquawks.CreateSquawk();
    }

    /** SendTrackInfo: stamps the message with this facility and the time and
        queues it for the receiving STARS facility, or for the overlying ERAM
        computer when that facility is not wired to this one. */
    method SendTrackInfo(receivingFacility: string, msg: FlightPlanMessage, simTime: int)
      requires receivingFacility !in starsInbox ==> eramInbox != null
      modifies if receivingFacility in starsInbox then {starsInbox[receivingFacility]} else {eramInbox}
      ensures var m := msg.(sourceID := FormatSourceID(identifier, simTime));
        && (receivingFacility in starsInbox ==>
              starsInbox[receivingFacility].msgs == old(starsInbox[receivingFacility].msgs) + [m])
        && (receivingFacility !in starsInbox ==> eramInbox.msgs == old(eramInbox.msgs) + [m])
    {
      var m := msg.(sourceID := FormatSourceID(identifier, simTime));
      if receivingFacility in starsInbox {
        starsInbox[receivingFacility].Append(m);
      } else {
        SendToOverlyingERAMFacility(m);
      }
    }

    method SendToOverlyingERAMFacility(msg: FlightPlanMessage)
      requires eramInbox != null
      modifies eramInbox
      ensures eramInbox.msgs == old(eramInbox.msgs) + [msg]
    {
      eramInbox.Append(msg);
    }

    /** RequestFlightPlan: asks the overlying ERAM computer for the plan of a code. */
    method RequestFlightPlan(bcn: Squawk, simTime: int)
      requires eramInbox != null
      modifies eramInbox
      ensures eramInbox.msgs == old(eramInbox.msgs) +
                [ZeroMessage.(messageType := MessageType.RequestFlightPlan, bcn := bcn,
                              sourceID := FormatSourceID(identifier, simTime))]
    {
      var message := ZeroMessage.(messageType := MessageType.RequestFlightPlan, bcn := bcn,
                                  sourceID := FormatSourceID(identifier, simTime));
      SendToOverlyingERAMFacility(message);
    }

    /** GetFlightPlan: an identifier that parses as a beacon code is looked up
        by code; any other is matched against the callsigns of the plans held. */
    method GetFlightPlan(identifier: string, parseSquawk: string -> Option<Squawk>)
      returns (fp: FlightPlanRef?, err: Option<Error>)
      ensures err == None || err == Some(ErrNoMatchingFlight)
      ensures err == None <==> fp != null
      ensures parseSquawk(identifier).Some? ==>
                (err == None <==> parseSquawk(identifier).value in containedPlans) &&
                (err == None ==> fp == containedPlans[parseSquawk(identifier).value])
      ensures parseSquawk(identifier).None? ==>
                (err == None <==> exists sq :: sq in containedPlans && containedPlans[sq].plan.base.callsign == identifier) &&
                (err == None ==> fp in containedPlans.Values && fp.plan.base.callsign == identifier)
    {
      var parsed := parseSquawk(identifier);
      if parsed.Some? {
        if parsed.value in containedPlans {
          return containedPlans[parsed.value], None;
        }
      } else {
        var remaining := containedPlans.Keys;
        while remaining != {}
          invariant remaining <= containedPlans.Keys
          invariant forall sq :: sq in containedPlans && sq !in remaining ==>
                      containedPlans[sq].plan.base.callsign != identifier
          decreases remaining
        {
          ghost var some := Member(remaining);
          var sq :| sq in remaining;
          if containedPlans[sq].plan.base.callsign == identifier {
            return containedPlans[sq], None;
          }
          remaining := remaining - {sq};
        }
      }
      return null, Some(ErrNoMatchingFlight);
    }

    method AddTrackInformation(callsign: string, info: TrackInformation)
      modifies this`trackInformation
      ensures trackInformation == old(trackInformation)[callsign := info]
    {
      trackInformation := trackInformation[callsign := info];
    }

    method AddUnsupportedTrack(ut: UnsupportedTrack)
      modifies this`unsupportedTracks
      ensures unsupportedTracks == old(unsupportedTracks) + [ut]
    {
      unsupportedTracks := unsupportedTracks + [ut];
    }

    /** `TrackInformation[callsign].SP1 = sp`; the source dereferences the
        entry, so the track must be known. */
    method SetScratchpad(callsign: string, sp: string, secondary: bool)
      requires callsign in trackInformation
      modifies this`trackInformation
      ensures trackInformation == old(trackInformation)[callsign :=
                if secondary then old(trackInformation)[callsign].(sp2 := sp)
                else old(trackInformation)[callsign].(sp1 := sp)]
    {
      var t := trackInformation[callsign];
      trackInformation := trackInformation[callsign := if secondary then t.(sp2 := sp) else t.(sp1 := sp)];
    }

    /** Plan (non-zero code) and Amendment: a fresh plan read from the
        message is stored under the message's code. */
    method StorePlan(msg: FlightPlanMessage)
      modifies this`containedPlans
      ensures View() == old(View()).(plans := old(View()).plans[msg.bcn := ToFlightPlan(msg)])
    {
      var fp := new FlightPlanRef(ToFlightPlan(msg));
      PlanValuesUpdate(containedPlans, msg.bcn, fp);
      containedPlans := containedPlans[msg.bcn := fp];
    }

    /** Cancellation, and the plan a transfer takes over: the code is dropped. */
    method DropPlan(bcn: Squawk)
      modifies this`containedPlans
      ensures View() == old(View()).(plans := old(View()).plans - {bcn})
    {
      PlanValuesRemove(containedPlans, bcn);
      containedPlans := containedPlans - {bcn};
    }

    /** InitiateTransfer: the track is (re)made for the new owner with the
        plan held for the code, or else with the plan of the track already
        held; a transfer of neither is rejected. */
    method InitiateTransfer(msg: FlightPlanMessage, e: EventStream)
      requires msg.messageType == MessageType.InitiateTransfer
      modifies this`containedPlans, this`trackInformation, e
      ensures View() == Step(old(View()), msg).0
      ensures e.events == old(e.events) + Step(old(View()), msg).1
    {
      var id := msg.track.identifier;
      var owner := msg.track.trackOwner;
      ghost var v := View();
      var track := NewTrack(owner, msg.track.handoffController, null);
      assert msg.bcn in containedPlans <==> msg.bcn in v.plans;
      assert id in trackInformation <==> id in v.tracks;
      if msg.bcn in containedPlans {
        assert Step(v, msg) == (StarsView(v.plans - {msg.bcn}, v.tracks[id := TrackView(track, Some(v.plans[msg.bcn]))]),
                                [Event(TransferAcceptedEvent, id, owner)]);
        TrackFromPlan(msg, e);
      } else if id in trackInformation {
        assert Step(v, msg) == (StarsView(v.plans - {msg.bcn}, v.tracks[id := TrackView(track, v.tracks[id].plan)]),
                                [Event(TransferAcceptedEvent, id, owner)]);
        TrackFromTrack(msg, e);
      } else {
        assert Step(v, msg) == (v, [Event(TransferRejectedEvent, id, owner)]);
        Notify(e, Event(TransferRejectedEvent, id, owner));
      }
    }

    /** Posts an event; the event stream is no part of the computer's view. */
    method Notify(e: EventStream, ev: Event)
      modifies e
      ensures e.events == old(e.events) + [ev]
      ensures View() == old(View())
    {
      e.Post(ev);
    }

    /** The accepted transfer of a code whose plan is held. */
    method TrackFromPlan(msg: FlightPlanMessage, e: EventStream)
      requires msg.bcn in containedPlans
      modifies this`containedPlans, this`trackInformation, e
      ensures View() == StarsView(old(View()).plans - {msg.bcn},
                                  old(View()).tracks[msg.track.identifier :=
                                    TrackView(NewTrack(msg.track.trackOwner, msg.track.handoffController, null),
                                              Some(old(View()).plans[msg.bcn]))])
      ensures e.events == old(e.events) + [Event(TransferAcceptedEvent, msg.track.identifier, msg.track.trackOwner)]
    {
      var fp := containedPlans[msg.bcn];
      var t := NewTrack(msg.track.trackOwner, msg.track.handoffController, fp);
      assert ViewTrack(t) == TrackView(NewTrack(msg.track.trackOwner, msg.track.handoffController, null), Some(fp.plan));
      TrackValuesUpdate(trackInformation, msg.track.identifier, t);
      trackInformation := trackInformation[msg.track.identifier := t];
      DropPlan(msg.bcn);
      Notify(e, Event(TransferAcceptedEvent, msg.track.identifier, msg.track.trackOwner));
    }

    /** The accepted transfer of a track already held, its plan kept. */
    method TrackFromTrack(msg: FlightPlanMessage, e: EventStream)
      requires msg.track.identifier in trackInformation
      modifies this`containedPlans, this`trackInformation, e
      ensures View() == StarsView(old(View()).plans - {msg.bcn},
                                  old(View()).tracks[msg.track.identifier :=
                                    TrackView(NewTrack(msg.track.trackOwner, msg.track.handoffController, null),
                                              old(View()).tracks[msg.track.identifier].plan)])
      ensures e.events == old(e.events) + [Event(TransferAcceptedEvent, msg.track.identifier, msg.track.trackOwner)]
    {
      var trk := trackInformation[msg.track.identifier];
      var t := NewTrack(msg.track.trackOwner, msg.track.handoffController, trk.flightPlan);
      assert ViewTrack(t) == TrackView(NewTrack(msg.track.trackOwner, msg.track.handoffController, null),
                                       ViewTrack(trk).plan);
      TrackValuesUpdate(trackInformation, msg.track.identifier, t);
      trackInformation := trackInformation[msg.track.identifier := t];
      DropPlan(msg.bcn);
      Notify(e, Event(TransferAcceptedEvent, msg.track.identifier, msg.track.trackOwner));
    }

    /** AcceptRecallTransfer: a different owner means the handoff was
        accepted, the same owner that it was recalled. */
    method AcceptRecallTransfer(msg: FlightPlanMessage)
      requires msg.messageType == MessageType.AcceptRecallTransfer
      modifies this`trackInformation
      ensures View() == Step(old(View()), msg).0
    {
      var id := msg.track.identifier;
      var owner := msg.track.trackOwner;
      ghost var v0 := View();
      if id in trackInformation {
        var info := trackInformation[id];
        ghost var tracks := trackInformation;
        if owner != info.trackOwner {
          trackInformation := trackInformation[id := info.(trackOwner := owner, handoffController := "")];
          TrackValuesUpdate(tracks, id, info.(trackOwner := owner, handoffController := ""));
        } else {
          trackInformation := trackInformation - {id};
          TrackValuesRemove(tracks, id);
        }
        assert TrackValues(tracks) == v0.tracks && PlanValues(containedPlans) == v0.plans;
      }
    }

    /** One message of SortReceivedMessages. */
    method HandleMessage(msg: FlightPlanMessage, e: EventStream)
      modifies this`containedPlans, this`trackInformation, e
      ensures View() == Step(old(View()), msg).0
      ensures e.events == old(e.events) + Step(old(View()), msg).1
    {
      match msg.messageType
      case Plan =>
        if msg.bcn != 0 {
          StorePlan(msg);
        }
      case Amendment =>
        StorePlan(msg);
      case Cancellation =>
        DropPlan(msg.bcn);
      case InitiateTransfer =>
        InitiateTransfer(msg, e);
      case AcceptRecallTransfer =>
        AcceptRecallTransfer(msg);
      case _ =>
    }

    /** SortReceivedMessages: handles the queue in order, then clears it,
        which keeps its length and zeroes every slot. */
    method SortReceivedMessages(e: EventStream)
      modifies this`containedPlans, this`trackInformation, e, receivedMessages
      ensures |receivedMessages.msgs| == |old(receivedMessages.msgs)| && Cleared(receivedMessages.msgs)
      ensures View() == Fold(old(View()), old(receivedMessages.msgs)).0
      ensures e.events == old(e.events) + Fold(old(View()), old(receivedMessages.msgs)).1
    {
      var msgs := receivedMessages.msgs;
      ghost var start := View();
      ghost var startEvents := e.events;
      for i := 0 to |msgs|
        invariant SortLoopInv(msgs, i, start, startEvents, e)
      {
        SortStep(msgs, i, start, startEvents, e);
      }
      assert msgs[..|msgs|] == msgs;
      receivedMessages.msgs := Zeros(|msgs|);
    }

    /** What the first `i` messages of the queue have done. */
    ghost predicate SortLoopInv(msgs: seq<FlightPlanMessage>, i: nat, start: StarsView,
                                startEvents: seq<Event>, e: EventStream)
      reads this, containedPlans.Values, TrackRefs(trackInformation), receivedMessages, e
    {
      && i <= |msgs|
      && receivedMessages.msgs == msgs
      && View() == Fold(start, msgs[..i]).0
      && e.events == startEvents + Fold(start, msgs[..i]).1
    }

    /** One pass of SortReceivedMessages' loop. */
    method SortStep(msgs: seq<FlightPlanMessage>, i: nat, ghost start: StarsView,
                    ghost startEvents: seq<Event>, e: EventStream)
      requires i < |msgs| && SortLoopInv(msgs, i, start, startEvents, e)
      modifies this`containedPlans, this`trackInformation, e
      ensures SortLoopInv(msgs, i + 1, start, startEvents, e)
    {
      assert msgs[..i + 1][..i] == msgs[..i];
      HandleMessage(msgs[i], e);
    }

    /** CompletelyDeleteAircraft: drops every track of the aircraft. */
    method CompletelyDeleteAircraft(ac: Aircraft)
      modifies this`trackInformation
      ensures trackInformation == Without(old(trackInformation), old(AircraftKeys(trackInformation, ac)))
    {
      trackInformation := WithoutAircraft(trackInformation, ac);
    }
  }
}
