/** The registry of ERAM computers (pkg/sim/nas.go:334-336, 677-805): one
    computer for each centre with an adaptation, the wiring of their queues
    to one another, the lookup of the computers of a facility, and the
    update every tick runs. */
module Registry {
  import opened Common
  import opened Squawks
  import opened Messages
  import opened Adaptation
  import opened Stars
  import opened Eram

  // -----------------------------------------------------------------------
  // The shape of a set of centres: who is who, and which queue is whose.

  /** Every STARS computer of the centres, by TRACON. */
  ghost function StarsOf(db: AvDatabase, comps: map<string, ERAMComputer>): map<string, STARSComputer>
  {
    map t | t in db.tracons && db.tracons[t] in comps && t in comps[db.tracons[t]].starsComputers
      :: comps[db.tracons[t]].starsComputers[t]
  }

  /** Every queue of the centres and of their STARS computers. */
  ghost function BoxesOf(db: AvDatabase, comps: map<string, ERAMComputer>): set<Inbox>
  {
    (set f | f in comps :: comps[f].receivedMessages) +
    (set t | t in StarsOf(db, comps) :: StarsOf(db, comps)[t].receivedMessages)
  }

  /** The computer of centre `f` as MakeERAMComputer makes it: it knows its
      own id and adaptation, and has one STARS computer, under its own id,
      for every TRACON the database places under the centre. */
  ghost predicate CentreShape(db: AvDatabase, f: string, c: ERAMComputer)
  {
    && c.identifier == f && c.db == db
    && f in db.eramAdaptations && c.adaptation == db.eramAdaptations[f]
    && c.starsComputers.Keys == (set t | t in db.tracons && db.tracons[t] == f)
    && (forall t :: t in c.starsComputers ==> c.starsComputers[t].identifier == t)
  }

  /** No two computers share a queue. */
  ghost predicate Apart(db: AvDatabase, comps: map<string, ERAMComputer>)
  {
    var s := StarsOf(db, comps);
    CentreQueuesApart(comps) && TerminalQueuesApart(s) && CrossQueuesApart(comps, s)
  }

  /** No two centres share a queue. */
  ghost predicate CentreQueuesApart(comps: map<string, ERAMComputer>)
  {
    forall f, g :: f in comps && g in comps && f != g ==> comps[f].receivedMessages != comps[g].receivedMessages
  }

  /** No two STARS computers share a queue. */
  ghost predicate TerminalQueuesApart(s: map<string, STARSComputer>)
  {
    forall t, u :: t in s && u in s && t != u ==> s[t].receivedMessages != s[u].receivedMessages
  }

  /** No centre shares a queue with a STARS computer. */
  ghost predicate CrossQueuesApart(comps: map<string, ERAMComputer>, s: map<string, STARSComputer>)
  {
    forall f, t :: f in comps && t in s ==> comps[f].receivedMessages != s[t].receivedMessages
  }

  ghost predicate Shape(db: AvDatabase, comps: map<string, ERAMComputer>)
  {
    Shaped(db, comps) && Apart(db, comps)
  }

  /** Every centre's computer is as MakeERAMComputer makes it. */
  ghost predicate Shaped(db: AvDatabase, comps: map<string, ERAMComputer>)
  {
    forall f :: f in comps ==> CentreShape(db, f, comps[f])
  }

  /** The STARS computers of centres with their own ids are those of the
      new centre beside the old ones. */
  lemma StarsOfAdd(db: AvDatabase, comps: map<string, ERAMComputer>, fac: string, c: ERAMComputer)
    requires fac !in comps && CentreShape(db, fac, c)
    ensures StarsOf(db, comps[fac := c]).Keys == StarsOf(db, comps).Keys + c.starsComputers.Keys
    ensures forall t :: t in c.starsComputers ==> StarsOf(db, comps[fac := c])[t] == c.starsComputers[t]
    ensures forall t :: t in StarsOf(db, comps) ==>
              (t !in c.starsComputers && StarsOf(db, comps[fac := c])[t] == StarsOf(db, comps)[t])
  {
  }

  /** A centre whose queues are all new keeps the centres apart. */
  lemma ShapeAdd(db: AvDatabase, comps: map<string, ERAMComputer>, fac: string, c: ERAMComputer)
    requires Shape(db, comps) && fac !in comps && CentreShape(db, fac, c)
    requires c.receivedMessages !in BoxesOf(db, comps)
    requires forall t :: t in c.starsComputers ==>
               c.starsComputers[t].receivedMessages !in BoxesOf(db, comps) + {c.receivedMessages}
    requires forall t, u :: t in c.starsComputers && u in c.starsComputers && t != u ==>
               c.starsComputers[t].receivedMessages != c.starsComputers[u].receivedMessages
    ensures Shape(db, comps[fac := c])
  {
    var comps1 := comps[fac := c];
    forall f | f in comps1 ensures CentreShape(db, f, comps1[f]) {
      if f != fac {
        assert comps1[f] == comps[f];
      }
    }
    CentresApartAdd(db, comps, fac, c);
    TerminalsApartAdd(db, comps, fac, c);
    CrossApartAdd(db, comps, fac, c);
    assert Apart(db, comps1);
  }

  lemma CentresApartAdd(db: AvDatabase, comps: map<string, ERAMComputer>, fac: string, c: ERAMComputer)
    requires Shape(db, comps) && fac !in comps && CentreShape(db, fac, c)
    requires c.receivedMessages !in BoxesOf(db, comps)
    requires forall t :: t in c.starsComputers ==>
               c.starsComputers[t].receivedMessages !in BoxesOf(db, comps) + {c.receivedMessages}
    requires forall t, u :: t in c.starsComputers && u in c.starsComputers && t != u ==>
               c.starsComputers[t].receivedMessages != c.starsComputers[u].receivedMessages
    ensures CentreQueuesApart(comps[fac := c])
  {
    var comps1 := comps[fac := c];
    forall f, g | f in comps1 && g in comps1 && f != g
      ensures comps1[f].receivedMessages != comps1[g].receivedMessages
    {
      if f == fac {
        assert comps1[g].receivedMessages in BoxesOf(db, comps);
      } else if g == fac {
        assert comps1[f].receivedMessages in BoxesOf(db, comps);
      }
    }
  }

  lemma TerminalsApartAdd(db: AvDatabase, comps: map<string, ERAMComputer>, fac: string, c: ERAMComputer)
    requires Shape(db, comps) && fac !in comps && CentreShape(db, fac, c)
    requires c.receivedMessages !in BoxesOf(db, comps)
    requires forall t :: t in c.starsComputers ==>
               c.starsComputers[t].receivedMessages !in BoxesOf(db, comps) + {c.receivedMessages}
    requires forall t, u :: t in c.starsComputers && u in c.starsComputers && t != u ==>
               c.starsComputers[t].receivedMessages != c.starsComputers[u].receivedMessages
    ensures TerminalQueuesApart(StarsOf(db, comps[fac := c]))
  {
    StarsOfAdd(db, comps, fac, c);
    var s1 := StarsOf(db, comps[fac := c]);
    forall t, u | t in s1 && u in s1 && t != u
      ensures s1[t].receivedMessages != s1[u].receivedMessages
    {
      if t in c.starsComputers && u !in c.starsComputers {
        assert s1[u].receivedMessages in BoxesOf(db, comps);
      } else if u in c.starsComputers && t !in c.starsComputers {
        assert s1[t].receivedMessages in BoxesOf(db, comps);
      }
    }
  }

  lemma CrossApartAdd(db: AvDatabase, comps: map<string, ERAMComputer>, fac: string, c: ERAMComputer)
    requires Shape(db, comps) && fac !in comps && CentreShape(db, fac, c)
    requires c.receivedMessages !in BoxesOf(db, comps)
    requires forall t :: t in c.starsComputers ==>
               c.starsComputers[t].receivedMessages !in BoxesOf(db, comps) + {c.receivedMessages}
    requires forall t, u :: t in c.starsComputers && u in c.starsComputers && t != u ==>
               c.starsComputers[t].receivedMessages != c.starsComputers[u].receivedMessages
    ensures CrossQueuesApart(comps[fac := c], StarsOf(db, comps[fac := c]))
  {
    StarsOfAdd(db, comps, fac, c);
    var comps1 := comps[fac := c];
    var s1 := StarsOf(db, comps1);
    forall f, t | f in comps1 && t in s1
      ensures comps1[f].receivedMessages != s1[t].receivedMessages
    {
      if f == fac && t !in c.starsComputers {
        assert s1[t].receivedMessages in BoxesOf(db, comps);
      } else if f != fac && t in c.starsComputers {
        assert comps1[f].receivedMessages in BoxesOf(db, comps);
      }
    }
  }

  /** The objects of one centre: its computer, its STARS computers and
      their queues. */
  ghost function CentreObjects(c: ERAMComputer): set<object>
  {
    {c, c.receivedMessages} +
    (set t | t in c.starsComputers :: c.starsComputers[t] as object) +
    (set t | t in c.starsComputers :: c.starsComputers[t].receivedMessages as object)
  }

  /** A centre as MakeERAMComputer leaves it: empty tables and queues, no
      peer queues yet, and every STARS computer queuing to the centre. */
  ghost predicate Initial(c: ERAMComputer)
    reads CentreObjects(c)
  {
    && Empty(c) && c.eramInboxes == map[]
    && (forall t :: t in c.starsComputers ==>
          c.starsComputers[t].starsInbox == map[] && c.starsComputers[t].eramInbox == c.receivedMessages)
  }

  /** Empty tables and queues, here and in every STARS computer. */
  ghost predicate Empty(c: ERAMComputer)
    reads CentreObjects(c)
  {
    EmptyCentre(c) && forall t :: t in c.starsComputers ==> EmptyTerminal(c.starsComputers[t])
  }

  ghost predicate EmptyCentre(c: ERAMComputer)
    reads c`flightPlans, c`trackInformation, c.receivedMessages
  {
    c.receivedMessages.msgs == [] && c.flightPlans == map[] && c.trackInformation == map[]
  }

  ghost predicate EmptyTerminal(sc: STARSComputer)
    reads sc`containedPlans, sc`trackInformation, sc.receivedMessages
  {
    sc.receivedMessages.msgs == [] && sc.containedPlans == map[] && sc.trackInformation == map[]
  }

  /** What the first loop of MakeERAMComputers has made so far: computers
      for the centres of `done`, in their initial state. */
  ghost predicate Made(db: AvDatabase, comps: map<string, ERAMComputer>, done: set<string>)
    reads set f, o | f in comps && o in CentreObjects(comps[f]) :: o
  {
    comps.Keys == done && Shape(db, comps) && forall f :: f in comps ==> Initial(comps[f])
  }

  /** Every computer of the centres is new. */
  twostate predicate AllFresh(new comps: map<string, ERAMComputer>)
  {
    forall f :: f in comps ==> FreshCentre(comps[f])
  }

  /** A computer and its STARS computers are new. */
  twostate predicate FreshCentre(new c: ERAMComputer)
  {
    fresh(c) && forall t :: t in c.starsComputers ==> fresh(c.starsComputers[t])
  }

  /** A new computer with new STARS computers keeps the centres new. */
  twostate lemma FreshAdd(new comps: map<string, ERAMComputer>, fac: string, new c: ERAMComputer)
    requires AllFresh(comps) && FreshCentre(c)
    ensures AllFresh(comps[fac := c])
  {
  }

  /** One step of the first loop: the computer of centre `fac`, added to
      those made so far. */
  method AddCentre(starsBeaconBank: int, db: AvDatabase, comps: map<string, ERAMComputer>, fac: string)
    returns (next: map<string, ERAMComputer>)
    requires fac in db.eramAdaptations && fac !in comps
    requires Shape(db, comps) && forall f :: f in comps ==> Initial(comps[f])
    ensures Shape(db, next) && forall f :: f in next ==> Initial(next[f])
    ensures fac in next && next == comps[fac := next[fac]]
    ensures fresh(next[fac]) && forall t :: t in next[fac].starsComputers ==> fresh(next[fac].starsComputers[t])
  {
    var c := NewCentre(starsBeaconBank, db, fac, BoxesOf(db, comps));
    MadeAdd(db, comps, comps.Keys, fac, c);
    next := comps[fac := c];
  }

  /** MakeERAMComputer for centre `fac`: a computer in its initial state
      whose queues are all new and pairwise distinct. */
  method NewCentre(starsBeaconBank: int, db: AvDatabase, fac: string, ghost boxes: set<Inbox>) returns (c: ERAMComputer)
    requires fac in db.eramAdaptations
    ensures CentreShape(db, fac, c) && Initial(c)
    ensures fresh(c) && fresh(c.receivedMessages) && c.receivedMessages !in boxes
    ensures forall t :: t in c.starsComputers ==>
              fresh(c.starsComputers[t]) && fresh(c.starsComputers[t].receivedMessages) &&
              c.starsComputers[t].receivedMessages !in boxes + {c.receivedMessages}
    ensures forall t, u :: t in c.starsComputers && u in c.starsComputers && t != u ==>
              c.starsComputers[t].receivedMessages != c.starsComputers[u].receivedMessages
  {
    c := new ERAMComputer(fac, db.eramAdaptations[fac], starsBeaconBank, db);
  }

  /** A new centre in its initial state, whose queues are all new, joins
      the centres made so far. */
  lemma MadeAdd(db: AvDatabase, comps: map<string, ERAMComputer>, done: set<string>, fac: string, c: ERAMComputer)
    requires Made(db, comps, done) && fac !in done
    requires CentreShape(db, fac, c) && Initial(c)
    requires c.receivedMessages !in BoxesOf(db, comps)
    requires forall t :: t in c.starsComputers ==>
               c.starsComputers[t].receivedMessages !in BoxesOf(db, comps) + {c.receivedMessages}
    requires forall t, u :: t in c.starsComputers && u in c.starsComputers && t != u ==>
               c.starsComputers[t].receivedMessages != c.starsComputers[u].receivedMessages
    ensures Made(db, comps[fac := c], done + {fac})
  {
    ShapeAdd(db, comps, fac, c);
    var next := comps[fac := c];
    forall f | f in next ensures Initial(next[f]) {
      if f != fac {
        assert next[f] == comps[f];
      }
    }
  }

  /** The first loop of MakeERAMComputers: one ERAM computer for every
      centre the database has an adaptation for. */
  method MakeComputers(starsBeaconBank: int, db: AvDatabase) returns (comps: map<string, ERAMComputer>)
    ensures comps.Keys == db.eramAdaptations.Keys && Shape(db, comps)
    ensures forall f :: f in comps ==> Initial(comps[f])
    ensures AllFresh(comps)
  {
    comps := map[];
    var remaining := db.eramAdaptations.Keys;
    while remaining != {}
      invariant remaining <= db.eramAdaptations.Keys && comps.Keys == db.eramAdaptations.Keys - remaining
      invariant Shape(db, comps)
      invariant forall f :: f in comps ==> Initial(comps[f])
      invariant AllFresh(comps)
      decreases remaining
    {
      ghost var some := Member(remaining);
      var fac :| fac in remaining;
      ghost var prev := comps;
      comps := AddCentre(starsBeaconBank, db, comps, fac);
      FreshAdd(prev, fac, comps[fac]);
      remaining := remaining - {fac};
    }
  }

  // -----------------------------------------------------------------------
  // The wiring loops of MakeERAMComputers.

  /** The queues of the other centres, by ARTCC: what centre `f` sends to. */
  function PeerQueues(comps: map<string, ERAMComputer>, f: string): map<string, Inbox>
  {
    map g | g in comps && g != f :: comps[g].receivedMessages
  }

  /** The queue of every STARS computer of the centres, by TRACON. */
  ghost function TerminalQueues(db: AvDatabase, comps: map<string, ERAMComputer>): map<string, Inbox>
  {
    map t | t in StarsOf(db, comps) :: StarsOf(db, comps)[t].receivedMessages
  }

  /** The queues of the STARS computers of one centre, by TRACON. */
  function CentreQueues(c: ERAMComputer): map<string, Inbox>
  {
    map t | t in c.starsComputers :: c.starsComputers[t].receivedMessages
  }

  /** The computers of a set of centres. */
  ghost function CentreSet(comps: map<string, ERAMComputer>): set<ERAMComputer>
  {
    set f | f in comps :: comps[f]
  }

  /** Every centre sends to the queue of every other centre, and every
      STARS computer to the queue of every other STARS computer and to
      its own centre's queue. */
  ghost predicate Wired(db: AvDatabase, comps: map<string, ERAMComputer>)
    reads CentreSet(comps)`eramInboxes, Terminals(comps)`starsInbox, Terminals(comps)`eramInbox
  {
    CentresWired(comps) && TerminalsWired(db, comps) && UpWired(comps)
  }

  ghost predicate CentresWired(comps: map<string, ERAMComputer>)
    reads CentreSet(comps)`eramInboxes
  {
    forall f :: f in comps ==> comps[f].eramInboxes == PeerQueues(comps, f)
  }

  ghost predicate TerminalsWired(db: AvDatabase, comps: map<string, ERAMComputer>)
    reads Terminals(comps)`starsInbox
  {
    TerminalsWiredBut(comps, TerminalQueues(db, comps), {})
  }

  ghost predicate UpWired(comps: map<string, ERAMComputer>)
    reads Terminals(comps)`eramInbox
  {
    forall f, t :: f in comps && t in comps[f].starsComputers ==>
      comps[f].starsComputers[t].eramInbox == comps[f].receivedMessages
  }

  /** Distinct centres have distinct computers, distinct TRACONs distinct
      STARS computers. */
  lemma ShapeDistinct(db: AvDatabase, comps: map<string, ERAMComputer>)
    requires Shape(db, comps)
    ensures forall f, g :: f in comps && g in comps && f != g ==> comps[f] != comps[g]
    ensures forall t, u :: t in StarsOf(db, comps) && u in StarsOf(db, comps) && t != u ==>
              StarsOf(db, comps)[t] != StarsOf(db, comps)[u]
  {
  }

  /** The second loop of MakeERAMComputers: every centre learns the
      queues of all the other centres. */
  method WireCentres(db: AvDatabase, comps: map<string, ERAMComputer>)
    requires Shape(db, comps)
    requires forall f :: f in comps ==> comps[f].eramInboxes == map[]
    modifies CentreSet(comps)`eramInboxes
    ensures forall f :: f in comps ==> comps[f].eramInboxes == PeerQueues(comps, f)
  {
    ShapeDistinct(db, comps);
    var remaining := comps.Keys;
    while remaining != {}
      invariant remaining <= comps.Keys
      invariant forall f :: f in comps ==>
                  comps[f].eramInboxes == if f in remaining then map[] else PeerQueues(comps, f)
      decreases remaining
    {
      ghost var some := Member(remaining);
      var fac :| fac in remaining;
      WireCentre(comps, fac, comps[fac]);
      remaining := remaining - {fac};
    }
  }

  /** The inner loop for one centre: every other centre's queue, never its own. */
  method WireCentre(comps: map<string, ERAMComputer>, fac: string, comp: ERAMComputer)
    requires fac in comps && comp == comps[fac] && comp.eramInboxes == map[]
    modifies comp`eramInboxes
    ensures comp.eramInboxes == PeerQueues(comps, fac)
  {
    var remaining := comps.Keys;
    while remaining != {}
      invariant remaining <= comps.Keys
      invariant comp.eramInboxes == map g | g in comps && g !in remaining && g != fac :: comps[g].receivedMessages
      decreases remaining
    {
      ghost var some := Member(remaining);
      var fac2 :| fac2 in remaining;
      if fac != fac2 {
        comp.eramInboxes := comp.eramInboxes[fac2 := comps[fac2].receivedMessages];
      }
      remaining := remaining - {fac2};
    }
  }

  /** The third loop of MakeERAMComputers: the queue of every STARS
      computer, by the identifier the computer holds. */
  method CollectTerminalQueues(db: AvDatabase, comps: map<string, ERAMComputer>) returns (all: map<string, Inbox>)
    requires Shape(db, comps)
    ensures all == TerminalQueues(db, comps)
  {
    all := map[];
    var remaining := comps.Keys;
    while remaining != {}
      invariant remaining <= comps.Keys
      invariant all == TerminalQueues(db, comps - remaining)
      decreases remaining
    {
      ghost var some := Member(remaining);
      var fac :| fac in remaining;
      all := CollectCentre(db, fac, comps[fac], all);
      TerminalQueuesGrow(db, comps, remaining, fac);
      remaining := remaining - {fac};
    }
    assert comps - remaining == comps;
  }

  /** Taking one more centre in adds the queues of its STARS computers. */
  lemma TerminalQueuesGrow(db: AvDatabase, comps: map<string, ERAMComputer>, remaining: set<string>, fac: string)
    requires Shape(db, comps) && fac in remaining && remaining <= comps.Keys
    ensures TerminalQueues(db, comps - (remaining - {fac})) ==
              TerminalQueues(db, comps - remaining) + CentreQueues(comps[fac])
  {
    var before := comps - remaining;
    assert comps - (remaining - {fac}) == before[fac := comps[fac]];
    StarsOfAdd(db, before, fac, comps[fac]);
    TerminalQueuesAdd(db, before, fac, comps[fac]);
  }

  lemma TerminalQueuesAdd(db: AvDatabase, comps: map<string, ERAMComputer>, fac: string, c: ERAMComputer)
    requires fac !in comps && CentreShape(db, fac, c)
    ensures TerminalQueues(db, comps[fac := c]) == TerminalQueues(db, comps) + CentreQueues(c)
  {
    StarsOfAdd(db, comps, fac, c);
  }

  /** The inner loop for one centre: its STARS computers' queues are added. */
  method CollectCentre(db: AvDatabase, fac: string, c: ERAMComputer, all: map<string, Inbox>)
    returns (all': map<string, Inbox>)
    requires CentreShape(db, fac, c)
    ensures all' == all + CentreQueues(c)
  {
    all' := all;
    var remaining := c.starsComputers.Keys;
    while remaining != {}
      invariant remaining <= c.starsComputers.Keys
      invariant all' == all + map t | t in c.starsComputers && t !in remaining :: c.starsComputers[t].receivedMessages
      decreases remaining
    {
      ghost var some := Member(remaining);
      var t :| t in remaining;
      var stars := c.starsComputers[t];
      all' := all'[stars.identifier := stars.receivedMessages];
      remaining := remaining - {t};
    }
  }

  /** The fourth loop of MakeERAMComputers: every STARS computer learns the
      queues of all the other STARS computers, never its own. */
  method WireTerminals(db: AvDatabase, comps: map<string, ERAMComputer>, all: map<string, Inbox>)
    requires Shape(db, comps)
    requires TerminalsWiredBut(comps, map[], comps.Keys)
    modifies Terminals(comps)`starsInbox
    ensures TerminalsWiredBut(comps, all, {})
  {
    assert TerminalsWiredBut(comps, all, comps.Keys);
    var remaining := comps.Keys;
    while remaining != {}
      invariant remaining <= comps.Keys
      invariant TerminalsWiredBut(comps, all, remaining)
      decreases remaining
    {
      ghost var some := Member(remaining);
      var fac :| fac in remaining;
      WireTerminalsStep(db, comps, all, remaining, fac);
      remaining := remaining - {fac};
    }
  }

  /** The STARS computers of every centre. */
  ghost function Terminals(comps: map<string, ERAMComputer>): set<STARSComputer>
  {
    set f, t | f in comps && t in comps[f].starsComputers :: comps[f].starsComputers[t]
  }

  /** The STARS computers of the centres in `remaining` know no queue yet;
      the others know every queue of `all` but their own. */
  ghost predicate TerminalsWiredBut(comps: map<string, ERAMComputer>, all: map<string, Inbox>, remaining: set<string>)
    reads Terminals(comps)`starsInbox
  {
    forall f :: f in comps ==> CentreTerminalsWired(comps[f], all, f !in remaining)
  }

  /** The STARS computers of a centre know every queue of `all` but their
      own when `done`, and no queue otherwise. */
  ghost predicate CentreTerminalsWired(c: ERAMComputer, all: map<string, Inbox>, done: bool)
    reads (set t | t in c.starsComputers :: c.starsComputers[t])`starsInbox
  {
    forall t :: t in c.starsComputers ==> c.starsComputers[t].starsInbox == if done then all - {t} else map[]
  }

  /** One turn of WireTerminals: the STARS computers of centre `fac`. */
  method WireTerminalsStep(db: AvDatabase, comps: map<string, ERAMComputer>, all: map<string, Inbox>,
                           remaining: set<string>, fac: string)
    requires Shaped(db, comps) && fac in remaining && remaining <= comps.Keys
    requires TerminalsWiredBut(comps, all, remaining)
    modifies Terminals(comps)`starsInbox
    ensures TerminalsWiredBut(comps, all, remaining - {fac})
  {
    var c := comps[fac];
    assert CentreTerminalsWired(c, all, false);
    OtherTerminals(db, comps, fac);
    WireCentreTerminals(db, fac, c, all);
    forall f | f in comps
      ensures CentreTerminalsWired(comps[f], all, f !in remaining - {fac})
    {
      if f != fac {
        forall t | t in comps[f].starsComputers ensures comps[f].starsComputers[t] in TerminalSet(comps[f]) { }
      }
    }
  }

  /** The STARS computers of two centres are different computers: each
      knows its own TRACON, and a TRACON lies under one centre. */
  lemma OtherTerminals(db: AvDatabase, comps: map<string, ERAMComputer>, fac: string)
    requires Shaped(db, comps) && fac in comps
    ensures forall f :: f in comps && f != fac ==> TerminalSet(comps[f]) !! TerminalSet(comps[fac])
  {
    forall f | f in comps && f != fac ensures TerminalSet(comps[f]) !! TerminalSet(comps[fac]) {
      assert CentreShape(db, f, comps[f]) && CentreShape(db, fac, comps[fac]);
      forall t | t in comps[f].starsComputers ensures comps[f].starsComputers[t] !in TerminalSet(comps[fac]) {
        assert comps[f].starsComputers[t].identifier == t;
      }
    }
  }

  /** The middle loop, over the STARS computers of one centre. */
  method WireCentreTerminals(db: AvDatabase, fac: string, c: ERAMComputer, all: map<string, Inbox>)
    requires CentreShape(db, fac, c)
    requires forall t :: t in c.starsComputers ==> c.starsComputers[t].starsInbox == map[]
    modifies (set t | t in c.starsComputers :: c.starsComputers[t])`starsInbox
    ensures forall t :: t in c.starsComputers ==> c.starsComputers[t].starsInbox == all - {t}
  {
    var remaining := c.starsComputers.Keys;
    while remaining != {}
      invariant remaining <= c.starsComputers.Keys
      invariant forall t :: t in c.starsComputers ==>
                  c.starsComputers[t].starsInbox == if t in remaining then map[] else all - {t}
      decreases remaining
    {
      ghost var some := Member(remaining);
      var t :| t in remaining;
      WireTerminal(c.starsComputers[t], all);
      remaining := remaining - {t};
    }
  }

  /** The inner loop, for one STARS computer. */
  method WireTerminal(stars: STARSComputer, all: map<string, Inbox>)
    requires stars.starsInbox == map[]
    modifies stars`starsInbox
    ensures stars.starsInbox == all - {stars.identifier}
  {
    var remaining := all.Keys;
    while remaining != {}
      invariant remaining <= all.Keys
      invariant stars.starsInbox == map t | t in all && t !in remaining && t != stars.identifier :: all[t]
      decreases remaining
    {
      ghost var some := Member(remaining);
      var tracon :| tracon in remaining;
      if tracon != stars.identifier {
        stars.starsInbox := stars.starsInbox[tracon := all[tracon]];
      }
      remaining := remaining - {tracon};
    }
  }

  // -----------------------------------------------------------------------

  /** No computer sends to its own queue: the wiring leaves every centre
      out of its own map of centre queues and every STARS computer out of
      its own map of STARS queues, so each ERAM computer is Valid. */
  lemma {:induction false} WiredNotSelf(db: AvDatabase, comps: map<string, ERAMComputer>)
    requires Shape(db, comps) && Wired(db, comps)
    ensures forall f :: f in comps ==> f !in comps[f].eramInboxes && comps[f].Valid()
    ensures forall f, t :: f in comps && t in comps[f].starsComputers ==>
              t !in comps[f].starsComputers[t].starsInbox &&
              comps[f].starsComputers[t].receivedMessages !in comps[f].starsComputers[t].starsInbox.Values
  {
    var s := StarsOf(db, comps);
    forall f | f in comps
      ensures f !in comps[f].eramInboxes && comps[f].Valid()
    {
      var c := comps[f];
      assert c.eramInboxes == PeerQueues(comps, f);
      forall t | t in c.starsComputers ensures c.starsComputers[t].receivedMessages != c.receivedMessages {
        assert t in s && s[t] == c.starsComputers[t];
      }
      forall g | g in c.eramInboxes ensures c.eramInboxes[g] != c.receivedMessages {
        assert c.eramInboxes[g] == comps[g].receivedMessages;
      }
    }
    forall f, t | f in comps && t in comps[f].starsComputers
      ensures t !in comps[f].starsComputers[t].starsInbox
      ensures comps[f].starsComputers[t].receivedMessages !in comps[f].starsComputers[t].starsInbox.Values
    {
      var sc := comps[f].starsComputers[t];
      assert CentreTerminalsWired(comps[f], TerminalQueues(db, comps), true);
      assert sc.starsInbox == TerminalQueues(db, comps) - {t};
      assert t in s && s[t] == sc;
      forall u | u in sc.starsInbox ensures sc.starsInbox[u] != sc.receivedMessages {
        assert u in s && sc.starsInbox[u] == s[u].receivedMessages;
      }
    }
  }

  /** The objects of new computers are new. */
  twostate lemma FreshObjects(new comps: map<string, ERAMComputer>)
    requires AllFresh(comps)
    ensures forall c :: c in CentreSet(comps) ==> fresh(c)
    ensures forall sc :: sc in Terminals(comps) ==> fresh(sc)
  {
  }

  /** The last three loops of MakeERAMComputers. */
  method Wire(db: AvDatabase, comps: map<string, ERAMComputer>)
    requires Made(db, comps, comps.Keys)
    modifies CentreSet(comps)`eramInboxes, Terminals(comps)`starsInbox
    ensures Shape(db, comps) && Wired(db, comps)
    ensures forall f :: f in comps ==> EmptyCentre(comps[f])
    ensures forall f, t :: f in comps && t in comps[f].starsComputers ==> EmptyTerminal(comps[f].starsComputers[t])
  {
    assert forall f :: f in comps ==> Initial(comps[f]);
    WireCentresKeep(db, comps);
    var all := CollectTerminalQueues(db, comps);
    WireTerminalsKeep(db, comps, all);
  }

  /** WireCentres, which leaves the STARS computers and the tables as they are. */
  method WireCentresKeep(db: AvDatabase, comps: map<string, ERAMComputer>)
    requires Shape(db, comps) && forall f :: f in comps ==> Initial(comps[f])
    modifies CentreSet(comps)`eramInboxes
    ensures TerminalsWiredBut(comps, map[], comps.Keys)
    ensures CentresWired(comps) && UpWired(comps)
    ensures forall f :: f in comps ==> EmptyCentre(comps[f])
    ensures forall f, t :: f in comps && t in comps[f].starsComputers ==> EmptyTerminal(comps[f].starsComputers[t])
  {
    InitialParts(comps);
    WireCentres(db, comps);
  }

  /** What the initial state of every computer says about the wiring
      still to come and the tables. */
  lemma InitialParts(comps: map<string, ERAMComputer>)
    requires forall f :: f in comps ==> Initial(comps[f])
    ensures TerminalsWiredBut(comps, map[], comps.Keys) && UpWired(comps)
    ensures forall f :: f in comps ==> EmptyCentre(comps[f])
    ensures forall f, t :: f in comps && t in comps[f].starsComputers ==> EmptyTerminal(comps[f].starsComputers[t])
  {
    forall f | f in comps
      ensures CentreTerminalsWired(comps[f], map[], false)
      ensures EmptyCentre(comps[f])
      ensures forall t :: t in comps[f].starsComputers ==> EmptyTerminal(comps[f].starsComputers[t])
    {
      assert Initial(comps[f]);
    }
  }

  /** WireTerminals, which leaves the centres and the tables as they are. */
  method WireTerminalsKeep(db: AvDatabase, comps: map<string, ERAMComputer>, all: map<string, Inbox>)
    requires Shape(db, comps) && TerminalsWiredBut(comps, map[], comps.Keys)
    requires CentresWired(comps) && UpWired(comps)
    requires forall f :: f in comps ==> EmptyCentre(comps[f])
    requires forall f, t :: f in comps && t in comps[f].starsComputers ==> EmptyTerminal(comps[f].starsComputers[t])
    modifies Terminals(comps)`starsInbox
    ensures TerminalsWiredBut(comps, all, {})
    ensures CentresWired(comps) && UpWired(comps)
    ensures forall f :: f in comps ==> EmptyCentre(comps[f])
    ensures forall f, t :: f in comps && t in comps[f].starsComputers ==> EmptyTerminal(comps[f].starsComputers[t])
  {
    WireTerminals(db, comps, all);
  }

  /** The computers of two centres are distinct, and so are their STARS
      computers and the queues of either kind. */
  lemma CentresApart(db: AvDatabase, comps: map<string, ERAMComputer>, f: string, g: string)
    requires Shape(db, comps) && f in comps && g in comps && f != g
    ensures comps[f] != comps[g]
    ensures forall t :: t in comps[g].starsComputers ==>
              && comps[g].starsComputers[t] !in comps[f].starsComputers.Values
              && comps[g].starsComputers[t].receivedMessages != comps[f].receivedMessages
              && forall u :: u in comps[f].starsComputers ==>
                   comps[f].starsComputers[u].receivedMessages != comps[g].starsComputers[t].receivedMessages
  {
    var s := StarsOf(db, comps);
    forall t | t in comps[g].starsComputers
      ensures comps[g].starsComputers[t] !in comps[f].starsComputers.Values
      ensures comps[g].starsComputers[t].receivedMessages != comps[f].receivedMessages
      ensures forall u :: u in comps[f].starsComputers ==>
                comps[f].starsComputers[u].receivedMessages != comps[g].starsComputers[t].receivedMessages
    {
      assert t in s && s[t] == comps[g].starsComputers[t];
      forall u | u in comps[f].starsComputers
        ensures comps[f].starsComputers[u] != comps[g].starsComputers[t]
        ensures comps[f].starsComputers[u].receivedMessages != comps[g].starsComputers[t].receivedMessages
      {
        assert u in s && s[u] == comps[f].starsComputers[u];
      }
    }
  }

  /** The STARS computers of one centre are distinct and have distinct
      queues, none of them the centre's own. */
  lemma TerminalsApart(db: AvDatabase, comps: map<string, ERAMComputer>, f: string)
    requires Shape(db, comps) && f in comps
    ensures forall t, u :: t in comps[f].starsComputers && u in comps[f].starsComputers && t != u ==>
              && comps[f].starsComputers[t] != comps[f].starsComputers[u]
              && comps[f].starsComputers[t].receivedMessages != comps[f].starsComputers[u].receivedMessages
  {
    var s := StarsOf(db, comps);
    forall t, u | t in comps[f].starsComputers && u in comps[f].starsComputers && t != u
      ensures comps[f].starsComputers[t] != comps[f].starsComputers[u]
      ensures comps[f].starsComputers[t].receivedMessages != comps[f].starsComputers[u].receivedMessages
    {
      assert t in s && s[t] == comps[f].starsComputers[t];
      assert u in s && s[u] == comps[f].starsComputers[u];
    }
  }

  /** Every STARS computer of the centre has a cleared queue. */
  predicate TerminalsCleared(c: ERAMComputer)
    reads set t | t in c.starsComputers :: c.starsComputers[t].receivedMessages
  {
    forall t :: t in c.starsComputers ==> Cleared(c.starsComputers[t].receivedMessages.msgs)
  }

  /** The STARS computers of a centre, as a frame. */
  ghost function TerminalSet(c: ERAMComputer): set<STARSComputer>
  {
    set t | t in c.starsComputers :: c.starsComputers[t]
  }

  /** The computers of the other centres, and their STARS computers, are
      not those of centre `fac`. */
  ghost predicate Separate(comps: map<string, ERAMComputer>, fac: string)
    requires fac in comps
  {
    forall g :: g in comps && g != fac ==>
      && comps[g] != comps[fac]
      && forall t :: t in comps[g].starsComputers ==> comps[g].starsComputers[t] !in comps[fac].starsComputers.Values
  }

  /** Centre `c` and its STARS computers hold the tables they held on
      entry. */
  twostate predicate Kept(c: ERAMComputer)
    reads c`trackInformation, TerminalSet(c)`trackInformation
  {
    && c.trackInformation == old(c.trackInformation)
    && forall sc :: sc in c.starsComputers.Values ==> sc.trackInformation == old(sc.trackInformation)
  }

  /** Centre `c` and its STARS computers hold the tables they held on
      entry less the aircraft's tracks. */
  twostate predicate Deleted(c: ERAMComputer, ac: Aircraft)
    reads c`trackInformation, TerminalSet(c)`trackInformation
  {
    && c.trackInformation == Without(old(c.trackInformation), old(AircraftKeys(c.trackInformation, ac)))
    && forall sc :: sc in c.starsComputers.Values ==>
         sc.trackInformation == Without(old(sc.trackInformation), old(AircraftKeys(sc.trackInformation, ac)))
  }

  /** The loop of ERAMComputers.CompletelyDeleteAircraft, over centres
      whose computers are apart: each centre drops the aircraft's tracks
      from its table and from those of its STARS computers. */
  method DeleteAll(comps: map<string, ERAMComputer>, ac: Aircraft)
    requires forall f :: f in comps ==> Separate(comps, f)
    modifies CentreSet(comps)`trackInformation, Terminals(comps)`trackInformation
    ensures forall f :: f in comps ==> Deleted(comps[f], ac)
  {
    var remaining := comps.Keys;
    while remaining != {}
      invariant remaining <= comps.Keys
      invariant forall f :: f in comps ==> if f in remaining then Kept(comps[f]) else Deleted(comps[f], ac)
      decreases remaining
    {
      ghost var some := Member(remaining);
      var fac :| fac in remaining;
      var comp := comps[fac];
      assert AircraftKeys(comp.trackInformation, ac) == old(AircraftKeys(comp.trackInformation, ac));
      forall sc | sc in comp.starsComputers.Values
        ensures AircraftKeys(sc.trackInformation, ac) == old(AircraftKeys(sc.trackInformation, ac))
      {
      }
      comp.CompletelyDeleteAircraft(ac);
      assert Deleted(comp, ac);
      forall f | f in comps && f != fac
        ensures if f in remaining then Kept(comps[f]) else Deleted(comps[f], ac)
      {
        assert comps[f] != comp;
      }
      remaining := remaining - {fac};
    }
  }

  /** Every queue of the centres and of their STARS computers. */
  ghost function QueuesOf(comps: map<string, ERAMComputer>): set<Inbox>
  {
    (set f | f in comps :: comps[f].receivedMessages) +
    (set f, t | f in comps && t in comps[f].starsComputers :: comps[f].starsComputers[t].receivedMessages)
  }

  /** The NAS code pools of the centres. */
  ghost function PoolsOf(comps: map<string, ERAMComputer>): set<SquawkPool>
  {
    set f | f in comps :: comps[f].availableSquawks
  }

  /** Every plan the centres' tables reference. */
  ghost function PlanObjects(comps: map<string, ERAMComputer>): set<FlightPlanRef?>
    reads CentreSet(comps)`flightPlans, CentreSet(comps)`trackInformation
  {
    set f, r | f in comps && r in comps[f].Refs() :: r
  }

  lemma PlanObjectsCover(comps: map<string, ERAMComputer>)
    ensures forall f :: f in comps ==> TableRefs(comps[f].trackInformation, comps[f].flightPlans) <= PlanObjects(comps)
  {
    forall f, r | f in comps && r in TableRefs(comps[f].trackInformation, comps[f].flightPlans)
      ensures r in PlanObjects(comps)
    {
      assert r in comps[f].Refs();
    }
  }

  /** Each centre's plan table, track table and pool of NAS codes. */
  ghost function PlansOf(comps: map<string, ERAMComputer>): map<string, map<Squawk, FlightPlanRef>>
    reads CentreSet(comps)`flightPlans
  {
    map f | f in comps :: comps[f].flightPlans
  }

  ghost function TracksOf(comps: map<string, ERAMComputer>): map<string, map<string, TrackInformation>>
    reads CentreSet(comps)`trackInformation
  {
    map f | f in comps :: comps[f].trackInformation
  }

  ghost function PoolContents(comps: map<string, ERAMComputer>): map<string, set<Squawk>>
    reads PoolsOf(comps)
  {
    map f | f in comps :: comps[f].availableSquawks.available
  }

  /** What Update's loop keeps holds before its first turn. */
  lemma PassStart(comps: map<string, ERAMComputer>)
    ensures Grown(comps, PlansOf(comps), PoolContents(comps))
    ensures UpdatedBut(comps, PlansOf(comps), TracksOf(comps), comps.Keys)
    ensures forall f :: f in comps ==> TableRefs(TracksOf(comps)[f], PlansOf(comps)[f]) <= PlanObjects(comps)
  {
    PlanObjectsCover(comps);
  }

  /** A computer holding the given tables references only their plans. */
  lemma RefsIn(c: ERAMComputer, tracks: map<string, TrackInformation>, plans: map<Squawk, FlightPlanRef>,
               objs: set<FlightPlanRef?>)
    requires c.trackInformation == tracks && c.flightPlans == plans && TableRefs(tracks, plans) <= objs
    ensures c.Refs() <= objs
  {
  }

  /** A centre's queue, its STARS computers' queues and the queues it
      sends to are all queues of the registry; no other centre's STARS
      queue is among them. */
  lemma OutboxesApart(db: AvDatabase, comps: map<string, ERAMComputer>, fac: string)
    requires Shape(db, comps) && CentresWired(comps) && fac in comps
    ensures comps[fac].Outboxes() + {comps[fac].receivedMessages} <= QueuesOf(comps)
    ensures forall g :: g in comps && g != fac ==>
              comps[g] != comps[fac] && TerminalQueueSet(comps[g]) !! comps[fac].Outboxes() + {comps[fac].receivedMessages}
  {
    var c := comps[fac];
    var s := StarsOf(db, comps);
    assert c.eramInboxes == PeerQueues(comps, fac);
    forall g | g in comps && g != fac
      ensures comps[g] != c && TerminalQueueSet(comps[g]) !! c.Outboxes() + {c.receivedMessages}
    {
      CentresApart(db, comps, fac, g);
      forall t | t in comps[g].starsComputers
        ensures comps[g].starsComputers[t].receivedMessages !in c.eramInboxes.Values
      {
        assert t in s && s[t] == comps[g].starsComputers[t];
        forall h | h in c.eramInboxes ensures c.eramInboxes[h] != comps[g].starsComputers[t].receivedMessages {
          assert c.eramInboxes[h] == comps[h].receivedMessages;
        }
      }
    }
  }

  /** What a turn of Update needs of the wiring. */
  lemma StepReady(db: AvDatabase, comps: map<string, ERAMComputer>, fac: string)
    requires Shape(db, comps) && Wired(db, comps) && fac in comps
    ensures comps[fac].Valid()
    ensures forall t, u :: t in comps[fac].starsComputers && u in comps[fac].starsComputers && t != u ==>
              && comps[fac].starsComputers[t] != comps[fac].starsComputers[u]
              && comps[fac].starsComputers[t].receivedMessages != comps[fac].starsComputers[u].receivedMessages
    ensures forall g :: g in comps && g != fac ==>
              comps[g] != comps[fac] && TerminalQueueSet(comps[g]) !! comps[fac].Outboxes() + {comps[fac].receivedMessages}
    ensures comps[fac].Outboxes() + {comps[fac].receivedMessages} <= QueuesOf(comps)
  {
    WiredNotSelf(db, comps);
    TerminalsApart(db, comps, fac);
    OutboxesApart(db, comps, fac);
  }

  /** One turn of Update's loop, for centre `fac`. */
  method UpdateTurn(db: AvDatabase, comps: map<string, ERAMComputer>, fac: string, tracon: string, simTime: int,
                    e: EventStream, ghost plans0: map<string, map<Squawk, FlightPlanRef>>,
                    ghost tracks0: map<string, map<string, TrackInformation>>,
                    ghost pools0: map<string, set<Squawk>>, ghost objs0: set<FlightPlanRef?>, ghost remaining: set<string>)
    returns (outcome: SortOutcome)
    requires fac in remaining && remaining <= comps.Keys
    requires Shape(db, comps) && Wired(db, comps)
    requires Grown(comps, plans0, pools0) && UpdatedBut(comps, plans0, tracks0, remaining)
    requires forall f :: f in comps ==> TableRefs(tracks0[f], plans0[f]) <= objs0
    modifies CentreSet(comps)`flightPlans, CentreSet(comps)`trackInformation
    modifies Terminals(comps)`containedPlans, Terminals(comps)`trackInformation
    modifies QueuesOf(comps), PoolsOf(comps), objs0, e
    ensures Grown(comps, plans0, pools0)
    ensures outcome == Completed ==> UpdatedBut(comps, plans0, tracks0, remaining - {fac})
    ensures forall c :: c in CentreSet(comps) ==> c.eramInboxes == old(c.eramInboxes)
    ensures forall sc :: sc in Terminals(comps) ==> sc.starsInbox == old(sc.starsInbox) && sc.eramInbox == old(sc.eramInbox)
  {
    var comp := comps[fac];
    StepReady(db, comps, fac);
    assert comp.flightPlans == plans0[fac] && comp.trackInformation == tracks0[fac];
    RefsIn(comp, tracks0[fac], plans0[fac], objs0);
    assert TerminalSet(comp) <= Terminals(comps);
    outcome := UpdateStep(comps, fac, comp, tracon, simTime, e, plans0, tracks0, pools0, remaining);
  }



  /** Every centre's plan table and code pool hold at least what they
      held in `plans0` and `pools0`. */
  ghost predicate Grown(comps: map<string, ERAMComputer>, plans0: map<string, map<Squawk, FlightPlanRef>>,
                        pools0: map<string, set<Squawk>>)
    reads CentreSet(comps)`flightPlans, PoolsOf(comps)
  {
    forall f :: f in comps ==>
      && f in plans0 && f in pools0
      && plans0[f].Keys <= comps[f].flightPlans.Keys
      && pools0[f] <= comps[f].availableSquawks.available
  }

  /** The centres in `remaining` hold the tables of `plans0` and
      `tracks0`; the others have cleared STARS queues. */
  ghost predicate UpdatedBut(comps: map<string, ERAMComputer>, plans0: map<string, map<Squawk, FlightPlanRef>>,
                             tracks0: map<string, map<string, TrackInformation>>, remaining: set<string>)
    reads CentreSet(comps)`flightPlans, CentreSet(comps)`trackInformation, QueuesOf(comps)
  {
    forall f :: f in comps ==>
      && f in plans0 && f in tracks0
      && (f in remaining ==> comps[f].flightPlans == plans0[f] && comps[f].trackInformation == tracks0[f])
      && (f !in remaining ==> TerminalsCleared(comps[f]))
  }

  /** One turn of Update: centre `fac` does its part; what the loop keeps
      still holds, with `fac` done when its turn completes. */
  method UpdateStep(comps: map<string, ERAMComputer>, fac: string, comp: ERAMComputer, tracon: string, simTime: int,
                    e: EventStream, ghost plans0: map<string, map<Squawk, FlightPlanRef>>,
                    ghost tracks0: map<string, map<string, TrackInformation>>,
                    ghost pools0: map<string, set<Squawk>>, ghost remaining: set<string>)
    returns (outcome: SortOutcome)
    requires fac in remaining && fac in comps && comp == comps[fac] && comp.Valid()
    requires forall t, u :: t in comp.starsComputers && u in comp.starsComputers && t != u ==>
               && comp.starsComputers[t] != comp.starsComputers[u]
               && comp.starsComputers[t].receivedMessages != comp.starsComputers[u].receivedMessages
    requires forall g :: g in comps && g != fac ==>
               comps[g] != comp && TerminalQueueSet(comps[g]) !! comp.Outboxes() + {comp.receivedMessages}
    requires Grown(comps, plans0, pools0) && UpdatedBut(comps, plans0, tracks0, remaining)
    modifies comp`flightPlans, comp`trackInformation, comp.availableSquawks, comp.receivedMessages, comp.Outboxes(), comp.Refs()
    modifies TerminalSet(comp)`containedPlans, TerminalSet(comp)`trackInformation, e
    ensures Grown(comps, plans0, pools0)
    ensures outcome == Completed ==> UpdatedBut(comps, plans0, tracks0, remaining - {fac})
    ensures forall c :: c in CentreSet(comps) ==> c.eramInboxes == old(c.eramInboxes)
    ensures forall sc :: sc in Terminals(comps) ==> sc.starsInbox == old(sc.starsInbox) && sc.eramInbox == old(sc.eramInbox)
  {
    ghost var done := DoneQueues(comps, remaining);
    DoneQueuesApart(comps, fac, plans0, tracks0, remaining);
    outcome := CentreTurn(comp, tracon, simTime, e, comps, fac, done);
    forall g | g in comps
      ensures g in plans0 && g in tracks0
      ensures g in remaining - {fac} ==> comps[g].flightPlans == plans0[g] && comps[g].trackInformation == tracks0[g]
      ensures g !in remaining && outcome == Completed ==> TerminalsCleared(comps[g])
    {
      if g !in remaining {
        forall t | t in comps[g].starsComputers
          ensures Cleared(comps[g].starsComputers[t].receivedMessages.msgs)
        {
          assert comps[g].starsComputers[t].receivedMessages in done;
        }
      }
    }
    assert Grown(comps, plans0, pools0);
    assert outcome == Completed ==> UpdatedBut(comps, plans0, tracks0, remaining - {fac});
  }

  /** The STARS queues of the centres that are done. */
  ghost function DoneQueues(comps: map<string, ERAMComputer>, remaining: set<string>): set<Inbox>
  {
    set g, t | g in comps && g !in remaining && t in comps[g].starsComputers ::
      comps[g].starsComputers[t].receivedMessages
  }

  lemma DoneQueuesApart(comps: map<string, ERAMComputer>, fac: string, plans0: map<string, map<Squawk, FlightPlanRef>>,
                        tracks0: map<string, map<string, TrackInformation>>, remaining: set<string>)
    requires fac in remaining && fac in comps
    requires forall g :: g in comps && g != fac ==>
               comps[g] != comps[fac] && TerminalQueueSet(comps[g]) !! comps[fac].Outboxes() + {comps[fac].receivedMessages}
    requires UpdatedBut(comps, plans0, tracks0, remaining)
    ensures DoneQueues(comps, remaining) !! comps[fac].Outboxes() + {comps[fac].receivedMessages}
    ensures forall q :: q in DoneQueues(comps, remaining) ==> Cleared(q.msgs)
  {
    forall q | q in DoneQueues(comps, remaining)
      ensures q !in comps[fac].Outboxes() + {comps[fac].receivedMessages} && Cleared(q.msgs)
    {
      var g, t :| g in comps && g !in remaining && t in comps[g].starsComputers && q == comps[g].starsComputers[t].receivedMessages;
      assert q in TerminalQueueSet(comps[g]);
    }
  }

  /** The turn of centre `fac` among the centres: the tables of the other
      centres stay as they are, every plan table and code pool only grows,
      and the queues in `done` are left alone. */
  method CentreTurn(comp: ERAMComputer, tracon: string, simTime: int, e: EventStream,
                    ghost comps: map<string, ERAMComputer>, ghost fac: string, ghost done: set<Inbox>)
    returns (outcome: SortOutcome)
    requires comp.Valid() && fac in comps && comp == comps[fac]
    requires forall g :: g in comps && g != fac ==> comps[g] != comp
    requires forall t, u :: t in comp.starsComputers && u in comp.starsComputers && t != u ==>
               && comp.starsComputers[t] != comp.starsComputers[u]
               && comp.starsComputers[t].receivedMessages != comp.starsComputers[u].receivedMessages
    requires done !! comp.Outboxes() + {comp.receivedMessages}
    modifies comp`flightPlans, comp`trackInformation, comp.availableSquawks, comp.receivedMessages, comp.Outboxes(), comp.Refs()
    modifies TerminalSet(comp)`containedPlans, TerminalSet(comp)`trackInformation, e
    ensures forall g :: g in comps ==>
              && old(comps[g].flightPlans).Keys <= comps[g].flightPlans.Keys
              && old(comps[g].availableSquawks.available) <= comps[g].availableSquawks.available
    ensures forall g :: g in comps && g != fac ==>
              comps[g].flightPlans == old(comps[g].flightPlans) && comps[g].trackInformation == old(comps[g].trackInformation)
    ensures outcome == Completed ==> TerminalsCleared(comp)
    ensures forall c :: c in CentreSet(comps) ==> c.eramInboxes == old(c.eramInboxes)
    ensures forall sc :: sc in Terminals(comps) ==>
              sc.starsInbox == old(sc.starsInbox) && sc.eramInbox == old(sc.eramInbox)
    ensures forall q :: q in done ==> q.msgs == old(q.msgs)
  {
    outcome := TurnOf(comp, tracon, simTime, e, CentreSet(comps), Terminals(comps), done);
  }

  /** A turn of Update for one centre, which leaves the queues in `done`
      alone. */
  method TurnOf(comp: ERAMComputer, tracon: string, simTime: int, e: EventStream, ghost centres: set<ERAMComputer>,
                ghost others: set<STARSComputer>, ghost done: set<Inbox>) returns (outcome: SortOutcome)
    requires comp.Valid()
    requires forall t, u :: t in comp.starsComputers && u in comp.starsComputers && t != u ==>
               && comp.starsComputers[t] != comp.starsComputers[u]
               && comp.starsComputers[t].receivedMessages != comp.starsComputers[u].receivedMessages
    requires done !! comp.Outboxes() + {comp.receivedMessages}
    modifies comp`flightPlans, comp`trackInformation, comp.availableSquawks, comp.receivedMessages, comp.Outboxes(), comp.Refs()
    modifies TerminalSet(comp)`containedPlans, TerminalSet(comp)`trackInformation, e
    ensures old(comp.flightPlans).Keys <= comp.flightPlans.Keys
    ensures old(comp.availableSquawks.available) <= comp.availableSquawks.available
    ensures outcome == Completed ==> TerminalsCleared(comp)
    ensures forall c :: c in centres ==> c.eramInboxes == old(c.eramInboxes)
    ensures forall c :: c in centres && c != comp ==>
              c.flightPlans == old(c.flightPlans) && c.trackInformation == old(c.trackInformation)
    ensures forall c :: c in centres ==> old(c.availableSquawks.available) <= c.availableSquawks.available
    ensures forall sc :: sc in others ==>
              sc.starsInbox == old(sc.starsInbox) && sc.eramInbox == old(sc.eramInbox)
    ensures forall q :: q in done ==> q.msgs == old(q.msgs)
  {
    outcome := UpdateCentre(comp, tracon, simTime, e, centres, others);
  }

  /** The queues of a centre's STARS computers. */
  ghost function TerminalQueueSet(c: ERAMComputer): set<Inbox>
  {
    set t | t in c.starsComputers :: c.starsComputers[t].receivedMessages
  }

  /** One turn of Update's loop: the centre sorts its queue and sends the
      plans that are due, then each of its STARS computers sorts its own
      queue, so that what the centre sent is already read. */
  method UpdateCentre(comp: ERAMComputer, tracon: string, simTime: int, e: EventStream, ghost centres: set<ERAMComputer>,
                      ghost others: set<STARSComputer>) returns (outcome: SortOutcome)
    requires comp.Valid()
    requires forall t, u :: t in comp.starsComputers && u in comp.starsComputers && t != u ==>
               && comp.starsComputers[t] != comp.starsComputers[u]
               && comp.starsComputers[t].receivedMessages != comp.starsComputers[u].receivedMessages
    modifies comp`flightPlans, comp`trackInformation, comp.availableSquawks, comp.receivedMessages, comp.Outboxes(), comp.Refs()
    modifies TerminalSet(comp)`containedPlans, TerminalSet(comp)`trackInformation, e
    ensures old(comp.flightPlans).Keys <= comp.flightPlans.Keys
    ensures old(comp.availableSquawks.available) <= comp.availableSquawks.available
    ensures outcome == Completed ==> TerminalsCleared(comp)
    ensures forall c :: c in centres ==> c.eramInboxes == old(c.eramInboxes)
    ensures forall sc :: sc in others ==>
              sc.starsInbox == old(sc.starsInbox) && sc.eramInbox == old(sc.eramInbox)
  {
    outcome := SortAndSend(comp, tracon, simTime, centres, others);
    if outcome == Panicked {
      return;
    }
    assert TerminalQueueSet(comp) <= comp.Outboxes();
    SortTerminals(comp, e, centres, others);
  }

  /** The centre's part of a turn: SortMessages, then SendFlightPlans. */
  method SortAndSend(comp: ERAMComputer, tracon: string, simTime: int, ghost centres: set<ERAMComputer>, ghost others: set<STARSComputer>) returns (outcome: SortOutcome)
    requires comp.Valid()
    modifies comp`flightPlans, comp`trackInformation, comp.availableSquawks, comp.receivedMessages, comp.Outboxes(), comp.Refs()
    ensures old(comp.flightPlans).Keys <= comp.flightPlans.Keys
    ensures old(comp.availableSquawks.available) <= comp.availableSquawks.available
    ensures forall c :: c in centres ==> c.eramInboxes == old(c.eramInboxes)
    ensures forall sc :: sc in others ==>
              sc.starsInbox == old(sc.starsInbox) && sc.eramInbox == old(sc.eramInbox)
  {
    ghost var created;
    outcome, created := SortPart(comp, simTime, centres, others);
    if outcome == Panicked {
      return;
    }
    SendPart(comp, tracon, simTime, centres, others);
  }

  /** SortMessages, which leaves every STARS computer's queue maps alone. */
  method SortPart(comp: ERAMComputer, simTime: int, ghost centres: set<ERAMComputer>, ghost others: set<STARSComputer>) returns (outcome: SortOutcome, ghost created: set<FlightPlanRef?>)
    requires comp.Valid()
    modifies comp`flightPlans, comp`trackInformation, comp.availableSquawks, comp.receivedMessages, comp.Outboxes()
    ensures old(comp.flightPlans).Keys <= comp.flightPlans.Keys
    ensures old(comp.availableSquawks.available) <= comp.availableSquawks.available
    ensures outcome == Completed ==> TrackRefs(comp.trackInformation) + comp.flightPlans.Values <= old(comp.Refs()) + created
    ensures fresh(created)
    ensures forall c :: c in centres ==> c.eramInboxes == old(c.eramInboxes)
    ensures forall sc :: sc in others ==>
              sc.starsInbox == old(sc.starsInbox) && sc.eramInbox == old(sc.eramInbox)
  {
    ghost var handled;
    outcome, handled, created := comp.SortMessages(simTime);
    if outcome == Completed {
      assert TrackRefs(comp.trackInformation) + comp.flightPlans.Values == comp.Refs();
    }
  }

  /** SendFlightPlans, which leaves every STARS computer's queue maps alone. */
  method SendPart(comp: ERAMComputer, tracon: string, simTime: int, ghost centres: set<ERAMComputer>, ghost others: set<STARSComputer>)
    modifies comp`trackInformation, TrackRefs(comp.trackInformation), comp.flightPlans.Values, comp.Outboxes()
    ensures comp.flightPlans == old(comp.flightPlans)
    ensures forall c :: c in centres ==> c.eramInboxes == old(c.eramInboxes)
    ensures forall sc :: sc in others ==>
              sc.starsInbox == old(sc.starsInbox) && sc.eramInbox == old(sc.eramInbox)
  {
    ghost var sent := comp.SendFlightPlans(tracon, simTime);
  }


  /** The STARS part of a turn: every STARS computer of the centre sorts
      its queue, which leaves every one of them cleared. */
  method SortTerminals(comp: ERAMComputer, e: EventStream, ghost centres: set<ERAMComputer>, ghost others: set<STARSComputer>)
    requires forall t, u :: t in comp.starsComputers && u in comp.starsComputers && t != u ==>
               && comp.starsComputers[t] != comp.starsComputers[u]
               && comp.starsComputers[t].receivedMessages != comp.starsComputers[u].receivedMessages
    modifies TerminalSet(comp)`containedPlans, TerminalSet(comp)`trackInformation, e, TerminalQueueSet(comp)
    ensures TerminalsCleared(comp)
    ensures forall c :: c in centres ==> c.eramInboxes == old(c.eramInboxes)
    ensures forall sc :: sc in others ==>
              sc.starsInbox == old(sc.starsInbox) && sc.eramInbox == old(sc.eramInbox)
  {
    var remaining := comp.starsComputers.Keys;
    while remaining != {}
      invariant remaining <= comp.starsComputers.Keys
      invariant forall t :: t in comp.starsComputers && t !in remaining ==>
                  Cleared(comp.starsComputers[t].receivedMessages.msgs)
      decreases remaining
    {
      ghost var some := Member(remaining);
      var t :| t in remaining;
      var sc := comp.starsComputers[t];
      label before:
      sc.SortReceivedMessages(e);
      forall u | u in comp.starsComputers && u !in remaining - {t}
        ensures Cleared(comp.starsComputers[u].receivedMessages.msgs)
      {
        if u != t {
          assert comp.starsComputers[u].receivedMessages != sc.receivedMessages;
          assert comp.starsComputers[u].receivedMessages.msgs == old@before(comp.starsComputers[u].receivedMessages.msgs);
        }
      }
      remaining := remaining - {t};
    }
  }

  /** MakeERAMComputers: a computer for every centre with an adaptation,
      then the wiring of the queues. */
  method MakeERAMComputers(starsBeaconBank: int, db: AvDatabase) returns (ec: ERAMComputers)
    ensures ec.db == db && ec.computers.Keys == db.eramAdaptations.Keys
    ensures ec.Valid()
    ensures forall f :: f in ec.computers ==> Empty(ec.computers[f])
  {
    var comps := MakeComputers(starsBeaconBank, db);
    assert Made(db, comps, comps.Keys);
    FreshObjects(comps);
    Wire(db, comps);
    forall f | f in comps ensures Empty(comps[f]) {
      assert EmptyCentre(comps[f]);
    }
    ec := ERAMComputers(comps, db);
  }

  /** ERAMComputers: the ERAM computer of every centre, by ARTCC, beside
      av.DB, which the lookups consult. The value itself never changes; the
      computers it points to do. */
  datatype ERAMComputers = ERAMComputers(computers: map<string, ERAMComputer>, db: AvDatabase)
  {
    ghost predicate Valid()
      reads CentreSet(computers)`eramInboxes, Terminals(computers)`starsInbox, Terminals(computers)`eramInbox
    {
      Shape(db, computers) && Wired(db, computers)
    }

    /** The lookup of a facility does not panic: a TRACON that is no
        centre belongs to a centre with a computer, whose computer has a
        STARS computer for it. */
    predicate Resolvable(fac: string)
    {
      fac !in computers && fac in db.tracons ==>
        db.tracons[fac] in computers && fac in computers[db.tracons[fac]].starsComputers
    }

    /** FacilityComputers: a centre gives its own computer and no STARS
        computer; a TRACON gives its centre's computer and its STARS
        computer; any other id is unknown. A centre id wins over a TRACON
        id of the same name. */
    function FacilityComputers(fac: string): (r: Result<(ERAMComputer, STARSComputer?)>)
      requires Resolvable(fac)
      ensures r.Err? <==> fac !in computers && fac !in db.tracons
      ensures r.Err? ==> r.error == ErrUnknownFacility
      ensures r.Ok? ==> r.value.0 in computers.Values
      ensures r.Ok? ==> (r.value.1 == null <==> fac in computers)
      ensures r.Ok? && fac in computers ==> r.value.0 == computers[fac]
      ensures r.Ok? && r.value.1 != null ==>
                r.value.0 == computers[db.tracons[fac]] && r.value.1 in r.value.0.starsComputers.Values
    {
      if fac in computers then Ok((computers[fac], null))
      else if fac !in db.tracons then Err(ErrUnknownFacility)
      else
        var eram := computers[db.tracons[fac]];
        Ok((eram, eram.starsComputers[fac]))
    }

    /** In a registry MakeERAMComputers built, the lookup finds the
        computers of the very facility asked for: the centre's own computer,
        or the STARS computer of that TRACON and the computer of the centre
        the TRACON belongs to. */
    lemma FacilityComputersIdentify(fac: string)
      requires Shape(db, computers) && Resolvable(fac)
      ensures fac in computers ==> FacilityComputers(fac).value.0.identifier == fac
      ensures fac !in computers && fac in db.tracons ==>
                && FacilityComputers(fac).Ok?
                && FacilityComputers(fac).value.1 != null
                && FacilityComputers(fac).value.1.identifier == fac
                && FacilityComputers(fac).value.0.identifier == db.tracons[fac]
    {
      if fac !in computers && fac in db.tracons {
        assert CentreShape(db, db.tracons[fac], computers[db.tracons[fac]]);
      }
    }

    /** Every TRACON under a centre with a computer can be looked up. */
    lemma ShapeResolvable(fac: string)
      requires Shape(db, computers)
      requires fac in db.tracons ==> db.tracons[fac] in computers
      ensures Resolvable(fac)
    {
      if fac !in computers && fac in db.tracons {
        assert CentreShape(db, db.tracons[fac], computers[db.tracons[fac]]);
      }
    }

    /** The STARS computer the lookup gives, as a frame. */
    function TerminalOf(fac: string): set<STARSComputer>
      requires Resolvable(fac)
    {
      var r := FacilityComputers(fac);
      if r.Ok? && r.value.1 != null then {r.value.1} else {}
    }

    /** The lookup gives a STARS computer holding a track for the callsign
        (the source dereferences that track). */
    predicate TrackHeldAt(callsign: string, facility: string)
      requires Resolvable(facility)
      reads TerminalOf(facility)
    {
      var r := FacilityComputers(facility);
      r.Ok? ==> r.value.1 != null && callsign in r.value.1.trackInformation
    }

    /** SetScratchpad: the first scratchpad of the callsign's track at the
        TRACON; an unknown facility is reported and changes nothing. */
    method SetScratchpad(callsign: string, facility: string, scratchpad: string) returns (err: Option<Error>)
      requires Resolvable(facility) && TrackHeldAt(callsign, facility)
      modifies TerminalOf(facility)`trackInformation
      ensures err.Some? <==> FacilityComputers(facility).Err?
      ensures err.Some? ==> err.value == ErrUnknownFacility
      ensures err.None? ==>
                var sc := FacilityComputers(facility).value.1;
                sc.trackInformation == old(sc.trackInformation)[callsign := old(sc.trackInformation[callsign]).(sp1 := scratchpad)]
    {
      var r := FacilityComputers(facility);
      if r.Err? {
        return Some(r.error);
      }
      r.value.1.SetScratchpad(callsign, scratchpad, false);
      return None;
    }

    /** SetSecondaryScratchpad: the same for the second scratchpad. */
    method SetSecondaryScratchpad(callsign: string, facility: string, scratchpad: string) returns (err: Option<Error>)
      requires Resolvable(facility) && TrackHeldAt(callsign, facility)
      modifies TerminalOf(facility)`trackInformation
      ensures err.Some? <==> FacilityComputers(facility).Err?
      ensures err.Some? ==> err.value == ErrUnknownFacility
      ensures err.None? ==>
                var sc := FacilityComputers(facility).value.1;
                sc.trackInformation == old(sc.trackInformation)[callsign := old(sc.trackInformation[callsign]).(sp2 := scratchpad)]
    {
      var r := FacilityComputers(facility);
      if r.Err? {
        return Some(r.error);
      }
      r.value.1.SetScratchpad(callsign, scratchpad, true);
      return None;
    }

    /** GetSTARSFlightPlan: the plan a TRACON holds for a beacon code or a
        callsign. The source dereferences the STARS computer, so the
        facility must not be a centre. */
    method GetSTARSFlightPlan(tracon: string, identifier: string) returns (fp: FlightPlanRef?, err: Option<Error>)
      requires Resolvable(tracon)
      requires FacilityComputers(tracon).Ok? ==> FacilityComputers(tracon).value.1 != null
      ensures FacilityComputers(tracon).Err? ==> fp == null && err == Some(ErrUnknownFacility)
      ensures FacilityComputers(tracon).Ok? ==>
                var sc := FacilityComputers(tracon).value.1;
                && (err == None || err == Some(ErrNoMatchingFlight))
                && (err == None <==> fp != null)
                && (err == None ==> fp in sc.containedPlans.Values)
                && (db.parseSquawk(identifier).Some? ==>
                      (err == None <==> db.parseSquawk(identifier).value in sc.containedPlans) &&
                      (err == None ==> fp == sc.containedPlans[db.parseSquawk(identifier).value]))
                && (db.parseSquawk(identifier).None? ==>
                      (err == None <==> exists sq :: sq in sc.containedPlans &&
                                                     sc.containedPlans[sq].plan.base.callsign == identifier) &&
                      (err == None ==> fp.plan.base.callsign == identifier))
    {
      var r := FacilityComputers(tracon);
      if r.Err? {
        return null, Some(r.error);
      }
      fp, err := r.value.1.GetFlightPlan(identifier, db.parseSquawk);
    }

    /** CompletelyDeleteAircraft: every ERAM and STARS computer drops the
        tracks of the aircraft and keeps all the others. */
    method CompletelyDeleteAircraft(ac: Aircraft)
      requires Valid()
      modifies CentreSet(computers)`trackInformation, Terminals(computers)`trackInformation
      ensures forall f :: f in computers ==>
                computers[f].trackInformation ==
                  Without(old(computers[f].trackInformation), old(AircraftKeys(computers[f].trackInformation, ac)))
      ensures forall f, sc :: f in computers && sc in computers[f].starsComputers.Values ==>
                sc.trackInformation == Without(old(sc.trackInformation), old(AircraftKeys(sc.trackInformation, ac)))
    {
      forall f | f in computers ensures Separate(computers, f) {
        forall g | g in computers && g != f {
          CentresApart(db, computers, f, g);
        }
      }
      DeleteAll(computers, ac);
    }

    /** Update: centre by centre, the centre sorts its queue and sends what
        is due, then its STARS computers sort theirs. A panic in a centre's
        sort ends the pass. When the pass completes, every STARS queue is
        cleared; plan tables and NAS code pools only grow. */
    method Update(tracon: string, simTime: int, e: EventStream) returns (outcome: SortOutcome)
      requires Valid()
      modifies CentreSet(computers)`flightPlans, CentreSet(computers)`trackInformation
      modifies Terminals(computers)`containedPlans, Terminals(computers)`trackInformation
      modifies QueuesOf(computers), PoolsOf(computers), PlanObjects(computers), e
      ensures Valid()
      ensures forall f :: f in computers ==> old(computers[f].flightPlans).Keys <= computers[f].flightPlans.Keys
      ensures forall f :: f in computers ==>
                old(computers[f].availableSquawks.available) <= computers[f].availableSquawks.available
      ensures outcome == Completed ==> forall f :: f in computers ==> TerminalsCleared(computers[f])
    {
      outcome := Completed;
      ghost var plans0 := PlansOf(computers);
      ghost var tracks0 := TracksOf(computers);
      ghost var pools0 := PoolContents(computers);
      ghost var objs0 := PlanObjects(computers);
      PassStart(computers);
      var remaining := computers.Keys;
      while remaining != {} && outcome == Completed
        invariant remaining <= computers.Keys
        invariant forall c :: c in CentreSet(computers) ==> c.eramInboxes == old(c.eramInboxes)
        invariant forall sc :: sc in Terminals(computers) ==>
                    sc.starsInbox == old(sc.starsInbox) && sc.eramInbox == old(sc.eramInbox)
        invariant Grown(computers, plans0, pools0)
        invariant outcome == Completed ==> UpdatedBut(computers, plans0, tracks0, remaining)
        decreases remaining
      {
        ghost var some := Member(remaining);
        var fac :| fac in remaining;
        outcome := UpdateTurn(db, computers, fac, tracon, simTime, e, plans0, tracks0, pools0, objs0, remaining);
        remaining := remaining - {fac};
      }
      forall f | f in computers
        ensures old(computers[f].flightPlans).Keys <= computers[f].flightPlans.Keys
        ensures old(computers[f].availableSquawks.available) <= computers[f].availableSquawks.available
      {
        assert plans0[f] == old(computers[f].flightPlans);
        assert pools0[f] == old(computers[f].availableSquawks.available);
      }
    }
  }
}
