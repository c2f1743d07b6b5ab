# NAS flight-plan bookkeeping between ERAM and STARS computers

This project is a Dafny model of `pkg/sim/nas.go` from the vice ATC
simulator. That file keeps the books that pass flight plans and tracks
between two kinds of computer:

- the **ERAM** computer of each air-route traffic control centre (ARTCC);
- the **STARS** computer of each terminal facility (TRACON) under a centre.

The model covers these parts of the file:

- **Beacon codes** (`squawks.dfy`).
  - Codes are drawn from shared pools.
  - The NAS pool belongs to an ERAM computer. It holds every code from
    0o1001 to 0o7777 except the special-purpose codes and the VFR code 0o1200.
  - The beacon-bank pool is shared by all STARS computers of one centre.
    It holds `bank*0o100+1` through `bank*0o100+0o77`.
- **Messages** (`messages.dfy`).
  - A `FlightPlanMessage` is built from a `STARSFlightPlan` and read back.
  - The departure message answers a flight-plan request.
  - The source id is stamped as facility + `HHMM` + `Z`.
- **The STARS computer** (`stars.dfy`).
  - It holds plans by beacon code and tracks by callsign.
  - It handles its queue of received messages by type: plan, amendment,
    cancellation, transfer initiation, and transfer accept/recall.
  - It posts accept/reject events and then clears its queue.
  - It also routes messages, looks up plans and deletes an aircraft's tracks.
- **The ERAM computer** (`eram.dfy`).
  - It handles its queue (`SortMessages`): storing and forwarding plans,
    answering plan requests, forwarding transfers and returning recalls.
  - It sends plans to the facility their coordination fix leads to once the
    coordination time is within 30 minutes (`SendFlightPlans`).
  - It deletes an aircraft's tracks.
- **The registry of computers** (`registry.dfy`).
  - It makes one ERAM computer per adapted centre.
  - It wires every queue to every peer, never to itself.
  - It resolves a facility id to its computers and runs the per-tick update.
  - It also sets scratchpads, looks up a TRACON's plans and deletes an aircraft.
- **The abbreviated flight-plan parser** (`parser.dfy`).
  - It classifies the tokens of a controller entry one by one; the first
    match wins.
- **The route-based pass of the coordination-fix lookup** (`adaptation.dfy`).

## How the source is represented

Things the source updates in place are classes:

- the computers, the message queues (`Inbox`), the code pools
  (`SquawkPool`), the plans (`FlightPlanRef`) and the event stream.

Sharing is kept as it is in the source:

- A STARS computer's ERAM queue *is* its centre's queue.
- Peers hold pointers to one another's queues.
- One code pool serves all the STARS computers of a centre.
- The tables and the track entries point to the same plan objects.

Values are datatypes: messages, track entries and the parsed fields.

Go `clear` on a slice keeps its length and zeroes every slot. It is
modelled as `Zeros(n)`, a queue of `n` zero messages (`Cleared`).

Time is an integer number of seconds.

The outside world is passed in as parameters:

- The aviation database and its helpers are one `AvDatabase` value:
  - the TRACON-to-centre table and the ERAM adaptations;
  - the aircraft-performance table;
  - `SquawkIsSPC`, `ParseSquawk` and `TypeWithoutSuffix`.
- The adaptation's fix lookups are functions inside the adaptation values.

Go map iteration order is unspecified, and the model does not fix one:

- Every loop over a map picks some remaining key (`:|`).
- Every contract holds for all orders.

### Panics

The source panics in several places. Each is modelled as an outcome:

- `SortMessages` panics on a zero beacon code, a source id shorter than
  three characters, or a nil track or plan dereference.
  - The model returns `Panicked`; the pass stops and the queue is not cleared.
  - `Update` stops its pass there too.
- The parser panics on an empty token list, a token its slicing cannot
  handle, and an aircraft field with an empty part.
  - The model returns `panicked`.

Four panics are preconditions instead, because the model cannot recover
from them:

- the centre lookup inside `FacilityComputers` (`Resolvable`);
- a scratchpad set on a missing track (`TrackHeldAt`);
- a STARS dereference on a centre id (`GetSTARSFlightPlan`);
- a nil `ERAMInbox` dereference in `SendToOverlyingERAMFacility`
  (nas.go:390), reached also from `SendTrackInfo` and `RequestFlightPlan`
  (`eramInbox != null`). `UpWired` holds of every registry built by
  `MakeERAMComputers`, which discharges it at every call site.

### Surprises in the code

The model follows the code in each case.

- **`".V"` and `"P3"` never reach their branches.** The token loop takes
  every two-byte token as the controlling position and moves on to the next
  token (nas.go:941-944). The branch for a flight type with an airport
  (nas.go:958-964) and the flight-rules branch (nas.go:1043-1059) test for
  two-byte tokens too, so they come later and can never run. A parse never
  sets the rules or the departure airport.
  - `Parser.ParsedFields` proves this for every input.
  - `Parser.ExampleEntry` works out the entry `UAL123 1234 P35 B738 .V`:
    `.V` becomes the controlling position and the rules stay unknown.
- **A blacklisted scratchpad does not always stop the parse.** A token such
  as `NAT` reaches the blacklist test only when the facility allows long
  first scratchpads. This is because the triangle-prefixed form needs 4–5
  bytes. Otherwise the token changes nothing (`Parser.BadScratchpadStops`).
- **A one-byte `A`/`P`/`E` token does not end its turn.** It sets the type
  of flight and then falls through to the later tests.
- **A relayed plan answers a request with altitude `0` or `VFR/0`.** The
  departure message reads the integer altitude of the embedded plan, which
  a plan read from a message never sets (`Messages.RelayedPlanAltitude`).
- **Nil dereferences in the ERAM sort.** At nas.go:260 and 296 they are
  modelled as the `Panicked` outcome, not as preconditions. A
  precondition would make `SortMessages` uncallable on the queues the
  source actually receives.

## Model

| member | source | states |
|---|---|---|
| Squawks.ValidSquawkCodes | pkg/sim/nas.go:95-105 | The NAS pool holds exactly the codes 0o1001–0o7777 that are neither special-purpose nor 0o1200. |
| Squawks.BeaconBankSquawks | pkg/sim/nas.go:107-114 | A bank pool holds exactly bank·0o100+1 … bank·0o100+0o77. |
| Squawks.BankCodesSize | pkg/sim/nas.go:107-114 | A bank pool has exactly 63 codes and never the bank's base code. |
| Squawks.NasCodesBounds | pkg/sim/nas.go:95-105 | The NAS pool never holds the VFR code, stays in 0o1001–0o7777, and has at most 0o7777−0o1001 codes. |
| Squawks.RangeSize | pkg/sim/nas.go:110 | The integers lo..hi−1 number hi−lo, which sizes the code loops. |
| Squawks.SquawkPool.constructor | pkg/sim/nas.go:77-81 | A pool starts with exactly the codes it is given. |
| Squawks.SquawkPool.CreateSquawk | pkg/sim/nas.go:117-124 | A non-empty pool gives one of its codes and loses only that code; an empty pool gives 0 and ErrNoMoreAvailableSquawkCodes and is unchanged. |
| Squawks.SquawkPool.Insert | pkg/sim/nas.go:257 | Assigning nil into the code map puts the code into the pool; it does not remove it. |
| Messages.Inbox.Append | pkg/sim/nas.go:389-391 | Appending to a queue adds exactly that message at the end. |
| Messages.Zeros | pkg/sim/nas.go:307 | Clearing a queue keeps its length, and every slot is the zero message. |
| Messages.ZerosArePlansWithoutCode | pkg/sim/nas.go:307 | Every slot of a cleared queue is a Plan message with beacon code 0. |
| Messages.CountType | pkg/sim/nas.go:241 | The number of messages of one type is at most the queue's length. |
| Messages.CountTypeAppend | pkg/sim/nas.go:241 | Counting the messages of one type is additive over the two parts of a queue. |
| Messages.FormatSourceID | pkg/sim/nas.go:385-387 | The id is the facility id, then the two-digit UTC hour and minute of the time, then 'Z'. |
| Messages.SourceFacilityReadBack | pkg/sim/nas.go:232 | Reading the first three characters of a source id gives back a three-letter sending facility. |
| Messages.ToFlightPlanFields | pkg/sim/nas.go:876-898 | A message read as a plan keeps its code, route, altitude, fix, time and airports. It has VFR rules exactly when the altitude contains "VFR" and IFR otherwise. It splits the flight id into a 3-character ECID and the callsign when the id is longer than 3. |
| Messages.PlanRoundTrip | pkg/sim/nas.go:876-898 | Plan → message → plan keeps code, route, altitude, fix, time and airports. It recovers ECID and callsign when the ECID has 3 characters and the callsign is not empty. It sets VFR exactly when the altitude says "VFR". |
| Messages.MessageRoundTrip | pkg/sim/nas.go:560-577 | Message → plan → message keeps code, route, altitude, fix, time and airports, and sets one aircraft. It keeps the flight id when that is longer than 3, and gives an empty id otherwise. |
| Messages.NumberHasNoVFR | pkg/sim/nas.go:916 | A decimal altitude never contains "VFR". |
| Messages.DepartureMessageReadBack | pkg/sim/nas.go:901-919 | The departure message reads back as the plan's code, route, airports and exit fix. Its altitude is "VFR/"+altitude for VFR and the altitude alone otherwise. VFR rules hold exactly when the plan's rules are VFR. |
| Messages.RelayedPlanAltitude | pkg/sim/nas.go:236 | A plan stored from a message is answered with altitude "0" or "VFR/0", an empty coordination fix and the same code. |
| Adaptation.RouteCoordinationFix | pkg/sim/nas.go:1066-1086 | The first pass returns a fix that is adapted for the altitude, not zone based, and named in the route or by a waypoint. When it returns none, no fix qualifies. |
| Stars.EventStream.Post | pkg/sim/nas.go:457-482 | Posting appends exactly that event. |
| Stars.FoldEventCount | pkg/sim/nas.go:431-513 | Handling a queue posts exactly one event per InitiateTransfer message. |
| Stars.ClearedQueueIsInert | pkg/sim/nas.go:431-437 | Handling a cleared queue again changes nothing and posts nothing. |
| Stars.PlanTableSteps | pkg/sim/nas.go:434-443 | A Plan with a non-zero code stores the message's plan under it; one with code 0 does nothing. An Amendment stores the message's plan under its code, even code 0. A Cancellation removes the code. None of them touches the tracks or posts. |
| Stars.TransferSteps | pkg/sim/nas.go:445-485 | One event names the callsign and the new owner. It is an accept exactly when the code's plan or the callsign's track is held. An accepted track has the new owner and handoff controller and the held plan, and the code's plan is removed. A reject leaves the tables unchanged. |
| Stars.AcceptRecallSteps | pkg/sim/nas.go:487-508 | With no track, nothing changes. A different owner takes the track with the handoff cleared and the plan kept. The same owner deletes the track. Nothing is posted. |
| Stars.Without | pkg/sim/nas.go:515-525 | A track table less some keys keeps every other entry unchanged. |
| Stars.PrunedIsWithout | pkg/sim/nas.go:515-525 | "Every track of the aircraft gone, every other unchanged" is exactly the table less the aircraft's keys. |
| Stars.WithoutAircraft | pkg/sim/nas.go:516-524 | The deletion loop removes exactly the tracks whose plan has the aircraft's callsign or code. |
| Stars.STARSComputer.constructor | pkg/sim/nas.go:357-365 | A new STARS computer has empty tables and queue, uses the given shared pool, and has no ERAM queue yet. |
| Stars.STARSComputer.CreateSquawk | pkg/sim/nas.go:368-374 | One code from the shared bank pool, or 0 and ErrNoMoreAvailableSquawkCodes when the pool is empty. |
| Stars.STARSComputer.SendTrackInfo | pkg/sim/nas.go:376-383 | The message, stamped with this facility and time, goes to the receiving TRACON's queue, or else to the ERAM queue. |
| Stars.STARSComputer.SendToOverlyingERAMFacility | pkg/sim/nas.go:389-391 | Appends the message to the centre's queue. |
| Stars.STARSComputer.RequestFlightPlan | pkg/sim/nas.go:393-400 | Appends a RequestFlightPlan for the code, stamped with this facility and time, to the centre's queue. |
| Stars.STARSComputer.GetFlightPlan | pkg/sim/nas.go:402-418 | A squawk id is found exactly when its code is held. Any other id is found exactly when some held plan has that callsign, and the plan returned has it. Otherwise the result is ErrNoMatchingFlight. |
| Stars.STARSComputer.AddTrackInformation | pkg/sim/nas.go:420-422 | Stores the track under the callsign. |
| Stars.STARSComputer.AddUnsupportedTrack | pkg/sim/nas.go:424-426 | Appends the unsupported track. |
| Stars.STARSComputer.SetScratchpad | pkg/sim/nas.go:793 | Sets the first or second scratchpad of the callsign's track and nothing else. |
| Stars.STARSComputer.StorePlan | pkg/sim/nas.go:434-440 | The plan read from the message is stored under its code; the tracks are unchanged. |
| Stars.STARSComputer.DropPlan | pkg/sim/nas.go:442-443 | The code's plan is removed; nothing else changes. |
| Stars.STARSComputer.InitiateTransfer | pkg/sim/nas.go:445-485 | The tables and events after an InitiateTransfer are those of `Step`, which TransferSteps characterises. |
| Stars.STARSComputer.Notify | pkg/sim/nas.go:457-482 | Posts the event and leaves the tables unchanged. |
| Stars.STARSComputer.TrackFromPlan | pkg/sim/nas.go:448-461 | The track is made with the held plan, and the code's plan is removed; one accept is posted. |
| Stars.STARSComputer.TrackFromTrack | pkg/sim/nas.go:463-476 | The track is remade with its own plan, and the code's plan is removed; one accept is posted. |
| Stars.STARSComputer.AcceptRecallTransfer | pkg/sim/nas.go:487-508 | The tables after an AcceptRecallTransfer are those of `Step`, which AcceptRecallSteps characterises. |
| Stars.STARSComputer.HandleMessage | pkg/sim/nas.go:433-509 | One message changes the tables and the events as `Step` says. |
| Stars.STARSComputer.SortReceivedMessages | pkg/sim/nas.go:431-513 | The queue is handled in order: the tables and events are those of folding `Step` over it. The queue is then cleared to zero messages of the same length. |
| Stars.STARSComputer.SortStep | pkg/sim/nas.go:432-510 | One turn of the loop extends the fold by one message. |
| Stars.STARSComputer.CompletelyDeleteAircraft | pkg/sim/nas.go:515-525 | The table loses exactly the aircraft's tracks. |
| Eram.ERAMComputer.constructor | pkg/sim/nas.go:69-93 | The computer has empty tables and queue and the full NAS pool. It has one new STARS computer per TRACON of the centre, each queuing to this computer's queue, all sharing one bank pool, with distinct queues. |
| Eram.ERAMComputer.CreateSquawk | pkg/sim/nas.go:117-124 | One code from the NAS pool, or 0 and ErrNoMoreAvailableSquawkCodes when the pool is empty. |
| Eram.ERAMComputer.ToSTARSFacility | pkg/sim/nas.go:180-187 | A known TRACON's queue gets exactly the message at its end. An unknown one gives ErrUnknownFacility. No other queue changes. |
| Eram.ERAMComputer.SendMessageToERAM | pkg/sim/nas.go:189-197 | The same, for the queues of other centres. |
| Eram.ERAMComputer.HandlePlan | pkg/sim/nas.go:202-229 | Panics exactly on code 0, and then changes nothing. Otherwise a new plan from the message, with its fix resolved by route and altitude when empty, is stored under the code; every other code keeps its plan. The message goes only to the facility the fix leads to, when that is not this centre. |
| Eram.ERAMComputer.StorePlanEntry | pkg/sim/nas.go:203-221 | The stored plan is new and is the message's plan with the resolved fix. |
| Eram.ERAMComputer.ForwardPlan | pkg/sim/nas.go:223-229 | Sends only to the facility the resolved fix leads to, when that is not this centre. |
| Eram.ERAMComputer.HandleRequestFlightPlan | pkg/sim/nas.go:231-241 | Panics exactly on a source id shorter than 3. Otherwise a held plan goes back as a departure message to the facility the id names, and the head of the queue is dropped. The plan table is unchanged. |
| Eram.ERAMComputer.ReplyToRequest | pkg/sim/nas.go:232-238 | Sends exactly the departure message of the held plan to the requester, or nothing. |
| Eram.ERAMComputer.DropHead | pkg/sim/nas.go:241 | The queue loses its first message. |
| Eram.ERAMComputer.HandleInitiateTransfer | pkg/sim/nas.go:247-280 | The code goes back into the NAS pool. The track gets the new owner and handoff controller, or is remade when its fix stays here. The stamped message goes only to the facility its fix leads to. With any fix adapted, a track without a plan panics. Apart from that, a panic happens only when the track is remade here and no plan is held for the code. |
| Eram.ERAMComputer.OpenTransfer | pkg/sim/nas.go:250-257 | The track is made or updated with owner and handoff controller, and the code joins the pool. |
| Eram.ERAMComputer.TransferByFix | pkg/sim/nas.go:259-280 | The loop over the fixes forwards once for the message's fix, or remakes the track. It panics on a missing plan. |
| Eram.ERAMComputer.TransferStep | pkg/sim/nas.go:259-280 | One turn keeps the loop invariant, or panics on a missing plan. |
| Eram.ERAMComputer.VisitFix | pkg/sim/nas.go:260-278 | One fix panics exactly on a nil plan. It acts only when it is the message's fix: it forwards to a centre ('Z…') or a TRACON, or remakes the track. |
| Eram.ERAMComputer.HandleAcceptRecallTransfer | pkg/sim/nas.go:282-303 | An unknown fix changes nothing. Otherwise the held track takes the owner, with the code back in the pool exactly on a recall. A panic happens exactly when the track or its plan is missing. The message goes only to the centre the fix comes from, when that is not this centre. |
| Eram.ERAMComputer.RecallOwner | pkg/sim/nas.go:288-294 | The held track takes the owner; the code joins the pool exactly when the owner is unchanged. |
| Eram.ERAMComputer.ReturnRecall | pkg/sim/nas.go:296-302 | Panics exactly on a missing track or plan; otherwise returns the message to the centre the fix comes from. |
| Eram.ERAMComputer.TransferMessage | pkg/sim/nas.go:247-280 | The pool only grows, queues only grow, the plan table is unchanged, and the tables point to no new plans. It can panic only when some coordination fix is adapted. |
| Eram.ERAMComputer.AcceptRecallMessage | pkg/sim/nas.go:282-303 | The same, for an AcceptRecallTransfer, which can panic only for an adapted fix. |
| Eram.ERAMComputer.PlanEntries | pkg/sim/nas.go:200-211 | The codes of the plan table after a run of messages are the codes before plus those of its Plan messages. |
| Eram.ERAMComputer.PlanEntriesLast | pkg/sim/nas.go:200-211 | Each code a Plan message names ends holding the plan of its last Plan message, with the fix resolved. |
| Eram.ERAMComputer.PlanEntriesOther | pkg/sim/nas.go:200-211 | A code no Plan message names keeps its plan. |
| Eram.ERAMComputer.PlanEntriesStep | pkg/sim/nas.go:200-211 | One more message extends the table by its plan when it is a Plan, and leaves it otherwise. |
| Eram.ERAMComputer.HandleMessage | pkg/sim/nas.go:201-304 | A Plan replaces its code's plan with the message's, fix resolved; no other message touches the plan table. A completed RequestFlightPlan drops the head of the queue; no other message touches the queue. A Plan panics exactly on code 0, a request exactly on a short source id, and any panic is one `MayPanic` allows. The pool and the queues only grow. |
| Eram.PlanCodesHead | pkg/sim/nas.go:202-211 | A queue whose first message is a Plan message names that message's code among its Plan codes. |
| Eram.ClearedQueuePanics | pkg/sim/nas.go:205-207 | No non-empty prefix of a cleared queue avoids code 0: the zeroed slots that `clear` leaves (nas.go:307) are Plan messages with code 0, so a later pass panics on the first. |
| Eram.ERAMComputer.SortMessages | pkg/sim/nas.go:199-308 | The plan table is what the Plan messages handled leave: the last Plan for a code decides its plan, none has code 0. A completed pass handled every message and leaves the queue cleared, shorter by the number of RequestFlightPlans. A panic stops at a message that may panic, and leaves the queue uncleared, less the heads the requests before it dropped. A cleared, non-empty queue (a later pass over it) panics at once, handling nothing and leaving the queue as it was. The pool and all queues only grow. |
| Eram.ERAMComputer.SortLoop | pkg/sim/nas.go:200-305 | The loop over the snapshot of the queue ends with every message handled, or at the first panic, keeping SortLoopInv. |
| Eram.ERAMComputer.SortStep | pkg/sim/nas.go:200-305 | One message handled without a panic extends the plan table and the queue's dropped heads by it; a panic keeps them. |
| Eram.ERAMComputer.ClearQueue | pkg/sim/nas.go:307 | The cleared queue keeps the (shortened) length, every slot zero, and the plan table is the fold of the whole queue. |
| Eram.ERAMComputer.SentPlan | pkg/sim/nas.go:173 | Sending only appends the fix's facility to the plan's contained facilities and keeps its fix; the plan is then settled at any time. |
| Eram.ERAMComputer.SendFlightPlan | pkg/sim/nas.go:158-176 | Without an adaptation fix, returns the error and changes nothing. Otherwise exactly the stamped Plan message goes to the TRACON, or to its centre when the TRACON is unknown, and the fix's facility is appended to the contained facilities. |
| Eram.ERAMComputer.SendPlanIfReady | pkg/sim/nas.go:127-140 | Afterwards the plan is settled: either too early, without a fix, or held by the fix's facility. A plan settled before is unchanged and nothing is sent. An unsettled one gains exactly that facility, and exactly its stamped Plan message goes to the TRACON's queue (or its centre's). |
| Eram.ERAMComputer.SentInvPlan | pkg/sim/nas.go:126-155 | During the pass, a plan is settled exactly when it was sent or was settled at the start; it has only grown, and is blank exactly when it was. |
| Eram.ERAMComputer.SendVisit | pkg/sim/nas.go:127-140 | A plan neither sent nor settled is sent now and joins the sent list; otherwise nothing changes. |
| Eram.ERAMComputer.SendSettled | pkg/sim/nas.go:128-139 | A settled plan: the plans and queues are unchanged. |
| Eram.ERAMComputer.SendReady | pkg/sim/nas.go:137-139 | An unsent, unsettled plan is sent: it joins the end of the sent list and its Plan message the end of the queue. |
| Eram.ERAMComputer.SendFlightPlans | pkg/sim/nas.go:126-155 | Blank track entries go, by the identifier they hold; an entry whose identifier is its own key certainly goes; other entries stay unchanged. Each plan sent was not settled at the start and is sent once; every plan of a kept track and of the plan table that was not settled at the start is sent. An unsettled plan of a track entry that a blank entry's deletion removed before it was visited may go unsent, and a sent plan's entry may be removed later in the pass. Each plan sent gained its fix's facility and nothing else; their stamped Plan messages were appended to the TRACON's queue (or its centre's) in the order sent; no other plan or queue changed. Afterwards every plan of a kept track and of the plan table is settled. |
| Eram.ERAMComputer.SendTrackPlans | pkg/sim/nas.go:142-151 | The same, for the loop over the tracks: blank entries go, and the plan of every entry kept is sent or was settled. |
| Eram.ERAMComputer.TrackLoopStep | pkg/sim/nas.go:142-151 | One turn keeps the loop invariant and shrinks what remains. |
| Eram.ERAMComputer.VisitTrackPlans | pkg/sim/nas.go:143-150 | One entry keeps the plans-and-queues part of the invariant; the plan of an entry not deleted is done. |
| Eram.ERAMComputer.VisitTrack | pkg/sim/nas.go:143-150 | A blank entry is deleted by its identifier and nothing is sent; the plan of any other entry is sent exactly when it was neither sent nor settled. |
| Eram.ERAMComputer.SendTablePlans | pkg/sim/nas.go:152-154 | Every plan of the plan table ends sent or was settled, keeping the record of what was sent. |
| Eram.ERAMComputer.TableLoopStep | pkg/sim/nas.go:152-154 | One turn keeps the loop invariant and shrinks what remains. |
| Eram.ERAMComputer.CompletelyDeleteAircraft | pkg/sim/nas.go:318-332 | This computer and every STARS computer under it lose exactly the aircraft's tracks. |
| Registry.NewCentre | pkg/sim/nas.go:684 | A new centre is in its initial state, with new queues distinct from all others. |
| Registry.AddCentre | pkg/sim/nas.go:683-685 | Adding a centre keeps the shape of the registry. |
| Registry.MakeComputers | pkg/sim/nas.go:683-685 | There is one computer per adapted centre, each of the right shape and new. |
| Registry.WireCentres | pkg/sim/nas.go:692-699 | Every centre's ERAM queue map holds every other centre's queue, never its own. |
| Registry.WireCentre | pkg/sim/nas.go:693-698 | The same, for one centre. |
| Registry.CollectTerminalQueues | pkg/sim/nas.go:701-706 | The map holds the queue of every STARS computer, by TRACON. |
| Registry.CollectCentre | pkg/sim/nas.go:703-705 | Adds one centre's STARS queues. |
| Registry.WireTerminals | pkg/sim/nas.go:713-721 | Every STARS computer holds all other STARS queues, never its own. |
| Registry.WireTerminalsStep | pkg/sim/nas.go:713-721 | One centre's STARS computers are wired. |
| Registry.WireCentreTerminals | pkg/sim/nas.go:714-720 | The same, for one centre. |
| Registry.WireTerminal | pkg/sim/nas.go:715-719 | One STARS computer gets all queues but its own. |
| Registry.WiredNotSelf | pkg/sim/nas.go:692-721 | No computer's peer-queue map contains itself, so no computer sends to its own queue. |
| Registry.Wire | pkg/sim/nas.go:692-721 | After the wiring, the registry is shaped and wired, and the tables are still empty. |
| Registry.MakeERAMComputers | pkg/sim/nas.go:677-724 | One computer per adapted centre, wired, with empty tables. |
| Registry.DeleteAll | pkg/sim/nas.go:782-784 | Every centre deletes the aircraft's tracks from its own table and its STARS computers' tables. |
| Registry.UpdateTurn | pkg/sim/nas.go:761-767 | One centre's turn keeps the wiring, grows plan tables and pools, and leaves that centre's STARS queues cleared. |
| Registry.UpdateStep | pkg/sim/nas.go:761-767 | The same, against the loop invariant. |
| Registry.CentreTurn | pkg/sim/nas.go:762-766 | Other centres' tables are unchanged by one centre's turn. |
| Registry.TurnOf | pkg/sim/nas.go:762-766 | A turn leaves the queues it does not own alone. |
| Registry.UpdateCentre | pkg/sim/nas.go:762-766 | Sort, then send, then each STARS sort: plans and pools grow, and STARS queues end cleared. |
| Registry.SortAndSend | pkg/sim/nas.go:762-763 | The centre sorts, and sends only when the sort completes. |
| Registry.SortPart | pkg/sim/nas.go:762 | SortMessages, with the wiring kept. |
| Registry.SendPart | pkg/sim/nas.go:763 | SendFlightPlans keeps the plan table and the wiring. |
| Registry.SortTerminals | pkg/sim/nas.go:764-766 | Every STARS computer of the centre ends with its queue cleared. |
| Registry.ERAMComputers.FacilityComputers | pkg/sim/nas.go:728-752 | A centre id gives (its computer, nil). A TRACON id gives (its centre's computer, its STARS computer). Any other id gives ErrUnknownFacility. |
| Registry.ERAMComputers.FacilityComputersIdentify | pkg/sim/nas.go:728-752 | In a built registry, the computers found carry exactly the identifiers asked for. |
| Registry.ERAMComputers.ShapeResolvable | pkg/sim/nas.go:739-749 | In a built registry, a TRACON under an adapted centre resolves without panicking. |
| Registry.ERAMComputers.SetScratchpad | pkg/sim/nas.go:787-795 | An unknown facility gives ErrUnknownFacility and changes nothing; otherwise only the track's first scratchpad changes. |
| Registry.ERAMComputers.SetSecondaryScratchpad | pkg/sim/nas.go:796-804 | The same, for the second scratchpad. |
| Registry.ERAMComputers.GetSTARSFlightPlan | pkg/sim/nas.go:771-778 | An unknown facility gives ErrUnknownFacility. Otherwise the result is the TRACON's GetFlightPlan result: for an identifier that parses as a beacon code, exactly the plan held under that code, or ErrNoMatchingFlight when there is none; for any other identifier, a held plan with that callsign, or ErrNoMatchingFlight when no held plan has it. |
| Registry.ERAMComputers.CompletelyDeleteAircraft | pkg/sim/nas.go:780-785 | Every ERAM and STARS computer loses exactly the aircraft's tracks. |
| Registry.ERAMComputers.Update | pkg/sim/nas.go:758-768 | The wiring is kept, plan tables and pools only grow, and a completed pass leaves every STARS queue cleared. |
| Parser.ParseAbbreviatedFPFields | pkg/sim/nas.go:924-1063 | The token loop computes `Parse`: it panics exactly when Parse does and otherwise returns its fields. A bad first token gives ErrIllegalACID and nothing else. |
| Parser.VisitToken | pkg/sim/nas.go:934-990 | One token does what `Visit` says. |
| Parser.LaterTests | pkg/sim/nas.go:980-1060 | The second-scratchpad test and those after it, as `Scratchpad2` says. |
| Parser.FinalTests | pkg/sim/nas.go:990-1042 | The aircraft-type and altitude tests, as `LastTests` says. |
| Parser.AircraftToken | pkg/sim/nas.go:990-1038 | The aircraft-type field, as `AircraftField` says. |
| Parser.PlusToken | pkg/sim/nas.go:980-985 | A '+' token is never blacklisted and never all digits. |
| Parser.ParseAppend | pkg/sim/nas.go:933 | Parsing a + b is parsing a, then b from where a left off. |
| Parser.SquawkTokenSetsBCN | pkg/sim/nas.go:935-938 | A squawk token sets only the beacon code, wherever it stands. |
| Parser.TwoByteTokenSetsPosition | pkg/sim/nas.go:941-944 | Any other two-byte token sets only the controlling position. |
| Parser.BadScratchpadStops | pkg/sim/nas.go:968-974 | A blacklisted token stops with ErrIllegalScratchpad when long first scratchpads are allowed, and otherwise changes nothing. |
| Parser.AircraftFieldSound | pkg/sim/nas.go:990-1038 | The aircraft field keeps the ACID, rules and airport, and every early return records an error. |
| Parser.LastTestsSound | pkg/sim/nas.go:990-1042 | The same, for the last tests. |
| Parser.Scratchpad2Sound | pkg/sim/nas.go:980-989 | The same, from the second-scratchpad test on. |
| Parser.Scratchpad1Sound | pkg/sim/nas.go:968-979 | The same, from the first-scratchpad test on. |
| Parser.VisitSound | pkg/sim/nas.go:934-1060 | The same, for one token. |
| Parser.TokensSound | pkg/sim/nas.go:933-1061 | The same, for any run of tokens. |
| Parser.ParsedFields | pkg/sim/nas.go:924-1063 | A non-panicking parse keeps a valid ACID and gives the ErrIllegalACID result for an invalid one. Every early return has an error. The rules and departure airport are never set. |
| Parser.KnownTypeToken | pkg/sim/nas.go:992-999 | A plain known aircraft type that no earlier test takes sets the aircraft type. |
| Parser.ExampleEntry | pkg/sim/nas.go:924-1063 | "UAL123 1234 P35 B738 .V" gives ACID, code, aircraft type and ".V" as controlling position. |
| Common.Split | pkg/sim/nas.go:990 | strings.Split gives at least one piece, none holds the separator, and joining them gives back the string. |
| Common.SplitWithoutSeparator | pkg/sim/nas.go:990-992 | A string without the separator splits into itself. |
| Common.ContainsIffOccurs | pkg/sim/nas.go:1074 | strings.Contains means "occurs at some offset". |
| Common.TrimPrefix | pkg/sim/nas.go:571 | strings.TrimPrefix strips the prefix exactly when the string has it. |
| Common.Itoa | pkg/sim/nas.go:916 | strconv.Itoa gives the decimal digits of the number, with '-' before a negative one. |

## Left out

- `DumpMap` (nas.go:807-873) only prints; the logger calls are dropped too.
- The zone-based nearest-fix fallback of `GetCoordinationFix` (nas.go:1088-1106) is not part of this model. It needs the fixes database and floating-point great-circle distance. `Adaptation.RouteCoordinationFix` models the route-based first loop only.
- The adaptation's `FixForRouteAndAltitude`, `AdaptationFixForAltitude` and `Fix` are not part of this model. They are given functions inside `ERAMAdaptation` and `AdaptationFixes`.
- `av.SquawkIsSPC`, `av.ParseSquawk`, `TypeWithoutSuffix`, the TRACON table and the aircraft-performance table are not part of this model either. They are fields of `AvDatabase`.
- Track locations (`TrackLocation`, `ERAMTrackInfo`) and the `UnsupportedTrack` location are omitted; no core operation reads them.
- Time is whole seconds. `formatSourceID` is modelled as the UTC hour `(t/3600)%24` and minute `(t/60)%60`.
- The event stream records only the event type, callsign and controller the core sets.
- `Common.IsAllLetters`: strings are byte strings, one character per byte. `util.IsAllLetters` on a multi-byte UTF-8 letter is not modelled.
- `Common.IsAllNumbers`: `util.IsAllNumbers` is not part of this model. It is modelled as every byte being '0' to '9', so the empty string counts as all digits; with that reading `/B738`, whose first part is empty, takes the formation-number branch (nas.go:1001).
- `Stars.STARSComputer.SetScratchpad`: the source's nil dereference on a missing track is a precondition (`TrackHeldAt` in the registry), not a modelled panic.
- `Registry.ERAMComputers.FacilityComputers`: the two "shouldn't happen" panics (nas.go:741-749) are excluded by the precondition `Resolvable`. `ShapeResolvable` shows that every registry built by `MakeERAMComputers` meets it for TRACONs of adapted centres.
- `Registry.ERAMComputers.GetSTARSFlightPlan`: a centre id makes the source dereference a nil STARS computer; that case is a precondition.
- `Eram.ERAMComputer.HandleInitiateTransfer`: the panic is characterised, but which fix is visited first, and so whether a remade track without a plan panics later in the same loop, follows Go map order and is left open.
- `Registry.ERAMComputers.Update`: a completed pass is stated through what each centre's turn keeps. What the STARS computers compute from the messages sent to them during the pass is left to `Stars.STARSComputer.SortReceivedMessages`, which states it per computer.
- `Eram.ERAMComputer.SortMessages`: the track table and the messages sent during a pass are not stated for the pass as a whole. An InitiateTransfer visits the coordination fixes in Go map order (see `HandleInitiateTransfer`), so the pass only states that the pool and the queues grow; each message's handler states its own effect. After a panic, the tracks and the pool are as the panicking handler left them, and only their growth is stated.
- `Registry.ERAMComputers.SetScratchpad`: the source dereferences the STARS computer and the track without a check (nas.go:793). A centre id or a callsign without a track would panic there; both are excluded by the precondition `TrackHeldAt`, not modelled as panics.
- `Registry.ERAMComputers.SetSecondaryScratchpad`: the same, at nas.go:802.
- Parser: the dead two-byte flight-type branch (nas.go:958-964) and the flight-rules branch (nas.go:1043-1059) are not written out in the token loop. `Parser.ParsedFields` proves that they cannot run.
- Concurrency does not arise: the core runs one tick at a time.
