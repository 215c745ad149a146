# ISO 15118-20 charger session: model and proofs

The library at hand is the charger side (SECC) of an ISO 15118-20 charging session. This project models
what it does after messages are decoded and before they are encoded, and proves properties of whole runs.

## How it is built

| file | what it holds |
|---|---|
| `Common`, `Types` | fixed-width integers; services, sessions, requests, responses, control events |
| `Negotiation` | discovery, detail and selection of services as functions, and what they agree on |
| `AcDerControl`, `RationalNumbers` | AC DER validators and providers; conversion of floats to decimal rationals |
| `Machine` | the seventeen states over one context: `Feed` is what one event does, `Step` what `poll` makes of it, `Run` a sequence |
| `Frame`, `Order`, `Safety`, `Gate`, `AcContactor`, `Timers`, `Caches`, `Values`, `Answers`, `Agreement`, `DerSession`, `Outcomes`, `Charging` | theorems over all runs |
| `Resume`, `Termination`, `CompleteSession`, `CompleteDc` | sequences of sessions over one pause context; complete AC and DC runs, request by request |
| `Handlers`, `SessionFsm` | the request handlers and state objects in the form of the source: loops and fields updated in place, each proved against the functions above |
| `TimeoutTable`, `Framing`, `NestedMachine` | the timer table, the packet reader and writer, the generic nested state machine, as classes |
| `Twins` | the state machine reads neither the sequence timer nor whether the session is stopped |
| `Polling`, `SessionLoop` | one poll and runs of polls, the delayed close, and the session object |

Every `Feed` function promises, besides its value, what the run theorems need of it (`Kept`, `Conforms`: which
parts of the context it may change, why it leaves a state, which signals it raises). Most run theorems use only
these promises. The classes in `SessionFsm` and `SessionLoop` are tied to the same functions by their postconditions: in
`SessionFsm.Fsm` there is one method `OnX` for each state `X`, which updates the state object and the context in place
with the branches of its source file under `src/iso15118/d20/state/`, and leaves exactly what `FeedX` says. They come
together in `SessionFsm.Fsm.Dispatch` and `SessionFsm.Fsm.Take`, the rows below.

The machine keeps a history (events with the state that took them, signals, responses, and the news of
sessions being created, joined, paused and terminated), so that "only after" is a statement about that history.

## What the proofs show about the code

- `return {}` counts as unhandled, and `poll` stops the session on an unhandled message or timeout
  (`src/iso15118/session/iso.cpp:199-202` and `228-233`). A message leaves a session running exactly if it changes
  the state (`Polling.MustHandleForward`, `Polling.PollStops`), so `Polling.FourteenMessages` holds and a charge loop
  is stopped by its first request, which is answered OK (`Polling.LoopRequestStops`). The run theorems are
  stated over runs of the state machine; `Polling.PollRunIsRun` carries all of them that do not speak of stopping or
  of the sequence timer over to runs of `poll`.
- An AC charge loop can start without any contactor event: a power-delivery request other than start is not
  parked (`src/iso15118/d20/state/power_delivery.cpp:118-143`; `AcContactor.StandbySkipsContactor`).
- A contactor event of either polarity counts as closed, because a pointer is assigned to the flag (line 53), so an
  AC charge loop can also start on a contactor that was only ever reported open (`AcContactor.OpenReportSuffices`).
  `AcContactor.ContactorReportedExactly` says exactly when a report, and when a report of a closed contactor, is on
  record at the start.
- A pause writes into whatever pause context there is. Without a certificate the pausing session did not make that
  context, so the session that did comes back with the services of another one
  (`CompleteSession.ServicesOfAnother`). `Resume.OwnContextExactly` and `Resume.PausesAreOwnExactly` give the exact
  condition for each connection that pauses; where it is met by certificates, a resumed session holds what its own id
  last paused with (`Resume.ResumedWithOwnServices`).
- A certified session that never paused can be joined again, with OK_OldSessionJoined, but it has no services: it stays in
  session setup and `poll` stops it (`CompleteSession.NeverPausedStays`). `Resume.ResumeExact` and
  `Polling.ResumeSurvives` say exactly which sessions go on: those after whose creation some connection paused.
- A start that waits for the contactor leaves its timer behind when a request other than start enters the AC charge
  loop (`AcContactor.SkipLeavesTimer`, `AcContactor.TimerLeftBehind`).
- The sequence timer is not restarted by a response while it runs (`Polling.SequenceExact`).
- With more than 256 parameter sets of one service the eight-bit id wraps and ids are advertised for sets that are
  no longer stored (`Negotiation.AdvertisedIsStored`, `Negotiation.WrapLosesFirstSet`).
- A custom value-added set with an id of 2^15 or more cannot be selected (`Negotiation.CustomVasIds`).
- `ScheduleExchange` does not load cached dynamic parameters when it is entered (`Caches.ScheduleIgnoresCache`,
  `Caches.ScheduleHoldsLastExactly`, `CompleteSession.AnnouncementIgnored`).
- The AC charge loop never signals CHARGE_LOOP_STARTED: its first-entry flag starts as false.
- An accepted authorization moves on even when the answer is WARNING_AuthorizationSelectionInvalid
  (`CompleteSession.WarnedMovesOn`); `Answers.AuthorizationFollowsLast` says exactly when Authorization is left, and
  when it is left with OK.
- A request under another id moves no session, but is not without effect: it can raise the signals of a preparation
  that seems to begin, and a foreign stop request after charging pauses or ends the session (`Gate.ForeignRefused`).
- The DC parameters answered are those of the power supply as configured, not the last DC limits
  (`Answers.DcParametersShowSupply`).
- A list of value-added services that is present but empty is refused (`Handlers.AllVasOffered`).
- Two of the rejections of the SECC provider are unreachable (`AcDerControl.SeccProviderExact`).

## Model

| member | source | states |
|---|---|---|
| Safety.SafeRun | src/iso15118/d20/state/authorization.cpp:83-138 | On every run of events from a fresh session: service negotiation is reached only while the last authorization answer delivered in Authorization is positive, and charge parameter discovery and everything after only after that or after a resume under the matching certificate with a non-zero id, still holding the resumed services; AC states hold AC services and DC states DC services; DC power delivery, charging and welding come only after START_CABLE_CHECK, a last cable-check result that was positive, and PRE_CHARGE_STARTED; the end of charging is signalled once, by the loop and the contactor of the selected service |
| Safety.EntitledStep | src/iso15118/d20/state/session_setup.cpp:99-148 | Whatever state a step reaches from charge parameter discovery on, it was reached by a last positive authorization answer or by a resume |
| Safety.NegotiatesAuthorizedStep | src/iso15118/d20/state/authorization.cpp:117-138 | Every step keeps: the status of Authorization is the last answer delivered there, and all later negotiation states rest on a last answer that was positive |
| Safety.OnBranchStep | src/iso15118/d20/state/power_delivery.cpp:52-76 | Every step keeps states and selected services on one branch; a parked power-delivery request implies an AC service, which is all that keeps a DC session out of the AC charge loop |
| Safety.DcReadyStep | src/iso15118/d20/state/dc_cable_check.cpp:37-76 | Every step keeps: the flag of CableCheck is the last result delivered there; cable check and pre-charge were really signalled, and the last result of the check was positive, before the states that rely on them |
| Charging.CableCheckExact | src/iso15118/d20/state/dc_cable_check.cpp:57-76 | On every run an own cable-check request goes on to pre-charge, answered Finished, exactly if the last result of the check was positive, and is answered Ongoing otherwise; START_CABLE_CHECK comes exactly with the first request |
| Charging.PreChargeExact | src/iso15118/d20/state/dc_pre_charge.cpp:53-69 | On every run an own pre-charge request goes on to power delivery and shows the last voltage measured there; PRE_CHARGE_STARTED comes exactly with the first request |
| Charging.PowerDeliveryExact | src/iso15118/d20/state/power_delivery.cpp:113-150 | On every run, what a power-delivery request does before charging: in AC a start waits, without an answer and with its two signals, until a contactor report or 3 s from the first one; everything else is judged at once and enters the loop of the selected service, with a warning for standby |
| Charging.ContactorExact | src/iso15118/d20/state/power_delivery.cpp:52-92 | What a contactor report makes of the start that waits, and that the expiry of its timer is answered with a contactor error to an own start and ends the session |
| Charging.LatePreChargeExact | src/iso15118/d20/state/power_delivery.cpp:100-111 | On every run a late own pre-charge request shows the last voltage measured in power delivery and changes nothing |
| Charging.LoopDeliveryExact | src/iso15118/d20/state/dc_charge_loop.cpp:221-242 | An own request to stop charging leaves either loop, with CHARGE_LOOP_FINISHED and the open-contactor signal of that loop; any other own power-delivery request is answered and leaves all as it is |
| Charging.LoopSignalsExact | src/iso15118/d20/state/dc_charge_loop.cpp:243-247 | On every run CHARGE_LOOP_STARTED comes with a DC loop request exactly if none came since the loop was entered or since an own power-delivery request, and never in AC |
| Charging.WeldingExact | src/iso15118/d20/state/dc_welding_detection.cpp:52-66 | On every run an own welding request shows the last voltage measured there, and leads to the stop exactly if it does not say ongoing |
| CompleteDc.DcSessionPauses | src/iso15118/d20/state/dc_welding_detection.cpp:52-66 | A concrete complete DC session: twenty events from the first message through cable check, pre-charge, charge loop and welding detection to the pause, for every charger that offers one scheduled DC set |
| CompleteDc.DcSessionCharges | src/iso15118/d20/state/dc_charge_loop.cpp:199-214 | In this session the loop answers 400 V and 32 A, as measured |
| Safety.AcReadyStep | src/iso15118/d20/state/power_delivery.cpp:52-76 | Every step keeps: the closed flag of PowerDelivery says exactly whether a contactor event was delivered there, and past it a contactor was reported or the start was skipped |
| Safety.EndsByLeaving | src/iso15118/d20/state/dc_charge_loop.cpp:221-242 | Charging ends exactly by leaving the loop of the selected service, and cannot end twice |
| Safety.EndsOnceStep | src/iso15118/d20/state/ac_charge_loop.cpp:369-386 | Every step keeps the counts: CHARGE_LOOP_FINISHED once if charging ended and never before, together with the open-contactor signal of the selected kind and without the other; never CHARGE_LOOP_STARTED in AC |
| Frame.SessionFrozen | src/iso15118/d20/state/schedule_exchange.cpp:127-206 | From charge parameter discovery on, no run changes the session record (id, offered and selected services) or the DER provider |
| Frame.StepCarries | include/iso15118/fsm/fsm.hpp:109-131 | A step keeps the state or follows one of the twenty-one edges of the protocol; it only extends the history and never un-stops a session; only five states change the session and only three the pause context |
| Order.TransitionsClimb | include/iso15118/fsm/fsm.hpp:109-131 | On every run the rank of the state grows at least by the number of transitions |
| Order.AtMostFourteenTransitions | include/iso15118/fsm/fsm.hpp:109-131 | A session makes at most fourteen transitions, whatever its events |
| Order.NoReturn | include/iso15118/fsm/fsm.hpp:109-131 | A state that was left is never entered again on any continuation |
| Gate.ForeignRefused | src/iso15118/d20/context_helper.cpp:30-36 | After session setup a request under another id causes no transition, leaves the session as it was, and is either not answered yet or answered with a failure under the session's own id; exactly which signals it raises all the same, and exactly what it does to the pause context (a foreign stop request after charging still overwrites or erases it) |
| Gate.StrangersMoveNothing | src/iso15118/d20/state/power_delivery.cpp:61-76 | No run without a request under the session's own id leaves the state or changes the session, including a foreign AC start request that is parked and judged when the contactor closes |
| AcContactor.AcStartExact | src/iso15118/d20/state/power_delivery.cpp:112-148 | The steps that take an AC session into its charge loop, exactly: an own power-delivery request when the contactor was reported or anything but a start is asked for, or the contactor report with an own start parked |
| AcContactor.ContactorReportedExactly | src/iso15118/d20/state/power_delivery.cpp:52-128 | When a run starts an AC charge loop, any contactor report is on record exactly if one came before or the starting event is not a power-delivery request other than start; a report that it is closed is on record exactly if one came before, or the contactor event itself starts the loop and says closed, which is then the only report |
| AcContactor.StandbySkipsContactor | src/iso15118/d20/state/power_delivery.cpp:118-143 | Five concrete requests (the last asks for standby) start the AC charge loop of a resumed session although no contactor was ever reported |
| AcContactor.OpenReportStarts | src/iso15118/d20/state/power_delivery.cpp:52-76 | A report that the contactor is open starts the AC charge loop for an own start that waits |
| AcContactor.OpenReportSuffices | src/iso15118/d20/state/power_delivery.cpp:52-76 | Six concrete events (the last reports the contactor open) start the AC charge loop of a resumed session although it was never reported closed |
| AcContactor.NeverOpen | src/iso15118/d20/state/power_delivery.cpp:52-60 | Where no report says open, a report and a report of closing are the same, so the exact condition above is the one for a closed contactor |
| Timers.DisciplinedRun | src/iso15118/d20/timeout.cpp:11-31 | On every run ONGOING runs only in Authorization and ScheduleExchange, and not before the first request there |
| Timers.ScheduleArmsAfresh | src/iso15118/d20/state/schedule_exchange.cpp:139-145 | On every run the first schedule request that does not succeed leaves ONGOING running for 55 s from now, although starting a running timer does nothing |
| Timers.AuthorizationArmsAfresh | src/iso15118/d20/state/authorization.cpp:117-125 | On every run the first authorization request that does not succeed leaves ONGOING running for 180 s from now |
| Timers.ExpiryIsFinal | src/iso15118/d20/state/schedule_exchange.cpp:127-133 | Once ONGOING has expired in Authorization or ScheduleExchange, no run leaves that state |
| Timers.ContactorRuns | src/iso15118/d20/state/power_delivery.cpp:52-133 | On every run CONTACTOR runs exactly if the session is in AC, a start reached PowerDelivery before any contactor report, and neither a report nor the expiry came since, whatever state is active by now |
| AcContactor.SkipLeavesTimer | src/iso15118/d20/state/power_delivery.cpp:112-148 | When a run enters the AC charge loop, CONTACTOR still runs exactly if the entering request asks for something else than to start while a start is awaited |
| AcContactor.TimerLeftBehind | src/iso15118/d20/state/power_delivery.cpp:112-148 | Six concrete requests after which AC charging runs together with CONTACTOR |
| Caches.UpToDateRun | src/iso15118/session/iso.cpp:160-178 | On every run the caches, the limits in use and the dynamic parameters, targets and present powers of the states that show them equal the last control event of their kind, whatever state was active when it came |
| Frame.StepShows | src/iso15118/d20/state/ac_charge_loop.cpp:337-361 | A state shows the cached values from its entry and those of each update afterwards; a step changes the caches only by its event |
| Caches.ScheduleIgnoresCache | src/iso15118/d20/state/schedule_exchange.cpp:110-125 | On every run ScheduleExchange holds the last update delivered to itself and not one cached before it was entered |
| Caches.ScheduleHoldsLastExactly | src/iso15118/d20/state/schedule_exchange.cpp:110-125 | On every run what ScheduleExchange holds is the last update of the run exactly if one was delivered to the state itself, or if the last of the run says no more than the initial values |
| CompleteSession.AnnouncementIgnored | src/iso15118/d20/state/schedule_exchange.cpp:110-125 | A concrete run to ScheduleExchange in which the announced parameters are cached, and the state holds the initial ones |
| Answers.AcLoopAnswer | src/iso15118/d20/state/ac_charge_loop.cpp:142-294 | An AC charge-loop request is answered OK exactly when it is the session's own and asks for the selected control mode and service (with DER control granted); dynamic parameters go out exactly in dynamic mode with mobility needs from the SECC, setpoints exactly in AC_DER; a stop outranks a pause, which may be delayed by 60 s in dynamic mode |
| Answers.DcLoopAnswer | src/iso15118/d20/state/dc_charge_loop.cpp:87-189 | The same of DC, where the bidirectional modes also need discharge limits |
| Answers.AcLoopShowsLast | src/iso15118/d20/state/ac_charge_loop.cpp:337-409 | On every run the answer of an AC charge loop shows the targets, present powers, limits and dynamic parameters of the last control events, whatever state was active when they came, the setpoints of the DER provider in AC_DER, and a notification to stop or pause exactly by the last wishes delivered to the loop |
| Answers.DcLoopShowsLast | src/iso15118/d20/state/dc_charge_loop.cpp:191-277 | On every run the answer of a DC charge loop shows the limits and dynamic parameters of the last control events, the voltage and current of the last measurement delivered to the loop, and a notification to stop or pause exactly by the last wishes delivered to it |
| Values.MeaningfulRun | src/iso15118/d20/state/dc_charge_loop.cpp:196-214 | On every run the private fields of the states (measured values, wishes to stop and pause, whether a first request came) are functions of the events delivered to that state |
| Answers.AcParametersAnswer | src/iso15118/d20/state/ac_charge_parameter_discovery.cpp:116-185 | AC parameters are agreed exactly for an own request in the mode of the selected service, with DER control granted |
| Answers.AcParametersShowLast | src/iso15118/d20/state/ac_charge_parameter_discovery.cpp:208-262 | On every run the answer shows the last limits and present powers |
| Answers.DcParametersShowSupply | src/iso15118/d20/state/dc_charge_parameter_discovery.cpp:45-86 | On every run DC parameters are agreed exactly for an own request in the mode of the selected service, bidirectional ones only with discharge limits of the power supply; the answer shows the configured limits of the power supply, whatever DC limits came since |
| Answers.ScheduleShowsLast | src/iso15118/d20/state/schedule_exchange.cpp:61-108 | On every run a schedule is agreed exactly for an own request in the selected control mode while ONGOING has never expired there, and then leads to power delivery in AC and to the cable check in DC; it shows the power of the last DC limits of the run, or the last dynamic parameters delivered to the state itself |
| Answers.AuthorizationFollowsLast | src/iso15118/d20/state/authorization.cpp:26-138 | On every run Authorization is left exactly by an own request in time after a last positive answer of the integrator; it is answered OK with it exactly if the EV selected an offered service, warned exactly if it did not, warned of a rejection and asked to wait exactly by the last answer |
| Answers.InformedRun | src/iso15118/d20/state/authorization.cpp:83-138 | On every run the timeout flags of the two waiting states say exactly whether ONGOING expired there, and Authorization compares with the configured services |
| Resume.PauseIsHistory | src/iso15118/d20/state/session_setup.cpp:95-148 | Over any sequence of connections sharing one pause context, that context is a function of the history of creations, joins, pauses and terminations, and every join fits the history before it |
| Resume.PausedExactly | src/iso15118/d20/state/session_setup.cpp:118-126 | A history leaves a given pause context exactly when one entry created that id for that certificate, nothing since terminated it or created another under a certificate, and it holds the services of the last pause since |
| Resume.JoinedIsOwn | src/iso15118/d20/state/session_setup.cpp:99-116 | A session joined as old has the id the EV asked for, created for the same certificate, not terminated or replaced since |
| Resume.TerminatedIsGone | src/iso15118/d20/state/session_stop.cpp:71-74 | Over any sequence of connections, an id that is joined after a termination on record was created in between, for the certificate that joins |
| Charging.EndExact | src/iso15118/d20/state/session_stop.cpp:43-76 | On every run, what a stop request does after charging, for each of its three kinds and any id: the code, the one entry of the history, the pause context, stopping and pausing; a termination under any id erases the pause context, and renegotiation, which no session supports, is refused to its own id |
| Termination.TerminatedStaysGone | src/iso15118/d20/state/session_stop.cpp:71-74 | Over any sequence of connections, whatever is joined after a request to terminate was created after that request, under the certificate and the id that join it |
| Resume.OwnContextExactly | src/iso15118/d20/state/session_setup.cpp:118-126 | On every run past session setup, the pause context is the session's own exactly with a certificate or if the session has the id that was paused when it connected |
| Resume.PausesAreOwnExactly | src/iso15118/d20/state/session_stop.cpp:64-70 | Over any sequence of connections, a pause between the creation of a session and its join is one of that session exactly if the pausing connection has a certificate, or none and a session that had drawn the very same id; the other connections do not matter |
| Resume.ResumedWithPausedServices | src/iso15118/d20/state/session_setup.cpp:134-147 | On every connection a session past negotiation whose last authorization answer is not positive has a certificate, an id created for it, and exactly the services of the last pause |
| Resume.ResumedWithOwnServices | src/iso15118/d20/state/session_stop.cpp:64-70 | If the connections that paused since its creation had certificates, a session past negotiation whose last authorization answer is not positive holds exactly the services that its own id last paused with |
| Resume.SetupExact | src/iso15118/d20/state/session_setup.cpp:95-148 | What a session-setup request does, in both directions: the stored id with OK_OldSessionJoined and its services exactly for a non-zero id whose digest with the certificate is the stored one, going on to AC or DC charge parameters exactly by these services and staying in session setup without any; otherwise a new session, whose pause context replaces the old one exactly under a certificate |
| Resume.ResumeExact | src/iso15118/d20/state/session_setup.cpp:99-116 | Over any sequence of connections a request joins exactly when the history holds a live session of that id and certificate; the session goes on, with the services last paused, exactly if some pause is on record after the entry that created it, and stays in session setup otherwise |
| Resume.AlwaysPausedServed | src/iso15118/d20/state/session_stop.cpp:64-70 | Over any sequence of connections, every pause holds AC or DC services |
| Polling.ResumeSurvives | src/iso15118/session/iso.cpp:228-233 | Over any sequence of connections, under poll: a session-setup request stops a running session exactly if it joins one after whose creation no connection paused |
| Resume.PauseOverwrites | src/iso15118/d20/state/session_stop.cpp:64-70 | A pause stores the services of the pausing session for whatever id the pause context holds |
| Resume.VisitsCarryAll | src/iso15118/d20/session.cpp:165-171 | Over any sequence of connections, a running or paused AC_DER selection carries all twelve mandatory functions |
| CompleteSession.AcSessionPauses | src/iso15118/d20/state/session_stop.cpp:35-70 | A concrete complete AC session without certificate: thirteen events from the first message to the pause, for every charger that offers one scheduled AC set |
| CompleteSession.ServicesOfAnother | src/iso15118/d20/state/session_stop.cpp:64-70 | Concrete connections that show the other side of this: a certified session that never selected services resumes with those of an uncertified session that paused in between |
| CompleteSession.NeverPausedStays | src/iso15118/d20/state/session_setup.cpp:134-147 | Two concrete connections: a certified session that never paused asks for its id, is answered OK_OldSessionJoined, stays in session setup, and is stopped by poll |
| CompleteSession.WarnedMovesOn | src/iso15118/d20/state/authorization.cpp:44-48 | Five concrete events: the EV selects a service that is not offered, is answered with the warning, and moves on |
| Negotiation.KeepExact | src/iso15118/d20/state/service_discovery.cpp:74-103 | The offered ids are exactly the charger's that the EV listed, or all of them |
| Negotiation.KeepInOrder | src/iso15118/d20/state/service_discovery.cpp:74-103 | They stand in the charger's order |
| Negotiation.UsableExact | src/iso15118/d20/state/service_detail.cpp:124-135 | The sets offered for AC_DER are exactly the configured ones with every mandatory function |
| Negotiation.OfferExact | src/iso15118/d20/state/service_detail.cpp:110-117 | Each stored key holds the last set numbered with it modulo 256, and otherwise keeps its entry |
| Negotiation.AdvertisedIsStored | src/iso15118/d20/state/service_detail.cpp:110-117 | Every advertised id finds the set it was advertised with exactly when no id is reused for another set; 256 sets are always safe |
| Negotiation.WrapLosesFirstSet | src/iso15118/d20/state/service_detail.cpp:110-117 | With 257 distinct sets the id 0 is advertised for the first and finds the last |
| Negotiation.NarrowingAgrees | src/iso15118/d20/session.cpp:141-151 | uint16 to int16 to uint8 and uint16 to uint8 give one key, so the lookup after the check finds what was checked |
| Negotiation.CustomVasIds | src/iso15118/d20/session.cpp:115-139 | A custom value-added set is found exactly if it was listed and its id is below 2^15, because of the signed comparison |
| Negotiation.SelectVasKeeps | src/iso15118/d20/state/service_selection.cpp:119-128 | Choosing value-added services succeeds exactly when every set is found, and changes only the list of chosen services |
| Negotiation.SelectVasRecords | src/iso15118/d20/session.cpp:229-250 | A successful choice records exactly the internet and parking services, in order |
| Negotiation.KnownVasIds | src/iso15118/d20/session.cpp:115-139 | Internet and parking sets are found by their id modulo 256, each among the ids offered for that service |
| Negotiation.DetailExact | src/iso15118/d20/state/service_detail.cpp:62-191 | A detail request fails exactly for a service not offered and for AC_DER without a complete set; what a success lists, entry by entry |
| Negotiation.SelectionExact | src/iso15118/d20/state/service_selection.cpp:62-131 | When a selection is OK, exactly, that it then holds the set stored under the id modulo 256 and records the known value-added services, and with which of two codes it fails |
| Negotiation.SelectionLosesNothing | src/iso15118/d20/session.cpp:141-227 | The selected services keep every field of the chosen parameter set, of all seven kinds |
| Agreement.DetailStores | src/iso15118/d20/state/service_detail.cpp:62-191 | Whatever a service-detail request stores, it also tells the EV under the same id; a failure changes nothing |
| Agreement.OfferingRun | src/iso15118/d20/state/service_detail.cpp:197-266 | On every run, every service and every parameter set that the session keeps as offered stands in an earlier response |
| Agreement.SelectionMoves | src/iso15118/d20/state/service_selection.cpp:189-221 | A selection request moves a session exactly when it is the session's own and selects successfully; then it answers OK |
| Agreement.SelectionWasAdvertised | src/iso15118/d20/state/service_selection.cpp:62-131 | On every run a successful selection holds a set that an earlier response advertised under the id modulo 256, for a service an earlier response offered |
| Agreement.ListedRun | src/iso15118/d20/state/service_detail.cpp:110-159 | On every run, what responses advertise is numbered as in the charger's lists, which no event changes |
| Agreement.AdvertisedOnce | src/iso15118/d20/state/service_detail.cpp:110-159 | On every run, where no id is reused (256 sets are enough) at most one set was ever advertised for a service and id, so the selected set is the one the EV saw |
| AcDerControl.ValidateDerCurve | src/iso15118/d20/ac_der_control.cpp:301-316 | Comparing neighbours decides whether all points of a curve increase |
| AcDerControl.DefaultConfigValid | src/iso15118/d20/ac_der_control.cpp:427-454 | The default configuration validates for every set of control functions |
| AcDerControl.SeccConfigValid | src/iso15118/d20/ac_der_control.cpp:201-218 | A configuration built from valid snapshots validates for every set of control functions |
| AcDerControl.SnapshotExact | src/iso15118/d20/ac_der_control.cpp:401-425 | Snapshots pass exactly if they are enabled, fresh, valid, and their numbers are in order; otherwise the reason is that of the first condition that fails |
| AcDerControl.ValidConfigExact | src/iso15118/d20/ac_der_control.cpp:365-399 | For a selection of all twelve functions a configuration validates exactly if every part is there and its numbers are in order |
| AcDerControl.SeccProviderExact | src/iso15118/d20/ac_der_control.cpp:176-221 | The SECC provider returns a configuration exactly for AC_DER, dynamic control, mobility needs from the EVCC, all twelve functions and snapshots that are enabled, fresh, valid, in order and support all twelve; it then carries the setpoints and thresholds of the snapshots and validates for all functions, so the later rejections are unreachable |
| DerSession.SelectionCarriesAll | src/iso15118/d20/state/service_selection.cpp:107-117 | A selection never leaves AC_DER selected without a mandatory function |
| DerSession.RunCarriesAll | src/iso15118/d20/session.cpp:165-171 | Every run keeps this for the running and the paused selection |
| DerSession.DerAnswerExact | src/iso15118/d20/state/ac_charge_parameter_discovery.cpp:151-184 | A DER parameter request is answered OK exactly when it is the session's own and DER control is granted, with the control values of the static configuration or the thresholds of the snapshots |
| DerSession.GateExact | src/iso15118/d20/state/ac_charge_parameter_discovery.cpp:151-184 | DER control is granted exactly in AC_DER with all twelve functions, from a static configuration whose numbers are in order, or from snapshots that pass in a dynamic session with mobility needs from the EVCC; what is granted validates and comes from that provider |
| DerSession.SeccGranted | src/iso15118/d20/state/ac_charge_parameter_discovery.cpp:165-177 | What the gates let through for the SECC provider has the Q and cos-phi setpoints of its snapshots, in a dynamic AC_DER session with all functions |
| DerSession.DerAnswerBinds | src/iso15118/d20/state/ac_charge_loop.cpp:247-279 | With the SECC provider, an OK DER parameter response guarantees on every continuation that an own dynamic DER charge-loop request is answered OK with the Q and cos-phi setpoints of the snapshots |
| RationalNumbers.FromFloat | src/iso15118/message/common_types.cpp:162-173 | The mantissa has four digits with the sign of the number, and neither it nor the exponent overflows |
| RationalNumbers.FromFloatError | src/iso15118/message/common_types.cpp:158-173 | Converting and back truncates toward zero by less than a thousandth |
| RationalNumbers.FromFloatMonotone | src/iso15118/message/common_types.cpp:162-173 | The conversion is monotone, across decades and signs |
| RationalNumbers.RoundTrip | src/iso15118/message/common_types.cpp:158-173 | Numbers with mantissas of up to four digits come back exactly |
| Framing.SdpPacket.UpdateReadBytes | src/iso15118/io/sdp_packet.cpp:31-46 | Keeps the packet state in step with the bytes seen: what the header says, and whether the packet is complete |
| Framing.SdpPacket.ParseHeader | src/iso15118/io/sdp_packet.cpp:48-72 | Decides a header as the specification of headers does |
| Framing.SdpPacket.RemainingBytesToRead | src/iso15118/io/sdp_packet.cpp:20-29 | Never beyond the buffer; zero exactly in the three final states; completes the header or the packet |
| Framing.ReadSinglePacket | src/iso15118/session/iso.cpp:60-106 | For any bytes and any two reads: the bytes of the packet in progress and those given parse to the one packet, the one dropped header or nothing; the packet is EMPTY or HEADER_READ whenever it is not complete |
| Framing.Receiver.Poll | src/iso15118/session/iso.cpp:151-158 | The packet in progress is always what whole-stream parsing leaves of the bytes consumed; each poll adds at most the next item |
| Framing.PollSlices | src/iso15118/session/iso.cpp:151-217 | However a stream is sliced into reads, and whatever was read before, the packets delivered are those that whole-stream parsing adds, in order |
| Framing.PollAll | src/iso15118/session/iso.cpp:151-158 | Whatever was read before, polling until it would block once everything has arrived leaves nothing unread, and delivers the packets that parsing the rest adds |
| Framing.ReadStream | src/iso15118/session/iso.cpp:151-217 | A stream that arrives in any slices and then completely is delivered whole; if it consists of messages with payloads up to 2040 bytes, the packets are these messages, in order |
| Framing.ParseContinues | src/iso15118/session/iso.cpp:60-106 | Parsing the rest of a stream with what follows continues the parse of the whole |
| Framing.PrefixParses | src/iso15118/session/iso.cpp:60-106 | The items of a partly read stream are the first items of the whole |
| Framing.StreamParses | src/iso15118/session/iso.cpp:109-123 | A stream of messages with payloads up to 2040 bytes parses to exactly these messages, with nothing left |
| Framing.SetupResponseHeader | src/iso15118/session/iso.cpp:109-123 | Writes the header of the payload and touches nothing behind it |
| Framing.WrittenHeader | src/iso15118/io/sdp_packet.cpp:48-72 | How a written header is read back for every size: complete up to 2040, too long up to 2^32-9, malformed above, modulo 2^32; the payload type survives |
| Framing.ResponseRoundTrip | include/iso15118/session/iso.hpp:69-73 | Every response that fits the response buffer is read back with its type and bytes, or dropped as too long |
| TimeoutTable.Timeouts.Start | src/iso15118/d20/timeout.cpp:11-18 | A running timer keeps its deadline |
| TimeoutTable.Timeouts.Stop | src/iso15118/d20/timeout.cpp:20-31 | Removes the one timer |
| TimeoutTable.Timeouts.Check | src/iso15118/d20/timeout.cpp:33-55 | Nothing exactly if no timer is reached; otherwise only reached timers, in strictly increasing order of deadlines, every reached deadline once, by the first timer that has it |
| TimeoutTable.CollectedIsDueList | src/iso15118/d20/timeout.cpp:36-51 | The same of the ordered map that the check fills, keyed by deadline |
| TimeoutTable.DrainReached | src/iso15118/d20/timeout.cpp:28-55 | Checking and resetting what is returned empties the table of reached timers within as many rounds as there are reached timers, four at most, and touches no other timer |
| NestedMachine.NestedFsm.constructor | include/iso15118/fsm/fsm.hpp:163-166 | Enters the initial state and its chain of initial children, in this order |
| NestedMachine.NestedFsm.UnrollChildStates | include/iso15118/fsm/fsm.hpp:142-155 | Pushes and enters exactly the chain below the top state |
| NestedMachine.NestedFsm.Feed | include/iso15118/fsm/fsm.hpp:182-224 | Asks from the innermost state on; the handler and all above it give way to the target and its children, left and entered in order; an unhandled event changes nothing |
| NestedMachine.NestedFsm.Destroy | include/iso15118/fsm/fsm.hpp:168-180 | Leaves every state, innermost first, and closes every bracket |
| NestedMachine.CallsBracketed | include/iso15118/fsm/fsm.hpp:182-224 | One event keeps the word of enter and leave calls well bracketed, with exactly the new stack open |
| NestedMachine.OpenLeaves | include/iso15118/fsm/fsm.hpp:207-213 | Leaving the upper part of a stack innermost first closes exactly that part |
| Polling.PollStops | src/iso15118/session/iso.cpp:188-234 | After one poll the session is stopped exactly if it was after the control events, a timer was reached, or a message came and the state is as it was before; otherwise a message climbs |
| Polling.MustHandleForward | src/iso15118/session/iso.cpp:228-233 | A message leaves a running session running exactly if it leaves the state |
| Polling.LoopRequestStops | src/iso15118/session/iso.cpp:228-233 | An own, fitting charge-loop request is answered OK and stops the session |
| Polling.FourteenMessages | src/iso15118/session/iso.cpp:211-234 | Under poll a session survives at most fourteen messages |
| Polling.PollRunIsRun | src/iso15118/session/iso.cpp:142-275 | Every run of polls is the run of all events it feeds: state, history, session, configuration, pause context, caches and all timers but SEQUENCE are the same, only stopping and SEQUENCE differ. So every run theorem that does not speak of these two holds under poll |
| Twins.RunTwins | include/iso15118/fsm/fsm.hpp:109-131 | Two machines that differ in SEQUENCE and in being stopped at most differ in nothing else after any events: no state reads either |
| Polling.SequenceExact | src/iso15118/session/iso.cpp:222-243 | What a poll does to SEQUENCE, exactly: a message other than SupportedAppProtocolReq stops it, a response starts it with 60 s from now unless it runs, and nothing else moves it |
| Polling.SilenceStops | src/iso15118/session/iso.cpp:188-197 | From any point where SEQUENCE runs, polls without a message keep its deadline, even if they send responses, and the first one at or after the deadline stops the session |
| Polling.PollRunHolds | src/iso15118/session/iso.cpp:160-247 | At every point of a run of polls: everything that SafeRun states, the discipline of ONGOING, and the values shown to the EV equal the last drained control events |
| SessionLoop.ClosesExactly | src/iso15118/session/iso.cpp:251-274 | For every sequence of polls: the close and its one data-link signal happen exactly at the first poll 5000 ms or more after the first one that saw the session over, PAUSE exactly if paused; until then the wakeup is that time |
| SessionLoop.Driver.Poll | src/iso15118/session/iso.cpp:142-275 | One poll reads at most one packet: no byte is lost, the packets handled so far are those of parsing all bytes read, and where it reports nothing more to read nothing is left; it feeds the queue, the reached timers and the request as the specification says, and moves the delayed close by what it sees at the end. Without a connection it does nothing |
| SessionLoop.Driver.ReadPacket | src/iso15118/session/iso.cpp:151-217 | Reads from the stream without losing a byte, and hands over the packet that parsing the bytes read completes |
| SessionLoop.Driver.FeedAll | src/iso15118/session/iso.cpp:160-247 | Queue, timers, message and response timer, in this order, are one poll of the run theorems |
| SessionLoop.Driver.DrainQueue | src/iso15118/session/iso.cpp:160-186 | All queued control events are fed in order |
| SessionLoop.Driver.TellTimeouts | src/iso15118/session/iso.cpp:188-208 | Every reached timer up to the sequence timer is fed and reset |
| SessionLoop.Driver.CloseWhenDue | src/iso15118/session/iso.cpp:251-274 | Schedules, performs or skips the delayed close |
| SessionLoop.Driver.Conclude | src/iso15118/session/iso.cpp:251-275 | Every poll ends with the wakeup of the specification, and the history of closes stays the one that ClosesExactly is about |
| SessionFsm.Fsm.Take | src/iso15118/session/iso.cpp:160-185 | Caching, feeding, recording and resetting one event is one step of the machine of the run theorems; handled means that the state was left |
| SessionFsm.Fsm.Dispatch | include/iso15118/fsm/fsm.hpp:109-131 | The current state takes the event: whichever of the handlers runs, it leaves exactly the state, context, response, signals and news that the run theorems are proved about |
| Handlers.Negotiate | src/iso15118/d20/state/supported_app_protocol.cpp:22-44 | The priority map whose later entries overwrite earlier ones yields what the specification of negotiation says |
| Handlers.NegotiatedExact | src/iso15118/d20/state/supported_app_protocol.cpp:22-44 | The negotiated protocol is the acceptable one that has the lowest number of all acceptable ones, the last of them listed; there is none exactly if no listed protocol is acceptable |
| Outcomes.ProtocolExact | src/iso15118/d20/state/supported_app_protocol.cpp:22-86 | On every run a protocol request leads to session setup, answered with the schema id of the best listed protocol, exactly if the EV lists one of the two namespaces of ISO 15118-20 or the configured one; otherwise it is answered Failed_NoNegotiation and stays |
| Outcomes.AuthorizationSetupExact | src/iso15118/d20/state/authorization_setup.cpp:68-84 | An own authorization-setup request is answered with the configured services, or EIM, which the session then offers, raises REQUIRE_AUTH_EIM and leads to Authorization |
| Outcomes.DiscoveryShowsLast | src/iso15118/d20/state/service_discovery.cpp:60-104 | On every run discovery answers with what the EV listed of the last lists that the integrator gave, and forgets every earlier offer |
| Outcomes.DetailAnswers | src/iso15118/d20/state/service_detail.cpp:62-248 | A detail request leads to selection exactly for an own request for an offered service, and for AC_DER only with a complete set; what is listed, and what of the callback's answer goes into the configuration |
| Outcomes.SelectionAnswers | src/iso15118/d20/state/service_selection.cpp:189-221 | A selection request leads to the charge parameters of the selected kind exactly if it is the session's own and succeeds; otherwise it is refused and stops the session |
| Outcomes.UnexpectedExact | src/iso15118/d20/context_helper.cpp:42-105 | In every state a request that the state does not wait for stops the session and changes nothing else; it is answered with a sequence error, or, from authorization setup to pre-charge, as the stop request that it is |
| Outcomes.EventsAreSilent | src/iso15118/session/iso.cpp:160-208 | In every state control events and timeouts neither answer, signal, stop nor move a session, except for the contactor report and its timeout in PowerDelivery |
| Outcomes.NeverRenegotiates | src/iso15118/d20/state/session_stop.cpp:20-24 | On every run no session supports service renegotiation |
| Handlers.FilterServices | src/iso15118/d20/state/service_discovery.cpp:74-103 | The loop keeps the offered ids the EV listed, in the charger's order |
| Handlers.OfferSets | src/iso15118/d20/state/service_detail.cpp:110-159 | The loop with its wrapping eight-bit id stores and lists the usable sets |
| Handlers.OfferInternet | src/iso15118/d20/state/service_detail.cpp:160-176 | The loop over ports keeps the previous id for an unknown port |
| Handlers.OfferParking | src/iso15118/d20/state/service_detail.cpp:177-183 | The loop numbers the parking sets modulo 256 |
| Handlers.DetailService | src/iso15118/d20/state/service_detail.cpp:62-191 | The whole handler, with all its branches |
| Handlers.AllVasOffered | src/iso15118/d20/state/service_selection.cpp:85-100 | The flag of the loop is false for an empty list |
| Handlers.SelectRequested | src/iso15118/d20/state/service_selection.cpp:71-131 | The whole handler; a failing value-added service leaves the energy service selected |

## Left out

- EXI encoding and decoding, TLS, sockets, the SDP server and logging: runs start from decoded messages and end with responses.
- SHA-512 is an injective constructor over certificate and id; session ids are numbers of 64 bits, and new ones arbitrary.
- Floating point: `from_float`, `from_RationalNumber` and the DER validators compute in exact reals, over the range of the type `float` in decades; voltages and currents are reals.
- In the answer to authorization setup, the flag for certificate installation and the random challenge of Plug and Charge.
- Timestamps, price schedules, receipts, meter values, display parameters and feedback callbacks other than signals; the target frequency of the AC loop, which is always zero; of a schedule only its power, the duration and the time anchor being constants.
- Contents of parameter sets of value-added services: only their ids; the library's builders of parameter lists (`src/iso15118/d20/config.cpp`) would only add field copies.
- `SessionFsm.Fsm.OnSupportedAppProtocol`: the loop that looks up the negotiated schema id again, for feedback only, and the exception it raises when the EV and an unset configuration agree on the empty custom namespace.
- EV limits that requests bring are not stored, as no answer depends on them; the clamping of feedback values neither.
- One `MessageExchange` slot: the history keeps every response of a poll, while the code sends only the last one written into the buffer. The exception for a request that was not fetched cannot occur, since every state fetches it.
- Responses and signals of one `feed` are kept in separate lists, so their order relative to each other is not modelled.
- Each `check` of the timers and each poll reads the clock once.
- `SessionLoop.Driver.Poll`: what `decode` makes of a packet, and what the integrator answers, are arguments. A connection is accepted once, and its vehicle certificate is known from the start, while the code takes it over when the connection reports OPEN.
- `NestedMachine.NestedFsm.Feed`: what each state would answer is an argument, and a state's chain of initial children is part of its value, hence finite; exceptions thrown by a state are not modelled.
- `Framing.Connection.Read`: would block exactly when it gives fewer bytes than asked, as the plain connection does; errors of the transport are not modelled.
- `AcDerControl.Provide`: knows the two providers of the library, no third one of the integrator.
- `TbdController`, which drops a session as soon as it is finished: event-loop plumbing around the session.
- Plug and Charge, service renegotiation and ACDP or WPT services: the code has no behaviour for them beyond the refusals that are modelled.
