# Verified model of the liminal participant protocol

A Dafny model of two parts of the `liminal-protocol` crate.

**The client participant.** One aggregate owns a credential binding, a single write-ahead
operation slot, a detach-replay lifecycle, a reconnect permit machine and durable loss atoms.
Operations pass record, commit, persist, release; released operations become one-use
correlations that a response, a transport fate or a crash consumes. A crash is encode, decode
and validated restore, which testifies to the authority it destroyed. The main results are about
runs of any length: no run persists a record that restore refuses, authority is conserved,
replay and slot stay coupled, stale handles and late responses are harmless, a tokenless
operation is released at most once even when storage is stale, and no slot wedges.

**Retention capacity and the closure gate.** Widened 64-to-128-bit capacity arithmetic with its
overflow branches, recovery transfers, the folded successor plan, closure accounting, and the
physical floor that binding fates measure at one moment and install at another.

## Layout

| file | holds |
|---|---|
| Wire, Participant | the vocabulary: requests, envelopes, server values, and the aggregate |
| Correlation, Replay, Barrier, Inbound, Reconnect, Resume | one module per client source file: every transition as a function on aggregates |
| Transitions | when each client transition applies, and which transitions undo or stand for one another |
| Client, Session | the aggregate as an object updated in place, and a program driving it with its handles: any sequence of calls is a run of the machine |
| Bytes, ResumeCodec, ResumeRoundTrip, RecordLayout, DecodeErrors | the canonical record as functions on byte strings, both inverses, its bytes laid out, and what it is refused for |
| ResumeReader, ResumeWriter | the record codec as written: an advancing cursor and a growing buffer |
| Receipts | what the value that retires a slot leaves of binding and replay |
| Soundness | the coupling invariant of the aggregate and its preservation |
| Machine, MachineInvariant | whole runs with every handle and a ledger, and the inductive invariant |
| Guarantees, BindingHistory, ReconnectHistory, StaleStorage, Progress | what every run guarantees |
| Counterexamples | runs on which simpler claims fail |
| Capacity, Floor, FloorRuns, Closure | the retention algebra, floor runs and the closure gate |

## How to read the model

- A run is a fold of `Machine.Step` over any sequence of events. Handles are held in multisets; an
  event that presents a handle the program does not hold is unrepresentable in the source and does
  nothing here. Dropping a handle is an event of its own.
- `stranded` marks an authority whose handle left the program while its slot stayed issued. The
  sealed inbound door does this when it applies an acknowledgement answer or a transport rejection
  (it takes the correlation by value), so conservation is stated with that term for all runs, and
  without it for runs that pass such values through the unsealed door.
- Storage is a function from aggregates to what comes back after process loss. `Faithful` storage
  gives back the crash of every sound aggregate it keeps; `MachineInvariant.RecordsAreFaithful`
  shows canonical records are such storage. A crash while a record is pending restores the aborted
  aggregate, since a pending record has no durable form. An aggregate whose record cannot be encoded
  is not persisted, and a crash there leaves nothing to restart from, so it is no event of a run.
- The participant-frame codec nested in a record is a parameter: `RoundTrips` and `Canonical` are
  hypotheses of the lemmas that need them.
- Server values are grouped by what the client reads of them. `EchoValue` holds the kinds that only
  echo a request identity, with a predicate saying which identity each kind may echo, and
  `AckAnswer` the answers to continuous acknowledgements. Fields the client never reads are kept
  whole in a `detail`, so distinct wire values stay distinct. A detach request and its envelope
  carry the same four fields and are one datatype, and decoded facts are an `Aggregate`.
- Attach receipts grant exactly the successor generation and their epoch carries it, which the
  wire constructor guarantees (crates/liminal-protocol/src/client/p0_62_stranded_handle_tests.rs:326-354).
- Two simpler claims are false of the code and have a run each in `Counterexamples`: that every
  authority is accounted for whatever door a value takes (exactly when not: `Guarantees.StrandsExactly`),
  and that a late response never retires a later operation (exactly when it does, for the settlement
  refusals that carry no token: `Guarantees.SettlementRetiresByFamily`).
- `Closure.ValidExactly`, `Closure.UnchargedRefusalsAgree` and the one-field replay methods of
  `Clients.Client` are helpers that read their branches back.
- Lengths are 64-bit.

## Where code and documentation disagree

The model follows the code.

- crates/liminal-protocol/src/client.rs:42-46 calls record admission tokenless; restore treats only
  observer recovery so (crates/liminal-protocol/src/client/resume.rs:183-185).
- Settlement refusals retire the slot (crates/liminal-protocol/src/client/inbound.rs:208-237), although
  crates/liminal-protocol/src/client/a5_settlement_correlation_tests.rs:227-240 says they do not. Late
  responses are therefore harmless except for them, and `Guarantees.SettlementRetiresByFamily` says
  exactly when one retires the slot.
- Replay terminals are not permanent: a newer attach overwrites them with superseded
  (crates/liminal-protocol/src/client/replay.rs:142-147).
- The write-side coupling check is described as looser than restore so that a persist between
  issuing and the in-flight flip passes (crates/liminal-protocol/src/client/resume.rs:256-259); no run
  reaches such a state.

## Model

| member | source | states |
|---|---|---|
| Participant.LiveBindingAcceptsExactly | crates/liminal-protocol/src/client.rs:186-291 | A bound or detached credential accepts a request if and only if it is observer recovery or presents exactly the retained identity, generation and secret; when detached, only requests that present a secret. |
| Participant.OtherBindingsAcceptExactly | crates/liminal-protocol/src/client.rs:186-235 | An unbound client accepts exactly enrollment, attach and observer recovery; a left one nothing. |
| Participant.MatchesAckExactly | crates/liminal-protocol/src/client.rs:170-184 | An acknowledgement answer is for this binding exactly when the binding could send that acknowledgement. |
| Correlations.MatchesExactly | crates/liminal-protocol/src/client/correlation.rs:97-155 | Outside observer recovery a value names a request if and only if it echoes that request identity, or is a settlement refusal of its family and conversation. |
| Correlations.ObserverMatchesExactly | crates/liminal-protocol/src/client/correlation.rs:157-193 | Observer recovery is answered if and only if the statuses answer exactly its refusals in order, or an invalid epoch answers its only one. |
| Correlations.ReceiptsNameTheirRequest | crates/liminal-protocol/src/client/correlation.rs:212-307 | Every receipt, bound or released, names the request it was granted for. |
| Correlations.AnswersNameTheirRequest | crates/liminal-protocol/src/client/correlation.rs:212-307 | Every detach and leave answer names the request it carries. |
| Correlations.EchoesNameTheirRequest | crates/liminal-protocol/src/client/correlation.rs:446-556 | Every echo and retirement names every request of the identity it echoes. |
| Correlations.BypassNamesNoSlottedRequest | crates/liminal-protocol/src/client/correlation.rs:200-307 | A continuous-acknowledgement answer or transport rejection never names a request the slot can hold. |
| Correlations.OneIdentityPerValue | crates/liminal-protocol/src/client/correlation.rs:35-103 | No value except a settlement refusal can name two requests of different identity. |
| Barrier.RecordOperation | crates/liminal-protocol/src/client/barrier.rs:137-145 | For every aggregate and request: a pending record aborts to exactly the original aggregate, and any other decision leaves it unchanged. |
| Transitions.AdmittedExactly | crates/liminal-protocol/src/client/barrier.rs:443-571 | For every aggregate and request: pending if and only if the binding accepts it, it is no acknowledgement, the slot is empty, no abandonment blocks it, the counter is below its maximum and a detach finds an empty, same-and-parked or replaceable replay; then exactly the next number, slot and replay are written. |
| Transitions.RefusedExactly | crates/liminal-protocol/src/client/barrier.rs:447-492 | Each refusal names the first obstacle in its way. |
| Progress.AcceptedRequestIsHandedOut | crates/liminal-protocol/src/client/barrier.rs:127-170 | In every unsealed state the run invariant admits, so in every reachable one, with a free slot: any accepted request other than an acknowledgement or a detach is recorded, and commit and release hand out exactly it. |
| Transitions.RecoveryIsRelease | crates/liminal-protocol/src/client/barrier.rs:162-225 | Recovery applies if and only if the slot is filled and unissued; it then equals the release of that committed operation, and a second recovery is refused as already issued. |
| Transitions.FateAppliesExactly | crates/liminal-protocol/src/client/barrier.rs:365-424 | A fate clears the slot if and only if the correlation is current, no loss is pending and the operation is not a detach; a live detach is refused to its replay. |
| Transitions.LossResolvesAsFate | crates/liminal-protocol/src/client/barrier.rs:275-311 | Resolving the testimony of a destroyed authority leaves exactly the aggregate its live fate would have, for detaches and for all other operations. |
| Transitions.FateUndoesAttempt | crates/liminal-protocol/src/client/replay.rs:384-484 | A transport fate applies if and only if the detach is in flight under that correlation, and starting again gives back the same aggregate under the same number. |
| Transitions.FirstSendStartsParkedOnly | crates/liminal-protocol/src/client/replay.rs:107-113 | The first send puts a parked replay in flight and moves no other. |
| Transitions.AttemptStartsExactly | crates/liminal-protocol/src/client/replay.rs:384-434 | An attempt starts if and only if the replay is parked and the slot holds its detach under a nonzero number. |
| Transitions.AttemptUndoesFate | crates/liminal-protocol/src/client/replay.rs:384-484 | Starting a parked detach and recording its fate is the identity; a refused start changes nothing. |
| Transitions.AttachEndsReplayExactly | crates/liminal-protocol/src/client/replay.rs:495-520 | Slot and replay end together as superseded if and only if the detach is in flight under the correlation and the attach grants its participant a higher generation; otherwise nothing changes. |
| Transitions.LeaveEndsReplayExactly | crates/liminal-protocol/src/client/replay.rs:532-557 | Likewise as leave-superseded, if and only if the leave names its participant and generation. |
| Transitions.OutcomeEndsReplayExactly | crates/liminal-protocol/src/client/replay.rs:580-620 | Likewise as the outcome terminal, if and only if the outcome names its detach, with each refusal distinguished. |
| Transitions.AttachSupersedesExactly | crates/liminal-protocol/src/client/replay.rs:133-151 | An attach ends the replay of its own participant at the generation it presented or an older one, and no other. |
| Transitions.RefusalSettlesOnlyItsOwn | crates/liminal-protocol/src/client/replay.rs:199-226 | A refusal settles only the active replay of the very detach it refused. |
| Transitions.LeaveSupersedesExactly | crates/liminal-protocol/src/client/replay.rs:153-166 | A leave ends the replay of exactly the participant and generation it left. |
| Transitions.RetirementSupersedesExactly | crates/liminal-protocol/src/client/replay.rs:168-187 | A retirement ends the replay of its participant at its generation or an older one, and leaves any other alone. |
| Transitions.ForeignParticipantIsRefused | crates/liminal-protocol/src/client/replay.rs:495-557 | Another participant's attach or leave is refused and its retirement ignored. |
| Transitions.AbandonmentIsTakenOnce | crates/liminal-protocol/src/client.rs:463-469 | An abandonment is handed out once and nothing else moves. |
| Transitions.UnsealedDoorExactly | crates/liminal-protocol/src/client/inbound.rs:110-115 | The unsealed door never moves the aggregate and applies exactly the acknowledgement answers of its own binding and transport rejections. |
| Transitions.SealedDoorExactly | crates/liminal-protocol/src/client/inbound.rs:119-238 | The sealed door applies a value if and only if the correlation is current and it is one of those or names the accepted, unlost slot; only the latter moves the aggregate, to its retirement. |
| Transitions.DoorRefusesExactly | crates/liminal-protocol/src/client/inbound.rs:152-238 | Which refusal a value meets at either door, obstacle by obstacle. |
| Transitions.StaleCorrelationIsDelayed | crates/liminal-protocol/src/client/inbound.rs:124-134 | A stale correlation is refused as delayed before the value is looked at. |
| Transitions.MismatchExactly | crates/liminal-protocol/src/client/inbound.rs:208-234 | A value that misses the slot is ambiguous for a record, delayed for any other request of the same origin, and else foreign. |
| Transitions.ReconnectRoundExactly | crates/liminal-protocol/src/client/reconnect.rs:213-542 | A permitted event, its redemption and its fate form one round that ends online or parked under the next number and changes nothing else. |
| Transitions.EventPermittedExactly | crates/liminal-protocol/src/client/reconnect.rs:213-258 | An event is permitted if and only if the machine is parked or online and its counter is not exhausted. |
| Transitions.RedeemedExactly | crates/liminal-protocol/src/client/reconnect.rs:418-461 | A permit redeems if and only if it is the outstanding one and no loss is pending, and a failed attempt then parks. |
| Transitions.AttemptFateExactly | crates/liminal-protocol/src/client/reconnect.rs:503-542 | A fate is recorded if and only if its attempt is the one in progress and no loss is pending; it goes online or parks. |
| Transitions.RecoveredPermitRedeems | crates/liminal-protocol/src/client/reconnect.rs:288-320 | An unissued permit is released once, with nothing else changed, and redeems as the original would. |
| Transitions.ReconnectLossResolvesAsFailure | crates/liminal-protocol/src/client/reconnect.rs:350-368 | Resolving a lost attempt parks the machine exactly as its failure would have, once. |
| Transitions.PermitLossResolvesAsFailure | crates/liminal-protocol/src/client/reconnect.rs:350-368 | Resolving a lost permit leaves exactly what redeeming it and failing would. |
| ReconnectHistory.OnlineExactlySinceConnecting | crates/liminal-protocol/src/client/reconnect.rs:213-542 | In every run, crashes included, the machine is online if and only if an attempt the program held connected and no event has rearmed it since. |
| Clients.Client.constructor | crates/liminal-protocol/src/client.rs:421-430 | A new client is the fresh aggregate. |
| Clients.Client.AdmitReplay | crates/liminal-protocol/src/client/barrier.rs:525-571 | A detach enters the replay and returns the prior one, or is refused with the replay unchanged. |
| Clients.Client.Record | crates/liminal-protocol/src/client/barrier.rs:443-515 | The object becomes the sealed successor with its operation and prior replay, or is unchanged with the decided refusal. |
| Clients.Client.Abort | crates/liminal-protocol/src/client/barrier.rs:137-145 | Slot, counter and replay return to what the pending record preserved. |
| Clients.Client.RecordAndAbort | crates/liminal-protocol/src/client/barrier.rs:137-145 | Recording and aborting any request leaves every field as it was. |
| Clients.Client.Release | crates/liminal-protocol/src/client/barrier.rs:162-170 | The slot becomes issued and a detach goes in flight. |
| Clients.Client.Recover | crates/liminal-protocol/src/client/barrier.rs:197-225 | An unissued slot is issued with its own request and authorization, its detach in flight; otherwise nothing changes. |
| Clients.Client.ResolveOperationLoss | crates/liminal-protocol/src/client/barrier.rs:275-311 | The testimony is taken once: a detach is parked unissued, any other operation is cleared. |
| Clients.Client.RecordFate | crates/liminal-protocol/src/client/barrier.rs:365-424 | The live non-detach operation is cleared and returned, or the exact refusal leaves it as it was. |
| Clients.Client.TakeAbandoned | crates/liminal-protocol/src/client.rs:463-469 | The abandonment is handed out once and nothing else changes. |
| Clients.Client.StartTransportAttempt | crates/liminal-protocol/src/client/replay.rs:384-434 | A parked, expected detach goes in flight and issued under its own authorization, or nothing changes. |
| Clients.Client.DecideTransportFate | crates/liminal-protocol/src/client/replay.rs:456-484 | The in-flight detach is parked and unissued, or nothing changes. |
| Clients.Client.ApplyAttachToReplay | crates/liminal-protocol/src/client/replay.rs:495-520 | Replay superseded and slot cleared together, or neither. |
| Clients.Client.ApplyLeaveToReplay | crates/liminal-protocol/src/client/replay.rs:532-557 | Replay leave-superseded and slot cleared together, or neither. |
| Clients.Client.ApplyOutcomeToReplay | crates/liminal-protocol/src/client/replay.rs:580-620 | Replay terminalized and slot cleared together, or neither. |
| Clients.Client.ApplyAttachReceiptInPlace | crates/liminal-protocol/src/client/inbound.rs:317-325 | The credential rotates to the granted generation, bound or detached, and an older replay is superseded. |
| Clients.Client.ApplyDetachCommitted | crates/liminal-protocol/src/client/inbound.rs:326-339 | The binding detaches keeping its secret, and the replay terminalizes. |
| Clients.Client.ApplyRetired | crates/liminal-protocol/src/client/inbound.rs:465-492 | The binding is left for the identity the retirement names, and the replay follows. |
| Clients.Client.ApplyValue | crates/liminal-protocol/src/client/inbound.rs:311-401 | Binding and replay move as the value says, and no other field does. |
| Clients.Client.Retire | crates/liminal-protocol/src/client/inbound.rs:266-297 | The slot is cleared, the value applied and a detach left active is settled, in that order. |
| Clients.Client.ReceiveInner | crates/liminal-protocol/src/client/inbound.rs:152-238 | The object moves exactly as the decision function, or is unchanged with its refusal. |
| Clients.Client.Receive | crates/liminal-protocol/src/client/inbound.rs:110-115 | The unsealed door, in place. |
| Clients.Client.ReceiveCorrelated | crates/liminal-protocol/src/client/inbound.rs:119-150 | The sealed door, in place. |
| Clients.Client.SeeFreshEvent | crates/liminal-protocol/src/client/reconnect.rs:213-258 | One permit under the next authorization from parked or online, otherwise nothing. |
| Clients.Client.RecoverPermit | crates/liminal-protocol/src/client/reconnect.rs:288-320 | An unissued permit is issued once. |
| Clients.Client.Redeem | crates/liminal-protocol/src/client/reconnect.rs:418-461 | The matching permit becomes the attempt, otherwise nothing changes. |
| Clients.Client.RecordConnectionFate | crates/liminal-protocol/src/client/reconnect.rs:503-542 | The matching attempt goes online or parks, otherwise nothing changes. |
| Clients.Client.ResolveReconnectLoss | crates/liminal-protocol/src/client/reconnect.rs:350-368 | The testimony is taken once and parks the machine. |
| Clients.Client.Persist | crates/liminal-protocol/src/client/resume.rs:246-289 | A decoupled aggregate is refused; any other yields its canonical record. |
| Clients.Client.RestoreFrom | crates/liminal-protocol/src/client/resume.rs:178-236 | Validated facts become the aggregate with its losses testified; rejected facts change nothing. |
| Clients.Client.Restart | crates/liminal-protocol/src/client/resume.rs:178-236 | Restart from bytes is decode, validate, restore, with the first failure reported. |
| Clients.PersistAndRestart | crates/liminal-protocol/src/client/resume.rs:178-289 | Persisting a sound client and restarting it from the bytes is exactly the crash function, and the result is sound. |
| Sessions.Session.Record | crates/liminal-protocol/src/client/barrier.rs:443-515 | Recording on the object is the record step of the machine, seal and acknowledgement handle included. |
| Sessions.Session.OnSeal | crates/liminal-protocol/src/client/barrier.rs:127-170 | Abort, commit and release on the object are the seal steps, and only a release hands out the operation. |
| Sessions.Session.SpendOnReplay | crates/liminal-protocol/src/client/replay.rs:456-620 | A correlation presented to the replay leaves the program exactly when the transition applies. |
| Sessions.Session.ReceiveCorrelated | crates/liminal-protocol/src/client/inbound.rs:119-150 | The sealed door on the object is the machine step: an applied value takes the correlation, a refused one leaves it. |
| Sessions.Session.OnReconnect | crates/liminal-protocol/src/client/reconnect.rs:213-542 | Each reconnect call is its machine step, handles included. |
| Sessions.Session.Crash | crates/liminal-protocol/src/client/resume.rs:178-289 | Encoding the durable aggregate, losing every handle and restarting from the bytes is the crash step. |
| Sessions.Session.Perform | crates/liminal-protocol/src/client/authority_property_tests.rs:249-267 | Any call takes the object from the run so far to the run with that event appended. |
| Sessions.Drive | crates/liminal-protocol/src/client/authority_property_tests.rs:661-701 | A client driven through any sequence of events is the run over that sequence. |
| Sessions.LawfulClientIsSound | crates/liminal-protocol/src/client/resume.rs:246-289 | After any sequence of calls the object is sound, conserves authority and is never refused as decoupled. |
| Resume.RestoreIsCrash | crates/liminal-protocol/src/client/resume.rs:178-236 | On every record it accepts, restore equals a crash function stated without validation: one testimony per destroyed authority, an abandonment for a tokenless operation, everything else kept. |
| Resume.CrashTestimonyIsOfItsKind | crates/liminal-protocol/src/client/resume.rs:195-219 | The kind of authority each testimony names, for detaches, other operations, permits and attempts, and what an abandonment carries. |
| Resume.CrashIsIdempotent | crates/liminal-protocol/src/client/resume.rs:178-236 | A second crash changes nothing. |
| Soundness.RestoreAcceptsExactly | crates/liminal-protocol/src/client/resume.rs:323-448 | Restore accepts facts if and only if binding, slot, coupling, terminal, reconnect counter, testimony and abandonment are all consistent. |
| Soundness.RestoreRefusesFirst | crates/liminal-protocol/src/client/resume.rs:323-448 | Each restore error names its own broken invariant. |
| Soundness.TerminalMatchesExactly | crates/liminal-protocol/src/client/resume.rs:450-491 | A terminal is accepted if and only if the value it stores names the retained detach. |
| Soundness.PersistRefusesExactly | crates/liminal-protocol/src/client/resume.rs:246-289 | The write side refuses if and only if the slot and the active replay disagree, and then restore would refuse too. |
| Soundness.RestoreIsClosed | crates/liminal-protocol/src/client/resume.rs:178-236 | Whatever restore yields it accepts again and yields unchanged. |
| Bytes.BigEndianRoundTrips | crates/liminal-protocol/src/client/resume_encode.rs:246-252 | The big-endian bytes of a number that fits denote that number. |
| Bytes.BigEndianIsCanonical | crates/liminal-protocol/src/client/resume_decode.rs:418-424 | Every byte string of a width is the encoding of the number it denotes. |
| ResumeCodec.ReadBindingFront | crates/liminal-protocol/src/client/resume_encode.rs:38-89 | An encoded binding decodes to itself and leaves what follows it, for all four states. |
| ResumeCodec.BindingIsCanonical | crates/liminal-protocol/src/client/resume_decode.rs:56-100 | Accepted binding bytes are the encoding of the binding they yield. |
| ResumeCodec.ReadReconnectFront | crates/liminal-protocol/src/client/resume_encode.rs:190-223 | An encoded reconnect section decodes to itself. |
| ResumeCodec.ReconnectIsCanonical | crates/liminal-protocol/src/client/resume_decode.rs:232-265 | Accepted reconnect bytes are the encoding of the section they yield. |
| ResumeCodec.TerminalOfExactly | crates/liminal-protocol/src/client/resume_decode.rs:193-229 | A tag and a value name a terminal if and only if both are that terminal's own and a refusal would not hold one of the three answering values. |
| ResumeRoundTrip.ReadExpectedFront | crates/liminal-protocol/src/client/resume_encode.rs:91-108 | An encoded slot decodes to itself. |
| ResumeRoundTrip.ReadReplayFront | crates/liminal-protocol/src/client/resume_encode.rs:146-188 | An encoded replay decodes to itself, or is refused exactly when a refusal terminal holds an answering value. |
| ResumeRoundTrip.ReadAbandonmentFront | crates/liminal-protocol/src/client/resume_encode.rs:125-144 | An encoded abandonment decodes to itself, or is refused exactly when it does not hold an observer recovery. |
| ResumeRoundTrip.ReadExpectedIsCanonical | crates/liminal-protocol/src/client/resume_decode.rs:102-136 | Accepted slot bytes are the encoding of the slot they yield. |
| ResumeRoundTrip.ReadReplayIsCanonical | crates/liminal-protocol/src/client/resume_decode.rs:138-230 | Accepted replay bytes are the encoding of the replay they yield. |
| ResumeRoundTrip.ReadAbandonmentIsCanonical | crates/liminal-protocol/src/client/resume_decode.rs:282-331 | Accepted abandonment bytes are the encoding of the abandonment they yield. |
| ResumeRoundTrip.DecodeInvertsEncode | crates/liminal-protocol/src/client/resume_encode.rs:18-36 | Over any round-tripping frame codec, decoding an encoding returns the facts if and only if they are representable. |
| ResumeRoundTrip.EncodeInvertsDecode | crates/liminal-protocol/src/client/resume_decode.rs:16-54 | Over any canonical frame codec, every accepted record re-encodes to itself. |
| ResumeRoundTrip.OneStateOneEncoding | crates/liminal-protocol/src/client/resume_decode.rs:197-212 | Two accepted records of the same facts are the same bytes. |
| ResumeRoundTrip.FreshRecordIsFixed | crates/liminal-protocol/src/client/resume_encode.rs:18-36 | The record of the fresh aggregate, byte for byte. |
| ResumeRoundTrip.TagsAreFixed | crates/liminal-protocol/src/client/resume_encode.rs:38-144 | The tag of every binding, slot, abandonment, reconnect and event case. |
| ResumeRoundTrip.StatusAndTestimonyTagsAreFixed | crates/liminal-protocol/src/client/resume_encode.rs:110-175 | The tag of every replay status and testimony. |
| RecordLayout.RecordLayoutIsFixed | crates/liminal-protocol/src/client/resume_encode.rs:18-36 | A record is magic, version, payload length and the six sections in order. |
| RecordLayout.BindingLayout | crates/liminal-protocol/src/client/resume_encode.rs:38-89 | The fields of each binding state, in order. |
| RecordLayout.ExpectedLayout | crates/liminal-protocol/src/client/resume_encode.rs:91-108 | The fields of a slot, in order. |
| RecordLayout.ReplayLayout | crates/liminal-protocol/src/client/resume_encode.rs:146-188 | The fields of a replay, in order. |
| RecordLayout.ReconnectLayout | crates/liminal-protocol/src/client/resume_encode.rs:190-223 | The fields of each reconnect state, in order. |
| RecordLayout.AbandonmentLayout | crates/liminal-protocol/src/client/resume_encode.rs:125-144 | The fields of an abandonment, in order. |
| DecodeErrors.HeaderRefusedExactly | crates/liminal-protocol/src/client/resume_decode.rs:16-54 | A record is refused for its magic, then its version, then its length, then a section, then trailing bytes, with what was found. |
| DecodeErrors.ShortRecordIsRefused | crates/liminal-protocol/src/client/resume_decode.rs:16-27 | A record too short for its header is truncated or refused for the field it already shows. |
| DecodeErrors.BindingBlames | crates/liminal-protocol/src/client/resume_decode.rs:56-100 | Every refusal of a binding is a truncation or blames the binding section; an unknown tag is reported as found. |
| DecodeErrors.ExpectedBlames | crates/liminal-protocol/src/client/resume_decode.rs:102-136 | Likewise the slot section. |
| DecodeErrors.ReplayBlames | crates/liminal-protocol/src/client/resume_decode.rs:138-230 | Likewise the replay section. |
| DecodeErrors.ReconnectBlames | crates/liminal-protocol/src/client/resume_decode.rs:232-280 | Likewise the reconnect section. |
| DecodeErrors.AbandonmentBlames | crates/liminal-protocol/src/client/resume_decode.rs:282-331 | Likewise the abandonment section, with the request kind it refuses. |
| DecodeErrors.NestedRefusalIsKept | crates/liminal-protocol/src/client/resume_decode.rs:112-128 | A nested frame is accepted if and only if it is a request, and its refusal is reported with the codec's own error. |
| DecodeErrors.EncodingBlamesFirst | crates/liminal-protocol/src/client/resume_encode.rs:18-28 | An encoding fails on the first section whose frame is refused, with the codec's own error. |
| ResumeReader.Reader.TakeBytes | crates/liminal-protocol/src/client/resume_decode.rs:395-406 | The cursor advances past exactly the bytes returned, or a truncation leaves it in place. |
| ResumeReader.Reader.U8 | crates/liminal-protocol/src/client/resume_decode.rs:414-416 | One byte, as the decoding function. |
| ResumeReader.Reader.U64 | crates/liminal-protocol/src/client/resume_decode.rs:422-424 | One big-endian word, as the decoding function. |
| ResumeReader.Reader.Blob | crates/liminal-protocol/src/client/resume_decode.rs:426-434 | One length-prefixed blob, as the decoding function. |
| ResumeReader.DecodeBinding | crates/liminal-protocol/src/client/resume_decode.rs:56-100 | The advancing cursor reads the binding the decoding function does, with the same error. |
| ResumeReader.DecodeExpected | crates/liminal-protocol/src/client/resume_decode.rs:102-136 | Likewise the slot. |
| ResumeReader.DecodeReplay | crates/liminal-protocol/src/client/resume_decode.rs:138-171 | Likewise the replay. |
| ResumeReader.DecodeTerminal | crates/liminal-protocol/src/client/resume_decode.rs:173-230 | Likewise a terminal under its tag. |
| ResumeReader.DecodeReconnect | crates/liminal-protocol/src/client/resume_decode.rs:232-265 | Likewise the reconnect section. |
| ResumeReader.DecodeTestimony | crates/liminal-protocol/src/client/resume_decode.rs:267-280 | Likewise a testimony tag. |
| ResumeReader.DecodeAbandonment | crates/liminal-protocol/src/client/resume_decode.rs:282-331 | Likewise the abandonment. |
| ResumeReader.DecodeRecord | crates/liminal-protocol/src/client/resume_decode.rs:16-54 | Reading one record with one cursor gives exactly the result of the section-by-section decoder, error for error. |
| ResumeWriter.Buffer.ExtendU64 | crates/liminal-protocol/src/client/resume_encode.rs:250-252 | Eight big-endian bytes are appended and nothing before them changes. |
| ResumeWriter.Buffer.ExtendBlob | crates/liminal-protocol/src/client/resume_encode.rs:238-244 | A length and its bytes are appended. |
| ResumeWriter.EncodeBinding | crates/liminal-protocol/src/client/resume_encode.rs:38-89 | The buffer grows by exactly the binding section. |
| ResumeWriter.EncodeExpected | crates/liminal-protocol/src/client/resume_encode.rs:91-108 | The buffer grows by exactly the slot section, or the frame error is returned. |
| ResumeWriter.EncodeReplay | crates/liminal-protocol/src/client/resume_encode.rs:146-188 | The buffer grows by exactly the replay section, or the frame error is returned. |
| ResumeWriter.EncodeReconnect | crates/liminal-protocol/src/client/resume_encode.rs:190-223 | The buffer grows by exactly the reconnect section. |
| ResumeWriter.EncodeAbandonment | crates/liminal-protocol/src/client/resume_encode.rs:125-144 | The buffer grows by exactly the abandonment section, or the frame error is returned. |
| ResumeWriter.EncodeRecord | crates/liminal-protocol/src/client/resume_encode.rs:18-36 | Pushing section by section gives exactly the canonical encoding, error for error. |
| Soundness.SoundIsRestorable | crates/liminal-protocol/src/client/resume.rs:260-448 | A sound aggregate is refused by neither the write side, the decoder nor restore. |
| Soundness.SoundRecordRestores | crates/liminal-protocol/src/client/resume.rs:178-289 | Encode, decode and restore of a sound aggregate is the crash function. |
| Soundness.CrashKeepsSound | crates/liminal-protocol/src/client/resume.rs:178-236 | A crash keeps the invariant. |
| Soundness.RecordKeepsSound | crates/liminal-protocol/src/client/barrier.rs:443-571 | A recorded successor is sound, and a recorded detach replaces only an older generation. |
| Soundness.ReleaseKeepsSound | crates/liminal-protocol/src/client/barrier.rs:162-170 | Releasing keeps replay and slot coupled. |
| Soundness.RecoverKeepsSound | crates/liminal-protocol/src/client/barrier.rs:197-225 | Recovery keeps the invariant. |
| Soundness.ResolveKeepsSound | crates/liminal-protocol/src/client/barrier.rs:275-311 | Resolving a loss keeps the invariant. |
| Soundness.FateKeepsSound | crates/liminal-protocol/src/client/barrier.rs:365-424 | A recorded fate keeps the invariant. |
| Soundness.AttemptKeepsSound | crates/liminal-protocol/src/client/replay.rs:384-434 | A replay attempt keeps the invariant. |
| Soundness.TransportFateKeepsSound | crates/liminal-protocol/src/client/replay.rs:456-484 | A detach fate spends the current authority and keeps slot and replay settled together. |
| Soundness.ApplyAttachKeepsSound | crates/liminal-protocol/src/client/replay.rs:495-520 | Attach supersession likewise. |
| Soundness.ApplyLeaveKeepsSound | crates/liminal-protocol/src/client/replay.rs:532-557 | Leave supersession likewise. |
| Soundness.ApplyOutcomeKeepsSound | crates/liminal-protocol/src/client/replay.rs:580-620 | A terminal outcome likewise. |
| Soundness.ReconnectIsIndependent | crates/liminal-protocol/src/client/reconnect.rs:213-542 | The reconnect machine shares no invariant with the rest of the aggregate. |
| Soundness.RotationRetiresSoundly | crates/liminal-protocol/src/client/inbound.rs:317-325 | An attach receipt retires its slot, raises the generation by one and supersedes an older replay. |
| Soundness.EnrollmentRetiresSoundly | crates/liminal-protocol/src/client/inbound.rs:313-316 | An enrollment receipt retires its slot soundly and binds at generation one on the slot's conversation. |
| Soundness.DetachAnswerRetiresSoundly | crates/liminal-protocol/src/client/inbound.rs:326-349 | Each of the three detach answers terminalizes its own replay honestly. |
| Soundness.DepartureRetiresSoundly | crates/liminal-protocol/src/client/inbound.rs:350-361 | Leave and retirement leave the binding and settle the replay. |
| Soundness.RefusalRetiresSoundly | crates/liminal-protocol/src/client/inbound.rs:240-297 | A value no arm answers still settles slot and replay together, whatever kind it is. |
| Soundness.RetireKeepsSound | crates/liminal-protocol/src/client/inbound.rs:266-297 | Every correlated value keeps the invariant and moves the binding lawfully. |
| Soundness.RetireTouchesOnlyItsOwn | crates/liminal-protocol/src/client/inbound.rs:266-297 | Retiring never touches counter, reconnect machine, abandonment or the retained detach. |
| Receipts.EnrollmentGrants | crates/liminal-protocol/src/client/inbound.rs:403-414 | After an enrollment receipt the binding is live under its epoch and accepts exactly observer recovery and what presents the granted participant at generation one, any secret being the granted one. |
| Receipts.AttachGrants | crates/liminal-protocol/src/client/inbound.rs:443-463 | After an attach receipt, the same at the successor generation and new secret; without a secret only if the receipt is live. |
| Receipts.DetachKeepsTheSecret | crates/liminal-protocol/src/client/inbound.rs:326-339 | After a committed detach exactly observer recovery and requests presenting the old secret are accepted. |
| Receipts.DepartureEndsBinding | crates/liminal-protocol/src/client/inbound.rs:350-361 | After leave or retirement nothing is accepted, and the left binding carries the identity and generation the value names. |
| Receipts.OtherValuesKeepBinding | crates/liminal-protocol/src/client/inbound.rs:362-399 | No other value moves the binding, a released enrollment receipt included. |
| Receipts.RetiredDetachKeepsItsAnswer | crates/liminal-protocol/src/client/inbound.rs:266-297 | A retired detach keeps the very value that retired it under its own kind, unless that is a retirement at or past its generation. |
| Receipts.OtherSlotsMoveReplayExactly | crates/liminal-protocol/src/client/inbound.rs:311-401 | Retiring any other slot supersedes the replay on an attach, ends it on a departure that covers it, and otherwise leaves it. |
| Progress.LiveAnswerIsAdopted | crates/liminal-protocol/src/client/inbound.rs:119-238 | In every run, any value naming a live operation, under its correlation, retires exactly that slot. |
| Soundness.SealedDoorRetires | crates/liminal-protocol/src/client/inbound.rs:119-238 | An applied value retires the slot if and only if it does not bypass it; a bypassing one changes nothing. |
| Soundness.DoorRetiresExactly | crates/liminal-protocol/src/client/inbound.rs:119-238 | The sealed door retires the slot if and only if the correlation is current, no loss is pending and the value names the slotted request. |
| MachineInvariant.StepKeepsInv | crates/liminal-protocol/src/client/authority_property_tests.rs:154-247 | Every event of the machine, crash included, keeps the inductive invariant. |
| MachineInvariant.RunKeepsInv | crates/liminal-protocol/src/client/authority_property_tests.rs:154-247 | Every world any run of any length reaches satisfies the invariant. |
| MachineInvariant.RecordsAreFaithful | crates/liminal-protocol/src/client/resume.rs:178-289 | Canonical records over any round-tripping frame codec give back exactly the crash of every sound aggregate. |
| MachineInvariant.CrashKeepsInv | crates/liminal-protocol/src/client/resume.rs:178-236 | A crash destroys every handle and keeps the books balanced through its loss atoms. |
| MachineInvariant.CommitKeepsInv | crates/liminal-protocol/src/client/barrier.rs:127-132 | Committing appends to the log a detach only of a strictly newer generation. |
| MachineInvariant.CorrelatedKeepsInv | crates/liminal-protocol/src/client/inbound.rs:119-150 | The sealed door, applied or refused, retiring or bypassing, keeps the invariant. |
| MachineInvariant.NoPermitToRecover | crates/liminal-protocol/src/client/reconnect.rs:288-320 | No run ever holds an unissued permit. |
| MachineInvariant.UnsealedDoorIsInert | crates/liminal-protocol/src/client/inbound.rs:110-115 | The unsealed door never changes the aggregate. |
| Guarantees.EveryRecordRestores | crates/liminal-protocol/src/client/resume.rs:178-289 | In every run from the fresh aggregate, the write side never reports a decoupled replay, and whatever it encodes decodes to the same facts and restores to their crash. |
| Guarantees.AuthorityIsConserved | crates/liminal-protocol/src/client/barrier.rs:162-311 | After every step of every run: issued equals consumed plus live plus pending loss atoms plus at most one stranded authority, for sends and for reconnects. |
| Guarantees.DisciplinedRunsConserve | crates/liminal-protocol/src/client/inbound.rs:135-138 | When handles are not dropped and bypassing values use the unsealed door, nothing is ever stranded and conservation is exact. |
| Guarantees.DoorStrandsExactly | crates/liminal-protocol/src/client/inbound.rs:161-174 | The sealed door strands the correlation if and only if it is live and the value is a matching acknowledgement answer or a transport rejection. |
| Guarantees.StrandsExactly | crates/liminal-protocol/src/client/inbound.rs:161-174 | A step strands the live send authority if and only if it drops its handle or passes the sealed door with such a value. |
| Guarantees.CrashTestifiesEachLoss | crates/liminal-protocol/src/client/resume.rs:195-219 | A crash adds exactly one loss atom for each authority it destroys, live or stranded. |
| Guarantees.ReplayStaysCoupledAndHonest | crates/liminal-protocol/src/client/inbound.rs:266-297 | After every step the replay is active if and only if the slot holds its detach, parked when unissued and in flight when issued, and every terminal names its detach and never hides an answer. |
| Guarantees.OneDetachPerGeneration | crates/liminal-protocol/src/client/barrier.rs:538-569 | Committed detaches of a run have strictly increasing generations. |
| Guarantees.NoWedgeAfterRotation | crates/liminal-protocol/src/client/replay.rs:115-151 | With the slot free a detach at the bound generation is admitted if and only if the counter is not exhausted and no replay of that generation is retained; an older one is always superseded. |
| Guarantees.LiveHandlesAreNeverStale | crates/liminal-protocol/src/client/barrier.rs:365-424 | Every live correlation of a run is current and its lifecycle exit is accepted. |
| Guarantees.ReconnectHandlesAreNeverStale | crates/liminal-protocol/src/client/reconnect.rs:418-542 | Every held permit redeems and every held attempt records its fate. |
| Guarantees.AckCorrelationsAreInert | crates/liminal-protocol/src/client/barrier.rs:459-467 | A continuous-acknowledgement correlation, presented anywhere, changes nothing. |
| Guarantees.LateResponsesAreHarmless | crates/liminal-protocol/src/client/correlation.rs:212-307 | If tokens are never reused, a non-settlement value answering an earlier token-bearing operation is refused, whatever handle carries it. |
| Guarantees.SettlementRetiresByFamily | crates/liminal-protocol/src/client/inbound.rs:208-237 | A settlement refusal under current authority retires the slot if and only if family and conversation match. |
| Counterexamples.SealedDoorCanStrand | crates/liminal-protocol/src/client/inbound.rs:135-174 | A five-event run from the fresh aggregate, for any enrollment, that strands its authority: exact conservation fails without the discipline. |
| Counterexamples.LateSettlementCanRetire | crates/liminal-protocol/src/client/inbound.rs:208-237 | A run with no token reused in which a settlement refusal of an earlier enrollment retires a later one on the same conversation. |
| BindingHistory.StepMovesBinding | crates/liminal-protocol/src/client/inbound.rs:311-492 | One step moves the binding only as an applied attach, enrollment, leave or retirement allows. |
| BindingHistory.BindingIsMonotone | crates/liminal-protocol/src/client/inbound.rs:157-159 | Over any continuation: left is absorbing, identity never changes, and the generation rises by exactly the number of attach receipts applied. |
| StaleStorage.ShelfRunKeepsInv | crates/liminal-protocol/src/client/resume.rs:182-207 | Runs that may crash to any record ever persisted keep the numbering of operations, records and releases. |
| StaleStorage.TokenlessAtMostOnce | crates/liminal-protocol/src/client/barrier.rs:162-225 | Over any run and any stale records, two releases of one recorded operation carry the same request, and a tokenless one is released once, by the barrier, never again. |
| StaleStorage.StaleCrashAbandons | crates/liminal-protocol/src/client/resume.rs:182-207 | A crash to any record holding a tokenless operation surfaces exactly that request as an abandonment and empties the slot. |
| Progress.OnlyCrashFreesStranded | crates/liminal-protocol/src/client/inbound.rs:135-174 | Once an authority is stranded, no crash-free continuation of any length frees its slot. |
| Progress.UnstrandedSlotSettles | crates/liminal-protocol/src/client/barrier.rs:197-424 | From every reachable unsealed state with nothing stranded, a crash-free continuation empties the slot or parks its detach ready to start. |
| Progress.CrashSettlesStranded | crates/liminal-protocol/src/client/resume.rs:178-236 | A crash followed by resolving the loss settles a stranded slot. |
| Capacity.ChargeAndProductFit | crates/liminal-protocol/src/algebra/capacity.rs:28-34 | The unchecked multiply and add of the baseline cannot overflow 128 bits. |
| Capacity.BaselineExact | crates/liminal-protocol/src/algebra/capacity.rs:15-35 | The baseline is the retained charge plus one marker per uncredited slot, and fails exactly when credits exceed slots. |
| Capacity.CreditExchange | crates/liminal-protocol/src/algebra/capacity.rs:15-35 | Turning a reserved marker into a retained one leaves the baseline unchanged. |
| Capacity.ChecksAreExact | crates/liminal-protocol/src/algebra/capacity.rs:42-108 | In unbounded arithmetic, whichever checked addition overflows: the zero-debt failure names the first dimension over the cap, and absolute fit is baseline plus claim within the cap. |
| Capacity.ChecksCoincide | crates/liminal-protocol/src/algebra/capacity.rs:42-215 | On every input absolute fit holds if and only if debt is within the bound, and debt is zero if and only if zero-debt admission holds. |
| Capacity.DebtIsLeast | crates/liminal-protocol/src/algebra/capacity.rs:78-108 | In each dimension debt is the least amount the cap must rise by, or the maximum when the sum does not fit. |
| Capacity.NoEdgeLegalExactly | crates/liminal-protocol/src/algebra/capacity.rs:163-177 | For any reported debt: legal without an edge if and only if the debt is zero and baseline, bound and claim fit the cap together. |
| Capacity.TransfersConserve | crates/liminal-protocol/src/algebra/capacity.rs:119-159 | Any sequence of transfers moves exactly its total from claim to baseline. |
| Capacity.TransfersKeepDebt | crates/liminal-protocol/src/algebra/capacity.rs:84-159 | So debt, both checks and legality stay fixed over any sequence, for every bound and cap. |
| Capacity.LegalTransferExact | crates/liminal-protocol/src/algebra/capacity.rs:119-159 | From a legal state a transfer fails if and only if the charge exceeds the claim, in the first such dimension. |
| Capacity.UnclaimedTransferFails | crates/liminal-protocol/src/algebra/capacity.rs:119-132 | In any state a charge over the claim fails in the first dimension it is over. |
| Capacity.LegalTransfersExact | crates/liminal-protocol/src/algebra/capacity.rs:119-159 | From a legal state a sequence succeeds if and only if its total fits the claim. |
| Capacity.ClaimedTransferExact | crates/liminal-protocol/src/algebra/capacity.rs:133-148 | In any state a charge within the claim fails exactly where it overflows the baseline. |
| Capacity.IllegalTransferOverflows | crates/liminal-protocol/src/algebra/capacity.rs:133-148 | Outside legal states that overflow occurs. |
| Floor.MarkerClampedFloor | crates/liminal-protocol/src/algebra/floor.rs:41-57 | The clamp only lowers, never passes the lowest marker, and lands on the computed floor or the marker itself. |
| Floor.ReleasesExactly | crates/liminal-protocol/src/algebra/floor.rs:105-137 | A floor computation releases a sequence if and only if it is below the current or capacity floor, or every member and the observer have passed it. |
| Floor.FloorPartsExact | crates/liminal-protocol/src/algebra/floor.rs:105-137 | The cursor used is the lowest member or the watermark, the preferred floor one past the lower of it and the observer, and the result the highest of the three. |
| Floor.AdmissibleExactly | crates/liminal-protocol/src/algebra/floor.rs:79-97 | On any frontier an install is the measurement clamped under the watermark and every marker, made if and only if it is not below the retained floor. |
| Floor.RemintedFloorIsAccepted | crates/liminal-protocol/src/lifecycle/claim_frontier/binding_fate_transition.rs:94-121 | Neither guard of the installing enforcer can fire on a re-minted floor, on any frontier. |
| Floor.EnforcedExactly | crates/liminal-protocol/src/lifecycle/claim_frontier/binding_fate_transition.rs:94-121 | The enforcer accepts a floor if and only if it is in the retained range and passes no marker, tells the two refusals apart, and keeps exactly the rows not below it. |
| Floor.InstallExact | crates/liminal-protocol/src/lifecycle/operations/live_frontier/binding_fate_transition.rs:148-201 | An install raises the floor to the clamped measurement, keeps every marker, and is subsumed if and only if the measurement is below the retained floor. |
| Floor.InstallAllExact | crates/liminal-protocol/src/algebra/floor.rs:79-97 | Any sequence of stale installs equals one install of the highest measurement. |
| Floor.StaleInstallsCommute | crates/liminal-protocol/src/algebra/floor.rs:79-97 | The same measurements in any order and multiplicity give the same frontier; the floor never falls, never passes the lowest marker or one past the watermark, and no marker is lost. |
| FloorRuns.RunsNeverRefuse | crates/liminal-protocol/src/lifecycle/claim_frontier/binding_fate_transition.rs:94-121 | In any interleaving of appends, drains, drops, admissions, measurements and installs no install is refused, the floor never falls, and the retained rows stay exactly the range a restore accepts. |
| FloorRuns.MeasurementReleasesExactly | crates/liminal-protocol/src/lifecycle/operations/binding_fate.rs:433-503 | A measurement within the watermark is taken, and releases a sequence if and only if no marker is at or below it and the floor rule releases it. |
| FloorRuns.AdmittedExactly | crates/liminal-protocol/src/lifecycle/operations/ordinary_record_projection.rs:713-750 | An ordinary record is admitted if and only if the watermark can rise, the observer is within it and the capacity floor within the observer. |
| FloorRuns.AdmissionKeepsExactly | crates/liminal-protocol/src/lifecycle/operations/ordinary_record_projection.rs:1267-1286 | It keeps exactly the rows and markers its floor does not release. |
| FloorRuns.StaleMeasurementsInstallExactly | crates/liminal-protocol/src/lifecycle/operations/live_frontier/binding_fate_transition.rs:107-130 | However stale, a clamped measurement installs exactly itself and keeps every marker, or is subsumed exactly when the floor has passed it. |
| FloorRuns.UnclampedMeasurementIsRefused | crates/liminal-protocol/src/lifecycle/operations/binding_fate.rs:445-497 | For every sound frontier and every measurement: without the marker clamp the enforcer refuses it if and only if it passes the lowest marker, and with the clamp never. |
| FloorRuns.ClampCanBind | crates/liminal-protocol/src/lifecycle/operations/binding_fate.rs:445-497 | A frontier on which the clamp is needed. |
| FloorRuns.RetainKeepsContiguous | crates/liminal-protocol/src/lifecycle/claim_frontier.rs:5085-5150 | Retaining from a floor keeps the rows contiguous from that floor to the watermark. |
| Closure.Snapshot | crates/liminal-protocol/src/lifecycle/closure_accounting.rs:210-230 | Headroom plus baseline is the cap in both dimensions: the unchecked subtractions never underflow. |
| Closure.SnapshotsAreExact | crates/liminal-protocol/src/lifecycle/closure_accounting.rs:210-230 | Two valid accountings under one cap have equal snapshots if and only if they are equal up to the conversation an edge names: no debt saturates. |
| Closure.SnapshotDisclosesAccounting | crates/liminal-protocol/src/lifecycle/closure_accounting.rs:210-230 | Read back under the cap, each disclosed field is the accounting's own, and the charge the one it was taken under. |
| Closure.WireEdgeShowsStored | crates/liminal-protocol/src/lifecycle/closure_accounting.rs:488-525 | Each wire edge shows its stored edge field by field, up to the conversation. |
| Closure.ValidateRefusesFirst | crates/liminal-protocol/src/lifecycle/closure_accounting.rs:89-136 | Each validation error names its own failed check. |
| Closure.EmptyPlanIsRefused | crates/liminal-protocol/src/lifecycle/closure_accounting.rs:257-263 | A plan is refused if and only if it is empty. |
| Closure.FoldIsMaximum | crates/liminal-protocol/src/lifecycle/closure_accounting.rs:257-271 | The folded maximum bounds every successor and each component is attained. |
| Closure.GateExact | crates/liminal-protocol/src/lifecycle/closure_accounting.rs:405-459 | The gate passes if and only if no delivered marker waits, churn fits and every successor fits in both dimensions. |
| Closure.GateRefusesFirst | crates/liminal-protocol/src/lifecycle/closure_accounting.rs:405-459 | A refusal names the first failing check, and a capacity refusal the worst successor and the cap. |
| Closure.ChargedAccountingStaysValid | crates/liminal-protocol/src/lifecycle/closure_accounting.rs:421-430 | Within capacity the gate passes if and only if charging the cycles leaves a valid accounting. |
| Closure.OrdinaryAgrees | crates/liminal-protocol/src/lifecycle/closure_accounting.rs:278-313 | When the ordinary plan exists, the gate verdict and failing dimension are those of zero-debt admission. |
| Closure.OverflowAgrees | crates/liminal-protocol/src/lifecycle/closure_accounting.rs:278-313 | When it overflows zero-debt admission fails too, in the same dimension if and only if entries were not already over. |
| Closure.OverflowDimensionCanDiffer | crates/liminal-protocol/src/lifecycle/closure_accounting.rs:278-313 | An input on which the two dimensions differ. |

## Left out

- The participant-frame codec (crates/liminal-protocol/src/wire/codec.rs): a parameter with round-trip and canonicity hypotheses.
- Per-kind payloads of server values that the client never reads: kept as opaque detail.
- Two processes restoring the same bytes: the crate declares this outside its scope, and a crash here consumes the root and every handle.
- Secret redaction and compile-time non-cloneability: handles are multiset members instead.
- Status accessors and refusal result payloads that copy a field (binding status, reconnect delay results): they would only add easy members.
- 32-bit platforms, where a declared length may not fit the address space.
- The capacity search of ordinary admission (crates/liminal-protocol/src/lifecycle/operations/ordinary_record_projection.rs:1013-1088): the capacity floor it settles on is a parameter of `FloorRuns.Admit`, bounded as the admission checks it.
- The anchor refusal of ordinary admission (crates/liminal-protocol/src/lifecycle/operations/ordinary_record_projection.rs:1060-1076): `FloorRuns` lets an admission drop a retained marker below its capacity floor where the source refuses if the marker is an unaccepted anchor. The model has more runs than the source, so what holds of every run holds of the source's.
- Retained charges and the closure accounting a floor install releases: floor runs keep rows and markers by delivery sequence only.
- The floor install is modelled on values: the source consumes the frontier and returns it, so no aliasing is lost.
- The frontier's identity ranks, order and sequence ledgers, and the attach, leave and conversation lifecycles of the server.
- SDK transports, embedded handles, server metrics, gates and the TypeScript client.
