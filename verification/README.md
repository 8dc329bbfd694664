# Secret chats, verified

A Dafny model of the secret-chat protocol engine of `telethon_secret_chat`, with proofs of what it promises between
two honest ends, across crashes, and in its stand-alone algorithms. `dafny verify dfyconfig.toml` checks everything.

## What is modelled

**Sequenced delivery** (`Framing`, `Sequence`, `Steps`, `Delivery`, `Lingering`, `SpanHistory`). Each end numbers its
messages, transforms the numbers by parity, queues what arrives ahead, asks once per hole, keeps what it sent until
the echo acknowledges it, and puts what it accepts into a durable mailbox. `Sequence` states each operation as a
function on values, and `Steps` says of each, for any state and any input, what it does; `Delivery` puts two ends
together over a network that may lose, repeat and reorder frames. A run is any list of sends, due requests,
deliveries, withdrawals, transmission marks and arrivals of any slot ever committed, in original or withdrawn form,
any number of times. A crash between commits changes nothing in this state, which is why it needs no step. `Lingering`
says which acknowledged slots stay retained, `SpanHistory` what a resend span is worth by the time it is written.

**Rekey** (`Rekey`, `RekeyPhases`, `RekeyRun`, `RekeyRecords`, `RekeyRewrite`, `RekeySpent`, `RekeyLive`, `RekeyTies`,
`RekeyWitness`, `Dh`). The four-action exchange, the tie-break, the implicit switch and the retirement of the old key,
over any number of exchanges, running on top of `Delivery`. `RekeyPhases` lists every joint phase two ends can be in;
`RekeyRun` carries those phases, the key each slot is under and the mailboxes through every run, and `RekeyRecords`
ties them to the key that each stored record names. `RekeyRewrite` adds withdrawn content, re-encrypted under a newer
key, and says exactly when it is harmless; `RekeySpent` follows what redelivery can still do, `RekeyLive` what every
open exchange is waiting for, `RekeyTies` two ends that draw the same id, and `RekeyWitness` plays out the runs that
go wrong.

**The program's own form** (`Chat`, `Storage`, `Sequencing`, `Exchange`, `Receiving`, `Outbox`, `Dispatching`,
`Refinement`). The chat entity and the store are classes whose methods change fields in place, inside nested
transactions; each commit is proved to leave exactly the value-level state, or to restore chat and store together.
`Refinement` puts two such ends side by side: each commit of either is one step of the two-end run, so what holds of
every run holds of the two chats.

**Ingress** (`Ledger`, `Captures`, `Journal`, `Draining`, `Handing`, `Ingress`, `Jams`, `Relay`, `Consumer`). The
chain of captured batches is part of the stored document. `Journal` is the disk as a state machine: each commit that
marks an update makes its effect as well, and the protocol state is what the recorded commits made of it. `Draining`
is a drain as a function, for any rule that says how one update is handled, and proves when it comes through and what
stops it for good; `Handing` is the rule of this program. `Ingress` is the coordinator: it stages a mark, commits it
in the receive transaction of the frame, publishes it afterwards, and can crash between the two; each of its steps
leaves on disk, log included, exactly what `Handing` and `Draining` say. It also guards acknowledgements. `Jams` draws
the consequences for a frame that no held key opens. `Relay` and `Consumer` are the custody of delivered messages, in
the same document.

**Algorithms** (`Primality`, `Ige`, `Frame`, `Schema`, `SchemaReader`, `Ogg`). Miller-Rabin, streamed file encryption,
the message frame, the generated TL writers and readers, and Ogg packet reassembly. `Prelude` and `Octets` hold what
several modules share.

## What the proofs found

- A request that is handled and removed from the mailbox in two commits can be handled twice. When the first
  handling's exchange has completed and its old key is gone, the second opens that exchange again with another key,
  and the commitment still queued behind it then closes the chat. `RedeliveryCloses` is such a run from the opening,
  `RedeliveredRequestCloses` shows what it does to the key slots for all keys and groups, and `RequestIsInert` the
  exact condition; the other three actions can be handled again at any later time (`SettledActionsAreSpent`).
  `receive.py:159-166` removes the request in a commit of its own; `strong_manager.py:125-147` removes it in the
  commit of its effect. The run theorems are about the second form.
- Content withdrawn after a switch is re-encrypted under the current key in its old slot (`outbox.py:86`). Such a
  frame switches a receiver that has not switched yet, and confirms the new key at one that has (`receive.py:84-90`),
  so it can make the receiver drop the old key while slots under it are still to come. `AfterTheSwitch` and
  `BeforeTheSwitch` are runs from the opening in which a slot is lost that way. `RewrittenSlot` gives the exact
  condition: the frame is harmless if and only if every slot still missing under an older key is below it or below
  something the receiver has queued; and while it is not, ordinary arrivals alone lead to a slot that can no longer be
  read. What the withdrawing end can check by itself, once and for all, is that nothing it sent after that slot is
  under an older key (`WithdrawnWithNothingOlder`; for a receiver with nothing queued the check is exact,
  `OlderBehindDecides`). `TwoKeyWindow` is about the frames as first committed.
- A resend span is exactly the missing run when it is decided (`SpanDecided`), but it can name slots that have arrived
  by the time it is written: `outbox.py:171` only moves its start (`WrittenSpanOutOfDate`). It names only missing
  slots if and only if none of the slots that it then names has come since it was decided (`WrittenSpanHistory`). The
  peer resends the others for nothing.
- Records answered to a resend go back into the outbox after the acknowledgement drop (`receive.py:113-114`), so an
  outbox can hold slots that the peer has acknowledged. `LingeringRun` is such a run from the start. A receive leaves
  such a slot if and only if the answered span starts below the new echo (`SpanStartsBelow`); over every run only
  receives change which ones there are, and each leaves exactly those of the span it answered (`LingeringSlots`).
- There are no savepoints: a failure swallowed inside an open transaction keeps its changes
  (`SwallowedFailureKeepsChanges`).
- The rekey role "committed", which `rekey.py:128` and `chat.py:437` allow for, is never assigned; the model has two
  roles.
- A due resend request whose span has emptied only clears its mark in memory (`outbox.py:170-172`). Between honest
  ends that branch is never taken (`DueSpanCoversTheHole`).
- A frame that names a key the chat does not hold is never marked and pauses nothing (`receive.py:65-67`,
  `strong_manager.py:225-228`), and neither does one that fails to decrypt or unwrap under a held key without ending
  the chat (`receive.py:69`, `receive.py:117-122`). When its turn comes, the drain ends refused there, with everything
  behind it still pending, and so does every later drain, whatever is captured behind it (`UnopenedEndsDrains`,
  `JamLasts`), as long as the conversation is not paused and the chat does not come to hold the key. With successful
  writes and nothing else going wrong a drain comes through if and only if every update handed over is welcome at its
  turn; for a frame of this conversation that is: a held key opens it, and it can be read or ends the chat
  (`DrainComesThrough`). Such a frame is captured like any other (`UnopenedIsCaptured`), and two honest ends suffice
  for it: once an old key has been retired, a mere repeat of a slot that was accepted under it is one, because keys
  are looked up before numbers (`RepeatUnderARetiredKey`).
- The generated writer of 128- and 256-bit integers writes as many zero bytes as the number says; its reader never
  returns the number (`WideNeverReturns`). No declared constructor has such a field.

## Model

| member | source | states |
|---|---|---|
| Delivery.Safety | telethon_secret_chat/sequence.py:37-131 | From the start state, a run is fatally refused if and only if some arriving frame is more than 1000 slots ahead; after any other run each end has accepted exactly the first in_seq_no slots the other committed, in order, each once. |
| Delivery.RunHonest | telethon_secret_chat/sequence.py:37-131 | A run completes if and only if it stays within the window, and then keeps the two-end invariant. |
| Delivery.ExecHonest | telethon_secret_chat/receive.py:55-116 | One step of either end is refused if and only if it is a fresh frame beyond the window; otherwise the invariant survives. |
| Delivery.PreflightHonest | telethon_secret_chat/sequence.py:37-66 | An honest frame is a replay, is beyond the window, or passes every check: parity, echo, layer and the queue count never refuse it. |
| Delivery.QueueBelowCount | telethon_secret_chat/sequence.py:45-56 | By pigeonhole the queue holds fewer than 1000 items when a frame inside the window arrives ahead, so the count guard never fires. |
| Delivery.DrainHonest | telethon_secret_chat/sequence.py:103-118 | The re-check of queued items during the drain never fails between honest ends, and takes exactly the contiguous run. |
| Delivery.AcceptHonest | telethon_secret_chat/sequence.py:84-131 | Acceptance keeps the gap-queue invariant: queued numbers lie in (in_seq_no, in_seq_no + 1000], a gap is requested if and only if the queue is nonempty, its end is queued. |
| Delivery.AnswerHonest | telethon_secret_chat/sequence.py:134-148 | An honest resend request can be satisfied whenever and in whatever order it arrives. |
| Delivery.RetainedAfter | telethon_secret_chat/receive.py:106-114 | After a receive commit every slot from the peer's echo up to out_seq_no is still retained. |
| Delivery.SpanDecided | telethon_secret_chat/sequence.py:93-131 | A receive decides a resend span if and only if it leaves a hole that was not open before; the span then runs from in_seq_no to just below the first queued slot, and no slot in it is queued. |
| Delivery.DecidedSpans | telethon_secret_chat/sequence.py:93-131 | Over every run, a span that was not due before a step is one that an arriving frame opened, and is exactly the missing run. |
| Delivery.DueSpanCoversTheHole | telethon_secret_chat/outbox.py:166-173 | When the request is written, its span runs from in_seq_no to just below the end of the hole, is never empty and can be answered. |
| Delivery.WrittenSpanExact | telethon_secret_chat/outbox.py:166-173 | In every invariant state the span about to be written names only missing slots if and only if no slot below the end of the hole waits in the queue. |
| SpanHistory.QueueHistory | telethon_secret_chat/sequence.py:84-131 | Over every run, what waits in the queue of an end is what waited before or has come since, as far as the counter has not passed it. |
| SpanHistory.WrittenSpanHistory | telethon_secret_chat/outbox.py:166-173 | Over every run from the step that decided a span to the step that writes it: the request names only missing slots if and only if none of the slots it names has come in between. |
| Delivery.WrittenSpanOutOfDate | telethon_secret_chat/outbox.py:166-173 | A run after which the due span names a slot that waits in the queue. |
| Lingering.SpanStartsBelow | telethon_secret_chat/receive.py:105-114 | A receive leaves a retained slot that the peer has acknowledged if and only if it answers a span that starts below the new echo. |
| Lingering.LingeringSlots | telethon_secret_chat/receive.py:105-114 | Over every run, only the receive of a new frame changes which acknowledged slots are retained, and it leaves exactly the part of the answered span that lies below the echo. |
| Lingering.LingeringRun | telethon_secret_chat/receive.py:113-114 | A run from the start after which an outbox holds a slot that the peer has acknowledged. |
| Delivery.RequestHonest | telethon_secret_chat/outbox.py:158-179 | Writing the due request consumes the mark in the same commit and keeps the invariant, so no hole is orphaned. |
| Delivery.HoleCovered | telethon_secret_chat/sequence.py:93-131 | In every state with a gap, each missing slot below its end is covered by the due span or by a request already committed. |
| Delivery.EchoAcknowledges | telethon_secret_chat/receive.py:88-106 | Between honest ends a receive reports a record as acknowledged if and only if it moves the echo on, the record is retained and the new echo covers its slot; every slot from the old echo up to the new one is among them. |
| Delivery.PrefixExact | telethon_secret_chat/sequence.py:84-131 | The accepted sequence has length in_seq_no and agrees with the sent one slot by slot, service content of consumed requests aside. |
| Delivery.MailboxConserved | telethon_secret_chat/receive.py:146-166 | Over every run, the items handed out of a mailbox so far, followed by the mailbox, are exactly what the end accepted, and the items handed out are an exact prefix of what the other end sent. |
| Delivery.SendHonest | telethon_secret_chat/outbox.py:197-237 | A send commit keeps the two-end invariant. |
| Delivery.WithdrawHonest | telethon_secret_chat/outbox.py:70-90 | Rewriting retained content as self-deletes keeps every slot's number, echo and layer, and the invariant. |
| Framing.RaiseRemoteLayer | telethon_secret_chat/framing.py:143-151 | The layer known of a peer never falls, covers what was announced, and is one of the two. |
| Framing.OutgoingLayer | telethon_secret_chat/framing.py:154-162 | The layer written at is the peer's own from 73 to 144, and otherwise the nearer end of that range. |
| Steps.PreflightDecides | telethon_secret_chat/sequence.py:37-66 | For any state and any frame the peer can have numbered: a replay if its slot is counted or queued; new if echo and layer go on from what is known, it is at most 1000 slots ahead and, if ahead, fewer than 1000 frames are queued; fatal otherwise. |
| Steps.PreflightRefuses | telethon_secret_chat/sequence.py:37-56 | Any frame with numbers of another parity, or negative ones, is fatal. |
| Steps.DrainDecides | telethon_secret_chat/sequence.py:103-118 | For any state, the drain takes exactly the run queued from the next slot on, raises if and only if its echoes or layers go back or an echo is beyond what was sent, and leaves the echo and layer of its last frame. |
| Steps.AcceptDecides | telethon_secret_chat/sequence.py:100-131 | A new frame at the next slot is taken together with that run, or refused if and only if the run is out of order; its echo and layer are the new ones, and the peer's layer is raised to it. |
| Steps.GapDecides | telethon_secret_chat/sequence.py:119-131 | What still waits is what lies beyond the counter; nothing waiting means no gap; otherwise the hole before the first waiting frame is marked and due, unless an earlier one is still open. |
| Steps.AheadDecides | telethon_secret_chat/sequence.py:88-96 | A new frame further on is queued under its slot; if no gap is open, the whole hole up to it is marked and due. |
| Steps.ReceiveDecides | telethon_secret_chat/receive.py:72-116 | For any state: a new frame is received if and only if it is accepted and the slots it may ask for are all there; what becomes ready joins the mailbox in order; a record is reported acknowledged if and only if it is retained and newly below the echo. |
| Steps.ReceiveRetains | telethon_secret_chat/receive.py:106-114 | After a receive a slot is retained if and only if it was, and the echo has not passed it or it was asked for; one that was asked for is pending again, and every other record is as it was. |
| Steps.AnswerDecides | telethon_secret_chat/sequence.py:134-148 | A request for slots a to b of this end is answered if and only if they are at most 1000 and all retained, with exactly their records. |
| Steps.AnswerRefuses | telethon_secret_chat/sequence.py:134-143 | Any other pair of numbers is refused. |
| Steps.ForgetDecides | telethon_secret_chat/sequence.py:157-160 | Exactly this end's slots below the echo are dropped, and nothing else changes. |
| Steps.RequeueDecides | telethon_secret_chat/receive.py:113-114 | Answered records are retained and pending; all others are as they were. |
| Steps.SendDecides | telethon_secret_chat/outbox.py:197-237 | A send retains one record more, numbered 2n + 1 by the end that opened the chat and 2n by the other, with the echo of the opposite parity, pending and untried; the counter moves on, nothing else changes. |
| Steps.RequestDecides | telethon_secret_chat/outbox.py:158-179 | The request written for a due span names the part from the next expected slot on; if none is left only the mark is cleared. |
| Steps.DeliverDecides | telethon_secret_chat/receive.py:150-166 | Delivery takes the head of the mailbox and raises the peer's layer to what a notice says if that is more. |
| Sequence.WithdrawDecides | telethon_secret_chat/outbox.py:70-90 | Afterwards no record carries content with a withdrawn id; each that did carries its self-delete under the same numbers and layer and the current key, as pending and as often refused as before; every other record is untouched. |
| Dh.Agreement | telethon_secret_chat/handshake.py:42-60 | (g^a)^b and (g^b)^a are equal modulo p, for all exponents. |
| Rekey.HandleKeepsSlots | telethon_secret_chat/rekey.py:242-384 | Every handled action keeps the slot invariant (REKEYING iff an exchange, pending key iff acceptor, previous key never beside an exchange), makes only legal moves, and never overwrites a held previous key; it fails only on a refused value or a failed commitment. |
| Rekey.FrameKeepsSlots | telethon_secret_chat/receive.py:84-87 | The key side of a receive never fails under the invariant, and keeps it and a held previous key. |
| Rekey.BeginKeepsSlots | telethon_secret_chat/rekey.py:195-218 | A start that its guard lets through keeps the invariant and every key, and makes the end a requester under that id and secret. |
| Rekey.RequestDecides | telethon_secret_chat/rekey.py:242-295 | A request is declined while the previous key is held, ignored beside an accepted exchange or a greater id, drops an exchange with the same id, and is joined otherwise, on the key its value and the drawn secret give, with g^b in the answer; a value out of range is refused. |
| Rekey.AcceptanceDecides | telethon_secret_chat/rekey.py:298-332 | A requester in an exchange takes the offered key if and only if the public value is in range and the claim is the key it derives itself, keeps the old one beside it and commits; otherwise its keys stay, the exchange is gone and it aborts. Either goes out under the old key. |
| Rekey.CommitmentDecides | telethon_secret_chat/rekey.py:335-359 | An acceptor switches if and only if the commitment names the key it offered, and answers under it; any other commitment fails. |
| Rekey.AbortDecides | telethon_secret_chat/rekey.py:221-240 | An abort ends exactly the exchange it names, without an answer. |
| Rekey.StrayDecides | telethon_secret_chat/rekey.py:298-359 | An acceptance or commitment that is not waited for does nothing. |
| Rekey.FrameDecides | telethon_secret_chat/receive.py:84-108 | The first frame under the offered key switches to it; a frame under the current key confirms it while another is held; the other goes once the current one is confirmed and no hole is open; nothing else changes. |
| Rekey.RequestIsInert | telethon_secret_chat/rekey.py:242-295 | A valid request changes no key or exchange field if and only if the previous key is held, or an open exchange is an accepted one or has the larger id. |
| RekeySpent.SettledActionsAreSpent | telethon_secret_chat/rekey.py:298-384 | In every state of every run, an acceptance, commitment or abort that an end has handled, however long ago, leaves the end as it is when it is handled again and says nothing. |
| RekeyWitness.RedeliveryCloses | telethon_secret_chat/receive.py:146-168 | A run of two ends from the opening after which a copy of a handled request, left behind because its removal was a commit of its own, opens the finished exchange again and makes the waiting commitment close the chat; without the copy the commitment is harmless. |
| RekeyPhases.HandleTalk | telethon_secret_chat/rekey.py:242-384 | In whatever joint phase two ends are, handling what the other said leads to a joint phase; it fails exactly on a public value out of range; it switches keys exactly on an acceptance. |
| RekeyPhases.OneExchange | telethon_secret_chat/rekey.py:101-117 | An end that accepted an exchange is the only acceptor, and the other end still asks under the same id and will derive the accepted key from the acceptance under way, or has switched to exactly that key, or has its abort under way. |
| RekeyRun.StepJoint | telethon_secret_chat/rekey.py:195-384 | Every step of either end keeps the joint invariant of keys, phases, mailboxes and slot keys, or closes the chat on a refused public value. |
| RekeyRun.RunKeysInv | telethon_secret_chat/rekey.py:195-384 | The joint invariant holds after every run. |
| RekeyRun.NothingStranded | telethon_secret_chat/rekey.py:131-186 | Under the joint invariant every committed slot not yet accepted is under a key the receiver holds. |
| RekeyRun.TwoKeyWindow | telethon_secret_chat/rekey.py:131-186 | Over any number of rekeys a run closes if and only if a frame jumps beyond the window or a public value is refused; in every state reached, every slot sent and not yet accepted is under the receiver's current, pending or previous key, the epochs of the ends differ by at most one, equal epochs hold equal keys, and each end holds at most two keys. |
| RekeyRun.OneExchangeSurvives | telethon_secret_chat/rekey.py:101-117 | After any run, simultaneous requests included, at most one end has accepted an exchange, and the other still asks under the same id and derives the same key, has switched to it, or has its abort under way. |
| RekeyRecords.StoredRecordsOpen | telethon_secret_chat/outbox.py:203-235 | After every run each retained record is its slot as it was committed, under the key of the epoch it was committed in; and each slot that the other end still lacks is retained under a key that the other end holds. |
| RekeyLive.NoExchangeStuck | telethon_secret_chat/rekey.py:195-384 | In every state of every run, for each end that holds an exchange something is committed and not yet handled that leads on: an action of either end that names it, the end's own request included, or the peer's request under a greater id. |
| RekeyLive.HandlingEnds | telethon_secret_chat/rekey.py:195-384 | From every state of every run, however arrivals and handlings follow each other, no more slots are handled than a fixed load allows; and once both ends have handled all that was committed, no exchange is open. |
| RekeyLive.NextComes | telethon_secret_chat/receive.py:115-168 | An end that has not handled everything has the next item in its mailbox, or the arrival of the next slot succeeds and brings it there. |
| RekeyTies.EqualIds | telethon_secret_chat/rekey.py:101-117 | Over every run: once two ends ask under one id, neither ever accepts that exchange, no switch comes of it, neither says anything more about it, and each end holds it exactly as long as it has not handled the other's request, however far apart. |
| RekeyTies.DropsOwn | telethon_secret_chat/rekey.py:242-295 | Handling the peer's request under the end's own id leaves the end without an exchange, ready, and silent. |
| RekeyRewrite.RewrittenSlot | telethon_secret_chat/outbox.py:70-90 | From any joint state, a withdrawn frame under a newer key is harmless (every slot still missing under an older key is below it or below something queued) if and only if, from the state it leaves, every further run keeps every outstanding slot readable at both ends. |
| RekeyRewrite.RewrittenNow | telethon_secret_chat/receive.py:84-108 | The state such a frame leaves is itself readable if and only if a hole stays open or no other missing slot is under an older key. |
| RekeyRewrite.WithdrawnRunStaysReadable | telethon_secret_chat/outbox.py:70-90 | Over any number of rekeys and withdrawals, with frames of every slot in every form it was ever written: while each withdrawn frame is harmless when it arrives, every outstanding slot stays readable at both ends. |
| RekeyRewrite.FirstHarmfulFrameStrands | telethon_secret_chat/receive.py:84-108 | The first withdrawn frame that is not harmless leads, by ordinary arrivals alone, to a slot that can no longer be read. |
| RekeyRewrite.WithdrawnWithNothingOlder | telethon_secret_chat/outbox.py:70-90 | If, when an end withdraws a slot, nothing that it sent after that slot is under an older key, then in every state of every run from there the rewritten frame is harmless if it arrives then. |
| RekeyRewrite.OlderBehindDecides | telethon_secret_chat/outbox.py:70-90 | For a receiver that lacks the slot and has nothing queued, that check is exact. |
| RekeyWitness.AfterTheSwitch | telethon_secret_chat/receive.py:89-108 | A run from the opening in which a rewritten slot confirms the new key at an end that has switched and makes it drop the old key with a slot under it still to come. |
| RekeyWitness.BeforeTheSwitch | telethon_secret_chat/receive.py:84-108 | A run from the opening in which a rewritten slot switches an end that has not switched, with slots under the old key still to come. |
| Chat.SecretChat.TransitionTo | telethon_secret_chat/chat.py:213-219 | A move succeeds exactly along the transition table and otherwise changes nothing. |
| Chat.SecretChat.AdoptKey | telethon_secret_chat/chat.py:260-280 | A closed chat takes no key; otherwise the key is set and an unanswered chat becomes ready. |
| Chat.SecretChat.Close | telethon_secret_chat/chat.py:221-246 | Closing is terminal, keeps the first reason and leaves no key, exchange or pending delivery; the counters stay. |
| Chat.SecretChat.Restore | telethon_secret_chat/locking.py:86-96 | Every field returns to its snapshot. |
| Storage.MemoryStorage.Transaction | telethon_secret_chat/storage/__init__.py:125-145 | At any nesting of storage calls: an outermost transaction leaves memory and the durable document equal, to the result or, on any failure including a failed write, to the entry value; a nested one leaves its changes to the enclosing scope. A raise below scopes alone fails the whole, and nothing else but the write does. |
| Storage.MemoryStorage.Execute | telethon_secret_chat/storage/__init__.py:125-145 | Running a nesting of calls in an open scope equals its evaluation and leaves the snapshot and the durable document alone. |
| Storage.MemoryStorage.Leave | telethon_secret_chat/storage/__init__.py:267-287 | Leaving the outermost scope writes what changed; a failed write restores the snapshot. |
| Storage.SwallowedFailureKeepsChanges | telethon_secret_chat/storage/__init__.py:124-145 | A failure caught inside an open transaction undoes nothing. |
| Storage.EvalDecides | telethon_secret_chat/storage/__init__.py:124-145 | A nesting of calls fails if and only if a raise is somewhere in it below scopes alone, and leaves what the changes met up to there make of the document. |
| Storage.InOrderSorts | telethon_secret_chat/storage/__init__.py:194-213 | Reading a queue gives its items in strictly ascending order with the same contents. |
| Storage.MemoryStorage.QueueOut | telethon_secret_chat/storage/__init__.py:179-187 | The slot's record is inserted or replaced; all others stay. |
| Storage.MemoryStorage.DropOut | telethon_secret_chat/storage/__init__.py:189-192 | Exactly the records above the number stay. |
| Storage.MemoryStorage.QueueIn | telethon_secret_chat/storage/__init__.py:199-203 | The first copy of a slot is kept. |
| Sequencing.DrainQueue | telethon_secret_chat/sequence.py:103-118 | One pass over the sorted queue equals taking the next expected slot again and again: same items, same state, same failure, and what waits is exactly the later slots. |
| Sequencing.AcceptWrapper | telethon_secret_chat/sequence.py:84-131 | The in-place acceptance leaves the specified state and result, and raises exactly when the specification does. |
| Sequencing.AnswerSpan | telethon_secret_chat/sequence.py:134-148 | The answer is every slot of the span in order, or a refusal exactly when the span is malformed or a slot is missing. |
| Sequencing.ForgetAcknowledged | telethon_secret_chat/sequence.py:157-160 | Exactly the acknowledged records are dropped. |
| Sequencing.RequeueAnswer | telethon_secret_chat/receive.py:113-114 | Every answered record is retained and pending again, whether or not it was dropped. |
| Exchange.Retain | telethon_secret_chat/outbox.py:203-235 | The next wrapper is numbered and retained under the given key. |
| Exchange.SettleKeys | telethon_secret_chat/rekey.py:146-182 | The switch, confirmation and retirement of a receive commit are the specified key slots. |
| Exchange.HandleRequest | telethon_secret_chat/rekey.py:242-295 | The handler leaves the specified slots and asks for the specified reply under the key held before. |
| Exchange.HandleAccept | telethon_secret_chat/rekey.py:298-332 | Likewise, and said outright: a requester takes the key if and only if the public value is in range and the claim equals gB^secret mod p, and then commits; otherwise both keys stay and it aborts; both go out under the old key. |
| Exchange.HandleCommit | telethon_secret_chat/rekey.py:335-359 | Likewise; the answer already goes out under the new key, and a mismatch on an accepted exchange fails. |
| Exchange.StartExchange | telethon_secret_chat/rekey.py:208-212 | The exchange fields and the move are the specified ones. |
| Receiving.OnEncryptedMessage | telethon_secret_chat/receive.py:55-128 | A frame under a key the chat does not hold is refused. A taken frame leaves exactly the specified sequence state and key slots, in memory and durably, and the caller's mark with them; a replay commits the mark alone; a frame is fatal exactly when it is no replay and cannot be taken; a refusal or a failed write restores the chat and the store together. |
| Receiving.RollBack | telethon_secret_chat/locking.py:86-96 | A failed scope restores every field of the chat and the whole store. |
| Outbox.SendAction | telethon_secret_chat/outbox.py:197-237 | A send commits exactly the numbered record and leaves the keys alone, or changes nothing. |
| Outbox.RequestDueResend | telethon_secret_chat/outbox.py:158-179 | The request and the cleared mark are one commit, for exactly the part of the span still missing. |
| Outbox.RewriteRetainedAsDeletes | telethon_secret_chat/outbox.py:70-90 | No record carries content with a withdrawn id any more; each slot that did carries its self-delete, under the same numbers and layer and the current key, its other fields as before; every other record is as it was. |
| Outbox.MarkTransmitted | telethon_secret_chat/outbox.py:135-153 | The mark is cleared if and only if the slot still holds the transmitted body; no other record changes. |
| Outbox.RetryPending | telethon_secret_chat/outbox.py:243-300 | The pass leaves exactly the specified outbox, reports a failure exactly when some attempt failed, and closes the chat down to its tombstone when it must; if the closing is not written the chat stays as it was. |
| Outbox.NothingHeldBack | telethon_secret_chat/outbox.py:243-300 | Each record ends as its own answer decides, independently of every other: confirmed, no longer pending; refused content, a self-delete in its slot under the current key; a refused protocol step, one failure more; untried or unanswered, as it was. No slot is added or lost; the chat ends if and only if some attempt must end it. |
| Outbox.StartRekey | telethon_secret_chat/rekey.py:195-218 | Nothing happens while an exchange is open or the previous key is held; otherwise the numbered request and the exchange fields are one commit, or nothing changes. |
| Outbox.CloseLocal | telethon_secret_chat/manager.py:262-267 | Closing empties both queues and leaves the scrubbed record, without key, exchange or mailbox, as a tombstone, in one commit; a failed write leaves the chat open with everything it had. |
| Dispatching.DispatchHead | telethon_secret_chat/strong_manager.py:125-179 | The effect of the mailbox head, its retained reply and its removal are one commit; a failed write keeps none of them; a fatal effect closes the chat down to its tombstone. |
| Dispatching.DrainDeliveries | telethon_secret_chat/strong_manager.py:149-179 | A drain leaves exactly what handling the items one by one leaves, stops only at an empty mailbox, a failed write or the end of the chat, and what was dispatched followed by the mailbox is what was there. |
| Refinement.Conversation.Receive | telethon_secret_chat/receive.py:55-128 | Between two program ends, the receive of any slot is one arrival step of the two-end run, unless it is fatal or not written; it is fatal exactly beyond the window, and a fresh slot inside it is taken. |
| Refinement.Conversation.Say | telethon_secret_chat/outbox.py:197-237 | A send of either end is one step of the run, and a failed write is none. |
| Refinement.Conversation.Ask | telethon_secret_chat/outbox.py:158-179 | Writing the due request is one step of the run. |
| Refinement.Conversation.Begin | telethon_secret_chat/rekey.py:195-218 | Starting a rekey is one step of the run, and starts whenever the end may. |
| Refinement.Conversation.Dispatch | telethon_secret_chat/strong_manager.py:125-179 | Handling the mailbox head is one step of the run, or closes the chat on a refused value. |
| Refinement.Conversation.Readable | telethon_secret_chat/rekey.py:131-186 | After any commits of two program ends the joint invariant holds, and each slot that one of them committed and the other chat has not counted is in its store as it was committed, under a key that the other chat holds. |
| Ledger.Validate | telethon_secret_chat/ingress_validation.py:78-184 | The restart check accepts a ledger if and only if names are distinct and digests match, the qts chain ends at the checkpoint, each end state follows from its envelope, and each cursor is the first update not applied. |
| Ledger.Contiguous | telethon_secret_chat/ingress_replay.py:53-56 | The cursor moves to the first update that is not applied. |
| Captures.CaptureKeeps | telethon_secret_chat/ingress.py:256-287 | Appending a batch at the frontier keeps the chain, the cursors and the exactly-once record. |
| Captures.MarkKeeps | telethon_secret_chat/ingress_replay.py:42-59 | One more mark keeps the chain and the cursor, and makes exactly that update done. |
| Captures.DropKeeps | telethon_secret_chat/strong_manager.py:236-254 | Dropping a fully applied prefix loses no unapplied update. |
| Journal.RanConsistent | telethon_secret_chat/strong_manager.py:69-95 | After every sequence of durable commits the ledger is well formed, each mark stands for one commit that fits its update, and the stored protocol state is what the recorded commits make of the first one. |
| Journal.ExactlyOnceOnDisk | telethon_secret_chat/strong_manager.py:69-95 | On disk at every instant an update is marked if and only if exactly one commit, of those that give the stored protocol state, made its effect; for a frame of another conversation that commit is an effect there; the slot of every marked frame of this one is counted or queued; no frame that cannot be read is marked; and the rest of the store is what the last effect there, or the last commit of this end's own, made of it. |
| Journal.ReceiveMarked | telethon_secret_chat/receive.py:55-128 | A pending frame is unopened exactly when no held key opens it, fatal exactly when one does and it is neither a replay nor taken, and otherwise, if written, taken or replayed and marked in one commit of that run; anything else changes neither memory nor disk. |
| Ingress.DurableIngress.Restart | telethon_secret_chat/ingress.py:68-97 | After a crash at any instant, whatever memory held, the durable ledger passes its check, and ledger and chat are what the disk says. |
| Ingress.DurableIngress.Bootstrap | telethon_secret_chat/ingress.py:177-187 | A baseline is set only once, before any batch, and only when it was written. |
| Ingress.DurableIngress.Capture | telethon_secret_chat/ingress.py:256-287 | An envelope is accepted if and only if it is already pending, or starts at the frontier without moving it back and is written; it then joins the chain in one commit as a batch with nothing applied, the frontier moves to where it leads, and any refusal stops the coordinator. |
| Ingress.DurableIngress.GuardRequests | telethon_secret_chat/ingress.py:309-331 | Requests are let through if and only if each can be seen through at most seven wrappings and neither acknowledges beyond the durable frontier nor restarts the server state. |
| Ingress.AdmissibleDecides | telethon_secret_chat/ingress_requests.py:17-33 | Inside at most seven known wrappers: an acknowledgement is let through if and only if its qts is from 0 to the frontier; a restart of the state and a carrier of another kind never; any other request always. |
| Ingress.Unwrap | telethon_secret_chat/ingress_requests.py:17-24 | Up to seven known wrappers are stripped to the innermost request; deeper nesting or any other carrier is refused. |
| Ingress.DurableIngress.ApplyFrame | telethon_secret_chat/strong_manager.py:69-95 | A frame waits, with its conversation paused, exactly when a held key opens it and it is neither a replay nor taken; it is refused exactly when no held key opens it or its commit is not written; otherwise its receive transaction commits its mark, published unless a crash comes first, and the disk is ahead and exact. |
| Ingress.DurableIngress.ApplyBroken | telethon_secret_chat/receive.py:69-70 | A frame that does not decrypt or unwrap is never marked: it pauses the conversation if a held key opens it and the failure is fatal, and is refused otherwise. |
| Ingress.DurableIngress.ApplyUpdate | telethon_secret_chat/strong_manager.py:194-232 | What becomes of an update of any kind, what is on disk and in the log afterwards and which conversations are paused are exactly the specified ones, whatever is written and whenever it crashes; said outright for a known other conversation that answered with an effect: that effect is on disk in the commit that marks the update, and its log entry names it. |
| Handing.AnswerDecides | telethon_secret_chat/strong_manager.py:216-232 | What a known other conversation answers is what happens: its effect, and no other, is committed with the mark; or the update waits with the conversation paused; or the drain stops. |
| Handing.NoAnswerDecides | telethon_secret_chat/strong_manager.py:194-232 | Every other update leaves the rest of the store, and only a frame of this conversation changes the protocol; what is no frame is just marked, the end of a known conversation pauses it too, and an update of an unknown one stops the drain unless it is that conversation's end. |
| Handing.HandedLawful | telethon_secret_chat/strong_manager.py:194-232 | An update that is not welcome (its conversation unknown; a frame of this one that no held key opens, or that cannot be read and is not fatal) is refused whatever else happens, and a welcome one never is if all goes well; a marked update adds one log entry that fits it and its answer, one that waits has its conversation paused, a refused one leaves everything. |
| Ingress.DurableIngress.ApplyBatch | telethon_secret_chat/strong_manager.py:194-232 | The updates of a batch are handed over in order, but for those applied before and those of conversations paused by then, up to the first that is refused or crashes: outcome, disk and pauses are exactly the specified ones. Each new log entry stands for an update of this batch with the effect that was answered for it, and the rest of the store is what the last of them made of it. |
| Ingress.DurableIngress.RemovePrefix | telethon_secret_chat/strong_manager.py:236-254 | Exactly the fully applied batches at the front leave, in one commit, or none if it is not written. |
| Ingress.DurableIngress.DrainAll | telethon_secret_chat/strong_manager.py:185-254 | However a drain ends, by refusal, failed write or crash, outcome, disk and pauses are exactly the specified ones and the disk is consistent; each new log entry stands for one of the updates that were pending, with the effect that was answered for it, and the rest of the store is what the last of them made of it; when nothing else goes wrong the drain comes through, or leaves an unwelcome update at the head of what is left, never both. |
| Draining.DrainTrace | telethon_secret_chat/strong_manager.py:185-254 | In a drain that has come through k batches the later ones are as they were, those that left were fully applied, what was applied was not blocked before, what was not is blocked now, and the first batch left still waits for something. |
| Draining.DrainTold | telethon_secret_chat/strong_manager.py:185-232 | Whatever a drain adds to the log stands for updates that were pending, each counted from its capture and fitting how that update went. |
| Draining.UnwelcomeJams | telethon_secret_chat/strong_manager.py:225-228 | An unwelcome update whose turn comes ends the drain refused there: everything before it is applied or paused, everything behind its batch is as it was. |
| Draining.DrainEnds | telethon_secret_chat/strong_manager.py:185-254 | A drain that all goes well for comes through if and only if it leaves no unwelcome update at the head of what is left. |
| Draining.JamLasts | telethon_secret_chat/strong_manager.py:185-254 | After that, whatever is captured behind it, and however often and however later drains go, no update takes effect, no batch leaves and no conversation is paused. |
| Jams.DrainComesThrough | telethon_secret_chat/strong_manager.py:185-254 | With successful writes, no crash and no other conversation refusing, a drain comes through if and only if each update handed over is welcome when its turn comes: for a frame of this conversation, a held key opens it and it can be read or ends the chat, or the conversation is paused. |
| Jams.UnopenedEndsDrains | telethon_secret_chat/receive.py:62-67 | A frame of this conversation that no held key opens, once its turn comes, ends that drain and every later one, with everything behind it still pending. |
| Jams.UnopenedIsCaptured | telethon_secret_chat/ingress.py:256-287 | From every store without a ledger, one capture leads to a disk that is stopped by such a frame. |
| Jams.RepeatUnderARetiredKey | telethon_secret_chat/receive.py:62-74 | A run of two honest ends after which a repeat of an accepted slot is such a frame. |
| Consumer.Desk.Transfer | telethon_secret_chat/bounded.py:434-442 | A message leaves the mailbox and joins the relay in one commit of the stored document, once; a failed write leaves both as they were. |
| Consumer.Desk.Acknowledge | telethon_secret_chat/bounded.py:388-404 | Exactly the named obligation is released, durably; an unknown number, or a failed write, releases nothing. |
| Consumer.Desk.Receive | telethon_secret_chat/receive.py:55-128 | The receive of a slot of the other end is one move of the run, or changes nothing. |
| Relay.ExactlyOnePlace | telethon_secret_chat/bounded.py:388-442 | Over every run of two ends, and whatever is acknowledged when, each message that an end accepted is in exactly one of mailbox, relay and acknowledged. |
| Consumer.Desk.OnDisk | telethon_secret_chat/bounded.py:388-442 | So it is of the mailbox and the relay on disk, after any receives, transfers, handled items, acknowledgements and moves of the peer. |
| Primality.Fermat | telethon_secret_chat/dh.py:68-95 | a^(p-1) is 1 modulo a prime p that does not divide a. |
| Primality.RootsOfOne | telethon_secret_chat/dh.py:68-95 | Modulo a prime, 1 has no square root but 1 and p - 1. |
| Primality.PrimePasses | telethon_secret_chat/dh.py:83-95 | A prime is a strong probable prime to every base. |
| Primality.PassesIsStrong | telethon_secret_chat/dh.py:86-94 | Squaring again and again meets n - 1 exactly if one of the powers d, 2d, 4d, ... of the base is n - 1 modulo n. |
| Primality.StrongIsFermat | telethon_secret_chat/dh.py:83-95 | A strong probable prime to a base a has a^(n-1) equal to 1 modulo n. |
| Primality.Decompose | telethon_secret_chat/dh.py:81-84 | n - 1 is split into an odd number and a power of two. |
| Primality.IsProbablePrime | telethon_secret_chat/dh.py:68-95 | The verdict is true if and only if n is a listed prime, or has no listed divisor and for every drawn base a, with n - 1 = d * 2^s and d odd, a^d is 1 or some a^(d * 2^i) with i < s is n - 1, modulo n; then a^(n-1) is 1 for every drawn base. A prime is never refused. |
| Primality.CheckConfig | telethon_secret_chat/dh.py:99-151 | Accepted parameters have the size, range, residue condition and both primality verdicts; parameters the protocol allows are never refused. |
| Ige.RoundTrip | telethon_secret_chat/files.py:272-288 | Decryption undoes encryption for every buffer of whole blocks and every invertible block cipher. |
| Ige.ChainSplits | telethon_secret_chat/files.py:272-288 | Processing two pieces, carrying the last blocks between them, equals one call over both. |
| Ige.SealedIsChain | telethon_secret_chat/files.py:280-283 | A buffer is the encryption of another if and only if each block i is enc(p_i xor c_(i-1)) xor p_(i-1), the halves of the iv standing before block 0. |
| Ige.OpenedIsChain | telethon_secret_chat/files.py:285-288 | A buffer is the decryption of another if and only if each block i is dec(c_i xor p_(i-1)) xor c_(i-1). |
| Ige.XorDecides | telethon_secret_chat/files.py:280-288 | A bit of the exclusive or of two blocks is set if and only if it is set in exactly one of them. |
| Ige.Stream.Process | telethon_secret_chat/files.py:280-288 | A piece continues the chain and moves the carried value to its last blocks. |
| Ige.EncryptingReader.Read | telethon_secret_chat/files.py:305-322 | For any read size and any short reads of the file, the output is the next part of the whole-buffer ciphertext, as much as was asked while there is any; it fails exactly when the file ended early and too little was held. |
| Ige.ReadPieces | telethon_secret_chat/files.py:305-322 | Over any sequence of read sizes the outputs concatenate to a part, from the start, of the whole ciphertext, and each block of it satisfies its block equation. |
| Ige.EncryptFile | telethon_secret_chat/files.py:352-359 | As long as content and padding together, and each block satisfies the block equation over them. |
| Ige.DecryptStream | telethon_secret_chat/files.py:325-342 | However the ciphertext is split, exactly the first size bytes come out of the one buffer whose blocks satisfy the inverse equations, and the call succeeds if and only if the lengths fit. |
| Ige.DecryptFile | telethon_secret_chat/files.py:362-366 | Refused exactly on a length mismatch, otherwise the first size bytes. |
| Ige.FileRoundTrip | telethon_secret_chat/files.py:325-366 | Decrypting an encrypted file, in any pieces, returns its content, the empty file included. |
| Frame.PadLength | telethon_secret_chat/crypto.py:122-136 | Padding is 12 to 27 bytes and makes whole blocks. |
| Frame.FrameRoundTrip | telethon_secret_chat/crypto.py:139-225 | Every body under 2^32 bytes comes back from its frame, whatever the padding; the frame is, byte by byte, key name, message key and the encrypted payload of length, body and 12 to 27 bytes more. |
| Frame.AcceptedIsSealed | telethon_secret_chat/crypto.py:139-225 | Under a usable key, a frame is accepted with a body if and only if it is, byte by byte, a frame of that body: the name of the key, the message key of a payload, and that payload block by block, which is the body's length in four bytes, the body, and at least 12 bytes more to whole blocks. Nothing else is ever read. |
| Schema.RoundTrip | tools/generate_schema.py:139-246 | For every schema with distinct flag bits, reading a written well-typed value, whatever follows, returns it, flags never given read as false, and leaves exactly what follows. |
| Schema.FlagWordBits | tools/generate_schema.py:198-211 | A bit of a written flag word is set if and only if a present field carries it. |
| Schema.FlagWordValue | tools/generate_schema.py:198-211 | A flag word is the sum of the powers of two of the fields that are there. |
| Schema.WrittenFlags | tools/generate_schema.py:198-211 | The four bytes of each written flag word, the first one least, are worth that sum. |
| Schema.TextDecides | telethon_secret_chat/schema/secret_tl.py:49-70 | A string is its length in one byte below 254, or 254 and three more; its bytes; and zeros to a multiple of four. |
| Schema.IntDecides | telethon_secret_chat/schema/secret_tl.py:37-38 | A 32-bit number is written as the four bytes of its two's complement. |
| Schema.LongDecides | telethon_secret_chat/schema/secret_tl.py:41-42 | A 64-bit number is written as the eight bytes of its two's complement. |
| Schema.WrittenDecides | telethon_secret_chat/schema/secret_tl.py:73-109 | A boolean is one of two ids, a vector its id, its length and its items in turn. |
| Schema.TextRoundTrip | telethon_secret_chat/schema/secret_tl.py:49-70 | Every string under 2^24 bytes comes back, short and long form. |
| Schema.ItemsSize | telethon_secret_chat/schema/secret_tl.py:73-81 | A written vector has at least four bytes an item, so the length guard never refuses it. |
| Schema.ReadIsTyped | telethon_secret_chat/schema/secret_tl.py:73-109 | From any bytes at all, a reader returns only well-typed values within the nesting bound. |
| Schema.ReadRefuses | telethon_secret_chat/schema/secret_tl.py:70-109 | Whatever the bytes: a boolean is read from its two ids only, a vector only behind its id and with a length that a quarter of the bytes left allows, an object only under a known id, of the family asked for, less than 32 deep. |
| Schema.WideNeverReturns | tools/generate_schema.py:120-132 | A written 128- or 256-bit number is never what is read back. |
| SchemaReader.Reader.Value | tools/generate_schema.py:165-171 | The cursor reader returns and consumes what the specification does, and leaves the depth as it was. |
| SchemaReader.Reader.BoxedObject | telethon_secret_chat/schema/secret_tl.py:90-109 | Likewise for one boxed object: unknown ids, wrong families and nesting beyond 32 are refused, and the depth is put back on every way out. |
| SchemaReader.Reader.Items | telethon_secret_chat/schema/secret_tl.py:73-81 | Likewise for the items of a vector. |
| Ogg.PageRoundTrip | telethon_secret_chat/ogg_tags.py:81-89 | A written page is parsed back, with its exact size. |
| Ogg.HeaderParts | telethon_secret_chat/ogg_tags.py:81-89 | Where flags, granule position, stream, sequence number, checksum and segment count lie in the 27 bytes of a page header. |
| Ogg.Reassembles | telethon_secret_chat/ogg_tags.py:69-106 | For any packets, laced and split over any pages among pages of other streams, the first packets of the first stream come back. |
| Ogg.FirstPackets | telethon_secret_chat/ogg_tags.py:69-106 | The two loops compute exactly the specified packets, or none on a malformed page, a stream that does not begin or a continuation that does not match. |
| Ogg.MusicDecides | telethon_secret_chat/ogg_tags.py:131-138 | A comment counts as music if and only if it begins with one of the tags and '=', each letter in either case. |
| Ogg.SizedDecides | telethon_secret_chat/ogg_tags.py:113-127 | A sized field is read if and only if its four-byte length and as many bytes are there. |
| Ogg.TagsDecide | telethon_secret_chat/ogg_tags.py:109-141 | For any written comment block the answer is true if and only if no comment is named by a music tag. |
| Ogg.Cursor.NoMusic | telethon_secret_chat/ogg_tags.py:109-141 | The cursor loop computes exactly the specified answer, none on a truncated block. |
| Ogg.LooksLikeVoice | telethon_secret_chat/ogg_tags.py:43-66 | The verdict is the one the first two packets in the first 64 KiB give. |
| Ogg.VoiceWhenNoMusic | telethon_secret_chat/ogg_tags.py:43-66 | For an Opus file of any length, however its header packets are laced, paged and interleaved, as long as the pages that hold them end within 64 KiB: the verdict is voice if and only if no comment is a music tag. |
| Ogg.VoiceInVorbis | telethon_secret_chat/ogg_tags.py:43-66 | The same for a Vorbis file. |

## Left out

- The Telethon client, RPC objects, asyncio tasks, cancellation and locks: a method that holds the chat's lock is one step, and an RPC is one of four answers. Interleaving inside a transmission is only modelled by the check that the slot still holds the same body.
- Hash functions, block ciphers and random draws: uninterpreted parameters. Fingerprints are the keys themselves, exchange ids and derived keys are new when drawn except that two simultaneous requests may draw the same id.
- Integer widths on the wire: sequence numbers, counters and qts are unbounded, so nothing is said about a chat with 2^30 messages.
- One chat per store in full: the other conversations are one value in the document a commit writes.
- The rekey trigger (message count and age), message lifetimes, layer 8 parsing, read history, auto-save, events and logging.
- Receiving.OnEncryptedMessage: starts after the frame was decrypted and its header parsed; the frame itself is Frame. Pending frames that fail there are `Broken` updates of the ingress, with the verdict of the parser as a flag.
- Delivery.EchoAcknowledges: which records are reported is part of the receive as specified; the program form commits the receive and emits no events.
- Outbox.RetryPending: the durable writes of a mark or a rejection, unlike that of a closing, are taken to succeed; a failed one leaves the record pending, like an uncertain send.
- Dispatching.DispatchHead: a layer notice commits the raised layer before the item is removed, and an abort without a reply clears the exchange in memory before the removal commits; here each is part of the one commit. The strong manager pauses a conversation where the base manager closes the chat; the closing is modelled.
- Consumer.Desk.Transfer: budgets, ages, pause reasons and callbacks of bounded custody are not modelled, and of the commits of the end itself only sends, receives and handled items are.
- Dispatching.DrainDeliveries: a closed chat scrubs its mailbox, so conservation is stated while the chat is open.
- Ledger.Validate: Telethon's update machine is one function of a saved state and an envelope, the apply list is a set, and the checks on types, ages, byte limits and session binding are left out.
- Ingress.DurableIngress.Capture: difference receipts and attachment to a client are left out.
- Ingress.DurableIngress.DrainAll: other tasks resuming a conversation during the drain, and the deliveries and retries that follow a taken frame, are not modelled; a send between two updates is (`Say`).
- Ingress.DurableIngress.ApplyUpdate: other conversations are one value and one answer each, which may apply any of their frames; of the handshake updates only repeats and endings are modelled; pauses are in memory.
- Primality.CheckConfig: that the residue condition makes g generate the subgroup needs quadratic reciprocity and is not proved.
- Ige.EncryptingReader.Read: the 32-byte checks on key and chaining value are types here.
- Schema.RoundTrip: strings are their UTF-8 bytes, a double is its eight bytes, and parsing the schema text and Python class names are left out; Telethon's binary reader is modelled from how the generated code uses it.
- Frame.AcceptedIsSealed: the cipher derived from a key is assumed to permute the blocks.
- The transient manager, saved exports, visualisation, media metadata and build tools: policy with timers and output formatting.
