# multifund-join: a verified model of the coordinator and the participant checks

multifund-join lets several Lightning nodes fund their channels with one
shared on-chain transaction. A coordinator HTTP service collects funding
requests into rounds ("joins"). When a round holds `N_PARTICIPANTS` (2)
requests, the coordinator aggregates every request and builds an unsigned
draft. The participants then sign that draft one after another, in
participant-id order. The last signature makes it final, and the
participants report completion, which triggers the broadcast. Each
participant checks the draft before signing it: every output it asked for
must be there, paying exactly the requested amount.

This project models that core in Dafny and proves properties of it:

- `types.dfy` (module `Types`): the wallet records, the wire records and
  the results of the decoders the handlers call.
- `queue.dfy` (module `Queue`): one round, `JoinQueue`. It is a class
  whose fields `Add` and `SetTx` update in place. `Round` is a value
  snapshot of those fields, and `Added`/`AddedAll` specify registration.
- `coordinator.dfy` (module `Coordinator`): the five handlers as methods of
  a `Coordinator` object.
  - The object owns the round map `queue` and the open round id `mixid`.
  - Two ghost logs record what the wallet and the node are asked to do:
    `builds` (each builder call) and `broadcasts` (each `SendTx` attempt).
  - A service invariant (`Valid`) holds between requests:
    - rounds `1..mixid-1` are closed, with exactly `Quorum` participants each;
    - round `mixid` is the only one that may be open;
    - every round id has a record of its own;
    - the final signed bytes and id stay empty until the signing cursor has
      passed `Quorum`.
  - Every handler preserves `Valid`. Each handler's effect on a round is a
    pure function: `Enrolled`, `Submit` or `Mark`.
  - The map iteration that aggregates the requests is a loop whose order is
    left open. Its result is specified as a multiset.
- `client.dfy` (module `Client`):
  - The output check `verifyTx`, as a pure function and as the nested loop
    of the source.
  - The sign/complete decisions of the two polling loops, as a step function
    over poll outcomes. `Run` is that function folded over a sequence of
    ticks.

Go panics are explicit outcomes of the model:

- `SigPanicked`, `CompletePanicked` and `UpdatePanicked`: a request for an
  unknown round reaches a nil record.
- `ScriptTooShort`: `verifyTx` slices a locking script shorter than two
  bytes.

The wallet and chain calls are parameters, as function-valued fields of
`Coordinator.Wallet` and `Client.ClientCalls`. These are transaction
building, hex decoding, deserialising and hashing, address decoding, and
signing.

## Model

| member | source | states |
|---|---|---|
| Queue.JoinQueue.constructor | coordinator/queue.go:18-31 | A new round has no participants, counter 0, cursor 1, no completion flags and an empty transaction record. |
| Queue.JoinQueue.Add | coordinator/queue.go:33-37 | The request is stored under the next id. The id returned is new, larger than every earlier id, and equals the counter. The old entries, the record, the cursor and the flags are unchanged, and the round stays well formed. |
| Queue.JoinQueue.SetTx | coordinator/queue.go:39-42 | The record is replaced and every other field is unchanged. |
| Queue.RegistrationOrder | coordinator/queue.go:33-37 | After registering `fs` in a fresh round, the k-th request sits under id k, the counter is \|fs\|, and the ids are exactly 1..\|fs\|. |
| Queue.RegistrationCount | coordinator/queue.go:33-37 | A fresh round that registered `fs` holds exactly \|fs\| entries. |
| Queue.IdsUpToMembers | coordinator/queue.go:33-37 | The ids handed out by n calls of `Add` are exactly 1..n. |
| Queue.IdsUpToCount | coordinator/coordinator.go:61 | There are n of them, so the length check compares the participant counter with `N_PARTICIPANTS`. |
| Coordinator.Coordinator.constructor | coordinator/coordinator.go:28-29 | The service starts with no rounds, `mixid` 1 and empty logs, and `Valid` holds. |
| Coordinator.Coordinator.Join | coordinator/coordinator.go:31-80 | Only round `mixid` is touched (the frame leaves every other record and the broadcast log alone); it is reused if it exists and created otherwise. A decodable request is enrolled and gets the success reply with its id; any other request gets the decoder's error. If the round is then full, exactly one builder call aggregating all its requests is logged, its draft is stored and `mixid` advances; otherwise nothing else changes. `Valid` is preserved. |
| Coordinator.Coordinator.OpenRoundRecord | coordinator/coordinator.go:32-35 | The record of round `mixid` is the existing one, or else a fresh `NewJoinQueue`. |
| Coordinator.Coordinator.Register | coordinator/coordinator.go:36-59 | A decodable request is added to the open round and every other request leaves it unchanged. The reply is as in the source. The open round's record is shared with no other round id. |
| Coordinator.Coordinator.Settle | coordinator/coordinator.go:61-77 | A round with at least `Quorum` entries is closed with a builder call over all its entries. Any other round stays open and nothing changes. |
| Coordinator.Coordinator.StillOpen | coordinator/coordinator.go:61 | A round short of `Quorum` after a registration keeps the service invariant. |
| Coordinator.Coordinator.CloseRound | coordinator/coordinator.go:75-76 | Storing the draft and advancing `mixid` keeps the invariant. The closed round keeps its record, and the log grows by that one call. |
| Coordinator.Coordinator.Build | coordinator/coordinator.go:62-71 | The builder gets the multiset union of every participant's recipients and inputs, and the draft is its unsigned output. |
| Coordinator.Aggregate | coordinator/coordinator.go:62-69 | The map loop appends every participant's lists exactly once, in an order that is a permutation of the ids. |
| Coordinator.EnumerationBag | coordinator/coordinator.go:66-69 | Concatenating the lists in any permutation of the ids 1..n gives the same multiset as in id order. |
| Coordinator.FlattenPermutation | coordinator/coordinator.go:66-69 | Concatenation over two orders that are permutations of each other gives the same multiset. |
| Coordinator.FlattenPidOrder | coordinator/coordinator.go:66-69 | Concatenation in id order is the multiset union over participants 1..n. |
| Coordinator.ClosesAtQuorum | coordinator/coordinator.go:49-61 | On an open round, the length check fires exactly on the decodable request that brings it to `Quorum` participants. |
| Coordinator.Coordinator.RoundSizes | coordinator/coordinator.go:61-77 | Between requests, every closed round holds exactly `Quorum` participants and the open round fewer. |
| Coordinator.Coordinator.Status | coordinator/coordinator.go:82-184 | Bytes are returned only to a registered participant that holds the cursor of an existing round, and that participant always gets the working draft. Everyone else gets no bytes, with the participant-id parse error, "Invalid mix id" beyond `mixid`, or no error. An open round gives no bytes before the first submission. |
| Coordinator.Enrolled | coordinator/coordinator.go:40-59 | What registering does to the open round: a decodable request is `Added` under the next id, an undecodable one changes nothing. Its properties are in `ClosesAtQuorum` and `Register`. |
| Coordinator.JoinReply | coordinator/coordinator.go:40-59 | The reply to `/join`: the success message with the round id and the new participant id, or empty data with the decoder's error. |
| Coordinator.Coordinator.Sig | coordinator/coordinator.go:242-281 | An undecodable body is rejected with its error. An unknown round panics. Otherwise the round becomes `Submit` of the decoded bytes, whoever sent them, every other round keeps its state, and `Valid` is preserved. |
| Coordinator.Submit | coordinator/coordinator.go:266-276 | What `/sig` does to a round: the bytes become the working draft and the cursor moves on; past `Quorum` they are also the final bytes, with their hash as the id. Its properties are in `SubmitKeepsRound` and `SubmissionsFinalize`. |
| Coordinator.SubmitKeepsRound | coordinator/coordinator.go:266-279 | A submission keeps the round invariant: the final bytes and id appear only once the cursor passes `Quorum`. |
| Coordinator.SubmissionsFinalize | coordinator/coordinator.go:266-279 | Over any run of submissions, the cursor moves once per submission and the participants and flags are untouched. The working draft is the last submission. The final bytes and id stay unchanged while the cursor is at most `Quorum`, and after that they are the last submission and its hash. |
| Coordinator.Coordinator.Complete | coordinator/coordinator.go:186-217 | An unknown round panics with no broadcast. Otherwise the participant's flag is set. Exactly one broadcast of the round's record is logged on every call that finds at least `Quorum` flags set, and none otherwise. Every other round keeps its state. |
| Coordinator.Mark | coordinator/coordinator.go:201 | What `/complete/` does to a round: set the participant's flag. Its properties are in `CompletionIdempotent` and `MarkKeepsRound`. |
| Coordinator.CountCompleted | coordinator/coordinator.go:202-207 | The counting loop returns the number of set flags. |
| Coordinator.CompletionIdempotent | coordinator/coordinator.go:201 | Setting a flag adds exactly that participant to the completed set, and setting it again changes nothing. |
| Coordinator.MarkKeepsRound | coordinator/coordinator.go:201 | Setting a flag keeps the round invariant. |
| Coordinator.Coordinator.Update | coordinator/coordinator.go:219-240 | An unknown round panics. Otherwise the reply holds the round's final bytes and id, which are non-empty only once the cursor has passed `Quorum`. |
| Client.CheckRecipient | client/join.go:181-202 | The inner loop for one recipient. It passes only if some output carries the recipient's script from byte 2 on and pays the requested amount. |
| Client.VerifyOutputs | client/join.go:179-204 | The outer loop. It passes if and only if every recipient passes, and a failure is the verdict of some recipient. |
| Client.VerifyTx | client/join.go:173-205 | The nested loop with its early returns computes `VerifyOutputs`. |
| Client.CheckRecipientMeaning | client/join.go:181-202 | One recipient passes if and only if its first matching output pays exactly the requested amount. |
| Client.VerifyOutputsMeaning | client/join.go:179-204 | The check passes if and only if every recipient's first matching output pays its amount. |
| Client.FirstMatchDecides | client/join.go:192-197 | A wrong amount on the first matching output fails, even if a later output pays exactly. |
| Client.NoMatchFails | client/join.go:200-202 | A recipient whose script no output carries fails with "Can not find output". |
| Client.UndecodableFails | client/join.go:184-189 | An undecodable address makes the check fail. If the draft has an output and every earlier recipient passed, it fails with the decoding error. |
| Client.PrefixVerified | client/join.go:179-203 | Once the first k recipients pass, the verdict is that of the remaining recipients. |
| Client.InsertUnmatchedRecipient | client/join.go:182-199 | Inserting an output that does not match the recipient, on a non-empty draft, keeps that recipient's verdict. |
| Client.UnmatchedOutputIrrelevant | client/join.go:179-204 | An extra output that pays none of the recipients never changes the verdict of a non-empty draft. |
| Client.Step | client/join.go:73-167 | One tick of the polling loops, with the sign decision of join.go:130-167 and the complete decision of join.go:73-104. The phase never moves back, and a stopped loop stays stopped and sends nothing. |
| Client.Run | client/join.go:47-171 | The loops over a run of ticks: one effect per tick, and the final phase is never behind the starting one. |
| Client.StepSubmits | client/join.go:130-167 | A signature is submitted if and only if, while signing, a non-empty draft passes the check. The submission is the participant's own signature for its own round and id. |
| Client.StepNotifies | client/join.go:73-104 | Completion is reported if and only if, while settling, a non-empty final id arrives and the channels completed. |
| Client.StepAdvances | client/join.go:47-171 | A submission leaves signing, and a completion ends the loop. |
| Client.TerminalIsFinal | client/join.go:47-171 | From a stopped phase, a run stays there and sends nothing. |
| Client.RunAtMostOnce | client/join.go:108-171 | A participant submits at most one signature, and none once past signing. It reports completion at most once, and never once stopped. |
| Client.RunSubmitsVerified | client/join.go:130-143 | Every submission in a run signs a non-empty draft that passed the output check. |
| Client.NotifyAfterSubmit | client/join.go:137-165 | Starting from signing, completion is reported only after the signature was submitted. |

## Left out

- HTTP routing, JSON encoding and the tickers are not modelled. Request
  bodies arrive already decoded (`Decoded`), and path segments already
  parsed (`ParsedInt`). The client's poll outcomes are inputs (`Tick`).
- `strconv.ParseInt`'s 32-bit range is not modelled. A parsed id is an
  unbounded integer, and a malformed path (fewer segments, and hence a
  slice panic) is not modelled.
- The wallet, the node and the chain are uninterpreted parameters. This
  covers `CreateTransaction`, `hex.DecodeString`, `Deserialize`/`TxHash`,
  `DecodeAddress`/`ScriptAddress`, `Wally.Sign`, `CompleteChannels` and
  `SendTx`.
- Coordinator.Coordinator.Join: assumes `CreateTransaction` returns only
  unsigned bytes. Its error is only logged in the source, so a failed build
  is not distinguished from an empty draft.
- Coordinator.Coordinator.Sig: the hex decoder's error is dropped, as the
  handler drops it. The deserialiser's error is ignored, so the id is
  whatever `txHash` gives for the bytes.
- Coordinator.Coordinator.Complete: `SendTx` is logged as a ghost broadcast
  attempt. Its result and its error are not modelled.
- Coordinator.Coordinator.Status: the round-id parse error is overwritten
  by the participant-id parse, as in the source. Only the latter is
  reported.
- Coordinator.Coordinator.Status: `join.Tx != nil` always holds, because
  `NewJoinQueue` allocates the record, so it is not a condition.
- The layout of a UTXO, and the deserialisation of a draft into outputs,
  belong to the wallet. The client gets the outputs from `outputsOf`.
- Log output is not modelled, including the "no go" message on a builder
  error.
- Concurrency is not modelled. The handlers run as atomic steps, and the
  client's goroutine hand-off is a phase change.
- client/client.go, `onInit`, `joinMultiStart`, `cancelMulti` and
  `closeMulti` are not part of this model. They cover plugin setup,
  channel-address negotiation and cancelling channels on failure.
- Several behaviours are modelled as the source has them:
  - `/sig` does not check that the submitter holds the cursor;
  - `/complete/` accepts any participant id;
  - a broadcast is attempted on every `/complete/` call once `Quorum`
    flags are set.
