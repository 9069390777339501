# Attestation core of the NEAR fast-finality operator, in Dafny

This project models two pieces of the near-sffl system.

**The attestor's per-header pipeline** (`operator-rs/src/attestor/mod.rs`). For every rollup
header the attestor records metrics, builds a predicate that accepts a data-availability (DA)
block with the header's rollup id, block height and state root, subscribes to the notifier with
it, and waits up to 30 seconds. It then unsubscribes whatever happened, builds a
`StateRootUpdateMessage` from the header plus the DA transaction id and commitment, and signs it.
The DA fields come from the matched block, or are zero-filled on a closed channel or a timeout.
On success it sends the signed message on a broadcast channel. One task per rollup runs this over
the header stream (`process_rollup_headers`). A second task (`process_mq_blocks`) forwards every
DA block from the message-queue consumer to the notifier under the block's own rollup id. On a
lag it carries on; on a close it fetches a new block stream.

In the model:
- the wait outcome is a `WaitOutcome` value (`Matched(block) | Closed | TimedOut`), delivered
  with each header as an `Arrival`. The notifier only hands a subscription a block its predicate
  accepts; `Delivered` states this, and the methods require it of their inputs;
- signing is a function parameter that may fail (`Signer`);
- the notifier, the metrics listener and the broadcast sender are classes whose state is a call
  log, per-rollup counters and gauges, and the sequence of sent messages;
- `AttestorState` is that state as a value. `AfterHeader` / `AfterHeaders` specify the methods,
  and the lemmas state what a run of headers does.

**The aggregator's database row** (`aggregator/database/models/state_root_update.go`). Here
`NewStateRootUpdateMessageModel` and `ToMessage` convert between the wire message and the
persisted row, which stores the 32-byte root as a byte slice. Go's `[32]byte(slice)` conversion
panics on a slice shorter than 32 bytes, so `ToMessage` requires at least 32 bytes. The row's
`(RollupId, BlockHeight)` unique index is modelled as an insert that refuses a taken key.

Files: `primitives.dfy` (machine integers, `Bytes32`, Option/Result), `types.dfy` (the records the
attestor reads and writes), `attestor.dfy`, `models.dfy`.

## Model

| member | source | states |
|---|---|---|
| `Attestor.GetHeaderNumber` | operator-rs/src/attestor/mod.rs:313-315 | reads the header's block number |
| `Attestor.GetHeaderTimestamp` | operator-rs/src/attestor/mod.rs:317-319 | reads the header's timestamp |
| `Attestor.GetHeaderRoot` | operator-rs/src/attestor/mod.rs:321-323 | gives the header's state root as 32 bytes, byte for byte |
| `Attestor.GetBlockNumber` | operator-rs/src/attestor/mod.rs:325-327 | a DA block's height is the height of the block's own header |
| `Attestor.GetBlockRoot` | operator-rs/src/attestor/mod.rs:329-331 | a DA block's state root is the root of the block's own header |
| `Attestor.FilterFor` | operator-rs/src/attestor/mod.rs:209-213 | the predicate accepts a DA block iff its rollup id, block number and block state root equal the header's rollup, number and root |
| `Attestor.MockSign` | operator-rs/src/attestor/mod.rs:305-311 | the current signer always succeeds with the default signature |
| `Attestor.Attest` | operator-rs/src/attestor/mod.rs:218-247 | rollup id, height, timestamp and state root always come from the header; the DA transaction id and commitment come from the matched block, and are all-zero after a closed channel or a timeout |
| `Attestor.Emission` | operator-rs/src/attestor/mod.rs:249-266 | a header puts exactly one signed message (its message, the signature, the operator id) on the channel when signing succeeds, and nothing when it fails |
| `Attestor.MatchedAttestationBindsBlock` | operator-rs/src/attestor/mod.rs:209-227 | a block the predicate accepted gives a message that carries that block's rollup, height, root, transaction id and commitment |
| `Attestor.AfterHeader` | operator-rs/src/attestor/mod.rs:205-247 | one header: subscribe then unsubscribe the same id with the header's predicate, leaving no new open subscription; received +1; missed +1 exactly on timeout; no other rollup's counters change; gauges set to the header's number and timestamp; channel grows by the header's emission |
| `Attestor.AfterHeadersEffect` | operator-rs/src/attestor/mod.rs:189-193 | a run of headers: one subscribe/unsubscribe pair and one emission per header in order, received grows by the number of headers, missed by the number of timeouts |
| `Attestor.AfterHeadersClosesSubscriptions` | operator-rs/src/attestor/mod.rs:216-238 | a run of headers never leaves a new subscription registered |
| `Attestor.SubscriptionLogPairs` | operator-rs/src/attestor/mod.rs:215-238 | header i subscribes with a fresh id and its own predicate, and the next notifier call unsubscribes that id |
| `Attestor.EmittedOnePerHeader` | operator-rs/src/attestor/mod.rs:189-193 | at most one message per header, and exactly one per header iff every header's message is signed |
| `Attestor.EmittedInHeaderOrder` | operator-rs/src/attestor/mod.rs:240-255 | when signing never fails, message i on the channel is header i's message with its signature and the operator id |
| `Attestor.MockSignEmitsEveryHeader` | operator-rs/src/attestor/mod.rs:305-311 | with the current signer every processed header yields exactly one message |
| `Attestor.EmittedBindsBlocks` | operator-rs/src/attestor/mod.rs:209-255 | when the notifier delivers only accepted blocks, every emitted message carries the operator id and the rollup, and its DA fields are zero-filled or come from a delivered block with the message's own rollup, height and state root |
| `Attestor.ReceivedItemsDelivered` | operator-rs/src/attestor/mod.rs:187-196 | the headers either loop processes are received headers, so they keep the delivery contract of the stream |
| `Attestor.TimedOutAtMostReceived` | operator-rs/src/attestor/mod.rs:205-235 | the missed count of a run never exceeds its received count, and equals it iff every wait timed out |
| `Attestor.NotifyLogUsesOwnRollup` | operator-rs/src/attestor/mod.rs:164-166 | each DA block is notified once, in order, under the block's own rollup id |
| `Attestor.NotifyLogKeepsSubscriptions` | operator-rs/src/attestor/mod.rs:166 | forwarding blocks registers and removes no subscription |
| `Attestor.NotifyLogAppend` | operator-rs/src/attestor/mod.rs:157-179 | forwarding two streams one after the other notifies the first stream's blocks, then the second's |
| `Attestor.LaggedIsSkipped` | operator-rs/src/attestor/mod.rs:174-177 | a lag changes neither the blocks the MQ loop forwards nor the headers the corrected header loop processes |
| `Attestor.ItemsPrefixes` | operator-rs/src/attestor/mod.rs:189 | the header loop as written sees a prefix of what the corrected loop sees, which is a prefix of everything received |
| `Attestor.NoLagNoDifference` | operator-rs/src/attestor/mod.rs:189 | without a lag the header loop as written and the corrected loop process the same headers |
| `Attestor.LaggedHeaderEndsLoop` | operator-rs/src/attestor/mod.rs:189 | after a lag the header loop as written processes nothing more, while the corrected loop still processes the header that follows |
| `Attestor.Notifier.constructor` | operator-rs/src/attestor/mod.rs:76 | a new notifier has made no calls and hands out ids from 0 |
| `Attestor.Listener.constructor` | operator-rs/src/attestor/mod.rs:78 | the default listener has empty gauges and counters |
| `Attestor.Notifier.Subscribe` | operator-rs/src/attestor/mod.rs:216 | registers the predicate under a fresh id and returns that id |
| `Attestor.Notifier.Unsubscribe` | operator-rs/src/attestor/mod.rs:238 | records the removal of the subscription |
| `Attestor.Notifier.Notify` | operator-rs/src/attestor/mod.rs:166 | records the block as published for the given rollup |
| `Attestor.Listener.ObserveLastBlockReceived` | operator-rs/src/attestor/mod.rs:205 | sets the rollup's last-block gauge |
| `Attestor.Listener.ObserveLastBlockReceivedTimestamp` | operator-rs/src/attestor/mod.rs:206 | sets the rollup's last-timestamp gauge |
| `Attestor.Listener.OnBlockReceived` | operator-rs/src/attestor/mod.rs:207 | adds one to the rollup's received counter only |
| `Attestor.Listener.OnMissedMqBlock` | operator-rs/src/attestor/mod.rs:234 | adds one to the rollup's missed counter only |
| `Attestor.SharedState.constructor` | operator-rs/src/attestor/mod.rs:73-80 | the shared state starts with no subscriptions, no sent messages and empty counters |
| `Attestor.SharedState.ProcessHeader` | operator-rs/src/attestor/mod.rs:198-268 | the new state is `AfterHeader` of the old one; no subscription stays open; returns an error exactly when signing fails, carrying the signer's error; on success after a match the sent message carries the matched block's rollup, height, root, transaction id and commitment |
| `Attestor.SharedState.ProcessRollupHeaders` | operator-rs/src/attestor/mod.rs:187-196 | processes, in order, every header received before the first receive error, whatever each header's result (each error is logged and the loop goes on) |
| `Attestor.SharedState.ProcessRollupHeadersSkippingLag` | operator-rs/src/attestor/mod.rs:187-196 | the corrected loop: processes every header received before the stream closes, skipping lags |
| `Attestor.SharedState.ProcessMqBlocks` | operator-rs/src/attestor/mod.rs:155-185 | notifies every received DA block under its own rollup id, in order, across lags and reconnects; reconnects exactly once per close |
| `Attestor.SharedState.ForwardBlockStream` | operator-rs/src/attestor/mod.rs:162-179 | the inner loop: forwards received blocks, continues on a lag, stops just after the first close, and no earlier event is a close |
| `Models.StateRootUpdateMessage.ToMessage` | aggregator/database/models/state_root_update.go:28-35 | needs a root slice of at least 32 bytes; copies RollupId, BlockHeight and Timestamp and takes the first 32 bytes of the root |
| `Models.NewStateRootUpdateMessageModel` | aggregator/database/models/state_root_update.go:19-26 | copies RollupId, BlockHeight and Timestamp, stores the root as a 32-byte slice with the same bytes, and leaves AggregationId zero and Aggregation unset |
| `Models.RoundTrip` | aggregator/database/models/state_root_update.go:19-35 | converting a message to a row and back gives the message |
| `Models.ReverseRoundTrip` | aggregator/database/models/state_root_update.go:19-35 | a row with a 32-byte root read and stored again agrees with itself on RollupId, BlockHeight, Timestamp and StateRoot |
| `Models.LongRootIsTruncated` | aggregator/database/models/state_root_update.go:33 | a row whose root is longer than 32 bytes loses its trailing bytes in that trip |
| `Models.NewModelInjective` | aggregator/database/models/state_root_update.go:19-26 | distinct messages are stored as distinct rows |
| `Models.HasKey` | aggregator/database/models/state_root_update.go:11-12 | tells whether some row already holds a (RollupId, BlockHeight) key |
| `Models.Insert` | aggregator/database/models/state_root_update.go:11-12 | an insert is refused exactly when the key is taken; otherwise it appends the row, and a table with unique keys keeps unique keys |

## Findings

| source | as written | input that shows it | evidently intended | confidence | as-written member | corrected member |
|---|---|---|---|---|---|---|
| operator-rs/src/attestor/mod.rs:189 | `while let Ok(header) = headers_rx.recv()` on a tokio broadcast receiver leaves the loop on `Err(Lagged)` as well as on `Err(Closed)`. The rollup's header task then ends and the rollup is no longer attested. | header events `[Lagged(1), Received(h), Closed]`: header `h` arrives before the close but is never processed | skip a lag and stop only on close, as `process_mq_blocks` does at lines 174-177; a failing header is only logged and the loop goes on (lines 190-192), so one slow header ending the task is evidently not meant | medium; not executed | `Attestor.LaggedHeaderEndsLoop` (about `Attestor.SharedState.ProcessRollupHeaders`) | `Attestor.SharedState.ProcessRollupHeadersSkippingLag`, with `Attestor.LaggedIsSkipped` |

## Left out

- The async runtime, timing and locking: `tokio::spawn`, the 30-second `timeout` and the 5-second sleeps, and the consumer `Mutex`. The wait's outcome comes with each header as an input. The model is sequential, so tasks of different rollups do not interleave.
- The consumer start/retry loop (lines 108-117). It is I/O against the MQ consumer, whose source is not part of this model.
- The notifier's internals (`mod notifier`). The model keeps only the log of `subscribe`/`unsubscribe`/`notify` calls. Delivery of a matching block is the `Matched` outcome. An error from `notify` is only logged by the source, so it is not modelled.
- BLS signing. The signer is a parameter that may fail. `MockSign` models today's placeholder.
- Client creation and lifecycle: `Attestor::new`, `create_safe_client`, `enable_metrics`, `start` (RPC subscription and the initial block-number gauge), `close` and `get_signed_root_rx`. These are network and foreign-library calls.
- Broadcast channel mechanics: capacity 100, lagging receivers, and `send` failing when nobody is subscribed. The source only logs that failure, so every sent message is appended to `signedRootTx`.
- Logging (`info!`, `warn!`, `error!`) has no observable effect in the model.
- `workers/src/bin/dvn.rs`. It is a network event loop whose decision state lives in a file that is not part of this model.
- gorm persistence: `gorm.Model` (ID and timestamps), column types and the foreign-key relation to `MessageBlsAggregation`. `MessageBlsAggregation` is reduced to an id.
- `messages.StateRootUpdateMessage` is not part of this model. It is modelled with the four fields the conversions read and write. If the Go wire message has further fields, the round trip is stated over these four only.
- Attestor.SharedState.ProcessMqBlocks: the source's outer loop never ends. The model stops when the finite event input runs out.
- Attestor.Notifier.Subscribe: subscription ids are handed out by a counter. The notifier's own id scheme is not part of this model.
