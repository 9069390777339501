/**
 * The attestor's per-header correlation and attestation step and the two loops
 * that drive it (operator-rs/src/attestor/mod.rs), with the async runtime
 * removed: the outcome of the bounded wait for a DA block, the header stream
 * and the MQ block stream are inputs; the notifier, the metrics listener and
 * the broadcast sender of signed messages are objects whose state is a log or
 * a set of counters.
 */
module Attestor {
  import opened Primitives
  import opened Types

  // ---------------------------------------------------------------------------
  // Field accessors (the get_* helpers)
  // ---------------------------------------------------------------------------

  function GetHeaderNumber(header: Header): (n: u64)
    ensures n == header.number
  {
    header.number
  }

  function GetHeaderTimestamp(header: Header): (t: u64)
    ensures t == header.timestamp
  {
    header.timestamp
  }

  /** The 32-byte root, unchanged by the conversion to an array. */
  function GetHeaderRoot(header: Header): (root: Bytes32)
    ensures |root| == 32 && forall i :: 0 <= i < 32 ==> root[i] == header.stateRoot[i]
  {
    header.stateRoot
  }

  /** A DA block's height is the height of the block's own header. */
  function GetBlockNumber(block: Block): (n: u64)
    ensures n == GetHeaderNumber(block.header)
  {
    block.header.number
  }

  /** A DA block's state root is the root of the block's own header. */
  function GetBlockRoot(block: Block): (root: Bytes32)
    ensures root == GetHeaderRoot(block.header)
  {
    block.header.stateRoot
  }

  // ---------------------------------------------------------------------------
  // The match predicate
  // ---------------------------------------------------------------------------

  /** The predicate closure that process_header hands to the notifier,
      represented by the three values it captures. */
  datatype BlockFilter = BlockFilter(rollupId: u32, headerNumber: u64, headerRoot: Bytes32)
  {
    predicate Accepts(mqBlock: BlockData) {
      && mqBlock.rollupId == rollupId
      && headerNumber == GetBlockNumber(mqBlock.block)
      && GetBlockRoot(mqBlock.block) == headerRoot
    }
  }

  /** The predicate built for `header` on rollup `rollupId`: it accepts a DA
      block exactly when the block corroborates the header, that is when the
      (rollup, height, state root) triples agree. */
  function FilterFor(rollupId: u32, header: Header): (f: BlockFilter)
    ensures forall b: BlockData :: f.Accepts(b) <==>
      (b.rollupId, b.block.header.number, b.block.header.stateRoot) == (rollupId, header.number, header.stateRoot)
  {
    BlockFilter(rollupId, GetHeaderNumber(header), GetHeaderRoot(header))
  }

  // ---------------------------------------------------------------------------
  // The bounded wait, message construction and signing
  // ---------------------------------------------------------------------------

  /** How the 30-second wait on the subscription ended: a DA block arrived,
      the notifier dropped the sender, or the timeout elapsed. */
  datatype WaitOutcome = Matched(mqBlock: BlockData) | Closed | TimedOut

  /** A header as received on the header stream, together with how the wait
      for its DA block will end. */
  datatype Arrival = Arrival(header: Header, wait: WaitOutcome)

  datatype SignError = SignError(reason: string)

  /** The signing collaborator: it may fail. */
  type Signer = StateRootUpdateMessage -> Result<BlsSignature, SignError>

  /** `BlsSignature::default()`. */
  const DefaultSignature: BlsSignature := BlsSignature([])

  /** sign_state_root_update_message as it stands: a placeholder that signs
      every message with the default signature. */
  function MockSign(message: StateRootUpdateMessage): (r: Result<BlsSignature, SignError>)
    ensures r == Ok(DefaultSignature)
  {
    Ok(DefaultSignature)
  }

  /** The state-root update message process_header builds for `header` once
      the wait has ended with `wait`: header fields always, DA fields from the
      matched block or zero-filled. */
  function Attest(rollupId: u32, header: Header, wait: WaitOutcome): (m: StateRootUpdateMessage)
    ensures m.rollupId == rollupId && m.blockHeight == header.number
    ensures m.timestamp == header.timestamp && m.stateRoot == header.stateRoot
    ensures wait.Matched? ==>
      m.nearDaTransactionId == wait.mqBlock.transactionId && m.nearDaCommitment == wait.mqBlock.commitment
    ensures !wait.Matched? ==> m.nearDaTransactionId == Zero32 && m.nearDaCommitment == Zero32
  {
    match wait
    case Matched(mqBlock) =>
      StateRootUpdateMessage(
        rollupId, GetHeaderNumber(header), GetHeaderTimestamp(header), GetHeaderRoot(header),
        mqBlock.transactionId, mqBlock.commitment)
    case _ =>
      StateRootUpdateMessage(
        rollupId, GetHeaderNumber(header), GetHeaderTimestamp(header), GetHeaderRoot(header),
        Zero32, Zero32)
  }

  /** The attestation of `arrival`, signed and tagged with the operator id. */
  function SignedAttestation(rollupId: u32, operatorId: OperatorId, sign: Signer, arrival: Arrival)
    : SignedStateRootUpdateMessage
    requires sign(Attest(rollupId, arrival.header, arrival.wait)).Ok?
  {
    var message := Attest(rollupId, arrival.header, arrival.wait);
    SignedStateRootUpdateMessage(message, sign(message).value, operatorId)
  }

  /** What one header puts on the broadcast channel: one signed message when
      signing succeeds, nothing when it fails. */
  function Emission(rollupId: u32, operatorId: OperatorId, sign: Signer, arrival: Arrival)
    : (out: seq<SignedStateRootUpdateMessage>)
    ensures |out| <= 1
    ensures |out| == 1 <==> sign(Attest(rollupId, arrival.header, arrival.wait)).Ok?
    ensures out != [] ==> out == [SignedAttestation(rollupId, operatorId, sign, arrival)]
  {
    var message := Attest(rollupId, arrival.header, arrival.wait);
    match sign(message)
    case Ok(signature) => [SignedStateRootUpdateMessage(message, signature, operatorId)]
    case Err(_) => []
  }

  /** A matched DA block that the notifier delivered because it satisfied the
      header's predicate is bound to the header: the attested message names the
      block's own rollup, height and state root alongside its DA fields. */
  lemma MatchedAttestationBindsBlock(rollupId: u32, header: Header, mqBlock: BlockData)
    requires FilterFor(rollupId, header).Accepts(mqBlock)
    ensures var m := Attest(rollupId, header, Matched(mqBlock));
      && m.rollupId == mqBlock.rollupId
      && m.blockHeight == GetBlockNumber(mqBlock.block)
      && m.stateRoot == GetBlockRoot(mqBlock.block)
      && m.nearDaTransactionId == mqBlock.transactionId
      && m.nearDaCommitment == mqBlock.commitment
  {
  }

  /** The notifier's delivery contract: a block handed to the subscription of
      `arrival`'s header is one that the header's predicate accepts. The wait
      outcomes the model is given are required to respect it. */
  predicate Delivered(rollupId: u32, arrival: Arrival) {
    arrival.wait.Matched? ==> FilterFor(rollupId, arrival.header).Accepts(arrival.wait.mqBlock)
  }

  /** Every arrival of a run respects the delivery contract. */
  predicate AllDelivered(rollupId: u32, arrivals: seq<Arrival>) {
    forall a :: a in arrivals ==> Delivered(rollupId, a)
  }

  /** The message carries the DA block's rollup, height and state root, and
      its transaction id and commitment. */
  predicate BindsDaBlock(m: StateRootUpdateMessage, mqBlock: BlockData) {
    && m.rollupId == mqBlock.rollupId
    && m.blockHeight == GetBlockNumber(mqBlock.block)
    && m.stateRoot == GetBlockRoot(mqBlock.block)
    && m.nearDaTransactionId == mqBlock.transactionId
    && m.nearDaCommitment == mqBlock.commitment
  }

  // ---------------------------------------------------------------------------
  // Notifier calls and the attestor's observable state
  // ---------------------------------------------------------------------------

  /** One call made on the notifier. */
  datatype NotifierCall =
    | Subscribed(rollupId: u32, id: nat, filter: BlockFilter)
    | Unsubscribed(rollupId: u32, id: nat)
    | Notified(rollupId: u32, mqBlock: BlockData)

  /** The subscriptions a call log leaves registered. */
  function OpenSubscriptions(calls: seq<NotifierCall>): set<nat>
    decreases |calls|
  {
    if calls == [] then {}
    else
      var open := OpenSubscriptions(calls[..|calls| - 1]);
      match calls[|calls| - 1]
      case Subscribed(_, id, _) => open + {id}
      case Unsubscribed(_, id) => open - {id}
      case Notified(_, _) => open
  }

  /** A counter of the metrics listener; a rollup never reported on reads 0. */
  function Count(counters: map<u32, nat>, rollupId: u32): nat {
    if rollupId in counters then counters[rollupId] else 0
  }

  /** The state the attestor's objects hold, as a value: the notifier's call log
      and next subscription id, the signed messages sent on the broadcast
      channel, and the listener's counters and gauges. */
  datatype AttestorState = AttestorState(
    calls: seq<NotifierCall>,
    nextId: nat,
    signedRoots: seq<SignedStateRootUpdateMessage>,
    received: map<u32, nat>,
    missed: map<u32, nat>,
    lastBlock: map<u32, u64>,
    lastTimestamp: map<u32, u64>)

  /** The effect of process_header on the attestor's state. */
  function AfterHeader(s: AttestorState, rollupId: u32, operatorId: OperatorId, sign: Signer, arrival: Arrival)
    : (t: AttestorState)
    ensures t.calls == s.calls + [
      Subscribed(rollupId, s.nextId, FilterFor(rollupId, arrival.header)),
      Unsubscribed(rollupId, s.nextId)]
    ensures t.nextId == s.nextId + 1
    ensures OpenSubscriptions(t.calls) == OpenSubscriptions(s.calls) - {s.nextId}
    ensures t.signedRoots == s.signedRoots + Emission(rollupId, operatorId, sign, arrival)
    ensures Count(t.received, rollupId) == Count(s.received, rollupId) + 1
    ensures Count(t.missed, rollupId) == Count(s.missed, rollupId) + (if arrival.wait.TimedOut? then 1 else 0)
    ensures forall k :: k != rollupId ==> Count(t.received, k) == Count(s.received, k)
    ensures forall k :: k != rollupId ==> Count(t.missed, k) == Count(s.missed, k)
    ensures t.lastBlock == s.lastBlock[rollupId := arrival.header.number]
    ensures t.lastTimestamp == s.lastTimestamp[rollupId := arrival.header.timestamp]
  {
    var id := s.nextId;
    var calls := s.calls + [Subscribed(rollupId, id, FilterFor(rollupId, arrival.header)), Unsubscribed(rollupId, id)];
    assert calls[..|calls| - 1] == s.calls + [Subscribed(rollupId, id, FilterFor(rollupId, arrival.header))];
    assert calls[..|calls| - 1][..|calls| - 2] == s.calls;
    AttestorState(
      calls,
      id + 1,
      s.signedRoots + Emission(rollupId, operatorId, sign, arrival),
      s.received[rollupId := Count(s.received, rollupId) + 1],
      if arrival.wait.TimedOut? then s.missed[rollupId := Count(s.missed, rollupId) + 1] else s.missed,
      s.lastBlock[rollupId := arrival.header.number],
      s.lastTimestamp[rollupId := arrival.header.timestamp])
  }

  /** The effect of processing `arrivals` one after the other. */
  function AfterHeaders(s: AttestorState, rollupId: u32, operatorId: OperatorId, sign: Signer, arrivals: seq<Arrival>)
    : AttestorState
    decreases |arrivals|
  {
    if arrivals == [] then s
    else
      AfterHeader(
        AfterHeaders(s, rollupId, operatorId, sign, arrivals[..|arrivals| - 1]),
        rollupId, operatorId, sign, arrivals[|arrivals| - 1])
  }

  // ---------------------------------------------------------------------------
  // Specification of a run of headers
  // ---------------------------------------------------------------------------

  /** The signed messages a run of headers emits, in header order. */
  function Emitted(rollupId: u32, operatorId: OperatorId, sign: Signer, arrivals: seq<Arrival>)
    : seq<SignedStateRootUpdateMessage>
    decreases |arrivals|
  {
    if arrivals == [] then []
    else
      Emitted(rollupId, operatorId, sign, arrivals[..|arrivals| - 1])
        + Emission(rollupId, operatorId, sign, arrivals[|arrivals| - 1])
  }

  /** The notifier calls a run of headers makes, subscription ids counting up from `firstId`. */
  function SubscriptionLog(rollupId: u32, arrivals: seq<Arrival>, firstId: nat): seq<NotifierCall>
    decreases |arrivals|
  {
    if arrivals == [] then []
    else
      var n := |arrivals| - 1;
      SubscriptionLog(rollupId, arrivals[..n], firstId)
        + [Subscribed(rollupId, firstId + n, FilterFor(rollupId, arrivals[n].header)),
           Unsubscribed(rollupId, firstId + n)]
  }

  /** The number of headers whose wait timed out. */
  function TimedOutCount(arrivals: seq<Arrival>): nat
    decreases |arrivals|
  {
    if arrivals == [] then 0
    else TimedOutCount(arrivals[..|arrivals| - 1]) + (if arrivals[|arrivals| - 1].wait.TimedOut? then 1 else 0)
  }

  /** Every header's message is signed successfully. */
  predicate SignsAll(rollupId: u32, sign: Signer, arrivals: seq<Arrival>) {
    forall i :: 0 <= i < |arrivals| ==> sign(Attest(rollupId, arrivals[i].header, arrivals[i].wait)).Ok?
  }

  /** A run of headers makes exactly the subscribe/unsubscribe pairs of its
      headers, emits exactly the signed messages of its headers, bumps the
      received counter once per header and the missed counter once per
      timeout, and touches no other rollup's counters. */
  lemma {:induction false} AfterHeadersEffect(s: AttestorState, rollupId: u32, operatorId: OperatorId, sign: Signer, arrivals: seq<Arrival>)
    ensures var t := AfterHeaders(s, rollupId, operatorId, sign, arrivals);
      && t.calls == s.calls + SubscriptionLog(rollupId, arrivals, s.nextId)
      && t.nextId == s.nextId + |arrivals|
      && t.signedRoots == s.signedRoots + Emitted(rollupId, operatorId, sign, arrivals)
      && Count(t.received, rollupId) == Count(s.received, rollupId) + |arrivals|
      && Count(t.missed, rollupId) == Count(s.missed, rollupId) + TimedOutCount(arrivals)
      && (forall k :: k != rollupId ==> Count(t.received, k) == Count(s.received, k))
      && (forall k :: k != rollupId ==> Count(t.missed, k) == Count(s.missed, k))
    decreases |arrivals|
  {
    if arrivals != [] {
      var n := |arrivals| - 1;
      AfterHeadersEffect(s, rollupId, operatorId, sign, arrivals[..n]);
    }
  }

  /** No run of headers leaves a subscription behind that was not already open. */
  lemma {:induction false} AfterHeadersClosesSubscriptions(s: AttestorState, rollupId: u32, operatorId: OperatorId, sign: Signer, arrivals: seq<Arrival>)
    ensures OpenSubscriptions(AfterHeaders(s, rollupId, operatorId, sign, arrivals).calls) <= OpenSubscriptions(s.calls)
    decreases |arrivals|
  {
    if arrivals != [] {
      AfterHeadersClosesSubscriptions(s, rollupId, operatorId, sign, arrivals[..|arrivals| - 1]);
    }
  }

  /** Header i of a run subscribes with id firstId + i and its own predicate,
      and that subscription is the very next notifier call to be dropped. */
  lemma {:induction false} SubscriptionLogPairs(rollupId: u32, arrivals: seq<Arrival>, firstId: nat)
    ensures |SubscriptionLog(rollupId, arrivals, firstId)| == 2 * |arrivals|
    ensures forall i :: 0 <= i < |arrivals| ==>
      && SubscriptionLog(rollupId, arrivals, firstId)[2 * i]
         == Subscribed(rollupId, firstId + i, FilterFor(rollupId, arrivals[i].header))
      && SubscriptionLog(rollupId, arrivals, firstId)[2 * i + 1] == Unsubscribed(rollupId, firstId + i)
    decreases |arrivals|
  {
    if arrivals != [] {
      var n := |arrivals| - 1;
      SubscriptionLogPairs(rollupId, arrivals[..n], firstId);
      forall i | 0 <= i < n
        ensures arrivals[..n][i] == arrivals[i]
      {
      }
    }
  }

  /** A run emits at most one message per header, and exactly one per header
      precisely when every header's message is signed. */
  lemma {:induction false} EmittedOnePerHeader(rollupId: u32, operatorId: OperatorId, sign: Signer, arrivals: seq<Arrival>)
    ensures |Emitted(rollupId, operatorId, sign, arrivals)| <= |arrivals|
    ensures |Emitted(rollupId, operatorId, sign, arrivals)| == |arrivals| <==> SignsAll(rollupId, sign, arrivals)
    decreases |arrivals|
  {
    if arrivals != [] {
      var n := |arrivals| - 1;
      EmittedOnePerHeader(rollupId, operatorId, sign, arrivals[..n]);
      assert SignsAll(rollupId, sign, arrivals) ==> SignsAll(rollupId, sign, arrivals[..n]) by {
        forall i | 0 <= i < n ensures arrivals[..n][i] == arrivals[i] { }
      }
      assert SignsAll(rollupId, sign, arrivals[..n])
          && sign(Attest(rollupId, arrivals[n].header, arrivals[n].wait)).Ok?
          ==> SignsAll(rollupId, sign, arrivals) by {
        forall i | 0 <= i < n ensures arrivals[..n][i] == arrivals[i] { }
      }
    }
  }

  /** When signing never fails, message i on the channel is header i's
      attestation, signed and tagged with the operator id. */
  lemma {:induction false} EmittedInHeaderOrder(rollupId: u32, operatorId: OperatorId, sign: Signer, arrivals: seq<Arrival>)
    requires SignsAll(rollupId, sign, arrivals)
    ensures |Emitted(rollupId, operatorId, sign, arrivals)| == |arrivals|
    ensures forall i :: 0 <= i < |arrivals| ==>
      Emitted(rollupId, operatorId, sign, arrivals)[i] == SignedAttestation(rollupId, operatorId, sign, arrivals[i])
    decreases |arrivals|
  {
    if arrivals != [] {
      var n := |arrivals| - 1;
      assert SignsAll(rollupId, sign, arrivals[..n]) by {
        forall i | 0 <= i < n ensures arrivals[..n][i] == arrivals[i] { }
      }
      EmittedInHeaderOrder(rollupId, operatorId, sign, arrivals[..n]);
      forall i | 0 <= i < n ensures arrivals[..n][i] == arrivals[i] { }
    }
  }

  /** With the placeholder signer every header yields exactly one message. */
  lemma MockSignEmitsEveryHeader(rollupId: u32, operatorId: OperatorId, arrivals: seq<Arrival>)
    ensures |Emitted(rollupId, operatorId, MockSign, arrivals)| == |arrivals|
  {
    EmittedOnePerHeader(rollupId, operatorId, MockSign, arrivals);
  }

  /** The missed counter never grows faster than the received counter. */
  lemma {:induction false} TimedOutAtMostReceived(arrivals: seq<Arrival>)
    ensures TimedOutCount(arrivals) <= |arrivals|
    ensures TimedOutCount(arrivals) == |arrivals| <==> forall i :: 0 <= i < |arrivals| ==> arrivals[i].wait.TimedOut?
    decreases |arrivals|
  {
    if arrivals != [] {
      var n := |arrivals| - 1;
      TimedOutAtMostReceived(arrivals[..n]);
      forall i | 0 <= i < n ensures arrivals[..n][i] == arrivals[i] { }
    }
  }

  /** Every message a run emits is signed under the operator's id for this
      rollup, and its DA fields are either zero-filled or those of a delivered
      block whose rollup, height and state root are the message's own. */
  lemma {:induction false} EmittedBindsBlocks(rollupId: u32, operatorId: OperatorId, sign: Signer, arrivals: seq<Arrival>)
    requires AllDelivered(rollupId, arrivals)
    ensures forall m :: m in Emitted(rollupId, operatorId, sign, arrivals) ==>
      && m.operatorId == operatorId
      && m.message.rollupId == rollupId
      && ((m.message.nearDaTransactionId == Zero32 && m.message.nearDaCommitment == Zero32)
          || exists a :: a in arrivals && a.wait.Matched? && BindsDaBlock(m.message, a.wait.mqBlock))
    decreases |arrivals|
  {
    if arrivals != [] {
      var n := |arrivals| - 1;
      var last := arrivals[n];
      assert forall a :: a in arrivals[..n] ==> a in arrivals;
      EmittedBindsBlocks(rollupId, operatorId, sign, arrivals[..n]);
      var out := Emission(rollupId, operatorId, sign, last);
      if out != [] {
        var m := out[0];
        assert m == SignedAttestation(rollupId, operatorId, sign, last);
        if last.wait.Matched? {
          assert Delivered(rollupId, last);
          MatchedAttestationBindsBlock(rollupId, last.header, last.wait.mqBlock);
          assert BindsDaBlock(m.message, last.wait.mqBlock);
        }
      }
    }
  }

  // ---------------------------------------------------------------------------
  // Receiving from a tokio broadcast channel
  // ---------------------------------------------------------------------------

  /** What one `recv()` on a broadcast receiver yields. */
  datatype RecvEvent<T> = Received(value: T) | Lagged(skipped: u64) | ChannelClosed

  /** `while let Ok(x) = rx.recv()`: the values received before the first error,
      a lag or the close. */
  function ItemsBeforeError<T>(events: seq<RecvEvent<T>>): seq<T>
    decreases |events|
  {
    if events == [] then []
    else
      match events[0]
      case Received(v) => [v] + ItemsBeforeError(events[1..])
      case _ => []
  }

  /** The values received before the close, skipping over lags. */
  function ItemsBeforeClosed<T>(events: seq<RecvEvent<T>>): seq<T>
    decreases |events|
  {
    if events == [] then []
    else
      match events[0]
      case Received(v) => [v] + ItemsBeforeClosed(events[1..])
      case Lagged(_) => ItemsBeforeClosed(events[1..])
      case ChannelClosed => []
  }

  /** Every value received, across lags and closes. */
  function AllItems<T>(events: seq<RecvEvent<T>>): seq<T>
    decreases |events|
  {
    if events == [] then []
    else
      match events[0]
      case Received(v) => [v] + AllItems(events[1..])
      case _ => AllItems(events[1..])
  }

  /** The number of closes in an event sequence. */
  function ClosedCount<T>(events: seq<RecvEvent<T>>): nat
    decreases |events|
  {
    if events == [] then 0
    else (if events[0].ChannelClosed? then 1 else 0) + ClosedCount(events[1..])
  }

  /** Receiving the event at position i: what it adds to the items and closes seen. */
  lemma ReceiveStep<T>(events: seq<RecvEvent<T>>, i: nat)
    requires i < |events|
    ensures AllItems(events[i..]) ==
      (if events[i].Received? then [events[i].value] else []) + AllItems(events[i + 1..])
    ensures ClosedCount(events[i..]) == (if events[i].ChannelClosed? then 1 else 0) + ClosedCount(events[i + 1..])
  {
    assert events[i..][1..] == events[i + 1..];
  }

  /** Every value received on a header stream respects the delivery contract. */
  predicate DeliveredEvents(rollupId: u32, events: seq<RecvEvent<Arrival>>) {
    forall e :: e in events && e.Received? ==> Delivered(rollupId, e.value)
  }

  /** Both header loops process only received arrivals, so when the stream
      respects the delivery contract so do the runs they process. */
  lemma {:induction false} ReceivedItemsDelivered(rollupId: u32, events: seq<RecvEvent<Arrival>>)
    requires DeliveredEvents(rollupId, events)
    ensures AllDelivered(rollupId, ItemsBeforeError(events))
    ensures AllDelivered(rollupId, ItemsBeforeClosed(events))
    decreases |events|
  {
    if events != [] {
      assert forall e :: e in events[1..] ==> e in events;
      ReceivedItemsDelivered(rollupId, events[1..]);
      assert events[0] in events;
    }
  }

  /** The notifier calls made to forward `blocks`, each under its own rollup id. */
  function NotifyLog(blocks: seq<BlockData>): seq<NotifierCall>
    decreases |blocks|
  {
    if blocks == [] then []
    else
      var b := blocks[|blocks| - 1];
      NotifyLog(blocks[..|blocks| - 1]) + [Notified(b.rollupId, b)]
  }

  /** Forwarding two runs of blocks makes the calls of the first, then those of the second. */
  lemma {:induction false} NotifyLogAppend(first: seq<BlockData>, second: seq<BlockData>)
    ensures NotifyLog(first + second) == NotifyLog(first) + NotifyLog(second)
    decreases |second|
  {
    if second == [] {
      assert first + second == first;
    } else {
      var n := |second| - 1;
      NotifyLogAppend(first, second[..n]);
      assert (first + second)[..|first + second| - 1] == first + second[..n];
    }
  }

  /** Every block is forwarded to the notifier under the block's own rollup id,
      in the order received. */
  lemma {:induction false} NotifyLogUsesOwnRollup(blocks: seq<BlockData>)
    ensures |NotifyLog(blocks)| == |blocks|
    ensures forall i :: 0 <= i < |blocks| ==> NotifyLog(blocks)[i] == Notified(blocks[i].rollupId, blocks[i])
    decreases |blocks|
  {
    if blocks != [] {
      var n := |blocks| - 1;
      NotifyLogUsesOwnRollup(blocks[..n]);
      forall i | 0 <= i < n ensures blocks[..n][i] == blocks[i] { }
    }
  }

  /** Forwarding blocks registers and drops no subscription. */
  lemma {:induction false} NotifyLogKeepsSubscriptions(calls: seq<NotifierCall>, blocks: seq<BlockData>)
    ensures OpenSubscriptions(calls + NotifyLog(blocks)) == OpenSubscriptions(calls)
    decreases |blocks|
  {
    if blocks != [] {
      var n := |blocks| - 1;
      NotifyLogKeepsSubscriptions(calls, blocks[..n]);
      var all := calls + NotifyLog(blocks);
      assert all == calls + NotifyLog(blocks[..n]) + [Notified(blocks[n].rollupId, blocks[n])];
      assert all[..|all| - 1] == calls + NotifyLog(blocks[..n]);
      assert all[|all| - 1].Notified?;
      assert OpenSubscriptions(all) == OpenSubscriptions(all[..|all| - 1]);
    } else {
      assert calls + [] == calls;
    }
  }

  /** A lag is skipped by the MQ loop and by the corrected header loop: each
      sees the same values as if the lag had not occurred. */
  lemma {:induction false} LaggedIsSkipped<T>(before: seq<RecvEvent<T>>, skipped: u64, after: seq<RecvEvent<T>>)
    ensures AllItems(before + [Lagged(skipped)] + after) == AllItems(before + after)
    ensures ItemsBeforeClosed(before + [Lagged(skipped)] + after) == ItemsBeforeClosed(before + after)
    decreases |before|
  {
    if before == [] {
      assert before + [Lagged(skipped)] + after == [Lagged(skipped)] + after;
      assert ([Lagged(skipped)] + after)[1..] == after;
      assert before + after == after;
    } else {
      LaggedIsSkipped(before[1..], skipped, after);
      assert (before + [Lagged(skipped)] + after)[1..] == before[1..] + [Lagged(skipped)] + after;
      assert (before + after)[1..] == before[1..] + after;
    }
  }

  /** The header loop as written stops no later than the corrected loop, which
      in turn sees only a prefix of everything received. */
  lemma {:induction false} ItemsPrefixes<T>(events: seq<RecvEvent<T>>)
    ensures ItemsBeforeError(events) <= ItemsBeforeClosed(events) <= AllItems(events)
    decreases |events|
  {
    if events != [] {
      ItemsPrefixes(events[1..]);
    }
  }

  /** Without a lag the header loop as written and the corrected loop agree. */
  lemma {:induction false} NoLagNoDifference<T>(events: seq<RecvEvent<T>>)
    requires forall i :: 0 <= i < |events| ==> !events[i].Lagged?
    ensures ItemsBeforeError(events) == ItemsBeforeClosed(events)
    decreases |events|
  {
    if events != [] {
      assert forall i :: 0 <= i < |events| - 1 ==> events[1..][i] == events[i + 1];
      NoLagNoDifference(events[1..]);
    }
  }

  /** A lagged header receiver ends the header loop as written: a header
      received after the lag, before any close, is never processed. */
  lemma LaggedHeaderEndsLoop(arrival: Arrival)
    ensures ItemsBeforeError([Lagged(1), Received(arrival), ChannelClosed]) == []
    ensures ItemsBeforeClosed([Lagged(1), Received(arrival), ChannelClosed]) == [arrival]
  {
    var events: seq<RecvEvent<Arrival>> := [Lagged(1), Received(arrival), ChannelClosed];
    assert events[1..] == [Received(arrival), ChannelClosed];
    assert events[1..][1..] == [ChannelClosed];
    assert ItemsBeforeClosed(events[1..][1..]) == [];
    assert ItemsBeforeClosed(events[1..]) == [arrival] + ItemsBeforeClosed(events[1..][1..]);
  }

  // ---------------------------------------------------------------------------
  // The objects
  // ---------------------------------------------------------------------------

  /** The notifier, seen through the calls made on it. Its implementation is
      not part of this model; subscription ids are handed out in sequence. */
  class Notifier {
    var calls: seq<NotifierCall>
    var nextId: nat

    constructor ()
      ensures calls == [] && nextId == 0
    {
      calls := [];
      nextId := 0;
    }

    method Subscribe(rollupId: u32, filter: BlockFilter) returns (id: nat)
      modifies this
      ensures id == old(nextId) && nextId == id + 1
      ensures calls == old(calls) + [Subscribed(rollupId, id, filter)]
    {
      id := nextId;
      nextId := nextId + 1;
      calls := calls + [Subscribed(rollupId, id, filter)];
    }

    method Unsubscribe(rollupId: u32, id: nat)
      modifies this`calls
      ensures calls == old(calls) + [Unsubscribed(rollupId, id)]
    {
      calls := calls + [Unsubscribed(rollupId, id)];
    }

    method Notify(rollupId: u32, mqBlock: BlockData)
      modifies this`calls
      ensures calls == old(calls) + [Notified(rollupId, mqBlock)]
    {
      calls := calls + [Notified(rollupId, mqBlock)];
    }
  }

  /** The metrics listener: per-rollup gauges and counters. */
  class Listener {
    var lastBlockReceived: map<u32, u64>
    var lastBlockReceivedTimestamp: map<u32, u64>
    var blocksReceived: map<u32, nat>
    var missedMqBlocks: map<u32, nat>

    constructor ()
      ensures lastBlockReceived == map[] && lastBlockReceivedTimestamp == map[]
      ensures blocksReceived == map[] && missedMqBlocks == map[]
    {
      lastBlockReceived, lastBlockReceivedTimestamp := map[], map[];
      blocksReceived, missedMqBlocks := map[], map[];
    }

    method ObserveLastBlockReceived(rollupId: u32, blockNumber: u64)
      modifies this`lastBlockReceived
      ensures lastBlockReceived == old(lastBlockReceived)[rollupId := blockNumber]
    {
      lastBlockReceived := lastBlockReceived[rollupId := blockNumber];
    }

    method ObserveLastBlockReceivedTimestamp(rollupId: u32, timestamp: u64)
      modifies this`lastBlockReceivedTimestamp
      ensures lastBlockReceivedTimestamp == old(lastBlockReceivedTimestamp)[rollupId := timestamp]
    {
      lastBlockReceivedTimestamp := lastBlockReceivedTimestamp[rollupId := timestamp];
    }

    method OnBlockReceived(rollupId: u32)
      modifies this`blocksReceived
      ensures blocksReceived == old(blocksReceived)[rollupId := Count(old(blocksReceived), rollupId) + 1]
    {
      blocksReceived := blocksReceived[rollupId := Count(blocksReceived, rollupId) + 1];
    }

    method OnMissedMqBlock(rollupId: u32)
      modifies this`missedMqBlocks
      ensures missedMqBlocks == old(missedMqBlocks)[rollupId := Count(old(missedMqBlocks), rollupId) + 1]
    {
      missedMqBlocks := missedMqBlocks[rollupId := Count(missedMqBlocks, rollupId) + 1];
    }
  }

  /** The state shared by the attestor's tasks: the notifier, the listener and
      the sending side of the signed-message broadcast channel, whose sent
      messages are kept in order. */
  class SharedState {
    const notifier: Notifier
    const listener: Listener
    var signedRootTx: seq<SignedStateRootUpdateMessage>

    /** Between headers no subscription is left registered. */
    ghost predicate Valid()
      reads notifier
    {
      OpenSubscriptions(notifier.calls) == {}
    }

    /** The state as a value. */
    ghost function State(): AttestorState
      reads this, notifier, listener
    {
      AttestorState(
        notifier.calls, notifier.nextId, signedRootTx,
        listener.blocksReceived, listener.missedMqBlocks,
        listener.lastBlockReceived, listener.lastBlockReceivedTimestamp)
    }

    constructor ()
      ensures Valid() && fresh(notifier) && fresh(listener)
      ensures State() == AttestorState([], 0, [], map[], map[], map[], map[])
    {
      notifier := new Notifier();
      listener := new Listener();
      signedRootTx := [];
    }

    /** process_header: observe the header, subscribe with its predicate, wait,
        unsubscribe, build the message, sign it and send it. */
    method ProcessHeader(rollupId: u32, operatorId: OperatorId, sign: Signer, rollupHeader: Header, wait: WaitOutcome)
      returns (result: Result<(), SignError>)
      requires Valid()
      requires Delivered(rollupId, Arrival(rollupHeader, wait))
      modifies this, notifier, listener
      ensures Valid()
      ensures State() == AfterHeader(old(State()), rollupId, operatorId, sign, Arrival(rollupHeader, wait))
      ensures result == match sign(Attest(rollupId, rollupHeader, wait))
                        case Ok(_) => Ok(())
                        case Err(e) => Err(e)
      ensures result.Ok? ==> |signedRootTx| == old(|signedRootTx|) + 1
      ensures result.Ok? && wait.Matched? ==> BindsDaBlock(signedRootTx[|signedRootTx| - 1].message, wait.mqBlock)
    {
      ghost var expected := AfterHeader(State(), rollupId, operatorId, sign, Arrival(rollupHeader, wait));
      var headerNumber := GetHeaderNumber(rollupHeader);
      var headerTimestamp := GetHeaderTimestamp(rollupHeader);
      var headerRoot := GetHeaderRoot(rollupHeader);

      listener.ObserveLastBlockReceived(rollupId, headerNumber);
      listener.ObserveLastBlockReceivedTimestamp(rollupId, headerTimestamp);
      listener.OnBlockReceived(rollupId);

      var filter := BlockFilter(rollupId, headerNumber, headerRoot);
      var id := notifier.Subscribe(rollupId, filter);

      var transactionId := Zero32;
      var daCommitment := Zero32;

      match wait {
        case Matched(mqBlock) =>
          transactionId := mqBlock.transactionId;
          daCommitment := mqBlock.commitment;
        case Closed =>
        case TimedOut =>
          listener.OnMissedMqBlock(rollupId);
      }

      notifier.Unsubscribe(rollupId, id);

      var message := StateRootUpdateMessage(
        rollupId, headerNumber, headerTimestamp, headerRoot, transactionId, daCommitment);
      assert message == Attest(rollupId, rollupHeader, wait);

      match sign(message) {
        case Ok(signature) =>
          var signedMessage := SignedStateRootUpdateMessage(message, signature, operatorId);
          signedRootTx := signedRootTx + [signedMessage];
          result := Ok(());
        case Err(e) =>
          result := Err(e);
      }
      assert notifier.calls == expected.calls && notifier.nextId == expected.nextId;
      assert signedRootTx == expected.signedRoots;
      assert listener.blocksReceived == expected.received && listener.missedMqBlocks == expected.missed;
      assert listener.lastBlockReceived == expected.lastBlock;
      assert listener.lastBlockReceivedTimestamp == expected.lastTimestamp;
    }

    /** process_rollup_headers as written: process every header received, in
        order, ignoring per-header errors, until the first receive error. */
    method ProcessRollupHeaders(rollupId: u32, operatorId: OperatorId, sign: Signer, headersRx: seq<RecvEvent<Arrival>>)
      requires Valid()
      requires DeliveredEvents(rollupId, headersRx)
      modifies this, notifier, listener
      ensures Valid()
      ensures State() == AfterHeaders(old(State()), rollupId, operatorId, sign, ItemsBeforeError(headersRx))
    {
      var i := 0;
      ghost var processed: seq<Arrival> := [];
      while i < |headersRx| && headersRx[i].Received?
        invariant 0 <= i <= |headersRx|
        invariant ItemsBeforeError(headersRx) == processed + ItemsBeforeError(headersRx[i..])
        invariant Valid()
        invariant State() == AfterHeaders(old(State()), rollupId, operatorId, sign, processed)
      {
        var arrival := headersRx[i].value;
        assert headersRx[i] in headersRx;
        assert headersRx[i..][1..] == headersRx[i + 1..];
        var _ := ProcessHeader(rollupId, operatorId, sign, arrival.header, arrival.wait);
        assert (processed + [arrival])[..|processed|] == processed;
        processed := processed + [arrival];
        i := i + 1;
      }
      assert ItemsBeforeError(headersRx[i..]) == [] by {
        if i < |headersRx| { assert headersRx[i..][0] == headersRx[i]; }
      }
      assert processed + [] == processed;
    }

    /** process_rollup_headers as evidently intended: a lag is skipped and only
        the close of the header stream ends the loop. */
    method ProcessRollupHeadersSkippingLag(rollupId: u32, operatorId: OperatorId, sign: Signer, headersRx: seq<RecvEvent<Arrival>>)
      requires Valid()
      requires DeliveredEvents(rollupId, headersRx)
      modifies this, notifier, listener
      ensures Valid()
      ensures State() == AfterHeaders(old(State()), rollupId, operatorId, sign, ItemsBeforeClosed(headersRx))
    {
      var i := 0;
      ghost var processed: seq<Arrival> := [];
      while i < |headersRx| && !headersRx[i].ChannelClosed?
        invariant 0 <= i <= |headersRx|
        invariant ItemsBeforeClosed(headersRx) == processed + ItemsBeforeClosed(headersRx[i..])
        invariant Valid()
        invariant State() == AfterHeaders(old(State()), rollupId, operatorId, sign, processed)
      {
        assert headersRx[i..][1..] == headersRx[i + 1..];
        if headersRx[i].Received? {
          var arrival := headersRx[i].value;
          assert headersRx[i] in headersRx;
          var _ := ProcessHeader(rollupId, operatorId, sign, arrival.header, arrival.wait);
          assert (processed + [arrival])[..|processed|] == processed;
          processed := processed + [arrival];
        }
        i := i + 1;
      }
      assert ItemsBeforeClosed(headersRx[i..]) == [] by {
        if i < |headersRx| { assert headersRx[i..][0] == headersRx[i]; }
      }
      assert processed + [] == processed;
    }

    /** process_mq_blocks: forward every received DA block to the notifier under
        its own rollup id; a lag continues the inner loop, a close ends it and
        the outer loop fetches a new block stream. Returns how many times the
        inner loop ended on a close. */
    method ProcessMqBlocks(mqEvents: seq<RecvEvent<BlockData>>) returns (reconnects: nat)
      requires Valid()
      modifies notifier`calls
      ensures Valid()
      ensures notifier.calls == old(notifier.calls) + NotifyLog(AllItems(mqEvents))
      ensures reconnects == ClosedCount(mqEvents)
    {
      reconnects := 0;
      var i := 0;
      ghost var forwarded: seq<BlockData> := [];
      while i < |mqEvents|
        invariant 0 <= i <= |mqEvents|
        invariant AllItems(mqEvents) == forwarded + AllItems(mqEvents[i..])
        invariant ClosedCount(mqEvents) == reconnects + ClosedCount(mqEvents[i..])
        invariant notifier.calls == old(notifier.calls) + NotifyLog(forwarded)
        decreases |mqEvents| - i
      {
        ghost var more: seq<BlockData>;
        var closed: bool;
        i, closed, more := ForwardBlockStream(mqEvents, i);
        NotifyLogAppend(forwarded, more);
        forwarded := forwarded + more;
        if closed {
          reconnects := reconnects + 1;
        }
      }
      assert mqEvents[i..] == [];
      assert forwarded + [] == forwarded;
      NotifyLogKeepsSubscriptions(old(notifier.calls), forwarded);
    }

    /** The inner loop of process_mq_blocks over one block stream, from
        position `start` until the stream is closed or the input ends. */
    method ForwardBlockStream(mqEvents: seq<RecvEvent<BlockData>>, start: nat)
      returns (next: nat, closed: bool, ghost forwarded: seq<BlockData>)
      requires start < |mqEvents|
      modifies notifier`calls
      ensures start < next <= |mqEvents|
      ensures !closed ==> next == |mqEvents|
      ensures closed ==> mqEvents[next - 1].ChannelClosed?
      ensures forall j :: start <= j < next - 1 ==> !mqEvents[j].ChannelClosed?
      ensures AllItems(mqEvents[start..]) == forwarded + AllItems(mqEvents[next..])
      ensures ClosedCount(mqEvents[start..]) == (if closed then 1 else 0) + ClosedCount(mqEvents[next..])
      ensures notifier.calls == old(notifier.calls) + NotifyLog(forwarded)
    {
      next, closed, forwarded := start, false, [];
      while next < |mqEvents| && !closed
        invariant start <= next <= |mqEvents|
        invariant closed ==> start < next && mqEvents[next - 1].ChannelClosed?
        invariant !closed ==> forall j :: start <= j < next ==> !mqEvents[j].ChannelClosed?
        invariant closed ==> forall j :: start <= j < next - 1 ==> !mqEvents[j].ChannelClosed?
        invariant AllItems(mqEvents[start..]) == forwarded + AllItems(mqEvents[next..])
        invariant ClosedCount(mqEvents[start..]) == (if closed then 1 else 0) + ClosedCount(mqEvents[next..])
        invariant notifier.calls == old(notifier.calls) + NotifyLog(forwarded)
      {
        ReceiveStep(mqEvents, next);
        match mqEvents[next] {
          case Received(mqBlock) =>
            notifier.Notify(mqBlock.rollupId, mqBlock);
            assert (forwarded + [mqBlock])[..|forwarded|] == forwarded;
            forwarded := forwarded + [mqBlock];
          case ChannelClosed =>
            closed := true;
          case Lagged(_) =>
        }
        next := next + 1;
      }
    }
  }
}
