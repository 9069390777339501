/**
 * The wire form of a state-root update as the aggregator receives it (Go
 * package `messages`). Only the fields that the database model converts to
 * and from are kept.
 */
module Messages {
  import opened Primitives

  datatype StateRootUpdateMessage = StateRootUpdateMessage(
    rollupId: u32,
    blockHeight: u64,
    timestamp: u64,
    stateRoot: Bytes32)
}

/**
 * The aggregator's persisted row for a state-root update
 * (aggregator/database/models/state_root_update.go) and its conversions to
 * and from the wire message.
 */
module Models {
  import opened Primitives
  import Messages

  /** A reference to the row's BLS aggregation; that model is not part of this one. */
  datatype MessageBlsAggregation = MessageBlsAggregation(id: u32)

  /** The persisted row. The root is stored as a byte slice of any length. */
  datatype StateRootUpdateMessage = StateRootUpdateMessage(
    rollupId: u32,
    blockHeight: u64,
    timestamp: u64,
    stateRoot: seq<u8>,
    aggregationId: u32,
    aggregation: Option<MessageBlsAggregation>)
  {
    /** The unique index `state_root_update_message_key`. */
    function Key(): (u32, u64) {
      (rollupId, blockHeight)
    }

    /** ToMessage: copies the scalar fields and converts the slice to a
        32-byte array, which panics on a slice shorter than 32 bytes and keeps
        the first 32 bytes of a longer one. */
    function ToMessage(): (msg: Messages.StateRootUpdateMessage)
      requires |stateRoot| >= 32
      ensures msg.rollupId == rollupId && msg.blockHeight == blockHeight && msg.timestamp == timestamp
      ensures msg.stateRoot == stateRoot[..32]
      ensures |stateRoot| == 32 ==> msg.stateRoot == stateRoot
    {
      Messages.StateRootUpdateMessage(rollupId, blockHeight, timestamp, stateRoot[..32])
    }
  }

  /** NewStateRootUpdateMessageModel: a fresh row for a message, with no
      aggregation attached yet. */
  function NewStateRootUpdateMessageModel(msg: Messages.StateRootUpdateMessage): (model: StateRootUpdateMessage)
    ensures model.rollupId == msg.rollupId && model.blockHeight == msg.blockHeight
    ensures model.timestamp == msg.timestamp
    ensures |model.stateRoot| == 32
    ensures forall i :: 0 <= i < 32 ==> model.stateRoot[i] == msg.stateRoot[i]
    ensures model.aggregationId == 0 && model.aggregation == None
  {
    StateRootUpdateMessage(msg.rollupId, msg.blockHeight, msg.timestamp, msg.stateRoot[..], 0, None)
  }

  /** Storing a message and reading it back gives the message. */
  lemma RoundTrip(msg: Messages.StateRootUpdateMessage)
    ensures NewStateRootUpdateMessageModel(msg).ToMessage() == msg
  {
  }

  /** A row whose root has exactly 32 bytes survives being read and stored
      again, up to its aggregation fields. */
  lemma ReverseRoundTrip(model: StateRootUpdateMessage)
    requires |model.stateRoot| == 32
    ensures var again := NewStateRootUpdateMessageModel(model.ToMessage());
      && again.rollupId == model.rollupId
      && again.blockHeight == model.blockHeight
      && again.timestamp == model.timestamp
      && again.stateRoot == model.stateRoot
  {
  }

  /** A row whose root is longer than 32 bytes does not: the trailing bytes are dropped. */
  lemma LongRootIsTruncated(model: StateRootUpdateMessage)
    requires |model.stateRoot| > 32
    ensures NewStateRootUpdateMessageModel(model.ToMessage()).stateRoot != model.stateRoot
  {
    assert |NewStateRootUpdateMessageModel(model.ToMessage()).stateRoot| == 32;
  }

  /** Two different messages are stored as two different rows. */
  lemma NewModelInjective(a: Messages.StateRootUpdateMessage, b: Messages.StateRootUpdateMessage)
    requires NewStateRootUpdateMessageModel(a) == NewStateRootUpdateMessageModel(b)
    ensures a == b
  {
    RoundTrip(a);
    RoundTrip(b);
  }

  // ---------------------------------------------------------------------------
  // The unique index on (RollupId, BlockHeight)
  // ---------------------------------------------------------------------------

  /** No two rows share a (RollupId, BlockHeight) key. */
  predicate UniqueKeys(rows: seq<StateRootUpdateMessage>) {
    forall i, j :: 0 <= i < j < |rows| ==> rows[i].Key() != rows[j].Key()
  }

  /** Whether some row has `key`. */
  function HasKey(rows: seq<StateRootUpdateMessage>, key: (u32, u64)): (found: bool)
    ensures found <==> exists i :: 0 <= i < |rows| && rows[i].Key() == key
    decreases |rows|
  {
    if rows == [] then false
    else rows[|rows| - 1].Key() == key || HasKey(rows[..|rows| - 1], key)
  }

  datatype InsertError = UniqueViolation(key: (u32, u64))

  /** Inserting a row into a table with the unique index: refused when the key
      is taken, appended otherwise. */
  function Insert(rows: seq<StateRootUpdateMessage>, row: StateRootUpdateMessage)
    : (r: Result<seq<StateRootUpdateMessage>, InsertError>)
    ensures r.Err? <==> exists i :: 0 <= i < |rows| && rows[i].Key() == row.Key()
    ensures r.Err? ==> r.error == UniqueViolation(row.Key())
    ensures r.Ok? ==> r.value == rows + [row]
    ensures r.Ok? && UniqueKeys(rows) ==> UniqueKeys(r.value)
  {
    if HasKey(rows, row.Key()) then Err(UniqueViolation(row.Key())) else Ok(rows + [row])
  }
}
