/**
 * The records the attestor reads and produces. Their Rust definitions live in
 * `crate::types` and `alloy_rpc_types`, which are not part of this model; only
 * the fields that operator-rs/src/attestor/mod.rs reads or writes are kept.
 */
module Types {
  import opened Primitives

  /** A rollup header as delivered by the RPC client's `subscribe_new_heads`. */
  datatype Header = Header(number: u64, timestamp: u64, stateRoot: Bytes32)

  /** A rollup block carried by a DA record; only its header is consulted. */
  datatype Block = Block(header: Header)

  /** A data-availability confirmation record produced by the MQ consumer. */
  datatype BlockData = BlockData(
    rollupId: u32,
    block: Block,
    transactionId: Bytes32,
    commitment: Bytes32)

  /** The attested statement: a header's state root plus its DA correlation. */
  datatype StateRootUpdateMessage = StateRootUpdateMessage(
    rollupId: u32,
    blockHeight: u64,
    timestamp: u64,
    stateRoot: Bytes32,
    nearDaTransactionId: Bytes32,
    nearDaCommitment: Bytes32)

  /** An opaque BLS signature. */
  datatype BlsSignature = BlsSignature(bytes: seq<u8>)

  /** The operator's identity (a 32-byte id). */
  type OperatorId = Bytes32

  datatype SignedStateRootUpdateMessage = SignedStateRootUpdateMessage(
    message: StateRootUpdateMessage,
    blsSignature: BlsSignature,
    operatorId: OperatorId)
}
