/** Blocks and chain notifications as the node's ingestion loop sees them. */
module Blocks {
  import opened Prelude
  import opened CanonicalJson

  /** The `hash=...` header makes a block's own canonical bytes non-empty. */
  type HeaderBytes = s: seq<byte> | s != [] witness [0]

  datatype TxOutput = TxOutput(txHash: string, index: u32, value: u64)

  datatype TxInput = TxInput(spendingTx: string, previousTx: string, previousIndex: u32)

  /** A detector hit on one output. */
  datatype Hit = Hit(kind: string, covenantId: Option<string>, txHash: string, index: u32, payload: Json)

  /** What a block carries apart from its identity: the detector pass and the
      rendering of `entityBytes` happen when it leaves the wire format. */
  datatype Content = Content(
    servedBy: string, entityBytes: HeaderBytes, outputs: seq<TxOutput>, inputs: seq<TxInput>, hits: seq<Hit>)

  datatype IngestedBlock = IngestedBlock(hash: string, daa: u64, isFinalized: bool, content: Content)

  datatype Block = Block(hash: string, daa: i64, isFinalized: bool, content: Content)

  function BlockFromRpc(b: IngestedBlock): Block {
    Block(b.hash, ToI64(b.daa), b.isFinalized, b.content)
  }

  function BlocksFromRpc(bs: seq<IngestedBlock>): (r: seq<Block>)
    ensures |r| == |bs|
    ensures forall i :: 0 <= i < |bs| ==> r[i] == BlockFromRpc(bs[i])
  {
    seq(|bs|, i requires 0 <= i < |bs| => BlockFromRpc(bs[i]))
  }

  datatype Notification =
    | BlockAdded(block: IngestedBlock)
    | VirtualChainChanged(removed: seq<string>, added: seq<IngestedBlock>)
    | RecoveryRequired(fromDaa: u64, toDaa: u64)
}
