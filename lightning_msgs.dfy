/**
 * The BOLT #7 gossip messages and the other values that cross the boundary of
 * the gossip handler. Only the fields the handler or its collaborators look at
 * are kept; signatures and the remaining wire fields are opaque to the handler.
 */
module LightningMsgs {
  import opened Wrappers

  newtype u32 = x: int | 0 <= x < 0x1_0000_0000
  newtype u64 = x: int | 0 <= x < 0x1_0000_0000_0000_0000

  /** A node's identity: its compressed secp256k1 public key. */
  datatype NodeId = NodeId(pubkey: seq<bv8>)

  type BlockHash = seq<bv8>

  /** A network address as announced; its encoding plays no part here. */
  datatype NetAddress = NetAddress(encoded: seq<bv8>)

  /** The signed part of a `node_announcement`. */
  datatype UnsignedNodeAnnouncement = UnsignedNodeAnnouncement(
    timestamp: u32,
    nodeId: NodeId,
    rgb: seq<bv8>,
    alias: seq<bv8>,
    addresses: seq<NetAddress>)

  datatype NodeAnnouncement = NodeAnnouncement(signature: seq<bv8>, contents: UnsignedNodeAnnouncement)

  datatype ChannelAnnouncement = ChannelAnnouncement(
    chainHash: BlockHash,
    shortChannelId: u64,
    nodeId1: NodeId,
    nodeId2: NodeId)

  datatype ChannelUpdate = ChannelUpdate(
    chainHash: BlockHash,
    shortChannelId: u64,
    timestamp: u32,
    flags: bv8)

  datatype QueryChannelRange = QueryChannelRange(chainHash: BlockHash, firstBlocknum: u32, numberOfBlocks: u32)

  datatype ReplyChannelRange = ReplyChannelRange(
    chainHash: BlockHash,
    firstBlocknum: u32,
    numberOfBlocks: u32,
    syncComplete: bool,
    shortChannelIds: seq<u64>)

  datatype QueryShortChannelIds = QueryShortChannelIds(chainHash: BlockHash, shortChannelIds: seq<u64>)

  datatype ReplyShortChannelIdsEnd = ReplyShortChannelIdsEnd(chainHash: BlockHash, fullInformation: bool)

  /**
   * A feature set as little-endian flag bytes: bit `b` lives in byte `b / 8`.
   * `InitFeatures` and `NodeFeatures` share this representation.
   */
  datatype Features = Features(flags: seq<bv8>) {
    predicate Supports(bit: nat) {
      bit / 8 < |flags| && (flags[bit / 8] >> (bit % 8)) & 1 == 1
    }
  }

  type InitFeatures = Features
  type NodeFeatures = Features

  datatype Init = Init(features: InitFeatures, networks: Option<seq<BlockHash>>, remoteNetworkAddress: Option<NetAddress>)

  /** A message the handler could ask the peer manager to send. */
  datatype MessageSendEvent = MessageSendEvent(nodeId: NodeId, payload: seq<bv8>)

  /** The peer metadata kept in storage for a node: last-seen alias and colour. */
  datatype PeerInfo = PeerInfo(alias: seq<bv8>, rgb: seq<bv8>)

  /** An error from the network graph, carried back to the peer manager. */
  datatype LightningError = LightningError(err: string)

  /** A failure of the peer-info key-value store. */
  datatype StoreError = StoreError(reason: string)

  datatype TxOut = TxOut(value: u64, scriptPubkey: seq<bv8>)

  datatype UtxoLookupError = UnknownChain | UnknownTx

  /** The answer of a UTXO lookup: synchronous, or pending on a future. */
  datatype UtxoResult = Sync(result: Result<TxOut, UtxoLookupError>) | Async

  /** The UTXO lookups this program defines: only the one that always errs. */
  datatype UtxoLookupRef = ErroringUtxoLookup
}
