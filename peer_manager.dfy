/**
 * `GossipMessageHandler`: the routing-message handler that the peer manager
 * hands every BOLT #7 gossip message to. It refreshes the stored metadata of
 * peers that already have a record, forwards every announcement and update to
 * the network graph, and declines all bulk gossip synchronisation.
 */
module PeerManager {
  import opened Wrappers
  import opened LightningMsgs
  import opened Collaborators
  import Spec = GossipSpec

  /** `ErroringUtxoLookup::get_utxo`: every lookup fails with an unknown transaction. */
  function GetUtxo(genesisHash: BlockHash, shortChannelId: u64): (r: UtxoResult)
    ensures r.Sync? && r.result.Err? && r.result.error == UnknownTx
  {
    Sync(Err(UnknownTx))
  }

  /** `get_and_clear_pending_msg_events`: the handler never queues a message of its own. */
  function GetAndClearPendingMsgEvents(): (events: seq<MessageSendEvent>)
    ensures |events| == 0
  {
    []
  }

  /** `get_next_channel_announcement`: no channel announcement is ever served. */
  function GetNextChannelAnnouncement(startingPoint: u64)
    : (r: Option<(ChannelAnnouncement, Option<ChannelUpdate>, Option<ChannelUpdate>)>)
    ensures r.None?
  {
    None
  }

  /** `get_next_node_announcement`: no node announcement is ever served. */
  function GetNextNodeAnnouncement(startingPoint: Option<NodeId>): (r: Option<NodeAnnouncement>)
    ensures r.None?
  {
    None
  }

  /** `peer_connected`: every peer is accepted. */
  function PeerConnected(theirNodeId: NodeId, init: Init, inbound: bool): (r: Result<(), ()>)
    ensures r.Ok?
  {
    Ok(())
  }

  /** `handle_reply_channel_range`: accepted and ignored. */
  function HandleReplyChannelRange(theirNodeId: NodeId, msg: ReplyChannelRange): (r: Result<(), LightningError>)
    ensures r.Ok?
  {
    Ok(())
  }

  /** `handle_reply_short_channel_ids_end`: accepted and ignored. */
  function HandleReplyShortChannelIdsEnd(theirNodeId: NodeId, msg: ReplyShortChannelIdsEnd): (r: Result<(), LightningError>)
    ensures r.Ok?
  {
    Ok(())
  }

  /** `handle_query_channel_range`: accepted, and nothing is sent back. */
  function HandleQueryChannelRange(theirNodeId: NodeId, msg: QueryChannelRange): (r: Result<(), LightningError>)
    ensures r.Ok?
  {
    Ok(())
  }

  /** `handle_query_short_channel_ids`: accepted, and nothing is sent back. */
  function HandleQueryShortChannelIds(theirNodeId: NodeId, msg: QueryShortChannelIds): (r: Result<(), LightningError>)
    ensures r.Ok?
  {
    Ok(())
  }

  /** `processing_queue_high`: the handler never asks the peer manager to slow down. */
  function ProcessingQueueHigh(): (r: bool)
    ensures !r
  {
    false
  }

  /** `provided_node_features`: no feature bit is advertised. */
  function ProvidedNodeFeatures(): (f: NodeFeatures)
    ensures forall bit: nat :: !f.Supports(bit)
  {
    Features([])
  }

  /** `provided_init_features`: no feature bit is advertised to any peer. */
  function ProvidedInitFeatures(theirNodeId: NodeId): (f: InitFeatures)
    ensures forall bit: nat :: !f.Supports(bit)
  {
    Features([])
  }

  class GossipMessageHandler {
    const storage: PeerInfoStore
    const networkGraph: NetworkGraph
    /** The announcement-to-peer-info conversion (`msg.clone().into()`). */
    const toPeerInfo: Spec.Conversion

    /** What the handler can change, as the value `GossipSpec` describes. */
    ghost function State(): Spec.HandlerState
      reads storage, networkGraph
    {
      Spec.HandlerState(storage.records, storage.saves, networkGraph.calls)
    }

    constructor (storage: PeerInfoStore, networkGraph: NetworkGraph, toPeerInfo: Spec.Conversion)
      ensures this.storage == storage && this.networkGraph == networkGraph && this.toPeerInfo == toPeerInfo
    {
      this.storage := storage;
      this.networkGraph := networkGraph;
      this.toPeerInfo := toPeerInfo;
    }

    /**
     * Refresh the stored record of the announced node if one exists (a read
     * error counts as none, a write error is only logged), then update the
     * graph and pass back its error, if any.
     */
    method HandleNodeAnnouncement(msg: NodeAnnouncement, faults: Spec.Faults) returns (r: Result<bool, LightningError>)
      modifies storage, networkGraph
      ensures State() == Spec.HandleNodeAnnouncement(old(State()), msg, faults, toPeerInfo).state
      ensures r == Spec.HandleNodeAnnouncement(old(State()), msg, faults, toPeerInfo).result
    {
      var nodeId := msg.contents.nodeId;
      var read := storage.ReadPeerInfo(nodeId, faults.readFault);
      if read.Ok? && read.value.Some? {
        var saved := storage.SaveLnPeerInfo(nodeId, toPeerInfo(msg), faults.writeFault);
        // a failed save is logged and otherwise ignored
      }
      var updated := networkGraph.UpdateNodeFromAnnouncement(msg, faults.graphFault);
      if updated.Err? {
        return Err(updated.error);
      }
      return Ok(false);
    }

    /** Update the graph from a channel announcement, passing no UTXO lookup. */
    method HandleChannelAnnouncement(msg: ChannelAnnouncement, faults: Spec.Faults) returns (r: Result<bool, LightningError>)
      modifies networkGraph
      ensures State() == Spec.HandleChannelAnnouncement(old(State()), msg, faults).state
      ensures r == Spec.HandleChannelAnnouncement(old(State()), msg, faults).result
    {
      var updated := networkGraph.UpdateChannelFromAnnouncement(msg, None, faults.graphFault);
      if updated.Err? {
        return Err(updated.error);
      }
      return Ok(false);
    }

    /** Update the graph from a channel update. */
    method HandleChannelUpdate(msg: ChannelUpdate, faults: Spec.Faults) returns (r: Result<bool, LightningError>)
      modifies networkGraph
      ensures State() == Spec.HandleChannelUpdate(old(State()), msg, faults).state
      ensures r == Spec.HandleChannelUpdate(old(State()), msg, faults).result
    {
      var updated := networkGraph.UpdateChannel(msg, faults.graphFault);
      if updated.Err? {
        return Err(updated.error);
      }
      return Ok(false);
    }
  }
}
