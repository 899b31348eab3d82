/**
 * The two external collaborators of the gossip handler, reduced to what the
 * handler can observe of them: the peer-info key-value store (`read_peer_info`
 * and `save_ln_peer_info`) and the network graph, which records every update
 * call made on it. Whether a store access or a graph update fails is decided
 * outside the handler, so each operation takes that outcome as an input.
 */
module Collaborators {
  import opened Wrappers
  import opened LightningMsgs

  /** One call of `save_ln_peer_info`, successful or not. */
  datatype SaveCall = SaveCall(nodeId: NodeId, info: PeerInfo)

  /** One update call on the network graph. */
  datatype GraphCall =
    | UpdateNodeFromAnnouncement(nodeAnn: NodeAnnouncement)
    | UpdateChannelFromAnnouncement(channelAnn: ChannelAnnouncement, utxoLookup: Option<UtxoLookupRef>)
    | UpdateChannel(channelUpd: ChannelUpdate)

  /** The answer of `read_peer_info`: the store's error, or the record if there is one. */
  function ReadRecord(records: map<NodeId, PeerInfo>, id: NodeId, fault: Option<StoreError>)
    : (r: Result<Option<PeerInfo>, StoreError>)
    ensures r.Err? <==> fault.Some?
    ensures r.Err? ==> r.error == fault.value
    ensures r.Ok? ==> (r.value.Some? <==> id in records)
    ensures r.Ok? && r.value.Some? ==> id in records && r.value.value == records[id]
  {
    match fault
    case Some(e) => Err(e)
    case None => Ok(if id in records then Some(records[id]) else None)
  }

  /** The records after `save_ln_peer_info(id, info)`: a failed write leaves them as they were. */
  function SavedRecords(records: map<NodeId, PeerInfo>, id: NodeId, info: PeerInfo, fault: Option<StoreError>)
    : (m: map<NodeId, PeerInfo>)
    ensures fault.Some? ==> m == records
    ensures fault.None? ==> m.Keys == records.Keys + {id} && m[id] == info
    ensures forall k :: k in records && k != id ==> k in m && m[k] == records[k]
  {
    if fault.None? then records[id := info] else records
  }

  /** The unit result of a collaborator call that fails exactly when `fault` is given. */
  function Completion<E>(fault: Option<E>): (r: Result<(), E>)
    ensures r.Ok? <==> fault.None?
    ensures r.Err? ==> r.error == fault.value
  {
    match fault
    case None => Ok(())
    case Some(e) => Err(e)
  }

  /** The peer-info key-value store, with a log of every save attempted on it. */
  class PeerInfoStore {
    var records: map<NodeId, PeerInfo>
    var saves: seq<SaveCall>

    constructor (records: map<NodeId, PeerInfo>)
      ensures this.records == records && saves == []
    {
      this.records := records;
      saves := [];
    }

    method ReadPeerInfo(id: NodeId, fault: Option<StoreError>) returns (r: Result<Option<PeerInfo>, StoreError>)
      ensures r == ReadRecord(records, id, fault)
    {
      if fault.Some? {
        r := Err(fault.value);
      } else if id in records {
        r := Ok(Some(records[id]));
      } else {
        r := Ok(None);
      }
    }

    method SaveLnPeerInfo(id: NodeId, info: PeerInfo, fault: Option<StoreError>) returns (r: Result<(), StoreError>)
      modifies this
      ensures records == SavedRecords(old(records), id, info, fault)
      ensures saves == old(saves) + [SaveCall(id, info)]
      ensures r == Completion(fault)
    {
      saves := saves + [SaveCall(id, info)];
      if fault.Some? {
        r := Err(fault.value);
      } else {
        records := records[id := info];
        r := Ok(());
      }
    }
  }

  /**
   * The network graph seen from outside: the list of update calls made on it.
   * Its validation (signatures, channel checks) is not modelled; the caller
   * supplies whether the graph accepts the update.
   */
  class NetworkGraph {
    var calls: seq<GraphCall>

    constructor ()
      ensures calls == []
    {
      calls := [];
    }

    method UpdateNodeFromAnnouncement(msg: NodeAnnouncement, fault: Option<LightningError>)
      returns (r: Result<(), LightningError>)
      modifies this
      ensures calls == old(calls) + [GraphCall.UpdateNodeFromAnnouncement(msg)]
      ensures r == Completion(fault)
    {
      calls := calls + [GraphCall.UpdateNodeFromAnnouncement(msg)];
      r := Completion(fault);
    }

    method UpdateChannelFromAnnouncement(msg: ChannelAnnouncement, utxoLookup: Option<UtxoLookupRef>, fault: Option<LightningError>)
      returns (r: Result<(), LightningError>)
      modifies this
      ensures calls == old(calls) + [GraphCall.UpdateChannelFromAnnouncement(msg, utxoLookup)]
      ensures r == Completion(fault)
    {
      calls := calls + [GraphCall.UpdateChannelFromAnnouncement(msg, utxoLookup)];
      r := Completion(fault);
    }

    method UpdateChannel(msg: ChannelUpdate, fault: Option<LightningError>)
      returns (r: Result<(), LightningError>)
      modifies this
      ensures calls == old(calls) + [GraphCall.UpdateChannel(msg)]
      ensures r == Completion(fault)
    {
      calls := calls + [GraphCall.UpdateChannel(msg)];
      r := Completion(fault);
    }
  }
}
