# Gossip message handler of a Lightning node

This project models `GossipMessageHandler`, the routing-message handler that
the node's peer manager hands every BOLT #7 gossip message to
(`node_announcement`, `channel_announcement`, `channel_update` and the gossip
query messages). The node gets its gossip from a rapid-sync snapshot, so the
handler only does two things with live gossip:

- It refreshes the stored alias and colour of nodes that already have a
  peer-info record. It never creates a record.
- It forwards every announcement and update to the network graph.

It declines all bulk synchronisation, advertises no features and never queues
messages of its own.

Files:

- `wrappers.dfy`: `Option` and `Result`.
- `lightning_msgs.dfy`: the gossip messages, the feature sets, peer info, the errors and the UTXO lookup answer.
- `collaborators.dfy`: the peer-info store and the network graph, seen from outside.
  - The store (`PeerInfoStore`) is a map from node id to peer info, plus a log of attempted saves.
  - The graph (`NetworkGraph`) is a log of the update calls made on it.
  - Whether a read, a write or a graph update fails is an explicit input (`Option<error>`).
- `gossip_spec.dfy`: the handler as functions on a `HandlerState`, which holds the records, the save log and the graph log.
  - One function per entry point.
  - `Step` dispatches one routing message; `Run` handles a whole sequence of deliveries.
  - The lemmas about runs are proved by induction.
- `peer_manager.dfy`: the handler itself.
  - A class whose methods update the store and graph objects in place and are proved equal to the spec functions.
  - The constant-answer members of the handler and of `ErroringUtxoLookup`.

The conversion `msg.clone().into()` from an announcement to peer info belongs
to a module that is not part of this model. It is a function value
(`toPeerInfo`) given to the handler when it is constructed.

A network-graph error is passed back to the peer manager with `?`
(peermanager.rs lines 190, 201 and 207). The model returns it as `Err`;
otherwise the answer is `Ok(false)`.

## Model

| member | source | states |
|---|---|---|
| `GossipSpec.HandleNodeAnnouncement` | mutiny-core/src/peermanager.rs:168-193 | The set of stored node ids never changes, so no record is created. Other nodes' records are untouched. A known node's record becomes the announcement's peer info exactly when both the read and the write succeed. A save is attempted exactly when the read succeeds and finds a record. The graph gets exactly one node-update call. The result is `Ok(false)`, or the graph's error. |
| `GossipSpec.ReadFaultLikeAbsent` | mutiny-core/src/peermanager.rs:175-179 | A failing read is handled as if the node had no record: same saves, graph calls and result as for a store without the record, and the store is unchanged. |
| `GossipSpec.WriteFaultDoesNotAbort` | mutiny-core/src/peermanager.rs:180-192 | A failing write leaves the store unchanged. The same save is attempted and the same graph call and result follow as when the write succeeds. |
| `GossipSpec.HandleChannelAnnouncement` | mutiny-core/src/peermanager.rs:195-203 | The store and save log are unchanged. The graph gets exactly one channel-announcement call, with no UTXO lookup. The result is `Ok(false)`, or the graph's error. |
| `GossipSpec.HandleChannelUpdate` | mutiny-core/src/peermanager.rs:205-209 | The store and save log are unchanged. The graph gets exactly one channel-update call. The result is `Ok(false)`, or the graph's error. |
| `GossipSpec.Answer` | mutiny-core/src/peermanager.rs:190-192 | The handler's answer is `Ok(false)` exactly when the graph accepted the update, and otherwise carries the graph's error. |
| `GossipSpec.Step` | mutiny-core/src/peermanager.rs:168-209 | For any of the three routing messages: the stored keys are kept, and only a refreshing announcement changes a record. The save log grows by at most one save, for a known node. The graph log grows by exactly the message's call. |
| `GossipSpec.RunKeepsKeys` | mutiny-core/src/peermanager.rs:174-187 | Over any sequence of messages, the set of nodes with a record never changes. |
| `GossipSpec.RunRecord` | mutiny-core/src/peermanager.rs:175-186 | After any sequence of messages, a known node's record comes from the last announcement for it whose read and write both succeeded, or is its original record if there was none. |
| `GossipSpec.RunLeavesUnrefreshed` | mutiny-core/src/peermanager.rs:174-187 | A record that no delivery refreshes keeps its original value. |
| `GossipSpec.RunInformsGraph` | mutiny-core/src/peermanager.rs:189-207 | Over any sequence of messages, the graph log grows by exactly one call per message, in delivery order. |
| `GossipSpec.RunSavesOnlyKnown` | mutiny-core/src/peermanager.rs:175-180 | Over any sequence of messages, the save log only grows. Every save it gains is for a node that had a record before the run. |
| `GossipSpec.RunNeverConsultsUtxo` | mutiny-core/src/peermanager.rs:157-165 | No channel-announcement call made by any run hands a UTXO lookup to the graph, so `ErroringUtxoLookup` is never consulted. |
| `Collaborators.ReadRecord` | mutiny-core/src/peermanager.rs:175 | A read fails exactly when the store fails. Otherwise it finds a record exactly when the node has one, and returns that record. |
| `Collaborators.SavedRecords` | mutiny-core/src/peermanager.rs:180 | A successful save sets the node's record and keeps all others. A failed save changes nothing. |
| `Collaborators.PeerInfoStore.ReadPeerInfo` | mutiny-core/src/peermanager.rs:175 | Returns the answer `ReadRecord` describes for the current records. |
| `Collaborators.PeerInfoStore.SaveLnPeerInfo` | mutiny-core/src/peermanager.rs:180 | Logs the attempted save and updates the records as `SavedRecords` says. It fails exactly when the store fails. |
| `Collaborators.NetworkGraph.UpdateNodeFromAnnouncement` | mutiny-core/src/peermanager.rs:190 | Appends one node-update call to the graph log and fails exactly when the graph rejects the update. |
| `Collaborators.NetworkGraph.UpdateChannelFromAnnouncement` | mutiny-core/src/peermanager.rs:200-201 | Appends one channel-announcement call, with the lookup it was given, and fails exactly when the graph rejects it. |
| `Collaborators.NetworkGraph.UpdateChannel` | mutiny-core/src/peermanager.rs:207 | Appends one channel-update call and fails exactly when the graph rejects it. |
| `PeerManager.GossipMessageHandler.HandleNodeAnnouncement` | mutiny-core/src/peermanager.rs:168-193 | The new store, save log and graph log, and the result, are those of `GossipSpec.HandleNodeAnnouncement`. |
| `PeerManager.GossipMessageHandler.HandleChannelAnnouncement` | mutiny-core/src/peermanager.rs:195-203 | The new state and the result are those of `GossipSpec.HandleChannelAnnouncement`. |
| `PeerManager.GossipMessageHandler.HandleChannelUpdate` | mutiny-core/src/peermanager.rs:205-209 | The new state and the result are those of `GossipSpec.HandleChannelUpdate`. |
| `PeerManager.GetUtxo` | mutiny-core/src/peermanager.rs:160-165 | Every UTXO lookup answers synchronously with the `UnknownTx` error. |
| `PeerManager.GetAndClearPendingMsgEvents` | mutiny-core/src/peermanager.rs:151-155 | There are never pending messages. |
| `PeerManager.GetNextChannelAnnouncement` | mutiny-core/src/peermanager.rs:211-220 | No channel announcement is served, whatever the starting point. |
| `PeerManager.GetNextNodeAnnouncement` | mutiny-core/src/peermanager.rs:222-227 | No node announcement is served, whatever the starting point. |
| `PeerManager.PeerConnected` | mutiny-core/src/peermanager.rs:229-236 | Every peer connection is accepted. |
| `PeerManager.HandleReplyChannelRange` | mutiny-core/src/peermanager.rs:238-244 | Always `Ok(())`. |
| `PeerManager.HandleReplyShortChannelIdsEnd` | mutiny-core/src/peermanager.rs:246-252 | Always `Ok(())`. |
| `PeerManager.HandleQueryChannelRange` | mutiny-core/src/peermanager.rs:254-260 | Always `Ok(())`. The handler queues no reply (see `GetAndClearPendingMsgEvents`). |
| `PeerManager.HandleQueryShortChannelIds` | mutiny-core/src/peermanager.rs:262-268 | Always `Ok(())`. The handler queues no reply (see `GetAndClearPendingMsgEvents`). |
| `PeerManager.ProcessingQueueHigh` | mutiny-core/src/peermanager.rs:270-272 | The processing queue is never reported as high. |
| `PeerManager.ProvidedNodeFeatures` | mutiny-core/src/peermanager.rs:274-276 | No node feature bit is set. |
| `PeerManager.ProvidedInitFeatures` | mutiny-core/src/peermanager.rs:278-280 | No init feature bit is set, for any peer. |

## Left out

- The `PeerManager` trait and its implementation for the library's peer manager (peermanager.rs lines 22-142): each method is a one-line delegation into the Lightning library's peer manager. Handshake, encryption, framing, timers and the session table all live in that library, which is not part of this model.
- The network graph's own behaviour: signature checks, node and channel validation, and storage. The graph is a log of update calls, and whether it accepts an update is an input.
- The bodies of `read_peer_info`, `save_ln_peer_info` and the announcement-to-peer-info conversion: they live in a module that is not part of this model. They are modelled as a map lookup, a map update and an arbitrary function value. A failed write is assumed to leave the records unchanged.
- Logging of a failed save (`log_warn!`, line 182): it has no effect on behaviour.
- `Arc` sharing, `Clone` and thread safety: the model is sequential, one message at a time.
- Message encoding and signatures: message fields the handler never reads are kept only as opaque bytes, or dropped. The fixed widths of the wire fields (33-byte node id, 32-byte alias, 3-byte colour) are dropped too: they are modelled as byte sequences of any length, since the handler never reads them.
- node-manager/src/nodemanager.rs: WebAssembly bindings, WebSocket I/O in spawned async tasks, and seed generation and storage through modules that are not part of this model. None of it is self-contained logic of the gossip handler.
- The dispatch of decoded messages to the handler happens inside the library's peer manager. `GossipSpec.Step` stands in for it only so that whole runs of messages can be reasoned about.
