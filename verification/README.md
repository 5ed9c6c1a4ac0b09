# Plural Star Node: a verified model

A Dafny 4.11 model of the Plural Star relay node: the relay protocol between nodes, the rendezvous
directory, the network-card flood, peer memory, invites, and the registry of connected apps. Each
store of the node is a class whose methods are proved against functions on plain values; the
protocols between nodes are transition systems over those same functions, and the main results are
lemmas about every run of them.

`dafny verify dfyconfig.toml` checks the whole project.

## What is modelled

| file | part of the node |
|---|---|
| `Common.dfy` | bytes, peer and packet IDs, time in nanoseconds, packets |
| `Dedup.dfy`, `Queue.dfy`, `Router.dfy` | the dedup map, the offline queue, the route table with presence gossip |
| `Manager.dfy` | one node's `Route` and `FlushQueued`, run without interleaving |
| `Relay.dfy` | any number of nodes as a transition system, every lock-protected region one atomic step |
| `RelayConservation.dfy`, `RelayRuns.dfy`, `RelayCounts.dfy` | where every packet copy is, over every run, and the counts |
| `RelayBounds.dfy`, `RelayWindow.dfy`, `RelayReasons.dfy` | bounds on duplicates and forwards; the end of the suppression window; why copies are dropped |
| `RelayHistory.dfy`, `RelayGuidance.dfy`, `RelayStreams.dfy`, `RelayFlush.dfy` | each node's tables against their histories; to whom packets go, and where their streams arrive; a flush among everything else |
| `RelaySequential.dfy` | `Manager`'s operations as runs of `Relay` |
| `Rendezvous.dfy`, `RendezvousNet.dfy` | the directory of one node; records across nodes whose clocks disagree |
| `Cards.dfy` | the newest-card flood: termination and convergence |
| `Peers.dfy`, `PeerFile.dfy` | address lists as an LRU stack; ranked save, load and dial |
| `Invite.dfy`, `InviteApply.dfy` | the invite byte frame; applying an invite to a configuration |
| `Registry.dfy` | open sockets against the relay's tables of local apps and refreshers |

Conventions. The clock is an argument; in `Relay` and `RendezvousNet` each node has its own. Map
iteration order is arbitrary. Library decisions (whether bytes are a peer ID, an address parses, a
signature verifies, a stream succeeds) are function arguments, so every result holds whatever they
answer. A stream that fails transfers nothing; one that succeeds puts one copy in flight, which may
then arrive or be lost. `Packet.copy` numbers the injected copies and is not on the wire. A packet
accepted by `Route` and a bucket taken by `FlushQueued` go through the same code (deliver locally,
else look up a route, else put back), so both are a `Job` in `Relay`. Bounds such as
`copy < |s.place|` in `Relay.Enabled` only make the step functions well defined: they follow from
`Located` and hold in every reachable state.

Where the code differs from what its comments say, the model follows the code:

- The queue comment says it holds the newest packet per pair. It holds the last one offered: a flush
  that puts a packet back can replace a newer one (`Queue.PutBackReplacesNewer`) or find no slot left
  (`Queue.PutBackRefusedAtCap`); exactly when is `Queue.PutBackKeepsAllIff`.
- A flush is said to lose nothing. That holds in every run in which no other put, take or expiry
  touches that bucket meanwhile (`RelayFlush.FlushLosesNothing`); exactly which put-backs cost a packet
  is `RelayFlush.PutBackLosesIff`.
- A card announced by its operator is stored even if it is older than the one held, and the flood may
  then not converge (`Cards.StaleAnnounceDiverges`, exact condition in `Cards.AnnounceConvergesIff`).
- A remembered peer none of whose addresses parses takes a place among the 64 saved
  (`PeerFile.UnparsableCostsATarget`, exact condition in `PeerFile.DialAfterReload`).
- `DecodeInvite` accepts an invite without addresses, which `EncodeInvite` never makes; applying one
  can leave a private configuration nobody can bootstrap from (`InviteApply.InviteWithoutAddresses`,
  exact condition in `InviteApply.AppliedValidIff`).
- Closing the last socket of an app and opening another can interleave so that the new socket is
  open but not delivered to (`Registry.RaceStrandsSocket`, exact condition in `Registry.InterruptedClose`).

## Model

| member | source | states |
|---|---|---|
| `Dedup.DedupCache.SeenOrAdd` | internal/relay/dedup.go:26-34 | reports whether the ID is present and, if not, records it at the current time; an ID already present keeps its time |
| `Dedup.DedupCache.EvictExpired` | internal/relay/dedup.go:55-64 | after the eviction loop, in whatever order, an ID is present if and only if it was and is not older than the TTL; its time is unchanged |
| `Queue.PacketQueue.Put` | internal/relay/queue.go:45-61 | stores over the sender's slot with the current time, or refuses a new sender at 500; keeps the queue valid |
| `Queue.PacketQueue.Take` | internal/relay/queue.go:64-81 | removes the whole bucket and returns each unexpired packet exactly once |
| `Queue.TakenMeans` | internal/relay/queue.go:64-81 | what Take returns is every packet of the bucket at most 7 days old, no other, one per sender |
| `Queue.PacketQueue.Len` | internal/relay/queue.go:84-88 | the number of entries held for the recipient, 0 if there is no bucket |
| `Queue.PacketQueue.SweepExpired` | internal/relay/queue.go:103-117 | after the nested deletion loops an entry is there if and only if it was and is at most 7 days old; no empty bucket is left |
| `Queue.PutValid` | internal/relay/queue.go:45-61 | slots stay keyed by their packet's sender, buckets non-empty and within 500 senders |
| `Queue.KeepsNewest` | internal/relay/queue.go:45-117 | over every interleaving of puts, takes and sweeps, a slot holds the last packet offered for its (recipient, sender), and the queue stays valid |
| `Queue.PutBackReplacesNewer` | internal/relay/manager.go:75-101 | an input: a put-back after a newer packet from the same sender leaves the older one in the slot |
| `Queue.PutBackRefusedAtCap` | internal/relay/queue.go:57-59 | an input: a put-back after packets from 500 other senders is refused |
| `Queue.PutBackKeepsAllIff` | internal/relay/manager.go:75-101 | whatever packets arrive while a flush holds one, putting it back loses no packet if and only if none of them has its sender and they come from fewer than 500 senders |
| `Router.RoutingTable.Upsert` | internal/relay/router.go:29-33 | replaces the target's route, expiring a TTL from now |
| `Router.RoutingTable.Remove` | internal/relay/router.go:35-39 | removes the target's route whatever its via node |
| `Router.RoutingTable.Find` | internal/relay/router.go:41-49 | finds the route up to and including its expiry instant |
| `Router.RoutingTable.PruneExpired` | internal/relay/router.go:77-86 | after the prune loop a route is there if and only if it was and is not past its expiry |
| `Router.RoutingTable.Online` | internal/relay/router.go:51-62 | lists, once each, the peers a lookup finds except those expiring at this very instant |
| `Router.RoutingTable.Snapshot` | internal/relay/router_view.go:16-27 | lists, once each, the routes a lookup returns except those expiring at this very instant |
| `Router.RoutingTable.Receive` | internal/relay/presence.go:85-118 | one read-loop turn: own and undecodable messages change nothing; after a tombstone the app is not found at any time; after an announcement it is found at the announcing node until the announced lifetime, a minute if none is given; other apps are found as before; and the right event fires |
| `Router.FoundAsSaid` | internal/relay/presence.go:85-118 | over any messages heard and any prunes, an app is found exactly up to the lifetime of its last announcement, at the node that made it, unless a tombstone followed |
| `Router.ComesAndGoes` | internal/relay/presence.go:58-75 | after hearing what Announce publishes a node finds the app there for 60 s; after hearing what Tombstone publishes, not at all |
| `Router.RefinesHistory` | internal/relay/router.go:29-49 | for every interleaving of upserts, removes and prunes, a lookup is the last upsert not followed by a remove, if not past its expiry |
| `Router.NeverLapses` | internal/relay/manager.go:134-147 | announced at most 45 s apart, processed within 15 s, no tombstone: the lookup succeeds from the first receipt to 60 s after the last, whatever else happens, and gives the latest announcer |
| `Manager.RelayManager.NextHop` | internal/relay/manager.go:89-90 | a next hop is a live route that does not lead back to this node, and there is none only if no live route does |
| `Manager.RelayManager.FlushQueued` | internal/relay/manager.go:75-101 | hands over all unexpired packets of a local app; otherwise the bucket afterwards holds exactly those that had no route or whose stream failed, the others were sent, and no other bucket changed |
| `Manager.RelayManager.Route` | internal/relay/manager.go:149-180 | duplicate, invalid recipient, delivered, forwarded or kept, each exactly when the code says: forwarded if and only if there is a live route to another node and the stream succeeds; and the dedup map and queue after it |
| `Manager.ForwardingLosesNothing` | internal/relay/manager.go:96-100 | trying to forward a whole bucket refuses nothing at the cap and splits it into what stays and what was sent |
| `Manager.SplitSorted` | internal/relay/manager.go:89-100 | what FlushQueued promises, entry by entry: a packet is sent if and only if there is a next hop and the stream to it carries it, and is otherwise in the bucket, which holds nothing else |
| `RelayConservation.KeepQueues` | internal/relay/queue.go:45-61 | putting a packet into a node's queue supersedes at most the packet of its own slot and keeps every queue accounted for |
| `RelayConservation.TakeJobs` | internal/relay/queue.go:64-81 | taking a bucket moves exactly its unexpired copies to the flush |
| `RelayConservation.SweepQueues` | internal/relay/queue.go:103-117 | a sweep moves exactly the expired copies out |
| `RelayConservation.StepOk` | internal/relay/manager.go:75-180 | every step keeps every queue slot, running job, stream and delivery log in exact agreement with the recorded place of every copy |
| `RelayRuns.StepLawful` | internal/relay/manager.go:75-180 | the life cycle of a copy: the only moves any step makes, and only injection and receipt bring a copy to a node |
| `RelayReasons.StepReasons` | internal/relay/manager.go:75-180 | every step drops a copy as lost, duplicate, replaced, refused, expired or misaddressed if and only if that cause is there: its stream broke, its ID was in the dedup map, another packet of its sender took its slot, the recipient had 500 other senders, it waited over 7 days, its recipient is no peer ID |
| `RelayReasons.ReplacedBySameSender` | internal/relay/queue.go:60 | a replaced packet gave its slot to another copy of the same sender and recipient |
| `RelayReasons.DroppedForCause` | internal/relay/manager.go:75-180 | over every run, an injected copy ends up dropped for a reason if and only if some step of the run was that cause |
| `RelayReasons.SuppressedOnlyAfterAccept` | internal/relay/dedup.go:26-34 | over every run, a node suppresses a copy only if it logged an acceptance of that packet ID |
| `RelayRuns.PlaceIsReal` | internal/relay/manager.go:75-180 | a copy is in some queue slot, job, stream or app log if and only if its recorded place says so |
| `RelayRuns.Conservation` | internal/relay/manager.go:75-180 | over every interleaved multi-node run, each injected copy is in exactly one of a queue slot, a running route or flush, a stream, an app, or dropped for a recorded reason |
| `RelayCounts.CountsAddUp` | internal/relay/manager.go:75-180 | in every reachable state, packets handed to apps, queue entries, packets pending in routes and flushes, and streams, each counted where it is over all nodes, plus the copies dropped for the six reasons, are as many as the copies injected |
| `RelayCounts.QueueCount` | internal/relay/queue.go:84-88 | the waiting copies are as many as all buckets of all nodes hold |
| `RelayCounts.PendingCount` | internal/relay/manager.go:75-101 | the copies held are as many as all running routes and flushes have pending |
| `RelayCounts.HandedTotal` | internal/relay/manager.go:156-169 | the delivered copies are as many as all nodes handed over |
| `RelayCounts.BucketCount` | internal/relay/queue.go:84-88 | the copies placed in a bucket are as many as `Len` reports |
| `RelayRuns.ReachesAddresseeUnchanged` | internal/api/handlers.go:212-223 | what an app receives, directly or after any hops and queueing, was injected unchanged, names that app, and no copy is handed over twice |
| `RelayBounds.StepBudget` | internal/relay/manager.go:149-180 | at each node, hand-overs plus successful forwards plus held copies of an ID never exceed its dedup misses of it |
| `RelayBounds.BoundedDuplication` | internal/relay/dedup.go:26-64 | k hand-overs of one ID at a node took at least k dedup misses, any two more than 10 s apart, so more than 10 (k-1) s |
| `RelayBounds.ForwardingStops` | internal/relay/manager.go:89-100 | under arbitrary, changing, cyclic routes a node forwards an ID at most once per dedup miss, at most once until it is evicted there, and never to itself |
| `RelayBounds.NetworkForwards` | internal/relay/manager.go:149-180 | until an ID is evicted somewhere the network forwards it at most once per node in total |
| `RelayWindow.EvictionKeepsRecent` | internal/relay/dedup.go:55-64 | an eviction leaves exactly the IDs the node accepted in the last 10 s |
| `RelayWindow.AcceptedAgain` | internal/relay/manager.go:149-154 | over every run: when a node evicts and accepted an ID only more than 10 s before, the next copy of it to come is accepted and handled, not suppressed |
| `RelayHistory.EveryQueueKeepsNewest` | internal/relay/queue.go:45-117 | in every interleaved run every queue is valid and each slot holds the last packet offered for its recipient and sender |
| `RelayHistory.TablesAreHistory` | internal/relay/router.go:29-49 | in every run a node's lookup is decided by the last announcement or tombstone it processed and its local apps by the last connect or disconnect |
| `RelayGuidance.HandsAreGuided` | internal/relay/manager.go:156-169 | over every run, each hand-over was decided at a step at which the app's last connect had not been followed by a disconnect |
| `RelayGuidance.ForwardsAreGuided` | internal/relay/manager.go:171-180 | over every run, each forward was decided at a step at which its next hop was the via node of the last announcement of the recipient, not tombstoned since and not past its lifetime |
| `RelayStreams.ArrivesWhereRouted` | internal/relay/manager.go:182-219 | over every run: a packet received from a stream is routed at the node the stream led to; the last forward of that copy, at another node, opened the stream; and that node had found its live route for the recipient to lead there |
| `RelayStreams.EveryStreamLogged` | internal/relay/manager.go:182-201 | in every reachable state each stream is the last one some other node logged for its copy |
| `RelayFlush.PutBackLosesIff` | internal/relay/manager.go:90-100 | a put-back costs a packet, its own or another, if and only if its sender has a slot again or the recipient has 500 senders |
| `RelayFlush.FlushLosesNothing` | internal/relay/manager.go:75-101 | in every run, a flush during which no other put, take or expiry touches its bucket, whatever else happens at any node, leaves in the bucket exactly the packets it put back, and exactly the others were handed over or sent since it began |
| `RelaySequential.FlushQueuedIsARun` | internal/relay/manager.go:75-101 | FlushQueued without interruption is a run of the network, with the outcome `Manager.RelayManager.FlushQueued` promises |
| `RelaySequential.RouteIsARun` | internal/relay/manager.go:149-180 | Route without interruption is a run of the network, with the outcome `Manager.RelayManager.Route` promises |
| `Rendezvous.Store.constructor` | internal/api/rendezvous.go:47-75 | a record is in the store if and only if the file has it, not empty and expiring later than now; as it was, expiry in whole seconds; nothing without a path |
| `Rendezvous.Store.Persist` | internal/api/rendezvous.go:77-103 | the file holds every entry with its record and flag and the expiry cut to the second; untouched without a path |
| `Rendezvous.ReloadAnswers` | internal/api/rendezvous.go:54-90 | a node that saves and restarts answers exactly the records whose expiry, cut to the second, is ahead, until then, and keeps which are its own |
| `Rendezvous.Store.Register` | internal/api/rendezvous.go:127-138 | overwrites the namespace, or refuses a new one at 20000 entries, and saves |
| `Rendezvous.Store.MergeRemote` | internal/api/rendezvous.go:140-157 | takes a remote record only if it expires strictly later, keeps the local flag, refuses a new namespace at the cap, saves only on change |
| `Rendezvous.Store.Get` | internal/api/rendezvous.go:184-196 | answers up to and including the expiry instant, and deletes an expired entry it meets |
| `Rendezvous.Store.Janitor` | internal/api/rendezvous.go:105-125 | after a sweep an entry is there if and only if it was and has not expired; saves only if some had |
| `Rendezvous.Store.LocalEntries` | internal/api/rendezvous.go:159-182 | lists exactly the unexpired local entries, once each, with the expiry they have |
| `Rendezvous.ReceiverAnswers` | internal/relay/rendezvous.go:83-103 | what is answered after a message: its record, until its expiry or an hour from now, if it is alive, within the length limits, later than what is there and there is room; otherwise as before; and never a new local entry |
| `Rendezvous.ClampTtl` | internal/api/rendezvous.go:221-224 | a registration lives as long as asked if that is more than nothing and at most an hour, and otherwise an hour |
| `Rendezvous.DeletingIsInvisible` | internal/api/rendezvous.go:105-196 | any interleaving of puts, remote puts, deleting lookups and sweeps answers every lookup like a store that never deletes, while nothing is refused at the cap |
| `Rendezvous.OrderIsIrrelevant` | internal/relay/rendezvous.go:83-103 | nodes that start equal and hear the same records in any order and number answer alike, unless the latest expiry is this very instant |
| `Rendezvous.ExpiryInstantMatters` | internal/relay/rendezvous.go:89-92 | an input: at exactly the latest expiry the answer depends on when the record was heard |
| `Rendezvous.AtTheExpiryInstant` | internal/relay/rendezvous.go:89-92 | at the instant the latest offer expires a node answers with it if it was the starting entry or was heard before, and otherwise has no answer |
| `Rendezvous.OrderMattersIff` | internal/relay/rendezvous.go:83-103 | nodes that start equal and hear the same records answer alike if and only if the latest expiry is not this instant, or both or neither got that record in time |
| `RendezvousNet.StepTraced` | internal/api/server.go:84-103 | no registration, announcement, re-announcement, receipt, lookup, sweep or restart makes a stored, saved or gossiped expiry exceed an origin of the record by more than an hour |
| `RendezvousNet.NothingExtendsARecord` | internal/api/rendezvous.go:127-157 | over every multi-node run from empty stores with disagreeing clocks, every expiry for a (namespace, record) is at most some register or announce time plus 3600 s |
| `RendezvousNet.RecordsAreForgotten` | internal/api/rendezvous.go:184-196 | a node whose clock is over an hour past every origin of a record does not answer with it |
| `RendezvousNet.RestartKeepsAnswers` | internal/api/rendezvous.go:54-75 | over every multi-node run, a restart changes no answer but to cut its expiry to the second |
| `RendezvousNet.ExpiredIsRemoved` | internal/api/rendezvous.go:105-125 | a sweep removes exactly what has expired, from the file too; a lookup removes what it finds expired, and no restart brings it back |
| `RendezvousNet.RegisteredIsAnnounced` | internal/api/rendezvous.go:198-240 | a registration is announced with its whole lifetime, to the millisecond |
| `RendezvousNet.RegisteredStaysAnnounced` | internal/api/server.go:84-103 | through lookups, sweeps, restarts and other traffic, a registered record is answered by its node and announced again until its lifetime, cut to the second, is over, unless it is registered again or a later record comes |
| `RendezvousNet.HeardIsAnswered` | internal/relay/rendezvous.go:83-103 | a node that hears a welcome announcement answers with its record until the announced expiry, or an hour from then |
| `Cards.Discovery.Announce` | internal/network/networks.go:41-49 | a verified card is stored unconditionally and published; an unverified one changes nothing |
| `Cards.Discovery.Receive` | internal/network/networks.go:59-88 | a card is stored and republished if and only if it is not our own, verifies and is strictly newer than the one held |
| `Cards.OnlyVerifiedNewer` | internal/network/networks.go:68-84 | whatever is on the wire, forged or not, only a verified card gets into a store, under its own ID, and only over an older one |
| `Cards.DeliveryDescends` | internal/network/networks.go:59-88 | nodes times unseen cards plus messages in flight drops at every delivery, even one that publishes again |
| `Cards.FloodTerminates` | internal/network/networks.go:59-88 | without new announcements no sequence of deliveries is longer than that measure |
| `Cards.Converges` | internal/network/networks.go:41-88 | once nothing is in flight all nodes know the same IDs with the greatest announced CreatedAt, and the same cards when that is unambiguous |
| `Cards.AnnounceConvergesIff` | internal/network/networks.go:41-88 | for every mesh of the flood and every order of deliveries, all nodes hold the newest cards when the mesh is next quiet after an announcement if and only if the card was not older than the announcer's own, or that newer card was still on its way to the announcer or missing at another node |
| `Cards.QuietAnnounceConvergesIff` | internal/network/networks.go:41-49 | from a quiet mesh: if and only if the card was not older than the announcer's own |
| `Cards.StaleAnnounceDiverges` | internal/network/networks.go:45-48 | announcing an older card leaves two quiet nodes that disagree |
| `Peers.MergeAddrs` | internal/host/peers.go:95-100 | the address goes to the front, the others follow in order without it, eight at most |
| `Peers.KeptIsLRU` | internal/host/peers.go:82-104 | the kept list is the first 8 distinct addresses of the reversed observation history |
| `Peers.AddressesAreLRU` | internal/host/peers.go:78-105 | the same for each peer over any sequence of snapshots of all connections, and without duplicates |
| `Peers.ObservedDates` | internal/host/peers.go:78-105 | after a snapshot a peer with a direct connection has LastSeen now, and every other is unchanged; direct means to another peer, with an address in which p2p-circuit does not occur |
| `PeerFile.BeforeMeans` | internal/host/peers.go:125-130 | the order: later LastSeen first, then the smaller ID, compared character by character |
| `PeerFile.RankingUnique` | internal/host/peers.go:125-130 | the order (LastSeen descending, ID ascending) determines the sorted list, so the unstable sort is deterministic |
| `PeerFile.PeerMemory.Load` | internal/host/peers.go:53-72 | remembers a file entry if and only if its ID decodes, it is at most 30 days old and has an address |
| `PeerFile.PeerMemory.Snapshot` | internal/host/peers.go:78-105 | every peer with a direct connection has LastSeen now, every other is unchanged, and the memory is dirty if there was one |
| `PeerFile.PeerMemory.Save` | internal/host/peers.go:110-141 | writes the ranked list of the at most 64 foremost recent peers, forgets the expired ones, and does nothing when clean |
| `PeerFile.PeerMemory.DialTargets` | internal/host/peers.go:146-182 | the ranking of the recent peers other than self, as far as they decode and have an address that parses |
| `PeerFile.DialableMeans` | internal/host/peers.go:164-180 | a dial target is a listed peer under its own ID, which decodes, with all its addresses that parse, in order, of which there is one |
| `PeerFile.RecentPeersAreKept` | internal/host/peers.go:78-182 | while a node is up, the dial candidates are exactly the peers last sighted at most 30 days ago, and each is in the saved file unless 64 others come before it |
| `PeerFile.ForemostIsTake` | internal/host/peers.go:131-133 | the saved list is uniquely the first 64 of the ranking |
| `PeerFile.DialAfterReload` | internal/host/peers.go:146-182 | after saving and reloading at the same instant, the dial targets are those of the first 64 peers; they are the first 64 dial targets there were if and only if all of these peers, or none of the others, have an address that parses |
| `PeerFile.UnparsableCostsATarget` | internal/host/peers.go:63-71 | an input: 65 peers loaded from an edited file, the foremost without an address that parses, keep 63 of 64 dial targets |
| `PeerFile.EveryMemoryRecallable` | internal/host/peers.go:53-141 | whatever file a node loads first, through any snapshots, saves and restarts its memory holds only peers whose ID decodes and that have an address |
| `PeerFile.OwnFileDialsFirst` | internal/host/peers.go:53-182 | a node that started without a file dials, after any snapshots, saves and restarts and one more save and restart, exactly the first 64 targets it had |
| `Invite.EncodeInvite` | internal/network/invite.go:29-57 | the encoder loop writes version, count, length-prefixed addresses, key and label, with each refusal |
| `Invite.Layout` | internal/network/invite.go:29-57 | byte by byte: 1, the count, each address after its length in two bytes, high one first, the key, the label; and exactly which invites can be encoded |
| `Invite.DecodeInvite` | internal/network/invite.go:70-112 | the reader loop computes the recursive decoder, with each refusal |
| `Invite.DecodesIff` | internal/network/invite.go:70-112 | a string decodes if and only if it is version 1, a count, that many framed addresses that parse and at least 32 bytes more, and then to those |
| `Invite.DecodeEncode` | internal/network/invite.go:29-112 | decoding an encoded invite returns its addresses, key and label |
| `Invite.EncodeDecode` | internal/network/invite.go:70-112 | a decodable string re-encodes if and only if it holds an address, and then to itself |
| `Invite.TruncationRejected` | internal/network/invite.go:83-108 | a prefix of a decodable string decodes if and only if it reaches the end of the key |
| `InviteApply.ConfigHolder.ApplyInvite` | internal/network/invite_apply.go:12-35 | a wrong key length changes nothing; otherwise the key is written to the given path, or ./network.psk, which becomes the key path, the mode becomes private, a label becomes the network ID, the missing addresses are appended, and nothing else changes |
| `InviteApply.ValidMeans` | internal/config/config.go:119-150 | a configuration is valid if and only if its mode is known and has what it needs and its port, addresses and limits are usable |
| `InviteApply.ContainsString` | internal/network/invite_apply.go:37-44 | the search finds the string if and only if it is in the list |
| `InviteApply.AppliedValidIff` | internal/config/config.go:119-150 | from a valid configuration the result validates if and only if there is then an old or new bootstrap peer |
| `InviteApply.InviteWithoutAddresses` | internal/network/invite.go:78-83 | version, a zero count and a key decode to an invite without addresses, and applying it breaks a valid configuration if and only if that has no bootstrap peer |
| `InviteApply.AcceptingKeepsBootable` | internal/network/invite_apply.go:12-35 | accepting what the encoder made yields a valid private configuration that keeps the old bootstrap list as a prefix, gains no duplicates and is unchanged by accepting again |
| `Registry.ApiServer.HasClient` | internal/api/server.go:214-223 | finds a client if and only if the app has an open socket |
| `Registry.ApiServer.Remove` | internal/api/server.go:199-212 | closes the socket and clears the current app only when it was its last |
| `Registry.ApiServer.ConnectApp` | internal/relay/manager.go:103-111 | registers the app, cancelling the refresher it replaces |
| `Registry.ApiServer.DisconnectApp` | internal/relay/manager.go:120-127 | removes the app and cancels its refresher |
| `Registry.ApiServer.Open` | internal/api/handlers.go:190-212 | refuses at capacity, otherwise connects, and keeps the tables in agreement |
| `Registry.ApiServer.Shut` | internal/api/handlers.go:226-233 | closes the socket, disconnects the app with its last one, and keeps the tables in agreement |
| `Registry.ApiServer.SendToApp` | internal/api/server.go:178-190 | reaches every socket of that app and no other |
| `Registry.TablesAgree` | internal/api/handlers.go:202-233 | over all runs of connects and closes from a fresh server, local apps, refreshers and open sockets name the same apps, each with exactly one uncancelled refresher, and the current app is empty or open |
| `Registry.CurrentIsLastOpened` | internal/api/server.go:192-212 | over all runs the current app is that of the last socket opened while that app has a socket open, and otherwise none |
| `Registry.LateDisconnect` | internal/relay/manager.go:120-127 | when all other apps agree, disconnecting the app makes the tables agree if and only if no socket for it is open |
| `Registry.InterruptedClose` | internal/api/handlers.go:226-231 | a socket is removed, others open and close in any order, and its handler disconnects the app: the tables then agree if and only if no socket of the app is open at that point |
| `Registry.RaceStrandsSocket` | internal/api/handlers.go:226-233 | a socket opened between the sibling check and the disconnect ends up open but not delivered to |

## Left out

- libp2p host construction, DHT, mDNS, GossipSub, dialling and ping: libraries; only messages between nodes are modelled.
- HTTP routing, JSON shapes, origin and bearer checks, WebSocket pumps: plumbing with one-branch properties.
- base58 and the `psnode://v1/` prefix, msgpack, multiaddr, JSON and YAML encodings: library code; invites are modelled as byte frames and packets as values.
- Card signing and verification: an arbitrary predicate on cards.
- Failing file and database writes, and the order of concurrent saves: writes succeed and happen with the change they save.
- `FetchDirectory`, `MergeTargets`, the union in `handlePeers`, the token strip in `config.Load`, and configuration fields that are neither validated nor changed by an invite.
- Peer IDs written in a non-canonical text form in a hand-edited peer file: an ID is modelled by its canonical text.
- Integer overflow of wire timestamps: times are unbounded integers.
- Server shutdown, which drops all sockets without the close steps, is not a step of the registry.
- PeerFile.SortPeers: an insertion sort stands for the library sort; only its sorted result, which is unique, is used.
- PeerFile.DialAfterReload: stated for memories that do not hold the node itself; snapshots never record it, but an edited file could name it.
- Manager.RelayManager.FlushQueued: run without interleaving; RelayFlush.FlushLosesNothing states the same of flushes interleaved with everything else.
- Cards.Discovery.Receive: the store is read and written in two transactions (internal/network/networks.go:76-83) and here in one step, so an announcement or a directory fetch between the two, which the write would overwrite, is not modelled.
- RendezvousNet.NothingExtendsARecord: covers runs of this code, in which every message on the wire was announced by some node; forged messages are not steps.
- Rendezvous.DeletingIsInvisible: compares record and expiry, not the local flag, and asks remote records for a positive time to live, as the read loop does.
