# rns-lite-core in Dafny

This project models the bounded transport node of `rns-lite-core`, a Reticulum relay for small devices, and proves
what its documentation and tests promise about it: over every run of the node, every frame it takes in, every transfer,
every blob and every codec input.

## What is modelled

**The node** (`Node.dfy`) is the class `LiteNode`: fixed-capacity tables over arrays, an outbound queue over a ring of
slots, a registry of interfaces, and one method for each step a host can take: a frame taken in, a tick, path requests,
polling, retained fan-out, registration, reset. Its state as a value is `NodeState.View`.

- Every queued frame carries a *token*: a lifetime that names incarnations (generations) of a route, a reverse entry, a
  link or a discovery, and, on a router, the registration of its interface.
- Every step keeps one invariant (`NodeSteps.Inv`) and is related to the state before it by `NodeEffects.Step`. A run
  (`Runs.Run`) is any sequence of such steps at times that never go back, so the theorems of `Runs.dfy` hold of every
  history of a node.
- `Decisions.dfy` says, on the state a frame meets, exactly when each kind of frame goes on and what it then leaves
  behind; `Pairing.dfy` proves from it that frames and the entries made for them belong together; `Ticking.dfy` does
  the same for what a tick queues against what it counts.
- `Journeys.dfy`, `Exchanges.dfy` and `Learning.dfy` put several nodes together: announces, data, links and their
  traffic over a line of relays, path requests and their answers between two nodes, and what is learned from what is
  heard.

**Beside the node**: resource transfer (`Transfer`, `Resources`, `Window`, `Token`) with its MessagePack advertisement
(`MessagePack`, `Advertisement`), the ratchet ring (`Ratchet`), the known-destination table (`KnownDestinations`), LoRa
split framing (`Lora`), and header rewriting on bytes (`Wire`, `Signalling`).

Code that updates fields or buffers in place is modelled by classes and loops, each proved against a function or a
relation on values; the properties are then lemmas about those.

**Conventions.** Hashes, keys and identifiers are integers read from their bytes. Machine integers saturate or are
checked where the source does so. Bit masks are sets of bit numbers. SHA-256, Ed25519 verification, AES-CBC and HMAC are
function parameters, of which only round-trip facts are asked (`Token.Sane`). Announce parsing and authentication and
the access-code wrapper are function parameters of the node that may fail in any way; announce admission and the key a
host has stored for a destination are inputs of a step.

## Where the code falls short of a property

Each is stated with the exact condition under which it holds.

- Export of the known-destination table keeps sixteen bits of the count, so a table of 65536 or more entries does not
  come back: `KnownDestinations.ExportImport` is an equivalence with having fewer.
- An advertisement whose hashmap is not made of whole four-byte entries packs but does not parse:
  `Advertisement.ParsePack` is an equivalence with whole entries.
- A queue without slots counts a row as queued and loses it without counting a drop: `Runs.AdmissionBalancesExactly` is
  an equivalence with having a slot.
- Two split LoRa packets under one sequence nibble within one timeout can be emitted as a packet that is neither
  (`Lora.TooCloseMixes`). `Lora.OnlySentExactly` is an equivalence with having no two frames that clash; a spacing of
  one timeout between such packets is enough (`Lora.SpacedNeverClash`, `Lora.EmittedWasSent`).
- The floor of a resource window is not a lower bound of the window (`Window.FloorCanExceedWindow`).
  `Window.FloorKeptExactly` is an equivalence, over whole runs, with never meeting a repeated very slow round while the
  floor is over four. Two is a lower bound always (`Window.AlwaysBounded`).
- A ratchet restart keeps exactly the keys in storage (`Ratchet.RestartKeepsWhatIsStored`). If an earlier rotation is
  committed while a later one is stored, that loses the live key (`Ratchet.StaleStoreLoses`).
  `Ratchet.RestartLosesExactly` is an equivalence: in every state of every run a restart loses a usable key exactly when
  storage is not current, which is exactly when it lacks the newest live key (`Ratchet.CurrentExactly`).

## Model

| member | source | states |
|---|---|---|
| `Runs.NeverRevives` | src/transport.rs:796-838 | over every run of steps at non-decreasing times, a token that names incarnations already given out and is dead at one step is dead in every later state and at every later time, whatever was relearned, reconnected or reset in between; a router token is judged together with its interface registration |
| `Runs.QueuedFramesNeverRevive` | src/transport/router.rs:211-221 | every frame ever queued carries such a token, so a queued frame once dead stays dead |
| `Runs.LiveThroughout` | src/transport.rs:796-838 | the converse reading: a token live at the end of a run was live at its start |
| `Runs.FramesDieWithWhatTheyName` | src/transport.rs:796-838 | once the incarnation of a route, reverse entry, link or discovery, or the registration, that an issued frame names is gone, the frame is dead in that and every later state of the run, at any time |
| `Runs.FramesDieWithTheirInterfaces` | src/transport.rs:796-838 | a frame is dead while its own interface, that of its route, or one of its link is offline |
| `Runs.ReverseEntriesHaveFrames` | src/transport.rs:1781-1810 | whichever reverse entry a state of a run holds was recorded in a step that queued a data frame naming that very incarnation, towards the interface its proofs return from, and has not changed since |
| `Runs.LinksHaveFrames` | src/transport.rs:1891-1912 | whichever link a state of a run holds was recorded, pending, in a step that queued a link request naming that incarnation; since then only its validation and deadline may have changed |
| `Runs.FramesHaveEntries` | src/transport.rs:1781-1810 | conversely, a queued frame that names an entry made for it was queued in the step that recorded the entry |
| `Runs.ValidationHasEvidence` | src/transport.rs:1923-1970 | in every run, a link that is validated and once was not was validated by an earlier step, which took in a frame on the link's outbound interface, at its recorded hop count and mode, whose signature verifies, under the key the link was admitted with, over a message that spells out this link's id, the frame's key half, that key and the frame's trailer |
| `NodeSteps.AttestsExactly` | src/transport.rs:2091-2144 | a frame attests a link if and only if it fits the link and its signature verifies over the message that spells out this link, whatever builds that message |
| `Signalling.SignedParts` | src/transport.rs:2127-2143 | the bytes a proof signs read back as link id, key half, signing key and trailer, in that order and with nothing else |
| `Signalling.SignedDecides` | src/transport.rs:2127-2143 | two proofs that sign the same bytes are for the same link, the same key and the same proof |
| `Signalling.SigningHalfIsLast` | src/transport.rs:1869-1890 | the signing key of a link is the last 32 of the 64 bytes announced for its destination |
| `Runs.LinksAreFixed` | src/tables.rs:917-989 | over a run a link keeps key, interfaces, hop counts, mode and signing key; validation is never taken back, and a pending deadline never moves |
| `Runs.OpenedLinkCrosses` | src/transport.rs:2036-2058 | in every run, for as long as an opened link lasts: traffic from where the request came, at its hop count, goes over the interface of the route, and traffic from there, at the hop count of the route, goes back |
| `Runs.EmissionsIncrease` | src/tables.rs:354-382 | a destination with a live route keeps the announce it was learned from over a step, or gets one emitted strictly later |
| `Runs.RoutesAreFixed` | src/tables.rs:396-415 | in every run an incarnation of a route keeps destination, next hop, interface and distance |
| `Runs.EmissionsIncreaseWhileRetained` | src/tables.rs:354-382 | the same over any stretch of a run in which the destination keeps a live route: the 40-bit emission time never goes back |
| `Runs.CacheMatchesRoute` | src/transport.rs:1525-1555 | in every reachable state the cached announce of a destination has the packet hash and hops of its route |
| `Runs.IdentityNamesOneRow` | src/transport.rs:2323-2348 | rows with the same identity in two states of a run are one row: its pending targets have only shrunk, and bound generations have not changed |
| `Runs.IdentitiesAreNeverReused` | src/transport.rs:2323-2348 | an identity given out and gone from the queue never appears again |
| `Runs.RowsOnlyShrink` | src/transport.rs:2473-2587 | every old row of a later queue is a row of the earlier queue, with the same frame, fewer pending targets, and bindings fixed once made |
| `Runs.RowsAreConserved` | src/transport.rs:2335-2348 | in every reachable state with a queue capacity, below saturation: rows admitted are rows queued, handed over or lost, and the drop counter is rows lost plus packets refused |
| `Runs.AdmissionBalancesExactly` | src/tables.rs:51-65 | admission keeps that balance if and only if the queue has a slot: without one a row is counted as queued and is gone |
| `Runs.SharesAreKept` | src/transport/router.rs:386-424 | in every reachable state of a router no interface holds more rows than its own depth, the whole queue is within the smaller of configured depth and capacity, and at most one announce waits per interface |
| `Runs.AdmissionIsIsolated` | src/transport/router.rs:386-424 | an admission costs at most one row, of the same interface, and an announce costs only an announce |
| `Runs.SentAtMostTwice` | src/transport.rs:1102-1148 | in every reachable state each scheduled announce has been sent at most twice to each target |
| `Runs.RebroadcastsWithinCap` | src/transport/router.rs:462-513 | in every run, while an interface stays registered: from any step that queues a rebroadcast to it to any later one, the airtime of all rebroadcasts queued to it before the later one, a thousandfold, is at most the cap in permille times the time between the two |
| `Runs.CapIsKept` | src/transport/router.rs:462-513 | the same in every reachable state, between any two releases in the log of an interface |
| `Runs.LogIsWhatWasQueued` | src/transport/router.rs:462-513 | what the log of an interface gains over a stretch of a run is exactly the work of the rebroadcasts queued to it in that stretch |
| `Node.LiteNode.constructor` | src/transport.rs:490-522 | an empty node satisfies the invariant all the run theorems start from |
| `Node.LiteNode.Ingest` | src/transport.rs:1194-1405 | every frame taken in is a step that keeps the invariant; before the tables are consulted it is screened, then looked up among frames seen, then dealt with exactly as `Decisions.Ingests` says: both when it is refused and what it leaves behind |
| `Journeys.LetInExactly` | src/transport.rs:1194-1300 | a frame is let in if and only if its interface takes it, it unwraps and parses within the budget, is not for the sink, has come less than 128 hops, is addressed to this relay or to none, and does not break the one-hop rule for plain and group packets |
| `Journeys.SinkIsDirect` | src/transport.rs:1248-1268 | the plain sink hears only what was sent without a relay |
| `Exchanges.OwnTrafficStays` | src/transport.rs:1338-1351 | traffic for the host's own destinations and links is never passed on |
| `Exchanges.LinksAreLookedUpElsewhere` | src/transport.rs:1302-1319 | traffic of a relayed link and what sets links up is not entered in the list of frames seen before its own handler has dealt with it |
| `Exchanges.AnnouncesAreHeardAgain` | src/transport.rs:1319-1331 | an announce is never dropped as a duplicate |
| `Pairing.IngestSound` | src/transport.rs:1194-1405 | for every frame taken in: a frame it queues names the one entry recorded in the same step or none, an entry is recorded only with such a frame, a link is validated only by the frame itself, and if nothing was queued the live reverse entries and links are as they were, and so are live routes unless the frame was an announce |
| `Node.LiteNode.HandleForward` | src/transport.rs:1760-1811 | data is forwarded if and only if it is addressed to this relay, a live route can carry it, an incarnation is left and the queue admits it; then it is queued along that route under the incarnation of the one reverse entry recorded, and otherwise queue, incarnation counters and live entries are untouched |
| `Decisions.RelayRecordsExactlyOne` | src/transport.rs:1781-1810 | after an accepted forward the last queued frame is the one rewritten for its route, and names exactly one new reverse entry, whose way it is |
| `Journeys.BytesGoOnDirected` | src/transport.rs:2146-2195 | the bytes sent along a route parse to the same core, one hop on: with relays to come in the long form for the next hop of the route, on the last hop in the short form for nobody; refused exactly when the next relay is unknown or the longer header does not fit |
| `Journeys.OneRelayTakesIt` | src/transport.rs:531-539 | of two relays, the one whose address is the next hop of the route takes the bytes in and finds itself addressed, and one with any other address does not take them in; on the last hop nobody is addressed |
| `Journeys.RelayedDirected` | src/transport.rs:1760-1811 | a data frame that was relayed is queued to the interface of its route and directed along it |
| `Journeys.RequestedDirected` | src/transport.rs:1813-1912 | and so is a link request |
| `Journeys.RelayedUntil` | src/transport.rs:902-966 | the token of a relayed data frame names its route and its reverse entry, and ends exactly when the first of them would, or when frames are no longer kept |
| `Journeys.DataFollowsAnnounce` | src/transport.rs:1421-1600 | over any line of relays that pass an announce on one after the other and learn routes from it: a packet handed to any of them passes all relays between it and the destination, addressed to the next one each time, and arrives in the short form with its core unchanged |
| `Journeys.AnnounceReaches` | src/transport.rs:2198-2222 | the announce reaches every relay of the line under the address of the one before, one hop further each time |
| `Journeys.RouteLeadsBack` | src/transport.rs:1510-1521 | and the route a relay learns leads to the relay before, at its distance from the destination |
| `Journeys.LoopsEnd` | src/transport.rs:1271-1277 | whatever the routes of whatever relays are, no packet passes more than 128 of them, and its core never changes |
| `Journeys.PlainStaysNear` | src/transport.rs:1288-1300 | plain and group packets outside repeating contexts pass two relays at most |
| `Journeys.ProofFindsWayBack` | src/transport.rs:1972-2005 | after a data frame was relayed, a proof of it finds exactly one way back: in where the frame went out, and out where it came from |
| `Journeys.CopiesAreDuplicates` | src/transport.rs:1302-1331 | frames of one core are one frame: after one was looked up, every copy within two minutes is a duplicate, whichever way it came |
| `Journeys.GoesOutWhereAllowed` | src/transport/router.rs:307-340 | a frame goes back where it came in only where repeating is allowed, elsewhere only where forwarding is, and never on an interface that is down or too small for it |
| `Journeys.BothEndsAgree` | src/transport/router.rs:273-299 | what one router may queue for an interface, another with the same settings lets in, access code included |
| `Journeys.HopCost` | src/transport.rs:1333-1337 | a relay costs a frame one hop, a local client none |
| `Journeys.UnknownIsLora` | src/transport.rs:978-996 | what is queued for an interface nothing is known of fits a LoRa packet with its access code |
| `Node.LiteNode.HandleLinkRequest` | src/transport.rs:1813-1913 | a link request is forwarded if and only if it is for this relay, its link is new, a slot and an incarnation are free, a live route between link-capable interfaces can carry it and the queue admits it; otherwise no trace is left |
| `NodeEffects.RequestRecordsExactlyOne` | src/transport.rs:1891-1912 | after an accepted link request the last queued frame names exactly one new link, which is the pending one recorded, and every live link is still there unchanged |
| `Node.LiteNode.HandleLinkProof` | src/transport.rs:1923-1970 | an establishment proof validates its link if and only if it came from the far side at the recorded distance, verifies, is new, and is queued; otherwise neither the link nor its evidence changes |
| `Decisions.ProofDecided` | src/transport.rs:2091-2144 | exactly when an establishment proof goes through, in terms of the one live link it names |
| `Node.LiteNode.HandleReverseProof` | src/transport.rs:1976-2004 | a delivery proof goes back if and only if a live reverse entry leads back from where it came and the queue admits it; then the entry is consumed and the proof lives no longer than the entry would have; otherwise taking and restoring the entry leaves no trace |
| `NodeEffects.Undone` | src/tables.rs:789-811 | taking a reverse entry out and restoring it under its old incarnation, around a refused send, keeps the invariant and leaves no trace |
| `Node.LiteNode.RouteLinkPacket` | src/transport.rs:2009-2089 | link traffic is claimed, and passed to the other side, under exactly the stated conditions; a sent frame names its link, only a validated deadline moves, and its hash is noted unless its context repeats |
| `Journeys.TrafficCrosses` | src/transport.rs:2036-2058 | between two interfaces link traffic goes on if and only if it came from one of the two sides at the hop count recorded for that side, and then to the other side; on one interface, if it came the distance of either side |
| `Journeys.CarriedAcross` | src/transport.rs:2009-2088 | link traffic that went on is queued to the other side of its link, as it came but for the hop count |
| `Journeys.CarriedFits` | src/transport.rs:2027-2034 | what is carried fits the size accepted for the link, and both interfaces of the link can carry links |
| `Journeys.OpenedCrosses` | src/transport.rs:1869-1912 | a link opened from one interface over a route: traffic from either side, at the hop count of the request or of the route, goes to the other |
| `Journeys.RequestFollowsAnnounce` | src/transport.rs:1813-1912 | over any line of relays a link request follows the announce back as data does, and asks for the same link at every relay |
| `Journeys.LinkSpansLine` | src/transport.rs:1813-1912 | every relay of the line records the link under the same id and the key announced, and what either end sends, counted from the hop count it starts with, passes every relay to the other side |
| `Journeys.ProofAttestsLine` | src/transport.rs:2091-2144 | the destination's establishment proof attests the link at every relay of the line |
| `NodeEffects.RequestsKeepTheMtu` | src/transport.rs:1852-1867 | no request passes a relay with a signalled packet size other than the one every relay can carry |
| `NodeEffects.LifetimeIs` | src/transport.rs:902-966 | a frame on a link lives until the link dies, and a frame along a route until route or entry does, or for as long as frames are kept if that is less |
| `Node.LiteNode.HandleAnnounce` | src/transport.rs:1421-1603 | an announce is heeded if and only if it is foreign, admitted, authentic and near enough; the route and cache change exactly under the freshness and class rules, open discoveries are settled, the rebroadcast is scheduled, and a replay changes neither route nor cache |
| `Learning.LearnedRoute` | src/transport.rs:1510-1521 | the route learned leads over the interface the announce came in on to the relay that sent it on, at the hop count it arrived with, with what the announce says, for as long as the mode of the interface allows |
| `Learning.NotLearned` | src/transport.rs:1429-1469 | ways to own destinations, from 128 hops away or without admission are not learned, and nothing else changes |
| `Learning.KeyIsPinned` | src/transport.rs:1450-1456 | if verification holds on to the key it is given, a learned route has the key the host has stored, else that of the route there was |
| `Learning.AwaitedIsNotBulk` | src/transport.rs:1497-1507 | a route somebody waits for is never one of those given up first |
| `Learning.UsedRouteLivesOn` | src/tables.rs:298-309 | a route used any number of times lives after each use for as long as it was given when it was learned, and stays what it was |
| `Learning.PassedOnFromHere` | src/transport.rs:1569-1593 | what is scheduled is the announce under this address and hop count, due within half a second; a path response never is |
| `Learning.TwoCopiesEndRetry` | src/transport.rs:1472-1491 | the second neighbour that passes an announce on as we did ends our retry, the first does not |
| `Learning.CopyOfOursEndsRetry` | src/transport.rs:1472-1491 | one that passes our own copy on ends it exactly if the retry is not due yet |
| `Learning.OtherCopiesDoNot` | src/transport.rs:1472-1491 | other copies, and any before the first send, change nothing |
| `Paths.EmittedIsRead` | src/tables.rs:1064-1070 | the emission time is the integer in the last five bytes of the random hash |
| `Decisions.HeededFresher` | src/tables.rs:354-382 | whatever an announce does, no live route is replaced by one emitted earlier |
| `Node.LiteNode.HandlePathRequest` | src/transport.rs:1605-1758 | which requests are new (their destination and tag are not among the live tags), local, withheld, answered or searched for, each if and only if; an answer is the cached announce whose hash and hops are those of the live route |
| `Exchanges.RequestIsRead` | src/transport.rs:2237-2269 | the path request one node writes another reads as it was meant: the destination, who asks, and the tag |
| `Exchanges.RequestKeyDecides` | src/transport.rs:1605-1640 | requests are told apart by destination and tag, and by nothing less |
| `Exchanges.OwnRequestIsKnown` | src/transport.rs:765-789 | a node that has sent a path request knows it when it hears it back |
| `Exchanges.AnswerLeadsHere` | src/transport.rs:2223-2235 | an answer leads who asked to the node that gave it, one hop further than its own route, is not passed on, and was not given to the next hop of that route |
| `Exchanges.DiscoveryLeadsHere` | src/transport.rs:1037-1072 | and so does the answer at the end of a discovery |
| `Exchanges.AnswerAudience` | src/transport.rs:1037-1072 | that answer goes only to interfaces that wait for it, and back where it came from only if that is no local client and does not roam |
| `Exchanges.BroadcastAudience` | src/transport/router.rs:342-384 | a broadcast reaches only registered interfaces that may pass it on, and, if it is local, only local clients |
| `Exchanges.SearchIsBrief` | src/transport.rs:1690-1758 | a search frame lives for the request gate, within the time of its discovery |
| `Exchanges.SearchesOnBehalf` | src/transport.rs:2621-2630 | discoveries begin only for modes that ask for them and with transport enabled |
| `Exchanges.SearchTimeCovers` | src/transport.rs:1020-1035 | the time a discovery is given covers a round trip on every interface its search can go out on |
| `Exchanges.OwnRateCountsOnlyRepeated` | src/transport.rs:1020-1035 | and counts the interface it came in on only if that repeats |
| `Node.LiteNode.Discover` | src/transport.rs:1605-1758 | a search begins or is joined exactly as the discovery table allows, and a new one is broadcast bound to its discovery |
| `Node.LiteNode.FinishDiscovery` | src/transport.rs:1037-1072 | a learned route closes its discovery, and the answer is offered once to each interface that waits, or counted once for each when it cannot be made |
| `Node.LiteNode.BroadcastAll` | src/transport/router.rs:342-384 | a broadcast is offered slot after slot to every interface that may pass it on, under one lifetime, and the result counts the admissions |
| `Node.LiteNode.Tick` | src/transport.rs:1086-1150 | a tick is a step; afterwards exactly the entries live now are left, and for every destination and target the rebroadcasts it queued are within the rise of that target's tally; the log of releases of an interface grows by one release, at this time, for the rebroadcast queued to it, and only by that |
| `Node.LiteNode.ProcessAllDue` | src/transport.rs:1102-1148 | the loop over due announces ends, with nothing due left |
| `Node.LiteNode.ProcessDue` | src/transport.rs:1102-1148 | what one due announce does: nothing once its route is gone; otherwise it is owed to its targets or sent and counted, and put back later for another round or for what it owes |
| `Learning.SentTwice` | src/transport.rs:1100-1150 | an endpoint offers an announce twice, the second time five to five and a half seconds later, and is then done with it |
| `Learning.OwedForADay` | src/transport.rs:1110-1150 | a router owes an announce whose time has come to every interface it may leave on, for a day, and comes back to it a round later |
| `Node.LiteNode.ReleaseSlot` | src/transport/router.rs:462-513 | nothing is released while the gate of an interface is closed or an announce waits; otherwise every release is counted before it is queued, and at most one rebroadcast is queued to the interface and logged with its airtime, with nothing of other interfaces touched |
| `Node.LiteNode.SendOwed` | src/transport/router.rs:462-513 | an owed announce is queued if and only if it is admitted, and then its gate is charged for its airtime |
| `Node.LiteNode.Prepare` | src/transport.rs:1194-1405 | before a frame is looked at, exactly the dead rows have left the queue, each counted once, and exactly the expired discoveries are gone |
| `Node.LiteNode.RequestPath` | src/transport.rs:765-789 | a host's path request is offered to the queue once dead rows are gone, and no route, link or reverse entry changes; its tag is remembered exactly when it was admitted |
| `Node.LiteNode.DropPath` | src/transport.rs:754-756 | dropping a route is a step, so tokens of that incarnation stay dead even when the same announce is learned again |
| `Node.LiteNode.SetLocal` | src/transport.rs:541-625 | what the host serves may change freely: it is a step, and nothing else changes |
| `Node.LiteNode.RecordExpired` | src/transport.rs:872-875 | a frame lost by the host is counted once, and no queued row goes |
| `Node.LiteNode.LifetimeLive` | src/transport.rs:796-838 | liveness as the source decides it is the predicate the run theorems are about |
| `Node.LiteNode.LocalLifetime` | src/transport.rs:846-868 | a host's own packet follows the live route of its destination if there is one, and never outlives it |
| `Node.LiteNode.ExpireOutbound` | src/transport.rs:885-900 | exactly the rows whose token is dead leave, each counted once |
| `Node.LiteNode.PacketLifetime` | src/transport.rs:902-967 | the lifetime of a frame is determined by the live route and link of its destination, and names only incarnations given out |
| `Node.LiteNode.EnqueueWithLifetime` | src/transport.rs:2285-2349 | a frame is admitted if and only if its interface is up, it fits and wraps, and there is room; a refusal leaves the queue as it was and is counted once |
| `Node.LiteNode.EnqueueForwarded` | src/transport/router.rs:317-340 | the same for a forwarded frame, which its source and target interfaces must also allow |
| `Node.LiteNode.SendLocal` | src/transport/router.rs:197-209 | endpoint-owned traffic is queued if and only if it is admitted, and is a step |
| `Node.LiteNode.PollInterface` | src/transport/router.rs:223-241 | what is handed over is live, belongs to the interface, and is its first row, announces last |
| `Node.LiteNode.RegisterInterface` | src/transport/router.rs:117-136 | a registration succeeds exactly when the registry can take it, gets a generation above all before, and finds nothing owed to its slot |
| `Node.LiteNode.RetireInterface` | src/transport/router.rs:182-193 | retiring an interface ends its generation; no entry goes through it any more and every row left is live |
| `NodeRegistry.SlotIsForgotten` | src/transport/router.rs:182-193 | nobody waits at a slot that was retired or registered anew, nothing is owed to it, and every other slot waits and is owed as before |
| `Node.LiteNode.UnregisterInterface` | src/transport/router.rs:138-153 | an interface is removed exactly when it is known and not the last |
| `Node.LiteNode.SetOnline` | src/transport/router.rs:155-180 | taking an interface down retires it, and bringing it up gives it a new generation and changes nothing else, or nothing at all if it is up; refused exactly when it is unknown or generations have run out |
| `Node.LiteNode.Reset` | src/transport.rs:637-674 | a reset is refused exactly for a depth the queue cannot hold, an invalid replacement registry or an exhausted epoch; otherwise everything is forgotten but the counters, and every registration gets a generation above all before |
| `Node.LiteNode.RetireTarget` | src/transport.rs:2577-2587 | no row, bound or not, owes to a retired host interface |
| `Node.LiteNode.RetireReplaced` | src/transport.rs:2592-2604 | a replaced interface is forgotten, no entry goes through it, and every row left is live |
| `Node.LiteNode.UpdateInterface` | src/transport.rs:2380-2420 | new facts replace old ones; a change of mode retires the interface, a reconnect only what was queued for it |
| `Node.LiteNode.UpdateCapacity` | src/transport.rs:2426-2445 | a new packet budget is taken exactly for the current registration; if it differs, links over the interface and rows that depended on them go |
| `Node.LiteNode.Select` | src/transport.rs:2473-2532 | after a selection every row left matches the current generations and still owes something, and the row offered is the first that may be |
| `Node.LiteNode.Acknowledge` | src/transport.rs:2535-2558 | an acknowledgement strikes targets off the row it names, which leaves when it owes nothing, and touches no other |
| `Node.LiteNode.TakeRow` | src/transport.rs:2561-2572 | a row is taken exactly when retained mode is on and its identity is in the queue |
| `NodeSteps.QueueThenRecord` | src/transport.rs:1781-1810 | queueing a frame under a lifetime whose entry is recorded after it keeps the invariant |
| `NodeState.LiveBefore` | src/transport.rs:796-838 | a token live after one step was live before it, for every kind of dependency |
| `NodeState.FollowsTransitive` | src/transport.rs:796-838 | parts of a step taken at one time make a step |
| `Outbound.EnqueueKeeps` | src/transport/router.rs:386-424 | admission keeps identities increasing front to back, the books balanced, and every interface within its share |
| `Outbound.SelectKeeps` | src/transport.rs:2473-2532 | selection keeps order, books and bindings, and leaves only targets whose generation is current |
| `Outbound.FirstBinding` | src/transport.rs:2473-2533 | when it is first bound, an own path request is owed to every interface there is, what is passed on to every other, and anything else only to its own |
| `Outbound.LaterBinding` | src/transport.rs:2473-2533 | afterwards a row owes a target exactly if it did and the interface is registered as it was then |
| `Outbound.SelectGoesOn` | src/transport.rs:2473-2533 | selection goes on past the row named, and skips only rows all of whose targets are blocked |
| `Outbound.AckTouchesOne` | src/transport.rs:2535-2558 | an acknowledgement leaves every row but the one it names as it was |
| `Outbound.PurgeKeeps` | src/transport.rs:885-900 | expiry keeps order, books and shares |
| `Outboxes.Outbox.Admit` | src/transport/router.rs:386-424 | a frame is admitted if and only if there is room, at the cost of at most the row the source would give up |
| `Outboxes.Outbox.Purge` | src/transport.rs:885-900 | removing failing rows one at a time leaves exactly the others, in order, each removed row counted once |
| `Ring.Queue.PushDropOldest` | src/tables.rs:51-65 | the ring of slots is a FIFO queue: pushing into a full one drops the oldest, and into one without slots discards the value |
| `Ring.Queue.Remove` | src/tables.rs:97-111 | removing in the middle keeps the order of the others |
| `Generations.GenTable.Insert` | src/tables.rs:759-775 | a table of incarnations replaces the entry with the same key, else takes a free slot, else evicts one of least expiry, under a generation above all before; exhausted generations change nothing |
| `Generations.GenTable.GetGeneration` | src/tables.rs:269-280 | an incarnation is found exactly while its own entry is held and live |
| `RowTables.RowTable.InsertIfNew` | src/tables.rs:156-173 | a key still held is not refreshed; a new one is kept at the cost of at most one entry of least expiry |
| `Paths.InsertOrUpdate` | src/tables.rs:354-394 | a live route is replaced exactly by an announce emitted later; the same route keeps its incarnation, any other gets a new one; a bulk newcomer displaces only bulk routes |
| `Paths.ReplacesExactlyNewer` | src/tables.rs:354-394 | for a live route the branches on hops and freshness come to one test: later emission |
| `Announces.CacheInsert` | src/tables.rs:469-487 | an announce is cached over what its destination had; a bulk newcomer displaces only bulk ones, and the victim is the oldest of its class |
| `Announces.ScheduleInsert` | src/tables.rs:561-581 | scheduling replaces the destination's entry, and a full schedule gives up the pending entry released last, else the oldest |
| `Announces.ReleasePending` | src/tables.rs:602-621 | what is released to a target is first in release order among what is owed to it |
| `Announces.PopDue` | src/tables.rs:641-648 | a popped entry is due and live, and leaves the schedule |
| `Rebroadcast.DrainsInOrder` | src/tables.rs:602-621 | draining a target with nothing scheduled in between releases in order of hops, then expiry |
| `Rebroadcast.SchedulingKeeps` | src/tables.rs:561-581 | a newly scheduled announce starts with nothing sent, and no other gains credit |
| `Rebroadcast.PutBackKeeps` | src/transport.rs:1102-1148 | putting an announce back stays within the sends it has left |
| `Rebroadcast.ReleaseKeeps` | src/tables.rs:602-621 | a release is paid for from the credit of the entry it comes from |
| `AnnounceCap.AirtimeCapped` | src/announce_cap.rs:16-48 | releases each let through no earlier than the one before had paid for stay within the cap in all |
| `AnnounceCap.StretchCapped` | src/announce_cap.rs:80-93 | the same between any two releases |
| `AnnounceCap.ReleaseInStep` | src/announce_cap.rs:80-93 | charging an open gate keeps the releases in step, short of the end of time |
| `AnnounceCap.SpacingIsTight` | src/announce_cap.rs:26-48 | the spacing after a release is no longer than the cap asks for |
| `AnnounceCap.WorkIsAirtime` | src/announce_cap.rs:16-48 | work is airtime: a modem's own milliseconds, else eight bits a byte at the bit rate |
| `NodeSteps.PacedByRole` | src/transport/router.rs:462-513 | a LoRa interface is paced by its modem, every other by its bit rate |
| `Interfaces.Register` | src/transport/router.rs:117-136 | a registration succeeds exactly for an unknown interface with a free slot and a generation left, gets a generation above all before, and leaves every other interface as it was |
| `Interfaces.Retire` | src/transport/router.rs:182-193 | a retired interface has no generation, its gate is open, and every other interface is as it was |
| `Interfaces.EgressExactly` | src/transport/router.rs:553-577 | announces leave only on interfaces that can send, back only where repeated, never to an access point and never between four pairs of modes, but for local clients |
| `Interfaces.TargetsExactly` | src/transport/router.rs:445-460 | a due announce is owed to a slot if and only if it came in on a registered interface and those rules let it leave on the one registered there |
| `Interfaces.FactsByConfig` | src/model.rs:187-239 | a router knows of an interface exactly what it was registered with: role, mode, rate, budget and whether it can send |
| `Interfaces.ValidIsUsable` | src/config.rs:335-349 | a valid interface is of use: a header fits, frames go in or out, and what it may pass on it can send when up |
| `NodeRegistry.AcceptedRegistry` | src/config.rs:449-470 | a registry that a reset accepts holds only usable interfaces, each under an id of its own |
| `Interfaces.ObservingKeeps` | src/model.rs:88-103 | what a host has said of an interface is not changed by what comes in |
| `Discovery.Begin` | src/discovery.rs:97-134 | a live search is joined, a new one gets a fresh identity, and it is refused exactly for want of a slot, an identity or a deadline ahead |
| `Discovery.SixSecondsAHop` | src/discovery.rs:20-24 | a link request has six seconds for each hop of its route beside the round trip of the first |
| `Discovery.Take` | src/discovery.rs:146-154 | closing a discovery answers it exactly if it is live |
| `Discovery.RetireRequester` | src/discovery.rs:86-96 | a retired slot waits for nothing, and searches nobody waits for are gone |
| `Tables.RestoreReverse` | src/tables.rs:806-811 | an entry taken out is put back under its own incarnation |
| `Tables.RenewLink` | src/tables.rs:966-989 | validation and refresh change the deadline of one live link and nothing else |
| `Wire.ParseBuild` | src/wire.rs:202-258 | a well-formed header and payload within the MTU parse back to themselves |
| `Wire.BuildParse` | src/wire.rs:202-258 | rebuilding a parsed packet gives its bytes, with the access-code bit cleared |
| `Wire.RewriteKeepsCore` | src/transport.rs:2146-2196 | a rewritten packet parses, and differs from the received one in nothing a hash can see |
| `Wire.ForwardingPreservesIdentity` | src/wire.rs:307-383 | for every valid packet the next-hop rewrite keeps the packet hash, and for link requests the link id, even after the signalling trailer is cut |
| `Wire.RelayAndEndpointAgree` | src/link.rs:233-245 | for Single link requests in context None the link id a relay computes is the one the endpoint computes |
| `NodeEffects.ForwardingMatchesWire` | src/transport.rs:2146-2196 | forwarding a parsed packet, as the node model does, is what the byte-level rewrite does |
| `Signalling.SignalRoundTrip` | src/link.rs:207-224 | mode and MTU survive the three-byte signalling form |
| `Signalling.TrailerRoundTrip` | src/link.rs:207-224 | and three bytes survive being read as mode and MTU, so a relay may re-emit them |
| `Signalling.ParsesExactly` | src/link.rs:181-187 | a request or proof is well-formed if and only if it is its keys alone, or has a trailer whose size is zero or at least the default; zero and none stand for the default |
| `Transfer.TransferIsCorrect` | src/resource.rs:1101-1217 | for every payload the sender can build a transfer for and every sequence of honest parts, lost, repeated or out of order, under any window: a receiver that was set up by the bytes of the advertisement and completes has the sender's ciphertext, assembles the payload under the same key, and returns a proof the sender accepts |
| `Transfer.AdvertisingParses` | src/resource.rs:834-855 | every transfer that is built fits an advertisement, and its bytes are read back as what was advertised |
| `Transfer.AdvertisedIsAccepted` | src/resource.rs:929-985 | what a sender advertises its receiver accepts |
| `Transfer.AcceptedExactly` | src/resource.rs:929-985 | an advertisement is accepted if and only if it is one unsplit segment under exactly the expected flags, answers exactly the request expected, and is sized as some payload within the limit |
| `Transfer.ReceiveHonest` | src/resource.rs:1101-1126 | an honest part is stored where it belongs if its slot is open in the window, and ignored otherwise |
| `Transfer.CompleteIsWhole` | src/resource.rs:1129-1131 | a receiver that has every part has the sender's ciphertext, byte for byte |
| `Transfer.Delivered` | src/resource.rs:1182-1241 | assembly recovers the payload, and the proof is the one the sender expects |
| `Transfer.AssembledExactly` | src/resource.rs:1175-1217 | for every receiver, honest or not: assembly hands out a payload if and only if the receiver is complete, its token is authentic under the key and the payload has the advertised hash; then length and proof are those of the payload |
| `Transfer.FailureIsFinal` | src/resource.rs:1175-1217 | a failed assembly hands out and proves nothing, and neither does any later attempt under any key; once complete, no part is taken any more |
| `Transfer.NothingExposed` | src/crypto.rs:262-308 | a token that does not open is left as it was, or blanked |
| `Transfer.OneProof` | src/resource.rs:879-883 | the sender accepts one proof and no other |
| `Transfer.ServesMissing` | src/resource.rs:861-874 | a request for the window is served with exactly its missing parts, once each and in order |
| `Transfer.RequestsAreRead` | src/resource.rs:561-588 | part requests of both forms are read, with and without the last hash the asker knows |
| `Transfer.ServedExactly` | src/resource.rs:861-874 | a part is served if and only if the request is for this resource and names its hash |
| `Transfer.RoundAdvances` | src/resource.rs:1101-1173 | a lossless round completes the window or the transfer |
| `Transfer.FinishesInTime` | src/resource.rs:1101-1173 | a transfer without losses is complete after half as many rounds as it has parts, rounded up |
| `Window.AlwaysBounded` | src/resource.rs:633-676 | under every sequence of growing and shrinking the window stays between 2 and its ceiling, and that at most 75 |
| `Window.TimeoutsNarrow` | src/resource.rs:663-674 | any number of timeouts in a row bring the window down by one each to its floor, and the ceiling after it to within three |
| `Window.RoundsWiden` | src/resource.rs:633-641 | rounds of unknown rate widen it by one each up to the ceiling |
| `Window.FourFastRounds` | src/resource.rs:642-650 | whatever came before, four fast rounds in a row raise the ceiling to 75 |
| `Window.CeilingNeedsFastRounds` | src/resource.rs:642-650 | over every run, the ceiling rises above ten only by four fast rounds without a slower one between |
| `Window.TwoVerySlowRounds` | src/resource.rs:651-659 | whatever came before, two very slow rounds in a row lower ceiling and window to 4 |
| `Window.FloorFollowsPeak` | src/resource.rs:633-641 | over every run the floor is three below the widest the window has been, and at least two |
| `Window.FloorKeptExactly` | src/resource.rs:633-676 | over every sequence of changes, the window stays on or above its floor throughout if and only if no change is a very slow round, second or later in a row, that meets a floor over 4 |
| `Window.FloorStep` | src/resource.rs:633-676 | one change from a bounded window on its floor leaves it there if and only if it is not such a round |
| `Window.FloorCanExceedWindow` | src/resource.rs:633-676 | an input: after fast growth, slow rounds push the window under its floor |
| `Resources.InboundResource.AcceptInto` | src/resource.rs:1008-1028 | an advertisement that is refused leaves the receiver as it was |
| `Resources.InboundResource.ReceivePart` | src/resource.rs:1101-1126 | the buffer in place receives a part as the specification does |
| `Resources.InboundResource.DoAssemble` | src/resource.rs:1182-1217 | assembly in place decrypts, checks and keeps what the specification says, and each failure its own way |
| `Resources.InboundResource.BuildRequest` | src/resource.rs:1136-1173 | the request written asks for the missing parts of the window |
| `Resources.InboundResource.BuildProof` | src/resource.rs:1231-1241 | a proof is written exactly for assembled data into a buffer that can hold it |
| `Resources.OutboundResource.BuildInto` | src/resource.rs:745-793 | building in place yields the specified transfer; an oversized payload changes nothing, and a collision leaves no parts |
| `Resources.OutboundResource.Collides` | src/resource.rs:686-693 | the scan finds a collision exactly when two map hashes are equal |
| `Resources.OutboundResource.RequestedParts` | src/resource.rs:861-874 | the parts served are those asked for, each once and in order |
| `Advertisement.ParsePack` | src/resource.rs:371-421 | parsing undoes packing if and only if the hashmap consists of whole four-byte entries |
| `Advertisement.AnyOrderParses` | src/resource.rs:449-541 | every permutation of the eleven fields parses to the same advertisement |
| `Advertisement.PrefixIsRejected` | src/resource.rs:449-541 | every strict prefix of a packed advertisement is rejected |
| `Advertisement.ParsedIsWhole` | src/resource.rs:449-541 | a successful parse has seen each of the eleven keys exactly once, and a hashmap of whole entries |
| `Advertisement.PackedWithinBound` | src/resource.rs:371-404 | a packed advertisement fits the 192-byte bound, with a byte to spare |
| `Advertisement.PackInto` | src/resource.rs:371-404 | packing into a buffer writes the whole form if it fits, and reports if it does not |
| `Advertisement.ParseMap` | src/resource.rs:449-541 | the loop over eleven entries computes the specified parse |
| `Advertisement.FlagsBack` | src/resource.rs:169-188 | the six flags survive their byte |
| `MessagePack.UintBack` | src/resource.rs:246-329 | an unsigned integer is read back from its shortest form, whatever follows |
| `MessagePack.BinBack` | src/resource.rs:260-344 | a binary of up to 255 bytes is read back, whatever follows |
| `Token.OpenSeal` | src/crypto.rs:226-308 | what was sealed under a key opens under it, given only the round-trip facts of the primitives |
| `Token.OpenExactly` | src/crypto.rs:262-308 | a token opens to a payload if and only if it is vector, ciphertext and the tag of both under the key, and the ciphertext deciphers to the padded payload |
| `Token.SealLength` | src/crypto.rs:226-259 | the length of a token is fixed by the length of its payload |
| `Token.UnpadPad` | src/crypto.rs:71-100 | PKCS7 padding is removed again for every length |
| `Token.PadUnpad` | src/crypto.rs:85-100 | whatever is unpadded had been padded: nothing else is accepted |
| `Token.SaneExists` | src/crypto.rs:226-308 | the facts asked of the primitives can be met |
| `Ratchet.UsableKeysStay` | src/ratchet.rs:254-344 | over every run of preparations, commits of any preparation ever made, and restarts, under any clocks: a key that left the ring was the last of a full ring, and a rotation made for its keys had found it past its expiry, or it went in a restart that found storage not current |
| `Ratchet.CurrentExactly` | src/ratchet.rs:254-441 | in every state of every such run storage is current, that is, holds the live keys or a candidate prepared for them, if and only if it holds the newest live key or there is none |
| `Ratchet.RestartLosesExactly` | src/ratchet.rs:391-441 | in every state of every such run a restart loses a usable key if and only if storage is not current |
| `Ratchet.StaleStoreLoses` | src/ratchet.rs:319-325 | an input: with an earlier rotation committed while a later one is stored, a restart loses the live key |
| `Ratchet.RestartKeepsWhatIsStored` | src/ratchet.rs:391-441 | a restart keeps a key if and only if it is stored |
| `Ratchet.PersistedCommits` | src/ratchet.rs:319-344 | what was just prepared and stored is current, and commits unchanged |
| `Ratchet.PreparedCommits` | src/ratchet.rs:254-344 | an unmodified preparation commits, with its keys newest first |
| `Ratchet.LeavesOnlyExpired` | src/ratchet.rs:198-233 | preparation drops a key only from the end of a full ring and past its expiry |
| `Ratchet.PreparedIsSettled` | src/ratchet.rs:198-233 | a second preparation at the same clock asks for no further write |
| `Ratchet.RotatesOnTime` | src/ratchet.rs:97-233 | by the time of day: a new key exactly if there is none or the newest is twelve hours old, and the ring has room or its oldest is thirty days old; protected and unchanged exactly otherwise |
| `Ratchet.RotatesByUptime` | src/ratchet.rs:97-233 | and by uptime the same, as long as the host has not been started again |
| `Ratchet.UndatedWaits` | src/ratchet.rs:130-233 | a newest key whose age means nothing by the clock is not replaced but dated anew |
| `Ratchet.NextRotationWaits` | src/ratchet.rs:85-117 | after a rotation the next is twelve hours off, by the time of day if it was known and by uptime if not |
| `Ratchet.StaleRotationIsRefused` | src/ratchet.rs:327-344 | a rotation prepared before another was committed is refused, as long as the other key was new |
| `Ratchet.SerializedIsStored` | src/ratchet.rs:371-441 | a serialized ring is read back exactly for a commit, and without uptimes after a restart |
| `Ratchet.AcceptableExactly` | src/ratchet.rs:453-480 | a blob is acceptable to a commit if and only if some ring is written as it |
| `Ratchet.CommitExactly` | src/ratchet.rs:319-344 | a commit takes a blob if and only if some ring is written as it that has the live keys, of which there are some, or one more in front of them |
| `Ratchet.RestartForgetsUptimes` | src/ratchet.rs:391-441 | a restart keeps keys and times of day, and forgets uptimes |
| `Ratchet.LegacyLoads` | src/ratchet.rs:402-441 | a blob of the version before is loaded with all keys in order and the time of the newest, and is never committed |
| `Ratchet.RatchetRing.PrepareInto` | src/ratchet.rs:243-310 | the blob written is the specified candidate, and the live ring stays |
| `Ratchet.RatchetRing.CommitBlob` | src/ratchet.rs:319-344 | a blob is committed exactly when it is well-formed and compatible; a refused one changes nothing |
| `Ratchet.RatchetRing.LoadBlob` | src/ratchet.rs:391-441 | a stored blob, current or legacy, replaces the ring exactly when it is well-formed |
| `KnownDestinations.RefinesLru` | src/known_destinations.rs:74-131 | after any operations on an empty table, below recency saturation, the table is an LRU map: unique, key-bound, and evicting exactly the least recently learned or recalled entry |
| `KnownDestinations.LearnRefines` | src/known_destinations.rs:90-131 | learning is the LRU operation |
| `KnownDestinations.RecallRefines` | src/known_destinations.rs:74-84 | recalling is the LRU operation |
| `KnownDestinations.RecallsWhatIsRetained` | src/known_destinations.rs:74-84 | after any operations on an empty table, a recall answers with a key if and only if the LRU list has it for the destination, and then the key derives the destination |
| `KnownDestinations.RecallAnswers` | src/known_destinations.rs:74-84 | the same for any table that refines an LRU list, and none exactly if the list has no key for the destination |
| `KnownDestinations.LearnAnswers` | src/known_destinations.rs:90-130 | each answer of learning if and only if: what the list has for the destination, and whether the key derives it |
| `KnownDestinations.LearnedIsRecalled` | src/known_destinations.rs:74-130 | a key that was learned is what is recalled for as long as its destination has not been evicted |
| `KnownDestinations.RetainedKeyStays` | src/known_destinations.rs:90-131 | a retained key is never overwritten |
| `KnownDestinations.ImportIsSound` | src/known_destinations.rs:158-192 | what an import lets in is unique, key-bound and within capacity |
| `KnownDestinations.ExportImport` | src/known_destinations.rs:133-192 | export then import restores the table if and only if it has fewer than 65536 entries |
| `KnownDestinations.Destinations.DoLearn` | src/known_destinations.rs:90-131 | learning in place computes the specified table and result |
| `KnownDestinations.Destinations.DoRecall` | src/known_destinations.rs:74-84 | recalling in place refreshes exactly the entry found |
| `KnownDestinations.Destinations.ExportInto` | src/known_destinations.rs:133-152 | the blob fills the front of the buffer if it fits, and otherwise the buffer is untouched |
| `KnownDestinations.Destinations.DoImport` | src/known_destinations.rs:158-192 | a rejected import changes nothing |
| `Lora.EmittedWasSent` | src/lora.rs:98-146 | if split packets under one sequence nibble never have frames within one timeout of each other, every packet emitted is one that was sent, under any loss |
| `Lora.BothFramesArrive` | src/lora.rs:98-146 | a split packet whose adjacent frames both arrive in time is emitted whole |
| `Lora.SingleFrameArrives` | src/lora.rs:98-137 | an unsplit packet is emitted whenever its frame arrives |
| `Lora.OnlySentExactly` | src/lora.rs:98-146 | for any frames in order: whichever of them are lost, every packet emitted is the one its frame belongs to, if and only if no two frames clash, that is, are of different split packets under one nibble, within one timeout, with payloads that do not join to the second packet |
| `Lora.ClashEmits` | src/lora.rs:98-146 | two clashing frames by themselves emit exactly the two payloads joined |
| `Lora.TooCloseMixes` | src/lora.rs:98-146 | an input: two split packets that differ in both halves, too close under one nibble, are emitted as a packet that is neither |
| `Lora.Framer.IngestFrame` | src/lora.rs:98-137 | the pending slot in place takes a frame as the specification does |
| `Lora.Framer.Expire` | src/lora.rs:139-146 | a pending half is dropped exactly after its timeout |

## Left out

- `poll_tx`, `outbound_peek_len` and `outbound_oldest_age_ms`: the shared-driver form of what `PollInterface` and the
  retained operations do.
- Access-code (IFAC) masking and key derivation: wrapping and unwrapping are fallible functions that the node does not
  look into.
- Known-destination learning inside the node: `KnownDestinations` models the table by itself, and the node takes the key
  it would look up as an input of the step.
- Announce admission rates and their bucket: whether an announce is admitted is an input of the step.
- Watched destinations, and capture of endpoint packets into a caller's buffer: the action is modelled, the copy is not;
  a plain packet for the configured sink is taken to have a buffer to go to.
- Statistics other than the two queue counters.
- Path-request tags over whole runs: the table decides which requests are new, as the contracts of `HandlePathRequest`
  and `RequestPath` say, but it is not part of the state the theorems of `Runs.dfy` speak of.
- `validate_config` checks other than the transmit-queue depth: table sizes are fixed when a node is made.
- The token's byte form (`to_token`, `from_token`).
- Blocked rebroadcasts: entries marked so are handled, but no step of the source makes one; the branch for an empty
  request tag is likewise unreachable.
- Link sessions, identification, peer ratchet tables, the advertisement watchdog, `matches_part`, the airtime limiter
  and the airtime formula of a LoRa modem (a function of frame size here), tunnels, discovery beacons and announce state.
- Cryptography: hash collisions are excluded only where the source itself checks for them (map hashes); signatures are
  whatever the verification function accepts.
- Node.LiteNode.ReleaseSlot: states when nothing is released and how releases are counted; which announce is first is
  stated by `Announces.ReleasePending` and, over a whole drain, by `Rebroadcast.DrainsInOrder`.
