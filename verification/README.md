# KnotFree, modelled and proved

KnotFree is a publish/subscribe cluster of two tiers. Clients attach to *aides*. Each aide
pushes what its clients do with a topic up to the one *guru* that a consistent-hash (maglev)
table names for that topic, and the guru sends publishes back down to every aide that is
subscribed. This project models the parts of it whose claims are about more than one function
and proves them in Dafny:

- **Routing** (`Topics`, `Bucket`, `Workers`, `Sharding`, `Router`, `Cluster`, `Coverage`,
  `Settling`, `Stranded`, `Delivery`, `Progress`, `Subacks`, `Echo`, `Survival`, `Hashes`,
  `Contacts`). What each kind of
  message does to one topic is a function (`Topics.dfy`). The bucket that a worker owns is a class
  whose methods change its map in place and are proved against those functions (`Bucket.dfy`);
  its worker's loop is proved to compute what the sharding theorem is about (`Workers.dfy`). The
  cluster is a state machine (`Cluster.dfy`) in which a step is one message handled by one bucket
  worker, one callback on one bucket, or one move of a guru-list change; a run is any interleaving
  of steps. An inductive invariant over those runs (`Coverage.dfy`) gives coverage and convergence,
  and every list change can be completed (`Settling.dfy`). From them follows how many copies of a
  publish each subscriber gets (`Delivery.dfy`), in every order of deliveries, of which there
  always is one that ends (`Progress.dfy`), and that a client can get its suback (`Subacks.dfy`).
- **Text** (`BadJson`, `Segments`, `Chopper`, `Printing`, `Printer`, `Reprint`, `TextForm`,
  `Strict`). The chopper and
  the printer as functions, the loops that run them as methods proved equal to those functions,
  the round trips between text, trees and packets in text form, and a strict reader, independent
  of both, that accepts what the printer writes and that chop agrees with (`Strict.dfy`).
- **Wire format** (`Varint`, `Wire`, `WireStream`, `Packets`). Variable-length integers, packets
  as byte strings, readers and writers that move a stream, the seven packet kinds.
- **Arithmetic and the rest** (`Rates`, `Billing`, `Autoscaler`, `Mqtt`, `Keys`, `Lex`). The ring
  of rate buckets against the full history of reports, the autoscaler's decisions, MQTT framing,
  and the list of public keys with its binary search.

Run `dafny verify dfyconfig.toml` to check everything.

## What turned out not to hold

The code is modelled as it is; where a promise fails, a lemma shows an input for which it fails
and another says exactly when it holds.

- **Exactly-once after a guru-list change.** `name2channel` is only read and deleted from
  (iot/upper-channels.go:109, :138), never filled, so an accepted list change opens a second
  channel to every guru that stays while the first stays open. Over TCP an aide then subscribes
  again to all its topics through the new channel (iot/guru-dialer.go:266-279); otherwise the next
  client that subscribes to a topic that did not move does. Either way its guru counts two
  contacts for one aide: the aide's subscribers get two copies and the publisher hears itself.
  `Echo.EchoAlone` and `Echo.EchoAndDuplicate` are such states, reached from an empty cluster.
  `Delivery.ExactlyOnceCondition` says exactly when delivery is exactly-once, on the copies
  delivered and for every reachable state in which everybody follows the newest list.
- **Unsubscribing after a guru-list change.** Every Unsubscribe leaves through a channel of the
  newest list, so it never reaches the contact that an older channel has at the guru. An aide that
  has dropped a topic can therefore stay a contact for it: `Echo.DroppedButCounted` reaches such a
  state. `Stranded.DroppingWorks` says exactly when dropping a topic works: the owner has no
  contact left that leads to the aide if and only if it counted no old channel of the aide before,
  for between two list changes old contacts neither come nor go (`Stranded.OldContactsStay`; as
  long as the topic does not time out at the guru, which every publish puts off).
- **Two-byte MQTT packets.** `IsWholeMqttPacket` wants one byte beyond the header, so a PINGREQ
  or DISCONNECT is not seen until the next packet starts (`Mqtt.PingAloneIsNotSeen`,
  `Mqtt.WholeIffHeld`).
- **Several MQTT packets in one websocket message.** At most one packet comes out per message, so
  the second of two stays in the buffer (`Mqtt.TwoInOne`). What comes out is always the first of
  the whole packets received, however they are chunked (`Mqtt.EmittedInOrder`), and all of them
  have come out if and only if from no point on more packets were completed than messages still
  came (`Mqtt.AllEmitted`).
- **Varints from 2^28 on.** The writer makes five groups and the reader takes all five bytes but
  drops the last group (`Varint.ReadBack`). No packet below 8,000,000 bytes has such a length.
- **Text form of packets.** A bare argument with a `]` in it, one that starts with a single quote
  mark, and an empty last argument do not come back (`TextForm.TextRoundTrip` is exact).
- **Reprinting.** A text that ends in a lone backslash inside an open double quote changes when it
  is printed and read again (`Reprint.LoneSlashChanges`; `Reprint.ReprintIsStable` is exact).
- **Addresses.** A UTF-8 address that looks like a coded one, or starts with a space, is read back
  as something else (`Packets.AddressRoundTrip` is exact).
- **Unescaping between single quotes** leaves the slash of an escaped double quote mark, so it undoes
  escaping only for texts without one (`Printing.UnescapeEscape` is exact).
- **Owned topics on an aide.** An aide that held a topic with an `Owner` would unsubscribe it and
  keep it (`Topics.OwnedTopicMisreports`). Only gurus run the command that sets an owner.
- **Comments.** A comment at iot/publish.go:118 says 20 minutes where the code adds 25, and one at
  iot/billing.go:100 speaks of 60 free minutes where the window starts `deltat` back. The model
  follows the code.

## Modelling assumptions

- A topic is known by its 24-byte hash; equal hashes are the same topic.
- The unsubscribes that a heartbeat pushes from its own goroutine (iot/subscribe.go:447-474) are
  in the channel before that bucket takes its next message. Otherwise a re-subscribe could
  overtake them.
- A guru-list change waits for all bucket callbacks before the next one starts (the time-out at
  iot/upper-channels.go:174 does not strike), every guru gets a list before any aide does, every
  aide gets every list, and a list changes by one name at its end (iot/executive.go:522-583). A
  channel to a guru that has left the list carries nothing any more.
- In the coverage results no topic of a guru times out, and contacts at a guru are open.
- A list change replaces an aide's channels and its table in one step. In the source the channels
  come first (iot/upper-channels.go:94) and the table later (:148), and a bucket that pushes in
  between may find no channel, lose what it pushes or panic. Coverage and convergence rest on this.
- Channels from aides to gurus, and those in front of buckets, are unbounded FIFO queues. Several
  workers draw on one queue, so messages of different shards may overtake each other; messages of
  one shard do not. On the way down a contact writes each packet in a goroutine of its own
  (iot/contacts.go:409-412), so there any packet may overtake any other.
- The clock and the set of closed contacts are inputs of each step, and the maglev table is any
  table whose entries name gurus on the list.

## Model

| member | source | states |
|---|---|---|
| Topics.AidesReport | iot/subscribe.go:33-258 | on an aide, whatever one message does to an unowned topic, what it pushes up brings a guru that agreed before to agree again: subscribed iff the aide holds the topic; for all six handlers |
| Topics.OwnedTopicMisreports | iot/subscribe.go:504-513 | for a topic with an owner that fails: it stays on the aide and the guru is told it is gone |
| Topics.GurusListen | iot/subscribe.go:495-532 | on a guru a packet from one contact moves only that contact's place in the topic: in on subscribe, out on unsubscribe, unmoved by publish, and no other contact's |
| Topics.AfterTake | iot/lookup-table.go:370-414 | handling the first packet of a shard out of order leaves the membership that the rest of the queue leads to as it was, for every topic |
| Topics.AfterAppend | iot/lookup-table.go:113-149 | the membership a queue leads to composes over concatenation, so pushing more on a queue acts on its outcome |
| Buckets.SubscribeBucket.ProcessSubscribe | iot/subscribe.go:33-258 | the whole new state: topic made or found, contact added once and kept if there, life 26 minutes, billing mark, one suback or none, one packet up on an aide |
| Buckets.SubscribeBucket.ProcessSubscribeDown | iot/subscribe.go:260-290 | every watcher of the topic that is not closed gets one copy of the suback more, every other count of writes stays, and so do the map and what was pushed |
| Buckets.SubscribeBucket.ProcessUnsubscribe | iot/subscribe.go:495-532 | the contact goes; the topic goes with its last contact unless billing or owned; an aide tells its guru just then, and for an owned topic always |
| Buckets.SubscribeBucket.ProcessPublish | iot/publish.go:26-194 | a copy to each open contact but the publisher (and to it on request), closed ones dropped, life 25 minutes or 60 for billing, pushed up by an aide in every branch |
| Buckets.SubscribeBucket.PublishToContacts | iot/publish.go:116-179 | the loop writes exactly one copy to each contact of the audience and collects exactly the closed contacts that did not ask for their own messages |
| Buckets.SubscribeBucket.ProcessPublishDown | iot/publish.go:196-261 | an aide without the topic unsubscribes; else every open contact gets one copy and the topic 25 more minutes |
| Buckets.SubscribeBucket.HeartBeat | iot/subscribe.go:296-474 | afterwards the map holds exactly the surviving topics, each with its surviving contacts; an aide pushes exactly one unsubscribe for each topic that went, a guru none |
| Survival.SweepIsExact | iot/subscribe.go:309-440 | a topic survives a sweep iff it has an open contact and its time is not up, and then with precisely its open contacts and nothing else changed |
| Survival.SweepBucket | iot/subscribe.go:296-440 | the same for a whole bucket swept in place |
| Survival.ExpiryFollowsTouch | iot/publish.go:113-118 | over any history of a worker, a topic it holds expires no sooner than 1500 s after it was last subscribed or published to |
| Survival.RecentTopicsSurvive | iot/subscribe.go:315-355 | over any history, a topic last touched at t is still there, with its open contacts, after a heartbeat at or before t + 1500 |
| Survival.StaleTopicsGo | iot/publish.go:113-118 | the bound is tight: at t + 1501 a published topic goes, open contacts or not |
| Hashes.InitFromBytes | iot/hashes.go:103-110 | the three words are the big-endian values of the three 8-byte parts |
| Hashes.GetBytes | iot/hashes.go:113-120 | fills the first 24 bytes with the words, big-endian, and touches no other; a shorter buffer is left alone |
| Hashes.HashBytesUnique | iot/hashes.go:103-120 | bytes and hash determine each other: two 24-byte strings are equal iff their hashes are |
| Hashes.ShardInRange | iot/hashes.go:201-210 | the shard index is the leading n bits of the hash and always names one of the 2^n buckets |
| Hashes.FirstByteShards | iot/lookup-table.go:160-206 | with 4 buckets, or 64, a topic's bucket is the top two, or six, bits of the first byte of its hash |
| Contacts.ContactStructConfig.AddContactStruct | iot/contacts.go:183-201 | a contact without a key gets base plus sequence number, wrapping at 64 bits; one that has a key keeps it and uses up no number |
| Contacts.KeysDistinct | iot/contacts.go:194-201 | two keys handed out by one node are equal iff the registrations are a multiple of 2^64 apart |
| Workers.ProcessMessage | iot/lookup-table.go:370-414 | each of the five kinds of message but a lookup leaves in the map, pushes and writes what that kind of message must, said of each kind outright: a subscribe joins, an unsubscribe parts, a publish goes to each open watcher but the publisher and up, a suback and a publish from above go to each open watcher and nothing up unless the topic is not there |
| Workers.TurnIsStep | iot/lookup-table.go:370-414 | on an aide a worker's turn with a client's message is exactly the cluster's step for it |
| Workers.DeliveryIsTurn | iot/lookup-table.go:370-414 | and a packet that a guru takes from an aide, or an aide from a guru, has the effect of the worker's turn of its kind |
| Workers.ProcessMessages | iot/lookup-table.go:370-414 | the worker's loop over its channel leaves in its map what handling the messages in order gives, and has pushed up, in order for each topic, and written, to each contact as often, just what those messages' effects say |
| Workers.RunBucket | iot/lookup-table.go:370-414 | a worker that emptied its channel holds exactly the topics of its bucket that a single worker handling every message alone would hold, and has pushed up and written about each exactly what that one would have, for every history of arrivals |
| Sharding.ShardingRefinesOneTable | iot/lookup-table.go:199-302 | any interleaving of the bucket workers that empties the queues leaves each topic in the one bucket its hash names, with the contacts and the whole sequence of packets, deliveries and pushes that one worker handling all messages in arrival order would give |
| Sharding.SameAsAlone | iot/lookup-table.go:370-414 | at every point a bucket's worker and the single worker agree on the topics of the bucket and on all they put out for them, and the bucket holds no others |
| Router.UpstreamRouter.GetUpperChannel | iot/upper-channels.go:43-52 | the index is on the list whenever list and table go together; otherwise, as in the midst of a list change, it may not be, and the source panics |
| Clusters.LookupSpreads | iot/upper-channels.go:43-52 | the first word of a hash alone chooses the table's entry, in turn around the table, so every entry is chosen |
| Router.UpstreamRouter.SetUpstreamNames | iot/upper-channels.go:58-146 | the same names change nothing; any other list gets a fresh channel for every name not known by name, in list order; old channels are stopped iff their name is gone; the table before is kept; and the map by name, empty at first, stays empty |
| Router.GuruRouter.SetGuruUpstreamNames | iot/upper-channels.go:183-221 | the new table is kept beside the one before, and the guru finds its last place on the list, -1 iff it is not on it |
| Router.ReSubscribeRemappedTopics | iot/lookup-table.go:828-851 | exactly one plain subscribe for each topic whose index changed, all of them if there was no list before, and nothing else changes |
| Router.ReSubscribeMyTopics | iot/lookup-table.go:853-882 | over a fresh connection exactly one subscribe without suback for each topic of the guru at its far end, under the newest list, and none without a list |
| Router.GuruDeleteRemappedAndGoneTopics | iot/lookup-table.go:807-826 | exactly the topics that the table gives to another guru go, deleting while looping, and PushUp is called with one unsubscribe for each |
| Router.PruneIsDelete | iot/lookup-table.go:807-826 | per bucket that is the prune step of the cluster model, which leaves the other buckets alone |
| Coverage.AfterRouted | iot/lookup-table.go:113-149 | what an aide pushes up acts on the queue to a topic's owner guru just as if pushed there whole, and on no other queue for that topic |
| Coverage.StepOk | iot/lookup-table.go:370-414 | each of the fourteen kinds of step, list changes included, keeps the invariant: links lead where the list says, guru contacts are live channels, nobody is more than one list behind, every held topic is covered or waiting, and over the channels of its newest list no aide is subscribed to what it does not hold (over older ones it may be) |
| Coverage.InvariantOverRuns | iot/lookup-table.go:370-414 | so does every run |
| Coverage.ReachableInv | iot/lookup-table.go:154-196 | every state reached from an empty cluster satisfies the invariant |
| Coverage.GuruTakesMember | iot/subscribe.go:495-532 | a guru that handles a packet moves nobody's eventual membership in anything: it only turns a packet in flight into a contact, or the other way round |
| Coverage.AideHeartbeatOk | iot/subscribe.go:296-474 | topics dropped by a heartbeat are unsubscribed and no others are, so coverage stays exact |
| Coverage.AideSwitchesOk | iot/upper-channels.go:58-178 | switching an aide to a new list with fresh channels keeps the invariant: what did not move is still covered over an old channel, what moved is waiting for its bucket |
| Coverage.AideResubscribesOk | iot/lookup-table.go:828-851 | once a bucket has re-subscribed what moved, its topics no longer wait and are covered over the new channels |
| Coverage.AideDialsOk | iot/guru-dialer.go:266-279 | subscribing again over a fresh connection keeps the invariant, at any time and for any guru |
| Coverage.GuruRewrites | iot/lookup-table.go:807-826 | a guru may drop contacts of topics it no longer owns without anybody losing coverage |
| Coverage.AfterMeans | iot/lookup-table.go:113-149 | the membership a queue leads to, in terms of packets: a subscribe with no unsubscribe behind it, or a member now and no unsubscribe on its way |
| Coverage.CoverageOverRuns | iot/subscribe.go:33-258 | in every reachable state where an aide and the gurus follow the same list, each topic the aide holds has, at its owner guru, a contact leading to the aide with no unsubscribe on its way, or a subscribe in the queue with no unsubscribe behind |
| Coverage.Convergence | iot/executive.go:522-583 | after any number of list changes that append a name or drop the last, in any order of re-subscribing and pruning, once an aide and the gurus are done and nothing of the aide's is on its way up each topic it holds is held by its new owner with a contact leading to it, also topics older than any list |
| Settling.StepLosesNone | iot/upper-channels.go:132-140 | every step keeps it so that an aide on the newest list has no channel to a guru that is gone |
| Settling.ChangeCompletes | iot/executive.go:522-583 | no list change gets stuck: from every reachable state some run of list moves and deliveries ends with everybody on the newest list and nothing on its way up, and every aide's topics unchanged |
| Settling.EveryTopicFindsItsOwner | iot/executive.go:522-583 | after that run every topic that any aide held is held by its owner under the newest list with a contact leading to that aide |
| Coverage.ExactOverRuns | iot/lookup-table.go:113-149 | while an aide is on its first list a guru has (or will have) its channel among a topic's contacts iff the aide holds the topic and the guru owns it |
| Stranded.OldContactsStay | iot/upper-channels.go:105-140 | whether an owner counts an old channel of an aide (once the channel's queue is handled) stays as it is up to the next list change, over every run and whatever the aide's clients do |
| Stranded.DroppingWorks | iot/subscribe.go:495-532 | after any run without a list change that ends with the aide not holding the topic and nothing about it in flight, the owner has a contact leading to the aide iff it counted an old channel of the aide before |
| Echo.DroppedButCounted | iot/upper-channels.go:105-140 | a drained and settled state, reached by one list change and one unsubscribe, where the aide does not hold the topic and the guru still counts its old channel |
| Delivery.CopiesDelivered | iot/publish.go:26-261 | whatever order deliveries happen in, amid any traffic on other topics and any heartbeats that leave the topic alone, each contact gets one copy per channel to its aide among the guru's contacts other than the publisher's, plus one on the publisher's aide unless it is the publisher; also where the guru counts aides that do not hold the topic, whose answers are on their way back |
| Delivery.ExactlyOnce | iot/publish.go:26-261 | in every reachable state where all aides are settled on their first list, one publish on a quiet topic ends with exactly one more copy at every other subscriber on any aide and none at the publisher |
| Progress.PublishCompletes | iot/lookup-table.go:370-414 | no publish gets stuck: whatever else is in flight, some run of deliveries ends with nothing about the topic left in any queue, answers included |
| Progress.SettledPublishCompletes | iot/lookup-table.go:370-414 | so from every reachable state where everybody follows the newest list a publish can be run to its end, and there it is exactly-once iff the condition holds |
| Subacks.SubackArrives | iot/subscribe.go:260-290 | from every reachable state in which an aide follows the newest list, a client of it that subscribes and does not decline the suback can get it: some run of deliveries takes the subscribe to the owner and the suback back to the client |
| Subacks.LoneAideAcks | iot/subscribe.go:180-258 | on an aide without gurus the suback comes at once |
| Delivery.ExactlyOnceCondition | iot/publish.go:26-261 | in every reachable state where everybody follows the newest list, for every order of deliveries of one publish on a quiet topic: each other subscriber has got one more copy and the publisher none iff the owner guru counts one channel to each aide with a subscriber, none but the publisher's own for the publisher's aide |
| Delivery.SettledReady | iot/upper-channels.go:43-52 | in such a state an aide that does not hold the topic answers a copy over a channel the guru does not count, so its answer changes nothing there |
| Delivery.SteadyContact | iot/subscribe.go:33-258 | for an aide on its first list the guru counts its channel for a quiet topic iff the aide holds the topic and the guru owns it |
| Delivery.SteadyFan | iot/publish.go:115-180 | so the guru sends a publish once to every other aide that holds the topic and not back to the publisher's |
| Delivery.GuruFlows | iot/publish.go:26-194 | a guru step turns the publish in flight up into one copy in each queue of its fan; no other step of a guru makes or loses a copy, or moves a contact of the topic |
| Delivery.CopyLands | iot/publish.go:196-261 | a copy that lands raises the count of each of the aide's contacts on the topic by one; an aide without the topic writes nothing and sends its answer over a channel the guru does not count |
| Echo.EchoAndDuplicate | iot/upper-channels.go:105-140 | a run from an empty cluster, through one list change, to a drained and settled state where the publisher gets its own message and its neighbour gets it twice |
| Echo.EchoAlone | iot/guru-dialer.go:266-279 | over TCP the same with one client: after the list change the aide subscribes again by itself, and the client hears its own message |
| Echo.EchoHappens | iot/upper-channels.go:105-140 | and there are runs of deliveries that get there |
| Echo.SteadyBefore | iot/upper-channels.go:105-140 | before the list change the same publish in the same cluster satisfies every premise of exactly-once |
| Echo.DoubledReachable | iot/upper-channels.go:105-140 | that state is reached: subscribe, second guru, new list, nothing remapped, second subscribe |
| BadJson.ChopStops | badjson/parse.go:78-262 | error-free, chop stops at its closer or at the end of the text, at the top always at the end; it fails for length iff its own text is longer than 16384 bytes |
| Segments.HexSegment | badjson/parse.go:147-165 | after a dollar sign the segment is the whole run of the listed characters, ':', 'g' and 'G' among them, and stops there |
| Segments.B64Segment | badjson/parse.go:195-217 | after an equals sign it is the run of base 64 characters of either alphabet and then of equals signs, and a lone sign at the end stands for itself |
| Segments.BareSegment | badjson/parse.go:242-260 | a bare word is everything up to the next space, comma, colon or closer; at one of those it is empty and takes nothing |
| Segments.Between | badjson/parse.go:127-142 | between two segments go any spaces, at most one comma or colon, and any spaces |
| Segments.Nothing | badjson/parse.go:54-74 | a text of only that is one empty word |
| Chopper.ChopAt | badjson/parse.go:78-262 | the loop with its one moving index ends on every text, recursing at most 17 deep, and gives exactly the segments, rest and errors of the specification |
| Chopper.ChopOne | badjson/parse.go:146-260 | one turn of the switch cuts at most one segment and moves the index past at least one character unless it stands on a space or delimiter |
| Chopper.PassQuoted | badjson/parse.go:166-194 | finds the closing quote, a backslash taking the next character with it, and notes whether a quote mark or slash was passed |
| Chopper.PassWord | badjson/parse.go:243-260 | a bare word ends at a space, a delimiter or the closer, and its flag says whether it has a quote mark or slash |
| Printing.UnescapeEscape | badjson/parse.go:369-402 | unescaping undoes escaping between double quotes for every text, and between single quotes iff the text has no double quote mark |
| Printing.PlainWords | badjson/parse.go:406-463 | every text can be kept as a bare, a single-quoted or a double-quoted word, the first and last saying just that text |
| Printing.ScanItems | badjson/parse.go:274-300 | chop reads the printed items of any list of plain words and nested lists back as that list, up to the depth limit, and leaves just what follows |
| Printing.RoundTrip | badjson/parse.go:54-300 | for every non-empty list of plain words and nested lists, Chop reads its printed form iff that has at most 16384 bytes and at most 16 brackets of depth, and gives the same shape, bracket kinds and raw texts, printing the same again |
| Strict.PrintIsStrict | badjson/parse.go:266-300 | every print is strictly well formed, with a colon after each item of even index in `{}` and a comma between all others, and a reader that takes nothing else gets from it exactly the shape, bracket kinds and texts that were printed |
| Strict.ChopReadsStrict | badjson/parse.go:54-262 | chop reads every strictly well-formed list up to 16384 bytes, iff it is at most 16 brackets deep, as the list it says; only a lone non-empty `[...]` is taken off |
| Strict.QuotedWordRead | badjson/parse.go:166-194 | a text in quotes of either kind, with anything behind it, is one word that says what the strict reader gets, and without its closing quote it runs to the end |
| Reprint.ChopIsPlain | badjson/parse.go:78-262 | whatever chop makes of any text, if only words and brackets, is plain, but for a very last word left open, which takes a text that ends in a backslash |
| Reprint.OpenIsSpoilt | badjson/parse.go:166-194 | the print of a list with such a last word is never read back as the same list |
| Reprint.OpenInText | badjson/parse.go:78-262 | whether chop leaves a word open can be told from the text alone, without making segments |
| Reprint.ReprintIsStable | badjson/parse.go:54-300 | for every text that chop reads as words and brackets, printing and reading again changes nothing iff the print is within the limits and the text does not end inside a double-quoted word on a lone backslash |
| Reprint.LoneSlashChanges | badjson/parse.go:166-194 | a quote mark and a backslash are a text that does change |
| Printer.MakeEscaped | badjson/parse.go:369-380 | the loop computes the escaping that the round trips are about |
| Printer.MakeUnescaped | badjson/parse.go:383-402 | the loop with its one flag computes the unescaping |
| Printer.Raw | badjson/parse.go:439-463 | the three kinds of word say what the round trips compare |
| Printer.GetQuoted | badjson/parse.go:406-436 | each kind of word, and a list, is printed as the round trips assume |
| Printer.GetJSONinternal | badjson/parse.go:274-300 | the loop writes the print that `Strict.PrintIsStrict` and the round trips are about |
| Printer.WriteUniversal | packets/packets.go:497-545 | the loop over the arguments writes the text form of the packet |
| TextForm.WriteArg | packets/packets.go:497-545 | an argument is written as it is iff it is printable, has no space, comma or colon and does not start like another kind of segment; otherwise in quotes, escaped |
| Strict.ArgsAreStrict | packets/packets.go:497-545 | a reader that wants a comma before each argument, and takes it in quotes or up to the next comma or bracket, gets exactly the arguments, unless a bare one has a bracket |
| TextForm.IsASCII | badjson/parse.go:530-553 | says whether every byte is printable, and whether a quoting-relevant character stands first or a space, colon or comma anywhere |
| TextForm.ReadArgs | packets/packets.go:497-545 | the printed arguments are read back as exactly themselves iff they survive: no bare one has a bracket or leading quote mark, and the last is not empty |
| TextForm.TextRoundTrip | packets/packets.go:497-545 | up to 16384 bytes, Chop of a packet's text form yields the command letter and each argument's exact bytes iff the arguments survive |
| Varint.EncodingsAreCanonical | packets/packets.go:924-939 | encodings are injective, none is a prefix of another, and none is longer than any framed byte string of the same value |
| Varint.EncodeLength | packets/packets.go:924-939 | a uint32 takes at most five bytes, five iff it is 2^28 or more |
| Varint.ShortEncodings | packets/packets.go:924-939 | up to three bytes, most significant group first, each but the last with its high bit set |
| Varint.ReadBack | packets/packets.go:942-966 | for every uint32 reading takes exactly the bytes written, and gives v below 2^28 and v / 128 from there on |
| Varint.ReadFramed | packets/packets.go:942-966 | bytes framed as one integer, also longer than they need be, read as the value of their first four groups |
| Varint.ReadLocal | packets/packets.go:942-966 | what is read does not depend on the bytes after it |
| Varint.ReadBound | packets/packets.go:942-966 | no bytes at all read as 2^28 or more |
| Wire.PacketBack | packets/packets.go:777-916 | a packet of under 128 arguments and 8,000,000 bytes is read back from the front of any stream, and nothing after it is touched |
| Wire.Layout | packets/packets.go:871-916 | command, count, all lengths in order, all arguments in order |
| Wire.NoPrefixDecodes | packets/packets.go:777-868 | no strict prefix of a written packet decodes |
| Wire.DecodeLocal | packets/packets.go:777-868 | bytes behind a packet that decodes stay unread and do not change it |
| Wire.DecodedSurvives | packets/packets.go:777-916 | whatever any bytes decode to is within the limits and survives being written and read again |
| Wire.StreamRoundTrip | packets/packets.go:777-916 | packets written back to back read as the same sequence with nothing left; cut inside a packet, as the packets before the cut |
| WireStream.Writer.WriteVarLenInt | packets/packets.go:924-939 | appends the encoding, and nothing else changes |
| WireStream.Writer.WriteArrayOfByteArray | packets/packets.go:889-916 | refuses 128 arguments or more and then writes nothing; else count, lengths, bytes |
| WireStream.Writer.WriteUniversal | packets/packets.go:871-886 | the packet's bytes, or on refusal the lone command byte |
| WireStream.Reader.ReadVarLenInt | packets/packets.go:942-966 | the loop takes from the stream just what the specification reads, and fails iff it does |
| WireStream.Reader.ReadArrayOfByteArray | packets/packets.go:810-868 | lengths first, then the total at once, then slices: the same arguments and rest as the specification, or failure |
| WireStream.Reader.ReadUniversal | packets/packets.go:777-794 | the stream afterwards is what follows the packet, and failure is exactly the specification's |
| Packets.AddressRoundTrip | packets/packets.go:92-155 | FromBytes(ToBytes(a)) is a iff a is a coded address of the right length or a text that does not start with a space and does not look coded |
| Packets.PutSorted | packets/packets.go:1013-1018 | setting an option keeps the keys in order, replaces that key and leaves the others |
| Packets.OptionsRoundTrip | packets/packets.go:394-416 | options survive packing and unpacking iff no key is empty |
| Packets.PackAt | packets/packets.go:406-416 | key and value of the i-th option are arguments 2i and 2i + 1 of those appended |
| Packets.UnpackMeans | packets/packets.go:394-403 | of any arguments: an option has the value of the last pair with its key, keys that are empty or in no pair stay as they were |
| Packets.Options.UnpackOptions | packets/packets.go:394-403 | the loop sets key and value in turn, skips empty keys and ignores an odd one at the end |
| Packets.Options.PackOptions | packets/packets.go:406-416 | appends each key and value in the order of the keys |
| Packets.TypedRoundTrip | packets/packets.go:318-491 | filling a packet of any of the seven kinds from what its Write built gives it back, address, source, payload and options, iff its addresses are canonical and no option key is empty |
| Packets.PacketOnTheWire | packets/packets.go:683-774 | the same through the bytes, from the front of any stream |
| Rates.WindowsPartition | iot/billing.go:94-130 | the buckets ever opened hold, in order, exactly the history of reports, and start exactly 600 s apart |
| Rates.KeptIsSuffix | iot/billing.go:98-130 | the four newest hold exactly the reports handled since the oldest of them opened |
| Rates.OpensWhenDue | iot/billing.go:94-130 | the first bucket opens `deltat` before the first report, and one more just when a report comes over 600 s after the newest opened |
| Rates.LooksBack | iot/billing.go:287-320 | of a client that reports at least every ten minutes nothing older than 40 minutes counts |
| Rates.AddsUp | iot/billing.go:94-130 | each of the four resources is summed on its own |
| Rates.SteadyClientIsNotOverstated | iot/billing.go:287-320 | if each report is at most r times the time since the one before, no rate ever exceeds r, at any later time and over every roll and eviction |
| Rates.RateIsTight | iot/billing.go:292-319 | each rate is at most the kept reports over the time since the oldest kept bucket opened, and less than 0.01 below |
| Billing.BillingAccumulator.AddUsage | iot/billing.go:94-130 | the four-slot ring, changed in place, goes on holding the newest windows of the history with the new report added |
| Billing.BillingAccumulator.GetStats | iot/billing.go:287-320 | walking back over the ring gives the rate of the full history's kept windows, the divisor telescoping to the time since the oldest |
| Billing.BillingAccumulator.AreUnderMax | iot/billing.go:144-169 | good iff every rate is within its limit and tolerance |
| Billing.RingRolls | iot/billing.go:113-130 | moving on to the next slot drops just the oldest window and opens one that starts when the last ended |
| Billing.SteadyClientIsUnderMax | iot/billing.go:144-169 | a client that keeps to its limit is never reported over it |
| Billing.OverUserIsCaught | iot/billing.go:144-169 | a client that goes over one of its limits, by more than the tolerance and rounding over the time that counts, is reported over it |
| Autoscaler.CalcExpansionDesired | iot/executive.go:347-445 | aides grow iff buffers or connections total 0.9 a node or more, and shrink iff both total under 0.8 for each of one node fewer; gurus likewise by buffers and subscriptions; the aide to remove has the most subscriptions |
| Autoscaler.FullNodes | iot/executive.go:347-445 | so where every node is at 90% of one resource that counts, the tier grows |
| Autoscaler.Totals | iot/executive.go:347-445 | each total depends on its own resource alone |
| Autoscaler.NoFlapping | iot/executive.go:347-445 | with the load unchanged a grow is never followed at once by a shrink nor a shrink by a grow, for aides and for gurus |
| Autoscaler.Settles | iot/executive.go:347-445 | under constant load decisions go one way only and stop, with the average below 0.9 and one node left or an average over one fewer of at least 0.8 |
| Autoscaler.RemoveAide | iot/executive.go:480-505 | swapping in the last element and cutting removes just the named aide, or the first when no aide has the name |
| Mqtt.IsWholeMqttPacket | iot/mqtt-protocol.go:587-614 | the loop computes the framing that the lemmas below are about, on every byte string |
| Mqtt.WholeIffHeld | iot/mqtt-protocol.go:587-614 | with a length field of at most four bytes (section 2.2.3 of MQTT Version 3.1.1) a buffer is whole, of length n, iff it holds the n-byte packet, and one byte more when nothing follows the header |
| Mqtt.PingAloneIsNotSeen | iot/mqtt-protocol.go:596-601 | a lone PINGREQ is not whole until the next byte comes |
| Mqtt.WholeMore | iot/mqtt-protocol.go:587-614 | appending bytes does not change an answer, and the length is within the buffer |
| Mqtt.Socket.OnMessage | iot/mqtt-protocol.go:546-567 | buffer and packets emitted are those of the message history |
| Mqtt.NothingLost | iot/mqtt-protocol.go:546-567 | over every chunking, packets emitted followed by the buffer are the bytes received, and each emitted packet has the size its header says |
| Mqtt.EmittedInOrder | iot/mqtt-protocol.go:546-567 | the packets emitted are the first of the whole packets in the bytes received, whatever the chunking |
| Mqtt.EmittedExactly | iot/mqtt-protocol.go:546-567 | how many: the least, over all points in the history, of the packets complete by then plus the messages after it |
| Mqtt.AllEmitted | iot/mqtt-protocol.go:546-567 | all whole packets received have come out iff from no point on more were completed than messages still came |
| Mqtt.TwoInOne | iot/mqtt-protocol.go:546-567 | two whole packets in one message: the second stays in the buffer |
| Lex.TruncationMonotone | tokens/tokens.go:319-322 | cutting strings to one length keeps dictionary order, on which the search by prefix rests |
| Lex.LessMeans | tokens/tokens.go:292 | the order of the list is the dictionary's: less at the first byte that differs, or a proper start |
| Keys.Search | tokens/tokens.go:319-322 | binary search splits a sorted list just where keys stop being below the prefix |
| Keys.KeyList.FindPublicKey | tokens/tokens.go:296-331 | gives the smallest key that starts with the decoded name iff the name is usable and there is one, else the empty string |
| Keys.KeyList.SavePublicKey | tokens/tokens.go:262-293 | a key is taken iff its name is usable, it has 32 bytes or more, starts with its name and is not what that name finds already; it joins the list, which stays sorted, and its name then finds a key; a refused one changes nothing |

## Left out

- Sockets, HTTP, websockets, kubectl, mail, metrics and logging: plumbing. Of the dialers only what they push on a fresh connection; a connection that breaks and is dialled again, and the contact that closes with it, are not modelled.
- MongoDB, the name commands and lookups: they mix an unseen database with asynchronous caching.
- Cryptography: SHA-256 and `EnsureAddressIsBinary`, tokens, boxes. Topics are known by their hash from the start.
- `LoadPublicKeys`: the key list starts empty, of full-length keys, and decoding a name is an input.
- Dispatch at iot/contacts.go:284-345 beyond which handler a packet reaches, tokens and contact expiry.
- Billing side effects: `serveBillingCommand`, billing times of topics, usage messages, the debug branch of `AddUsage`, the mutex.
- Aides that leave: their contacts close and their topics go by heartbeat; the cluster model only adds aides.
- Channel capacities and blocking, and the order in which one handler writes to different contacts.
- Clocks: seconds do not wrap around at 2^32, and MQTT lengths do not overflow at fields beyond eight bytes.
- Hex and base64 segments of chopped text are cut but not decoded or printed; text is ASCII; the partial list that chop returns beside an error is dropped.
- `backingUniversal` as a cache: a packet is written from its fields.
- HTTP reassembly in iot/sub-domain-server.go.
- Clusters.Next: the handlers in the cluster's step are functions; the loops that run them are in Bucket.dfy, Router.dfy and Workers.dfy, and aliasing between a node's buckets is not modelled.
- Delivery.ExactlyOnce: leaves out `pub2self` subscriptions, which travel to the guru and come back down, and billing topics; contacts are open, and neither a list change nor a heartbeat that drops the topic comes between.
- Delivery.ExactlyOnceCondition: likewise.
- Delivery.CopiesDelivered: likewise.
- Coverage.AideSwitchesOk: takes the switch of channels and table for one step, as said under the assumptions.
- Chopper.ChopAt: drops the list so far and the count that chop returns beside an error.
- Coverage.Convergence: assumes that no guru topic times out, that list changes wait for their callbacks and switch in one step, and that heartbeats push before their bucket goes on, as said under the assumptions.
- Buckets.SubscribeBucket.HeartBeat: leaves out the error messages and usage reports that it starts for billing topics.
- Workers.ProcessMessage: leaves out lookup messages, and callbacks other than the heartbeat.
- Printer.GetQuoted: leaves out hex and base64 segments, which are decoded and encoded again.
- Printer.GetJSONinternal: likewise, lists with such segments in them.
- Printer.WriteUniversal: leaves out arguments with a leading NUL, which are printed in base64, and with bytes above 127.
- TextForm.ReadArgs: likewise.
- TextForm.TextRoundTrip: likewise, and command bytes other than those of the seven packet kinds.
- Buckets.SubscribeBucket.ProcessPublish: for a billing topic only what happens to the topic and the push up.
- Rates.SteadyClientIsNotOverstated: sums and quotients are reals, so rounding of floats is not modelled.
