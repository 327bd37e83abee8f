# Verified models of the homelab's hardest logic

Dafny models of the parts of the repository where a mistake is expensive, with
proofs of what those parts promise. `dafny verify dfyconfig.toml` checks
everything.

| part | program | Dafny files |
|---|---|---|
| firewall compiler | `infrastructure/mikrotik/tools/vyos-to-locals.py` (and the flat chain of the RouterOS Terraform module) | `FirewallModel`, `FirewallBuilder`, `FirewallMeaning`, `FirewallTables`, `FirewallInput` |
| flow decoder and accountant | `flow_collector.py` | `FlowWire`, `FlowEncoding`, `FlowSflow`, `FlowAccount`, `FlowClasses`, `FlowCollector` |
| photo mirror with deletion | `sync.py`, `gphotos.py` | `MirrorStore`, `MirrorSteps`, `MirrorSafety`, `MirrorConvergence`, `MirrorRuns`, `MirrorFinished`, `MirrorSync`, `Pagination` |
| config diff and commit-confirm | `edgeos-sync.py` | `StagedDiff`, `CommitConfirm` |
| DOM patching and holiday dates | `kitchen-cards.js` | `Morph`, `MorphDom`, `Computus` |
| site lease fence | `fence.py`, `observability/collector.py` | `FenceJob`, `FenceEvidence` |
| codecs and cache | `server.py`, `observability/collector.py` | `WebSocket`, `Mqtt`, `ImageCache` |
| rule expansion | `observability/contracts.py` | `Resolution` |

`Options` and `Octets` hold the optional values and the octets the others share.

Code that changes things step by step is modelled by classes and loops: the
policy builder's maps, the collector's counters and templates, the mirror's
dictionaries and the remote account, the live document, the fence Job, the
socket buffers and the cache. Each method is proved against a function or a
relation on values, and the properties are proved about those.

## How the outside world is modelled

- **Remote calls** (Immich, Kubernetes, ssh) fail whenever they like. A write
  that fails may have been carried out in whole or in part. Other people may
  change the database clusters between any two calls of the fence Job. A `Sync`
  made with `reliable` is one whose every call is answered in time.
- **Immich** keeps one asset per byte content, its albums hold only assets there
  are, and its searches do not list what is in the trash. A media key always downloads the same bytes. A request whose
  answer is lost may be repeated.
- **Addresses, lists and ports** of the firewall are uninterpreted predicates,
  shared by both languages; `ServiceTableRight` says that the service table
  gives each service's number.
- **Clocks** are parameters. Flow handling and the image cache are sequential;
  each locked operation is one step.

## Where code and documentation differ

The models follow the code.

- `easter` passes its year to `new Date`, which moves the years 0 to 99 into
  the 1900s; there the result is a Monday (`EasterIsSundayFrom100`).
- An album list that could not be read completely still lets the albums that
  were read lose photos, although the documentation and the final message say
  that nothing is removed (`IncompleteRunRemoves` is such a run). What goes is
  exactly known: when no photo failed or was deferred, an own visible member of a
  readable album leaves it iff none of the album's photos has its bytes
  (`LossIsExact`, `Run`). The combined album loses nothing and nothing is
  deleted.
- Exit 0 with nothing deferred does not always leave the mirrored state. A photo
  in the trash keeps its place in an album, out of sight; if the list brings it
  back for another album only, it turns up in the first as well. A photo that
  someone else put into an album stays until an album adopts it, which may be too
  late for that album's turn, or never. `Converged` gives the exact condition on
  the account before the run (`NoRevival` and `StrangersListed`);
  `SecondRunNeeded` shows both cases, and `RunTwice` that the next run mends
  them, but for strangers listed nowhere.
- "Ours" is decided by the metadata when the run cleans up. An upload or a
  metadata write that was carried out but reported as failed makes the asset
  ours, and it goes to the trash in the same run unless an album holds it. So
  does an asset of ours that was in no album, if its photo is deferred.
- A lost answer to an album's creation can leave two albums with one marker.
  `Run` promises the mirrored state when the markers are unique at the end,
  which they are when they were at the start and every call is answered.
- A `destination port` with no ports in it, like an empty port group, turns into
  a rule without a port match, and a `destination port` beside a port group is
  dropped (`EmptyPortValueWidens`, `PortValueBesideGroupIsDropped`). These are
  the only ports that are not kept (`VariantsAgreeIff`).
- Of a DNS rule that moves to the router only protocol and ports count: its address
  lists are not looked at (`DnsAcceptedIffJustified`). One with a port group of up
  to 15 ports beside its DNS port value opens every port (`DnsBesideGroupOpensAll`).
- The second session of an apply cancels the rollback job of its own run only. A
  job that an earlier apply left queued (`DroppedSessionLeavesJob`) can still
  take the device back after reported success (`EarlierJobUndoes`); success is
  lasting iff there is none (`SuccessLastsIff`).
- An error of the Kubernetes API leaves one app out, but a lost connection while
  reading ends the fence Job with the status unchanged (`RunOnce`).
- A fence patch answered with "not found" counts as fenced; there is then no
  cluster to write to.
- The evidence collector never compares an attested lease with the current one
  (`NotMutualExclusion`).
- The staged script is exact only if no desired line is a prefix of another
  (`StagedScriptIsExact`).

## Model

| member | source | states |
|---|---|---|
| `FirewallModel.ChunksCover` | infrastructure/mikrotik/tools/vyos-to-locals.py:457-462 | splitting a port list into chunks of at most 15 keeps exactly its ports |
| `FirewallModel.VariantsMatchExactly` | infrastructure/mikrotik/tools/vyos-to-locals.py:1041-1084 | the RouterOS variants of any rule match exactly the packets of its protocols, addresses and emitted ports: the group's if it has one, else the value's, and every port if there is none |
| `FirewallModel.VariantsMean` | infrastructure/mikrotik/tools/vyos-to-locals.py:1041-1084 | with kept ports these are exactly the packets the VyOS rule matches, whatever the protocol expansion and port splitting |
| `FirewallModel.VariantsAgreeIff` | infrastructure/mikrotik/tools/vyos-to-locals.py:1054-1071 | the two agree on every port iff the ports are kept: no empty group or value, and no value beside a group that it narrows |
| `FirewallModel.PortValueBesideGroupIsDropped` | infrastructure/mikrotik/tools/vyos-to-locals.py:1054-1071 | beside a nonempty group a port value is dropped: the variants match what the VyOS rule without it does |
| `FirewallModel.EmptyPortValueWidens` | infrastructure/terraform/modules/mikrotik/locals.tf:37-39 | an empty port group, or a port value without any port, becomes a rule that matches every port where VyOS matches none |
| `FirewallBuilder.NumbersAscend` | infrastructure/mikrotik/tools/vyos-to-locals.py:1212-1219 | rules are taken in ascending order of their numbers |
| `FirewallBuilder.ZonePolicyBuilder.ResolvePorts` | infrastructure/mikrotik/tools/vyos-to-locals.py:437-446 | the token loop yields each trimmed, nonempty token with service names replaced by numbers |
| `FirewallBuilder.ZonePolicyBuilder.ChoosePorts` | infrastructure/mikrotik/tools/vyos-to-locals.py:1054-1071 | a port group stays a reference up to 15 members and is inlined in chunks beyond |
| `FirewallBuilder.ZonePolicyBuilder.EmitVariants` | infrastructure/mikrotik/tools/vyos-to-locals.py:1041-1084 | the nested loops build exactly the variants of the rule, or abort on a match key that is not translated |
| `FirewallBuilder.ZonePolicyBuilder.GetPair` | infrastructure/mikrotik/tools/vyos-to-locals.py:1020-1039 | a directed pair gets one policy for good; only an accepting native default opens it |
| `FirewallBuilder.ZonePolicyBuilder.AddDnsInput` | infrastructure/mikrotik/tools/vyos-to-locals.py:1086-1107 | the input rules are those of the DNS effects so far, numbers of a disabled VLAN used up; which packets they accept is `DnsAcceptedIffJustified` |
| `FirewallBuilder.ZonePolicyBuilder.ConvertContainerRule` | infrastructure/mikrotik/tools/vyos-to-locals.py:1135-1175 | one rule to or from the containers is moved to the input chain, retargeted, or dropped; the maps keep mirroring the effects |
| `FirewallBuilder.ZonePolicyBuilder.ConvertRuleset` | infrastructure/mikrotik/tools/vyos-to-locals.py:1111-1228 | one ruleset adds exactly its effects: none if unbound or empty and dropping, an abort for a rule that does not accept |
| `FirewallBuilder.ZonePolicyBuilder.ConvertTables` | infrastructure/mikrotik/tools/vyos-to-locals.py:1236-1241 | each table entry's rules join its pair, which is created even if empty |
| `FirewallBuilder.ZonePolicyBuilder.Build` | infrastructure/mikrotik/tools/vyos-to-locals.py:1000-1241 | at the end the policies are one per touched pair with every rule sent to it in order, and its default, and nothing else; the input rules are those of all DNS effects |
| `FirewallMeaning.ChainVerdict` | infrastructure/terraform/modules/mikrotik/firewall.tf:80-139 | the flat forward chain, its policies in any key order, forwards a packet iff a rule of its pair's policy matches or that policy accepts by default |
| `FirewallMeaning.PolicyGrants` | infrastructure/terraform/modules/mikrotik/locals.tf:52-96 | the built policies forward a packet iff one of the recorded effects grants it |
| `FirewallMeaning.EffectsGrantJustified` | infrastructure/mikrotik/tools/vyos-to-locals.py:1111-1241 | the effects grant a packet iff a ruleset of its own pair, a retargeted container rule, native access or a table entry justifies it |
| `FirewallMeaning.ForwardedIffJustified` | infrastructure/mikrotik/tools/vyos-to-locals.py:1000-1241 | no widening and nothing lost: what the RouterOS chain forwards on any pair is exactly what is justified, for every order of rulesets and policies |
| `FirewallMeaning.MeaningPreserved` | infrastructure/mikrotik/tools/vyos-to-locals.py:1210-1228 | on a pair that no retarget, native access or table touches, a packet is forwarded iff the VyOS ruleset of that pair accepts it |
| `FirewallMeaning.RetargetIsNewHome` | infrastructure/mikrotik/tools/vyos-to-locals.py:1148-1158 | a rule towards a container gets a new destination exactly when its list, or else the container behind its port group, has a new home, and then that one; what was for haproxy has none |
| `FirewallMeaning.VyosVerdictOfAccepts` | infrastructure/mikrotik/tools/vyos-to-locals.py:1212-1219 | for a ruleset of accept rules the lowest-numbered match accepts iff any rule matches |
| `FirewallMeaning.DefaultsComeFromRulesets` | infrastructure/mikrotik/tools/vyos-to-locals.py:1035-1039 | a pair accepts by default iff its own bound ruleset does, or it is the native VLAN access: retargets and tables never change a default |
| `FirewallMeaning.RetiredZonesDrop` | infrastructure/mikrotik/tools/vyos-to-locals.py:1361-1362 | with the retired zones unbound the chain forwards no packet from or to one |
| `FirewallMeaning.DnsNeverOnOutside` | infrastructure/mikrotik/tools/vyos-to-locals.py:1091-1103 | no DNS input rule ever listens on the outside zone's interface list, which holds the WAN port |
| `FirewallInput.DnsAcceptedIffJustified` | infrastructure/mikrotik/tools/vyos-to-locals.py:1086-1234 | after a build the router accepts a packet for itself iff a DNS rule or an accepting default towards the containers, or the native VLAN, covers the zone it comes from, its protocol and its port; the outside zone counts only over its own VLAN interface, when enabled |
| `FirewallInput.PlainDnsIs` | infrastructure/mikrotik/tools/vyos-to-locals.py:1109 | what every such zone and the native VLAN get is TCP and UDP to ports 53 and 853, and no other |
| `FirewallInput.DnsValueOpens` | infrastructure/mikrotik/tools/vyos-to-locals.py:1139-1142 | a moved rule with a DNS port value and no port group opens no port but 53 and 853 |
| `FirewallInput.DnsBesideGroupOpensAll` | infrastructure/mikrotik/tools/vyos-to-locals.py:1104-1106 | one with a port group of up to 15 ports beside that value opens every port |
| `FirewallInput.AbortsIs` | infrastructure/mikrotik/tools/vyos-to-locals.py:1044-1219 | the conversion aborts exactly when a rule it keeps has a match key that is not translated, a rule between two zones that stay does not accept, or DNS is to be pinned to an outside VLAN that is not known |
| `FirewallInput.Convert` | infrastructure/mikrotik/tools/vyos-to-locals.py:1000-1241 | a whole conversion aborts exactly then, and otherwise the chain forwards and the router accepts exactly what is justified, for every packet and every layout |
| `FirewallTables.OnlyTheControllerIsRetargeted` | infrastructure/mikrotik/tools/vyos-to-locals.py:117-136 | with the script's tables only the UniFi controller's rules are retargeted |
| `FirewallTables.TablesSpareRetiredZones` | infrastructure/mikrotik/tools/vyos-to-locals.py:152-212 | no extra table names a retired zone |
| `FirewallTables.TablesAreTranslatable` | infrastructure/mikrotik/tools/vyos-to-locals.py:168-212 | every table rule meets the translation's assumptions |
| `FirewallTables.DnsRulesOpenDnsPorts` | infrastructure/mikrotik/tools/vyos-to-locals.py:102 | what is moved to the input chain as DNS opens ports 53 and 853 only |
| `FirewallTables.TokensOfList` | infrastructure/mikrotik/tools/vyos-to-locals.py:433-446 | a port value, bare or quoted, is read as the comma-separated list it is |
| `FlowWire.RecordsInside` | kubernetes/apps/monitoring/flow-collector/app/config/flow_collector.py:348-397 | accounted records lie wholly inside the set body and their offsets strictly increase |
| `FlowWire.OtherTemplatesNeverMatter` | kubernetes/apps/monitoring/flow-collector/app/config/flow_collector.py:500-519 | a message's calls depend only on templates of its own version and domain, and change no others |
| `FlowEncoding.RecordRead` | kubernetes/apps/monitoring/flow-collector/app/config/flow_collector.py:364-386 | an encoded record of fixed and variable-length fields (section 7 of RFC 7011) reads back field by field |
| `FlowEncoding.FoldIsCall` | kubernetes/apps/monitoring/flow-collector/app/config/flow_collector.py:373-395 | when used fields occur at most once, what is read amounts to the record's own addresses, octets, protocol and ports |
| `FlowEncoding.DataSetRoundTrip` | kubernetes/apps/monitoring/flow-collector/app/config/flow_collector.py:348-397 | any encoded record list followed by less than a minimal record of padding is accounted once per record, in order |
| `FlowEncoding.NoAddressNoCalls` | kubernetes/apps/monitoring/flow-collector/app/config/flow_collector.py:394-395 | a template without both addresses accounts nothing |
| `FlowEncoding.TemplateSetRoundTrip` | kubernetes/apps/monitoring/flow-collector/app/config/flow_collector.py:328-345 | an encoded template set (section 3.4.1 of RFC 7011), with enterprise fields and padding, is learnt exactly |
| `FlowEncoding.CutTemplate` | kubernetes/apps/monitoring/flow-collector/app/config/flow_collector.py:332-340 | a template cut short raises, and those before it stay learnt |
| `FlowEncoding.ZerosArePadding` | kubernetes/apps/monitoring/flow-collector/app/config/flow_collector.py:356-392 | under a template with a field of variable length and no fixed-length address, zeros at the end of a set are padding however many they are |
| `FlowEncoding.SetsRoundTrip` | kubernetes/apps/monitoring/flow-collector/app/config/flow_collector.py:507-519 | a message's sets are handled one after the other, each with the templates learnt before it |
| `FlowEncoding.IpfixRoundTrip` | kubernetes/apps/monitoring/flow-collector/app/config/flow_collector.py:500-519 | an IPFIX message (section 3.3 of RFC 7011) with a template set and a data set accounts exactly the sender's records, under a template of version 10 and the message's domain |
| `FlowEncoding.DataAfterTemplate` | kubernetes/apps/monitoring/flow-collector/app/config/flow_collector.py:500-519 | a message that carries only data accounts exactly the sender's records once its template has come in an earlier one |
| `FlowEncoding.V9RoundTrip` | kubernetes/apps/monitoring/flow-collector/app/config/flow_collector.py:500-519 | a NetFlow v9 packet (section 5.1 of RFC 3954: a header of 20 octets, the source id in its last four) with a template and a data flow set accounts exactly the sender's records, and learns the template for version 9 and that source id, whatever it is |
| `FlowEncoding.V9DataAfterTemplate` | kubernetes/apps/monitoring/flow-collector/app/config/flow_collector.py:500-519 | so does a later v9 packet that carries only data |
| `FlowEncoding.OtherSets` | kubernetes/apps/monitoring/flow-collector/app/config/flow_collector.py:507-519 | a data set under an unknown template is counted as missing, options templates and reserved ids are passed over; nothing is accounted |
| `FlowEncoding.OtherMessages` | kubernetes/apps/monitoring/flow-collector/app/config/flow_collector.py:475-506 | a v9 or IPFIX header that is cut short raises, and another version does nothing |
| `FlowEncoding.V5RoundTrip` | kubernetes/apps/monitoring/flow-collector/app/config/flow_collector.py:482-496 | an encoded NetFlow v5 packet accounts its records in order, also when it promises more of them than it holds; the statistic counts the promise |
| `FlowSflow.PacketRoundTrip` | kubernetes/apps/monitoring/flow-collector/app/config/flow_collector.py:400-411 | a sampled IPv4 packet with any options is accounted with its addresses, protocol and, for TCP and UDP, ports |
| `FlowSflow.FrameRoundTrip` | kubernetes/apps/monitoring/flow-collector/app/config/flow_collector.py:414-425 | any number of VLAN tags is looked through, and only IPv4 frames are accounted |
| `FlowSflow.HeaderRoundTrip` | kubernetes/apps/monitoring/flow-collector/app/config/flow_collector.py:462-466 | of the sampled headers only IPv4 packets, in an Ethernet frame or bare, are accounted |
| `FlowSflow.RecordsRoundTrip` | kubernetes/apps/monitoring/flow-collector/app/config/flow_collector.py:454-468 | a sample's raw headers are accounted in order, each for the sampling rate times the frame's length; other records are passed over |
| `FlowSflow.DatagramRoundTrip` | kubernetes/apps/monitoring/flow-collector/app/config/flow_collector.py:428-470 | a whole sFlow version 5 datagram, from IPv4 or IPv6, of flow, expanded and other samples, laid out field by field, accounts exactly its sampled IPv4 packets, each scaled by its own sample's rate, and raises nothing |
| `FlowAccount.LookupIsScan` | kubernetes/apps/monitoring/flow-collector/app/config/flow_collector.py:147-153 | on a sorted table of disjoint ranges the bisect finds what a linear scan finds |
| `FlowAccount.PreNatCreditsSame` | kubernetes/apps/monitoring/flow-collector/app/config/flow_collector.py:287-291 | a download seen before NAT is undone credits the same key as the same download seen after |
| `FlowAccount.CreditIsScanned` | kubernetes/apps/monitoring/flow-collector/app/config/flow_collector.py:283-309 | a record with octets is credited iff exactly one of its ends is in the LAN; the key names that end, the direction, the network a linear scan finds for the other end and the service at the other end's port |
| `FlowAccount.RemotePortFirst` | kubernetes/apps/monitoring/flow-collector/app/config/flow_collector.py:239-248 | TCP and UDP are named by the first range that holds the remote port, by the client's port only when there is none, and any other protocol is its own service |
| `FlowAccount.RepliesShareKey` | kubernetes/apps/monitoring/flow-collector/app/config/flow_collector.py:294-301 | a flow and its reply get the same client, network and service, in opposite directions |
| `FlowAccount.Conservation` | kubernetes/apps/monitoring/flow-collector/app/config/flow_collector.py:283-309 | at every point of every run, counter bytes plus expired bytes are the octets of all records crossing the LAN's edge |
| `FlowAccount.KeyConservation` | kubernetes/apps/monitoring/flow-collector/app/config/flow_collector.py:543-548 | the same for every single key: held plus expired is what was credited to it |
| `FlowAccount.TotalSplit` | kubernetes/apps/monitoring/flow-collector/app/config/flow_collector.py:546-548 | expiry splits the counters without losing or inventing bytes |
| `FlowAccount.CounterLives` | kubernetes/apps/monitoring/flow-collector/app/config/flow_collector.py:543-548 | a counter is held iff it was ever credited and no rendering since its last credit came more than the limit after it |
| `FlowAccount.LastCreditIsLast` | kubernetes/apps/monitoring/flow-collector/app/config/flow_collector.py:302-309 | that last credit is the last record credited to the key |
| `FlowClasses.Classifier.Classify` | kubernetes/apps/monitoring/flow-collector/app/config/flow_collector.py:251-275 | the cached answer is always the one the rules give |
| `FlowClasses.Precedence` | kubernetes/apps/monitoring/flow-collector/app/config/flow_collector.py:254-275 | of strong port, network, weak port, hosting provider and web the first that says anything decides, whatever the others say; on STUN the network only names the app |
| `FlowCollector.Collector.Account` | kubernetes/apps/monitoring/flow-collector/app/config/flow_collector.py:283-309 | the counters stay those of the recorded run, so the conservation laws hold of them; the statistics count what was credited |
| `FlowCollector.Collector.ParseTemplateSet` | kubernetes/apps/monitoring/flow-collector/app/config/flow_collector.py:328-345 | the offset loop learns exactly the set's templates, keeping those read before an error, and the template statistic counts the learnt ones |
| `FlowCollector.Collector.ParseRecord` | kubernetes/apps/monitoring/flow-collector/app/config/flow_collector.py:364-388 | the field loop reads what the record function says, or stops at the end of the body |
| `FlowCollector.Collector.ParseDataSet` | kubernetes/apps/monitoring/flow-collector/app/config/flow_collector.py:348-397 | the record loop accounts the decoded records in order and counts them, or counts a missing template |
| `FlowCollector.Collector.HandleV5` | kubernetes/apps/monitoring/flow-collector/app/config/flow_collector.py:482-496 | NetFlow v5 records are accounted as far as the packet holds them |
| `FlowCollector.Collector.HandleSetsOf` | kubernetes/apps/monitoring/flow-collector/app/config/flow_collector.py:507-519 | the set loop does what the decoding function says, also when an error ends it half way |
| `FlowCollector.Collector.HandleSampleRecords` | kubernetes/apps/monitoring/flow-collector/app/config/flow_collector.py:454-468 | the record loop of a flow sample refines the decoding function, also when an error ends it |
| `FlowCollector.Collector.HandleSflow` | kubernetes/apps/monitoring/flow-collector/app/config/flow_collector.py:428-470 | sFlow datagrams are accounted as decoded; the headers are only counted if no error escapes |
| `FlowCollector.Collector.HandlePacket` | kubernetes/apps/monitoring/flow-collector/app/config/flow_collector.py:473-519 | every datagram of any kind has the effect its decoding says on counters, templates and all statistics; for NetFlow v9, IPFIX, v5 and sFlow that is what the sender encoded (`V9Datagram`, `IpfixRoundTrip`, `V5RoundTrip`, `SflowDatagram`) |
| `FlowCollector.V9Datagram` | kubernetes/apps/monitoring/flow-collector/app/config/flow_collector.py:473-519 | the router's NetFlow v9 as a datagram: the sender's records are accounted and counted, its template learnt, nothing raised or missing |
| `FlowCollector.SflowDatagram` | kubernetes/apps/monitoring/flow-collector/app/config/flow_collector.py:473-481 | an sFlow datagram accounts and counts its sampled headers and touches no template |
| `FlowCollector.Collector.OnDatagram` | kubernetes/apps/monitoring/flow-collector/app/config/flow_collector.py:527-536 | a malformed datagram is counted and keeps what was accounted, learnt and counted before the error |
| `FlowCollector.Collector.Expire` | kubernetes/apps/monitoring/flow-collector/app/config/flow_collector.py:546-548 | exactly the counters idle longer than the limit are dropped |
| `FlowCollector.Collector.LoadTable` | kubernetes/apps/monitoring/flow-collector/app/config/flow_collector.py:135-136 | a new address table replaces the old one and leaves the counters alone |
| `MirrorStore.SoundKeysUnique` | kubernetes/apps/selfhosted/immich/sync/scripts/sync.py:384-388 | with one asset per content and every recorded key naming its asset's bytes, a key belongs to one asset |
| `MirrorStore.ScrapedAre` | kubernetes/apps/selfhosted/immich/sync/scripts/sync.py:356-370 | the albums to sync are the first readings of their albums, all of them, in list order |
| `MirrorSafety.SeenIsKnown` | kubernetes/apps/selfhosted/immich/sync/scripts/sync.py:398-405 | an asset an album showed and that stands for a photo is known under one of the photo's keys, so that no plan removes it |
| `MirrorSafety.KeptFromRead` | kubernetes/apps/selfhosted/immich/sync/scripts/sync.py:410-449 | no album loses an asset that stands for a photo still listed for it |
| `MirrorConvergence.LossIsExact` | kubernetes/apps/selfhosted/immich/sync/scripts/sync.py:323-327 | in any run from unique markers, complete or not, whose albums were synced with nothing missed, an own visible member of a listed album is lost iff none of the album's photos has its bytes |
| `MirrorSteps.ProgressStep` | kubernetes/apps/selfhosted/immich/sync/scripts/sync.py:410-442 | syncing one more album keeps what the earlier ones were left as, `desired` as the union of the wanted sets, and the albums still to come as they were read |
| `MirrorSafety.OrphanNotListed` | kubernetes/apps/selfhosted/immich/sync/scripts/sync.py:461-465 | an asset that was in one of our albums and whose photo a readable listed album has is never an orphan, even when other photos failed or were deferred |
| `MirrorSafety.TrashIsSafe` | kubernetes/apps/selfhosted/immich/sync/scripts/sync.py:476-479 | trashing orphans, or only some of them, keeps the deletion safety of the run |
| `MirrorConvergence.Converged` | kubernetes/apps/selfhosted/immich/sync/scripts/sync.py:350-480 | a completed run with unique markers leaves the mirrored state (each listed album shows exactly its photos, the combined album their union, no other album of ours, nothing of ours outside albums) iff nothing came back from the trash into an album that does not want it and every photo that others put into an album was listed in time |
| `MirrorConvergence.CombinedShows` | kubernetes/apps/selfhosted/immich/sync/scripts/sync.py:445-449 | the combined album shows exactly the union iff what others put into it is listed |
| `MirrorConvergence.ListedMirrors` | kubernetes/apps/selfhosted/immich/sync/scripts/sync.py:410-442 | a listed album shows exactly its photos iff whatever came back in it is wanted there and what others put into it is listed for it or for an album before it |
| `MirrorRuns.NotMirroredInput` | kubernetes/apps/selfhosted/immich/sync/scripts/sync.py:422-442 | a concrete account and list that fail the condition in either way, by a photo in the trash or by someone else's |
| `MirrorConvergence.StrangerEnds` | kubernetes/apps/selfhosted/immich/sync/scripts/sync.py:323-327 | what others put into our albums and is still there after a completed run was there before and is listed nowhere |
| `MirrorConvergence.NoneLeftWaiting` | kubernetes/apps/selfhosted/immich/sync/scripts/sync.py:513-519 | a completed run leaves no listed photo in the trash |
| `MirrorConvergence.NothingToTrash` | kubernetes/apps/selfhosted/immich/sync/scripts/sync.py:461-479 | from the mirrored state nothing is an orphan |
| `MirrorConvergence.Settled` | kubernetes/apps/selfhosted/immich/sync/scripts/sync.py:411-457 | from the mirrored state a run finds every album in sync, the combined one included, and none to drop |
| `MirrorSync.Sync.UploadAsset` | kubernetes/apps/selfhosted/immich/sync/scripts/sync.py:241-264 | an upload adds at most one asset, none for known bytes, and may answer "duplicate" for its own repeated request |
| `MirrorSync.Sync.Adopt` | kubernetes/apps/selfhosted/immich/sync/scripts/sync.py:513-519 | adoption restores and adds the key, and keeps every recorded key truthful even when it fails half way |
| `MirrorSync.Sync.ImportPhoto` | kubernetes/apps/selfhosted/immich/sync/scripts/sync.py:492-511 | a successful import ends with an asset out of the trash that carries the key; a failed one loses nothing |
| `MirrorSync.Sync.WantOne` | kubernetes/apps/selfhosted/immich/sync/scripts/sync.py:423-438 | a photo is known, deferred, failed or imported, each outcome is counted, and only the asset found can have come back from the trash |
| `MirrorSync.Sync.CollectWant` | kubernetes/apps/selfhosted/immich/sync/scripts/sync.py:422-438 | the wanted set holds only assets of the album's photos, every known one, and all of them if nothing failed or was deferred |
| `MirrorSync.Sync.SyncAlbum` | kubernetes/apps/selfhosted/immich/sync/scripts/sync.py:411-442 | one album is created or renamed and planned; only its marker's albums change, only our assets leave, never one that stands for a photo of the album, and an album already in sync is not touched |
| `MirrorSync.Sync.SyncListed` | kubernetes/apps/selfhosted/immich/sync/scripts/sync.py:409-442 | all listed albums in turn; also a sync that fails half way has taken out nothing that is still listed |
| `MirrorSync.Sync.ReadList` | kubernetes/apps/selfhosted/immich/sync/scripts/sync.py:356-382 | the readable albums, each once, and whether all could be read |
| `MirrorSync.Sync.FindAlbums` | kubernetes/apps/selfhosted/immich/sync/scripts/sync.py:385-396 | every marker found leads to an album that carries it; at most the combined album is created |
| `MirrorSync.Sync.ReadImmich` | kubernetes/apps/selfhosted/immich/sync/scripts/sync.py:384-405 | the dictionaries describe the account: members, ownership and keys as recorded |
| `MirrorSync.Sync.SyncCombined` | kubernetes/apps/selfhosted/immich/sync/scripts/sync.py:445-449 | what the combined album shows of ours becomes the union of the wanted sets, the rest stays, and it loses nothing after an incomplete read |
| `MirrorSync.Sync.DeleteDropped` | kubernetes/apps/selfhosted/immich/sync/scripts/sync.py:455-459 | only albums of ours that are no longer listed are deleted |
| `MirrorSync.Sync.FindOrphans` | kubernetes/apps/selfhosted/immich/sync/scripts/sync.py:461-475 | the orphans are exactly our unwanted assets and our unalbumed strays, without those in someone else's album |
| `MirrorSync.Sync.Run` | kubernetes/apps/selfhosted/immich/sync/scripts/sync.py:350-480 | deletion safety however the run ends, no album losing a photo still listed for it included; whatever failed or was deferred, a run that ends without an exception leaves every readable album with its title, its known photos and none of our unlisted ones, and after a complete read no album of a marker no longer listed and nothing of ours outside albums; the exact loss of listed albums when nothing was missed; after exit 0 with nothing deferred the mirrored state iff the account was fit for it before; no write at all from the mirrored state; and exit 0 with nothing deferred when every call is answered, the list is read and its photos download |
| `MirrorFinished.FinishedBy` | kubernetes/apps/selfhosted/immich/sync/scripts/sync.py:410-480 | what a run did to the account, read off the account before and after it, follows from its phases for any list |
| `MirrorFinished.ListedServed` | kubernetes/apps/selfhosted/immich/sync/scripts/sync.py:422-442 | a listed album has its title and every asset our albums showed before that stands for one of its photos |
| `MirrorFinished.ListedLoses` | kubernetes/apps/selfhosted/immich/sync/scripts/sync.py:439-442 | and of what it showed before of ours it keeps nothing whose bytes are in none of its photos |
| `MirrorFinished.CombinedLoses` | kubernetes/apps/selfhosted/immich/sync/scripts/sync.py:445-449 | after a complete read the combined album too keeps nothing that is listed nowhere |
| `MirrorFinished.DroppedAll` | kubernetes/apps/selfhosted/immich/sync/scripts/sync.py:455-459 | after the clean-up no album carries a marker outside the list, whatever failed or was deferred |
| `MirrorFinished.StraysGone` | kubernetes/apps/selfhosted/immich/sync/scripts/sync.py:461-479 | after the clean-up nothing visible with our metadata is outside all albums, but for someone else's photo from an album of ours that became ours during a run that missed some |
| `MirrorSync.RunTwice` | kubernetes/apps/selfhosted/immich/sync/scripts/sync.py:350-480 | convergence: after an exit 0 with nothing deferred that left the mirrored state a second run on the same list writes nothing; after one that did not, a second such exit does, unless others put photos into albums that are listed nowhere |
| `MirrorSync.IncompleteRunRemoves` | kubernetes/apps/selfhosted/immich/sync/scripts/sync.py:451-453 | a run with an unreadable album that takes a photo out of an album it read |
| `MirrorSync.SecondRunNeeded` | kubernetes/apps/selfhosted/immich/sync/scripts/sync.py:422-442 | two runs on one list, the first exiting 0 with nothing deferred, where the second still changes the account and mirrors the list |
| `Pagination.DeduplicatedAre` | kubernetes/apps/selfhosted/immich/sync/scripts/gphotos.py:252-256 | the kept photos are exactly the first ones of their keys, in order of appearance |
| `Pagination.PhotosInAre` | kubernetes/apps/selfhosted/immich/sync/scripts/gphotos.py:248-252 | the photos of a page are its items that are no videos, all of them, in order |
| `Pagination.ReadPage` | kubernetes/apps/selfhosted/immich/sync/scripts/gphotos.py:248-256 | a page is read whole or raises for an item that cannot be parsed; videos are only counted |
| `Pagination.LastPageUnique` | kubernetes/apps/selfhosted/immich/sync/scripts/gphotos.py:257-258 | an album has at most one last page |
| `Pagination.NoLastPage` | kubernetes/apps/selfhosted/immich/sync/scripts/gphotos.py:259-264 | an unreadable page, a repeated token or more than 200 pages mean that there is no readable album |
| `Pagination.FetchAlbum` | kubernetes/apps/selfhosted/immich/sync/scripts/gphotos.py:211-271 | returns iff the pages have a last page and a photo, then exactly their deduplicated photos and video count, with one request per page and never more than 200 |
| `StagedDiff.DeepestFirstSorted` | infrastructure/edgeos/tools/edgeos-sync.py:114-115 | deletes are ordered deepest first |
| `StagedDiff.DeletesAre` | infrastructure/edgeos/tools/edgeos-sync.py:112-117 | the deletes are exactly the live lines that are not desired |
| `StagedDiff.DeletesFindTargets` | infrastructure/edgeos/tools/edgeos-sync.py:128-131 | executed in order, every delete still finds its target |
| `StagedDiff.DeletesLeaveWanted` | infrastructure/edgeos/tools/edgeos-sync.py:112-117 | on a prefix-free tree the deletes leave exactly the live lines that are desired |
| `StagedDiff.StagedScriptIsExact` | infrastructure/edgeos/tools/edgeos-sync.py:112-132 | from a prefix-free live tree the staged script ends at exactly the desired lines iff these are prefix-free |
| `StagedDiff.NoDiffIffSame` | infrastructure/edgeos/tools/edgeos-sync.py:157-159 | "no changes" is reported iff live and desired lines are the same set |
| `CommitConfirm.InvHolds` | infrastructure/edgeos/tools/edgeos-sync.py:168-193 | the invariant of the protocol in every state of every interleaving with crashes, lost connections and the timer, from any device, jobs of earlier applies still queued included |
| `CommitConfirm.SavedIsOldOrCandidate` | infrastructure/edgeos/tools/edgeos-sync.py:168-193 | the boot configuration is the old one or the candidate, unless a job queued earlier brought its own copy back before the commit; an unsaved running candidate has a queued rollback or is confirmed |
| `CommitConfirm.SavesOnlyTwoIff` | infrastructure/edgeos/tools/edgeos-sync.py:172-177 | it is always one of the two iff no earlier job is queued or the copy such a job loads is one of them |
| `CommitConfirm.OnlySessionBSaves` | infrastructure/edgeos/tools/edgeos-sync.py:186-193 | the candidate is saved only by the second session, opened after the commit, with this run's rollback job off the queue, and then stays but for an earlier job |
| `CommitConfirm.RollbackRestores` | infrastructure/edgeos/tools/edgeos-sync.py:172-177 | before that the timer or a loss of power restores the old configuration, or before the commit an earlier job its copy |
| `CommitConfirm.SuccessMeansSaved` | infrastructure/edgeos/tools/edgeos-sync.py:194-199 | when success is reported the desired lines were saved, and no rollback is pending but an earlier apply's |
| `CommitConfirm.FailedCommitIsCancelled` | infrastructure/edgeos/tools/edgeos-sync.py:180-182 | a commit that fails can end with its own job off the queue and the device as it was found |
| `CommitConfirm.CancelTakesOwnJob` | infrastructure/edgeos/tools/edgeos-sync.py:180-182 | whatever becomes of the cancel, it takes no job off the queue but this run's and changes nothing else |
| `CommitConfirm.SuccessLastsIff` | infrastructure/edgeos/tools/edgeos-sync.py:186-199 | in every run the desired lines stay running and saved from success on, with nothing queued, iff no earlier job was queued at the start |
| `CommitConfirm.EarlierJobUndoes` | infrastructure/edgeos/tools/edgeos-sync.py:186-193 | with one queued there is a run in which every command succeeds, success is reported, and the job takes the device back to the old configuration |
| `CommitConfirm.DroppedSessionLeavesJob` | infrastructure/edgeos/tools/edgeos-sync.py:174-180 | an apply whose first session is lost after scheduling leaves a device with such a job |
| `CommitConfirm.CandidateIsDesired` | infrastructure/edgeos/tools/edgeos-sync.py:173-184 | for the leaves of a tree the candidate is the desired configuration |
| `CommitConfirm.CleanApply` | infrastructure/edgeos/tools/edgeos-sync.py:168-199 | every run whose commands all succeed goes through the same eleven steps and, unless one is still to come, ends in reported success with the desired lines running and saved |
| `Morph.MorphKidsShow` | kubernetes/apps/home-automation/home-assistant/app/config/www/tnwks-kitchen/kitchen-cards.js:284-308 | after patching, the children show the wanted tree, up to what is inside INPUT, TEXTAREA and SELECT elements |
| `Morph.TypingIsKept` | kubernetes/apps/home-automation/home-assistant/app/config/www/tnwks-kitchen/kitchen-cards.js:309-318 | the children of an INPUT, TEXTAREA or SELECT stay the very nodes they were; of every other element they are patched and show the wanted ones |
| `Morph.AlikeStayPut` | kubernetes/apps/home-automation/home-assistant/app/config/www/tnwks-kitchen/kitchen-cards.js:299-301 | where live and wanted children are of one kind and name, with the same key or none, each is patched in place and keeps its identity |
| `Morph.UnlikeIsNew` | kubernetes/apps/home-automation/home-assistant/app/config/www/tnwks-kitchen/kitchen-cards.js:298-301 | a wanted child that is like no live one, such as an element with a new key, is put in as the new node it is |
| `Morph.KeyedChildKept` | kubernetes/apps/home-automation/home-assistant/app/config/www/tnwks-kitchen/kitchen-cards.js:287-297 | a keyed child that is unique on both sides keeps its identity under any reordering, insertion and removal |
| `Morph.UnchangedStaysPut` | kubernetes/apps/home-automation/home-assistant/app/config/www/tnwks-kitchen/kitchen-cards.js:284-318 | patching in what is already shown changes nothing |
| `Morph.MorphTwiceIsOnce` | kubernetes/apps/home-automation/home-assistant/app/config/www/tnwks-kitchen/kitchen-cards.js:320-323 | rendering the same HTML again touches nothing |
| `MorphDom.MorphKidsBag` | kubernetes/apps/home-automation/home-assistant/app/config/www/tnwks-kitchen/kitchen-cards.js:284-308 | the patched tree's nodes are among the live and the new ones, none twice |
| `MorphDom.Document.InsertBefore` | kubernetes/apps/home-automation/home-assistant/app/config/www/tnwks-kitchen/kitchen-cards.js:292-301 | inserting moves a node out of its old place |
| `MorphDom.Document.NextKeyed` | kubernetes/apps/home-automation/home-assistant/app/config/www/tnwks-kitchen/kitchen-cards.js:289-290 | the sibling walk finds the first node with the key and element name |
| `MorphDom.Document.PatchAttributes` | kubernetes/apps/home-automation/home-assistant/app/config/www/tnwks-kitchen/kitchen-cards.js:314-315 | the two attribute loops leave exactly the new attributes |
| `MorphDom.Document.MorphNodeInPlace` | kubernetes/apps/home-automation/home-assistant/app/config/www/tnwks-kitchen/kitchen-cards.js:309-318 | one live node is patched in place into what the function on trees says, which shows the wanted node and keeps what is being typed (`MorphKidsShow`, `TypingIsKept`) |
| `MorphDom.Document.MorphChildren` | kubernetes/apps/home-automation/home-assistant/app/config/www/tnwks-kitchen/kitchen-cards.js:284-308 | the loop over the live siblings, moving, patching, inserting and removing, turns the document into what the function on trees says, so that it shows the wanted children, and touches no other part of it |
| `Calendar.EpochIsThursday` | kubernetes/apps/home-automation/home-assistant/app/config/www/tnwks-kitchen/kitchen-cards.js:462 | the day count agrees with the Date epoch: 1 January 1970 is day 719528, a Thursday |
| `Computus.EasterRange` | kubernetes/apps/home-automation/home-assistant/app/config/www/tnwks-kitchen/kitchen-cards.js:457-463 | month and day lie in 22 March to 25 April, one to seven days after the full moon |
| `Computus.EasterIsFirstSundayAfterFullMoon` | kubernetes/apps/home-automation/home-assistant/app/config/www/tnwks-kitchen/kitchen-cards.js:457-463 | they name the first Sunday strictly after the paschal full moon, by counting days with the Gregorian leap rule |
| `Computus.FullMoonMatchesEpact` | kubernetes/apps/home-automation/home-assistant/app/config/www/tnwks-kitchen/kitchen-cards.js:459 | the full moon behind it is the one the Gregorian epact gives |
| `Computus.EasterAgreesWithClavius` | kubernetes/apps/home-automation/home-assistant/app/config/www/tnwks-kitchen/kitchen-cards.js:457-463 | so it is the first Sunday after the ecclesiastical full moon in every year |
| `Computus.EasterIsSundayFrom100` | kubernetes/apps/home-automation/home-assistant/app/config/www/tnwks-kitchen/kitchen-cards.js:462 | the Date returned is a Sunday iff the year is at least 100 |
| `Computus.NthWeekdayIsNth` | kubernetes/apps/home-automation/home-assistant/app/config/www/tnwks-kitchen/kitchen-cards.js:464-467 | exactly n - 1 days of that weekday lie between the first of the month and the result |
| `FenceJob.Job.Fence` | kubernetes/apps/databases/site-lease-fence/app/scripts/fence.py:107-124 | the result tells absent, replica, fenced and fencing apart by the cluster as read, and any result means that at some moment of the run it was unable to write |
| `FenceJob.Job.FenceAll` | kubernetes/apps/databases/site-lease-fence/app/scripts/fence.py:144-149 | every cluster of the app was unable to write at some moment of the run and was patched if it could write when it was read; the attested result is the worst of its clusters' |
| `FenceJob.Job.PatchStatus` | kubernetes/apps/databases/site-lease-fence/app/scripts/fence.py:150-155 | the status patch merges app by app or changes nothing |
| `FenceJob.Job.VisitApps` | kubernetes/apps/databases/site-lease-fence/app/scripts/fence.py:134-149 | unless a connection is lost, every app's lease is asked for and answered, every readable one ends attested or as an error of the API, and those whose lease names the site have all their clusters kept from writing |
| `FenceJob.Job.RunOnce` | kubernetes/apps/databases/site-lease-fence/app/scripts/fence.py:127-162 | unless a connection is lost while reading, every app is asked for; the attested apps are exactly those whose lease was answered and that met no error of the API; if the lease names this site every cluster was kept from writing, patched if it could write, and the attested result is their worst, else the app is clear; the status gets exactly these or stays as it was; success iff no connection was lost, no API error was met, none was newly fenced and the status was not refused |
| `FenceEvidence.Collector.Recovery` | observability/collector.py:267-343 | publishes exactly the plausible attestations and sets the fence prerequisite exactly when the lease allows; both are spelled out in `PublishedIs` and `JudgeIs` |
| `FenceEvidence.JudgeIs` | observability/collector.py:331-343 | the prerequisite fails (3) iff a valid lease names this very site, is met (1) iff it names another holder, there is a peer, and each told of a check at most 300 seconds ago and 60 ahead, and is not reported otherwise |
| `FenceEvidence.PublishedIs` | observability/collector.py:269-281 | an attestation is published iff the status has it, its lease names a site or none, its result is one of the five and its time is at most 60 seconds ahead |
| `FenceEvidence.PrerequisiteIsProven` | observability/collector.py:331-343 | in every reachable state a met prerequisite rests on a valid lease naming another site and, for every peer, on an attestation at most 300 seconds old and at most 60 ahead, whose clusters were stopped if its lease named that peer |
| `FenceEvidence.UnattestedUnchanged` | kubernetes/apps/databases/site-lease-fence/app/scripts/fence.py:134-148 | over any stretch of a history, runs that could not read the lease or met an error of the API for an app leave its attestation as it was |
| `FenceEvidence.StoppedIffLeaseNamesPeer` | observability/collector.py:331-343 | behind a met prerequisite, the collector's evidence makes it certain that a peer's clusters were stopped iff the lease in the peer's attestation names that peer |
| `FenceEvidence.NotMutualExclusion` | observability/collector.py:336-343 | the prerequisite can be met although no cluster of the peer was ever stopped |
| `OctetStrings.XorInvolution` | kubernetes/apps/selfhosted/kitchen-screensaver/app/src/server.py:155 | masking an octet twice gives it back |
| `OctetStrings.XorBit` | kubernetes/apps/selfhosted/kitchen-screensaver/app/src/server.py:155 | each bit of the exclusive or is set iff the two differ there |
| `OctetStrings.UintOfBigEndian` | kubernetes/apps/selfhosted/kitchen-screensaver/app/src/server.py:151-153 | a length in network byte order reads back |
| `OctetStrings.MostSignificantFirst` | kubernetes/apps/selfhosted/kitchen-screensaver/app/src/server.py:151-153 | the octets of such a length are its own, the most significant first |
| `WebSocket.ParseOfEncode` | kubernetes/apps/selfhosted/kitchen-screensaver/app/src/server.py:162-172 | any well-formed frame (section 5.2 of RFC 6455), masked or not, in any length form that fits, parses to its opcode and payload and takes just its own octets |
| `WebSocket.MaskedBit` | kubernetes/apps/selfhosted/kitchen-screensaver/app/src/server.py:155 | octet i is masked bit by bit with octet i mod 4 of the key (section 5.3 of RFC 6455) |
| `WebSocket.CutFrame` | kubernetes/apps/selfhosted/kitchen-screensaver/app/src/server.py:162-172 | a frame that is cut short anywhere is never taken for one |
| `WebSocket.SentParsesBack` | kubernetes/apps/selfhosted/kitchen-screensaver/app/src/server.py:145-155 | a sent frame parses back to its opcode and payload, and no masked form of it is shorter |
| `WebSocket.SentIsMasked` | kubernetes/apps/selfhosted/kitchen-screensaver/app/src/server.py:145-155 | a sent frame is final, carries the opcode and is masked, its length in the shortest of the three forms, for any key |
| `WebSocket.ReceiveOfFrames` | kubernetes/apps/selfhosted/kitchen-screensaver/app/src/server.py:160-181 | a message is the payloads of the data frames (opcodes 0, 1 and 2) joined up to the first final one, with one pong per ping (9) in order and the rest left unread |
| `WebSocket.ReceiveClosed` | kubernetes/apps/selfhosted/kitchen-screensaver/app/src/server.py:173-174 | a close frame ends the message, with the pings before it answered |
| `WebSocket.MiniWebSocket.Read` | kubernetes/apps/selfhosted/kitchen-screensaver/app/src/server.py:136-143 | however the bytes arrive, exactly the next n are taken, or the connection was closed before |
| `WebSocket.MiniWebSocket.SendFrame` | kubernetes/apps/selfhosted/kitchen-screensaver/app/src/server.py:145-155 | what goes out is one masked frame of the shortest form and parses back, for every random mask, up to the 64-bit length |
| `WebSocket.MiniWebSocket.ReadFrame` | kubernetes/apps/selfhosted/kitchen-screensaver/app/src/server.py:162-172 | one frame is read as the parser says, in any chunking |
| `WebSocket.MiniWebSocket.Recv` | kubernetes/apps/selfhosted/kitchen-screensaver/app/src/server.py:160-181 | in any chunking the receive returns that message, leaves the rest unread and answers each ping with its payload |
| `Mqtt.LengthRoundTrip` | observability/collector.py:557-564 | the remaining length reads back, whatever follows |
| `Mqtt.FieldIsGroups` | observability/collector.py:543-549 | the field is the length's groups of seven bits, the least significant first, the top bit on all but the last, none to spare |
| `Mqtt.FourOctets` | observability/collector.py:543-549 | the length field has at most four octets iff the body is at most 268435455 octets |
| `Mqtt.PacketRoundTrip` | observability/collector.py:543-569 | what was packed is read back and nothing after it |
| `Mqtt.CutPacket` | observability/collector.py:552-569 | a packet that is cut short anywhere is never taken for one |
| `Mqtt.MakePacket` | observability/collector.py:543-549 | the loop yields the kind octet, the length field and the body |
| `Mqtt.Read` | observability/collector.py:552-569 | under any splitting of the stream the reader returns the packet and leaves the rest unread |
| `ImageCache.EvictsShortestPrefix` | kubernetes/apps/selfhosted/kitchen-screensaver/app/src/server.py:490-492 | eviction drops the shortest prefix whose loss makes the rest fit |
| `ImageCache.AddedKeeps` | kubernetes/apps/selfhosted/kitchen-screensaver/app/src/server.py:481-492 | a put of a new image that fits keeps it and drops only the least recent ones needed |
| `ImageCache.TouchedKeeps` | kubernetes/apps/selfhosted/kitchen-screensaver/app/src/server.py:474-479 | a get loses nothing and makes its entry the most recent |
| `ImageCache.Cache.Get` | kubernetes/apps/selfhosted/kitchen-screensaver/app/src/server.py:474-479 | returns the stored image and moves it to the end |
| `ImageCache.Cache.Put` | kubernetes/apps/selfhosted/kitchen-screensaver/app/src/server.py:481-492 | the size stays the sum of the stored lengths and within the bound; a present key or an image too large changes nothing |
| `ImageCache.OrderIsRecency` | kubernetes/apps/selfhosted/kitchen-screensaver/app/src/server.py:464-492 | after any sequence of gets and puts the order is that of last use, the images fit and each was put under its key |
| `Resolution.ResolveExact` | observability/contracts.py:76-81 | terminates on every finite rule map, raises iff a dependency cycle is reachable, and else returns exactly the reachable names that are not recording rules |
| `Resolution.PanelSourcesExact` | observability/contracts.py:89-91 | the same for the union over a panel's inputs |
| `Resolution.CycleIsReal` | observability/contracts.py:77-78 | the rule a cycle is reported at lies on one: a path of dependencies from the start ends at it and has passed it before |

## Left out

- The firewall's text parsing, HCL output, notes and comments, NAT, DHCP, DNS and NTP porting, VLAN and WireGuard settings: the model starts at parsed rulesets, pairs and port lists.
- The text form of a policy key: a key is its number and zones, and the chain is proved for every order of keys.
- RouterOS rules other than the forward chain and the DNS input rules (connection states, logging, the VRRP rename, address lists of retired groups).
- `FirewallModel.VariantsMean`: a rule with both a port group and a port value, or with empty ones, is not translated faithfully; `VariantsMatchExactly` says what it becomes.
- A port group or address list that is not defined: the Terraform plan fails on it.
- Reading the ASN file, DNS names and the text of the metrics page of the flow collector; thread interleavings.
- Options templates and NetFlow v9's own padding rules beyond what the decoder reads.
- `FlowAccount.Conservation`: a record whose octets are zero counts for nothing on either side, as in the code.
- Dry runs of the photo mirror, renaming list items beyond whether it failed, time stamps and file names.
- `MirrorSync.Sync.Run`: requires that recorded keys already name the right bytes, which every run keeps; other users do not change the account during a run, but may trash photos between runs.
- `MirrorSync.Sync.UploadAsset`: file bytes stand for their SHA-1, so no two contents collide.
- JSON, HTML and URL parsing of Google's pages, and the album's title.
- The EdgeOS command wrapper's own session handling (`begin`, `end`, `discard`), shell quoting, and re-exposed parents of deleted values: a configuration is its set of leaf paths.
- Interruption in the middle of one shell command: each command happens or does not.
- The order of attributes, namespaces and live form state other than the contents of form controls.
- Animations, themes and the rest of the kitchen cards.
- The order in which the fence Job visits apps and its log lines; how the TXT record is decoded from DNS.
- The other recovery prerequisites of the evidence collector, and Prometheus beyond "an answer is something that peer published before".
- Timeouts of the WebSocket and MQTT sockets, the upgrade handshake and JSON decoding.
- Which names a PromQL expression selects: `Resolution` starts from each rule's names.
