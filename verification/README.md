# Singcast, verified

A model of the two parts of Singcast that carry unbounded behaviour, with proofs:

- **The service lifecycle** (`core/`). Every atomic operation and every lock
  operation of a start, a stop or a destroy is one step of a machine, and any
  number of calls interleave. `Lifecycle.Exec` turns any sequence of events into a
  run (an event whose call cannot move changes nothing), so a statement about
  `Exec(schedule)` is a statement about every schedule. The health watchdog is a
  tick machine and the delay test of a group is a machine with a semaphore, a wait
  group and a deadline.
- **The compiler from mihomo to sing-box** (`translator/`). The passes are methods
  on one `Translation` object whose fields they change in place; each is proved
  against a function of its inputs, and the properties are proved about those
  functions: for all configurations, all server answers, all rule-set contents.
  `RouteTable` and `DnsTable` say how sing-box reads a rule table (first match,
  `sniff` and `evaluate` do not decide, an address filter applies to A, AAAA and
  HTTPS queries only).

`dafny verify dfyconfig.toml` checks the project.

## Files

| files | part |
|---|---|
| `Lifecycle`, `LifecycleInvariants`, `LifecycleSafety` | the machine, its invariant one step at a time, and over runs |
| `LifecycleTheorems`, `LifecycleWindows`, `LifecycleStarts`, `LifecycleDestroy`, `LifecycleRaces`, `LifecycleRestart` | what follows: all schedules, the two moments a start can be disturbed at, schedules of starts only, what a stop and a destroy achieve, two races, what a restart for health works with |
| `Watchdog`, `ProxyNode`, `GroupDelay` | restarts for health, the node in use, delay tests |
| `RouteTable`, `DnsTable` | first-match reading of rule tables |
| `Translation`, `Proxies`, `Groups`, `GroupTheorems`, `GroupEntries` | shared state; proxies and groups, cleanup to a fixpoint, what each entry becomes |
| `OutboundTheorems`, `Dialers` | the outbounds and their tags in terms of the input; proxies behind other outbounds |
| `DnsServers`, `ResolverGraph`, `ServerList`, `DnsRules` | DNS servers, their resolver graph and their list in terms of the input; the DNS rules |
| `Wildcards`, `DnsTheorems`, `DnsAnswers`, `DnsUpgrade` | the meaning of filter entries; the DNS rule table, what it answers, how it relates to older tables |
| `Routes`, `Assemble`, `Orphans`, `RouteTheorems` | generated route rules, assembling, rules about undefined rule-sets, what the result does with a flow |
| `Validate`, `Pipeline` | the final check, and the order of the passes |
| `Migrate`, `UpgradeSteps`, `UpgradeMeaning` | upgrading the DNS rules of saved profiles: the rewriting, what it does to one rule, what it does to a table |
| `Profiles`, `RuleSets` | saved profiles: rule-set proxy, restarting; the rule-sets that are defined, and which of them are read back as addresses |
| `Text`, `Bandwidth`, `Wrappers` | durations, bandwidth limits, helpers |

## What is not true, and exactly when it is

- *Running means an instance is published.* A stop that pauses between its change
  of state and its `Swap` lets a start overwrite the old instance and then takes the
  new one (`RunningWithoutInstance`). With no call in flight it holds exactly if the
  last publication did not happen while some call stood there
  (`RunningMeansPublished`).
- *The running instance's hooks stay subscribed.* A stop that pauses between its
  `Swap` and its `unsubscribeHooks` cancels the subscription of the next instance:
  `unsubscribeHooks` does not compare generations (`RunningWithoutHooks`). They are
  subscribed exactly if no call waited there when the last subscription was installed
  (`PublishedMeansSubscribed`).
- *What a stop takes is closed exactly once.* Exactly if no start overwrote it
  (`TakenMeansClosed`), which takes a start that publishes while another call stands
  between its change of state and its `Swap` (`OverwrittenOnlyBeforeASwap`).
- *Health settings end up positive.* A number of milliseconds above 9223372036854
  wraps at 64 bits; the setting is positive exactly if the wrapped product is
  (`SettingExactly`). One millisecond more is negative, and 2^58 milliseconds are none
  (`LongIntervalsWrap`); a ticker with such an interval panics.
- *A translation that passes the final check has no dangling reference.* The check
  does not look at the detour of a proxy, which is its `dialer-proxy` as given. The
  detours lead somewhere exactly if the input names DIRECT, a proxy or a group that
  comes out (`DialersHoldExactly`); `dialer-proxy: gone` passes (`DanglingDialer`), and
  so does a proxy that connects through itself (`SelfDialer`).
- *Every subscription can be translated.* Two outbounds share a tag exactly if the
  names of the input are not clean (`TagsAreDistinctExactly`): proxies or groups that
  come out share a name, one is called DIRECT, or, where the default groups are made,
  a proxy is called PROXY, or Auto when that group is made too (`ProxyCalledProxy`).
- *A restart for health brings back what was running.* The watchdog reads the running
  instance and then the stored rule-set proxy. The two belong to the same start exactly
  if as many proxies are stored between the reads as were outstanding at the first
  (`RestartPairsExactly`). And a stop that returned in the meantime is overruled; only a
  destroyed service stays down (`OnlyDestroyIsFinal`).
- *Upgrading DNS rules preserves meaning.* The code guesses from tags and URLs which
  rule-sets hold addresses. An upgraded rule is harmless if sing-box reads it as an
  address filter, or if it has query types of its own and all are A, AAAA or HTTPS. A
  legacy rule (no evaluate, no match_response) on its own keeps its meaning exactly if
  it is harmless or not upgraded (`HarmlessExactly`), and then so does every legacy table
  of such rules (`LegacyTablesKeepMeaning`). Any other rule decides queries of further
  types before the upgrade and not after it (`MisclassifiedRuleChanges`). Whatever is
  guessed, an upgraded legacy table treats address queries as before, and other queries
  as if the upgraded rules were not there (`LegacyUpgradeMeans`). In tables that hold
  evaluate and match_response rules, the steps that keep every decision and the kept
  response are known exactly (`SafeStepsExactly`), and a table of such steps keeps its
  meaning (`UpgradePreservesMeaning`); otherwise a dead match_response rule can wake up
  (`UpgradeWakesResponseRules`). A generated table followed by older rules for address
  queries is safe (`MixedProfileKeepsMeaning`).
- *The fake-ip-filter filters what its entries say.* Entries are translated with their
  meaning exactly if they have no star or a single one that is in front, before a dot
  (`EntryTranslation`). Others catch too little, never too much (`EntryIsSound`): one
  with text before its star, such as `time.*.com`, catches nothing (`StarAfterText`,
  `StarInTheMiddle`). This takes a star for any run of characters, as the regular
  expressions of `docs/mihomo-singbox-config-mapping.md:320` do; for a reader who takes it
  for a single label, `*.lan` catches too much, since it becomes the suffix `.lan`.
- *Neighbouring rules share one evaluate* (comment at `translator/migrate.go:169-170`).
  In a table without evaluate rules none is ever shared, because the upgraded rule
  itself comes last (`LegacyRulesShareNoEvaluate`).
- *Dropping a condition about an undefined rule-set changes nothing.* Inside an
  and-rule it widens the rule, exactly when the other conditions can be met
  (`PruneKeepsRule`, `PruneBroadens`).
- *The proxied traffic goes to the first group.* Not if that group is called REJECT:
  rules that send to it turn into rejections (`RuleModeSplitsTraffic`,
  `GroupCalledReject`).
- *With a whitelist only listed names get fake addresses* (comment at
  `translator/dns.go:187`). A and AAAA queries get one whatever their name
  (`WhitelistLeavesAddressQueries`; `WhitelistFakesOthers` is such a query).
- *The names of proxies are resolved by a real server.* The system resolver is kept
  out, the fake-ip server is not (`DefaultResolverCanBeFake`, `FakeDefaultResolves`).
- *Resolvers of server names do not depend on each other* (comment at
  `translator/dns.go:75-79`). They do exactly if the first two default name servers
  are given by name (`ResolverGraphAcyclic`, `NamedDefaultsResolveEachOther`).
- *A restart keeps the configuration.* It depends on the rule-set proxy: exactly if it
  neither starts with the GitHub prefix nor contains the mark of address rule-sets
  (`RestartKeepsProfile`). The comment at `core/watchdog.go:186` says the running
  configuration is not prefixed yet; the code stores the prefixed text, so a restart
  prefixes it a second time, which is why this matters.
- *A restart reports the same stubs.* Exactly if no supported proxy looks like one
  (`RestartKeepsTranslation`, `MarksAreStubsExactly`, `ImitatorIsMarked`).
- *A positive limit stays positive.* A limit with a unit becomes 0, unlimited, if its
  number does not fit 64 bits or its bits wrap to zero (`UnlimitedExactly`,
  `HugeLimitIsUnlimited`).

The comment at `translator/validation.go:56-57` says that the cleanup of the groups
makes one pass; the code repeats it until nothing changes, and the model follows the
code.

## Model

| member | source | states |
|---|---|---|
| LifecycleTheorems.ClosedAtMostOnce | core/service.go:476-491 | in every schedule an instance is closed at most once, never while `running` points to it, and only after its queries were told to stop |
| LifecycleTheorems.InstancesAccounted | core/service.go:418-431 | with no call in flight every instance ever built is in exactly one place: published, closed once, or overwritten by a later start |
| LifecycleTheorems.OverwrittenOnlyBeforeASwap | core/service.go:418-427 | in every reachable state, an instance is overwritten only by a start that publishes while another call stands between its change of state and its Swap |
| LifecycleTheorems.TakenMeansClosed | core/service.go:462-484 | once all calls have returned, an instance whose state some Stop or Destroy took, be it Running or Starting, is not published, and it was closed exactly once if and only if no start overwrote it |
| LifecycleTheorems.QuiescentService | core/service.go:267-300 | with no call in flight: no lock held, never Starting, nothing published unless Running, no live subscription but the published instance's, the newest start acted last, and the stored rule-set proxy is the published instance's |
| LifecycleWindows.RunningMeansPublished | core/service.go:467-477 | for every schedule at rest and Running: an instance is published if and only if no call stood between its change of state and its Swap at the last publication |
| LifecycleWindows.PublishedMeansSubscribed | core/events.go:58-71 | for every schedule at rest with a managed instance published: its subscription is live if and only if no call waited to cancel when the last one was installed |
| LifecycleWindows.UnmanagedIsUnsubscribed | core/events.go:72-98 | in no schedule does an instance without managers keep a subscription |
| LifecycleWindows.ClosedExactlyOnce | core/service.go:462-491 | for every schedule in which no start publishes in that window, stops past their Swap included: nothing is lost, and every instance but the published one, in particular a taken one, was closed exactly once |
| LifecycleTheorems.DestroyedIsFinal | core/service.go:495-518 | whatever happens afterwards, a destroyed service stays destroyed; `DestroyedExactly` says which schedules lead there |
| LifecycleDestroy.DestroyedExactly | core/service.go:495-503 | for every schedule, at every moment: the service is destroyed if and only if some Destroy has made its change of state |
| LifecycleDestroy.DestroyDestroys | core/service.go:495-518 | in every schedule, once some Destroy has returned the service is destroyed, and with no call in flight nothing is published, nothing is subscribed to, and every instance that no start overwrote was closed once |
| LifecycleDestroy.DestroyComesThrough | core/service.go:495-518 | a Destroy that was called can always be driven until the service is destroyed, moving only itself and the holder of hooksMu |
| LifecycleDestroy.TwoStepsDestroy | core/service.go:495-503 | a schedule that destroys |
| LifecycleDestroy.StopsTakeEffect | core/service.go:461-470 | every Stop or Destroy that has returned, even in the middle of a schedule, has had a moment since it was called at which the service was neither Running nor Starting |
| LifecycleTheorems.StartsActInOrder | core/service.go:275-285 | starts act in the order of their tickets, each with the newest ticket drawn so far |
| LifecycleTheorems.SomebodyCanMove | core/service.go:152-162 | no schedule deadlocks |
| LifecycleTheorems.StopReturns | core/service.go:152-162 | a stop or destroy can always be driven to its end without any start moving, except one inside the hooks section, which never is a call in a host callback |
| LifecycleStarts.NewestStartWins | core/service.go:263-300 | any number of concurrent starts: the service ends up running the newest one, or nothing exactly if that one failed, and every other instance was closed once |
| LifecycleSafety.ExecInv | core/service.go:267-526 | the inductive invariant holds in every reachable state |
| LifecycleRaces.RunningWithoutInstance | core/service.go:467-477 | a schedule that ends Running with nothing published and an instance never closed |
| LifecycleRaces.RunningWithoutHooks | core/events.go:172-183 | a schedule that ends Running an instance whose subscription a finished stop has cancelled |
| LifecycleRestart.RestartPairsExactly | core/watchdog.go:181-195 | for all schedules before and between the two reads of a restart: the instance and the rule-set proxy belong to the same start if and only if between the reads one proxy is stored when the start had not stored its own at the first read, and none when it had |
| LifecycleRestart.OnlyDestroyIsFinal | core/watchdog.go:181-195 | from every state at rest some schedule brings the service up again, if and only if it is not destroyed, which by `DestroyedExactly` is if and only if no Destroy has made its change of state |
| Watchdog.NormalizeHealthConfig | core/watchdog.go:36-59 | every duration is the given one as a 64-bit word of nanoseconds, or else 60 s between probes, 10 s for a probe, 3 failures and 300 s of cooldown; all end up positive if and only if no given one wraps to something that is not |
| Watchdog.SettingExactly | core/watchdog.go:46-57 | a setting keeps its value if and only if it is at most 9223372036854 ms, and is positive if and only if the product modulo 2^64 is between 0 and 2^63 |
| Watchdog.LongIntervalsWrap | core/watchdog.go:46-48 | one millisecond more is negative, and 2^58 ms are zero |
| Watchdog.Run | core/watchdog.go:75-106 | the loop computes the tick machine's counters and restarts |
| Watchdog.EveryTick | core/watchdog.go:75-106 | after any ticks, what the next one does: nothing less than a cooldown after the end of the last restart; else a probe, and a restart exactly if it makes the run of failures a multiple of the threshold |
| Watchdog.RestartsExactly | core/watchdog.go:88-105 | it restarts after exactly those probes that make the current run of failures a multiple of the threshold |
| Watchdog.FailuresPayForRestarts | core/watchdog.go:75-106 | 0 <= fails < threshold, and restarts * threshold + fails never exceeds the failed probes |
| Watchdog.RestartNeedsFailures | core/watchdog.go:93-103 | the `threshold` probes before a restart all failed |
| Watchdog.RestartsAreSpaced | core/watchdog.go:83-104 | each restart begins at least `cooldown` after the previous one ended |
| ProxyNode.CurrentProxyNode | core/watchdog.go:147-178 | the loop with its `seen` set finds what a plain walk of at most 16 nodes finds |
| ProxyNode.NodeIsReachableLeaf | core/watchdog.go:147-178 | it is the node at the end of a chain of current members of at most 16 nodes, if and only if there is one |
| ProxyNode.CycleReachesNothing | core/watchdog.go:161-164 | a walk that comes back to a visited group never reaches a node |
| GroupDelay.ProbesAreBounded | core/query.go:204-206 | in every schedule at most 16 probes are in flight |
| GroupDelay.ProbesCanBeSixteen | core/query.go:204-206 | and sixteen can be, if there are so many members |
| GroupDelay.ResultsAreComplete | core/query.go:243-275 | when the call returns no probe is left, the keys are exactly the group's tags, and each value was measured for a member with that tag or is -1 |
| GroupDelay.ResultsAreOwn | core/query.go:243-275 | with distinct tags every member gets its own result |
| GroupDelay.SchedulesAreShort | core/query.go:208-215 | a call takes at most seven steps a member and two more |
| GroupDelay.NeverStuck | core/query.go:246-272 | until it returns some step other than the deadline is possible |
| GroupDelay.NothingSkippedInTime | core/query.go:246-256 | in no schedule is a member passed over before the deadline |
| GroupDelay.DeadlineCutsShort | core/query.go:246-256 | from every state whose deadline has passed the loop can go through the members that are left without waiting for a probe, however many are in flight |
| Groups.TranslateGroups | translator/group.go:28-117 | the loops compute the made groups, cleaned up, in order; the remaining group tags are the survivors; what each entry becomes is stated by `GroupsAreMadeFromEntries` |
| Groups.TranslateGroup | translator/group.go:45-91 | one proxy-group entry, with every reason to skip it; its fields are stated by `GroupsAreMadeFromEntries` |
| Groups.CleanupGroupOutbounds | translator/group.go:162-170 | the cleanup ends after at most one pass more than there are groups |
| Groups.CleanupOnce | translator/group.go:173-216 | one pass filters every list and drops the groups that become empty |
| GroupTheorems.SurvivorsAreGreatest | translator/group.go:154-170 | the survivors are the greatest set of names whose groups each keep a proxy, DIRECT or a survivor, and the output is the original groups filtered by it once, in order |
| GroupTheorems.SurvivorsIgnoreOrder | translator/group.go:154-161 | which groups survive does not depend on their order |
| GroupTheorems.CleanedGroupsAreClosed | translator/group.go:94-98 | no emitted group is empty or names anything but proxies, survivors and DIRECT, and every survivor is emitted |
| GroupTheorems.DistinctNamesSurviveExactly | translator/group.go:162-216 | with distinct names the survivors are exactly the tags of the emitted groups |
| GroupTheorems.GroupsAreWellMade | translator/group.go:203-279 | selectors start on their first member after the cleanup too; url-test intervals read back as 1 to 1800 seconds, idle timeouts as at least twice that and at most 3600 |
| GroupTheorems.NoDeadMembers | translator/group.go:140-152 | no url-test or fallback group holds a stub or a proxy with a dead address |
| GroupEntries.GroupsAreMadeFromEntries | translator/group.go:45-91 | for every configuration with groups that last: the emitted groups are, one by one and in order, those of the lasting entries; select and load-balance give a selector of the valid names that starts on the first, url-test and fallback a urltest of those that are not dead; the interval reads back as the given one up to 1800 seconds, or 180; the idle timeout as twice that, at least 1800; the tolerance is 10000 for fallback, else the given one up to 65535, or none |
| GroupEntries.MembersInOrder | translator/group.go:119-152 | wherever a name stands in an entry, it becomes a member at its place exactly if it is valid and, in a tested group, not dead |
| GroupEntries.FirstGroupIs | translator/group.go:100-117 | the group the traffic goes to is the first entry of the input whose name comes out |
| GroupEntries.DefaultGroupsAre | translator/group.go:311-343 | for every configuration without: PROXY over all proxies, with Auto first, tested every 180 seconds, exactly if two proxies or more are not dead |
| GroupEntries.TestedGroupsAreAlive | translator/group.go:140-152 | on the input: a named proxy in an emitted urltest group, the default one included, has an endpoint, is supported, and its server is not a dead one |
| Proxies.TranslateProxies | translator/proxy.go:11-49 | every named proxy becomes an outbound of that name, a stub if sing-box cannot run it; the last stub of a name decides its protocol |
| Proxies.ProxyTagsAreOutbounds | translator/proxy.go:24-45 | the proxy tags are exactly the tags of the emitted proxies |
| Proxies.ProxyBecomes | translator/proxy.go:14-49 | a named proxy without server or port, or of an unsupported protocol, becomes a socks stub at 127.0.0.1:1 that carries its protocol; any other what its translator makes, behind its dialer-proxy |
| Proxies.EchNamesAre | translator/dns.go:321-339 | the names ECH needs are those of the supported proxies of the input, each once |
| Proxies.GenerateDefaultGroups | translator/group.go:311-343 | without groups: PROXY over all proxies, and Auto first if at least two are healthy |
| DnsServers.SetResolvers | translator/dns.go:112-142 | every server given by name gets the first resolver that is not itself |
| DnsServers.PreferUDPServer | translator/dns.go:727-739 | the first candidate that is a UDP server, or else the first |
| DnsServers.SchemesBecome | translator/dns.go:443-464 | https, tls, quic and h3 give a server of that kind, http none, anything else plain UDP, and asking for h3 overrules the scheme |
| DnsServers.EntriesBecome | translator/dns.go:343-437 | what each kind of entry of a list of name servers becomes |
| DnsServers.AutoEntriesAre | translator/dns.go:85-100 | without default name servers the first two name servers with an address that are supported are asked directly, numbered in order |
| ServerList.ServersAre | translator/dns.go:21-291 | for every configuration with DNS enabled, exactly which servers the output has: one for each supported entry, named by its list and position, with the group as detour if it is a name server or fallback, h3 for https if that is preferred, and if given by name the first resolver that is not itself; the first two name servers with an address once more if no default one is kept; one for fake addresses, one for hosts; and 223.5.5.5 exactly if there is no resolver, or the first is the system one and none is UDP |
| ServerList.ServersInOrder | translator/dns.go:55-107 | and in which order |
| ServerList.FirstEntryIs | translator/dns.go:712-723 | the first server of a list is that of its first supported entry |
| Pipeline.DisabledDns | translator/dns.go:21-40 | with DNS disabled the DNS section is 223.5.5.5 alone, with no rules |
| ResolverGraph.ServerTagsDistinct | translator/dns.go:712-723 | no two DNS servers share a tag |
| ResolverGraph.ResolverGraphAcyclic | translator/dns.go:75-142 | the resolver graph is acyclic if and only if the first two kept default name servers are not both given by name, and then no chain is longer than two |
| ResolverGraph.NamedDefaultsResolveEachOther | translator/dns.go:75-79 | a configuration whose resolver graph has a cycle |
| ResolverGraph.ResolverTargetsAreDirect | translator/dns.go:112-142 | whoever resolves a server's name is another server of the list, asked without a proxy |
| ResolverGraph.DefaultResolverIsDirect | translator/dns.go:281-286 | default_domain_resolver names an existing server that is not the system resolver and is asked without a proxy |
| ResolverGraph.CandidateIsFirst | translator/dns.go:727-739 | it is the first candidate that is a UDP server, or else the first candidate |
| ResolverGraph.NameserversGoThroughGroup | translator/dns.go:58-74 | with a group, name servers and fallbacks are asked through the first one, and the servers that resolve names never are |
| ResolverGraph.DefaultResolverCanBeFake | translator/dns.go:84-107 | it is a fake-ip server exactly if the first kept default name server is and none is UDP |
| ResolverGraph.FakeDefaultResolves | translator/dns.go:84-107 | a configuration for which it is one |
| DnsRules.TranslateDNS | translator/dns.go:21-291 | the passes over the DNS section compute the servers, the user's rules, the final server and the default resolver |
| DnsRules.GenerateDNSRules | translator/autoroute.go:148-250 | the table in its order: mode, user, generated, terminal; the servers it uses are those of `ChosenTags` and `ChosenFakeTag` |
| DnsTheorems.ChosenTags | translator/dns.go:596-660 | for every list of servers: the direct server is the first plain UDP one among those that are asked directly, or else the first of them; the server for ECH names the first https, tls, quic or h3 one among them, or else the first |
| DnsTheorems.ChosenFakeTag | translator/dns.go:664-677 | the server for fake addresses is the first fake-ip server with a tag |
| DnsAnswers.EveryQueryIsAnswered | translator/autoroute.go:165-250 | for every configuration, query and mode, which server answers: Direct mode, then the names the filter rules catch, hosts, ECH names, local names and addresses, fake addresses, and last the fallback or, without one or under a whitelist, the name server, and with neither no server by name; without a direct server only the user's part and the last; with DNS disabled the bootstrap server; the direct server, the one for ECH names and the one for fake addresses are chosen as `ChosenTags` says |
| DnsAnswers.HasDirectOnInput | translator/dns.go:596-632 | the output has a server that is asked directly if and only if the input has one: DNS is disabled, or among the kept entries one is asked directly and not fake-ip, or the bootstrap server comes in |
| DnsAnswers.UserCatches | translator/dns.go:171-259 | the user's rules catch exactly the names the filter's rewritten entries catch and the names of the hosts table |
| DnsAnswers.DirectModeStaysDirect | translator/autoroute.go:170-174 | in Direct mode every query goes to a server that is asked directly and is not fake-ip |
| DnsAnswers.EchNamesStayDirect | translator/autoroute.go:180-200 | a name ECH needs, unless a user rule catches it, is asked directly in every mode |
| DnsAnswers.EchOfProxiesStaysDirect | translator/dns.go:321-339 | so it is, on the input, for the ECH name of every supported proxy |
| DnsAnswers.FilterRulesMatch | translator/dns.go:171-192 | the emitted fake-ip-filter rules match exactly what the rewritten entries catch: no name the filter is not meant for, and all it is meant for if every entry is one that is translated exactly |
| Wildcards.EntryTranslation | translator/dns.go:176-185 | an entry catches exactly the names its stars stand for if and only if it has no star, or a single one in front, before a dot |
| Wildcards.EntryIsSound | translator/dns.go:176-185 | no entry catches a name it is not meant for |
| Wildcards.FilterIsExact | docs/mihomo-singbox-config-mapping.md:887-905 | a filter of such entries catches exactly the names it is meant for |
| Wildcards.StarAfterText | translator/dns.go:180-181 | an entry with text before its star catches no name, although it is meant for some |
| Wildcards.StarInTheMiddle | translator/dns.go:180-181 | such as time.*.com, which does not catch time.apple.com |
| DnsAnswers.BlacklistedNamesAreReal | translator/dns.go:206-221 | a name the blacklist's rules catch gets a fake address exactly if the first kept name server is itself fakeip, outside Direct mode |
| DnsAnswers.MeantNamesAreReal | translator/dns.go:206-221 | so it is for every name the blacklist is meant for, if its entries are translated exactly |
| DnsAnswers.WhitelistLeavesAddressQueries | translator/autoroute.go:233-240 | with a whitelist, a query nothing else catches gets a fake address exactly if it asks for A or AAAA |
| DnsAnswers.WhitelistFakesOthers | translator/dns.go:187-205 | a configuration and a query for which the whitelist is not kept |
| DnsUpgrade.GeneratedIsUpgraded | translator/autoroute.go:214-231 | the generated table is the older table with an address filter, upgraded |
| DnsUpgrade.GeneratedMeansOlder | translator/autoroute.go:214-220 | so every query gets the server sing-box 1.13 chose on the older table, if the rule-set of the country is one of addresses |
| DnsUpgrade.MixedProfileKeepsMeaning | translator/migrate.go:29-86 | a saved profile with a generated table and older rules after it keeps its meaning, if those that are upgraded are harmless and for address queries only |
| DnsUpgrade.GeneratedNeedsNoUpgrade | translator/translator.go:40-54 | a translated profile that is saved and read again is left alone |
| Routes.TranslateRules | translator/autoroute.go:8-38 | the generated rules and their rule-set definitions |
| Assemble.Assemble | translator/assemble.go:9-77 | the whole assembled configuration |
| Assemble.FilterOrphanRules | translator/assemble.go:143-195 | dropping references to undefined rule-sets |
| RouteTheorems.RuleModeRefines | translator/assemble.go:81-122 | in Rule mode every flow but DNS queries gets the decision first match gives on the rules before assembling, REJECT read as reject |
| RouteTheorems.PruneKeepsRule | translator/assemble.go:143-195 | dropping undefined rule-sets keeps what a rule matches unless the rule broadens |
| RouteTheorems.PruneBroadens | translator/assemble.go:173-195 | and every rule said to broaden does, for some flow |
| Orphans.NoOrphansLeft | translator/assemble.go:143-195 | for all rules: none that is left names an undefined rule-set, in a condition of its own or of an inner rule |
| Orphans.OrphansGo | translator/assemble.go:143-195 | a plain rule goes exactly if it names rule-sets and none of them is defined; else it loses the undefined ones and nothing else |
| Orphans.LogicalRulesStay | translator/assemble.go:143-195 | a logical rule always stays, and the same holds of its inner rules one by one |
| Orphans.NoDnsOrphansLeft | translator/assemble.go:143-195 | no DNS rule that is left has an undefined rule-set in a list |
| Orphans.DnsOrphansGo | translator/assemble.go:143-195 | a DNS rule goes exactly if it has a list of rule-sets and none of them is defined |
| RouteTheorems.OtherModesIgnoreRules | translator/assemble.go:38-45 | Direct mode sends every flow direct, Global mode to the first group, or direct if there is none |
| RouteTheorems.DnsIsHijacked | translator/assemble.go:33-36 | DNS queries are hijacked in every mode |
| RouteTheorems.SniffFirst | translator/assemble.go:33-36 | every configuration sniffs first and hijacks DNS second |
| RouteTheorems.RuleModeSplitsTraffic | translator/autoroute.go:61-138 | Rule mode, for every country: exactly the local traffic goes direct, the rest to the first group, or is rejected if a rule sends it to a group called REJECT |
| RouteTheorems.CountryDomain | translator/autoroute.go:112-138 | for every country but cn: its own domain goes direct unless it is one of twenty that are used all over the world |
| RouteTheorems.GroupCalledReject | translator/assemble.go:81-122 | a flow that is rejected because the first group is called REJECT |
| Validate.ValidateOutput | translator/validation.go:11-27 | passes exactly if tags are distinct and group members, route.final, DNS detours, DNS rule servers and dns.final lead somewhere; reports a duplicate first |
| Validate.ClosedExactly | translator/validation.go:58-146 | the references in question, one by one: every member of a group, route.final, every detour and every server of a DNS rule, and dns.final is empty, DIRECT or the tag of an outbound, or the tag of a DNS server; a member may not be empty |
| Pipeline.TranslateFromConfig | translator/translator.go:72-152 | for every input the final check passes if and only if the names of the input are clean, and else reports a duplicate tag; the references of groups, rules and DNS hold, also those it only warns about, no rule is dropped, and every rule-set of the output is defined once; the detours of proxies hold if and only if the input names outbounds that come out |
| OutboundTheorems.TagsAreDistinctExactly | translator/validation.go:32-54 | no two outbounds share a tag if and only if named proxies are distinct, none is called DIRECT, and the groups that come out have names of their own; or, where default groups are made, no proxy is called PROXY, nor Auto when that group is made |
| OutboundTheorems.GroupNamesAreGreatest | translator/group.go:154-170 | the group names that come out, on the input: the greatest set of names whose entries still list a proxy, DIRECT or one of these names |
| Dialers.DialersHoldExactly | translator/proxy/common.go:124-126 | the detours of proxies all lead to an outbound if and only if each supported proxy's dialer-proxy is empty, DIRECT, a proxy or a group that comes out |
| Dialers.DanglingDialer | translator/validation.go:11-27 | a configuration the final check accepts whose proxy connects through an outbound that does not exist |
| Dialers.SelfDialer | translator/validation.go:11-27 | one whose proxy connects through itself |
| Dialers.ProxyCalledProxy | translator/group.go:311-343 | a configuration without groups that fails because its proxy is called PROXY |
| Pipeline.OutputReferences | translator/validation.go:58-146 | group members, route.final, rule outbounds, DNS detours, DNS rule servers and dns.final are closed by the passes before |
| Migrate.UpgradeLegacyDNSRules | translator/migrate.go:29-86 | the loop computes the upgraded table and reports a change exactly if some rule needed it |
| Migrate.CollectIPOnlyRuleSets | translator/migrate.go:91-126 | the tags of the definitions that count as rule-sets of addresses; which do is stated by `IpOnlyExactly` |
| RuleSets.IpOnlyExactly | translator/migrate.go:118-126 | a definition counts as one of addresses if and only if it has a tag that starts with geoip- or a URL that contains sing-geoip/rule-set/ |
| RuleSets.GeoipIsIpOnly | translator/migrate.go:118-126 | geoip- tags do whatever their URL, a mirror included |
| RuleSets.GeositeIsNotIpOnly | translator/migrate.go:118-126 | geosite- tags do not, unless their URL leads into that repository |
| RuleSets.OutputDefsAre | translator/rule.go:28-56 | for every configuration and country the output defines exactly the rule-sets of its rules, each with the URL of its name in its repository and downloaded through DIRECT |
| RuleSets.SavedSetsAreRead | translator/migrate.go:91-126 | and when they are saved and read again, exactly geoip- of the country counts as one of addresses |
| RuleSets.GeneratedIsUpgradedAsSaved | translator/autoroute.go:214-231 | so the generated table is the older table, upgraded with what is collected from the saved rule-sets |
| UpgradeMeaning.UpgradePreservesMeaning | translator/migrate.go:44-80 | for every safe table, query, server answer and rule-set content the same rule decides before and after, where what the code guesses of rule-sets and what sing-box reads are two things; safe tables may hold evaluate and match_response rules |
| UpgradeSteps.SafeStepsExactly | translator/migrate.go:44-80 | the steps a safe table is made of are exactly those that keep every decision and the kept response, for all rule-sets, answers, queries and responses in step before: one rule after given ones, be it upgraded, an evaluate or a match_response rule |
| UpgradeMeaning.HarmlessExactly | translator/migrate.go:128-151 | for every legacy rule: on its own it keeps its meaning, over all queries, answers and contents of rule-sets, if and only if it is not upgraded, is read as an address filter, or has only address types of its own |
| UpgradeMeaning.LegacyTablesKeepMeaning | translator/migrate.go:29-86 | every legacy table whose upgraded rules are all harmless keeps its meaning; they are all harmless if and only if each rule of the table keeps its meaning on its own |
| UpgradeMeaning.LegacyUpgradeMeans | translator/migrate.go:29-86 | what every legacy table means after the upgrade, whatever was guessed: address queries are decided as before, other queries as without the upgraded rules |
| UpgradeMeaning.LegacyKeepsMeaningExactly | translator/migrate.go:29-86 | so it keeps its meaning if and only if no query of another type needs an upgraded rule |
| UpgradeMeaning.LegacyRulesAreSafe | translator/migrate.go:91-126 | legacy rules are safe if and only if those that are upgraded are harmless and, after an evaluate, for address queries only |
| UpgradeMeaning.SafeWithLegacyAfter | translator/migrate.go:29-86 | harmless older rules for address queries may follow any safe table |
| UpgradeMeaning.MisclassifiedRuleChanges | translator/migrate.go:108-126 | for every upgraded rule that is not harmless: rule-sets that ignore the response where sing-box says they do, and a query that a table of this rule alone decides before the upgrade and not after it |
| UpgradeMeaning.UpgradeWakesResponseRules | translator/migrate.go:129-151 | which fails for a table that already has a match_response rule |
| Migrate.UpgradeIsConservative | translator/migrate.go:44-80 | original rules in order, changed only in match_response and query_type, each upgraded one right after an evaluate for its server, and nothing else but such evaluates |
| Migrate.UpgradeIdempotent | translator/migrate.go:29-86 | a second pass finds nothing to do |
| Migrate.LegacyRulesShareNoEvaluate | translator/migrate.go:169-182 | in a legacy table every upgraded rule gets its own evaluate |
| Migrate.LeftAlone | translator/migrate.go:128-151 | a rule stays as it is if it is none, is logical, has no server, looks at a response already, or names no rule-set of addresses |
| Migrate.Rewrites | translator/migrate.go:44-80 | any other rule gets an evaluate for its server in front that asks for A, AAAA and HTTPS, asks for a response, and is limited to these types unless it has its own |
| Migrate.Shares | translator/migrate.go:169-182 | unless the rule right before is an evaluate for the same server |
| Profiles.ProxyURLIdempotent | translator/rule.go:18-25 | prefixing every URL twice is prefixing it once if and only if the proxy does not start with the GitHub prefix |
| Profiles.ProxiedUrl | translator/rule.go:18-25 | a GitHub URL is put behind the proxy and one slash, however many the proxy ends with |
| Profiles.UnproxiedUrl | translator/rule.go:18-25 | any other URL stays, and without a proxy, or one of slashes only, all do |
| Profiles.ApplyRuleSetProxy | translator/rule.go:60-90 | rewrites exactly the URLs of the rule-set definitions |
| Profiles.ExtractStubTags | core/service.go:340-358 | finds the marks of the stubs in a configuration |
| Profiles.MarksAre | core/service.go:340-358 | a tag is marked if and only if a socks outbound of this tag at 127.0.0.1:1 has a user name that starts with unsupported:, and the last such outbound says which protocol |
| Profiles.StubsAre | translator/proxy.go:22-44 | the protocol reported for a name is that of the last proxy of this name without endpoint or of an unsupported protocol |
| Profiles.TranslateConfig | core/service.go:302-327 | what a start runs and reports, for a saved profile and for a Clash configuration |
| Profiles.RulesIgnoreProxy | core/service.go:302-327 | which rules of a saved profile are upgraded does not depend on the proxy |
| Profiles.RestartKeepsProfile | core/watchdog.go:181-195 | running the result of a start again changes no profile if and only if the proxy neither catches itself nor looks like a rule-set of addresses |
| Profiles.RestartKeepsTranslation | core/service.go:302-358 | a restart of a translated configuration keeps the text, and the reported stubs unless a proxy that is no stub looks like one, in both directions |
| Profiles.MarksAreStubsExactly | translator/proxy.go:93-102 | with distinct names the marks in the saved text are the stubs that were made if and only if no supported proxy imitates one |
| Profiles.ImitatorIsMarked | core/service.go:340-358 | a socks proxy that is reported as a stub after a restart |
| Text.SecondsToDuration | translator/proxy/common.go:134-153 | prints hours, minutes and seconds |
| Text.DurationReadsBack | translator/proxy/common.go:134-153 | what is printed reads back as the same number, largest unit first and no zero unit |
| Bandwidth.ReadBandwidth | translator/proxy/common.go:166-209 | reading a limit step by step, with multiplication that wraps at 64 bits |
| Bandwidth.Mbps | translator/proxy/common.go:200-208 | a limit with a unit always fits sing-box's field |
| Bandwidth.MbpsExact | translator/proxy/common.go:176-208 | while the bits fit 64 bits the result is the limit in Mbps rounded down, at least 1 and capped |
| Bandwidth.MbpsMonotone | translator/proxy/common.go:176-208 | and it grows with the limit |
| Bandwidth.UnlimitedExactly | translator/proxy/common.go:176-208 | when a limit becomes unlimited |
| Bandwidth.LimitReadsBack | translator/proxy/common.go:159-175 | every documented notation is read as number, power of ten and bits or bytes; what the letters are worth is stated by the next seven |
| Bandwidth.ReadsMega | translator/proxy/common.go:186-208 | n Mbps, in either case and with any blanks, is n, at most 2147483647, while the bits fit 64 bits |
| Bandwidth.ReadsGiga | translator/proxy/common.go:186-208 | n Gbps is 1000n, likewise |
| Bandwidth.ReadsTera | translator/proxy/common.go:186-208 | n Tbps is 1000000n, likewise |
| Bandwidth.ReadsKilo | translator/proxy/common.go:186-208 | n Kbps is n / 1000, but at least 1 |
| Bandwidth.ReadsBits | translator/proxy/common.go:186-208 | n bps is n / 1000000, but at least 1 |
| Bandwidth.ReadsMegabytes | translator/proxy/common.go:198-208 | n MBps is 8n, likewise |
| Bandwidth.ReadsBytes | translator/proxy/common.go:198-208 | with any letter n bytes are read as 8n bits |
| Bandwidth.SpaceAroundIsIgnored | translator/proxy/common.go:167-170 | white space around a limit does not matter |
| Bandwidth.OnlyLimitsAreRead | translator/proxy/common.go:171-184 | what is neither a 64-bit number nor digits, blanks and a unit is unlimited |
| Bandwidth.UnitlessIsTakenAsIs | translator/proxy/common.go:171-175 | a number without unit, with or without a sign, is taken as it is: neither capped nor checked for its sign |
| Bandwidth.HugeNumberIsUnlimited | translator/proxy/common.go:171-179 | unless it does not fit a signed 64-bit word |

## Left out

- sing-box itself, probing, timers and the network: a build succeeds or fails, a
  probe reports a delay or fails, a server answers, all as the run or the function
  given to a lemma says.
- Decoding of base64, YAML and JSON: input and saved profiles are trees already
  taken apart into the fields that are used; a profile that is no JSON, or whose
  fields have other types than expected, is outside the model.
- `Init` and its rollback, which stores the state unconditionally; the lifecycle
  starts where a successful Init ends. Starting and stopping the watchdog goroutine.
- A second Stop of the same instance that reports an error, logging, and events
  other than the places where the host is called back.
- Per-protocol fields of proxies: a proxy's translation is given, with the fields that
  matter later (kind, server, port, user name, ECH query name, detour).
- Cycles among outbounds: neither the code nor the model rules out that a proxy
  connects through itself or through a group that holds it.
- Wildcards of filter entries other than the star: the code takes `+.` and a leading dot
  as plain text, and so does the meaning the model gives to an entry.
- The test for a dead server address and the IP parser: a proxy entry says whether its
  server is dead, a name server whether its host is an address.
- Ports, paths, TLS options, client subnets and strategies of DNS servers, the ranges
  of fake-ip servers, and the addresses of hosts.
- The probe URL of url-test groups, and numbers written as floating point (intervals and
  tolerances are integers or missing).
- TUN, inbounds, logging and experimental settings: one-branch field maps.
- Country detection; the country is an input and already in lower case, and so are the
  schemes of name servers.
- The sorted order of the default groups' members, of the hosts and of the rule-set
  definitions: the model lists them in some order (hosts come sorted).
- Warnings, except that none is due for route rules: `Pipeline.TranslateFromConfig`
  states that every rule's outbound exists.
- Conditions of DNS rules on addresses of their own (`ip_cidr` and the like): where a
  rule-set is misclassified, conditions the translator never writes are taken to look at
  the query alone.
- Inverted conditions and logical rules inside logical rules. DNS rules of kind
  logical have no inner rules in the model.
- Conditions of rules the translator never writes are opaque, each true or false of a
  flow or query.
- Groups of survivors that only refer to each other stay in the output, as in the code;
  that a group leads to a working proxy is not claimed.
- Fairness: the lifecycle has no deadlock and a stop can always finish, but nothing is
  said about a scheduler that never lets a call move.
- GroupDelay starts once the group has been found; the empty answers before that are not
  modelled. A probe that outlives its deadline is not timed: measuring is one step.
