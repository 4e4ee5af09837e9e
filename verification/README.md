# StunDeck: a verified model of its stateful core

StunDeck publishes services of a private network: through NATMap and a router, or through Cloudflare. Most of its code
calls other programs. This project models the parts that carry state and algorithms of their own, with the network, the
database and the operating system turned into explicit state, and proves what those parts are for. `dafny verify
dfyconfig.toml` checks everything.

## What is modelled

* **The Cloudflare ownership protocol** (`Account`, `Contracts`, `Meaning`, `Steps`, `Faults`, `Plans`, `Runs`,
  `Recovery`, `Publisher`). The local ownership table and the remote account are two stores that change one call at a time.
  `Publishing.Publisher` is a class whose fields are the service rows, the table, the account and an oracle of faults; each remote call and each table write may be refused, may
  take effect and still report failure (a lost response), or may take effect without returning the new id. A crash is the
  case in which every later call is refused. `Account.Reconciled` is what every state keeps: recorded objects agree with
  their records, a `private_route` record comes with a tunnel record, a CNAME leads only to a tunnel that serves its host
  and ends in the 404 rule, a recorded Worker route leads only to a tagged script without alternative addresses, and DNS
  records, redirect rules and scripts are unique per hostname, ref and name. Every method of the class keeps it under
  every fault, so it holds at every point at which a run can be cut off. `trouble` counts the faults met, and `mishaps`
  the tunnel creations that were lost or could not be undone: `CreateTunnel` and `RecordTunnel` say under which faults it
  grows.
* **IP prefixes** (`Cidr`) and **complete inventories** (`Pagination`), on which the overlap check of private routes rests.
* **The connector engine under every interleaving** (`Engine`, `Router`, `Managing`). Each section under the manager's lock
  and each call to the router is one atomic step; a thread between two steps is part of the state. `Engine` has the steps
  and what they mean for the published addresses, `Router` what they mean for the entries on the router. The classes
  `Managing.Manager` and `Managing.QuickTunnelOutput` have the sections and the writer as methods over their fields, each
  equal to its step; the theorems speak about every sequence of steps.
* **Bytes**: the scanner for the Quick Tunnel address (`QuickTunnel`) and the STUN response parser (`Stun`).
* **The webhook queue** (`Webhooks`), **the fw4 rule chain** (`Firewall`) and **Access requests and policies** (`Access`).

`Basics` and `Text` hold shared notions. A statement `hide F` at the head of a proof keeps the definition of F out of it.

Reading the publisher's contracts: a plan lists the calls of an operation up to its first row, `Play` says how far it gets
under given faults and what it makes and saves on the way, and `Follows` that the two stores went there. `CanPublish` says
that no conflict stands in the way of a publication, `Published` that both stores show the service as published with a
given result (`Meaning` spells both out, mode by mode), `Swept` and `WithoutRows` are the account and the table without what the service owns, `Respects` says that
every changed object carried, and every new one carries, the service's evidence (tunnel name, DNS comment, Worker tag,
route pattern with script, route network with comment and tunnel, rule ref, recorded Spectrum id with hostname),
`Untouched` that objects without any such evidence of the services that act are what they were, and `Charged` that a
service was charged with at most one mishap, with none unless a fault was met. `trouble == old(trouble)` says that no
fault was met, and every contract says that this is so when the oracle holds none.

## Where the code does less than one might expect

* Not every entry that a process records is on the router. `Router.RecordedInstalledIff`: it is, together with those about
  to be recorded, at every moment of a run exactly when no removal addresses an entry that another process records or
  another `Apply` holds by then. `Router.LateRemoval` is a run that fails: `wait` unlinks an ended process, and removes its
  mapping only after the next process has recorded the same one.
* The router can leak. `Router.NoLeakIff`: no schedule leaks exactly when no service ever applies two mappings that differ
  in the control URL alone. `Router.MovedControlLeaks` is a leaking run for every such pair.
* A recorded address can be none. `QuickTunnel.TrimmedIff`: the pattern admits a form feed as terminator and the trim set
  lacks it, so the recorded text is a bare address exactly when the match does not end in one.
  `QuickTunnel.FormFeedIsRecorded` is a failing line for every address.
* Bytes past the declared body of a STUN message can decide the answer. `Stun.TrailingIff`: they can exactly when, before
  the first error, the walk over the attributes meets one that ends past the body, since attributes are bounded by the
  datagram. `Stun.BodyEndIgnored` is a failing message.
* Deleting a service can leave some of it in the account. After one publication of a service without rows,
  `Publishing.Publisher.PublishThenDelete`: it is deleted, and leaves an object, exactly when the plan of its publication
  saves no row and makes something (or something was there before). `Plans.DirectLeaves`, `Plans.RedirectLeaves` and
  `Plans.CreateLeaves` say under which conflicts and faults that is: for dns and proxy a new or changed record that is lost,
  or whose row is refused; for tunnel, warp and spectrum an abandoned create; `Plans.WorkerLeavesNothing`: never for workers.
  Without faults only a redirect leaves anything (`Plans.FaultFreeLeaves`): its entry record, when the origin hostname is
  taken. `Publishing.Publisher.Orphan` and `RedirectOrphan` are such runs. After a cleanup what stays can be told before
  (`CleanThenDelete`), and over whole runs a service that keeps to modes whose rows come first has no record that a
  cleanup would not sweep, and none without a row that holds back its deletion (`Run`).
* A lost create can block a service for good. `Publishing.Publisher.Recover` and `Recovery.RecoverIff`: cleanup and then
  publication succeed exactly when nothing foreign, and nothing that no row names, is in the way;
  `Recovery.LostRouteBlocks` and `Recovery.LostAppBlocks` are the states that lost creates leave.

## Model

| member | source | states |
|---|---|---|
| `Publishing.Publisher.Run` | internal/cloudflare/publisher.go:46-388 | any sequence of publications, cleanups, token requests, guarded updates and guarded deletions, with any faults: every invariant holds at the end; objects foreign to the services that act are untouched, what is added carries their evidence, and the rows of the others and what they have published, outside workers mode, are as before; private routes stay pairwise disjoint; the tunnels named for a service are at most its recorded one plus its mishaps, of which a run adds at most one for each attempt to publish that service, and none without a fault; a service that keeps to modes whose rows come first still has no record without a row and a mode that sweeps it |
| `Publishing.Publisher.Sync` | internal/cloudflare/publisher.go:52-94 | it succeeds in exactly the conflict-free states, unless a call fails; success leaves the published state, which can be published again; in a published state it changes nothing, whatever call fails; it touches only objects with the service's evidence |
| `Meaning.CanPublishIff` | internal/cloudflare/publisher.go:46-94 | what each mode needs besides the absence of conflicts: zone, account, hostnames in the zone, mapping, protocol, port and status |
| `Meaning.TunnelMeans` | internal/cloudflare/publisher.go:171-187 | a published tunnel has its name, the target behind the entry host, the 404 rule, and the only record of the hostname, a proxied CNAME |
| `Meaning.WarpMeans` | internal/cloudflare/private_network.go:43-90 | a published private network is routed to a tunnel that answers nothing else |
| `Meaning.DirectMeans` | internal/cloudflare/reconciler.go:144-187 | a dns or proxy publication is the only record of its hostname: A or AAAA, with the public address, proxied in proxy mode |
| `Meaning.RedirectMeans` | internal/cloudflare/reconciler.go:108-142 | the rule leads from the lower-case entry to the origin, or the address without one, with the status and flags of the service |
| `Meaning.SpectrumMeans` | internal/cloudflare/publisher.go:269-307 | the application of the entry leads to the mapped address and is the only one of its hostname |
| `Meaning.WorkersMean` | internal/cloudflare/workers.go:121-157 | the script carries the tag, forwards to the origin and has no other address; its route takes the whole entry host; the entry record is a proxied placeholder |
| `Meaning.RouteCoversIff` | internal/cloudflare/workers.go:53-59 | a route covers a hostname by the host of its pattern: after any scheme, before any path, in any case |
| `Meaning.GlobStar` | internal/cloudflare/workers.go:56-57 | a star takes a run of any length, and the rest of the pattern the rest of the text |
| `Meaning.GlobSplits` | internal/cloudflare/workers.go:56-57 | what stands before a star stands at the start of the text |
| `Meaning.HostInZoneIff` | internal/cloudflare/client.go:184-187 | in a zone is the zone itself or what ends in a dot and the zone |
| `Publishing.Publisher.Resync` | internal/cloudflare/publisher.go:52-94 | a second run after a success returns the same result and leaves both stores as they are |
| `Publishing.Publisher.Cleanup` | internal/cloudflare/publisher.go:310-388 | from every reachable state one run without faults succeeds; success removes exactly the service's rows and the objects they name, every record with its comment in the modes that sweep the zone, and nothing else; a failed run has removed only such objects |
| `Publishing.Publisher.TunnelToken` | internal/cloudflare/publisher.go:196-213 | the token is that of a tunnel that stands published for the service; it is had whenever no call fails and nothing conflicts |
| `Publishing.Publisher.UpdateService` | internal/httpapi/services.go:80-130 | refused exactly while the engine runs the service, and for changes of mode, entry, origin, DNS management or private network made while it owns a record, the move to a mode without hostnames included; every invariant survives the accepted ones |
| `Publishing.Publisher.DeleteService` | internal/httpapi/services.go:132-164 | a service goes exactly when it is there, is not running and owns no record; every invariant survives, and no record that leads to a tunnel carries its mark |
| `Publishing.Publisher.PublishThenDelete` | internal/cloudflare/publisher.go:52-94 | in every mode, from every valid state and under any faults: the service can be deleted exactly when it had no row and the plan saves none, and then something of it stays exactly when something was there or the plan makes something |
| `Publishing.Publisher.CleanThenDelete` | internal/cloudflare/publisher.go:310-388 | once a cleanup of a service with rows lets it be deleted, everything is swept, and something stays exactly when its mode leaves a mark unswept or an unrecorded tunnel carries its name, which could be told before |
| `Plans.DirectLeaves` | internal/cloudflare/publisher.go:81-93 | dns and proxy leave a record without a row exactly when nothing conflicts, the record is new or changed, and its write is lost or its row is refused |
| `Plans.RedirectLeaves` | internal/cloudflare/reconciler.go:51-106 | a redirect leaves something exactly when a record or the rule was written and then a conflict, a fault or a refused row came |
| `Plans.CreateLeaves` | internal/cloudflare/publisher.go:143-170 | tunnel, warp and spectrum leave an object exactly when all reads before the create succeed and it is lost, comes back without id, or is neither recorded nor undone |
| `Plans.WorkerLeavesNothing` | internal/cloudflare/workers.go:117-125 | workers write nothing before their first row |
| `Plans.FaultFreeLeaves` | internal/cloudflare/reconciler.go:58-72 | without a fault only a redirect leaves anything, exactly when its entry record is written and the origin is then in conflict, or no rule can be built |
| `Plans.SweptTraces` | internal/cloudflare/publisher.go:310-388 | what a complete cleanup leaves of a service, said about the stores before it |
| `Meaning.SweptMeans` | internal/cloudflare/publisher.go:322-379 | a complete cleanup removes exactly the objects that rows of the service name, and the records and rules with its marks in the modes that sweep them |
| `Publishing.Publisher.Recover` | internal/cloudflare/publisher.go:310-388 | without faults, a cleanup and then a publication succeed exactly from the recoverable states |
| `Recovery.RecoverIff` | internal/cloudflare/publisher.go:52-94 | in every mode, a swept service meets no conflict exactly when, before the cleanup, its hostnames had only its own records and no other route, application or unrecorded script stood in the way |
| `Recovery.LostRouteBlocks` | internal/cloudflare/private_network.go:66-84 | after a lost create of its route a WARP service is not recoverable |
| `Recovery.LostAppBlocks` | internal/cloudflare/publisher.go:239-258 | after a lost create of its application a Spectrum service is not recoverable |
| `Publishing.Publisher.Orphan` | internal/cloudflare/publisher.go:81-93 | a run of publication and deletion, with the row refused, after which the record of a dns or proxy service stays without it |
| `Publishing.Publisher.RedirectOrphan` | internal/cloudflare/reconciler.go:58-72 | a run without any fault after which the entry record of a redirect stays without its service |
| `Publishing.Publisher.Serve` | internal/cloudflare/publisher.go:46-388 | one operation on one service changes only that service's rows and the objects it has evidence for, keeps private routes disjoint, and charges at most that service with at most one mishap, none for a cleanup |
| `Publishing.Publisher.SyncPublicTunnel` | internal/cloudflare/publisher.go:121-188 | public tunnels: success exactly without conflict; the tunnel serves only the entry host and the CNAME leads to it; nothing changes when it stood already |
| `Publishing.Publisher.AcquireTunnel` | internal/cloudflare/publisher.go:143-170 | the tunnel is read back by its record or created and recorded, and an already recorded one changes nothing; the mishaps grow exactly when there was no record and the creation was lost, or its record could not be saved and the undo was not confirmed |
| `Publishing.Publisher.CreateTunnel` | internal/cloudflare/publisher.go:158-164 | a creation yields an id exactly when no fault occurred; the mishaps grow exactly when the tunnel exists and no id came back, that is for a lost response or one without id |
| `Publishing.Publisher.RecordTunnel` | internal/cloudflare/publisher.go:165-169 | success is exactly the absence of faults; the mishaps grow exactly when the record cannot be saved and the undo is not confirmed, two faults; after a confirmed undo the tunnel is gone; the row names the tunnel and the entry host |
| `Publishing.Publisher.PublishHost` | internal/cloudflare/publisher.go:171-187 | success leaves ingress and CNAME in place, and at no point, whatever fails, does the CNAME lead to a tunnel without the ingress |
| `Publishing.Publisher.OwnedDns` | internal/cloudflare/reconciler.go:152-166 | it answers exactly when the hostname has no record or a single one of the service |
| `Publishing.Publisher.EnsureRecord` | internal/cloudflare/reconciler.go:168-187 | the record stands afterwards; it succeeds exactly when the hostname is free or ours with the same type; other hostnames and a record that stands already are left alone |
| `Publishing.Publisher.SyncWarp` | internal/cloudflare/private_network.go:43-90 | private networks: success exactly when the network is allowed and no other route overlaps; disjoint routes stay disjoint under every fault |
| `Publishing.Publisher.CheckRoutes` | internal/cloudflare/private_network.go:53-76 | the loop over the complete inventory accepts exactly when the recorded route is as it was made and every other route can be read and does not overlap |
| `Publishing.Publisher.SyncRedirect` | internal/cloudflare/reconciler.go:51-106 | redirects: the rule with the service's ref stands once, its record names it, and a rule that stands is not changed |
| `Publishing.Publisher.EnsureRule` | internal/cloudflare/reconciler.go:73-105 | the one rule with the ref is created, replaced or left as it is; under every fault there is at most one |
| `Publishing.Publisher.SyncSpectrum` | internal/cloudflare/publisher.go:230-308 | Spectrum: success exactly when no other application or DNS record holds the hostname; whatever fails, the recorded application keeps its IP firewall, edge addresses, smart routing and traffic type, and a proxy protocol or TLS mode that was set; on success unset ones are off, and a new application has the defaults |
| `Publishing.Publisher.PutApp` | internal/cloudflare/publisher.go:269-302 | an update keeps the settings of the recorded application, whatever fails |
| `Publishing.Publisher.SyncWorker` | internal/cloudflare/workers.go:61-157 | Workers: success exactly without a foreign script, route or record in the way; it leaves the tagged script closed to other addresses, both records and the one route; nothing changes when they stood already |
| `Publishing.Publisher.CheckWorker` | internal/cloudflare/workers.go:70-116 | the read-only checks accept exactly the states in which the script and the routes are the service's or free |
| `Publishing.Publisher.CleanRows` | internal/cloudflare/publisher.go:322-360 | routes before the script and the tunnel: without faults every object a row names is gone, and a missing object does not stop the loop |
| `Publishing.Publisher.CleanDns` | internal/cloudflare/publisher.go:367-379 | the sweep removes exactly the records with the service's comment |
| `Publishing.Publisher.DropRows` | internal/cloudflare/publisher.go:380-386 | rows go in an order that keeps every invariant if it stops half way |
| `Steps.TunnelConfigured` | internal/cloudflare/publisher.go:171-180 | a configuration that serves only the entry host keeps every invariant, CNAMEs included |
| `Steps.ScriptPut` | internal/cloudflare/workers.go:128-140 | an upload or subdomain setting that keeps the tag and opens no other address keeps every invariant of every service |
| `Steps.ScriptDropped` | internal/cloudflare/workers.go:203-210 | a script may go only once its recorded route is gone |
| `Steps.RecordCreated` | internal/cloudflare/reconciler.go:168-187 | a record for a hostname without one keeps hostnames unique, and a CNAME may only lead to the recorded tunnel that serves the host |
| `Steps.RecordPatched` | internal/cloudflare/reconciler.go:176-186 | so does the patch of the service's own record |
| `Steps.StrayAfterCreate` | internal/cloudflare/publisher.go:158-164 | a lost creation adds at most one unrecorded tunnel, for that service alone |
| `Steps.StraysKept` | internal/cloudflare/publisher.go:143-170 | steps that keep recorded tunnels recorded add no unrecorded one |
| `Steps.NamedBound` | internal/cloudflare/publisher.go:143-170 | tunnels named for a service are at most the recorded live one plus its mishaps |
| `Steps.ClearRouteKeepsDisjoint` | internal/cloudflare/private_network.go:58-78 | a route that passed the overlap check claims no address of another route |
| `Steps.RouteFound` | internal/cloudflare/private_network.go:57-88 | a route just made and recorded is the one the next check finds |
| `Runs.BystanderStands` | internal/cloudflare/publisher.go:52-388 | what a service has published, in any mode but workers, still stands with the same result after other services have acted |
| `Runs.ServeAccounts` | internal/cloudflare/workers.go:117-157 | an operation on one service keeps the records and rows of every service accounted for |
| `Account.NamesInjective` | internal/cloudflare/publisher.go:119 | tunnel names, DNS comments and Worker tags determine the service |
| `Cidr.PrivateNetwork` | internal/cloudflare/private_network.go:22-41 | the early returns and the loop over the allowed ranges compute the specified choice |
| `Cidr.ChoiceIff` | internal/cloudflare/private_network.go:22-41 | accepted exactly: a private target with no network, or a canonical block that holds the target and lies wholly inside one private range |
| `Cidr.ChosenBlock` | internal/cloudflare/private_network.go:27-38 | an accepted block is masked, holds the target and lies in a private range; an empty network denotes exactly the target |
| `Cidr.BlockIsAlignedRun` | internal/cloudflare/private_network.go:30-38 | a prefix denotes an aligned run of 2^(width-bits) addresses |
| `Cidr.InsideIff` | internal/cloudflare/private_network.go:34-38 | the test "at least as long, and starting in it" decides inclusion of address sets |
| `Cidr.RangesValid` | internal/cloudflare/private_network.go:24-36 | the four allowed ranges hold exactly the addresses that IsPrivate accepts |
| `Cidr.PrivateIntervals` | internal/cloudflare/private_network.go:24-36 | the private and the IPv4-mapped addresses as intervals |
| `Cidr.NestedOrDisjoint` | internal/cloudflare/private_network.go:66-72 | any two blocks are nested or disjoint |
| `Cidr.OverlapsIffMeet` | internal/cloudflare/private_network.go:66-72 | the overlap test is true exactly when the two address sets meet |
| `Pagination.ListAll` | internal/cloudflare/client.go:158-176 | all items in order or an error, never a proper prefix; an error exactly when the budget of 1000 pages is exceeded or a needed page fails |
| `Pagination.PageStep` | internal/cloudflare/client.go:164-173 | the stop test is met exactly on the last page, and then everything has been collected |
| `Pagination.LastPageInBudget` | internal/cloudflare/client.go:164-175 | the last page is within the budget exactly up to 1000k items, or one less when the server does not count pages |
| `Router.NoLeak` | internal/engine/natmap.go:133-206 | for every interleaving: once no thread is in flight, each router entry is recorded by a running process, and with no process the router is clean |
| `Router.NoLeakIff` | internal/engine/gateway.go:103-161 | no schedule over a set of applied mappings leaks exactly when no two of them differ in the control URL alone |
| `Router.RunKeepsLedger` | internal/engine/gateway.go:53-161 | at every moment of every interleaving each entry is recorded, held by an Apply or owed a removal |
| `Router.NextKeepsLedger` | internal/engine/gateway.go:103-120 | each atomic step keeps every router entry answered for |
| `Router.RecordAnswers` | internal/engine/gateway.go:103-120 | recording a mapping passes on the entry it holds and owes the removal of the one it replaces |
| `Router.UnlinkAnswers` | internal/engine/natmap.go:133-206 | a process taken out of the map passes its mapping to the thread that took it |
| `Router.RemoveAnswers` | internal/engine/natmap.go:148-153 | a removal gives up exactly the entries it takes off the router |
| `Engine.AddressIsCurrent` | internal/engine/quick_tunnel.go:81-91 | for every interleaving before shutdown, whatever mappings are applied: a row's address was printed by the very command the map holds |
| `Engine.RunKeepsUrls` | internal/engine/quick_tunnel.go:81-91 | so it is over any run from any state in which it holds |
| `Engine.SupersededIsInert` | internal/engine/natmap.go:183-190 | at every point of every run after a command has been superseded, its end and its late output leave the map and every row as they are |
| `Engine.RunSupersedes` | internal/engine/natmap.go:183-190 | a superseded command never becomes current again |
| `Router.LateRemoval` | internal/engine/natmap.go:183-206 | a concrete schedule, with a removal of `wait` that comes late, in which a recorded entry is not installed |
| `Router.InstalledIff` | internal/engine/natmap.go:142-206 | over one atomic step, recorded and held entries stay on the router exactly when the step does not remove one of them |
| `Router.RecordedInstalledIff` | internal/engine/natmap.go:142-206 | over every run: recorded and held entries are on the router at every moment exactly when no removal addresses one that is claimed by then |
| `Router.MovedControlLeaks` | internal/engine/gateway.go:116-120 | every pair of mappings of one service that differ in the control URL alone has a schedule that leaks |
| `Managing.Manager.Start` | internal/engine/natmap.go:91-126 | a process is inserted unless one runs, and its row says discovering, tunnel_running or tunnel_starting; a connector whose row cannot be saved is taken out again |
| `Managing.Manager.Stop` | internal/engine/natmap.go:133-156 | the process leaves the map, its row says stopped without address, and its mapping is owed a removal |
| `Managing.Manager.StopAll` | internal/engine/natmap.go:158-174 | the loop collects exactly the processes of the map, which is empty afterwards |
| `Managing.Manager.Wait` | internal/engine/natmap.go:183-206 | only the current command is taken out of the map, and its row says error without address unless it was cancelled |
| `Managing.Manager.Record` | internal/engine/gateway.go:103-120 | the mapping goes to the running process or is owed a removal, and so is a replaced one that differs in the named fields |
| `Managing.DifferIff` | internal/engine/gateway.go:152-161 | at one gateway with one control URL a replaced mapping is removed exactly when its router entry is not that of the new one |
| `Managing.Manager.Remove` | internal/engine/natmap.go:148-173 | one removal outside the lock: the UPnP entry of the mapping that is owed, or that the unlinked process holds by then |
| `Managing.Manager.Report` | internal/engine/quick_tunnel.go:80-91 | the current, uncancelled command, if the save succeeds, sets the address of its row and the status tunnel_running; no other changes a row |
| `Managing.Manager.Perform` | internal/engine/natmap.go:91-206 | each section and router call keeps every entry answered for, addresses current and unlinked processes apart |
| `Managing.Manager.Run` | internal/engine/natmap.go:91-206 | any sections and router calls in any order are the steps of the engine one after the other, and keep that; with nothing in flight and control URLs that do not move the router holds recorded entries alone |
| `Managing.PublishedIsLeftmost` | internal/engine/quick_tunnel.go:68-97 | however a command's output is cut and whatever the engine does in between: while the map holds the command, the address in its row can only be that of the leftmost match in the complete lines of all it has printed |
| `Managing.LeftmostIsPublished` | internal/engine/quick_tunnel.go:68-97 | and when saves succeed and nothing else clears the row, that address is there, and without a match the row keeps the one it had |
| `QuickTunnel.ChunkingIsInvisible` | internal/engine/quick_tunnel.go:68-97 | however the output is cut into writes, with tails of at most 8192 bytes, the recorded address is that of the leftmost match in the complete lines of the whole stream |
| `QuickTunnel.RecordedWasPrinted` | internal/engine/quick_tunnel.go:68-97 | for every stream, cut and truncated in any way, a recorded address was matched in the stream's complete lines |
| `QuickTunnel.BufferBounded` | internal/engine/quick_tunnel.go:93-95 | for every stream the buffer stays within 8192 bytes |
| `Managing.QuickTunnelOutput.Write` | internal/engine/quick_tunnel.go:68-97 | all data is consumed; the first write with a match, of the command the engine holds uncancelled and with a successful save, puts the trimmed address and tunnel_running into the row, and no other write changes a row |
| `QuickTunnel.MatcherDecides` | internal/engine/quick_tunnel.go:17 | the explicit matcher decides the language of the pattern, and a match is determined by its start |
| `QuickTunnel.AddressIff` | internal/engine/quick_tunnel.go:17 | the addresses and terminators of the pattern in plain terms |
| `QuickTunnel.FindIsLeftmost` | internal/engine/quick_tunnel.go:78 | the search returns the leftmost match and misses none |
| `QuickTunnel.FindSplit` | internal/engine/quick_tunnel.go:75-79 | no match crosses a line end, so lines can be searched one after the other |
| `QuickTunnel.TrimmedIff` | internal/engine/quick_tunnel.go:81 | trimming a match leaves a bare address exactly when it does not end in a form feed |
| `QuickTunnel.TrimRightIs` | internal/engine/quick_tunnel.go:81 | trimming takes exactly the trailing characters of the cutset |
| `QuickTunnel.FormFeedIsRecorded` | internal/engine/quick_tunnel.go:81 | for every address, a line that ends it with a form feed is recorded with the form feed and is no address |
| `Stun.RoundTrip` | internal/engine/diagnostics.go:493-539 | every encoded success response, with any unknown attributes, padded with any bytes to a multiple of four, and with any trailing bytes, parses as meant: the last XOR-MAPPED-ADDRESS or else the first MAPPED-ADDRESS, and the last OTHER-ADDRESS |
| `Stun.SampleParses` | internal/engine/diagnostics.go:493-577 | the sample IPv4 response of RFC 5769, byte by byte, with a padded attribute and a masked address |
| `Stun.PaddingAligns` | internal/engine/diagnostics.go:533 | attributes begin at multiples of four |
| `Stun.AddressUndone` | internal/engine/diagnostics.go:541-577 | address encoding, masking included, is exactly undone |
| `Stun.ParseResponse` | internal/engine/diagnostics.go:493-539 | total on arbitrary bytes: no index leaves the datagram, the loop ends, the result is the specified one, and each refusal before the attributes comes exactly from its own bytes |
| `Stun.ParseAddress` | internal/engine/diagnostics.go:541-577 | the in-place masking loops compute the specified address, and each refusal comes exactly from its length or family byte |
| `Stun.EqualBytes` | internal/engine/diagnostics.go:690-699 | the OR of all XORs is zero exactly for equal contents |
| `Stun.SuccessIsOwn` | internal/engine/diagnostics.go:494-537 | a success echoes the transaction and has a mapped address |
| `Stun.BindingUdp` | internal/engine/diagnostics.go:644-671 | a result comes from the first datagram that answers the own transaction; all before it were mismatches |
| `Stun.CollectedMeans` | internal/engine/diagnostics.go:517-532 | the rule of the loop, first MAPPED-ADDRESS unless an XOR-MAPPED-ADDRESS comes, means the stated choice |
| `Stun.BodyEndIgnored` | internal/engine/diagnostics.go:509-516 | bytes past the declared body can decide what a malformed response says |
| `Stun.TrailingIff` | internal/engine/diagnostics.go:509-516 | for a response with a matching header, the answer is the same under every trailing bytes exactly when the attribute walk meets no attribute that ends past the declared body before its first error |
| `Stun.BodyAlone` | internal/engine/diagnostics.go:509-516 | without such an attribute, trailing bytes do not matter |
| `Stun.OverrunDecides` | internal/engine/diagnostics.go:509-516 | with one, the datagram that ends with its body is refused as truncated, and long enough trailing bytes change the answer |
| `Webhooks.Dispatcher.Run` | internal/webhook/dispatcher.go:113-145 | a delivery whose time has come, with r others that may go first, is attempted within r/20 + 1 rounds, whatever succeeds, fails or arrives, unless its webhook is deleted; once accepted it is in no later batch |
| `Webhooks.Dispatcher.DeliverPending` | internal/webhook/dispatcher.go:126-145 | a round takes the 20 earliest; an attempt succeeds exactly when the endpoint accepts and its webhook is still there; an accepted delivery is delivered, a refused one counts one attempt more and is due again at least two seconds after it; one passed over is unchanged and has 20 fewer ahead |
| `Webhooks.Dispatcher.PendingDeliveries` | internal/store/webhooks.go:116-157 | due deliveries, earliest first, and none is left out below the limit |
| `Webhooks.Dispatcher.Enqueue` | internal/webhook/dispatcher.go:46-64 | the loop over the listing queues one delivery for each enabled webhook, as QueuedMeans spells out |
| `Webhooks.QueuedMeans` | internal/store/webhooks.go:96-114 | one new delivery for each enabled webhook, due at once, and what was queued is unchanged |
| `Webhooks.DelayGrows` | internal/webhook/dispatcher.go:134-138 | a delay is at least two seconds and never shrinks with further attempts |
| `Webhooks.DelaySchedule` | internal/webhook/dispatcher.go:134-138 | two seconds, doubling up to 256, and a day from the tenth failure on |
| `Webhooks.PassedOver` | internal/store/webhooks.go:120-125 | a due delivery outside a batch has a full batch ahead of it |
| `Webhooks.RetryWaits` | internal/webhook/dispatcher.go:133-141 | a failed attempt puts its delivery behind every one whose time has come |
| `Webhooks.FateAfterSettle` | internal/webhook/dispatcher.go:132-144 | what one outcome means for any other delivery and for the attempted one |
| `Firewall.Firewall.Run` | internal/engine/firewall.go:121-158 | any applies and removals, with any failures: if each service has rules for at most one protocol and port, it has at every moment, whatever the comments say; and comments that tell the truth keep doing so |
| `Firewall.Firewall.Apply` | internal/engine/firewall.go:121-150 | accepted exactly for a text that names tcp or udp and a port in range; success means the wanted comment alone is there and, in a truthful chain, a rule for exactly that port and protocol; other rules keep their order even on failure; applied again it changes nothing |
| `Firewall.ProtocolSpells` | internal/engine/firewall.go:77-87 | the accepted texts are tcp and udp in any case between white space, and each means itself |
| `Firewall.TokensShared` | internal/engine/firewall.go:92-108 | services with plain ids share a token exactly when the ids agree in the first twelve characters |
| `Firewall.CommentSample` | internal/engine/firewall.go:110-119 | a comment as it stands in the chain |
| `Firewall.Firewall.Prune` | internal/engine/firewall.go:160-180 | only rules under the prefix without the wanted comment go |
| `Firewall.Firewall.DeleteList` | internal/engine/firewall.go:190-203 | every handle is tried, and success means all are gone |
| `Firewall.Firewall.Find` | internal/engine/firewall.go:205-247 | the handles of the matching rules, in chain order |
| `Firewall.Firewall.Remove` | internal/engine/firewall.go:152-158 | the rules with the comment go, and the others keep their order |
| `Firewall.PrefixFree` | internal/engine/firewall.go:106-108 | a comment starts with the prefix of one token only |
| `Firewall.CommentsInjective` | internal/engine/firewall.go:110-119 | a comment determines token, protocol and port |
| `Firewall.CommentToken` | internal/engine/firewall.go:92-104 | the builder loop keeps exactly the admitted characters |
| `Firewall.OutsideKept` | internal/engine/firewall.go:190-203 | deleting rules under a prefix keeps the order of the others |
| `Firewall.InsertEffect` | internal/engine/firewall.go:142-149 | inserting for a service without rules keeps one port per service, also for every other token |
| `Access.MatchesPolicy` | internal/cloudflare/access.go:304-328 | true exactly for one allow policy without exclude or require whose include rules are the e-mails in some order |
| `Access.AllFound` | internal/cloudflare/access.go:312-327 | as many different listed addresses as there are in the list are all of them |
| `Access.BadRule` | internal/cloudflare/access.go:313-325 | a rule that is no e-mail rule, or whose address is foreign or repeated, breaks the permutation |
| `Access.EmailOfIff` | internal/cloudflare/access.go:313-325 | a rule names an address exactly when "email" is its only key and leads to it |
| `Access.ValidateRequest` | internal/cloudflare/access.go:83-110 | accepted exactly for a plain hostname, 1 to 50 valid addresses and one of the four durations or none; the result has the normal hostname, each address once, and 24h for no duration |
| `Access.ValidTwice` | internal/cloudflare/access.go:83-110 | validation is idempotent |

## Left out

- Publishing.Publisher.Run: one connection and one zone; services of other connections own other rows and are not in the model.
- Publishing.Publisher.Cleanup: a fault is never a 404 for an object that exists, so a spurious "not found" is not among the faults.
- Publishing.Publisher.SyncWorker: the script name is an injective digest of the service id, where the code cuts a SHA-256 digest; a script upload leaves the subdomain setting unchanged.
- Runs.BystanderStands: workers publications also speak of the patterns of all other routes, and are not covered; a redirect needs a ref, and a spectrum service a recorded application, that no acting service shares.
- Publishing.Publisher.EnsureRule: a reply to the write of a rule that lacks its id counts as a failure, where the code records and returns the rule set with an empty rule id.
- Publishing.Publisher.PublishThenDelete: routes, applications and scripts carry no mark that a table without rows could be held against; they count when they are new.
- Publishing.Publisher.SyncRedirect: refs replace `-` by `_`, so two services whose ids differ only there share a ref, and each then counts as an owner of the rule.
- Publishing.Publisher.Rows: the order in which the database returns rows is left open, so the order of cleanup is any one that respects the priorities.
- Router.NoLeak: UPnP only, since the renewals of NAT-PMP and firewall mappings act outside the lock and can put a removed one back; additions, verifications and removals are assumed to succeed, so an addition whose verification fails is not covered.
- Engine.AddressIsCurrent: row writes of Stop and wait are assumed to succeed; NATMap's `discovering` write after the lock is taken together with the start.
- QuickTunnel.ChunkingIsInvisible: tails longer than the buffer are covered only by RecordedWasPrinted and BufferBounded.
- Webhooks.Dispatcher.Run: times are integers and writes of the queue succeed; the text comparison of stored times is not modelled.
- Firewall.Firewall.Run: applies are one after the other, and two services with the same 12-character token share a prefix.
- Access.ValidateRequest: lower case and white space are those of ASCII, and address parsing is a parameter.
- A concurrent outsider who changes the account between two calls.
- The calls of SaveAccess and DeleteAccess, and the capability report they start from; Access records are only shown to survive.
- HTTP, JSON, SOAP, SSDP, SQL, processes, sockets, encryption and the front end.
- IPv6 zone identifiers, virtual networks, plan limits, diagnostics text and NAT type classification.
