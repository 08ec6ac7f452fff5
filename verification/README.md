# A verified model of the cloud inventory

This project models the logic of a tool that walks through an AWS, Azure or GCP
account with read-only calls and writes what it finds into one inventory file.
The calls to the clouds themselves are outside the model; what is done with
their answers is inside. `dafny verify dfyconfig.toml` checks everything.

## What is modelled

- **Text and patterns.** `Text` (ASCII strings as Python's `str` methods see
  them), `Patterns` (a pattern language, what its patterns mean, and the
  backtracking matcher proved against that meaning), `Stripping` (`sub` with an
  empty replacement), `Secrets` (the 19 rules, the strip and the scan),
  `SecretShapes` (what each rule looks for, in positions of the text),
  `RuleMeanings` (each pattern finds just that) and `ScanReport` (so the scan
  reports just those names).
- **The writer and its file.** `Tags` (the suppression tags), `Writer` (the
  accumulator as a class; every method also appends the call to the ghost field
  `history`, and the fields are always what that history amounts to), `Json`
  (`json.dumps`, and a reader) and `InventoryFile` (the lines of the file and
  how they read back).
- **Concurrency and isolation.** `Pool` (the thread pool as a step system, and
  a method that makes its moves in any order), `ParallelWrite` (parallel reads
  before sequential writes, in `account.py` and `user.py`) and `RunLoop` (the
  fault-isolating orchestration of `aws`).
- **Redaction.** `EnvRedaction` and `MapRedaction` (what becomes of ECS
  definitions, CodeBuild projects, Lambda environments and instance metadata),
  `LiveRecords` (the same on live dicts, shared in any way) and `ContainerApps`
  (an in-place scrub whose objects may be shared).
- **Ids, references and the graph.** `AzureIds`, `AzureVm`, `AzureGraph`,
  `GcpRefs`, `GcpNetworks`, `GcpClusters`, and `Graph` (which resources a
  stretch of writer calls records, and whether its edges end among them).
- **Loops against a server.** `Cursors`, `Batches`, `LambdaRoles` (two caches
  in front of two lookups) and `SecurityGroups`.

An exception is a `Result` or, where it leaves a module, an `Option` holding its
message. A cloud call is a function handed in: it may answer anything, or fail,
and where a loop depends on the server's order or paging, that is stated as a
predicate of the function (`Serves`, `ServesZone`, `Describes`, `Lists`). A
method that models a `gather` says which calls it makes on the writer:
`writer.history == old(writer.history) + ...`; lemmas then say what those calls
amount to: those called `...Exact` give every record, edge and error they leave,
spelled out.

## Where documentation and code differ

- The tag convention asks for the value `true`; the code also trims white space
  around it (`Tags.FullSuppressionExact`).
- IAM accepts a policy whose `Statement` is a single object. The admin check
  then iterates over the object's keys and raises: a role is reported as unknown
  if such a document comes before every other admin policy, even one that grants
  everything, and its answer is right otherwise (`LambdaRoles.OrdinaryRoleExact`,
  `LambdaRoles.OrderMatters`).
- `resource_group` reads the first `/resourceGroups/` of an id, so a
  subscription of that name shadows the real group (`AzureVm.GroupLockNeedsName`),
  and `extract_subnet_region` likewise for a project named `regions`
  (`GcpRefs.ProjectNamedRegions`).
- A lock's scope that ends like the lock marker without its last slash is not
  recovered (`AzureIds.LockIdOverlapExample`).

## Model

| member | source | states |
|---|---|---|
| Pool.StepKeepsInv | lensix_inventory/common/concurrency.py:24-37 | every move of the pool (submit, take, finish, collect, close) keeps the invariant: at most `workers` items in flight, results collected are a prefix of the true ones, an exception is only ever that of the next uncollected item |
| Pool.RunsAreSafe | lensix_inventory/common/concurrency.py:24-37 | along every run of the pool, however its moves interleave, the invariant and the bound on items in flight hold, and no run is longer than 5n + 4 states |
| Pool.SomeMoveEnabled | lensix_inventory/common/concurrency.py:36-37 | until the pool is closed some move is always possible, so it cannot get stuck |
| Pool.ParallelMapIsSerial | lensix_inventory/common/concurrency.py:24-37 | a call may end in a given way if and only if that is how the serial loop `[fn(i) for i in items]` ends: the same list in item order, or the exception of the lowest failing item; no pool is built for an empty list, and a pool of no threads raises |
| Pool.ParallelMap | lensix_inventory/common/concurrency.py:24-37 | the pool executed with an arbitrary enabled move at each step: it terminates, and returns what the serial loop returns |
| Pool.CallsAreBounded | lensix_inventory/common/concurrency.py:36 | the pool has the smaller of `max_workers` and the number of items as its size, and never more items in flight than either |
| Patterns.EndsExact | lensix_inventory/common/secrets.py:14-34 | for every pattern, text and position, the backtracking matcher lists an end if and only if the meaning of the pattern allows a match up to it |
| Patterns.SearchIsLeftmost | lensix_inventory/common/secrets.py:52 | `search` returns a real match at the leftmost position that has one, and None only when there is none |
| Patterns.FoundExact | lensix_inventory/common/secrets.py:52 | `bool(pattern.search(t))` holds if and only if some stretch of the text matches |
| Patterns.RunIsGreedy | lensix_inventory/common/secrets.py:14-34 | a repeated character class matches the longest run it may, when that is long enough |
| Patterns.LocalMoves | lensix_inventory/common/secrets.py:41 | a match of a pattern without a word boundary depends only on the characters it covers |
| Patterns.AvoidsExact | lensix_inventory/common/secrets.py:41 | a pattern whose parts exclude a class of characters never matches text that holds one |
| Stripping.OnePass | lensix_inventory/common/secrets.py:41-51 | for any pattern made of a delimiter-free head and a greedy run up to a delimiter: `sub` cuts out whole matches and keeps every other character in order, leaves no match even across a seam, and is idempotent |
| Secrets.StripIsOnePass | lensix_inventory/common/secrets.py:41-51 | the wait-condition pattern is such a pattern, so the strip is complete in one pass |
| Secrets.ScanExact | lensix_inventory/common/secrets.py:44-52 | the scan returns exactly the names of the rules whose pattern has a match in the stripped text, in table order and none twice |
| Secrets.NoRuleMatchesEmpty | lensix_inventory/common/secrets.py:49-50 | none of the 19 patterns matches the empty text, so the early return agrees with the scan |
| ScanReport.ReportedExact | lensix_inventory/common/secrets.py:14-52 | name by name, for all 19: the name is reported if and only if the text without its wait-condition URLs has the shape that `SecretShapes` spells out for it in positions of the text |
| ScanReport.ReportInOrder | lensix_inventory/common/secrets.py:14-52 | nothing but these names is reported, each at most once and in the order of the table |
| ScanReport.StripMeaning | lensix_inventory/common/secrets.py:41-51 | the strip drops, at each place where `http://` or `https://` and the wait-condition host stand in any casing with something after, everything up to the next space, and keeps the rest |
| RuleMeanings.AssignmentRules | lensix_inventory/common/secrets.py:15-19 | what the three unquoted assignment rules find, in terms of positions in the text: a name in any casing, optional space, `=` or `:`, optional space, one more character |
| RuleMeanings.AzureClientSecretIsOneName | lensix_inventory/common/secrets.py:19 | the `azure_` alternative of that rule never changes its outcome |
| RuleMeanings.WordTokenMeaning | lensix_inventory/common/secrets.py:22-28 | between word boundaries, a run of word characters is the whole rest of its word |
| RuleMeanings.WholeWordRules | lensix_inventory/common/secrets.py:22-28 | GitHub, Stripe and Twilio keys are reported if and only if they fill a whole word of an allowed length; a longer word is no hit |
| Tags.ShapesAgree | lensix_inventory/common/output.py:121-150 | one mapping handed over as a flat dict or in any of the three list shapes parses to the same suppression, the last duplicate winning |
| Tags.FullSuppressionExact | lensix_inventory/common/output.py:153-167 | full suppression if and only if the tag reads `true` in any casing with only white space around it |
| Tags.ParsedIdsAreIds | lensix_inventory/common/output.py:163-167 | every parsed check id is trimmed, non-empty and free of hyphens |
| Tags.JoinedIdsParse | lensix_inventory/common/output.py:163-167 | joining any such ids with `-` and parsing the result gives exactly those ids |
| Tags.ReprintedTagParses | lensix_inventory/common/output.py:153-167 | printing the sorted ids of a parsed tag and parsing again gives the same ids |
| Tags.TagsByName | lensix_inventory/common/output.py:153-167 | the ids joined under `lensix-suppress-checks` are the suppressed check ids, and there are none without that tag |
| Tags.EntryFields | lensix_inventory/common/output.py:121-150 | of the three fields an entry may hold its key or its value in, the first that has one counts |
| Text.SortUniqueOfSameSet | lensix_inventory/common/output.py:163-221 | only the set of elements matters to `sorted` of a frozenset |
| Writer.InventoryWriter.constructor | lensix_inventory/common/output.py:174-183 | a new writer holds nothing |
| Writer.InventoryWriter.AddResource | lensix_inventory/common/output.py:185-258 | the whole new state after the call, what it returns, and the record it appends |
| Writer.InventoryWriter.AddEdge | lensix_inventory/common/output.py:260-290 | appends the edge, unvalidated, and changes nothing else |
| Writer.InventoryWriter.AddError | lensix_inventory/common/output.py:292-297 | appends the error and changes nothing else |
| Writer.ApplyKeepsInv | lensix_inventory/common/output.py:185-297 | every call keeps: each type is counted once and as often as it was recorded, counts sum to the number of records, the regions are the non-empty regions of the records |
| Writer.ReachableInv | lensix_inventory/common/output.py:299-334 | that invariant holds after any sequence of calls |
| Writer.Conservation | lensix_inventory/common/output.py:185-334 | after any sequence of calls the records, edges and errors are what the calls handed in, in order, less the fully suppressed resources, and resource calls = records + full-suppression notes |
| Writer.NotesExact | lensix_inventory/common/output.py:211-224 | one suppression note, with the sorted ids, for each resource call whose tags suppress it or some of its checks |
| Writer.StampExact | lensix_inventory/common/output.py:226-240 | an accepted dict carries exactly its sorted check ids under `_SuppressedCheckIds` and is otherwise unchanged; without ids, or for a value that is no dict, nothing is injected |
| Writer.Sorted | lensix_inventory/common/output.py:344 | `sorted` of a set: strictly increasing, with exactly the set's elements |
| Writer.InventoryWriter.Write | lensix_inventory/common/output.py:336-357 | the text written is one line each for the manifest, then every record, edge and error in order, with the regions sorted; the manifest is returned |
| Json.RoundTrip | lensix_inventory/common/output.py:351-357 | for every well-formed value, reading what `json.dumps` writes gives the value back, including escapes and surrogate pairs (section 7 of RFC 8259) |
| Json.DumpsPrintable | lensix_inventory/common/output.py:351-357 | what is written is printable ASCII, so one line whatever the strings hold |
| Json.PutGet | lensix_inventory/common/output.py:226-240 | assigning a dict key sets that key and leaves every other as it was |
| InventoryFile.FileRoundTrip | lensix_inventory/common/output.py:336-357 | for every reachable writer over JSON-native values: the first line is the manifest, there are 1 + records + edges + errors lines, and splitting the others by `kind` returns records, edges and errors exactly and in order |
| InventoryFile.FileSaysWhatWasCalled | lensix_inventory/common/output.py:242-357 | read by the names of their keys, the lines give the header and, in order, the records the calls left and the edges and errors they handed in |
| InventoryFile.RecordLineReads | lensix_inventory/common/output.py:242-256 | what each key of a record line holds; `scope_id` and `secret_scan_hits` are there if and only if given |
| InventoryFile.EdgeLineReads | lensix_inventory/common/output.py:281-290 | what each key of an edge line holds |
| InventoryFile.ErrorLineReads | lensix_inventory/common/output.py:292-297 | what each key of an error line holds |
| InventoryFile.ManifestAgrees | lensix_inventory/common/output.py:337-349 | the manifest read back has totals equal to the numbers of lines of each kind, a count for each type equal to the records of that type, and the regions handed to it |
| InventoryFile.ManifestRegions | lensix_inventory/common/output.py:344 | the regions `write` puts there are exactly the non-empty regions of the records, sorted and each once |
| InventoryFile.RecordJsonInjective | lensix_inventory/common/output.py:242-253 | two resources with the same line are the same resource |
| AzureIds.ResourceGroupIsFirst | lensix_inventory/azure/_util.py:11-16 | `resource_group` is the segment after the first `/resourceGroups/` in any casing that is followed by a name |
| AzureIds.GroupOfPath | lensix_inventory/azure/_util.py:11-16 | for an ARM path `/a/b/resourceGroups/G/...` that is `G`, unless `a` or `b` is itself named `resourceGroups` |
| AzureIds.GroupScopeExact | lensix_inventory/azure/_util.py:19-27 | `is_resource_group_scope` accepts a text if and only if it is the path of a resource group |
| AzureIds.SamePath | lensix_inventory/azure/_util.py:30-41 | two ids are equal after normalisation if and only if their path segments agree up to casing |
| AzureIds.LockIdRoundTrip | lensix_inventory/azure/authorization.py:51-67 | appending the locks suffix in any casing and applying `lock_scope` returns the scope if and only if the scope and a slash do not contain the marker |
| AzureIds.LockIdOverlapExample | lensix_inventory/azure/authorization.py:65-67 | a scope for which that condition fails, and so does the round trip: the marker overlaps itself in one slash |
| AzureVm.MatchIsInheritance | lensix_inventory/azure/vm.py:272-289 | for ARM ids in the scanned subscription, the comparison with the VM, its group and the subscription holds if and only if the lock's scope covers the VM in the ARM hierarchy |
| AzureVm.GroupLockNeedsName | lensix_inventory/azure/vm.py:277-278 | why the subscription must not be named `resourceGroups`: then a group lock is found if and only if the group has that name too |
| AzureVm.LockInheritance | lensix_inventory/azure/vm.py:251-289 | the matching locks are exactly the deletion-capable locks on the VM, its group or its subscription, in order, and the VM is protected if and only if there is one |
| AzureVm.MatchIgnoresCase | lensix_inventory/azure/vm.py:277-288 | re-casing the lock id, the VM id or the subscription never changes whether a lock matches, for any texts at all |
| AzureVm.RedactUserData | lensix_inventory/azure/vm.py:203-219 | the user data is cleared on the live object, its hits and presence are reported, and nothing else is modified |
| AzureVm.MarkRecord | lensix_inventory/azure/vm.py:267-311 | the four fields added to the dict, the matching locks, and the error of the maintenance lookup |
| AzureVm.GatherOne | lensix_inventory/azure/vm.py:261-340 | one turn of the loop appends exactly that VM's calls and clears its profile |
| AzureVm.Gather | lensix_inventory/azure/vm.py:222-340 | the writer receives the fetch errors and then every VM's calls in order; a profile shared by several VMs is scanned for the first of them only |
| AzureVm.VmRecordExact | lensix_inventory/azure/vm.py:267-311 | each flag of the record, null exactly when its lookup failed; the user data is not in the record |
| AzureVm.VmEdgesExact | lensix_inventory/azure/vm.py:334-340 | a `protects` edge is written if and only if the VM is recorded and the lock matches |
| AzureVm.UserDataShows | lensix_inventory/azure/vm.py:203-219 | the dict of a VM shows its user data exactly while the profile still holds it, which is why the profile is cleared first |
| AzureVm.VmsExact | lensix_inventory/azure/vm.py:222-340 | everything the VM part leaves: an error for each failed fetch and, per VM in order, its record, its interface and lock edges, and its maintenance error |
| AzureVm.VmKeepsRest | lensix_inventory/azure/vm.py:267-311 | every other key of the dict is as it was |
| AzureGraph.GatherLocks | lensix_inventory/azure/authorization.py:110-127 | the writer receives each lock's record, and its edge where the scope is a resource group |
| AzureGraph.LockEdgeExact | lensix_inventory/azure/authorization.py:110-127 | a lock placed on an ARM scope has an edge if and only if the scope is a resource group's path, and it ends at that scope |
| AzureGraph.LocksExact | lensix_inventory/azure/authorization.py:110-127 | everything the lock half leaves: a record for each lock, an edge for each whose scope is a resource group, or the error of the listing |
| AzureGraph.GatherNetwork | lensix_inventory/azure/network.py:40-124 | the writer receives, per VNet, its record, its subnets, the peering error or its peerings |
| AzureGraph.SuppressedVNetIsSilent | lensix_inventory/azure/network.py:58-124 | a fully suppressed VNet leaves no record and no edge, of its own or of its subnets and peerings |
| AzureGraph.NetworkClosed | lensix_inventory/azure/network.py:58-124 | whichever listings fail: every edge leaves a recorded resource, every edge to a VNet other than a peering's far end reaches a recorded VNet, and every VNet that is not suppressed is recorded |
| AzureGraph.ResolveIsSearch | lensix_inventory/azure/network.py:56-56 | the normalised-id map agrees with a linear search for the last VNet with that id, ignoring case |
| AzureGraph.RemoteEndExact | lensix_inventory/azure/network.py:56-124 | a peering's far end is the listed VNet's own id whatever the casing, recorded unless that VNet is suppressed; an unlisted one is written as read |
| AzureGraph.NetworkExact | lensix_inventory/azure/network.py:40-124 | everything the module leaves: per VNet in order its record, those of its subnets and peerings under the same tags, every edge of them if it is not suppressed, and an error for each failed listing |
| AzureGraph.GatherResources | lensix_inventory/azure/resources.py:30-75 | the writer receives each group's record and its locks, or the error of listing them |
| AzureGraph.ResourcesClosed | lensix_inventory/azure/resources.py:37-75 | whichever listings fail, every edge joins two recorded resources |
| AzureGraph.ResourcesEdgesExact | lensix_inventory/azure/resources.py:37-75 | an edge is written if and only if it runs from a lock to the group it was listed for and that group is recorded |
| AzureGraph.ResourcesExact | lensix_inventory/azure/resources.py:30-75 | everything the module leaves: each group, its locks recorded whether it is or not, and an error for each failed listing |
| EnvRedaction.TaskDefRecordIgnoresValues | lensix_inventory/aws/ecs.py:92-108 | the redacted record is unchanged when every variable's value is blotted out |
| EnvRedaction.TaskDefNonInterference | lensix_inventory/aws/ecs.py:92-108 | two ECS definitions that differ only in variable values give the same record and names; only the hits may differ |
| EnvRedaction.TaskDefKeeps | lensix_inventory/aws/ecs.py:92-108 | the record lists the containers in order, each with its variables' names in order, and every other field of the containers and of the definition is as it was |
| EnvRedaction.TaskDefHits | lensix_inventory/aws/ecs.py:96-108 | the hits are sorted, and a rule is among them if and only if it hits the `value` of some entry of some container |
| EnvRedaction.TaskDefRedacted | lensix_inventory/aws/ecs.py:92-108 | the code raises unless it is given a list of dicts, each with no environment or with a list of dicts as its environment |
| LiveRecords.RedactTaskDefinition | lensix_inventory/aws/ecs.py:92-108 | on live dicts: the nested loops give the redacted record, or raise, for any definition; nothing that existed before is written to, and the containers are new dicts |
| EnvRedaction.ProjectNonInterference | lensix_inventory/aws/cicd.py:82-97 | two projects that differ only in variable values give the same record; only the hits may differ |
| EnvRedaction.ProjectKeeps | lensix_inventory/aws/cicd.py:82-97 | the record keeps of each variable the name and the type and nothing else, and every other field of the environment and of the project |
| EnvRedaction.ProjectHits | lensix_inventory/aws/cicd.py:82-97 | the same for the variables of a project |
| EnvRedaction.ProjectRedacted | lensix_inventory/aws/cicd.py:82-97 | the code raises if and only if the environment holds variables that are no list of dicts |
| LiveRecords.RedactBuildProject | lensix_inventory/aws/cicd.py:82-97 | on live dicts: the code gives the redacted record, or raises, and writes to nothing that existed before, the nested environment included |
| MapRedaction.FunctionNonInterference | lensix_inventory/aws/lambda_.py:132-154 | two functions that differ only in variable values give the same record and variable names; only the hits may differ |
| MapRedaction.FunctionValuesGone | lensix_inventory/aws/lambda_.py:132-154 | the redacted environment has no `Variables` entry |
| MapRedaction.FunctionKeeps | lensix_inventory/aws/lambda_.py:132-154 | `VariableNames` lists exactly the keys of the variables, sorted and each once; every other field of the environment and of the function is as it was |
| MapRedaction.FunctionHits | lensix_inventory/aws/lambda_.py:132-139 | the hits are sorted, and a rule is among them if and only if it hits the value of some variable |
| MapRedaction.FunctionRedacted | lensix_inventory/aws/lambda_.py:132-154 | the code raises unless the environment is a dict whose variables are a dict or nothing |
| LiveRecords.RedactLambda | lensix_inventory/aws/lambda_.py:132-154 | on live dicts: the merge and the `pop` give the redacted record, or raise, and leave the caller's dicts alone |
| MapRedaction.RedactMetadataLoop | lensix_inventory/gcp/compute.py:69-84 | the loop computes the redaction function for instance metadata |
| MapRedaction.MetadataNonInterference | lensix_inventory/gcp/compute.py:69-84 | two metadata lists that differ only outside the five allow-listed keys, and with the same hits, are redacted alike |
| MapRedaction.KeptAreRelevant | lensix_inventory/gcp/compute.py:66-84 | a key keeps a value if and only if it is one of the five and some item has it |
| MapRedaction.KeptIsLast | lensix_inventory/gcp/compute.py:76-82 | what is kept under a key is the value of the last item for it |
| MapRedaction.RelevantKeys | lensix_inventory/gcp/compute.py:66 | the five keys |
| MapRedaction.InstanceNonInterference | lensix_inventory/gcp/compute.py:365-372 | two instances that differ only in metadata values outside the five keys give the same record; only the hits may differ |
| MapRedaction.InstanceKeeps | lensix_inventory/gcp/compute.py:365-372 | the record's metadata has the names of the items, the kept values and no `items`; every other field of it and of the instance is as it was; the code raises exactly on items its loop cannot read |
| MapRedaction.InstanceHits | lensix_inventory/gcp/compute.py:69-84 | the hits are sorted, and a rule is among them if and only if it hits the value of some item, kept or not |
| MapRedaction.InstanceRedacted | lensix_inventory/gcp/compute.py:365-372 | the code raises unless the metadata is a dict whose items are nothing or a list of readable items |
| LiveRecords.RedactComputeInstance | lensix_inventory/gcp/compute.py:365-372 | on live dicts: the merge and the `pop` give the redacted record, or raise, and leave the caller's dicts alone |
| MapRedaction.ProjectMetadataNonInterference | lensix_inventory/gcp/compute.py:552-562 | the record of the project-wide metadata is the same for lists that differ only outside the five keys |
| MapRedaction.ProjectMetadataKeeps | lensix_inventory/gcp/compute.py:552-562 | that record has two fields, the sorted names of the items and the kept values, and its hits are those of the items' values |
| ContainerApps.RedactEnvSecrets | lensix_inventory/azure/containerapps.py:60-82 | under any aliasing: entries without a secret reference end up cleared, the others untouched, and the hits are the sorted union over the values held at first |
| GcpRefs.MapIsSearch | lensix_inventory/gcp/vpc.py:58-66 | the name map agrees with a linear search for the last network of that name |
| GcpRefs.KeyMapIsSearch | lensix_inventory/gcp/vpc.py:69-75 | the (region, name) map agrees with a linear search |
| GcpRefs.NetworkResolves | lensix_inventory/gcp/_util.py:6-22 | bare, partial and full references to a network with a unique name all resolve to its own selfLink |
| GcpRefs.NetworkIsSearched | lensix_inventory/gcp/_util.py:6-22 | a reference in any of these shapes resolves to what a linear search for the name finds |
| GcpRefs.SubnetReadsBack | lensix_inventory/gcp/_util.py:42-56 | region and name read back from any path, full selfLinks included, with `regions/<r>/subnetworks/<n>` at its end and no earlier segment `regions` |
| GcpRefs.ProjectNamedRegions | lensix_inventory/gcp/_util.py:42-56 | with a project named `regions` the region is read back if and only if it is itself named `regions` |
| GcpRefs.SubnetResolves | lensix_inventory/gcp/compute.py:395-400 | any such path, partial or full, of a subnet unique by (region, name) resolves to its selfLink, whatever the zone |
| GcpRefs.ReferenceFormsResolve | lensix_inventory/gcp/compute.py:395-400 | the full selfLink, the `projects/...` form and the `regions/...` form of a subnet unique in its region all resolve to its selfLink, in a project not named `regions` |
| GcpRefs.BareSubnetResolves | lensix_inventory/gcp/compute.py:395-400 | a bare name, even `regions`, resolves in the region of the instance's zone |
| GcpRefs.LocationRegion | lensix_inventory/gcp/_util.py:25-39 | a zone gives its region; another location is returned unchanged if and only if it does not look like a zone |
| GcpRefs.ClusterSubnetResolves | lensix_inventory/gcp/gke.py:79-87 | a cluster's subnet name resolves for a zonal and for a regional cluster |
| GcpRefs.TrailingSlash | lensix_inventory/gcp/_util.py:6-16 | after a trailing slash only a nameless resource can be found |
| GcpNetworks.GatherVpc | lensix_inventory/gcp/vpc.py:78-160 | the writer receives the networks, then rules and subnets with an edge where the reference resolves, and an error per failed listing |
| GcpNetworks.VpcClosed | lensix_inventory/gcp/vpc.py:104-158 | whichever listings fail, every edge joins two recorded resources |
| GcpNetworks.EdgeExact | lensix_inventory/gcp/vpc.py:128-156 | a referrer has an edge if and only if its reference's last segment names a listed target with an id, and it ends at the last one so named |
| GcpNetworks.VpcExact | lensix_inventory/gcp/vpc.py:78-160 | everything the module leaves: one record for each listed network, rule and subnet, an edge for each reference to a listed network, and an error for each failed listing |
| GcpNetworks.LinksExact | lensix_inventory/gcp/vpc.py:128-156 | those edges are exactly the ones from a rule or subnet to the last listed network its reference names, where that has an id |
| GcpNetworks.GatherLb | lensix_inventory/gcp/lb.py:57-143 | the same for backend services, SSL policies and proxies |
| GcpNetworks.LbClosed | lensix_inventory/gcp/lb.py:104-143 | every edge leaves a recorded resource, and every edge to an SSL policy reaches a recorded one |
| GcpNetworks.LbExact | lensix_inventory/gcp/lb.py:57-143 | everything the module leaves, in the same way |
| GcpNetworks.RegionOfLink | lensix_inventory/gcp/lb.py:19-22 | the region is the segment after the first `/regions/` of a link |
| GcpClusters.GatherGke | lensix_inventory/gcp/gke.py:31-108 | the writer receives the resolution errors, then per cluster its record, edges and node pools |
| GcpClusters.GkeClosed | lensix_inventory/gcp/gke.py:63-108 | every edge leaves a recorded resource and every edge to a cluster reaches a recorded one |
| GcpClusters.GkeEdgesExact | lensix_inventory/gcp/gke.py:63-108 | an edge is written if and only if it is a recorded cluster's to its resolved network or subnet, or one of its own pools' to it |
| GcpClusters.SuppressedClusterIsSilent | lensix_inventory/gcp/gke.py:63-108 | a suppressed cluster leaves no edge, and neither do its pools |
| GcpClusters.GkeExact | lensix_inventory/gcp/gke.py:31-108 | everything the module leaves: per cluster in order its record, its pools recorded whether it is or not, and its edges, with an error for each failed listing |
| GcpClusters.GatherKms | lensix_inventory/gcp/kms.py:67-125 | the writer receives locations' rings, keys and edges, with an error for each listing or policy that fails |
| GcpClusters.KmsClosed | lensix_inventory/gcp/kms.py:76-125 | whatever fails at any depth, every edge joins two recorded resources |
| GcpClusters.KmsEdgesExact | lensix_inventory/gcp/kms.py:76-125 | an edge is written if and only if it runs from a recorded key to the ring it was listed for |
| GcpClusters.KmsExact | lensix_inventory/gcp/kms.py:67-125 | everything the module leaves: each ring, each key with its policy bindings where they could be read, each recorded key's edge, and an error for each failed listing or policy |
| GcpClusters.RegionOfKeyName | lensix_inventory/gcp/kms.py:20-30 | the region of a key is the segment after `locations` in its name |
| GcpClusters.RegionOfOtherKey | lensix_inventory/gcp/kms.py:20-30 | a key whose name has no segment `locations` with another after it is in `global` |
| LambdaRoles.DocVerdictLoop | lensix_inventory/aws/lambda_.py:91-103 | the early-return loop over statements computes the first deciding verdict |
| LambdaRoles.FirstVerdictExact | lensix_inventory/aws/lambda_.py:91-129 | a verdict is reached if and only if some position has it and everything before is silent; none is reached if and only if all are silent |
| LambdaRoles.PlainDocExact | lensix_inventory/aws/lambda_.py:91-103 | for ordinary statement lists the check grants if some statement allows `*` or `iam:*` on `*`, and is silent otherwise |
| LambdaRoles.SingleStatementRaises | lensix_inventory/aws/lambda_.py:91-103 | a document with a non-empty single statement object in place of a list makes the check raise |
| LambdaRoles.OrdinaryDocExact | lensix_inventory/aws/lambda_.py:91-103 | over documents with a list of ordinary statements or a single one: the check raises if and only if it is a single one, and gives the right answer if and only if it is not |
| LambdaRoles.RoleVerdictLoop | lensix_inventory/aws/lambda_.py:106-129 | attached policies in order, then inline ones, with the early returns and exceptions of the code |
| LambdaRoles.RoleVerdictExact | lensix_inventory/aws/lambda_.py:106-129 | for any role: it raises if and only if a listing it reaches fails or the first policy that is not silent raises; it grants if and only if that first one grants |
| LambdaRoles.OrdinaryRoleExact | lensix_inventory/aws/lambda_.py:106-129 | when listings succeed and documents are of the two forms: it raises if and only if a single-statement document comes before every other admin policy, and otherwise grants if and only if some policy allows admin |
| LambdaRoles.PlainRoleExact | lensix_inventory/aws/lambda_.py:106-129 | without single-statement documents it grants if some policy allows admin, and is silent otherwise |
| LambdaRoles.OrderMatters | lensix_inventory/aws/lambda_.py:106-129 | a single-statement document hides an administrator policy attached after it, and does no harm after one |
| LambdaRoles.AdminFieldExact | lensix_inventory/aws/lambda_.py:166-186 | the recorded field is null if and only if there is no role or the check raises, true if and only if it grants |
| LambdaRoles.RoleFieldsLoop | lensix_inventory/aws/lambda_.py:142-188 | with the two caches, every function's fields equal the uncached answers (None on failure), each distinct role is looked up once per question, and the errors are those of the failing lookups |
| LambdaRoles.DistinctRolesExact | lensix_inventory/aws/lambda_.py:166-186 | the roles looked up are exactly those some function names, each once |
| LambdaRoles.RoleNameExact | lensix_inventory/aws/lambda_.py:166-170 | the role name is what follows the last `:role/` of the ARN, or all of it without one; an empty one counts as none |
| LambdaRoles.FieldsExact | lensix_inventory/aws/lambda_.py:166-186 | both fields are null without a role or when their lookup fails, and otherwise what it answers |
| LambdaRoles.LookupsExact | lensix_inventory/aws/lambda_.py:166-186 | the lookups are both questions about each of the roles, and none is put twice |
| LambdaRoles.ErrorsAreFailures | lensix_inventory/aws/lambda_.py:166-186 | an error is reported if and only if the lookup of a listed role failed with that message |
| LambdaRoles.ErrorsDiffer | lensix_inventory/aws/lambda_.py:166-186 | no error is reported twice when the roles are different, so each failing lookup leaves exactly one |
| Cursors.AfterPrefix | lensix_inventory/aws/kinesis.py:38-48 | against a server in strict key order, what comes after the last key of a prefix is the rest |
| Cursors.ListNames | lensix_inventory/aws/kinesis.py:38-48 | however the server cuts its pages, the loop ends and returns every name once and in order; an error is one the server gave to a call the loop has to make |
| Cursors.ListTags | lensix_inventory/aws/kinesis.py:57-73 | all the tags in order, or none of them if a call failed |
| Cursors.GetRecordSets | lensix_inventory/aws/dnsinventory.py:33-49 | the inclusive (name, type, optional identifier) cursor returns every record set once and in order and ends |
| Cursors.StaleIdentifierSkips | lensix_inventory/aws/dnsinventory.py:42-48 | an identifier carried over from an earlier page would skip the very record the server pointed at |
| Cursors.NormalizedHostname | lensix_inventory/aws/dnsinventory.py:29-30 | the result has no trailing dot, no upper-case letter and no escaped star, and normalising again changes nothing |
| Cursors.HostnameKept | lensix_inventory/aws/dnsinventory.py:29-30 | trailing dots go, the case is folded, each escaped star becomes a star, and everything else stays |
| Batches.DescribeAll | lensix_inventory/aws/ecs.py:42-72 | against a server that answers only batches of 1 to `limit`, the result is that of describing every name in order |
| Batches.ListProjects | lensix_inventory/aws/cicd.py:63-74 | following the tokens until an absent or empty one returns every name |
| Batches.GetCodebuildProjects | lensix_inventory/aws/cicd.py:63-79 | paging and then batching by 100 describes every project, or fails as one of the calls did |
| ParallelWrite.ZippedIsSerial | lensix_inventory/aws/account.py:714-727 | pairing parallel results with items gives the calls of the serial fetch-and-write loop |
| ParallelWrite.FetchThenWrite | lensix_inventory/aws/account.py:714-727 | without a failing fetch the writer sees exactly the serial loop's calls; with one, the same exception, and nothing of the items |
| ParallelWrite.TenAtATime | lensix_inventory/common/concurrency.py:21-37 | however many items there are, no more than ten are fetched at a time |
| ParallelWrite.OwnTags | lensix_inventory/aws/account.py:714-744 | the kth call is the kth item with the tags fetched for it; the serial loop stops at the first failing fetch |
| ParallelWrite.WriteKmsKeys | lensix_inventory/aws/account.py:710-727 | the KMS loop: it fails only on a key without a `KeyId` |
| ParallelWrite.KmsKeyExact | lensix_inventory/aws/account.py:710-727 | each key's call: its id, the first alias or else the id as its name, and its own tags |
| ParallelWrite.WriteTrails | lensix_inventory/aws/account.py:729-744 | the trail loop never fails |
| ParallelWrite.TrailExact | lensix_inventory/aws/account.py:729-744 | each trail's call: its ARN or else its name, and the tags of that |
| ParallelWrite.WriteLogGroups | lensix_inventory/aws/account.py:836-857 | the log-group loop never fails |
| ParallelWrite.LogGroupExact | lensix_inventory/aws/account.py:836-857 | each log group's call, with the tags of the first of its two ARNs that is not empty |
| ParallelWrite.GatherOneUser | lensix_inventory/aws/user.py:137-164 | one user's fetches, with policies kept when only the groups fail |
| ParallelWrite.GatherUsers | lensix_inventory/aws/user.py:167-186 | users gathered in parallel and written in order leave the writer as the serial loop would; a failed listing ends the module |
| ParallelWrite.UsersInOrder | lensix_inventory/aws/user.py:174-186 | errors come in user order and each record is of the user's own fetches and tags |
| ParallelWrite.UserRecordExact | lensix_inventory/aws/user.py:146-178 | the four added fields, for any user dict, with their stand-ins for what could not be fetched |
| ParallelWrite.UserKeepsRest | lensix_inventory/aws/user.py:146-178 | every other key of the user is as it was |
| ParallelWrite.UserCallsExact | lensix_inventory/aws/user.py:137-186 | one user's errors, and the record with its own tags |
| SecurityGroups.PatternMeaning | lensix_inventory/aws/sg.py:22 | the pattern matches a stretch if and only if it is `sg-` and 8 to 17 lower-case hex digits |
| SecurityGroups.LongestIsLongest | lensix_inventory/aws/sg.py:22 | what a longest match is: an id, and no id from the same start is longer |
| SecurityGroups.FindsEveryId | lensix_inventory/aws/sg.py:22 | `findall` reports a span if and only if the pattern matches there and no longer match starts there: matches never overlap |
| SecurityGroups.ScanExact | lensix_inventory/aws/sg.py:22 | an id is returned if and only if it stands somewhere as the longest match |
| SecurityGroups.ListScans | lensix_inventory/aws/sg.py:22 | scanning ids with harmless text before and between them returns those ids in order |
| SecurityGroups.JoinedIdsScan | lensix_inventory/aws/sg.py:22 | in particular for ids joined by one character that is no hex digit |
| SecurityGroups.ScanService | lensix_inventory/aws/sg.py:53-385 | what one `try` block adds to the set under a given fault, and whether it ends in `except` |
| SecurityGroups.GetAttached | lensix_inventory/aws/sg.py:41-385 | the set over all services, and the one service whose failure is reported |
| SecurityGroups.UnionUnderFaults | lensix_inventory/aws/sg.py:53-385 | whatever fails and wherever: everything the faultless services refer to is in the set, so is every thing of an isolating service that did not itself raise, and nothing that no service refers to |
| SecurityGroups.RefsExact | lensix_inventory/aws/sg.py:53-385 | what a thing refers to, by its shape: the ids it lists, those that are not empty, or the ids that stand in its texts as longest matches |
| SecurityGroups.FailureExact | lensix_inventory/aws/sg.py:53-385 | a block fails if and only if its listing raises or handling a thing does where things are not isolated |
| SecurityGroups.IndexRules | lensix_inventory/aws/sg.py:395-400 | each group's entry is its rules in listing order, up to the first rule without a group id |
| SecurityGroups.Gather | lensix_inventory/aws/sg.py:388-429 | the writer receives each group with its own rules and edge, then the usage record with the sorted set |
| SecurityGroups.GatherExact | lensix_inventory/aws/sg.py:388-429 | everything the module leaves: the groups with their rules and edges, the usage record, and the errors of the rules and of the services that report theirs |
| RunLoop.RunAll | lensix_inventory/aws/__init__.py:93-128 | the returned writer has seen the calls of every module, per region and then the global ones, with one error after each that failed |
| RunLoop.ModulesAreIsolated | lensix_inventory/aws/__init__.py:99-126 | records and edges of a run are those of the modules before, all that this module wrote before it failed, and those of the modules after |
| RunLoop.OneErrorPerFailure | lensix_inventory/aws/__init__.py:105-126 | errors = errors the modules reported + one for each that failed |
| RunLoop.StepsExact | lensix_inventory/aws/__init__.py:93-126 | every module of each list has exactly one turn, per region or in all, in order; the regions are those given, or all the listed ones when none is |
| RunLoop.TurnExact | lensix_inventory/aws/__init__.py:105-126 | a turn leaves what the module wrote and then, if it failed, one error with its region, name and message |

## Left out

- Every SDK call and wire format: answers are parameters. Clients, sessions, credentials, the command line, printing and progress output are not modelled.
- gzip, file permissions, timestamps and base64: the file is a sequence of lines, the time a parameter, the decoder a function handed in.
- `_json_default`: values are JSON-native; datetimes and other objects, which it turns into strings, are outside the round trip. Floats are kept as their text (so a zero counts as true), and NaN, infinities and dict keys that are not strings do not occur.
- Tags.FullSuppressionExact: tag values are text or None; the code applies `str` to whatever it is given, so a boolean True would suppress as well.
- LiveRecords.RedactTaskDefinition: a container that is no dict is taken to raise; `dict` of an empty list or of a list of pairs would not.
- MapRedaction.RedactMetadataLoop: an item key that is a non-zero number or True is taken to raise; the code would go on, unless sorting fails.
- Text outside ASCII: case folding, `isalpha`, `\b`, `\w` and `\s` are those of ASCII. JSON strings may hold any character except lone surrogates.
- References to `raw`: the writer stores values. That `add_resource` copies the dict only when it injects check ids, so that a caller could still change it otherwise, is not captured.
- Closure of edges over a whole run, and uniqueness of resource ids: the code promises neither.
- Pool.ParallelMap: the items and the function are fixed; threads that die, timeouts and interruption of the caller are not modelled.
- AzureVm.Gather: disks, snapshots and scale sets are left out, and so are errors that the backup lookup itself reports; the VM's `raw` is its fields and the user data, not the nested dict.
- Of `authorization.gather`, the role definitions: a plain loop of records.
- Of `ecs.gather` and `cicd.gather`, everything but batching, paging and redaction: plain loops of records.
- Of `compute.gather`, all but the metadata of instances and of the project and the resolution of networks and subnets (`GcpRefs.SubnetId`): templates, images, disks and instance groups.
- Of `lambda_.gather`, the resource policy and log group of a function: two independent lookups with an error each.
- Cursors.ListNames: a server that answers an empty page and says that more remain is excluded; the code would then raise or ask again for ever.
- Of `dnsinventory.gather`, the filter on record types and the composition of resource ids.
- Of `account.gather`, all but the three loops with parallel tag fetches: eight more fetches, each a plain loop.
- ParallelWrite.GatherUsers: the download and parsing of the credential report is a parameter.
- SecurityGroups.ScanService: each service is given by what its things refer to and by where it fails, not by its nested response fields.
- RunLoop.RunAll: account and region discovery are parameters, so the run that ends there before any module is not modelled.
- Modules that are one loop over a listing (queues, topics, caches, registries and the like) and the repeated template lookups of `compute.py` and `autoscaling.py` would only add easy members.
