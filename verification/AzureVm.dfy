/** Azure virtual machines: deletion locks and their inheritance, the user-data scrub, and the
    VM loop of `gather`. */
module AzureVm {
  import opened Text
  import opened Json
  import opened Tags
  import opened Writer
  import opened AzureIds
  import opened Graph
  import Secrets

  // ----- deletion locks -----

  /** `DELETION_LOCK_LEVELS` */
  predicate BlocksDeletion(level: Option<string>) {
    level == Some("CanNotDelete") || level == Some("ReadOnly")
  }

  datatype ScopedLock = ScopedLock(id: Id, scope: Option<string>)

  function DeletionLocks(locks: seq<ManagementLock>): seq<ScopedLock> {
    if locks == [] then []
    else (if BlocksDeletion(locks[0].level) then [ScopedLock(locks[0].id, LockScope(locks[0].id))] else [])
         + DeletionLocks(locks[1..])
  }

  function GroupScope(subscription: string, group: Option<string>): Option<string> {
    if group == None || group.value == [] then None
    else Some(Lower("/subscriptions/" + subscription + "/resourceGroups/" + group.value))
  }

  /** A lock's scope is the VM itself, its resource group or the subscription. */
  predicate ScopeMatches(scope: Option<string>, vmId: Id, subscription: string) {
    scope.Some? && scope.value != []
    && (|| Lower(scope.value) == NormalizeId(vmId)
        || Some(Lower(scope.value)) == GroupScope(subscription, ResourceGroup(vmId))
        || Lower(scope.value) == Lower("/subscriptions/" + subscription))
  }

  function MatchingIds(locks: seq<ScopedLock>, vmId: Id, subscription: string): seq<Id> {
    if locks == [] then []
    else (if ScopeMatches(locks[0].scope, vmId, subscription) then [locks[0].id] else [])
         + MatchingIds(locks[1..], vmId, subscription)
  }

  // ----- the scope hierarchy -----

  /** A subscription, a resource group, or a resource under either, as ARM writes their ids. */
  ghost predicate ArmScope(s: seq<string>) {
    && Segments(s) && |s| >= 2 && Lower(s[0]) == "subscriptions"
    && (|| |s| == 2
        || (|s| >= 6 && Lower(s[2]) == "providers")
        || (|s| >= 4 && Lower(s[2]) == "resourcegroups" && (|s| == 4 || (|s| >= 8 && Lower(s[4]) == "providers"))))
  }

  /** The id of a VM: a resource of eight segments under a resource group. */
  ghost predicate VmPath(s: seq<string>) {
    ArmScope(s) && |s| == 8 && Lower(s[2]) == "resourcegroups"
    && Lower(s[5]) == "microsoft.compute" && Lower(s[6]) == "virtualmachines"
  }

  /** Locks inherit downward: a scope covers itself and everything below it, ignoring case. */
  ghost predicate Covers(scope: seq<string>, below: seq<string>) {
    |scope| <= |below| && SameSegments(scope, below[..|scope|])
  }

  lemma ScopePaths(subscription: string, group: string)
    ensures "/subscriptions/" + subscription == Path(["subscriptions", subscription])
    ensures "/subscriptions/" + subscription + "/resourceGroups/" + group
      == Path(["subscriptions", subscription, "resourceGroups", group])
  {
    var two, four := ["subscriptions", subscription], ["subscriptions", subscription, "resourceGroups", group];
    FourSegments(four);
    assert two[1..] == [subscription] && two[1..][1..] == [];
    assert Path([subscription]) == "/" + subscription + [];
    assert "/" + "subscriptions" + "/" == "/subscriptions/";
    assert "/" + "resourceGroups" + "/" == "/resourceGroups/";
    RegroupFour(subscription, group);
  }

  lemma RegroupFour(a: string, b: string)
    ensures "/" + "subscriptions" + "/" + a + "/" + "resourceGroups" + "/" + b
      == "/subscriptions/" + a + "/resourceGroups/" + b
  {
    RegroupAny("/" + "subscriptions" + "/", a, "/", "resourceGroups", "/", b);
    FixedParts();
  }

  lemma RegroupAny(l: string, a: string, x: string, y: string, z: string, b: string)
    ensures l + a + x + y + z + b == l + a + (x + y + z) + b
  {}

  lemma FixedParts()
    ensures "/" + "subscriptions" + "/" == "/subscriptions/"
    ensures "/" + "resourceGroups" + "/" == "/resourceGroups/"
  {}

  lemma ArmNames()
    ensures Lower("subscriptions") == "subscriptions" && Lower("resourceGroups") == "resourcegroups"
    ensures '/' !in "subscriptions" && '/' !in "resourceGroups"
    ensures "providers" != "resourcegroups" && "subscriptions" != "resourcegroups"
  {
    assert |Lower("resourceGroups")| == 14;
    assert |"providers"| == 9 && |"resourcegroups"| == 14 && |"subscriptions"| == 13;
    assert forall k :: 0 <= k < 13 ==> "subscriptions"[k] != '/';
    assert forall k :: 0 <= k < 14 ==> "resourceGroups"[k] != '/';
  }

  /** For a VM of the scanned subscription, the three comparisons of the code decide the
      hierarchy: a lock's scope matches exactly when it covers the VM. */
  lemma MatchIsInheritance(scope: seq<string>, vm: seq<string>, subscription: string)
    requires ArmScope(scope) && VmPath(vm)
    requires Lower(subscription) == Lower(vm[1]) && Lower(vm[1]) != "resourcegroups"
    ensures ScopeMatches(Some(Path(scope)), Some(Path(vm)), subscription) <==> Covers(scope, vm)
  {
    ArmNames();
    GroupOfPath(vm);
    ScopePaths(subscription, vm[3]);
    var sub := ["subscriptions", subscription];
    var group := ["subscriptions", subscription, "resourceGroups", vm[3]];
    assert |subscription| == |Lower(subscription)| == |vm[1]|;
    LowerKeepsSlashes(subscription);
    LowerKeepsSlashes(vm[1]);
    SamePath(scope, vm);
    SamePath(scope, sub);
    SamePath(scope, group);
    assert vm[..8] == vm;
    CoversByLength(scope, vm, sub, group);
  }

  lemma CoversByLength(scope: seq<string>, vm: seq<string>, sub: seq<string>, group: seq<string>)
    requires ArmScope(scope) && VmPath(vm) && "providers" != "resourcegroups"
    requires |sub| == 2 && SameSegments(sub, vm[..2]) && |group| == 4 && SameSegments(group, vm[..4])
    ensures Covers(scope, vm) <==> SameSegments(scope, vm) || SameSegments(scope, group) || SameSegments(scope, sub)
  {
    if Covers(scope, vm) {
      assert forall k :: 0 <= k < |scope| ==> Lower(scope[k]) == Lower(vm[..|scope|][k]) == Lower(vm[k]);
    }
    assert vm[..8] == vm;
  }

  /** What that condition on the subscription's name is for: with a subscription named
      `resourceGroups`, the group is read one segment too early, and a lock on the VM's group
      is found exactly when the group has that name too. */
  lemma GroupLockNeedsName(scope: seq<string>, vm: seq<string>, subscription: string)
    requires ArmScope(scope) && |scope| == 4 && VmPath(vm) && Covers(scope, vm)
    requires Lower(subscription) == Lower(vm[1])
    ensures ScopeMatches(Some(Path(scope)), Some(Path(vm)), subscription)
      <==> Lower(vm[1]) != "resourcegroups" || Lower(vm[3]) == "resourcegroups"
  {
    ArmNames();
    if Lower(vm[1]) != "resourcegroups" {
      MatchIsInheritance(scope, vm, subscription);
    } else {
      hide Path;
      hide Segments;
      GroupOfPath(vm);
      ScopePaths(subscription, vm[2]);
      var sub := ["subscriptions", subscription];
      var group := ["subscriptions", subscription, "resourceGroups", vm[2]];
      assert Segments(sub) && Segments(group) by { SegmentsOf(vm, subscription); }
      SamePath(scope, vm);
      SamePath(scope, sub);
      SamePath(scope, group);
      assert forall k :: 0 <= k < 4 ==> Lower(scope[k]) == Lower(vm[..4][k]) == Lower(vm[k]);
    }
  }

  lemma SegmentsOf(vm: seq<string>, subscription: string)
    requires VmPath(vm) && Lower(subscription) == Lower(vm[1])
    ensures Segments(["subscriptions", subscription]) && Segments(["subscriptions", subscription, "resourceGroups", vm[2]])
  {
    ArmNames();
    assert |subscription| == |Lower(subscription)| == |vm[1]|;
    LowerKeepsSlashes(subscription);
    LowerKeepsSlashes(vm[1]);
  }

  // ----- the flag of one VM -----

  /** A deletion lock and the scope it was put on; the suffix comes back in any casing. */
  datatype PlacedLock = PlacedLock(scope: seq<string>, suffix: string, name: string, level: Option<string>, raw: Json)
  {
    function AsLock(): ManagementLock { ManagementLock(Some(Path(scope) + suffix + name), Some(name), level, raw) }

    ghost predicate Proper() {
      ArmScope(scope) && Lower(suffix) == LOCK_MARKER && !Contains(Lower(Path(scope)) + "/", LOCK_MARKER)
    }
  }

  function AsLocks(placed: seq<PlacedLock>): seq<ManagementLock> {
    seq(|placed|, k requires 0 <= k < |placed| => placed[k].AsLock())
  }

  /** The deletion locks that cover the VM, in order. */
  ghost function Covering(placed: seq<PlacedLock>, vm: seq<string>): seq<Id> {
    if placed == [] then []
    else (if BlocksDeletion(placed[0].level) && Covers(placed[0].scope, vm) then [placed[0].AsLock().id] else [])
         + Covering(placed[1..], vm)
  }

  lemma PlacedMatches(p: PlacedLock, vm: seq<string>, subscription: string)
    requires p.Proper() && VmPath(vm) && Lower(subscription) == Lower(vm[1]) && Lower(vm[1]) != "resourcegroups"
    ensures ScopeMatches(LockScope(p.AsLock().id), Some(Path(vm)), subscription) <==> Covers(p.scope, vm)
  {
    LockIdRoundTrip(Path(p.scope), p.suffix, p.name);
    MatchIsInheritance(p.scope, vm, subscription);
  }

  lemma MatchingAhead(first: ScopedLock, rest: seq<ScopedLock>, vmId: Id, subscription: string)
    ensures MatchingIds([first] + rest, vmId, subscription)
      == (if ScopeMatches(first.scope, vmId, subscription) then [first.id] else []) + MatchingIds(rest, vmId, subscription)
  {
    hide ScopeMatches;
    assert ([first] + rest)[1..] == rest;
  }

  lemma {:induction false} CoveringExact(placed: seq<PlacedLock>, vm: seq<string>)
    ensures Covering(placed, vm) != [] <==>
      exists k :: 0 <= k < |placed| && BlocksDeletion(placed[k].level) && Covers(placed[k].scope, vm)
  {
    hide Covers;
    hide BlocksDeletion;
    if placed != [] {
      var rest := placed[1..];
      CoveringExact(rest, vm);
      forall k | 0 <= k < |rest| ensures rest[k] == placed[k + 1] {}
      forall k | 1 <= k < |placed| ensures placed[k] == rest[k - 1] {}
    }
  }

  lemma {:induction false} MatchingIsCovering(placed: seq<PlacedLock>, vm: seq<string>, subscription: string)
    requires forall k :: 0 <= k < |placed| ==> placed[k].Proper()
    requires VmPath(vm) && Lower(subscription) == Lower(vm[1]) && Lower(vm[1]) != "resourcegroups"
    ensures MatchingIds(DeletionLocks(AsLocks(placed)), Some(Path(vm)), subscription) == Covering(placed, vm)
  {
    hide ScopeMatches;
    hide LockScope;
    hide Covers;
    hide Path;
    hide Contains;
    hide VmPath;
    hide BlocksDeletion;
    if placed != [] {
      var rest := placed[1..];
      MatchingIsCovering(rest, vm, subscription);
      PlacedMatches(placed[0], vm, subscription);
      var lock := placed[0].AsLock();
      assert AsLocks(placed) == [lock] + AsLocks(rest);
      DeletionAhead(lock, AsLocks(rest));
      MatchingAhead(ScopedLock(lock.id, LockScope(lock.id)), DeletionLocks(AsLocks(rest)), Some(Path(vm)), subscription);
    }
  }

  lemma DeletionAhead(first: ManagementLock, rest: seq<ManagementLock>)
    ensures DeletionLocks([first] + rest)
      == if BlocksDeletion(first.level) then [ScopedLock(first.id, LockScope(first.id))] + DeletionLocks(rest)
         else DeletionLocks(rest)
  {
    hide LockScope;
    assert ([first] + rest)[1..] == rest;
  }

  /** The locks a VM is linked to are exactly the deletion locks on the VM, its resource group
      or its subscription, and it is flagged as protected exactly when there is one. */
  lemma LockInheritance(placed: seq<PlacedLock>, vm: seq<string>, subscription: string)
    requires forall k :: 0 <= k < |placed| ==> placed[k].Proper()
    requires VmPath(vm) && Lower(subscription) == Lower(vm[1]) && Lower(vm[1]) != "resourcegroups"
    ensures MatchingIds(DeletionLocks(AsLocks(placed)), Some(Path(vm)), subscription) == Covering(placed, vm)
    ensures MatchingIds(DeletionLocks(AsLocks(placed)), Some(Path(vm)), subscription) != [] <==>
      exists k :: 0 <= k < |placed| && (placed[k].level == Some("CanNotDelete") || placed[k].level == Some("ReadOnly"))
        && Covers(placed[k].scope, vm)
  {
    MatchingIsCovering(placed, vm, subscription);
    CoveringExact(placed, vm);
  }

  // ----- casing never matters -----

  lemma SameSlashes(t: string, u: string, k: nat)
    requires Lower(t) == Lower(u) && k < |t|
    ensures |t| == |u| && (t[k] == '/' <==> u[k] == '/')
  {
    assert |t| == |Lower(t)| == |u|;
    assert Lower(t)[k] == LowerChar(t[k]) && Lower(u)[k] == LowerChar(u[k]);
  }

  lemma LowerTail(t: string, u: string, k: nat)
    requires Lower(t) == Lower(u) && k <= |t|
    ensures |t| == |u| && Lower(t[k..]) == Lower(u[k..]) && Lower(t[..k]) == Lower(u[..k])
  {
    assert |t| == |Lower(t)| == |u|;
    assert Lower(t[k..]) == Lower(t)[k..] && Lower(t[..k]) == Lower(t)[..k];
    assert Lower(u[k..]) == Lower(u)[k..] && Lower(u[..k]) == Lower(u)[..k];
  }

  lemma {:induction false} UntilSlashRecased(t: string, u: string)
    requires Lower(t) == Lower(u)
    ensures Lower(UntilSlash(t)) == Lower(UntilSlash(u))
  {
    assert |t| == |Lower(t)| == |u|;
    if t != [] {
      SameSlashes(t, u, 0);
      if t[0] != '/' {
        LowerTail(t, u, 1);
        UntilSlashRecased(t[1..], u[1..]);
        LowerOfConcat([t[0]], UntilSlash(t[1..]));
        LowerOfConcat([u[0]], UntilSlash(u[1..]));
        assert Lower(t)[0] == Lower(u)[0];
        assert Lower([t[0]]) == Lower([u[0]]);
      }
    }
  }

  ghost predicate SameOrNone(a: Option<string>, b: Option<string>) {
    (a == None && b == None) || (a.Some? && b.Some? && Lower(a.value) == Lower(b.value))
  }

  lemma {:induction false} FirstGroupRecased(t: string, u: string, p: nat)
    requires Lower(t) == Lower(u) && p <= |t|
    ensures p <= |u| && SameOrNone(FirstGroup(t, p), FirstGroup(u, p))
    decreases |t| - p
  {
    assert |t| == |Lower(t)| == |u|;
    var k := p + |RESOURCE_GROUPS|;
    if k < |t| {
      SameSlashes(t, u, k);
      LowerTail(t, u, k);
      UntilSlashRecased(t[k..], u[k..]);
    }
    if GroupHere(t, p) == None && p < |t| { FirstGroupRecased(t, u, p + 1); }
  }

  lemma ResourceGroupRecased(t: string, u: string)
    requires Lower(t) == Lower(u)
    ensures SameOrNone(ResourceGroup(Some(t)), ResourceGroup(Some(u)))
  {
    assert |t| == |Lower(t)| == |u|;
    ResourceGroupIsFirst(t);
    ResourceGroupIsFirst(u);
    FirstGroupRecased(t, u, 0);
  }

  lemma LockScopeRecased(t: string, u: string)
    requires Lower(t) == Lower(u)
    ensures SameOrNone(LockScope(Some(t)), LockScope(Some(u)))
  {
    var at := Find(Lower(t), LOCK_MARKER);
    assert |t| == |Lower(t)| == |u|;
    if at >= 0 { LowerTail(t, u, at); }
  }

  lemma GroupScopeRecased(a: string, b: string, g: Option<string>, h: Option<string>)
    requires Lower(a) == Lower(b) && SameOrNone(g, h)
    ensures GroupScope(a, g) == GroupScope(b, h)
    ensures Lower("/subscriptions/" + a) == Lower("/subscriptions/" + b)
  {
    LowerOfConcat("/subscriptions/", a);
    LowerOfConcat("/subscriptions/", b);
    if g.Some? {
      assert |g.value| == |Lower(g.value)| == |h.value|;
      LowerOfConcat("/subscriptions/" + a, "/resourceGroups/");
      LowerOfConcat("/subscriptions/" + b, "/resourceGroups/");
      LowerOfConcat("/subscriptions/" + a + "/resourceGroups/", g.value);
      LowerOfConcat("/subscriptions/" + b + "/resourceGroups/", h.value);
    }
  }

  /** Re-casing the lock's id, the VM's id or the subscription never changes whether a lock
      matches, for any ids at all. */
  lemma MatchIgnoresCase(lock: string, lock': string, vm: string, vm': string, sub: string, sub': string)
    requires Lower(lock) == Lower(lock') && Lower(vm) == Lower(vm') && Lower(sub) == Lower(sub')
    ensures ScopeMatches(LockScope(Some(lock)), Some(vm), sub) <==> ScopeMatches(LockScope(Some(lock')), Some(vm'), sub')
  {
    LockScopeRecased(lock, lock');
    ResourceGroupRecased(vm, vm');
    GroupScopeRecased(sub, sub', ResourceGroup(Some(vm)), ResourceGroup(Some(vm')));
    var s, s' := LockScope(Some(lock)), LockScope(Some(lock'));
    if s.Some? { assert |s.value| == |Lower(s.value)| == |s'.value|; }
  }

  // ----- the live objects -----

  class OsProfile {
    var customData: Option<string>

    constructor (customData: Option<string>)
      ensures this.customData == customData
    {
      this.customData := customData;
    }
  }

  /** A VM as the SDK returns it; `fields` are what `as_dict` renders besides the user data. */
  class Vm {
    const id: Id
    const name: Id
    const location: Id
    const osProfile: OsProfile?
    const fields: seq<Field>
    const nics: seq<Id>
    const tags: RawTags
    /** The dict says that Windows updates are switched off. */
    const updatesOff: bool

    constructor (id: Id, name: Id, location: Id, osProfile: OsProfile?, fields: seq<Field>, nics: seq<Id>, tags: RawTags,
        updatesOff: bool)
      ensures this.id == id && this.name == name && this.location == location && this.osProfile == osProfile
      ensures this.fields == fields && this.nics == nics && this.tags == tags && this.updatesOff == updatesOff
    {
      this.id, this.name, this.location, this.osProfile := id, name, location, osProfile;
      this.fields, this.nics, this.tags, this.updatesOff := fields, nics, tags, updatesOff;
    }

    /** `as_dict()` */
    function AsDict(): seq<Field>
      reads osProfile
    {
      Rendered(fields, if osProfile == null then None else osProfile.customData)
    }
  }

  function Rendered(fields: seq<Field>, customData: Option<string>): seq<Field> {
    fields + if customData.Some? then [Field("custom_data", Str(customData.value))] else []
  }

  /** The dict shows the user data exactly while the profile still holds it. */
  lemma {:induction false} UserDataShows(fields: seq<Field>, customData: Option<string>)
    requires !HasKey(fields, "custom_data")
    ensures HasKey(Rendered(fields, customData), "custom_data") <==> customData.Some?
    ensures customData.Some? ==> Get(Rendered(fields, customData), "custom_data") == Str(customData.value)
  {
    if fields == [] {
      assert Rendered(fields, customData) == if customData.Some? then [Field("custom_data", Str(customData.value))] else [];
    } else {
      UserDataShows(fields[1..], customData);
      assert Rendered(fields, customData)[1..] == Rendered(fields[1..], customData);
    }
  }

  /** What the scan reports for a user-data text: base64 when it decodes, else as it is. */
  function UserDataHits(data: string, decode: string -> Option<string>): seq<string> {
    Secrets.ScanText(match decode(data) case Some(text) => text case None => data)
  }

  /** `_redact_os_profile_userdata` */
  method RedactUserData(os: OsProfile?, decode: string -> Option<string>) returns (hits: seq<string>, had: bool)
    modifies os
    ensures os != null ==> os.customData == None
    ensures had <==> os != null && old(os.customData).Some?
    ensures hits == if had then UserDataHits(old(os.customData).value, decode) else []
  {
    hide Secrets.ScanText;
    if os == null || os.customData == None {
      return [], false;
    }
    var decoded := match decode(os.customData.value) case Some(text) => text case None => os.customData.value;
    hits := Secrets.ScanText(decoded);
    os.customData := None;
    had := true;
  }

  // ----- the VM loop -----

  /** What the loop over the VMs has at hand: the two lookups made once for the subscription, the
      per-VM lookup of a maintenance configuration, and the base64 decoder. */
  datatype Scan = Scan(
    subscription: string,
    backup: Fetch<set<string>>,
    locks: Fetch<seq<ManagementLock>>,
    maintenance: Id -> Fetch<bool>,
    decode: string -> Option<string>)

  const CUSTOM_KEY := "_has_custom_data"
  const BACKUP_KEY := "_ProtectedByAzureBackup"
  const LOCK_KEY := "_ProtectedByDeletionLock"
  const MAINTENANCE_KEY := "_HasMaintenanceConfigurationAssignment"

  function BackupFlag(vm: Vm, scan: Scan): Json {
    if scan.backup.Err? then Null else Bool(NormalizeId(vm.id) in scan.backup.value)
  }

  function LockFlag(vm: Vm, scan: Scan): Json {
    if scan.locks.Err? then Null else Bool(VmLocks(vm, scan) != [])
  }

  function MaintenanceFlag(vm: Vm, scan: Scan): Json {
    match scan.maintenance(vm.id) case Err(_) => Null case Ok(b) => Bool(b)
  }

  /** The raw record of a VM, given the user data its profile held when it was visited; the
      maintenance flag is set only where updates are off. */
  function VmRaw(vm: Vm, custom: Option<string>, scan: Scan): seq<Field> {
    var a := Put(vm.fields, CUSTOM_KEY, Bool(custom.Some?));
    var b := Put(a, BACKUP_KEY, BackupFlag(vm, scan));
    var c := Put(b, LOCK_KEY, LockFlag(vm, scan));
    if vm.updatesOff then Put(c, MAINTENANCE_KEY, MaintenanceFlag(vm, scan)) else c
  }

  function VmLocks(vm: Vm, scan: Scan): seq<Id> {
    if scan.locks.Ok? then MatchingIds(DeletionLocks(scan.locks.value), vm.id, scan.subscription) else []
  }

  function VmResource(vm: Vm, custom: Option<string>, scan: Scan): Resource {
    Resource("vm", RegionOf(vm.location), vm.id, vm.name, Obj(VmRaw(vm, custom, scan)),
      ResourceGroup(vm.id), Some(if custom.Some? then UserDataHits(custom.value, scan.decode) else []))
  }

  const MAINTENANCE_SOURCE := "vm:maintenance_configuration_assignment"

  function MaintenanceNote(vm: Vm, error: string): ErrorNote {
    ErrorNote(RegionOf(vm.location).value, MAINTENANCE_SOURCE, NameText(vm.name) + ": " + error)
  }

  function MaintenanceError(vm: Vm, scan: Scan): seq<Call> {
    if vm.updatesOff && scan.maintenance(vm.id).Err?
    then [Call.AddError(MaintenanceNote(vm, scan.maintenance(vm.id).error))]
    else []
  }

  function NicEdges(vmId: Id, nics: seq<Id>): seq<Call> {
    if nics == [] then []
    else
      var n := nics[|nics| - 1];
      NicEdges(vmId, nics[..|nics| - 1])
      + if n.Some? && n.value != [] then [Call.AddEdge(Edge("vm", vmId, "network_interface", n, "attached_to_nic"))] else []
  }

  function LockEdge(vmId: Id, lock: Id): Edge { Edge("authorization_lock", lock, "vm", vmId, "protects") }

  function LockEdges(vmId: Id, lockIds: seq<Id>): seq<Call> {
    seq(|lockIds|, k requires 0 <= k < |lockIds| => Call.AddEdge(LockEdge(vmId, lockIds[k])))
  }

  /** A VM's record, and its edges unless its tags suppress it. */
  function VmTail(vm: Vm, custom: Option<string>, scan: Scan): seq<Call> {
    [Call.AddResource(VmResource(vm, custom, scan), vm.tags)]
    + if ParseSuppression(vm.tags).full then [] else NicEdges(vm.id, vm.nics) + LockEdges(vm.id, VmLocks(vm, scan))
  }

  function VmCalls(vm: Vm, custom: Option<string>, scan: Scan): seq<Call> {
    MaintenanceError(vm, scan) + VmTail(vm, custom, scan)
  }

  /** Every profile's user data before the loop. */
  ghost function HeldBy(vms: seq<Vm>): seq<Option<string>>
    reads Profiles(vms)
  {
    seq(|vms|, k requires 0 <= k < |vms| reads Profiles(vms) =>
      if vms[k].osProfile == null then None else vms[k].osProfile.customData)
  }

  ghost function Profiles(vms: seq<Vm>): set<OsProfile> {
    set v | v in vms && v.osProfile != null :: v.osProfile
  }

  ghost predicate SharedBefore(vms: seq<Vm>, n: nat, i: nat)
    requires i < |vms|
  {
    exists j :: 0 <= j < n && j < |vms| && vms[j].osProfile != null && vms[j].osProfile == vms[i].osProfile
  }

  /** The user data each VM is seen with: a profile shared with an earlier VM has already been
      cleared. */
  ghost function SeenWith(vms: seq<Vm>, held: seq<Option<string>>): (seen: seq<Option<string>>)
    requires |held| == |vms|
    ensures |seen| == |vms|
  {
    seq(|vms|, i requires 0 <= i < |vms| => if SharedBefore(vms, i, i) then None else held[i])
  }

  function AllVmCalls(vms: seq<Vm>, seen: seq<Option<string>>, scan: Scan): seq<Call>
    requires |seen| == |vms|
  {
    if vms == [] then []
    else
      var n := |vms| - 1;
      AllVmCalls(vms[..n], seen[..n], scan) + VmCalls(vms[n], seen[n], scan)
  }

  function FetchErrors(vms: Fetch<seq<Vm>>, scan: Scan): seq<Call> {
    FetchError("global", "vm:virtual_machines", vms)
    + FetchError("global", "vm:backup_protected_items", scan.backup)
    + FetchError("global", "vm:management_locks", scan.locks)
  }

  method WriteVmEdges(writer: InventoryWriter, vm: Vm, lockIds: seq<Id>)
    requires writer.Valid()
    modifies writer
    ensures writer.Valid()
    ensures writer.history == old(writer.history) + (NicEdges(vm.id, vm.nics) + LockEdges(vm.id, lockIds))
  {
    hide Run;
    hide LockEdge;
    ghost var was := writer.history;
    for i := 0 to |vm.nics|
      invariant writer.Valid() && writer.history == was + NicEdges(vm.id, vm.nics[..i])
    {
      var n := vm.nics[i];
      assert vm.nics[..i + 1][..i] == vm.nics[..i];
      if n.Some? && n.value != [] {
        writer.AddEdge(Edge("vm", vm.id, "network_interface", n, "attached_to_nic"));
      }
    }
    assert vm.nics[..|vm.nics|] == vm.nics;
    ghost var nics := NicEdges(vm.id, vm.nics);
    for i := 0 to |lockIds|
      invariant writer.Valid() && writer.history == was + nics + LockEdges(vm.id, lockIds[..i])
    {
      writer.AddEdge(LockEdge(vm.id, lockIds[i]));
      assert LockEdges(vm.id, lockIds[..i + 1])
        == LockEdges(vm.id, lockIds[..i]) + [Call.AddEdge(LockEdge(vm.id, lockIds[i]))];
    }
    assert lockIds[..|lockIds|] == lockIds;
  }

  /** The fields the loop adds to a VM's dict, the locks it found, and why the maintenance lookup
      failed, if it did. */
  method MarkRecord(vm: Vm, dict: seq<Field>, ghost custom: Option<string>, had: bool, scan: Scan)
    returns (raw: seq<Field>, lockIds: seq<Id>, failed: Option<string>)
    requires (had <==> custom.Some?) && dict == Rendered(vm.fields, None)
    ensures raw == VmRaw(vm, custom, scan) && lockIds == VmLocks(vm, scan)
    ensures failed == if vm.updatesOff && scan.maintenance(vm.id).Err? then Some(scan.maintenance(vm.id).error) else None
  {
    hide Put;
    hide MatchingIds;
    hide DeletionLocks;
    hide NormalizeId;
    assert dict == vm.fields;
    raw := Put(dict, CUSTOM_KEY, Bool(had));
    raw := Put(raw, BACKUP_KEY, if scan.backup.Err? then Null else Bool(NormalizeId(vm.id) in scan.backup.value));
    lockIds := [];
    if scan.locks.Err? {
      raw := Put(raw, LOCK_KEY, Null);
    } else {
      lockIds := MatchingIds(DeletionLocks(scan.locks.value), vm.id, scan.subscription);
      raw := Put(raw, LOCK_KEY, Bool(lockIds != []));
    }
    failed := None;
    if vm.updatesOff {
      var answer := scan.maintenance(vm.id);
      if answer.Ok? {
        raw := Put(raw, MAINTENANCE_KEY, Bool(answer.value));
      } else {
        raw := Put(raw, MAINTENANCE_KEY, Null);
        failed := Some(answer.error);
      }
    }
  }

  /** One turn of the VM loop. */
  method GatherOne(writer: InventoryWriter, vm: Vm, scan: Scan)
    requires writer.Valid()
    modifies writer, vm.osProfile
    ensures writer.Valid() && (vm.osProfile != null ==> vm.osProfile.customData == None)
    ensures writer.history == old(writer.history)
      + VmCalls(vm, old(if vm.osProfile == null then None else vm.osProfile.customData), scan)
  {
    hide ResourceGroup;
    hide ParseSuppression;
    hide UserDataHits;
    hide NicEdges;
    hide LockEdges;
    hide Run;
    hide Apply;
    hide Stamp;
    hide LockEdge;
    hide Rendered;
    hide VmRaw;
    hide VmLocks;
    hide MaintenanceNote;
    ghost var custom := if vm.osProfile == null then None else vm.osProfile.customData;
    var hits, had := RedactUserData(vm.osProfile, scan.decode);
    var dict := vm.AsDict();
    var raw, lockIds, failed := MarkRecord(vm, dict, custom, had, scan);
    if failed.Some? {
      writer.AddError(MaintenanceNote(vm, failed.value));
    }
    var r := Resource("vm", RegionOf(vm.location), vm.id, vm.name, Obj(raw), ResourceGroup(vm.id), Some(hits));
    assert r == VmResource(vm, custom, scan);
    var added := writer.AddResource(r, vm.tags);
    if added {
      WriteVmEdges(writer, vm, lockIds);
    }
  }

  lemma OneMoreVm(vms: seq<Vm>, seen: seq<Option<string>>, n: nat, scan: Scan)
    requires |seen| == |vms| && n < |vms|
    ensures AllVmCalls(vms[..n + 1], seen[..n + 1], scan) == AllVmCalls(vms[..n], seen[..n], scan) + VmCalls(vms[n], seen[n], scan)
  {
    hide VmCalls;
    assert vms[..n + 1][..n] == vms[..n] && seen[..n + 1][..n] == seen[..n];
  }

  method NoteFetchErrors(writer: InventoryWriter, vms: Fetch<seq<Vm>>, scan: Scan)
    requires writer.Valid()
    modifies writer
    ensures writer.Valid() && writer.history == old(writer.history) + FetchErrors(vms, scan)
  {
    hide Run;
    if vms.Err? {
      writer.AddError(ErrorNote("global", "vm:virtual_machines", vms.error));
    }
    if scan.backup.Err? {
      writer.AddError(ErrorNote("global", "vm:backup_protected_items", scan.backup.error));
    }
    if scan.locks.Err? {
      writer.AddError(ErrorNote("global", "vm:management_locks", scan.locks.error));
    }
  }

  lemma SharedNext(vms: seq<Vm>, i: nat, k: nat)
    requires i < |vms| && k < |vms| && vms[k].osProfile != null
    ensures SharedBefore(vms, i + 1, k) <==> SharedBefore(vms, i, k) || vms[k].osProfile == vms[i].osProfile
  {
    if vms[k].osProfile == vms[i].osProfile { assert SharedBefore(vms, i + 1, k); }
  }

  lemma SharedAtEnd(vms: seq<Vm>, k: nat)
    requires k < |vms| && vms[k].osProfile != null
    ensures SharedBefore(vms, |vms|, k) && !SharedBefore(vms, 0, k)
  {}

  lemma NoneSharedYet(vms: seq<Vm>)
    ensures forall k :: 0 <= k < |vms| ==> !SharedBefore(vms, 0, k)
  {}

  lemma SeenAt(vms: seq<Vm>, held: seq<Option<string>>, i: nat)
    requires |held| == |vms| && i < |vms|
    ensures SeenWith(vms, held)[i] == if SharedBefore(vms, i, i) then None else held[i]
  {}

  /** The VM part of `gather`: every VM's user data is cleared before it is serialised, and
      the writer receives exactly the calls of each VM, in order. */
  method Gather(writer: InventoryWriter, fetched: Fetch<seq<Vm>>, scan: Scan)
    requires writer.Valid()
    modifies writer, Profiles(OrNone(fetched))
    ensures writer.Valid()
    ensures forall p :: p in Profiles(OrNone(fetched)) ==> p.customData == None
    ensures writer.history == old(writer.history) + FetchErrors(fetched, scan)
      + AllVmCalls(OrNone(fetched), SeenWith(OrNone(fetched), old(HeldBy(OrNone(fetched)))), scan)
  {
    hide VmCalls;
    hide FetchErrors;
    hide SharedBefore;
    hide SeenWith;
    hide Run;
    var vms := OrNone(fetched);
    ghost var held := HeldBy(vms);
    ghost var seen := SeenWith(vms, held);
    NoteFetchErrors(writer, fetched, scan);
    ghost var was := writer.history;
    NoneSharedYet(vms);
    for i := 0 to |vms|
      invariant writer.Valid()
      invariant forall k :: 0 <= k < |vms| && vms[k].osProfile != null ==>
        vms[k].osProfile.customData == if SharedBefore(vms, i, k) then None else held[k]
      invariant writer.history == was + AllVmCalls(vms[..i], seen[..i], scan)
    {
      assert vms[i].osProfile != null ==> vms[i].osProfile in Profiles(vms);
      SeenAt(vms, held, i);
      GatherOne(writer, vms[i], scan);
      OneMoreVm(vms, seen, i, scan);
      forall k | 0 <= k < |vms| && vms[k].osProfile != null
        ensures vms[k].osProfile.customData == if SharedBefore(vms, i + 1, k) then None else held[k]
      {
        SharedNext(vms, i, k);
      }
    }
    assert vms[..|vms|] == vms && seen[..|vms|] == seen;
    forall p | p in Profiles(vms) ensures p.customData == None {
      var k :| 0 <= k < |vms| && vms[k].osProfile == p;
      SharedAtEnd(vms, k);
    }
  }

  // ----- what is written for a VM -----

  lemma FlagKeysDiffer()
    ensures |CUSTOM_KEY| == 16 && |BACKUP_KEY| == 23 && |LOCK_KEY| == 24 && |MAINTENANCE_KEY| == 38 && |"custom_data"| == 11
  {}

  /** One more flag: it reads back, and the others and the user data are as they were. */
  lemma FlagPut(fields: seq<Field>, key: string, value: Json, other: string)
    requires |key| != |other|
    ensures GetOr(Put(fields, key, value), key, Str("unset")) == value
    ensures GetOr(Put(fields, key, value), other, Str("unset")) == GetOr(fields, other, Str("unset"))
    ensures HasKey(Put(fields, key, value), other) <==> HasKey(fields, other)
  {
    hide Put;
    PutGet(fields, key, value, other);
  }

  lemma FlagsAre(vm: Vm, scan: Scan)
    ensures BackupFlag(vm, scan) == if scan.backup.Err? then Null else Bool(NormalizeId(vm.id) in scan.backup.value)
    ensures MaintenanceFlag(vm, scan) == if scan.maintenance(vm.id).Ok? then Bool(scan.maintenance(vm.id).value) else Null
  {}

  /** The flags of a VM's raw record, null standing for a lookup that failed; the user data is
      never part of the record. */
  lemma VmRecordExact(vm: Vm, custom: Option<string>, scan: Scan)
    ensures var raw := VmRaw(vm, custom, scan);
      && GetOr(raw, "_ProtectedByDeletionLock", Str("unset"))
         == (if scan.locks.Err? then Null
             else Bool(MatchingIds(DeletionLocks(scan.locks.value), vm.id, scan.subscription) != []))
      && GetOr(raw, "_ProtectedByAzureBackup", Str("unset"))
         == (if scan.backup.Err? then Null else Bool(NormalizeId(vm.id) in scan.backup.value))
      && GetOr(raw, "_has_custom_data", Str("unset")) == Bool(custom.Some?)
      && (vm.updatesOff ==>
            GetOr(raw, "_HasMaintenanceConfigurationAssignment", Str("unset"))
            == if scan.maintenance(vm.id).Ok? then Bool(scan.maintenance(vm.id).value) else Null)
      && (HasKey(raw, "custom_data") <==> HasKey(vm.fields, "custom_data"))
  {
    hide MatchingIds;
    hide DeletionLocks;
    hide BackupFlag;
    hide MaintenanceFlag;
    hide Put;
    hide GetOr;
    hide HasKey;
    var d := "custom_data";
    FlagsAre(vm, scan);
    FlagKeysDiffer();
    var a := Put(vm.fields, CUSTOM_KEY, Bool(custom.Some?));
    var b := Put(a, BACKUP_KEY, BackupFlag(vm, scan));
    var c := Put(b, LOCK_KEY, LockFlag(vm, scan));
    FlagPut(vm.fields, CUSTOM_KEY, Bool(custom.Some?), d);
    FlagPut(a, BACKUP_KEY, BackupFlag(vm, scan), CUSTOM_KEY);
    FlagPut(a, BACKUP_KEY, BackupFlag(vm, scan), d);
    FlagPut(b, LOCK_KEY, LockFlag(vm, scan), CUSTOM_KEY);
    FlagPut(b, LOCK_KEY, LockFlag(vm, scan), BACKUP_KEY);
    FlagPut(b, LOCK_KEY, LockFlag(vm, scan), d);
    FlagPut(c, MAINTENANCE_KEY, MaintenanceFlag(vm, scan), CUSTOM_KEY);
    FlagPut(c, MAINTENANCE_KEY, MaintenanceFlag(vm, scan), BACKUP_KEY);
    FlagPut(c, MAINTENANCE_KEY, MaintenanceFlag(vm, scan), LOCK_KEY);
    FlagPut(c, MAINTENANCE_KEY, MaintenanceFlag(vm, scan), d);
  }

  /** A recorded VM's `protects` edges are exactly its matching locks; a suppressed VM has no
      edge at all. */
  lemma VmEdgesExact(vm: Vm, custom: Option<string>, scan: Scan, e: Edge)
    requires e.relationship == "protects"
    ensures Call.AddEdge(e) in VmCalls(vm, custom, scan) <==>
      !ParseSuppression(vm.tags).full
      && exists k :: 0 <= k < |VmLocks(vm, scan)| && e == LockEdge(vm.id, VmLocks(vm, scan)[k])
  {
    hide ParseSuppression;
    hide VmLocks;
    hide VmResource;
    hide MaintenanceNote;
    hide NicEdges;
    hide LockEdges;
    hide LockEdge;
    NoNicEdge(vm.id, vm.nics, e);
    LockEdgesExact(vm.id, VmLocks(vm, scan), e);
  }

  lemma LockEdgesExact(vmId: Id, ids: seq<Id>, e: Edge)
    ensures Call.AddEdge(e) in LockEdges(vmId, ids) <==> exists k :: 0 <= k < |ids| && e == LockEdge(vmId, ids[k])
  {
    hide LockEdge;
    assert forall k :: 0 <= k < |ids| ==> LockEdges(vmId, ids)[k] == Call.AddEdge(LockEdge(vmId, ids[k]));
  }

  lemma {:induction false} NoNicEdge(vmId: Id, nics: seq<Id>, e: Edge)
    requires e.relationship == "protects"
    ensures Call.AddEdge(e) !in NicEdges(vmId, nics)
  {
    assert |"protects"| == 8 && |"attached_to_nic"| == 15;
    if nics != [] { NoNicEdge(vmId, nics[..|nics| - 1], e); }
  }

  // ----- everything a VM leaves -----

  ghost function NicLinks(vmId: Id, nics: seq<Id>): seq<Edge> {
    if nics == [] then []
    else
      var n := nics[|nics| - 1];
      NicLinks(vmId, nics[..|nics| - 1]) + if IsTruthy(n) then [Edge("vm", vmId, "network_interface", n, "attached_to_nic")] else []
  }

  ghost function LockLinks(vmId: Id, locks: seq<Id>): seq<Edge> {
    seq(|locks|, k requires 0 <= k < |locks| => Edge("authorization_lock", locks[k], "vm", vmId, "protects"))
  }

  ghost function Place(location: Id): Id { if IsTruthy(location) then location else Some("global") }

  /** The record's hits are those of the decoded user data, or of the data as it is. */
  ghost function VmRecord(vm: Vm, custom: Option<string>, scan: Scan): Resource {
    var hits :=
      if custom == None then []
      else Secrets.ScanText(if scan.decode(custom.value).Some? then scan.decode(custom.value).value else custom.value);
    Resource("vm", Place(vm.location), vm.id, vm.name, Obj(VmRaw(vm, custom, scan)), ResourceGroup(vm.id), Some(hits))
  }

  lemma {:induction false} NicsTrail(vmId: Id, nics: seq<Id>)
    ensures TrailOf(NicEdges(vmId, nics)) == Trail([], NicLinks(vmId, nics), [])
  {
    hide TrailOf;
    TrailOfNothing();
    if nics != [] {
      var n := nics[|nics| - 1];
      var front := nics[..|nics| - 1];
      var e := Edge("vm", vmId, "network_interface", n, "attached_to_nic");
      NicsTrail(vmId, front);
      TrailOfEdge(e);
      TrailAppend(NicEdges(vmId, front), [Call.AddEdge(e)]);
      assert NicEdges(vmId, front) + [] == NicEdges(vmId, front);
    }
  }

  lemma {:induction false} LocksTrail(vmId: Id, locks: seq<Id>)
    ensures TrailOf(LockEdges(vmId, locks)) == Trail([], LockLinks(vmId, locks), [])
  {
    hide TrailOf;
    TrailOfNothing();
    if locks == [] {
      assert LockEdges(vmId, locks) == [] && LockLinks(vmId, locks) == [];
    } else {
      var n := |locks| - 1;
      LocksTrail(vmId, locks[..n]);
      TrailOfEdge(LockEdge(vmId, locks[n]));
      TrailAppend(LockEdges(vmId, locks[..n]), [Call.AddEdge(LockEdge(vmId, locks[n]))]);
      assert LockEdges(vmId, locks) == LockEdges(vmId, locks[..n]) + [Call.AddEdge(LockEdge(vmId, locks[n]))];
    }
  }

  lemma MaintenanceTrail(vm: Vm, scan: Scan)
    ensures TrailOf(MaintenanceError(vm, scan)) == Trail([], [],
      if vm.updatesOff && scan.maintenance(vm.id).Err?
      then [ErrorNote(Place(vm.location).value, "vm:maintenance_configuration_assignment",
              (if vm.name.Some? then vm.name.value else "None") + ": " + scan.maintenance(vm.id).error)]
      else [])
  {
    hide TrailOf;
    TrailOfNothing();
    if vm.updatesOff && scan.maintenance(vm.id).Err? {
      TrailOfOne(Call.AddError(MaintenanceNote(vm, scan.maintenance(vm.id).error)));
    }
  }

  lemma VmRecordIs(vm: Vm, custom: Option<string>, scan: Scan)
    ensures VmResource(vm, custom, scan) == VmRecord(vm, custom, scan)
  {
    hide VmRaw, ResourceGroup, Secrets.ScanText;
  }

  /** What one VM leaves: the error of its maintenance lookup, its record unless its tags suppress
      it, and then the edges to its interfaces and from the locks that cover it. */
  ghost function VmTrail(vm: Vm, custom: Option<string>, scan: Scan): Trail {
    Trail(Kept(VmRecord(vm, custom, scan), vm.tags),
      if Recorded(vm.tags)
      then NicLinks(vm.id, vm.nics)
        + (if scan.locks.Err? then []
           else LockLinks(vm.id, MatchingIds(DeletionLocks(scan.locks.value), vm.id, scan.subscription)))
      else [],
      if vm.updatesOff && scan.maintenance(vm.id).Err?
      then [ErrorNote(Place(vm.location).value, "vm:maintenance_configuration_assignment",
              (if vm.name.Some? then vm.name.value else "None") + ": " + scan.maintenance(vm.id).error)]
      else [])
  }

  lemma OneVmTrail(vm: Vm, custom: Option<string>, scan: Scan)
    ensures TrailOf(VmCalls(vm, custom, scan)) == VmTrail(vm, custom, scan)
  {
    hide TrailOf, VmResource, VmRecord, MaintenanceError, NicEdges, LockEdges, MatchingIds, DeletionLocks, Kept, ParseSuppression;
    hide Place;
    VmRecordIs(vm, custom, scan);
    MaintenanceTrail(vm, scan);
    var first := [Call.AddResource(VmResource(vm, custom, scan), vm.tags)];
    var nics, locks := NicEdges(vm.id, vm.nics), LockEdges(vm.id, VmLocks(vm, scan));
    TrailOfResource(VmResource(vm, custom, scan), vm.tags);
    NicsTrail(vm.id, vm.nics);
    LocksTrail(vm.id, VmLocks(vm, scan));
    TrailAppend(nics, locks);
    TrailAppend(first, nics + locks);
    assert first + [] == first;
    NoLockLinks(vm.id);
    TrailAppend(MaintenanceError(vm, scan), VmTail(vm, custom, scan));
  }

  lemma NoLockLinks(vmId: Id)
    ensures LockLinks(vmId, []) == []
  {}

  ghost function VmsTrail(vms: seq<Vm>, seen: seq<Option<string>>, scan: Scan): Trail
    requires |seen| == |vms|
  {
    if vms == [] then NO_TRAIL
    else
      var n := |vms| - 1;
      VmsTrail(vms[..n], seen[..n], scan).Plus(VmTrail(vms[n], seen[n], scan))
  }

  lemma {:induction false} AllVmsTrail(vms: seq<Vm>, seen: seq<Option<string>>, scan: Scan)
    requires |seen| == |vms|
    ensures TrailOf(AllVmCalls(vms, seen, scan)) == VmsTrail(vms, seen, scan)
  {
    hide TrailOf, VmCalls, VmTrail;
    TrailOfNothing();
    if vms != [] {
      var n := |vms| - 1;
      AllVmsTrail(vms[..n], seen[..n], scan);
      OneVmTrail(vms[n], seen[n], scan);
      TrailAppend(AllVmCalls(vms[..n], seen[..n], scan), VmCalls(vms[n], seen[n], scan));
    }
  }

  /** Everything the VM part of `gather` leaves: an error for each of the three fetches that failed,
      then what each VM leaves, in order. */
  lemma VmsExact(fetched: Fetch<seq<Vm>>, seen: seq<Option<string>>, scan: Scan)
    requires |seen| == |OrNone(fetched)|
    ensures TrailOf(FetchErrors(fetched, scan) + AllVmCalls(OrNone(fetched), seen, scan))
      == Trail([], [], Failed("global", "vm:virtual_machines", fetched) + Failed("global", "vm:backup_protected_items", scan.backup)
                       + Failed("global", "vm:management_locks", scan.locks)).Plus(VmsTrail(OrNone(fetched), seen, scan))
  {
    hide TrailOf, AllVmCalls, VmsTrail, FetchError;
    AllVmsTrail(OrNone(fetched), seen, scan);
    TrailOfFetch("global", "vm:virtual_machines", fetched);
    TrailOfFetch("global", "vm:backup_protected_items", scan.backup);
    TrailOfFetch("global", "vm:management_locks", scan.locks);
    var a, b := FetchError("global", "vm:virtual_machines", fetched), FetchError("global", "vm:backup_protected_items", scan.backup);
    TrailAppend(a, b);
    TrailAppend(a + b, FetchError("global", "vm:management_locks", scan.locks));
    TrailAppend(FetchErrors(fetched, scan), AllVmCalls(OrNone(fetched), seen, scan));
  }

  /** Every other key of the VM's dict is as it was. */
  lemma VmKeepsRest(vm: Vm, custom: Option<string>, scan: Scan, key: string)
    requires key !in ["_has_custom_data", "_ProtectedByAzureBackup", "_ProtectedByDeletionLock",
                      "_HasMaintenanceConfigurationAssignment"]
    ensures GetOr(VmRaw(vm, custom, scan), key, Null) == GetOr(vm.fields, key, Null)
  {
    hide Put, GetOr, BackupFlag, LockFlag, MaintenanceFlag;
    var names := ["_has_custom_data", "_ProtectedByAzureBackup", "_ProtectedByDeletionLock",
                  "_HasMaintenanceConfigurationAssignment"];
    assert names[0] == CUSTOM_KEY && names[1] == BACKUP_KEY && names[2] == LOCK_KEY && names[3] == MAINTENANCE_KEY;
    var a := Put(vm.fields, CUSTOM_KEY, Bool(custom.Some?));
    var b := Put(a, BACKUP_KEY, BackupFlag(vm, scan));
    var c := Put(b, LOCK_KEY, LockFlag(vm, scan));
    OtherKey(vm.fields, CUSTOM_KEY, Bool(custom.Some?), key);
    OtherKey(a, BACKUP_KEY, BackupFlag(vm, scan), key);
    OtherKey(b, LOCK_KEY, LockFlag(vm, scan), key);
    OtherKey(c, MAINTENANCE_KEY, MaintenanceFlag(vm, scan), key);
  }
}
