/** GCP resource references: the three shapes a reference field comes in, and their resolution
    to the selfLink of the network or subnet they name. */
module GcpRefs {
  import opened Text

  // ----- the helpers of _util -----

  /** `extract_resource_name`; a missing or empty reference has no name. */
  function ResourceName(value: Option<string>): Option<string> {
    if value == None || value.value == [] then None else Some(AfterLast(value.value, '/'))
  }

  /** `normalize_location_to_region` */
  function RegionOfLocation(location: string): string {
    var suffix := AfterLast(location, '-');
    if '-' in location && |suffix| == 1 && IsAlpha(suffix[0]) then BeforeLast(location, '-') else location
  }

  function StripSlashes(s: string): string {
    if s != [] && s[|s| - 1] == '/' then StripSlashes(s[..|s| - 1]) else s
  }

  /** The element after the first `mark`, if there is one. */
  function After(parts: seq<string>, mark: string): Option<string> {
    if parts == [] then None
    else if parts[0] == mark then (if |parts| > 1 then Some(parts[1]) else None)
    else After(parts[1..], mark)
  }

  const REGIONS := "regions"

  /** `extract_subnet_region` */
  function SubnetRegion(value: Option<string>): Option<string> {
    if value == None || value.value == [] then None
    else After(Split(StripSlashes(value.value), '/'), REGIONS)
  }

  // ----- the maps of vpc -----

  /** A network or subnet as listed: its fields may be missing. */
  datatype Item = Item(name: Option<string>, selfLink: Option<string>)
  {
    function Name(): string { OrEmpty(name) }

    /** The resource id: the selfLink, or the name when there is none. */
    function Link(): string { match selfLink case None => Name() case Some(l) => l }
  }

  /** `get_network_selflink_by_name`: a dict comprehension, the last of several entries for a
      key winning. */
  function LinkByName(items: seq<Item>): map<string, string> {
    if items == [] then map[]
    else
      var last := items[|items| - 1];
      LinkByName(items[..|items| - 1])[last.Name() := last.Link()]
  }

  datatype Subnet = Subnet(region: string, item: Item)

  datatype SubnetKey = SubnetKey(region: string, name: string)

  function KeyOf(s: Subnet): SubnetKey { SubnetKey(s.region, s.item.Name()) }

  /** `get_subnet_selflink_by_key` */
  function LinkByKey(subnets: seq<Subnet>): map<SubnetKey, string> {
    if subnets == [] then map[]
    else
      var last := subnets[|subnets| - 1];
      LinkByKey(subnets[..|subnets| - 1])[KeyOf(last) := last.item.Link()]
  }

  function Lookup<K, V>(m: map<K, V>, key: K): Option<V> { if key in m then Some(m[key]) else None }

  // ----- the map agrees with a linear search -----

  /** The last network of that name in the list. */
  function LastNamed(items: seq<Item>, name: string): Option<Item> {
    if items == [] then None
    else if items[|items| - 1].Name() == name then Some(items[|items| - 1])
    else LastNamed(items[..|items| - 1], name)
  }

  function LastKeyed(subnets: seq<Subnet>, key: SubnetKey): Option<Subnet> {
    if subnets == [] then None
    else if KeyOf(subnets[|subnets| - 1]) == key then Some(subnets[|subnets| - 1])
    else LastKeyed(subnets[..|subnets| - 1], key)
  }

  lemma {:induction false} MapIsSearch(items: seq<Item>, name: string)
    ensures Lookup(LinkByName(items), name) ==
      match LastNamed(items, name) case None => None case Some(i) => Some(i.Link())
  {
    if items != [] { MapIsSearch(items[..|items| - 1], name); }
  }

  lemma {:induction false} KeyMapIsSearch(subnets: seq<Subnet>, key: SubnetKey)
    ensures Lookup(LinkByKey(subnets), key) ==
      match LastKeyed(subnets, key) case None => None case Some(s) => Some(s.item.Link())
  {
    if subnets != [] { KeyMapIsSearch(subnets[..|subnets| - 1], key); }
  }

  lemma {:induction false} UniqueIsLast(items: seq<Item>, k: nat)
    requires k < |items| && forall j :: 0 <= j < |items| && items[j].Name() == items[k].Name() ==> j == k
    ensures LastNamed(items, items[k].Name()) == Some(items[k])
  {
    var n := |items| - 1;
    if k < n {
      assert forall j :: 0 <= j < n ==> items[..n][j] == items[j];
      UniqueIsLast(items[..n], k);
    }
  }

  lemma {:induction false} UniqueKeyIsLast(subnets: seq<Subnet>, k: nat)
    requires k < |subnets| && forall j :: 0 <= j < |subnets| && KeyOf(subnets[j]) == KeyOf(subnets[k]) ==> j == k
    ensures LastKeyed(subnets, KeyOf(subnets[k])) == Some(subnets[k])
  {
    var n := |subnets| - 1;
    if k < n {
      assert forall j :: 0 <= j < n ==> subnets[..n][j] == subnets[j];
      UniqueKeyIsLast(subnets[..n], k);
    }
  }

  // ----- resolving a reference -----

  /** `network_id_by_name.get(extract_network_name(ref))`; an empty link makes no edge. */
  function NetworkId(items: seq<Item>, ref: Option<string>): Option<string> {
    match ResourceName(ref)
    case None => None
    case Some(name) => Truthy(Lookup(LinkByName(items), name))
  }

  function Truthy(s: Option<string>): Option<string> { if s.Some? && s.value == [] then None else s }

  /** The subnet of a Compute Engine interface: the region is read from the reference, or
      taken from the instance's zone. */
  function SubnetId(subnets: seq<Subnet>, ref: Option<string>, zone: string): Option<string> {
    match ResourceName(ref)
    case None => None
    case Some(name) =>
      var named := Truthy(SubnetRegion(ref));
      var region := match named case Some(r) => r case None => BeforeLast(zone, '-');
      Truthy(Lookup(LinkByKey(subnets), SubnetKey(region, name)))
  }

  /** The subnet of a GKE cluster, referenced by bare name. */
  function ClusterSubnetId(subnets: seq<Subnet>, name: Option<string>, location: string): Option<string> {
    if Truthy(name) == None then None
    else Truthy(Lookup(LinkByKey(subnets), SubnetKey(RegionOfLocation(location), name.value)))
  }

  // ----- the shapes a reference comes in -----

  /** `ref` is the bare name, or a path that ends in it. */
  ghost predicate NamesIt(ref: string, name: string) {
    name != [] && '/' !in name && (ref == name || exists path :: ref == path + "/" + name)
  }

  lemma NameReadsBack(ref: string, name: string)
    requires NamesIt(ref, name)
    ensures ResourceName(Some(ref)) == Some(name)
  {
    if ref == name {
      AfterLastPlain(name, '/');
    } else {
      var path :| ref == path + "/" + name;
      AfterLastSuffix(path, name, '/');
    }
  }

  /** Whatever shape it comes in, a reference to a network resolves to what a linear search
      for its name finds, so a network with a unique name resolves to its own selfLink. */
  lemma NetworkResolves(items: seq<Item>, k: nat, ref: string)
    requires k < |items| && NamesIt(ref, items[k].Name()) && items[k].Link() != []
    requires forall j :: 0 <= j < |items| && items[j].Name() == items[k].Name() ==> j == k
    ensures NetworkId(items, Some(ref)) == Some(items[k].Link())
  {
    NameReadsBack(ref, items[k].Name());
    MapIsSearch(items, items[k].Name());
    UniqueIsLast(items, k);
  }

  lemma NetworkIsSearched(items: seq<Item>, ref: string, name: string)
    requires NamesIt(ref, name)
    ensures NetworkId(items, Some(ref)) ==
      match LastNamed(items, name) case None => None case Some(i) => Truthy(Some(i.Link()))
  {
    NameReadsBack(ref, name);
    MapIsSearch(items, name);
  }

  // ----- paths -----

  /** Segments of a path; those of `https://host/...` include an empty one. */
  ghost predicate Slashless(parts: seq<string>) {
    forall k :: 0 <= k < |parts| ==> '/' !in parts[k]
  }

  lemma {:induction false} JoinEnds(parts: seq<string>)
    requires parts != [] && Slashless(parts) && parts[|parts| - 1] != []
    ensures Join(parts, '/') != [] && Join(parts, '/')[|Join(parts, '/')| - 1] != '/'
  {
    if |parts| == 1 {
      assert parts[0][|parts[0]| - 1] in parts[0];
    } else {
      JoinEnds(parts[1..]);
    }
  }

  lemma PathSplits(parts: seq<string>)
    requires parts != [] && Slashless(parts) && parts[|parts| - 1] != []
    ensures Split(StripSlashes(Join(parts, '/')), '/') == parts
  {
    JoinEnds(parts);
    SplitOfJoin(parts, '/');
  }

  lemma {:induction false} AfterFirst(front: seq<string>, mark: string, next: string, rest: seq<string>)
    requires mark !in front
    ensures After(front + [mark, next] + rest, mark) == Some(next)
  {
    var all := front + [mark, next] + rest;
    if front != [] {
      assert all[1..] == front[1..] + [mark, next] + rest;
      AfterFirst(front[1..], mark, next, rest);
    }
  }

  /** A subnet path: any segments, then `regions/R/subnetworks/S`. */
  function SubnetPath(front: seq<string>, region: string, name: string): seq<string> {
    front + ["regions", region] + ["subnetworks", name]
  }

  lemma SubnetPathIsSlashless(front: seq<string>, region: string, name: string)
    requires Slashless(front) && '/' !in region && '/' !in name
    ensures Slashless(SubnetPath(front, region, name))
  {
    assert forall k :: 0 <= k < 7 ==> "regions"[k] != '/';
    assert forall k :: 0 <= k < 11 ==> "subnetworks"[k] != '/';
  }

  lemma {:induction false} JoinTail(front: seq<string>, last: string)
    requires front != []
    ensures Join(front + [last], '/') == Join(front, '/') + "/" + last
  {
    if |front| == 1 {
      assert (front + [last])[1..] == [last];
    } else {
      assert (front + [last])[1..] == front[1..] + [last];
      JoinTail(front[1..], last);
    }
  }

  /** A partial or full subnet reference gives back its region and name, when no segment
      before it is itself called `regions`. */
  lemma SubnetReadsBack(front: seq<string>, region: string, name: string)
    requires Slashless(front) && '/' !in region && '/' !in name && name != [] && REGIONS !in front
    ensures var ref := Join(SubnetPath(front, region, name), '/');
      SubnetRegion(Some(ref)) == Some(region) && ResourceName(Some(ref)) == Some(name)
  {
    var parts := SubnetPath(front, region, name);
    var ref := Join(parts, '/');
    SubnetPathIsSlashless(front, region, name);
    JoinEnds(parts);
    PathSplits(parts);
    AfterFirst(front, REGIONS, region, ["subnetworks", name]);
    assert parts == front + [REGIONS, region] + ["subnetworks", name];
    var init := front + ["regions", region] + ["subnetworks"];
    assert parts == init + [name];
    JoinTail(init, name);
    NameReadsBack(ref, name);
  }

  /** A project called `regions` is read as the marker: the region found is then the literal
      segment after it, which is right exactly when the region has that name too. */
  lemma ProjectNamedRegions(front: seq<string>, project: string, region: string, name: string)
    requires Slashless(front) && '/' !in project && '/' !in region && '/' !in name && name != [] && REGIONS !in front
    ensures var ref := Join(SubnetPath(front + [project], region, name), '/');
      SubnetRegion(Some(ref)) == Some(region) <==> project != REGIONS || region == REGIONS
  {
    if project != REGIONS {
      SubnetReadsBack(front + [project], region, name);
    } else {
      var parts := SubnetPath(front + [project], region, name);
      SubnetPathIsSlashless(front + [project], region, name);
      JoinEnds(parts);
      PathSplits(parts);
      AfterFirst(front, REGIONS, REGIONS, [region] + ["subnetworks", name]);
      assert parts == front + [REGIONS, REGIONS] + ([region] + ["subnetworks", name]);
    }
  }

  /** A subnet that is unique in its region resolves to its own selfLink from a partial or
      full reference, whatever the instance's zone. */
  lemma SubnetResolves(subnets: seq<Subnet>, k: nat, front: seq<string>, zone: string)
    requires k < |subnets| && subnets[k].item.Link() != []
    requires Slashless(front) && REGIONS !in front
    requires subnets[k].region != [] && '/' !in subnets[k].region
    requires subnets[k].item.Name() != [] && '/' !in subnets[k].item.Name()
    requires forall j :: 0 <= j < |subnets| && KeyOf(subnets[j]) == KeyOf(subnets[k]) ==> j == k
    ensures SubnetId(subnets, Some(Join(SubnetPath(front, subnets[k].region, subnets[k].item.Name()), '/')), zone)
      == Some(subnets[k].item.Link())
  {
    SubnetReadsBack(front, subnets[k].region, subnets[k].item.Name());
    KeyMapIsSearch(subnets, KeyOf(subnets[k]));
    UniqueKeyIsLast(subnets, k);
  }

  const HOST := ["https:", "", "www.googleapis.com", "compute", "v1"]

  const HOST_TEXT := "https://www.googleapis.com/compute/v1"

  /** The three documented forms of a subnet reference, the longest being the selfLink's own. */
  function ShortReference(region: string, name: string): string { "regions/" + region + "/subnetworks/" + name }

  function PartialReference(project: string, region: string, name: string): string {
    "projects/" + project + "/" + ShortReference(region, name)
  }

  function FullReference(project: string, region: string, name: string): string {
    HOST_TEXT + "/" + PartialReference(project, region, name)
  }

  lemma Joined(a: string, b: string, rest: seq<string>)
    ensures Join([a, b], '/') == a + "/" + b
    ensures Join([a, b] + rest, '/') == if rest == [] then a + "/" + b else a + "/" + b + "/" + Join(rest, '/')
  {
    assert ([a, b] + rest)[1..] == [b] + rest && ([b] + rest)[1..] == rest && [a, b][1..] == [b];
  }

  lemma TailOfPath(region: string, name: string)
    ensures Join(["regions", region, "subnetworks", name], '/') == ShortReference(region, name)
  {
    Joined("regions", region, ["subnetworks", name]);
    Joined("subnetworks", name, []);
    assert ["regions", region] + ["subnetworks", name] == ["regions", region, "subnetworks", name];
    FixedTexts();
    Reglued("regions", region, "subnetworks", name);
  }

  lemma Reglued(a: string, b: string, c: string, d: string)
    ensures a + "/" + b + "/" + (c + "/" + d) == (a + "/") + b + ("/" + c + "/") + d
  {}

  lemma FixedTexts()
    ensures "regions" + "/" == "regions/" && "/" + "subnetworks" + "/" == "/subnetworks/"
    ensures "projects" + "/" == "projects/"
  {}

  lemma {:induction false} JoinAppends(front: seq<string>, back: seq<string>)
    requires front != [] && back != []
    ensures Join(front + back, '/') == Join(front, '/') + "/" + Join(back, '/')
  {
    if |front| == 1 {
      assert (front + back)[1..] == back;
    } else {
      assert (front + back)[1..] == front[1..] + back;
      JoinAppends(front[1..], back);
    }
  }

  lemma HostText()
    ensures Join(HOST, '/') == HOST_TEXT
  {
    assert HOST[1..] == ["", "www.googleapis.com", "compute", "v1"];
    assert ["", "www.googleapis.com", "compute", "v1"][1..] == ["www.googleapis.com", "compute", "v1"];
    assert ["www.googleapis.com", "compute", "v1"][1..] == ["compute", "v1"];
    assert ["compute", "v1"][1..] == ["v1"];
  }

  lemma ProjectPath(project: string)
    ensures Join(["projects", project], '/') == "projects/" + project
  {
    Joined("projects", project, []);
    FixedTexts();
  }

  /** The documented forms are paths of the shape above. */
  lemma ReferencesArePaths(project: string, region: string, name: string)
    ensures FullReference(project, region, name) == Join(SubnetPath(HOST + ["projects", project], region, name), '/')
    ensures PartialReference(project, region, name) == Join(SubnetPath(["projects", project], region, name), '/')
    ensures ShortReference(region, name) == Join(SubnetPath([], region, name), '/')
  {
    hide Join;
    var tail := ["regions", region, "subnetworks", name];
    var front := ["projects", project];
    TailOfPath(region, name);
    ProjectPath(project);
    HostText();
    JoinAppends(front, tail);
    JoinAppends(HOST, front);
    JoinAppends(HOST + front, tail);
    assert SubnetPath([], region, name) == tail && SubnetPath(front, region, name) == front + tail;
    assert SubnetPath(HOST + front, region, name) == HOST + front + tail;
  }

  lemma FixedSegments()
    ensures Slashless(HOST) && Slashless(["projects"]) && REGIONS !in HOST && "projects" != REGIONS
  {
    assert forall k :: 0 <= k < 6 ==> "https:"[k] != '/';
    assert forall k :: 0 <= k < 18 ==> "www.googleapis.com"[k] != '/';
    assert forall k :: 0 <= k < 7 ==> "compute"[k] != '/' && "v1" != "/";
    assert forall k :: 0 <= k < 2 ==> "v1"[k] != '/';
    assert forall k :: 0 <= k < 8 ==> "projects"[k] != '/';
    assert |REGIONS| == 7 && "compute"[0] == 'c' && REGIONS[0] == 'r';
  }

  /** The selfLink form, the partial and the short one of a subnet that is unique in its region
      all resolve to its own selfLink, whatever the instance's zone, in a project not called
      `regions`. */
  lemma ReferenceFormsResolve(subnets: seq<Subnet>, k: nat, project: string, zone: string)
    requires k < |subnets| && subnets[k].item.Link() != []
    requires '/' !in project && project != REGIONS
    requires subnets[k].region != [] && '/' !in subnets[k].region
    requires subnets[k].item.Name() != [] && '/' !in subnets[k].item.Name()
    requires forall j :: 0 <= j < |subnets| && KeyOf(subnets[j]) == KeyOf(subnets[k]) ==> j == k
    ensures var region, name, link := subnets[k].region, subnets[k].item.Name(), Some(subnets[k].item.Link());
      && SubnetId(subnets, Some(FullReference(project, region, name)), zone) == link
      && SubnetId(subnets, Some(PartialReference(project, region, name)), zone) == link
      && SubnetId(subnets, Some(ShortReference(region, name)), zone) == link
  {
    hide SubnetId;
    hide Join;
    hide FullReference;
    hide PartialReference;
    hide ShortReference;
    ReferencesArePaths(project, subnets[k].region, subnets[k].item.Name());
    FixedSegments();
    assert ["projects"][0] == "projects";
    var front := ["projects", project];
    SubnetResolves(subnets, k, [], zone);
    SubnetResolves(subnets, k, front, zone);
    assert forall i :: 0 <= i < 5 ==> (HOST + front)[i] == HOST[i];
    SubnetResolves(subnets, k, HOST + front, zone);
  }

  lemma NothingAfter(name: string)
    ensures After([name], REGIONS) == None
  {
    assert [name][1..] == [];
  }

  /** A bare subnet name is looked up in the region of the instance's zone. */
  lemma BareSubnetResolves(subnets: seq<Subnet>, k: nat, letter: string)
    requires k < |subnets| && subnets[k].item.Link() != [] && '-' !in letter
    requires subnets[k].item.Name() != [] && '/' !in subnets[k].item.Name()
    requires forall j :: 0 <= j < |subnets| && KeyOf(subnets[j]) == KeyOf(subnets[k]) ==> j == k
    ensures SubnetId(subnets, Some(subnets[k].item.Name()), subnets[k].region + "-" + letter) == Some(subnets[k].item.Link())
  {
    var name := subnets[k].item.Name();
    NameReadsBack(name, name);
    PathSplits([name]);
    assert Join([name], '/') == name;
    NothingAfter(name);
    BeforeLastSuffix(subnets[k].region, letter, '-');
    KeyMapIsSearch(subnets, KeyOf(subnets[k]));
    UniqueKeyIsLast(subnets, k);
  }

  /** A zone is its region, a dash and one letter; a region is returned as it is, unless it
      looks like a zone itself. */
  lemma LocationRegion(region: string, letter: char)
    requires IsAlpha(letter)
    ensures RegionOfLocation(region + "-" + [letter]) == region
    ensures RegionOfLocation(region) == region <==>
      !(exists base, c :: IsAlpha(c) && region == base + "-" + [c])
  {
    AfterLastSuffix(region, [letter], '-');
    BeforeLastSuffix(region, [letter], '-');
    assert (region + "-" + [letter])[|region|] == '-';
    forall base: string, c: char | IsAlpha(c) && region == base + "-" + [c]
      ensures RegionOfLocation(region) == base && base != region
    {
      AfterLastSuffix(base, [c], '-');
      BeforeLastSuffix(base, [c], '-');
      assert region[|base|] == '-';
    }
    if RegionOfLocation(region) != region {
      LastParts(region, '-');
      assert region == BeforeLast(region, '-') + "-" + [AfterLast(region, '-')[0]];
    }
  }

  lemma {:induction false} LastParts(s: string, c: char)
    requires c in s
    ensures s == BeforeLast(s, c) + [c] + AfterLast(s, c)
  {
    var n := |s| - 1;
    if s[n] != c {
      assert c in s[..n];
      LastParts(s[..n], c);
      assert s == s[..n] + [s[n]];
    }
  }

  /** A GKE cluster's bare subnet name resolves in the region of a zonal cluster, and in the
      region itself of a regional one. */
  lemma ClusterSubnetResolves(subnets: seq<Subnet>, k: nat, letter: char)
    requires k < |subnets| && subnets[k].item.Link() != [] && subnets[k].item.Name() != [] && IsAlpha(letter)
    requires forall j :: 0 <= j < |subnets| && KeyOf(subnets[j]) == KeyOf(subnets[k]) ==> j == k
    ensures ClusterSubnetId(subnets, Some(subnets[k].item.Name()), subnets[k].region + "-" + [letter])
      == Some(subnets[k].item.Link())
    ensures !(exists base, c :: IsAlpha(c) && subnets[k].region == base + "-" + [c]) ==>
      ClusterSubnetId(subnets, Some(subnets[k].item.Name()), subnets[k].region) == Some(subnets[k].item.Link())
  {
    LocationRegion(subnets[k].region, letter);
    KeyMapIsSearch(subnets, KeyOf(subnets[k]));
    UniqueKeyIsLast(subnets, k);
  }

  /** With a trailing slash the region is still read, but the name is not: such a reference
      only ever finds a subnet without a name. */
  lemma TrailingSlash(path: string)
    ensures ResourceName(Some(path + "/")) == Some([])
    ensures SubnetRegion(Some(path + "/")) == if path == [] then None else SubnetRegion(Some(path))
  {
    AfterLastSuffix(path, [], '/');
    assert path + "/" + [] == path + "/";
    assert (path + "/")[..|path|] == path;
    if path == [] {
      assert StripSlashes([]) == [];
      assert Split([], '/') == [[]];
      assert |REGIONS| == 7;
      NothingAfter([]);
      assert StripSlashes(path + "/") == [];
    }
  }
}
