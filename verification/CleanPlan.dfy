/** cli/cmd/clean.go and clean_shared.go: what one `kates clean` will remove,
    found on the cluster and then narrowed by what something else still uses. */
module CleanPlan {
  import opened Values
  import opened Lists
  import opened Components

  // ------------------------------------------------------------ the cluster

  /** A custom object: the CRD of its kind, and what the checks read of it. An
      empty namespace marks a cluster-scoped one; `helm` is the namespace of
      the release that installed it, empty when none did. */
  datatype Object = Object(crd: string, kind: string, name: string, namespace: string, helm: string)

  datatype ClusterObject = ClusterObject(kind: string, name: string)

  /** What reading a cluster-scoped object gives. */
  datatype Owner = Unreadable | Absent | Installed(helm: string)

  /** The cluster as `kubectl` and `helm` answer about it during one plan. A
      list that fails is None; each name is then asked for on its own. */
  datatype Cluster = Cluster(
    helm: Option<seq<Release>>,
    helmHas: Release -> bool,
    namespaces: Option<seq<string>>,
    namespaceExists: string -> bool,
    crds: Option<seq<string>>,
    crdExists: string -> bool,
    objects: seq<Object>,
    listable: seq<string> -> bool,
    owner: ClusterObject -> Owner)

  datatype Kept =
    | KeptNamespace(ns: string, foreign: seq<string>)
    | KeptUnlisted(ns: string)
    | KeptGroup(group: CRDGroup)
    | KeptObject(what: ClusterObject, read: Owner)

  class Plan {
    var releases: seq<Release>
    var namespaces: seq<string>
    var crds: seq<string>
    var installed: seq<Release>
    var helmList: seq<Release>
    var helmListed: bool
    var existingNS: seq<string>
    var existingCRDs: seq<string>
    var presentCRDs: seq<string>
    var clusterResources: seq<ClusterObject>
    var kept: seq<Kept>

    constructor (releases: seq<Release>, namespaces: seq<string>, crds: seq<string>, clusterResources: seq<ClusterObject>)
      ensures this.releases == releases && this.namespaces == namespaces && this.crds == crds
      ensures this.clusterResources == clusterResources
      ensures installed == [] && existingNS == [] && existingCRDs == [] && kept == []
    {
      this.releases, this.namespaces, this.crds, this.clusterResources := releases, namespaces, crds, clusterResources;
      installed, helmList, helmListed := [], [], false;
      existingNS, existingCRDs, presentCRDs, kept := [], [], [], [];
    }
  }

  // ------------------------------------------------------------ the targets

  /** Whether a release is an operator's, where p's name for Kafka stands for the
      Kafka component whatever else bears it. */
  predicate IsOperatorUnder(table: seq<Component>, r: Release, p: Placement) {
    IsOperatorRelease(table, if r.name == p.kafkaName then KAFKA_RELEASE else r.name)
  }

  /** A release named like p's Kafka is Kafka's, whoever else has that name. */
  lemma OperatorUnderIs(table: seq<Component>, r: Release, p: Placement)
    ensures r.name == p.kafkaName ==> (IsOperatorUnder(table, r, p) <==> IsOperatorsName(table, "$kafka"))
    ensures r.name != p.kafkaName ==> (IsOperatorUnder(table, r, p) <==> IsOperatorsName(table, r.name))
  {
    OperatorsNameIs(table, if r.name == p.kafkaName then KAFKA_RELEASE else r.name);
  }

  /** What the stack occupies: every release, operators last and each once, and
      every namespace once. */
  method CleanTargets(table: seq<Component>, placements: seq<Placement>)
    returns (releases: seq<Release>, namespaces: seq<string>)
    ensures forall r :: r in releases <==> exists p | p in placements :: r in Releases(table, p)
    ensures forall ns :: ns in namespaces <==> exists p | p in placements :: ns in Namespaces(table, p)
    ensures forall i, j | 0 <= i < j < |namespaces| :: namespaces[i] != namespaces[j]
    ensures exists cut: nat | cut <= |releases| ::
      && (forall r | r in releases[..cut] :: exists p | p in placements :: r in Releases(table, p) && !IsOperatorUnder(table, r, p))
      && (forall r | r in releases[cut..] :: exists p | p in placements :: r in Releases(table, p) && IsOperatorUnder(table, r, p))
      && (forall i, j | 0 <= i < j < cut :: releases[i] != releases[j])
      && (forall i, j | cut <= i < j < |releases| :: releases[i] != releases[j])
  {
    var operators: seq<Release> := [];
    releases, namespaces := [], [];
    var i := 0;
    while i < |placements|
      invariant 0 <= i <= |placements|
      invariant forall r :: r in releases <==> exists p | p in placements[..i] :: r in Releases(table, p) && !IsOperatorUnder(table, r, p)
      invariant forall r :: r in operators <==> exists p | p in placements[..i] :: r in Releases(table, p) && IsOperatorUnder(table, r, p)
      invariant forall ns :: ns in namespaces <==> exists p | p in placements[..i] :: ns in Namespaces(table, p)
      invariant forall j, k | 0 <= j < k < |releases| :: releases[j] != releases[k]
      invariant forall j, k | 0 <= j < k < |operators| :: operators[j] != operators[k]
      invariant forall j, k | 0 <= j < k < |namespaces| :: namespaces[j] != namespaces[k]
    {
      var p := placements[i];
      assert placements[..i + 1] == placements[..i] + [p];
      var all := Releases(table, p);
      releases := AddNew(releases, Filter(all, (r: Release) => !IsOperatorUnder(table, r, p)));
      operators := AddNew(operators, Filter(all, (r: Release) => IsOperatorUnder(table, r, p)));
      namespaces := AddNew(namespaces, Namespaces(table, p));
      i := i + 1;
    }
    assert placements[..i] == placements;
    ghost var cut := |releases|;
    releases := releases + operators;
    assert releases[..cut] + operators == releases && releases[cut..] == operators;
    forall r
      ensures r in releases <==> exists p | p in placements :: r in Releases(table, p)
    {
      if p :| p in placements && r in Releases(table, p) {
        assert IsOperatorUnder(table, r, p) || !IsOperatorUnder(table, r, p);
      }
    }
  }

  // -------------------------------------------------------------- discovery

  /** Whether one list names the thing, or, when the list failed, asking for it
      alone finds it. */
  predicate Holds<T(==)>(listed: Option<seq<T>>, alone: T -> bool, x: T) {
    match listed
    case Some(have) => x in have
    case None => alone(x)
  }

  /** Which of the wanted things the cluster holds. */
  function PresentOf<T(==, !new)>(wanted: seq<T>, listed: Option<seq<T>>, alone: T -> bool): seq<T> {
    Filter(wanted, (x: T) => Holds(listed, alone, x))
  }

  method CleanPresent<T(==, !new)>(wanted: seq<T>, listed: Option<seq<T>>, alone: T -> bool) returns (present: seq<T>)
    ensures present == PresentOf(wanted, listed, alone)
  {
    present := [];
    if listed.Some? {
      var have := listed.value;
      var i := 0;
      while i < |wanted|
        invariant 0 <= i <= |wanted|
        invariant present == PresentOf(wanted[..i], listed, alone)
      {
        OneMoreWanted(wanted, i, listed, alone);
        if wanted[i] in have {
          present := present + [wanted[i]];
        }
        i := i + 1;
      }
      assert wanted[..i] == wanted;
      return;
    }
    var i := 0;
    while i < |wanted|
      invariant 0 <= i <= |wanted|
      invariant present == PresentOf(wanted[..i], listed, alone)
    {
      OneMoreWanted(wanted, i, listed, alone);
      if alone(wanted[i]) {
        present := present + [wanted[i]];
      }
      i := i + 1;
    }
    assert wanted[..i] == wanted;
  }

  lemma OneMoreWanted<T(!new)>(wanted: seq<T>, i: nat, listed: Option<seq<T>>, alone: T -> bool)
    requires i < |wanted|
    ensures PresentOf(wanted[..i + 1], listed, alone)
         == if Holds(listed, alone, wanted[i]) then PresentOf(wanted[..i], listed, alone) + [wanted[i]]
            else PresentOf(wanted[..i], listed, alone)
  {
    FilterSnoc(wanted[..i], wanted[i], (x: T) => Holds(listed, alone, x));
    assert wanted[..i + 1] == wanted[..i] + [wanted[i]];
  }

  method Discover(p: Plan, c: Cluster)
    modifies p
    ensures p.releases == old(p.releases) && p.namespaces == old(p.namespaces) && p.crds == old(p.crds)
    ensures p.clusterResources == old(p.clusterResources) && p.kept == old(p.kept)
    ensures p.helmListed == c.helm.Some? && (c.helm.Some? ==> p.helmList == c.helm.value)
    ensures p.installed == old(p.installed) + PresentOf(p.releases, c.helm, c.helmHas)
    ensures p.existingNS == PresentOf(p.namespaces, c.namespaces, c.namespaceExists)
    ensures p.existingCRDs == p.presentCRDs == PresentOf(p.crds, c.crds, c.crdExists)
  {
    var releases, namespaces, crds := p.releases, p.namespaces, p.crds;
    var installed := CleanPresent(releases, c.helm, c.helmHas);
    var existingNS := CleanPresent(namespaces, c.namespaces, c.namespaceExists);
    var existingCRDs := CleanPresent(crds, c.crds, c.crdExists);
    p.helmListed := c.helm.Some?;
    p.helmList := match c.helm case Some(list) => list case None => [];
    p.installed := p.installed + installed;
    p.existingNS, p.existingCRDs := existingNS, existingCRDs;
    p.presentCRDs := p.existingCRDs;
  }

  // --------------------------------------------------- what others still use

  /** The releases in ns that are not the stack's. */
  function ForeignIn(list: seq<Release>, ns: string, stack: seq<Release>): seq<Release> {
    Filter(list, (r: Release) => r.namespace == ns && r !in stack)
  }

  function Names(rs: seq<Release>): (r: seq<string>)
    ensures |r| == |rs|
  {
    seq(|rs|, i requires 0 <= i < |rs| => rs[i].name)
  }

  method ForeignReleases(list: seq<Release>, ns: string, stack: seq<Release>) returns (foreign: seq<string>)
    ensures foreign == Names(ForeignIn(list, ns, stack))
  {
    foreign := [];
    var keep := (r: Release) => r.namespace == ns && r !in stack;
    var i := 0;
    while i < |list|
      invariant 0 <= i <= |list|
      invariant foreign == Names(Filter(list[..i], keep))
    {
      FilterSnoc(list[..i], list[i], keep);
      assert list[..i + 1] == list[..i] + [list[i]];
      if list[i].namespace == ns && list[i] !in stack {
        foreign := foreign + [list[i].name];
      }
      i := i + 1;
    }
    assert list[..i] == list;
    FilterSame(list, keep, (r: Release) => r.namespace == ns && r !in stack);
  }

  /** A namespace the stack occupies on its own: Helm could be listed, and no
      release there is someone else's. */
  predicate OursAlone(ns: string, helmListed: bool, list: seq<Release>, stack: seq<Release>) {
    helmListed && ForeignIn(list, ns, stack) == []
  }

  /** Whether an object counts as the stack's, by its own namespace or, without
      one, by its release's or the group's list. */
  predicate Ours(o: Object, g: CRDGroup, deleting: set<string>) {
    if o.namespace != "" then OurNamespace(o.namespace, g, deleting)
    else OurNamespace(o.helm, g, deleting) || (o.kind, o.name) in g.own
  }

  predicate OurNamespace(ns: string, g: CRDGroup, deleting: set<string>) {
    ns in deleting || (g.owner.Some? && ns == g.owner.value.namespace)
  }

  function UsedKinds(g: CRDGroup, present: seq<string>): seq<string> {
    Filter(g.usedBy, (crd: string) => crd in present)
  }

  /** Whether something outside the stack uses the group, or may. */
  predicate InUse(g: CRDGroup, present: seq<string>, deleting: set<string>, c: Cluster) {
    var kinds := UsedKinds(g, present);
    kinds != [] && (!c.listable(kinds) || exists o | o in c.objects :: o.crd in kinds && !Ours(o, g, deleting))
  }

  method GroupInUse(g: CRDGroup, present: seq<string>, deleting: set<string>, c: Cluster) returns (used: bool)
    ensures used == InUse(g, present, deleting, c)
  {
    var kinds := UsedKinds(g, present);
    if kinds == [] {
      return false;
    }
    if !c.listable(kinds) {
      return true;
    }
    var elsewhere: seq<(string, string)> := [];
    var i := 0;
    while i < |c.objects|
      invariant 0 <= i <= |c.objects|
      invariant elsewhere != [] <==> exists o | o in c.objects[..i] :: o.crd in kinds && !Ours(o, g, deleting)
    {
      var o := c.objects[i];
      assert c.objects[..i + 1] == c.objects[..i] + [o];
      if o.crd in kinds {
        if o.namespace != "" && OurNamespace(o.namespace, g, deleting) {
        } else if o.namespace == "" && (OurNamespace(o.helm, g, deleting) || (o.kind, o.name) in g.own) {
        } else {
          elsewhere := elsewhere + [(o.kind, o.namespace)];
        }
      }
      i := i + 1;
    }
    assert c.objects[..i] == c.objects;
    used := elsewhere != [];
  }

  // ------------------------------------------------------ narrowing the plan

  function OperatorNamespaces(table: seq<Component>, releases: seq<Release>): set<string> {
    set r | r in releases && IsOperatorRelease(table, r.name) :: r.namespace
  }

  /** What a kept group takes out of the plan: its CRDs, and with an operator of
      its own that operator and its namespace. */
  predicate TakesCRD(g: CRDGroup, crd: string) { crd in g.crds }
  predicate TakesRelease(g: CRDGroup, r: Release) { g.owner == Some(r) }
  predicate TakesNamespace(g: CRDGroup, ns: string) { g.owner.Some? && g.owner.value.namespace == ns }

  function KeptGroups(groups: seq<CRDGroup>, present: seq<string>, deleting: set<string>, c: Cluster): seq<CRDGroup> {
    Filter(groups, (g: CRDGroup) => InUse(g, present, deleting, c))
  }

  /** The namespaces that go: alone ours, and of no kept group's operator. */
  function GoingNS(ns: seq<string>, kept: seq<CRDGroup>): seq<string> {
    Filter(ns, (n: string) => !exists g | g in kept :: TakesNamespace(g, n))
  }

  function GoingCRDs(crds: seq<string>, kept: seq<CRDGroup>): seq<string> {
    Filter(crds, (crd: string) => !exists g | g in kept :: TakesCRD(g, crd))
  }

  function GoingReleases(rs: seq<Release>, kept: seq<CRDGroup>): seq<Release> {
    Filter(rs, (r: Release) => !exists g | g in kept :: TakesRelease(g, r))
  }

  predicate Goes(o: ClusterObject, c: Cluster, going: seq<string>) {
    match c.owner(o)
    case Installed(helm) => helm == "" || helm in going
    case _ => false
  }

  function GoingObjects(os: seq<ClusterObject>, c: Cluster, going: seq<string>): seq<ClusterObject> {
    Filter(os, (o: ClusterObject) => Goes(o, c, going))
  }

  /** One more kept group narrows each list by what it takes. */
  lemma KeepOneMore(ns: seq<string>, crds: seq<string>, rs: seq<Release>, kept: seq<CRDGroup>, g: CRDGroup)
    ensures GoingNS(ns, kept + [g]) == Filter(GoingNS(ns, kept), (n: string) => !TakesNamespace(g, n))
    ensures GoingCRDs(crds, kept + [g]) == Filter(GoingCRDs(crds, kept), (crd: string) => !TakesCRD(g, crd))
    ensures GoingReleases(rs, kept + [g]) == Filter(GoingReleases(rs, kept), (r: Release) => !TakesRelease(g, r))
  {
    var more := kept + [g];
    assert forall h :: h in more <==> h in kept || h == g;
    FilterTwice(ns, (n: string) => !exists h | h in kept :: TakesNamespace(h, n), (n: string) => !TakesNamespace(g, n),
                (n: string) => !exists h | h in more :: TakesNamespace(h, n));
    FilterTwice(crds, (crd: string) => !exists h | h in kept :: TakesCRD(h, crd), (crd: string) => !TakesCRD(g, crd),
                (crd: string) => !exists h | h in more :: TakesCRD(h, crd));
    FilterTwice(rs, (r: Release) => !exists h | h in kept :: TakesRelease(h, r), (r: Release) => !TakesRelease(g, r),
                (r: Release) => !exists h | h in more :: TakesRelease(h, r));
  }

  lemma KeepNone(ns: seq<string>, crds: seq<string>, rs: seq<Release>)
    ensures GoingNS(ns, []) == ns && GoingCRDs(crds, []) == crds && GoingReleases(rs, []) == rs
  {
    FilterAll(ns, (n: string) => !exists h | h in [] :: TakesNamespace(h, n));
    FilterAll(crds, (crd: string) => !exists h | h in [] :: TakesCRD(h, crd));
    FilterAll(rs, (r: Release) => !exists h | h in [] :: TakesRelease(h, r));
  }

  /** The namespaces left once those shared with another release are kept. */
  function AloneNS(ns: seq<string>, helmListed: bool, list: seq<Release>, stack: seq<Release>): seq<string> {
    Filter(ns, (n: string) => OursAlone(n, helmListed, list, stack))
  }

  function Deleting(alone: seq<string>, operatorNS: set<string>): set<string> {
    set ns | ns in alone && ns !in operatorNS
  }

  // ------------------------------------------------ what is said to be kept

  function Noted<T(!new)>(xs: seq<T>, note: T -> seq<Kept>): seq<Kept> {
    if xs == [] then [] else note(xs[0]) + Noted(xs[1..], note)
  }

  lemma {:induction false} NotedSnoc<T(!new)>(xs: seq<T>, x: T, note: T -> seq<Kept>)
    ensures Noted(xs + [x], note) == Noted(xs, note) + note(x)
  {
    if xs == [] {
      assert [] + [x] == [x] && [x][1..] == [];
    } else {
      assert (xs + [x])[1..] == xs[1..] + [x];
      NotedSnoc(xs[1..], x, note);
    }
  }

  function SharedNote(ns: string, helmListed: bool, list: seq<Release>, stack: seq<Release>): seq<Kept> {
    if !helmListed then [KeptUnlisted(ns)]
    else if ForeignIn(list, ns, stack) != [] then [KeptNamespace(ns, Names(ForeignIn(list, ns, stack)))]
    else []
  }

  function OwnerNote(o: ClusterObject, c: Cluster, going: seq<string>): seq<Kept> {
    match c.owner(o)
    case Absent => []
    case read => if Goes(o, c, going) then [] else [KeptObject(o, read)]
  }

  function SharedNotes(ns: seq<string>, helmListed: bool, list: seq<Release>, stack: seq<Release>): seq<Kept> {
    Noted(ns, (n: string) => SharedNote(n, helmListed, list, stack))
  }

  function GroupNotes(kept: seq<CRDGroup>): seq<Kept> {
    Noted(kept, (g: CRDGroup) => [KeptGroup(g)])
  }

  function OwnerNotes(os: seq<ClusterObject>, c: Cluster, going: seq<string>): seq<Kept> {
    Noted(os, (o: ClusterObject) => OwnerNote(o, c, going))
  }

  lemma {:induction false} NotedSame<T(!new)>(xs: seq<T>, f: T -> seq<Kept>, g: T -> seq<Kept>)
    requires forall x | x in xs :: f(x) == g(x)
    ensures Noted(xs, f) == Noted(xs, g)
  {
    if xs != [] { NotedSame(xs[1..], f, g); }
  }

  lemma SharedSoFar(all: seq<string>, i: nat, keep: string -> bool, note: string -> seq<Kept>)
    requires i < |all|
    ensures Filter(all[..i + 1], keep) == if keep(all[i]) then Filter(all[..i], keep) + [all[i]] else Filter(all[..i], keep)
    ensures Noted(all[..i + 1], note) == Noted(all[..i], note) + note(all[i])
  {
    FilterSnoc(all[..i], all[i], keep);
    NotedSnoc(all[..i], all[i], note);
    assert all[..i + 1] == all[..i] + [all[i]];
  }

  /** One namespace: whether it stays, and what is said of that. */
  method SharedOne(ns: string, listed: bool, list: seq<Release>, stack: seq<Release>) returns (stays: bool, said: seq<Kept>)
    ensures stays == !OursAlone(ns, listed, list, stack) && said == SharedNote(ns, listed, list, stack)
  {
    if !listed {
      return true, [KeptUnlisted(ns)];
    }
    var foreign := ForeignReleases(list, ns, stack);
    if |foreign| > 0 {
      return true, [KeptNamespace(ns, foreign)];
    }
    return false, [];
  }

  /** A namespace that holds a release kates does not install stays, and so does
      every namespace when Helm cannot be listed. */
  method KeepShared(p: Plan)
    modifies p`existingNS, p`kept
    ensures p.existingNS == AloneNS(old(p.existingNS), p.helmListed, p.helmList, p.releases)
    ensures p.kept == old(p.kept) + SharedNotes(old(p.existingNS), p.helmListed, p.helmList, p.releases)
  {
    var listed, list, stack := p.helmListed, p.helmList, p.releases;
    ghost var keep := (n: string) => OursAlone(n, listed, list, stack);
    ghost var note := (n: string) => SharedNote(n, listed, list, stack);
    var going: seq<string> := [];
    var all := p.existingNS;
    var i := 0;
    while i < |all|
      invariant 0 <= i <= |all|
      invariant p.existingNS == all && p.helmListed == listed && p.helmList == list && p.releases == stack
      invariant going == Filter(all[..i], keep)
      invariant p.kept == old(p.kept) + Noted(all[..i], note)
    {
      var ns := all[i];
      SharedSoFar(all, i, keep, note);
      Regroup(old(p.kept), Noted(all[..i], note), note(ns));
      var stays, said := SharedOne(ns, listed, list, stack);
      p.kept := p.kept + said;
      if !stays {
        going := going + [ns];
      }
      i := i + 1;
    }
    assert all[..i] == all;
    FilterSame(all, keep, (n: string) => OursAlone(n, listed, list, stack));
    NotedSame(all, note, (n: string) => SharedNote(n, listed, list, stack));
    p.existingNS := going;
  }

  lemma KeptSoFar(groups: seq<CRDGroup>, i: nat, present: seq<string>, deleting: set<string>, c: Cluster)
    requires i < |groups|
    ensures KeptGroups(groups[..i + 1], present, deleting, c)
         == if InUse(groups[i], present, deleting, c) then KeptGroups(groups[..i], present, deleting, c) + [groups[i]]
            else KeptGroups(groups[..i], present, deleting, c)
  {
    FilterSnoc(groups[..i], groups[i], (g: CRDGroup) => InUse(g, present, deleting, c));
    assert groups[..i + 1] == groups[..i] + [groups[i]];
  }

  lemma NotedGroup(kept: seq<CRDGroup>, g: CRDGroup)
    ensures GroupNotes(kept + [g]) == GroupNotes(kept) + [KeptGroup(g)]
  {
    NotedSnoc(kept, g, (h: CRDGroup) => [KeptGroup(h)]);
  }

  /** Group by group: one still used keeps its CRDs, its operator and the
      operator's namespace. */
  method KeepUsed(groups: seq<CRDGroup>, p: Plan, c: Cluster, present: seq<string>, deleting: set<string>)
    modifies p`existingNS, p`existingCRDs, p`installed, p`kept
    ensures
      var kept := KeptGroups(groups, present, deleting, c);
      && p.existingNS == GoingNS(old(p.existingNS), kept)
      && p.existingCRDs == GoingCRDs(old(p.existingCRDs), kept)
      && p.installed == GoingReleases(old(p.installed), kept)
      && p.kept == old(p.kept) + GroupNotes(kept)
  {
    ghost var kept: seq<CRDGroup> := [];
    KeepNone(p.existingNS, p.existingCRDs, p.installed);
    var i := 0;
    while i < |groups|
      invariant 0 <= i <= |groups|
      invariant kept == KeptGroups(groups[..i], present, deleting, c)
      invariant p.existingNS == GoingNS(old(p.existingNS), kept)
      invariant p.existingCRDs == GoingCRDs(old(p.existingCRDs), kept)
      invariant p.installed == GoingReleases(old(p.installed), kept)
      invariant p.kept == old(p.kept) + GroupNotes(kept)
    {
      var used := GroupInUse(groups[i], present, deleting, c);
      KeptSoFar(groups, i, present, deleting, c);
      if used {
        KeepOneMore(old(p.existingNS), old(p.existingCRDs), old(p.installed), kept, groups[i]);
        NotedGroup(kept, groups[i]);
        Regroup(old(p.kept), GroupNotes(kept), [KeptGroup(groups[i])]);
        KeepGroup(p, groups[i]);
        kept := kept + [groups[i]];
      }
      i := i + 1;
    }
    assert groups[..i] == groups;
  }

  method KeepGroup(p: Plan, g: CRDGroup)
    modifies p`existingNS, p`existingCRDs, p`installed, p`kept
    ensures p.existingNS == Filter(old(p.existingNS), (n: string) => !TakesNamespace(g, n))
    ensures p.existingCRDs == Filter(old(p.existingCRDs), (crd: string) => !TakesCRD(g, crd))
    ensures p.installed == Filter(old(p.installed), (r: Release) => !TakesRelease(g, r))
    ensures p.kept == old(p.kept) + [KeptGroup(g)]
  {
    p.existingCRDs := Filter(p.existingCRDs, (crd: string) => !TakesCRD(g, crd));
    if g.owner.Some? {
      p.installed := Filter(p.installed, (r: Release) => !TakesRelease(g, r));
      p.existingNS := Filter(p.existingNS, (n: string) => !TakesNamespace(g, n));
    } else {
      FilterAll(p.installed, (r: Release) => !TakesRelease(g, r));
      FilterAll(p.existingNS, (n: string) => !TakesNamespace(g, n));
    }
    p.kept := p.kept + [KeptGroup(g)];
  }

  /** The cluster-wide objects: what cannot be read, or is a release's that the
      plan does not cover, stays. */
  method KeepOwned(p: Plan, c: Cluster)
    modifies p`clusterResources, p`kept
    ensures p.clusterResources == GoingObjects(old(p.clusterResources), c, p.existingNS)
    ensures p.kept == old(p.kept) + OwnerNotes(old(p.clusterResources), c, p.existingNS)
  {
    var namespaces, all := p.existingNS, p.clusterResources;
    ghost var goes := (o: ClusterObject) => Goes(o, c, namespaces);
    ghost var note := (o: ClusterObject) => OwnerNote(o, c, namespaces);
    var going: seq<ClusterObject> := [];
    var i := 0;
    while i < |all|
      invariant 0 <= i <= |all|
      invariant p.existingNS == namespaces && p.clusterResources == all
      invariant going == Filter(all[..i], goes)
      invariant p.kept == old(p.kept) + Noted(all[..i], note)
    {
      var o := all[i];
      FilterSnoc(all[..i], o, goes);
      NotedSnoc(all[..i], o, note);
      assert all[..i + 1] == all[..i] + [o];
      match c.owner(o) {
        case Unreadable => p.kept := p.kept + [KeptObject(o, Unreadable)];
        case Absent =>
        case Installed(helm) =>
          if helm == "" || helm in namespaces {
            going := going + [o];
          } else {
            p.kept := p.kept + [KeptObject(o, Installed(helm))];
          }
      }
      i := i + 1;
    }
    assert all[..i] == all;
    FilterSame(all, goes, (o: ClusterObject) => Goes(o, c, namespaces));
    NotedSame(all, note, (o: ClusterObject) => OwnerNote(o, c, namespaces));
    p.clusterResources := going;
  }

  /** A plan, but for what it was made from. */
  datatype Going = Going(namespaces: seq<string>, crds: seq<string>, releases: seq<Release>, objects: seq<ClusterObject>)

  function Shown(p: Plan): Going
    reads p
  {
    Going(p.existingNS, p.existingCRDs, p.installed, p.clusterResources)
  }

  /** What is left of a plan found, and what is said of the rest. */
  function Narrowed(groups: seq<CRDGroup>, operatorNS: set<string>, stack: seq<Release>, helmListed: bool, list: seq<Release>,
                    found: Going, c: Cluster): (Going, seq<Kept>)
  {
    var alone := AloneNS(found.namespaces, helmListed, list, stack);
    var kept := KeptGroups(groups, found.crds, Deleting(alone, operatorNS), c);
    var namespaces := GoingNS(alone, kept);
    (Going(namespaces, GoingCRDs(found.crds, kept), GoingReleases(found.releases, kept), GoingObjects(found.objects, c, namespaces)),
     SharedNotes(found.namespaces, helmListed, list, stack) + GroupNotes(kept) + OwnerNotes(found.objects, c, namespaces))
  }

  method KeepForOthers(table: seq<Component>, groups: seq<CRDGroup>, p: Plan, c: Cluster)
    modifies p
    ensures p.releases == old(p.releases) && p.namespaces == old(p.namespaces) && p.crds == old(p.crds)
    ensures p.helmListed == old(p.helmListed) && p.helmList == old(p.helmList) && p.presentCRDs == old(p.presentCRDs)
    ensures
      var (going, notes) := Narrowed(groups, OperatorNamespaces(table, p.releases), p.releases, p.helmListed, p.helmList, old(Shown(p)), c);
      Shown(p) == going && p.kept == old(p.kept) + notes
  {
    var operatorNS := OperatorNamespaces(table, p.releases);
    ghost var before, found := p.kept, Shown(p);
    KeepShared(p);
    ghost var alone := p.existingNS;
    var deleting := Deleting(p.existingNS, operatorNS);
    KeepUsed(groups, p, c, p.existingCRDs, deleting);
    KeepOwned(p, c);
    ghost var shared, used := SharedNotes(found.namespaces, p.helmListed, p.helmList, p.releases), GroupNotes(KeptGroups(groups, found.crds, deleting, c));
    Regroup(before, shared, used);
    Regroup(before, shared + used, OwnerNotes(found.objects, c, p.existingNS));
  }
}
