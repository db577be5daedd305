/** What the narrowed plan of one `kates clean` may delete, over every cluster
    (cli/cmd/clean.go, clean_shared.go and components.go together). */
module CleanSafety {
  import opened Values
  import opened Lists
  import opened Components
  import opened CleanPlan

  function Set(ns: seq<string>): (s: set<string>)
    ensures forall n :: n in s <==> n in ns
  {
    set n | n in ns
  }

  // --------------------------------------------------------- what is promised

  /** The group's operator lives in the namespace. */
  ghost predicate IsHomeOf(g: CRDGroup, ns: string) {
    exists r :: g.owner == Some(r) && ns == r.namespace
  }

  /** The object is nobody else's: it is in one of the namespaces or its group's
      operator's; or it is in none, and Helm installed it from such a namespace
      or the group lists it. */
  ghost predicate IsTheStacks(o: Object, g: CRDGroup, namespaces: set<string>) {
    || (o.namespace != "" && (o.namespace in namespaces || IsHomeOf(g, o.namespace)))
    || (o.namespace == "" && (o.helm in namespaces || IsHomeOf(g, o.helm)))
    || (o.namespace == "" && exists own :: own in g.own && own.0 == o.kind && own.1 == o.name)
  }

  lemma OursAreTheStacks(o: Object, g: CRDGroup, namespaces: set<string>)
    ensures Ours(o, g, namespaces) <==> IsTheStacks(o, g, namespaces)
  {
    if g.owner.Some? { assert g.owner == Some(g.owner.value); }
  }

  /** With a CRD go all objects of its kind: each one the groups watch
      is the stack's own, in a namespace that really goes or the operator's. */
  ghost predicate NothingOfOthers(groups: seq<CRDGroup>, c: Cluster, going: Going) {
    forall g, crd, o | g in groups && crd in g.usedBy && crd in going.crds && o in c.objects && o.crd == crd ::
      IsTheStacks(o, g, Set(going.namespaces))
  }

  /** Why a group stays: of the kinds it watches some are there, and they cannot
      be listed or one has an object that is somebody else's. */
  ghost predicate UsedByOthers(g: CRDGroup, present: seq<string>, namespaces: set<string>, c: Cluster) {
    && (exists crd :: crd in g.usedBy && crd in present)
    && (!c.listable(UsedKinds(g, present))
        || exists o :: o in c.objects && o.crd in g.usedBy && o.crd in present && !IsTheStacks(o, g, namespaces))
  }

  lemma InUseByOthers(g: CRDGroup, present: seq<string>, namespaces: set<string>, c: Cluster)
    ensures InUse(g, present, namespaces, c) <==> UsedByOthers(g, present, namespaces, c)
  {
    var kinds := UsedKinds(g, present);
    if kinds != [] { assert kinds[0] in kinds; }
    forall o ensures Ours(o, g, namespaces) <==> IsTheStacks(o, g, namespaces) {
      OursAreTheStacks(o, g, namespaces);
    }
  }

  /** No namespace that goes holds a release the stack did not install. */
  ghost predicate NoForeignRelease(helm: Option<seq<Release>>, stack: seq<Release>, going: Going) {
    forall ns | ns in going.namespaces ::
      helm.Some? && forall r | r in helm.value && r.namespace == ns :: r in stack
  }

  /** A group stays whole or goes whole: one noted as kept keeps its operator,
      the operator's namespace and every CRD, and no CRD stays otherwise. */
  ghost predicate KeptTogether(notes: seq<Kept>, present: seq<string>, going: Going) {
    && (forall g | KeptGroup(g) in notes ::
          && (forall crd | crd in g.crds :: crd !in going.crds)
          && (g.owner.Some? ==> g.owner.value !in going.releases && g.owner.value.namespace !in going.namespaces))
    && (forall crd | crd in present && crd !in going.crds :: exists g :: KeptGroup(g) in notes && crd in g.crds)
  }

  /** A cluster-scoped object that goes is there, and no release outside the
      plan's namespaces installed it. */
  ghost predicate OwnObjects(c: Cluster, going: Going) {
    forall o | o in going.objects ::
      c.owner(o).Installed? && (c.owner(o).helm == "" || c.owner(o).helm in going.namespaces)
  }

  ghost predicate Safe(groups: seq<CRDGroup>, c: Cluster, stack: seq<Release>, notes: seq<Kept>, present: seq<string>, going: Going) {
    && NothingOfOthers(groups, c, going)
    && NoForeignRelease(c.helm, stack, going)
    && KeptTogether(notes, present, going)
    && OwnObjects(c, going)
  }

  // ----------------------------------------------------- what is said of it

  /** The namespaces a group is judged by: those found that hold no release of
      others, but for the operators'. */
  ghost predicate IsJudged(ns: string, found: seq<string>, helm: Option<seq<Release>>, stack: seq<Release>, operatorNS: set<string>) {
    ns in found && ns !in operatorNS && helm.Some? && forall r | r in helm.value && r.namespace == ns :: r in stack
  }

  /** What a note says is so. */
  ghost predicate IsTrue(k: Kept, groups: seq<CRDGroup>, c: Cluster, stack: seq<Release>, found: Going, judged: set<string>, going: Going) {
    match k
    case KeptUnlisted(ns) => c.helm.None? && ns in found.namespaces && ns !in going.namespaces
    case KeptNamespace(ns, foreign) =>
      && c.helm.Some? && ns in found.namespaces && ns !in going.namespaces && foreign != []
      && forall name :: name in foreign <==> exists r :: r in c.helm.value && r.namespace == ns && r.name == name && r !in stack
    case KeptGroup(g) => g in groups && UsedByOthers(g, found.crds, judged, c)
    case KeptObject(o, read) =>
      && o in found.objects && o !in going.objects && read == c.owner(o)
      && (read.Unreadable? || (read.Installed? && read.helm != "" && read.helm !in going.namespaces))
  }

  ghost function Judged(found: seq<string>, helm: Option<seq<Release>>, stack: seq<Release>, operatorNS: set<string>): set<string> {
    set ns | ns in found && IsJudged(ns, found, helm, stack, operatorNS)
  }

  /** The notes are true, and with the plan they tell all that was found. */
  ghost predicate TellsAll(groups: seq<CRDGroup>, operatorNS: set<string>, c: Cluster, stack: seq<Release>, notes: seq<Kept>,
                           found: Going, going: Going) {
    && (forall k | k in notes :: IsTrue(k, groups, c, stack, found, Judged(found.namespaces, c.helm, stack, operatorNS), going))
    && NothingUnsaid(c, notes, found, going)
  }

  ghost predicate IsNoted(ns: string, notes: seq<Kept>) {
    KeptUnlisted(ns) in notes || exists foreign :: KeptNamespace(ns, foreign) in notes
  }

  /** Nothing is added to what was found, and nothing leaves it unsaid: what does
      not go is noted, is of a noted group's operator, or is not there. */
  ghost predicate NothingUnsaid(c: Cluster, notes: seq<Kept>, found: Going, going: Going) {
    && (forall ns :: ns in going.namespaces ==> ns in found.namespaces)
    && (forall crd :: crd in going.crds ==> crd in found.crds)
    && (forall r :: r in going.releases ==> r in found.releases)
    && (forall o :: o in going.objects ==> o in found.objects)
    && (forall ns | ns in found.namespaces && ns !in going.namespaces :: IsNoted(ns, notes) || exists g :: KeptGroup(g) in notes && IsHomeOf(g, ns))
    && (forall r | r in found.releases && r !in going.releases :: exists g :: KeptGroup(g) in notes && g.owner == Some(r))
    && (forall o | o in found.objects && o !in going.objects :: c.owner(o).Absent? || KeptObject(o, c.owner(o)) in notes)
  }

  // ----------------------------------------------------------------- the proof

  /** The namespace of a group's operator counts as an operator's, or the plan
      does not delete it anyway. */
  ghost predicate OwnersSetApart(groups: seq<CRDGroup>, operatorNS: set<string>, namespaces: seq<string>) {
    forall g | g in groups && g.owner.Some? ::
      g.owner.value.namespace in operatorNS || g.owner.value.namespace !in namespaces
  }

  ghost predicate WatchesItsOwn(groups: seq<CRDGroup>) {
    forall g, crd | g in groups && crd in g.usedBy :: crd in g.crds
  }

  /** The set each group was judged by is still deleted after the last group:
      keeping a group takes back operator namespaces only. */
  lemma JudgedNamespacesGo(groups: seq<CRDGroup>, alone: seq<string>, operatorNS: set<string>, kept: seq<CRDGroup>)
    requires OwnersSetApart(groups, operatorNS, alone)
    requires forall g | g in kept :: g in groups
    ensures Deleting(alone, operatorNS) <= Set(GoingNS(alone, kept))
  {
    forall ns | ns in Deleting(alone, operatorNS)
      ensures ns in GoingNS(alone, kept)
    {
      if g :| g in kept && TakesNamespace(g, ns) { assert g in groups; }
    }
  }

  lemma GoingCRDsAreUnused(groups: seq<CRDGroup>, alone: seq<string>, operatorNS: set<string>, present: seq<string>, c: Cluster, going: Going)
    requires OwnersSetApart(groups, operatorNS, alone) && WatchesItsOwn(groups)
    requires going.namespaces == GoingNS(alone, KeptGroups(groups, present, Deleting(alone, operatorNS), c))
    requires going.crds == GoingCRDs(present, KeptGroups(groups, present, Deleting(alone, operatorNS), c))
    ensures NothingOfOthers(groups, c, going)
  {
    var deleting := Deleting(alone, operatorNS);
    var kept := KeptGroups(groups, present, deleting, c);
    JudgedNamespacesGo(groups, alone, operatorNS, kept);
    forall g, crd, o | g in groups && crd in g.usedBy && crd in going.crds && o in c.objects && o.crd == crd
      ensures IsTheStacks(o, g, Set(going.namespaces))
    {
      OursAreTheStacks(o, g, Set(going.namespaces));
      assert TakesCRD(g, crd);
      assert g !in kept;
      assert crd in UsedKinds(g, present);
      assert Ours(o, g, deleting);
    }
  }

  lemma {:induction false} NotedOf<T(!new)>(xs: seq<T>, note: T -> seq<Kept>, k: Kept)
    ensures k in Noted(xs, note) <==> exists x :: x in xs && k in note(x)
  {
    if xs != [] {
      NotedOf(xs[1..], note, k);
      assert xs == [xs[0]] + xs[1..];
    }
  }

  /** A group is noted exactly when it was kept. */
  lemma NotedGroups(ns: seq<string>, helmListed: bool, list: seq<Release>, stack: seq<Release>, kept: seq<CRDGroup>,
                    os: seq<ClusterObject>, c: Cluster, going: seq<string>, g: CRDGroup)
    ensures KeptGroup(g) in SharedNotes(ns, helmListed, list, stack) + GroupNotes(kept) + OwnerNotes(os, c, going) <==> g in kept
  {
    NotedOf(ns, (n: string) => SharedNote(n, helmListed, list, stack), KeptGroup(g));
    NotedOf(kept, (h: CRDGroup) => [KeptGroup(h)], KeptGroup(g));
    NotedOf(os, (o: ClusterObject) => OwnerNote(o, c, going), KeptGroup(g));
    assert forall h | g == h :: KeptGroup(g) in [KeptGroup(h)];
  }

  lemma GroupsStayWhole(notes: seq<Kept>, alone: seq<string>, installed: seq<Release>, present: seq<string>, kept: seq<CRDGroup>, going: Going)
    requires forall g :: KeptGroup(g) in notes <==> g in kept
    requires going.namespaces == GoingNS(alone, kept) && going.crds == GoingCRDs(present, kept)
    requires going.releases == GoingReleases(installed, kept)
    ensures KeptTogether(notes, present, going)
  {
    forall g | KeptGroup(g) in notes
      ensures forall crd | crd in g.crds :: crd !in going.crds
      ensures g.owner.Some? ==> g.owner.value !in going.releases && g.owner.value.namespace !in going.namespaces
    {
      forall crd | crd in g.crds ensures crd !in going.crds { assert TakesCRD(g, crd); }
      if g.owner.Some? {
        assert TakesRelease(g, g.owner.value) && TakesNamespace(g, g.owner.value.namespace);
      }
    }
    forall crd | crd in present && crd !in going.crds
      ensures exists g :: KeptGroup(g) in notes && crd in g.crds
    {
      var g :| g in kept && TakesCRD(g, crd);
      assert KeptGroup(g) in notes;
    }
  }

  lemma AloneHoldsNoForeign(ns: seq<string>, helm: Option<seq<Release>>, list: seq<Release>, stack: seq<Release>, kept: seq<CRDGroup>, going: Going)
    requires helm.Some? ==> list == helm.value
    requires going.namespaces == GoingNS(AloneNS(ns, helm.Some?, list, stack), kept)
    ensures NoForeignRelease(helm, stack, going)
  {
    forall n | n in going.namespaces
      ensures helm.Some? && forall r | r in helm.value && r.namespace == n :: r in stack
    {
      assert OursAlone(n, helm.Some?, list, stack);
      forall r | r in helm.value && r.namespace == n
        ensures r in stack
      {
        assert r !in ForeignIn(list, n, stack);
      }
    }
  }

  /** Whatever was found on whatever cluster, the plan narrowed for others is
      safe, while each owner's namespace is set apart. */
  lemma NarrowedPlanIsSafe(groups: seq<CRDGroup>, operatorNS: set<string>, stack: seq<Release>, list: seq<Release>, found: Going, c: Cluster)
    requires OwnersSetApart(groups, operatorNS, found.namespaces) && WatchesItsOwn(groups)
    requires c.helm.Some? ==> list == c.helm.value
    ensures
      var (going, notes) := Narrowed(groups, operatorNS, stack, c.helm.Some?, list, found, c);
      Safe(groups, c, stack, notes, found.crds, going)
  {
    var (going, notes) := Narrowed(groups, operatorNS, stack, c.helm.Some?, list, found, c);
    var alone := AloneNS(found.namespaces, c.helm.Some?, list, stack);
    var kept := KeptGroups(groups, found.crds, Deleting(alone, operatorNS), c);
    GoingCRDsAreUnused(groups, alone, operatorNS, found.crds, c, going);
    AloneHoldsNoForeign(found.namespaces, c.helm, list, stack, kept, going);
    forall g ensures KeptGroup(g) in notes <==> g in kept {
      NotedGroups(found.namespaces, c.helm.Some?, list, stack, kept, found.objects, c, going.namespaces, g);
    }
    GroupsStayWhole(notes, alone, found.releases, found.crds, kept, going);
  }

  /** On every cluster each note is true, and nothing is left out unsaid. */
  lemma NotesTellAll(groups: seq<CRDGroup>, operatorNS: set<string>, stack: seq<Release>, list: seq<Release>, found: Going, c: Cluster)
    requires c.helm.Some? ==> list == c.helm.value
    ensures
      var (going, notes) := Narrowed(groups, operatorNS, stack, c.helm.Some?, list, found, c);
      TellsAll(groups, operatorNS, c, stack, notes, found, going)
  {
    var (going, notes) := Narrowed(groups, operatorNS, stack, c.helm.Some?, list, found, c);
    var judged := Judged(found.namespaces, c.helm, stack, operatorNS);
    var alone := AloneNS(found.namespaces, c.helm.Some?, list, stack);
    var kept := KeptGroups(groups, found.crds, Deleting(alone, operatorNS), c);
    JudgedSet(found.namespaces, operatorNS, stack, list, c, judged);
    forall k | k in notes ensures IsTrue(k, groups, c, stack, found, judged, going) {
      if k in SharedNotes(found.namespaces, c.helm.Some?, list, stack) {
        SharedNoteIsTrue(k, groups, c, stack, list, found, judged, going, kept);
      } else if k in GroupNotes(kept) {
        GroupNoteIsTrue(k, groups, c, stack, found, judged, going, kept);
      } else {
        OwnerNoteIsTrue(k, groups, c, stack, found, judged, going);
      }
    }
    forall ns | ns in found.namespaces && ns !in going.namespaces
      ensures IsNoted(ns, notes) || exists g :: KeptGroup(g) in notes && IsHomeOf(g, ns)
    {
      NamespaceIsSaid(ns, found.namespaces, c, stack, list, kept);
    }
    forall r | r in found.releases && r !in going.releases ensures exists g :: KeptGroup(g) in notes && g.owner == Some(r) {
      var g :| g in kept && TakesRelease(g, r);
      NotedOf(kept, (h: CRDGroup) => [KeptGroup(h)], KeptGroup(g));
    }
    forall o | o in found.objects && o !in going.objects ensures c.owner(o).Absent? || KeptObject(o, c.owner(o)) in notes {
      NotedOf(found.objects, (p: ClusterObject) => OwnerNote(p, c, going.namespaces), KeptObject(o, c.owner(o)));
    }
  }

  lemma AloneIsFree(ns: string, c: Cluster, stack: seq<Release>, list: seq<Release>)
    requires c.helm.Some? ==> list == c.helm.value
    ensures OursAlone(ns, c.helm.Some?, list, stack) <==> c.helm.Some? && forall r | r in c.helm.value && r.namespace == ns :: r in stack
  {
    if c.helm.Some? {
      var foreign := ForeignIn(list, ns, stack);
      if foreign != [] { assert foreign[0] in foreign; }
      forall r | r in list && r.namespace == ns && r !in stack ensures r in foreign {}
    }
  }

  lemma JudgedSet(found: seq<string>, operatorNS: set<string>, stack: seq<Release>, list: seq<Release>, c: Cluster, judged: set<string>)
    requires c.helm.Some? ==> list == c.helm.value
    requires judged == Judged(found, c.helm, stack, operatorNS)
    ensures Deleting(AloneNS(found, c.helm.Some?, list, stack), operatorNS) == judged
  {
    forall ns ensures ns in Deleting(AloneNS(found, c.helm.Some?, list, stack), operatorNS) <==> ns in judged {
      AloneIsFree(ns, c, stack, list);
    }
  }

  lemma SharedNoteIsTrue(k: Kept, groups: seq<CRDGroup>, c: Cluster, stack: seq<Release>, list: seq<Release>, found: Going,
                         judged: set<string>, going: Going, kept: seq<CRDGroup>)
    requires c.helm.Some? ==> list == c.helm.value
    requires k in SharedNotes(found.namespaces, c.helm.Some?, list, stack)
    requires going.namespaces == GoingNS(AloneNS(found.namespaces, c.helm.Some?, list, stack), kept)
    ensures IsTrue(k, groups, c, stack, found, judged, going)
  {
    NotedOf(found.namespaces, (n: string) => SharedNote(n, c.helm.Some?, list, stack), k);
    var ns :| ns in found.namespaces && k in SharedNote(ns, c.helm.Some?, list, stack);
    assert !OursAlone(ns, c.helm.Some?, list, stack);
    if c.helm.Some? { NamesOfForeign(list, ns, stack); }
  }

  lemma NamesOfForeign(list: seq<Release>, ns: string, stack: seq<Release>)
    ensures forall name ::
      (name in Names(ForeignIn(list, ns, stack)) <==> exists r :: r in list && r.namespace == ns && r.name == name && r !in stack)
  {
    var foreign := ForeignIn(list, ns, stack);
    forall name ensures name in Names(foreign) <==> exists r :: r in list && r.namespace == ns && r.name == name && r !in stack {
      if name in Names(foreign) {
        var i :| 0 <= i < |foreign| && Names(foreign)[i] == name;
        assert foreign[i] in foreign;
      }
      if r :| r in list && r.namespace == ns && r.name == name && r !in stack {
        assert r in foreign;
        var i :| 0 <= i < |foreign| && foreign[i] == r;
        assert Names(foreign)[i] == name;
      }
    }
  }

  lemma GroupNoteIsTrue(k: Kept, groups: seq<CRDGroup>, c: Cluster, stack: seq<Release>, found: Going,
                        judged: set<string>, going: Going, kept: seq<CRDGroup>)
    requires k in GroupNotes(kept) && kept == KeptGroups(groups, found.crds, judged, c)
    ensures IsTrue(k, groups, c, stack, found, judged, going)
  {
    NotedOf(kept, (h: CRDGroup) => [KeptGroup(h)], k);
    var g :| g in kept && k in [KeptGroup(g)];
    InUseByOthers(g, found.crds, judged, c);
  }

  lemma OwnerNoteIsTrue(k: Kept, groups: seq<CRDGroup>, c: Cluster, stack: seq<Release>, found: Going, judged: set<string>, going: Going)
    requires k in OwnerNotes(found.objects, c, going.namespaces) && going.objects == GoingObjects(found.objects, c, going.namespaces)
    ensures IsTrue(k, groups, c, stack, found, judged, going)
  {
    NotedOf(found.objects, (o: ClusterObject) => OwnerNote(o, c, going.namespaces), k);
  }

  lemma NamespaceIsSaid(ns: string, found: seq<string>, c: Cluster, stack: seq<Release>, list: seq<Release>, kept: seq<CRDGroup>)
    requires ns in found && ns !in GoingNS(AloneNS(found, c.helm.Some?, list, stack), kept)
    ensures IsNoted(ns, SharedNotes(found, c.helm.Some?, list, stack)) || exists g :: KeptGroup(g) in GroupNotes(kept) && IsHomeOf(g, ns)
  {
    var notes := SharedNotes(found, c.helm.Some?, list, stack);
    if OursAlone(ns, c.helm.Some?, list, stack) {
      var g :| g in kept && TakesNamespace(g, ns);
      NotedOf(kept, (h: CRDGroup) => [KeptGroup(h)], KeptGroup(g));
      assert g.owner == Some(g.owner.value);
    } else {
      var k := SharedNote(ns, c.helm.Some?, list, stack)[0];
      NotedOf(found, (n: string) => SharedNote(n, c.helm.Some?, list, stack), k);
    }
  }

  /** Under every placement the real targets set each owner's namespace apart. */
  lemma TargetsSetOwnersApart(table: seq<Component>, groups: seq<CRDGroup>, placements: seq<Placement>,
                              releases: seq<Release>, namespaces: seq<string>)
    requires Consistent(table, groups)
    requires forall r :: r in releases <==> exists p | p in placements :: r in Releases(table, p)
    requires forall ns :: ns in namespaces <==> exists p | p in placements :: ns in Namespaces(table, p)
    ensures OwnersSetApart(groups, OperatorNamespaces(table, releases), namespaces)
  {
    forall g | g in groups && g.owner.Some? && g.owner.value.namespace in namespaces
      ensures g.owner.value.namespace in OperatorNamespaces(table, releases)
    {
      var owner := g.owner.value;
      var p :| p in placements && owner.namespace in Namespaces(table, p);
      assert OwnedByOperator(table, owner);
      InReleases(table, p, Component(owner.name, Fixed(owner.namespace), true));
      assert owner in Releases(table, p);
    }
  }

  lemma PlanIsRight(groups: seq<CRDGroup>, operatorNS: set<string>, namespaces: seq<string>, stack: seq<Release>, list: seq<Release>,
                    found: Going, c: Cluster, going: Going, notes: seq<Kept>)
    requires OwnersSetApart(groups, operatorNS, namespaces) && WatchesItsOwn(groups)
    requires c.helm.Some? ==> list == c.helm.value
    requires found.namespaces == PresentOf(namespaces, c.namespaces, c.namespaceExists)
    requires going == Narrowed(groups, operatorNS, stack, c.helm.Some?, list, found, c).0
    requires notes == [] + Narrowed(groups, operatorNS, stack, c.helm.Some?, list, found, c).1
    ensures Safe(groups, c, stack, notes, found.crds, going) && TellsAll(groups, operatorNS, c, stack, notes, found, going)
  {
    NarrowedPlanIsSafe(groups, operatorNS, stack, list, found, c);
    NotesTellAll(groups, operatorNS, stack, list, found, c);
    assert notes == Narrowed(groups, operatorNS, stack, c.helm.Some?, list, found, c).1;
  }

  /** The list names it or, where the list failed, it is found on its own. */
  ghost predicate IsThere<T>(listed: Option<seq<T>>, alone: T -> bool, x: T) {
    (listed.Some? && x in listed.value) || (listed.None? && alone(x))
  }

  ghost function OperatorHomes(table: seq<Component>, stack: seq<Release>): set<string> {
    set r | r in stack && IsOperatorsName(table, r.name) :: r.namespace
  }

  lemma OperatorHomesAre(table: seq<Component>, stack: seq<Release>)
    ensures OperatorNamespaces(table, stack) == OperatorHomes(table, stack)
  {
    forall r | r in stack ensures IsOperatorRelease(table, r.name) <==> IsOperatorsName(table, r.name) {
      ByReleaseIsFirst(table, r.name);
    }
  }

  /** Discovery and narrowing of a plan for the targets. */
  method PlanFor(table: seq<Component>, groups: seq<CRDGroup>, releases: seq<Release>, namespaces: seq<string>, crds: seq<string>,
                 clusterResources: seq<ClusterObject>, c: Cluster)
    returns (p: Plan, ghost found: Going)
    requires OwnersSetApart(groups, OperatorNamespaces(table, releases), namespaces) && WatchesItsOwn(groups)
    ensures fresh(p) && p.releases == releases
    ensures Safe(groups, c, releases, p.kept, found.crds, Shown(p))
    ensures TellsAll(groups, OperatorNamespaces(table, releases), c, releases, p.kept, found, Shown(p))
    ensures found == Going(PresentOf(namespaces, c.namespaces, c.namespaceExists), PresentOf(crds, c.crds, c.crdExists),
                           PresentOf(releases, c.helm, c.helmHas), clusterResources)
  {
    p := new Plan(releases, namespaces, crds, clusterResources);
    Discover(p, c);
    found := Going(p.existingNS, p.existingCRDs, PresentOf(releases, c.helm, c.helmHas), clusterResources);
    assert found.releases == [] + found.releases == p.installed;
    KeepForOthers(table, groups, p, c);
    PlanIsRight(groups, OperatorNamespaces(table, releases), namespaces, releases, p.helmList, found, c, Shown(p), p.kept);
  }

  /** One `kates clean` up to the confirmation: whatever the cluster holds and
      whichever calls fail, the plan it shows is safe, and its notes tell all. */
  method PlanClean(table: seq<Component>, groups: seq<CRDGroup>, placements: seq<Placement>, crds: seq<string>,
                   clusterResources: seq<ClusterObject>, c: Cluster)
    returns (p: Plan, ghost stack: seq<Release>, ghost found: Going)
    requires Consistent(table, groups)
    ensures fresh(p) && p.releases == stack
    ensures forall r :: r in stack <==> exists q | q in placements :: r in Releases(table, q)
    ensures Safe(groups, c, stack, p.kept, found.crds, Shown(p))
    ensures TellsAll(groups, OperatorHomes(table, stack), c, stack, p.kept, found, Shown(p))
    ensures forall ns :: ns in found.namespaces <==> IsThere(c.namespaces, c.namespaceExists, ns) && exists q | q in placements :: ns in Namespaces(table, q)
    ensures forall crd :: crd in found.crds <==> IsThere(c.crds, c.crdExists, crd) && crd in crds
    ensures forall r :: r in found.releases <==> IsThere(c.helm, c.helmHas, r) && r in stack
    ensures found.objects == clusterResources
  {
    var releases, namespaces := CleanTargets(table, placements);
    stack := releases;
    TargetsSetOwnersApart(table, groups, placements, releases, namespaces);
    OperatorHomesAre(table, releases);
    p, found := PlanFor(table, groups, releases, namespaces, crds, clusterResources, c);
  }

  /** Why the owners' namespaces must be set apart: were a's operator in a
      namespace that is judged like any other, keeping that operator for its
      object in `away` would leave b's object in `home` behind, and b's CRD
      would still go. */
  lemma SharedHomeLosesAnObject(a: CRDGroup, b: CRDGroup, home: string, away: string, c: Cluster)
    requires a.owner.Some? && a.owner.value.namespace == home && b.owner == None
    requires home != "" && away != "" && home != away
    requires |a.usedBy| == 1 && a.crds == a.usedBy && |b.usedBy| == 1 && b.crds == b.usedBy && a.usedBy[0] != b.usedBy[0]
    requires c.objects == [Object(a.usedBy[0], "", "", away, ""), Object(b.usedBy[0], "", "", home, "")]
    requires forall kinds :: c.listable(kinds)
    ensures
      var kept := KeptGroups([a, b], a.crds + b.crds, Deleting([home], {}), c);
      && kept == [a] && b.crds[0] in GoingCRDs(a.crds + b.crds, kept)
      && !IsTheStacks(c.objects[1], b, Set(GoingNS([home], kept)))
  {
    var deleting := Deleting([home], {});
    var present := a.crds + b.crds;
    assert deleting == {home};
    UsedByOneObject(a, present, deleting, c, c.objects[0]);
    assert forall o | o in c.objects :: o.crd in UsedKinds(b, present) ==> o == c.objects[1];
    KeptFirst(a, b, present, deleting, c);
    assert TakesNamespace(a, home);
    assert b.crds[0] in present && !TakesCRD(a, b.crds[0]);
  }

  lemma UsedByOneObject(g: CRDGroup, present: seq<string>, deleting: set<string>, c: Cluster, o: Object)
    requires o in c.objects && o.crd in g.usedBy && o.crd in present && !Ours(o, g, deleting)
    ensures InUse(g, present, deleting, c)
  {
    assert o.crd in UsedKinds(g, present);
  }

  lemma KeptFirst(a: CRDGroup, b: CRDGroup, present: seq<string>, deleting: set<string>, c: Cluster)
    requires InUse(a, present, deleting, c) && !InUse(b, present, deleting, c)
    ensures KeptGroups([a, b], present, deleting, c) == [a]
  {
    var inUse := (g: CRDGroup) => InUse(g, present, deleting, c);
    FilterPair(a, b, inUse);
    FilterSame([a, b], inUse, (g: CRDGroup) => InUse(g, present, deleting, c));
  }

  lemma FilterPair<T(!new)>(a: T, b: T, keep: T -> bool)
    requires keep(a) && !keep(b)
    ensures Filter([a, b], keep) == [a]
  {
    assert [b][1..] == [];
    assert Filter([b], keep) == [];
    assert [a, b][1..] == [b] && [a] + [] == [a];
  }

  // ------------------------------------------------------ when nothing is kept

  lemma {:induction false} NotedNothing<T(!new)>(xs: seq<T>, note: T -> seq<Kept>)
    ensures Noted(xs, note) == [] <==> forall x | x in xs :: note(x) == []
  {
    if xs != [] {
      NotedNothing(xs[1..], note);
      assert xs == [xs[0]] + xs[1..];
    }
  }

  /** The cluster holds only the stack: every release in its namespaces is the
      stack's, nothing else uses its kinds, every object can be read and is its
      own. */
  ghost predicate OnlyTheStack(groups: seq<CRDGroup>, operatorNS: set<string>, ns: seq<string>, present: seq<string>,
                               helmListed: bool, list: seq<Release>, stack: seq<Release>, os: seq<ClusterObject>, c: Cluster) {
    && (forall n | n in ns :: helmListed && forall r | r in list && r.namespace == n :: r in stack)
    && (forall g | g in groups :: !UsedByOthers(g, present, Set(ns) - operatorNS, c))
    && (forall o | o in os :: c.owner(o).Absent? || (c.owner(o).Installed? && (c.owner(o).helm == "" || c.owner(o).helm in ns)))
  }

  /** Nothing is noted as kept exactly where nothing but the stack is there,
      and then the plan loses nothing but the objects that are not there. */
  lemma NothingKept(groups: seq<CRDGroup>, operatorNS: set<string>, ns: seq<string>, crds: seq<string>, installed: seq<Release>,
                    helmListed: bool, list: seq<Release>, stack: seq<Release>, os: seq<ClusterObject>, c: Cluster)
    ensures
      var alone := AloneNS(ns, helmListed, list, stack);
      var kept := KeptGroups(groups, crds, Deleting(alone, operatorNS), c);
      var notes := SharedNotes(ns, helmListed, list, stack) + GroupNotes(kept) + OwnerNotes(os, c, GoingNS(alone, kept));
      var only := OnlyTheStack(groups, operatorNS, ns, crds, helmListed, list, stack, os, c);
      && (notes == [] <==> only)
      && (only ==>
            && GoingNS(alone, kept) == ns && GoingCRDs(crds, kept) == crds && GoingReleases(installed, kept) == installed
            && GoingObjects(os, c, ns) == Filter(os, (o: ClusterObject) => !c.owner(o).Absent?))
  {
    var alone := AloneNS(ns, helmListed, list, stack);
    var kept := KeptGroups(groups, crds, Deleting(alone, operatorNS), c);
    var shared, used := SharedNotes(ns, helmListed, list, stack), GroupNotes(kept);
    var owned := OwnerNotes(os, c, GoingNS(alone, kept));
    NoSharedNotes(ns, helmListed, list, stack);
    NoGroupNotes(groups, crds, Deleting(alone, operatorNS), c);
    NoOwnerNotes(os, c, GoingNS(alone, kept));
    if kept == [] { KeepNone(alone, crds, installed); }
    OnlyTheStackIs(groups, operatorNS, ns, crds, helmListed, list, stack, os, c);
    assert shared + used + owned == [] <==> shared == [] && used == [] && owned == [];
  }

  lemma OnlyTheStackIs(groups: seq<CRDGroup>, operatorNS: set<string>, ns: seq<string>, present: seq<string>,
                       helmListed: bool, list: seq<Release>, stack: seq<Release>, os: seq<ClusterObject>, c: Cluster)
    ensures OnlyTheStack(groups, operatorNS, ns, present, helmListed, list, stack, os, c) <==>
      && (forall n | n in ns :: OursAlone(n, helmListed, list, stack))
      && (forall g | g in groups :: !InUse(g, present, Deleting(ns, operatorNS), c))
      && (forall o | o in os :: c.owner(o).Absent? || Goes(o, c, ns))
  {
    assert Deleting(ns, operatorNS) == Set(ns) - operatorNS;
    forall n ensures OursAlone(n, helmListed, list, stack) <==> helmListed && forall r | r in list && r.namespace == n :: r in stack {
      var foreign := ForeignIn(list, n, stack);
      if foreign != [] { assert foreign[0] in foreign; }
      forall r | r in list && r.namespace == n && r !in stack ensures r in foreign {}
    }
    forall g ensures InUse(g, present, Deleting(ns, operatorNS), c) <==> UsedByOthers(g, present, Deleting(ns, operatorNS), c) {
      InUseByOthers(g, present, Deleting(ns, operatorNS), c);
    }
  }

  lemma NoGroupNotes(groups: seq<CRDGroup>, present: seq<string>, deleting: set<string>, c: Cluster)
    ensures
      var kept := KeptGroups(groups, present, deleting, c);
      && (GroupNotes(kept) == [] <==> kept == [])
      && (kept == [] <==> forall g | g in groups :: !InUse(g, present, deleting, c))
  {
    var kept := KeptGroups(groups, present, deleting, c);
    NotedNothing(kept, (g: CRDGroup) => [KeptGroup(g)]);
    if kept != [] { assert kept[0] in groups && InUse(kept[0], present, deleting, c); }
  }

  lemma NoOwnerNotes(os: seq<ClusterObject>, c: Cluster, going: seq<string>)
    ensures OwnerNotes(os, c, going) == [] <==> forall o | o in os :: c.owner(o).Absent? || Goes(o, c, going)
    ensures OwnerNotes(os, c, going) == [] ==> GoingObjects(os, c, going) == Filter(os, (o: ClusterObject) => !c.owner(o).Absent?)
  {
    NotedNothing(os, (o: ClusterObject) => OwnerNote(o, c, going));
    if forall o | o in os :: c.owner(o).Absent? || Goes(o, c, going) {
      FilterSame(os, (o: ClusterObject) => Goes(o, c, going), (o: ClusterObject) => !c.owner(o).Absent?);
    }
  }

  lemma NoSharedNotes(ns: seq<string>, helmListed: bool, list: seq<Release>, stack: seq<Release>)
    ensures SharedNotes(ns, helmListed, list, stack) == [] <==> forall n | n in ns :: OursAlone(n, helmListed, list, stack)
    ensures SharedNotes(ns, helmListed, list, stack) == [] ==> AloneNS(ns, helmListed, list, stack) == ns
  {
    NotedNothing(ns, (n: string) => SharedNote(n, helmListed, list, stack));
    if forall n | n in ns :: OursAlone(n, helmListed, list, stack) {
      FilterAll(ns, (n: string) => OursAlone(n, helmListed, list, stack));
    }
  }
}
