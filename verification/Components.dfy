/** cli/pkg/components/components.go: kates' components, where each goes, and the groups of
    CRDs they bring. */
module Components {
  import opened Values

  datatype Release = Release(name: string, namespace: string)

  datatype NamespaceKey = NSKafka | NSConnect | NSDatabase | NSApp | NSChaos | NSMonitoring | NSKafkaUI | NSMM2

  /** The namespace chosen for each kind of component, and Kafka's release name. */
  datatype Placement = Placement(
    kafka: string, connect: string, database: string, app: string,
    chaos: string, monitoring: string, kafkaUI: string, mm2: string,
    kafkaName: string)

  /** An operator has a namespace of its own; the rest go where they are placed. */
  datatype Home = Fixed(namespace: string) | Placed(key: NamespaceKey)

  /** A row of the table; one with an empty `release` has no Helm release. */
  datatype Component = Component(release: string, home: Home, operator: bool)

  const KAFKA_RELEASE := "$kafka"

  const TABLE: seq<Component> := [
    Component("strimzi-operator", Fixed("strimzi-operator"), true),
    Component("cert-manager", Fixed("cert-manager"), true),
    Component("kyverno", Fixed("kyverno"), true),
    Component(KAFKA_RELEASE, Placed(NSKafka), false),
    Component("", Placed(NSKafka), false),
    Component("monitoring", Placed(NSMonitoring), false),
    Component("postgresql", Placed(NSDatabase), false),
    Component("connect-cluster", Placed(NSConnect), false),
    Component("", Placed(NSConnect), false),
    Component("apicurio", Placed(NSKafka), false),
    Component("kates", Placed(NSApp), false),
    Component("kafka-ui", Placed(NSKafkaUI), false),
    Component("mm2", Placed(NSMM2), false),
    Component("chaos", Placed(NSChaos), false)]

  function NamespaceOf(c: Component, p: Placement): string {
    match c.home
    case Fixed(ns) => ns
    case Placed(NSKafka) => p.kafka
    case Placed(NSConnect) => p.connect
    case Placed(NSDatabase) => p.database
    case Placed(NSApp) => p.app
    case Placed(NSChaos) => p.chaos
    case Placed(NSMonitoring) => p.monitoring
    case Placed(NSKafkaUI) => p.kafkaUI
    case Placed(NSMM2) => p.mm2
  }

  function ReleaseName(c: Component, p: Placement): string {
    if c.release == KAFKA_RELEASE then p.kafkaName else c.release
  }

  /** The first component of the table installed as `release`. */
  function ByRelease(table: seq<Component>, release: string): Option<Component> {
    if table == [] then None
    else if table[0].release == release then Some(table[0])
    else ByRelease(table[1..], release)
  }

  /** `c.Operator` of `ByRelease`: false when no component has that release. */
  predicate IsOperatorRelease(table: seq<Component>, release: string) {
    var c := ByRelease(table, release);
    c.Some? && c.value.operator
  }

  /** The table's rows that are releases, named and placed by p, in its order. */
  function Releases(table: seq<Component>, p: Placement): seq<Release> {
    if table == [] then []
    else
      (if table[0].release != "" then [Release(ReleaseName(table[0], p), NamespaceOf(table[0], p))] else [])
      + Releases(table[1..], p)
  }

  /** The namespaces of the components that are operators, or of those that are not. */
  function NamespacesOf(table: seq<Component>, p: Placement, operators: bool): seq<string> {
    if table == [] then []
    else
      (if table[0].operator == operators && NamespaceOf(table[0], p) != "" then [NamespaceOf(table[0], p)] else [])
      + NamespacesOf(table[1..], p, operators)
  }

  function AddNew<T(==, !new)>(xs: seq<T>, more: seq<T>): (r: seq<T>)
    ensures forall x :: x in r <==> x in xs || x in more
    ensures (forall i, j | 0 <= i < j < |xs| :: xs[i] != xs[j]) ==> forall i, j | 0 <= i < j < |r| :: r[i] != r[j]
    decreases more
  {
    if more == [] then xs
    else
      assert more == [more[0]] + more[1..];
      AddNew(if more[0] in xs then xs else xs + [more[0]], more[1..])
  }

  /** The namespaces the stack occupies under p, each once, operators' own last. */
  function Namespaces(table: seq<Component>, p: Placement): seq<string> {
    AddNew(AddNew([], NamespacesOf(table, p, false)), NamespacesOf(table, p, true))
  }

  /** CRDs that clean keeps or deletes as one. The owner, if any, is the release
      that stays as long as they do. */
  datatype CRDGroup = CRDGroup(
    name: string,
    owner: Option<Release>,
    crds: seq<string>,
    usedBy: seq<string>,
    own: seq<(string, string)>)

  /** An owner of a group is an operator of the table, under its own name. */
  ghost predicate OwnedByOperator(table: seq<Component>, owner: Release) {
    && Component(owner.name, Fixed(owner.namespace), true) in table
    && owner.name != "" && owner.name != KAFKA_RELEASE
    && IsOperatorRelease(table, owner.name)
  }

  /** What the planner relies on of the groups: the kinds that keep a group are
      kinds of the group, and an owner is one of the table's operators. */
  ghost predicate Consistent(table: seq<Component>, groups: seq<CRDGroup>) {
    forall g | g in groups ::
      && (forall crd | crd in g.usedBy :: crd in g.crds)
      && (g.owner.Some? ==> OwnedByOperator(table, g.owner.value))
  }

  lemma {:induction false} InReleases(table: seq<Component>, p: Placement, c: Component)
    requires c in table && c.release != ""
    ensures Release(ReleaseName(c, p), NamespaceOf(c, p)) in Releases(table, p)
  {
    if c != table[0] { InReleases(table[1..], p, c); }
  }

  // ------------------------------------------------------ what the table gives

  /** Operators have their own namespace, and the rest the one chosen for their
      kind. */
  ghost predicate GoesTo(home: Home, p: Placement, ns: string) {
    || home == Fixed(ns)
    || (home == Placed(NSKafka) && ns == p.kafka) || (home == Placed(NSConnect) && ns == p.connect)
    || (home == Placed(NSDatabase) && ns == p.database) || (home == Placed(NSApp) && ns == p.app)
    || (home == Placed(NSChaos) && ns == p.chaos) || (home == Placed(NSMonitoring) && ns == p.monitoring)
    || (home == Placed(NSKafkaUI) && ns == p.kafkaUI) || (home == Placed(NSMM2) && ns == p.mm2)
  }

  /** The release is this row's, under its own name or, for Kafka's, p's. */
  ghost predicate IsReleaseOf(r: Release, c: Component, p: Placement) {
    && c.release != "" && GoesTo(c.home, p, r.namespace)
    && r.name == if c.release == "$kafka" then p.kafkaName else c.release
  }

  lemma {:induction false} ReleasesAre(table: seq<Component>, p: Placement, r: Release)
    ensures r in Releases(table, p) <==> exists c :: c in table && IsReleaseOf(r, c, p)
  {
    if table != [] {
      ReleasesAre(table[1..], p, r);
      assert table == [table[0]] + table[1..];
      assert r == Release(ReleaseName(table[0], p), NamespaceOf(table[0], p)) && table[0].release != "" <==> IsReleaseOf(r, table[0], p);
    }
  }

  lemma {:induction false} NamespacesOfAre(table: seq<Component>, p: Placement, operators: bool, ns: string)
    ensures ns in NamespacesOf(table, p, operators) <==> ns != "" && exists c :: c in table && c.operator == operators && GoesTo(c.home, p, ns)
  {
    if table != [] {
      NamespacesOfAre(table[1..], p, operators, ns);
      assert table == [table[0]] + table[1..];
      assert NamespaceOf(table[0], p) == ns <==> GoesTo(table[0].home, p, ns);
    }
  }

  lemma {:induction false} AddNewKeeps<T(!new)>(xs: seq<T>, more: seq<T>)
    ensures xs <= AddNew(xs, more)
    decreases more
  {
    if more != [] { AddNewKeeps(if more[0] in xs then xs else xs + [more[0]], more[1..]); }
  }

  /** The namespaces are those the rows go to, each once, and one that only
      operators go to comes after the others. */
  lemma NamespacesAre(table: seq<Component>, p: Placement)
    ensures forall ns :: ns in Namespaces(table, p) <==> ns != "" && exists c :: c in table && GoesTo(c.home, p, ns)
    ensures forall i, j | 0 <= i < j < |Namespaces(table, p)| :: Namespaces(table, p)[i] != Namespaces(table, p)[j]
    ensures forall i, j | 0 <= i < j < |Namespaces(table, p)| && (exists c :: c in table && !c.operator && GoesTo(c.home, p, Namespaces(table, p)[j])) ::
      exists c :: c in table && !c.operator && GoesTo(c.home, p, Namespaces(table, p)[i])
  {
    var placed, all := AddNew([], NamespacesOf(table, p, false)), Namespaces(table, p);
    forall ns, operators
      ensures ns in NamespacesOf(table, p, operators) <==> ns != "" && exists c :: c in table && c.operator == operators && GoesTo(c.home, p, ns)
    {
      NamespacesOfAre(table, p, operators, ns);
    }
    AddNewKeeps(placed, NamespacesOf(table, p, true));
    forall i, j | 0 <= i < j < |all| && (exists c :: c in table && !c.operator && GoesTo(c.home, p, all[j]))
      ensures exists c :: c in table && !c.operator && GoesTo(c.home, p, all[i])
    {
      assert all[j] in placed;
      var k :| 0 <= k < |placed| && placed[k] == all[j];
      assert all[k] == placed[k] && k == j;
      assert all[i] == placed[i] && placed[i] in placed;
    }
  }

  /** A release name stands for the first row that has it. */
  lemma {:induction false} ByReleaseIsFirst(table: seq<Component>, release: string)
    ensures match ByRelease(table, release)
            case None => forall c | c in table :: c.release != release
            case Some(c) => exists i :: 0 <= i < |table| && table[i] == c && c.release == release && forall k | 0 <= k < i :: table[k].release != release
  {
    if table != [] {
      ByReleaseIsFirst(table[1..], release);
      assert table == [table[0]] + table[1..];
      if table[0].release != release && ByRelease(table, release).Some? {
        var i :| 0 <= i < |table| - 1 && table[1..][i] == ByRelease(table, release).value && forall k | 0 <= k < i :: table[1..][k].release != release;
        assert table[i + 1] == table[1..][i];
        forall k | 0 <= k < i + 1 ensures table[k].release != release { if k > 0 { assert table[k] == table[1..][k - 1]; } }
      }
    }
  }

  /** The first row of the table with that release is an operator's. */
  ghost predicate IsOperatorsName(table: seq<Component>, name: string) {
    exists i :: 0 <= i < |table| && table[i].release == name && table[i].operator && forall k | 0 <= k < i :: table[k].release != name
  }

  lemma OperatorsNameIs(table: seq<Component>, name: string)
    ensures IsOperatorRelease(table, name) <==> IsOperatorsName(table, name)
  {
    ByReleaseIsFirst(table, name);
  }

  // ---------------------------------------------------------- the groups

  const STRIMZI := Release("strimzi-operator", "strimzi-operator")
  const CERT_MANAGER := Release("cert-manager", "cert-manager")
  const KYVERNO := Release("kyverno", "kyverno")

  const STRIMZI_CRDS := [
    "kafkas.kafka.strimzi.io", "kafkaconnects.kafka.strimzi.io", "kafkatopics.kafka.strimzi.io",
    "kafkausers.kafka.strimzi.io", "kafkanodepools.kafka.strimzi.io", "kafkabridges.kafka.strimzi.io",
    "kafkaconnectors.kafka.strimzi.io", "kafkamirrormaker2s.kafka.strimzi.io",
    "kafkarebalances.kafka.strimzi.io", "strimzipodsets.core.strimzi.io"]

  const LITMUS_CRDS := ["chaosengines.litmuschaos.io", "chaosexperiments.litmuschaos.io", "chaosresults.litmuschaos.io"]

  const PROMETHEUS_CRDS := [
    "alertmanagerconfigs.monitoring.coreos.com", "alertmanagers.monitoring.coreos.com",
    "podmonitors.monitoring.coreos.com", "probes.monitoring.coreos.com",
    "prometheusagents.monitoring.coreos.com", "prometheuses.monitoring.coreos.com",
    "prometheusrules.monitoring.coreos.com", "scrapeconfigs.monitoring.coreos.com",
    "servicemonitors.monitoring.coreos.com", "thanosrulers.monitoring.coreos.com"]

  const CERT_MANAGER_CRDS := [
    "certificaterequests.cert-manager.io", "certificates.cert-manager.io", "challenges.acme.cert-manager.io",
    "clusterissuers.cert-manager.io", "issuers.cert-manager.io", "orders.acme.cert-manager.io"]

  const CERT_MANAGER_USED := [
    "certificates.cert-manager.io", "issuers.cert-manager.io", "clusterissuers.cert-manager.io"]

  const KYVERNO_CRDS := [
    "admissionreports.kyverno.io", "backgroundscanreports.kyverno.io", "clusteradmissionreports.kyverno.io",
    "clusterbackgroundscanreports.kyverno.io", "cleanuppolicies.kyverno.io", "clustercleanuppolicies.kyverno.io",
    "clusterpolicies.kyverno.io", "policies.kyverno.io", "policyexceptions.kyverno.io",
    "updaterequests.kyverno.io"]

  const KYVERNO_USED := [
    "clusterpolicies.kyverno.io", "policies.kyverno.io", "cleanuppolicies.kyverno.io",
    "clustercleanuppolicies.kyverno.io", "policyexceptions.kyverno.io"]

  /** The groups, over their operators' releases and their CRDs. */
  function GroupsOf(strimzi: Release, certManager: Release, kyverno: Release, strimziCRDs: seq<string>,
                    certCRDs: seq<string>, certUsed: seq<string>, kyvernoCRDs: seq<string>, kyvernoUsed: seq<string>,
                    litmusCRDs: seq<string>, prometheusCRDs: seq<string>): seq<CRDGroup> {
    [CRDGroup("Strimzi", Some(strimzi), strimziCRDs, strimziCRDs, []),
     CRDGroup("cert-manager", Some(certManager), certCRDs, certUsed, [("ClusterIssuer", "selfsigned-issuer")]),
     CRDGroup("Kyverno", Some(kyverno), kyvernoCRDs, kyvernoUsed, []),
     CRDGroup("Litmus", None, litmusCRDs, litmusCRDs, []),
     CRDGroup("Prometheus Operator", None, prometheusCRDs, prometheusCRDs, [])]
  }

  const GROUPS := GroupsOf(STRIMZI, CERT_MANAGER, KYVERNO, STRIMZI_CRDS, CERT_MANAGER_CRDS, CERT_MANAGER_USED,
                           KYVERNO_CRDS, KYVERNO_USED, LITMUS_CRDS, PROMETHEUS_CRDS)

  lemma OperatorsAreFound()
    ensures IsOperatorRelease(TABLE, "strimzi-operator")
    ensures IsOperatorRelease(TABLE, "cert-manager")
    ensures IsOperatorRelease(TABLE, "kyverno")
  {
    assert TABLE[1..][0] == TABLE[1] && TABLE[1..][1..][0] == TABLE[2];
    assert "strimzi-operator"[0] != "cert-manager"[0] && "strimzi-operator"[0] != "kyverno"[0];
    assert "cert-manager"[0] != "kyverno"[0];
    assert ByRelease(TABLE[1..], "cert-manager") == Some(TABLE[1]);
    assert ByRelease(TABLE[1..][1..], "kyverno") == Some(TABLE[2]);
  }

  lemma CertManagerUses()
    ensures forall crd | crd in CERT_MANAGER_USED :: crd in CERT_MANAGER_CRDS
  {
    assert CERT_MANAGER_USED == [CERT_MANAGER_CRDS[1], CERT_MANAGER_CRDS[4], CERT_MANAGER_CRDS[3]];
  }

  lemma KyvernoUses()
    ensures forall crd | crd in KYVERNO_USED :: crd in KYVERNO_CRDS
  {
    assert KYVERNO_USED == [KYVERNO_CRDS[6], KYVERNO_CRDS[7], KYVERNO_CRDS[4], KYVERNO_CRDS[5], KYVERNO_CRDS[8]];
  }

  lemma OwnersAreInTable()
    ensures Component(STRIMZI.name, Fixed(STRIMZI.namespace), true) in TABLE
    ensures Component(CERT_MANAGER.name, Fixed(CERT_MANAGER.namespace), true) in TABLE
    ensures Component(KYVERNO.name, Fixed(KYVERNO.namespace), true) in TABLE
  {
    assert TABLE[0] in TABLE && TABLE[1] in TABLE && TABLE[2] in TABLE;
  }

  lemma OwnersAreOperators()
    ensures OwnedByOperator(TABLE, STRIMZI) && OwnedByOperator(TABLE, CERT_MANAGER) && OwnedByOperator(TABLE, KYVERNO)
  {
    OperatorsAreFound();
    OwnersAreInTable();
    assert KAFKA_RELEASE[0] == '$';
  }

  /** One object is kates' own without Helm, and no group but cert-manager's and
      Kyverno's watches fewer kinds than it has. */
  lemma GroupsAre(g: CRDGroup, own: (string, string))
    requires g in GROUPS
    ensures own in g.own ==> own == ("ClusterIssuer", "selfsigned-issuer") && g.owner == Some(CERT_MANAGER)
    ensures g.owner == Some(STRIMZI) || g.owner == None ==> g.usedBy == g.crds
  {
    OwnersDiffer();
  }

  lemma OwnersDiffer()
    ensures STRIMZI != CERT_MANAGER && STRIMZI != KYVERNO
  {
    assert "strimzi-operator"[0] == 's' && "cert-manager"[0] == 'c' && "kyverno"[0] == 'k';
  }

  /** The table and the groups as they are meet what the planner relies on. */
  lemma TableIsConsistent()
    ensures Consistent(TABLE, GROUPS)
  {
    CertManagerUses();
    KyvernoUses();
    OwnersAreOperators();
    GroupsConsist(TABLE, STRIMZI, CERT_MANAGER, KYVERNO, STRIMZI_CRDS, CERT_MANAGER_CRDS, CERT_MANAGER_USED,
                  KYVERNO_CRDS, KYVERNO_USED, LITMUS_CRDS, PROMETHEUS_CRDS);
  }

  lemma GroupsConsist(table: seq<Component>, strimzi: Release, certManager: Release, kyverno: Release,
                      strimziCRDs: seq<string>, certCRDs: seq<string>, certUsed: seq<string>, kyvernoCRDs: seq<string>,
                      kyvernoUsed: seq<string>, litmusCRDs: seq<string>, prometheusCRDs: seq<string>)
    requires forall crd | crd in certUsed :: crd in certCRDs
    requires forall crd | crd in kyvernoUsed :: crd in kyvernoCRDs
    requires OwnedByOperator(table, strimzi) && OwnedByOperator(table, certManager) && OwnedByOperator(table, kyverno)
    ensures Consistent(table, GroupsOf(strimzi, certManager, kyverno, strimziCRDs, certCRDs, certUsed, kyvernoCRDs, kyvernoUsed, litmusCRDs, prometheusCRDs))
  {
  }
}
