/** The static suite registry of the openshift-tests binary
    (cmd/openshift-tests/main.go): every suite's membership predicate,
    execution policy and hooks, and the facts the table guarantees. */
module Suites {
  import opened Options
  import opened Strings
  import opened Calendar
  import opened OpenshiftTests

  /** What a membership predicate may consult besides the test name: the
      instant the disablement check reads, the key set of the curated
      openshifttests.Minimal map and the openshifttests.InCNISuite predicate. */
  datatype Env = Env(now: Instant, minimal: set<string>, inCNISuite: string -> bool)

  /** One membership predicate per registered suite, named after the suite. */
  datatype Matcher =
    | Conformance
    | ConformanceParallel
    | ConformanceSerial
    | Disruptive
    | KubernetesConformance
    | Build
    | Templates
    | ImageRegistry
    | ImageEcosystem
    | JenkinsE2e
    | JenkinsE2eRhelOnly
    | Scalability
    | ConformanceExcluded
    | TestCmd
    | Csi
    | NetworkStress
    | NetworkThirdParty
    | ReliabilityMinimal
    | All
    | EtcdScaling
    | EtcdRecovery
    | NodesRealtime

  const ConformanceTag := "[Suite:openshift/conformance/"
  const ConformanceSerialTag := "[Suite:openshift/conformance/serial"
  const EtcdRecoveryFeature := "[Feature:EtcdRecovery]"
  const NodeRecoveryFeature := "[Feature:NodeRecovery]"
  const LocalTag := "[Local]"
  const DisruptiveTag := "[Disruptive]"
  /** Excluded from openshift/network/stress
      (https://bugzilla.redhat.com/show_bug.cgi?id=1980141). */
  const NetworkPolicyFeature := "[Feature:NetworkPolicy]"
  const SerialSelfTag := "[Serial:Self]"
  const SigNetworkTag := "[sig-network]"

  /** Excluded from openshift/disruptive because of stopped-instance handling
      (https://bugzilla.redhat.com/show_bug.cgi?id=1905709). */
  const MachineHealthCheckTest := "Cluster should survive master and worker failure and recover with machine health checks"

  /** Excluded from openshift/csi because their pods pull images directly
      (https://bugzilla.redhat.com/show_bug.cgi?id=2093339). */
  const AnyVolumeDataSourceTest := "provisioning should provision storage with any volume data source"

  /** The `Matches` closure of each suite. */
  predicate Matches(m: Matcher, name: string, env: Env) {
    match m
    case Conformance =>
      if IsDisabled(name, env.now) then false
      else Contains(name, ConformanceTag)
    case ConformanceParallel =>
      if IsDisabled(name, env.now) then false
      else Contains(name, ConformanceParallelTag)
    case ConformanceSerial =>
      if IsDisabled(name, env.now) then false
      else Contains(name, ConformanceSerialTag) || IsStandardEarlyOrLateTest(name)
    case Disruptive =>
      if IsDisabled(name, env.now) then false
      else if Contains(name, MachineHealthCheckTest) then false
      else Contains(name, EtcdRecoveryFeature) || Contains(name, NodeRecoveryFeature) || IsStandardEarlyTest(name)
    case KubernetesConformance =>
      if IsDisabled(name, env.now) then false
      else Contains(name, "[Suite:k8s]") && Contains(name, "[Conformance]")
    case Build =>
      if IsDisabled(name, env.now) then false
      else Contains(name, "[Feature:Builds]") || IsStandardEarlyOrLateTest(name)
    case Templates =>
      if IsDisabled(name, env.now) then false
      else Contains(name, "[Feature:Templates]") || IsStandardEarlyOrLateTest(name)
    case ImageRegistry =>
      if IsDisabled(name, env.now) || Contains(name, LocalTag) then false
      else Contains(name, "[sig-imageregistry]") || IsStandardEarlyOrLateTest(name)
    case ImageEcosystem =>
      if IsDisabled(name, env.now) || Contains(name, LocalTag) then false
      else Contains(name, "[Feature:ImageEcosystem]") || IsStandardEarlyOrLateTest(name)
    case JenkinsE2e =>
      if IsDisabled(name, env.now) then false
      else Contains(name, "[Feature:Jenkins]") || IsStandardEarlyOrLateTest(name)
    case JenkinsE2eRhelOnly =>
      if IsDisabled(name, env.now) then false
      else Contains(name, "[Feature:JenkinsRHELImagesOnly]") || IsStandardEarlyOrLateTest(name)
    case Scalability =>
      if IsDisabled(name, env.now) then false
      else Contains(name, "[Suite:openshift/scalability]")
    case ConformanceExcluded =>
      if IsDisabled(name, env.now) then false
      else !Contains(name, ConformanceTag)
    case TestCmd =>
      if IsDisabled(name, env.now) then false
      else Contains(name, "[Feature:LegacyCommandTests]") || IsStandardEarlyOrLateTest(name)
    case Csi =>
      if IsDisabled(name, env.now) then false
      else if Contains(name, AnyVolumeDataSourceTest) then false
      else Contains(name, "External Storage [Driver:") && !Contains(name, DisruptiveTag)
    case NetworkStress =>
      if IsDisabled(name, env.now) then false
      else if Contains(name, NetworkPolicyFeature) then false
      else if Contains(name, SerialSelfTag) then false
      else (Contains(name, ConformanceTag) && Contains(name, SigNetworkTag)) || IsStandardEarlyOrLateTest(name)
    case NetworkThirdParty =>
      if IsDisabled(name, env.now) then false
      else env.inCNISuite(name)
    case ReliabilityMinimal =>
      if name !in env.minimal then false
      else !IsDisabled(name, env.now) && Contains(name, ConformanceParallelTag)
    case All =>
      true
    case EtcdScaling =>
      if IsDisabled(name, env.now) then false
      else
        Contains(name, "[Suite:openshift/etcd/scaling") || Contains(name, "[Feature:EtcdVerticalScaling]")
        || IsStandardEarlyOrLateTest(name)
    case EtcdRecovery =>
      if IsDisabled(name, env.now) then false
      else
        Contains(name, "[Suite:openshift/etcd/recovery") || Contains(name, EtcdRecoveryFeature)
        || IsStandardEarlyOrLateTest(name)
    case NodesRealtime =>
      if IsDisabled(name, env.now) then false
      else Contains(name, "[Suite:openshift/nodes/realtime")
  }

  /** staticSuites, in declaration order. Timeouts are in minutes. */
  const StaticSuites: seq<TestSuite<Matcher>> := [
    TestSuite(GinkgoSuite("openshift/conformance", Conformance,
        parallelism := 30, syntheticEventTests := StableSystemEventInvariants),
      SuiteWithProviderPreSuite),
    TestSuite(GinkgoSuite("openshift/conformance/parallel", ConformanceParallel,
        parallelism := 30, maximumAllowedFlakes := 15, syntheticEventTests := StableSystemEventInvariants),
      SuiteWithProviderPreSuite),
    TestSuite(GinkgoSuite("openshift/conformance/serial", ConformanceSerial,
        testTimeoutMinutes := 40, syntheticEventTests := StableSystemEventInvariants),
      SuiteWithProviderPreSuite),
    TestSuite(GinkgoSuite("openshift/disruptive", Disruptive,
        testTimeoutMinutes := 90, syntheticEventTests := SystemEventInvariants),
      SuiteWithProviderPreSuite),
    TestSuite(GinkgoSuite("kubernetes/conformance", KubernetesConformance,
        parallelism := 30, syntheticEventTests := StableSystemEventInvariants),
      SuiteWithProviderPreSuite),
    TestSuite(GinkgoSuite("openshift/build", Build,
        parallelism := 7, maximumAllowedFlakes := 3, testTimeoutMinutes := 60,
        syntheticEventTests := StableSystemEventInvariants),
      SuiteWithProviderPreSuite),
    TestSuite(GinkgoSuite("openshift/templates", Templates,
        parallelism := 1, syntheticEventTests := StableSystemEventInvariants),
      SuiteWithProviderPreSuite),
    TestSuite(GinkgoSuite("openshift/image-registry", ImageRegistry,
        syntheticEventTests := StableSystemEventInvariants),
      SuiteWithProviderPreSuite),
    TestSuite(GinkgoSuite("openshift/image-ecosystem", ImageEcosystem,
        parallelism := 7, testTimeoutMinutes := 20, syntheticEventTests := StableSystemEventInvariants),
      SuiteWithProviderPreSuite),
    TestSuite(GinkgoSuite("openshift/jenkins-e2e", JenkinsE2e,
        parallelism := 4, testTimeoutMinutes := 20, syntheticEventTests := StableSystemEventInvariants),
      SuiteWithProviderPreSuite),
    TestSuite(GinkgoSuite("openshift/jenkins-e2e-rhel-only", JenkinsE2eRhelOnly,
        parallelism := 4, testTimeoutMinutes := 20, syntheticEventTests := StableSystemEventInvariants),
      SuiteWithProviderPreSuite),
    TestSuite(GinkgoSuite("openshift/scalability", Scalability,
        parallelism := 1, testTimeoutMinutes := 20),
      SuiteWithProviderPreSuite),
    TestSuite(GinkgoSuite("openshift/conformance-excluded", ConformanceExcluded,
        syntheticEventTests := StableSystemEventInvariants),
      SuiteWithProviderPreSuite),
    TestSuite(GinkgoSuite("openshift/test-cmd", TestCmd,
        syntheticEventTests := StableSystemEventInvariants),
      SuiteWithNoProviderPreSuite),
    TestSuite(GinkgoSuite("openshift/csi", Csi,
        syntheticEventTests := StableSystemEventInvariants),
      SuiteWithKubeTestInitializationPreSuite, PrintStorageCapabilities),
    TestSuite(GinkgoSuite("openshift/network/stress", NetworkStress,
        parallelism := 60, count := 12, testTimeoutMinutes := 20,
        syntheticEventTests := StableSystemEventInvariants),
      SuiteWithProviderPreSuite),
    TestSuite(GinkgoSuite("openshift/network/third-party", NetworkThirdParty),
      SuiteWithProviderPreSuite),
    TestSuite(GinkgoSuite("experimental/reliability/minimal", ReliabilityMinimal,
        parallelism := 20, maximumAllowedFlakes := 15, syntheticEventTests := StableSystemEventInvariants),
      SuiteWithKubeTestInitializationPreSuite),
    TestSuite(GinkgoSuite("all", All),
      SuiteWithInitializedProviderPreSuite),
    TestSuite(GinkgoSuite("openshift/etcd/scaling", EtcdScaling,
        testTimeoutMinutes := 60, syntheticEventTests := StableSystemEventInvariants),
      SuiteWithProviderPreSuite),
    TestSuite(GinkgoSuite("openshift/etcd/recovery", EtcdRecovery,
        testTimeoutMinutes := 120, syntheticEventTests := SystemEventInvariants),
      SuiteWithProviderPreSuite),
    TestSuite(GinkgoSuite("openshift/nodes/realtime", NodesRealtime,
        testTimeoutMinutes := 30),
      SuiteWithProviderPreSuite)
  ]

  // ---------------------------------------------------------------------
  // Lookup by name and the execution policy it yields
  // ---------------------------------------------------------------------

  /** No two suites share a name. */
  predicate DistinctNames<M>(suites: seq<TestSuite<M>>) {
    forall i, j :: 0 <= i < j < |suites| ==> suites[i].suite.name != suites[j].suite.name
  }

  /** Position of the first suite called `name`. */
  function IndexOfSuite<M>(suites: seq<TestSuite<M>>, name: string): (r: Option<nat>)
    ensures r.Some? ==> r.value < |suites| && suites[r.value].suite.name == name
    ensures r.Some? ==> forall j :: 0 <= j < r.value ==> suites[j].suite.name != name
    ensures r.None? ==> forall j :: 0 <= j < |suites| ==> suites[j].suite.name != name
  {
    if |suites| == 0 then None
    else if suites[0].suite.name == name then Some(0)
    else
      match IndexOfSuite(suites[1..], name)
      case None => None
      case Some(k) => Some(k + 1)
  }

  /** The execution policy a suite hands to the test runner. */
  datatype Policy = Policy(
    parallelism: nat,
    maximumAllowedFlakes: nat,
    testTimeoutMinutes: nat,
    count: nat,
    syntheticEventTests: InvariantCheck)

  /** Policy resolution: a pure projection of the suite record. */
  function PolicyOfSuite<M>(s: TestSuite<M>): Policy {
    Policy(s.suite.parallelism, s.suite.maximumAllowedFlakes, s.suite.testTimeoutMinutes,
           s.suite.count, s.suite.syntheticEventTests)
  }

  /** The policy of the registered suite called `name`, if there is one. */
  function PolicyOf(name: string): Option<Policy> {
    match IndexOfSuite(StaticSuites, name)
    case None => None
    case Some(i) => Some(PolicyOfSuite(StaticSuites[i]))
  }

  /** The registry declares 22 suites under pairwise distinct names. */
  lemma StaticSuiteNamesDistinct()
    ensures |StaticSuites| == 22
    ensures DistinctNames(StaticSuites)
  {
  }

  /** With distinct names, looking a suite up by its own name finds exactly it. */
  lemma LookupFindsEachSuite<M>(suites: seq<TestSuite<M>>, i: nat)
    requires DistinctNames(suites) && i < |suites|
    ensures IndexOfSuite(suites, suites[i].suite.name) == Some(i)
  {
  }

  /** Looking up a registered suite's name yields that suite's own policy,
      and an unregistered name yields none. */
  lemma PolicyLookup(name: string)
    ensures PolicyOf(name).Some? <==> exists i :: 0 <= i < |StaticSuites| && StaticSuites[i].suite.name == name
    ensures forall i :: 0 <= i < |StaticSuites| && StaticSuites[i].suite.name == name ==>
      PolicyOf(name) == Some(PolicyOfSuite(StaticSuites[i]))
  {
    StaticSuiteNamesDistinct();
    forall i | 0 <= i < |StaticSuites| && StaticSuites[i].suite.name == name
      ensures PolicyOf(name) == Some(PolicyOfSuite(StaticSuites[i]))
    {
      LookupFindsEachSuite(StaticSuites, i);
    }
  }

  /** Declared policies, whatever entry carries the name; fields a suite
      leaves unset are zero and "no invariant check". */
  lemma DeclaredPolicies(i: nat)
    requires i < |StaticSuites|
    ensures var s := StaticSuites[i];
      && (s.suite.name == "openshift/conformance/parallel" ==>
            PolicyOfSuite(s) == Policy(30, 15, 0, 0, StableSystemEventInvariants))
      && (s.suite.name == "openshift/build" ==>
            PolicyOfSuite(s) == Policy(7, 3, 60, 0, StableSystemEventInvariants))
      && (s.suite.name == "openshift/network/stress" ==>
            PolicyOfSuite(s) == Policy(60, 0, 20, 12, StableSystemEventInvariants))
      && (s.suite.name == "openshift/disruptive" ==>
            PolicyOfSuite(s) == Policy(0, 0, 90, 0, SystemEventInvariants))
      && (s.suite.name == "openshift/etcd/recovery" ==>
            PolicyOfSuite(s) == Policy(0, 0, 120, 0, SystemEventInvariants))
      && (s.suite.name == "all" ==>
            PolicyOfSuite(s) == Policy(0, 0, 0, 0, NoInvariantCheck) && s.preSuite == SuiteWithInitializedProviderPreSuite)
  {
  }

  /** Only openshift/disruptive and openshift/etcd/recovery use the
      non-stable event invariants. */
  lemma PermissiveInvariantSuites(i: nat)
    requires i < |StaticSuites|
    ensures StaticSuites[i].suite.syntheticEventTests == SystemEventInvariants
        <==> StaticSuites[i].suite.name == "openshift/disruptive" || StaticSuites[i].suite.name == "openshift/etcd/recovery"
  {
  }

  /** openshift/test-cmd blocks provider settings, openshift/csi and
      experimental/reliability/minimal initialise the Kubernetes test
      framework, `all` only loads the provider, and every other suite also
      filters by provider. */
  lemma PreSuiteHooks(i: nat)
    requires i < |StaticSuites|
    ensures var s := StaticSuites[i];
      && (s.preSuite == SuiteWithNoProviderPreSuite <==> s.suite.name == "openshift/test-cmd")
      && (s.preSuite == SuiteWithKubeTestInitializationPreSuite
          <==> s.suite.name == "openshift/csi" || s.suite.name == "experimental/reliability/minimal")
      && (s.preSuite == SuiteWithInitializedProviderPreSuite <==> s.suite.name == "all")
  {
  }

  /** Only openshift/csi has a PostSuite hook. */
  lemma OnlyCsiHasPostSuite(i: nat)
    requires i < |StaticSuites|
    ensures StaticSuites[i].postSuite != NoPostSuite <==> StaticSuites[i].suite.name == "openshift/csi"
  {
  }

  // ---------------------------------------------------------------------
  // Membership facts
  // ---------------------------------------------------------------------

  /** Every registered suite except `all` rejects every disabled test. */
  lemma DisabledExcludedExceptFromAll(i: nat, name: string, env: Env)
    requires i < |StaticSuites| && StaticSuites[i].suite.name != "all"
    requires IsDisabled(name, env.now)
    ensures !Matches(StaticSuites[i].suite.matches, name, env)
  {
  }

  /** The `all` suite accepts every test, disabled ones included. */
  lemma AllAcceptsEverything(i: nat, name: string, env: Env)
    requires i < |StaticSuites| && StaticSuites[i].suite.name == "all"
    ensures Matches(StaticSuites[i].suite.matches, name, env)
  {
  }

  /** openshift/conformance and openshift/conformance-excluded split the
      enabled tests between them and both reject disabled ones. */
  lemma ConformancePartition(name: string, env: Env)
    ensures !IsDisabled(name, env.now) ==>
      (Matches(Conformance, name, env) <==> !Matches(ConformanceExcluded, name, env))
    ensures IsDisabled(name, env.now) ==>
      !Matches(Conformance, name, env) && !Matches(ConformanceExcluded, name, env)
  {
  }

  /** The parallel and serial suite tags both carry the conformance suite tag. */
  lemma ConformanceTagInSubsuiteTags()
    ensures Contains(ConformanceParallelTag, ConformanceTag)
    ensures Contains(ConformanceSerialTag, ConformanceTag)
  {
    assert ConformanceParallelTag[..|ConformanceTag|] == ConformanceTag;
    assert ConformanceSerialTag[..|ConformanceTag|] == ConformanceTag;
    PrefixContained(ConformanceParallelTag, ConformanceTag);
    PrefixContained(ConformanceSerialTag, ConformanceTag);
  }

  /** Standard early/late tests carry the conformance suite tag. */
  lemma StandardEarlyLateIsConformance(name: string)
    requires IsStandardEarlyOrLateTest(name)
    ensures Contains(name, ConformanceTag)
  {
    ConformanceTagInSubsuiteTags();
    ContainsTransitive(name, ConformanceParallelTag, ConformanceTag);
  }

  /** openshift/conformance/parallel, openshift/conformance/serial,
      openshift/network/stress and experimental/reliability/minimal only
      select tests that openshift/conformance selects too. */
  lemma SubsuitesOfConformance(m: Matcher, name: string, env: Env)
    requires m == ConformanceParallel || m == ConformanceSerial || m == NetworkStress || m == ReliabilityMinimal
    requires Matches(m, name, env)
    ensures Matches(Conformance, name, env)
  {
    ConformanceTagInSubsuiteTags();
    if Contains(name, ConformanceParallelTag) {
      ContainsTransitive(name, ConformanceParallelTag, ConformanceTag);
    }
    if Contains(name, ConformanceSerialTag) {
      ContainsTransitive(name, ConformanceSerialTag, ConformanceTag);
    }
  }

  /** The hard-coded exclusions of each suite: tests tied to a known defect,
      `[Local]` tests, disruptive CSI tests and tests that cannot run beside a
      copy of themselves. */
  function CarveOuts(m: Matcher): seq<string> {
    match m
    case Disruptive => [MachineHealthCheckTest]
    case ImageRegistry => [LocalTag]
    case ImageEcosystem => [LocalTag]
    case Csi => [AnyVolumeDataSourceTest, DisruptiveTag]
    case NetworkStress => [NetworkPolicyFeature, SerialSelfTag]
    case _ => []
  }

  /** A carve-out wins over every inclusion tag. */
  lemma CarveOutsOverride(m: Matcher, name: string, env: Env, c: string)
    requires c in CarveOuts(m) && Contains(name, c)
    ensures !Matches(m, name, env)
  {
  }

  /** The suites that OR in IsStandardEarlyOrLateTest. */
  predicate InjectsEarlyAndLate(m: Matcher) {
    m in {ConformanceSerial, Build, Templates, ImageRegistry, ImageEcosystem, JenkinsE2e,
          JenkinsE2eRhelOnly, TestCmd, NetworkStress, EtcdScaling, EtcdRecovery}
  }

  /** Those suites accept every enabled standard early or late test that no
      carve-out of theirs excludes. */
  lemma StandardEarlyLateInjected(m: Matcher, name: string, env: Env)
    requires InjectsEarlyAndLate(m)
    requires !IsDisabled(name, env.now) && IsStandardEarlyOrLateTest(name)
    requires forall c :: c in CarveOuts(m) ==> !Contains(name, c)
    ensures Matches(m, name, env)
  {
    StandardEarlyLateIsConformance(name);
  }

  /** openshift/disruptive takes the standard early tests ... */
  lemma DisruptiveTakesStandardEarly(name: string, env: Env)
    requires !IsDisabled(name, env.now) && IsStandardEarlyTest(name)
    requires !Contains(name, MachineHealthCheckTest)
    ensures Matches(Disruptive, name, env)
  {
  }

  /** ... but a test without `[Early]` only through its recovery feature tags. */
  lemma DisruptiveLateOnlyViaFeatures(name: string, env: Env)
    requires Matches(Disruptive, name, env) && !Contains(name, EarlyTag)
    ensures Contains(name, EtcdRecoveryFeature) || Contains(name, NodeRecoveryFeature)
  {
  }

  /** experimental/reliability/minimal: a curated enabled parallel conformance test. */
  lemma MinimalMembership(name: string, env: Env)
    ensures Matches(ReliabilityMinimal, name, env)
        <==> name in env.minimal && !IsDisabled(name, env.now) && Contains(name, ConformanceParallelTag)
    ensures Matches(ReliabilityMinimal, name, env) ==> Matches(ConformanceParallel, name, env)
  {
  }

  // ---------------------------------------------------------------------
  // The registry as the slice main hands to openshifttests.Main
  // ---------------------------------------------------------------------

  /** staticSuites.TestSuites(): the registry is laid out in a fresh backing
      array, and the references returned point at its 22 embedded suites in
      declaration order. */
  method RegisteredTestSuites() returns (copied: seq<SuiteRef<Matcher>>)
    ensures |copied| == |StaticSuites| == 22
    ensures forall i :: 0 <= i < |copied| ==>
      && copied[i].index == i
      && copied[i].slice.Length == |StaticSuites|
      && Deref(copied[i]) == StaticSuites[i].suite
  {
    var s := new TestSuite<Matcher>[|StaticSuites|](i requires 0 <= i < |StaticSuites| => StaticSuites[i]);
    copied := TestSuites(s);
  }
}
