/** What is deployed, stated in the names that tests, documentation and users know, independently of the
    functions that render it. */
module Deployed {
  import opened Wrappers
  import opened Cluster
  import opened Rendering

  // ---- which objects ----

  /** The seed objects that are always there. */
  function ExpectedCommon(n: string): seq<Key> {
    [ Key(ServiceAccount, n, "diki-operator"), Key(ServiceAccount, n, "diki-run"),
      Key(ConfigMap, n, "diki-operator"), Key(Deployment, n, "diki-operator"), Key(Service, n, "diki-operator"),
      Key(ServiceMonitor, n, "shoot-diki-operator"), Key(VerticalPodAutoscaler, n, "diki-operator"),
      Key(Role, n, "diki-operator"), Key(RoleBinding, n, "diki-operator") ]
  }

  /** The seed objects. */
  function ExpectedSeed(n: string, baseOptions: bool): seq<Key> {
    ExpectedCommon(n) + if baseOptions then [Key(ConfigMap, n, "diki-base-options")] else []
  }

  function DefinitionKey(resource: string): Key {
    Key(CustomResourceDefinition, "", resource + ".diki.gardener.cloud")
  }

  /** The shoot objects. */
  function ExpectedShoot(): seq<Key> {
    [ Key(ClusterRole, "", "diki-operator"), Key(ClusterRoleBinding, "", "diki-operator"),
      Key(ClusterRole, "", "scanner.diki.gardener.cloud"), Key(ClusterRoleBinding, "", "diki-scanner"),
      Key(Role, "kube-system", "scanner.diki.gardener.cloud"), Key(RoleBinding, "kube-system", "diki-scanner"),
      Key(ClusterRole, "", "exporter.diki.gardener.cloud"), Key(ClusterRoleBinding, "", "diki-exporter"),
      Key(Role, "kube-system", "diki-operator-leader-election"),
      Key(RoleBinding, "kube-system", "diki-operator-leader-election"),
      Key(ValidatingWebhookConfiguration, "", "gardener-extension-diki"),
      Key(MutatingWebhookConfiguration, "", "gardener-extension-diki"),
      DefinitionKey("compliancescans"), DefinitionKey("reportoutputs"), DefinitionKey("scheduledcompliancescans") ]
  }

  function Elements(ks: seq<Key>): set<Key> {
    set k | k in ks
  }

  lemma KeysAre(os: seq<Object>, ks: seq<Key>)
    requires |os| == |ks| && forall i :: 0 <= i < |os| ==> os[i].key == ks[i]
    ensures KeysOf(os) == Elements(ks)
  {
    forall k ensures k in KeysOf(os) <==> k in ks {
      if k in KeysOf(os) {
        var o :| o in os && o.key == k;
        var i :| 0 <= i < |os| && os[i] == o;
        assert ks[i] in ks;
      }
      if k in ks {
        var i :| 0 <= i < |ks| && ks[i] == k;
        assert os[i] in os;
      }
    }
  }

  lemma MonitorName()
    ensures "shoot-" + NAME == "shoot-diki-operator"
  {
  }

  lemma CommonKeys(v: Values)
    ensures var os, ks := CommonSeedObjects(v), ExpectedCommon(v.namespace);
            |os| == |ks| && forall i :: 0 <= i < |os| ==> os[i].key == ks[i]
  {
    MonitorName();
  }

  lemma KeysAppend(os: seq<Object>, ps: seq<Object>, ks: seq<Key>, ls: seq<Key>)
    requires KeysOf(os) == Elements(ks) && KeysOf(ps) == Elements(ls)
    ensures KeysOf(os + ps) == Elements(ks + ls)
  {
    forall k ensures k in KeysOf(os + ps) <==> k in KeysOf(os) || k in KeysOf(ps) {
      assert forall o :: o in os + ps <==> o in os || o in ps;
    }
  }

  lemma ShootKeys(v: Values)
    ensures var os, ks := ShootObjects(v), ExpectedShoot();
            |os| == |ks| && forall i :: 0 <= i < |os| ==> os[i].key == ks[i]
  {
  }

  /** Exactly these objects are rendered for the seed. */
  lemma SeedInventory(v: Values)
    ensures KeysOf(SeedObjects(v)) == Elements(ExpectedSeed(v.namespace, v.baseOptionsData != ""))
  {
    var common, n := CommonSeedObjects(v), v.namespace;
    CommonKeys(v);
    KeysAre(common, ExpectedCommon(n));
    if v.baseOptionsData != "" {
      KeysAre([BaseOptionsConfigMap(v)], [Key(ConfigMap, n, "diki-base-options")]);
      KeysAppend(common, [BaseOptionsConfigMap(v)], ExpectedCommon(n), [Key(ConfigMap, n, "diki-base-options")]);
    } else {
      KeysAre([], []);
      KeysAppend(common, [], ExpectedCommon(n), []);
    }
  }

  /** Exactly these objects are rendered for the shoot. */
  lemma ShootInventory(v: Values)
    ensures Catalog(v) == Elements(ExpectedShoot())
  {
    ShootKeys(v);
    KeysAre(ShootObjects(v), ExpectedShoot());
  }

  // ---- webhooks and definitions ----

  /** The resources that a webhook configuration intercepts, and where it sends them. */
  function Targets(o: Object): set<(string, string)> {
    set h | h in HooksOf(o) :: (h.resource, h.url)
  }

  function ExpectedTargets(kind: Kind, n: string): set<(string, string)> {
    var operator := "https://diki-operator." + n + ".svc";
    match kind
    case ValidatingWebhookConfiguration =>
      { ("compliancescans", operator + "/webhooks/compliancescan"),
        ("scheduledcompliancescans", operator + "/webhooks/scheduledcompliancescan/validate") }
    case MutatingWebhookConfiguration =>
      {("scheduledcompliancescans", operator + "/webhooks/scheduledcompliancescan/mutate")}
    case _ => {}
  }

  lemma OperatorURL(v: Values)
    ensures WebhookURL(v) == "https://diki-operator." + v.namespace + ".svc"
  {
    assert HTTPS + NAME + "." == "https://diki-operator.";
  }

  /** Compliance scans are validated, scheduled ones are defaulted and validated, by the operator of this shoot. */
  lemma WebhookTargets(v: Values, o: Object)
    requires o in ShootObjects(v)
    ensures Targets(o) == ExpectedTargets(o.key.kind, v.namespace)
  {
    OperatorURL(v);
    if o.spec.Hooked? {
      if o == ShootObjects(v)[10] {
        assert o.spec.hooks == [o.spec.hooks[0], o.spec.hooks[1]];
      } else {
        assert o == ShootObjects(v)[11];
        assert o.spec.hooks == [o.spec.hooks[0]];
      }
      assert forall h :: h in o.spec.hooks ==> (h.resource, h.url) in Targets(o);
      assert o.spec.hooks[0] in o.spec.hooks;
    }
  }

  lemma HookNames()
    ensures "compliancescans.diki.gardener.cloud" == "compliancescans" + ".diki.gardener.cloud"
    ensures "scheduledcompliancescans.diki.gardener.cloud" == "scheduledcompliancescans" + ".diki.gardener.cloud"
  {
  }

  lemma HookResources(v: Values, o: Object, h: Webhook)
    requires o in ShootObjects(v) && h in HooksOf(o)
    ensures h.resource == "compliancescans" || h.resource == "scheduledcompliancescans"
    ensures h.name == h.resource + ".diki.gardener.cloud"
  {
    HookNames();
    assert o == ShootObjects(v)[10] || o == ShootObjects(v)[11];
  }

  lemma Defined(v: Values)
    ensures DefinitionKey("compliancescans") in Catalog(v) && DefinitionKey("reportoutputs") in Catalog(v)
    ensures DefinitionKey("scheduledcompliancescans") in Catalog(v)
  {
    ShootInventory(v);
    var ks := ExpectedShoot();
    assert ks[12] in ks && ks[13] in ks && ks[14] in ks;
  }

  /** Whatever a webhook intercepts is defined, and the webhook has the name of the definition. */
  lemma WebhooksDefined(v: Values, o: Object, h: Webhook)
    requires o in ShootObjects(v) && h in HooksOf(o)
    ensures DefinitionKey(h.resource) in Catalog(v) && h.name == DefinitionKey(h.resource).name
  {
    HookResources(v, o, h);
    Defined(v);
  }

  // ---- accounts ----

  const ACCESS := "shoot-access-"

  /** The service account for which a token is put into an access secret. */
  function AccountOf(secret: string): string
    requires ACCESS <= secret
  {
    secret[|ACCESS|..]
  }

  /** The role that a binding grants, in its scope. */
  function RoleOf(o: Object): Key
    requires o.spec.Bound?
  {
    RoleKey(o.spec.role, o.spec.name, o.key.namespace)
  }

  /** The roles in the shoot that are bound to a service account of the system namespace. */
  function Granted(v: Values, account: string): set<Key> {
    set o | o in ShootObjects(v) && o.spec.Bound? && o.spec.subject == Account(account) :: RoleOf(o)
  }

  const OPERATOR_ROLES := {Key(ClusterRole, "", NAME), Key(Role, SYSTEM, LEADER_ELECTION)}
  const RUNNER_ROLES := {Key(ClusterRole, "", SCANNER), Key(Role, SYSTEM, SCANNER), Key(ClusterRole, "", EXPORTER)}

  lemma Accounts()
    ensures ACCESS <= OPERATOR_ACCESS && AccountOf(OPERATOR_ACCESS) == "diki-operator"
    ensures ACCESS <= RUNNER_ACCESS && AccountOf(RUNNER_ACCESS) == "diki-runner"
  {
    assert OPERATOR_ACCESS == ACCESS + "diki-operator";
    assert RUNNER_ACCESS == ACCESS + "diki-runner";
  }

  /** The bindings: who gets which role. */
  lemma Bindings(v: Values)
    ensures |ShootObjects(v)| > 9
    ensures forall i :: 0 <= i < |ShootObjects(v)| ==>
              (ShootObjects(v)[i].spec.Bound? <==> i == 1 || i == 3 || i == 5 || i == 7 || i == 9)
    ensures forall i :: i == 1 || i == 9 ==> ShootObjects(v)[i].spec.subject == Account(v.operatorAccount)
    ensures forall i :: i == 3 || i == 5 || i == 7 ==> ShootObjects(v)[i].spec.subject == Account(v.runnerAccount)
  {
  }

  lemma BindingRoles(v: Values)
    ensures var os := ShootObjects(v);
            && |os| > 9 && os[1].spec.Bound? && os[9].spec.Bound?
            && os[3].spec.Bound? && os[5].spec.Bound? && os[7].spec.Bound?
            && RoleOf(os[1]) == Key(ClusterRole, "", NAME) && RoleOf(os[9]) == Key(Role, SYSTEM, LEADER_ELECTION)
            && RoleOf(os[3]) == Key(ClusterRole, "", SCANNER) && RoleOf(os[5]) == Key(Role, SYSTEM, SCANNER)
            && RoleOf(os[7]) == Key(ClusterRole, "", EXPORTER)
  {
  }

  lemma OperatorGranted(v: Values, os: seq<Object>)
    requires os == ShootObjects(v) && v.operatorAccount != v.runnerAccount
    ensures Granted(v, v.operatorAccount) == OPERATOR_ROLES
  {
    Bindings(v);
    BindingRoles(v);
    GrantedAre(os, v.operatorAccount, {1, 9});
    assert {RoleOf(os[1]), RoleOf(os[9])} == set i | i in {1, 9} :: RoleOf(os[i]);
  }

  lemma RunnerGranted(v: Values, os: seq<Object>)
    requires os == ShootObjects(v) && v.operatorAccount != v.runnerAccount
    ensures Granted(v, v.runnerAccount) == RUNNER_ROLES
  {
    Bindings(v);
    BindingRoles(v);
    GrantedAre(os, v.runnerAccount, {3, 5, 7});
    assert {RoleOf(os[3]), RoleOf(os[5]), RoleOf(os[7])} == set i | i in {3, 5, 7} :: RoleOf(os[i]);
  }

  /** The roles of an account, from where its bindings are in the list. */
  lemma GrantedAre(os: seq<Object>, account: string, at: set<int>)
    requires forall i :: i in at ==> 0 <= i < |os| && os[i].spec.Bound?
    requires forall i :: 0 <= i < |os| && os[i].spec.Bound? ==> (os[i].spec.subject == Account(account) <==> i in at)
    ensures (set o | o in os && o.spec.Bound? && o.spec.subject == Account(account) :: RoleOf(o)) ==
            set i | i in at :: RoleOf(os[i])
  {
    forall i | i in at ensures os[i] in os {
    }
    forall o | o in os && o.spec.Bound? && o.spec.subject == Account(account)
      ensures exists i :: i in at && RoleOf(o) == RoleOf(os[i])
    {
      var i :| 0 <= i < |os| && os[i] == o;
    }
  }

  lemma AccountsDiffer(v: Values)
    requires Composed(v)
    ensures v.operatorAccount == "diki-operator" && v.runnerAccount == "diki-runner"
    ensures v.operatorAccount != v.runnerAccount
  {
    assert |"diki-operator"| == 13 && |"diki-runner"| == 11;
  }

  lemma AccessGrants(v: Values)
    requires Composed(v)
    ensures ACCESS <= OPERATOR_ACCESS && Granted(v, AccountOf(OPERATOR_ACCESS)) == OPERATOR_ROLES
    ensures ACCESS <= RUNNER_ACCESS && Granted(v, AccountOf(RUNNER_ACCESS)) == RUNNER_ROLES
  {
    Accounts();
    AccountsDiffer(v);
    OperatorGranted(v, ShootObjects(v));
    RunnerGranted(v, ShootObjects(v));
  }

  lemma MountedAccess(v: Values, x: string)
    requires Composed(v) && !(ACCESS <= v.genericKubeconfigSecret)
    requires x in MountedSecrets(MountedDeployment(v)) && ACCESS <= x
    ensures x == OPERATOR_ACCESS
  {
    MountedAre(v);
    TLSIsNoAccess(v.serverTLSSecret);
  }

  /** With the values that newComponent passes, the account behind each access secret that the operator mounts
      holds exactly the operator's roles. */
  lemma OperatorTokenGrants(v: Values, x: string)
    requires Composed(v) && !(ACCESS <= v.genericKubeconfigSecret)
    requires x in MountedSecrets(MountedDeployment(v)) && ACCESS <= x
    ensures Granted(v, AccountOf(x)) == OPERATOR_ROLES
  {
    MountedAccess(v, x);
    AccessGrants(v);
  }

  /** The account behind the token that the runner is told to use holds exactly the scanner's and the exporter's. */
  lemma RunnerTokenGrants(v: Values, token: string)
    requires Composed(v) && token == ConfigOf(v).tokenSecret
    ensures ACCESS <= token && Granted(v, AccountOf(token)) == RUNNER_ROLES
  {
    AccessGrants(v);
  }

  lemma TLSIsNoAccess(name: string)
    requires TLSName(name)
    ensures !(ACCESS <= name)
  {
    assert TLS[0] == 'd' && ACCESS[0] == 's' && |ACCESS| == 13;
  }

  lemma MountedAre(v: Values)
    ensures MountedSecrets(MountedDeployment(v)) ==
            {v.serverTLSSecret, v.genericKubeconfigSecret, v.operatorAccessSecret}
  {
    SeedMounts(v);
    assert SeedObjects(v)[3] == MountedDeployment(v);
  }

  // ---- where the values go ----

  /** The seed objects that newComponent's values lead to: all in the namespace of the shoot, the operator with
      the wanted replicas, the certificate where it is told to look for it, its own token beside the
      generic kubeconfig, the runner's token and the same kubeconfig in its configuration. */
  lemma ComponentInSeed(n: string, replicas: int, kubeconfig: string, tls: string, bundle: seq<bv8>, options: string)
    ensures var v := ComponentValues(n, replicas, kubeconfig, tls, bundle, options);
            var d, c := MountedDeployment(v), ConfigOf(v);
            && d in SeedObjects(v) && d.spec.Workload? && d.spec.replicas == replicas
            && FromSecrets({tls}, c.tlsDir) in d.spec.volumes
            && FromSecrets({kubeconfig, "shoot-access-diki-operator"}, c.kubeconfigMount) in d.spec.volumes
            && c.kubeconfigSecret == kubeconfig && c.tokenSecret == "shoot-access-diki-runner" && c.runnerNamespace == n
            && (forall k :: k in KeysOf(SeedObjects(v)) ==> k.namespace == n)
            && (options != "" ==> BaseOptionsConfigMap(v).spec == Data(map["config.yaml" := options]))
  {
    var v := ComponentValues(n, replicas, kubeconfig, tls, bundle, options);
    SeedParts(v);
    var us := MountedDeployment(v).spec.volumes;
    assert us[1] in us && us[2] in us;
    forall k | k in KeysOf(SeedObjects(v)) ensures k.namespace == n {
      SeedNamespaced(v, k);
    }
  }

  /** And the shoot objects: the bundle is in every webhook. */
  lemma ComponentInShoot(n: string, replicas: int, kubeconfig: string, tls: string, bundle: seq<bv8>, options: string,
                         o: Object, h: Webhook)
    requires o in ShootObjects(ComponentValues(n, replicas, kubeconfig, tls, bundle, options)) && h in HooksOf(o)
    ensures h.caBundle == bundle
  {
    var path := HookCases(ComponentValues(n, replicas, kubeconfig, tls, bundle, options), o, h);
  }

  /** The operator finds its files: its configuration is the data entry of a mounted ConfigMap of the same set, its
      kubeconfig is where the secret that the runner is told to use is mounted. */
  lemma OperatorFindsFiles(v: Values)
    ensures var d := MountedDeployment(v).spec;
            && (exists o, u :: o in SeedObjects(v) && u in d.volumes && u.FromConfigMap? && o.spec.Configured? &&
                  o.key == Key(ConfigMap, v.namespace, u.configMap) && d.configArg == u.path + "/" + o.spec.file)
            && (exists u :: u in d.volumes && u.FromSecrets? && ConfigOf(v).kubeconfigSecret in u.secrets &&
                  v.operatorAccessSecret in u.secrets && d.kubeconfigArg == u.path + "/kubeconfig")
  {
    SeedParts(v);
    var o, us := SeedObjects(v)[2], MountedDeployment(v).spec.volumes;
    assert us[0] in us && us[2] in us;
    assert o.key == Key(ConfigMap, v.namespace, us[0].configMap);
  }

  /** The operator serves health, metrics and webhooks on three ports. */
  lemma OperatorPorts(v: Values)
    ensures ConfigOf(v).healthPort == 8081 && ConfigOf(v).metricsPort == 8080 && ConfigOf(v).webhookPort == 10443
    ensures |MountedDeployment(v).spec.containerPorts| == 3
  {
    assert MountedDeployment(v).spec.containerPorts == {8080, 8081, 10443};
  }

  /** The operator may take its lock: leader election happens in the namespace where its role for it is bound. */
  lemma OperatorLocks(v: Values)
    ensures Key(Role, ConfigOf(v).lockNamespace, ConfigOf(v).lockName) in OPERATOR_ROLES
  {
  }

  /** Network policies let the operator's pods reach DNS, the API server of the seed, where its jobs run, and that of
      the shoot, of which it has a kubeconfig. */
  lemma OperatorMayConnect(v: Values, policy: string)
    requires policy == "networking.gardener.cloud/to-dns" ||
             policy == "networking.gardener.cloud/to-runtime-apiserver" ||
             policy == "networking.resources.gardener.cloud/to-kube-apiserver-tcp-443"
    ensures var labels := MountedDeployment(v).spec.podLabels;
            policy in labels && labels[policy] == "allowed" && Selects(MountedDeployment(v).spec.selector, labels)
  {
    OwnLabelsGiven();
  }

  // ---- labels ----

  const APP := "app.kubernetes.io/name"

  /** The labels that tests and other controllers go by: the application's on everything but the monitor, which
      carries the one that the Prometheus of shoots selects; and on the Deployment that it is a server. */
  predicate Labelled(o: Object) {
    if o.key.kind.ServiceMonitor? then o.labels == map["prometheus" := "shoot"]
    else
      && APP in o.labels && o.labels[APP] == "diki-operator"
      && (o.key.kind.Deployment? ==>
            var ha := "high-availability-config.resources.gardener.cloud/type"; ha in o.labels && o.labels[ha] == "server")
  }

  lemma SeedLabelled(v: Values, i: nat)
    requires i < |SeedObjects(v)|
    ensures Labelled(SeedObjects(v)[i])
  {
  }

  lemma ShootLabelled(v: Values, i: nat)
    requires i < |ShootObjects(v)|
    ensures Labelled(ShootObjects(v)[i])
  {
  }
}
