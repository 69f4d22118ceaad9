/** The objects of the two ManagedResources as functions of the component's values, and the closure of
    what they refer to. Fields that nothing refers to (images, probes, quantities, rules) are left out. */
module Rendering {
  import opened Wrappers
  import opened Cluster

  const NAME := "diki-operator"
  const SYSTEM := "kube-system"
  const CONFIG_FILE := "config.yaml"
  const BASE_OPTIONS := "diki-base-options"
  const SCANNER := "scanner.diki.gardener.cloud"
  const EXPORTER := "exporter.diki.gardener.cloud"
  const OPERATOR_ACCESS := "shoot-access-diki-operator"
  const RUNNER_ACCESS := "shoot-access-diki-runner"
  const HOOKS := "gardener-extension-diki"
  const LEADER_ELECTION := "diki-operator-leader-election"
  const CONFIG_MOUNT := "/etc/diki-operator/config"
  const TLS_MOUNT := "/etc/diki-operator/webhooks/tls"
  const KUBECONFIG_MOUNT := "/var/run/secrets/gardener.cloud/" + "shoot/generic-kubeconfig"
  const HTTPS := "https://"
  const HTTPS_PORT := 443
  const PORT_HEALTH := 8081
  const PORT_METRICS := 8080
  const PORT_WEBHOOK := 10443

  datatype Values = Values(
    replicas: int,
    namespace: string,
    genericKubeconfigSecret: string,
    operatorAccessSecret: string,
    operatorAccount: string,
    runnerAccessSecret: string,
    runnerAccount: string,
    serverTLSSecret: string,
    webhookCABundle: seq<bv8>,
    baseOptionsData: string)

  type Labels = map<string, string>

  datatype Port = Port(name: string, port: int, target: int)

  datatype Webhook = Webhook(name: string, resource: string, url: string, caBundle: seq<bv8>)

  /** The parts of the operator configuration that point elsewhere. */
  datatype OperatorConfig = OperatorConfig(
    runnerNamespace: string, kubeconfigSecret: string, tokenSecret: string, kubeconfigMount: string,
    lockNamespace: string, lockName: string,
    healthPort: int, metricsPort: int, webhookPort: int, tlsDir: string,
    baseOptions: Option<(string, string)>)   // name and key of the ConfigMap

  datatype Volume = FromConfigMap(configMap: string, path: string) | FromSecrets(secrets: set<string>, path: string)

  datatype Spec =
    | Plain
    | Data(data: map<string, string>)
    | Configured(file: string, config: OperatorConfig)
    | Workload(replicas: int, selector: Labels, podLabels: Labels, account: string, container: string,
               configArg: string, kubeconfigArg: string,
               containerPorts: set<int>, probePort: int, volumes: seq<Volume>)
    | Exposed(selector: Labels, ports: seq<Port>)
    | Monitored(selector: Labels, port: string)
    | Scaled(target: Kind, name: string, container: string)
    | Bound(role: Kind, name: string, subject: Key)
    | Hooked(hooks: seq<Webhook>)

  datatype Object = Object(key: Key, labels: Labels, spec: Spec)

  function OwnLabels(): Labels {
    map["app.kubernetes.io/name" := NAME]
  }

  function PodLabels(): Labels {
    OwnLabels()["networking.gardener.cloud/to-dns" := "allowed"]
               ["networking.gardener.cloud/to-runtime-apiserver" := "allowed"]
               ["networking.resources.gardener.cloud/to-kube-apiserver-tcp-443" := "allowed"]
  }

  function HaLabels(): Labels {
    map["high-availability-config.resources.gardener.cloud/type" := "server"]
  }

  function InSeed(v: Values, kind: Kind, name: string, spec: Spec): Object {
    Object(Key(kind, v.namespace, name), OwnLabels(), spec)
  }

  function ConfigOf(v: Values): OperatorConfig {
    OperatorConfig(
      v.namespace, v.genericKubeconfigSecret, v.runnerAccessSecret, KUBECONFIG_MOUNT,
      SYSTEM, LEADER_ELECTION,
      PORT_HEALTH, PORT_METRICS, PORT_WEBHOOK, TLS_MOUNT,
      if v.baseOptionsData != "" then Some((BASE_OPTIONS, CONFIG_FILE)) else None)
  }

  function BaseOptionsConfigMap(v: Values): Object {
    InSeed(v, ConfigMap, BASE_OPTIONS, Data(map[CONFIG_FILE := v.baseOptionsData]))
  }

  function DeploymentOf(v: Values): Object {
    Object(
      Key(Deployment, v.namespace, NAME), OwnLabels() + HaLabels(),
      Workload(
        v.replicas, OwnLabels(), PodLabels(), NAME, NAME,
        CONFIG_MOUNT + "/" + CONFIG_FILE, KUBECONFIG_MOUNT + "/kubeconfig",
        {PORT_HEALTH, PORT_METRICS, PORT_WEBHOOK}, PORT_HEALTH,
        [FromConfigMap(NAME, CONFIG_MOUNT), FromSecrets({v.serverTLSSecret}, TLS_MOUNT)]))
  }

  /** InjectGenericKubeconfig: one more volume, with the kubeconfig and the operator's token. */
  function WithKubeconfig(o: Object, kubeconfigSecret: string, accessSecret: string): Object
    requires o.spec.Workload?
  {
    o.(spec := o.spec.(volumes := o.spec.volumes +
      [FromSecrets({kubeconfigSecret, accessSecret}, KUBECONFIG_MOUNT)]))
  }

  function MountedDeployment(v: Values): Object {
    WithKubeconfig(DeploymentOf(v), v.genericKubeconfigSecret, v.operatorAccessSecret)
  }

  function ServiceOf(v: Values): Object {
    InSeed(v, Service, NAME,
           Exposed(OwnLabels(), [Port("metrics", PORT_METRICS, PORT_METRICS), Port("webhooks", 443, PORT_WEBHOOK)]))
  }

  function CommonSeedObjects(v: Values): seq<Object> {
    [ InSeed(v, ServiceAccount, NAME, Plain),
      InSeed(v, ServiceAccount, "diki-run", Plain),
      InSeed(v, ConfigMap, NAME, Configured(CONFIG_FILE, ConfigOf(v))),
      MountedDeployment(v),
      ServiceOf(v),
      Object(Key(ServiceMonitor, v.namespace, "shoot-" + NAME), map["prometheus" := "shoot"],
             Monitored(OwnLabels(), "metrics")),
      InSeed(v, VerticalPodAutoscaler, NAME, Scaled(Deployment, NAME, NAME)),
      InSeed(v, Role, NAME, Plain),
      InSeed(v, RoleBinding, NAME, Bound(Role, NAME, Key(ServiceAccount, v.namespace, NAME))) ]
  }

  function SeedObjects(v: Values): seq<Object> {
    CommonSeedObjects(v) + if v.baseOptionsData != "" then [BaseOptionsConfigMap(v)] else []
  }

  /** The seed objects, built as the component builds them. */
  method SeedResources(v: Values) returns (resources: seq<Object>)
    ensures resources == SeedObjects(v)
    ensures v.baseOptionsData != "" <==> exists o :: o in resources && o.key == Key(ConfigMap, v.namespace, BASE_OPTIONS)
  {
    resources := CommonSeedObjects(v);
    if |v.baseOptionsData| != 0 {
      resources := resources + [BaseOptionsConfigMap(v)];
      assert resources[|resources| - 1] == BaseOptionsConfigMap(v);
    }
  }

  function InShoot(kind: Kind, namespace: string, name: string, spec: Spec): Object {
    Object(Key(kind, namespace, name), OwnLabels(), spec)
  }

  function Account(name: string): Key {
    Key(ServiceAccount, SYSTEM, name)
  }

  function WebhookURL(v: Values): string {
    HTTPS + NAME + "." + v.namespace + ".svc"
  }

  function Definition(name: string): Object {
    InShoot(CustomResourceDefinition, "", name + ".diki.gardener.cloud", Plain)
  }

  function ShootObjects(v: Values): seq<Object> {
    [ InShoot(ClusterRole, "", NAME, Plain),
      InShoot(ClusterRoleBinding, "", NAME, Bound(ClusterRole, NAME, Account(v.operatorAccount))),
      InShoot(ClusterRole, "", SCANNER, Plain),
      InShoot(ClusterRoleBinding, "", "diki-scanner", Bound(ClusterRole, SCANNER, Account(v.runnerAccount))),
      InShoot(Role, SYSTEM, SCANNER, Plain),
      InShoot(RoleBinding, SYSTEM, "diki-scanner", Bound(Role, SCANNER, Account(v.runnerAccount))),
      InShoot(ClusterRole, "", EXPORTER, Plain),
      InShoot(ClusterRoleBinding, "", "diki-exporter", Bound(ClusterRole, EXPORTER, Account(v.runnerAccount))),
      InShoot(Role, SYSTEM, LEADER_ELECTION, Plain),
      InShoot(RoleBinding, SYSTEM, LEADER_ELECTION, Bound(Role, LEADER_ELECTION, Account(v.operatorAccount))),
      InShoot(ValidatingWebhookConfiguration, "", HOOKS, Hooked(
        [ Webhook("compliancescans.diki.gardener.cloud", "compliancescans",
                  WebhookURL(v) + "/webhooks/compliancescan", v.webhookCABundle),
          Webhook("scheduledcompliancescans.diki.gardener.cloud", "scheduledcompliancescans",
                  WebhookURL(v) + "/webhooks/scheduledcompliancescan/validate", v.webhookCABundle) ])),
      InShoot(MutatingWebhookConfiguration, "", HOOKS, Hooked(
        [ Webhook("scheduledcompliancescans.diki.gardener.cloud", "scheduledcompliancescans",
                  WebhookURL(v) + "/webhooks/scheduledcompliancescan/mutate", v.webhookCABundle) ])),
      Definition("compliancescans"),
      Definition("reportoutputs"),
      Definition("scheduledcompliancescans") ]
  }

  // ---- identities ----

  predicate DistinctKeys(os: seq<Object>) {
    forall i, j :: 0 <= i < j < |os| ==> os[i].key != os[j].key
  }

  lemma SeedKeysDistinct(v: Values)
    ensures DistinctKeys(SeedObjects(v))
  {
    assert NAME != BASE_OPTIONS && NAME != "diki-run";
  }

  lemma ShootKeysDistinct(v: Values)
    ensures DistinctKeys(ShootObjects(v))
  {
    NamesDistinct();
  }

  lemma NamesDistinct()
    ensures |NAME| == 13 && |SCANNER| == 27 && |EXPORTER| == 28 && |LEADER_ELECTION| == 29
    ensures |"diki-scanner"| == 12 && |"diki-exporter"| == 13 && NAME != "diki-exporter"
    ensures |("compliancescans" + ".diki.gardener.cloud")| == 35
    ensures |("reportoutputs" + ".diki.gardener.cloud")| == 33
    ensures |("scheduledcompliancescans" + ".diki.gardener.cloud")| == 44
  {
    assert NAME[5] == 'o' && "diki-exporter"[5] == 'e';
  }

  function KeysOf(os: seq<Object>): set<Key> {
    set o | o in os :: o.key
  }

  /** The objects that the extension keeps in a shoot; `catalog` in the lifecycle stands for this set. */
  function Catalog(v: Values): set<Key> {
    KeysOf(ShootObjects(v))
  }

  lemma SameKeys(os: seq<Object>, ps: seq<Object>)
    requires |os| == |ps| && forall i :: 0 <= i < |os| ==> os[i].key == ps[i].key
    ensures KeysOf(os) == KeysOf(ps)
  {
    forall k ensures k in KeysOf(os) <==> k in KeysOf(ps) {
      if k in KeysOf(os) {
        var i :| 0 <= i < |os| && os[i].key == k;
        assert ps[i] in ps;
      }
      if k in KeysOf(ps) {
        var i :| 0 <= i < |ps| && ps[i].key == k;
        assert os[i] in os;
      }
    }
  }

  lemma ShootKeysFixed(v: Values, u: Values)
    ensures |ShootObjects(v)| == |ShootObjects(u)|
    ensures forall i :: 0 <= i < |ShootObjects(v)| ==> ShootObjects(v)[i].key == ShootObjects(u)[i].key
  {
  }

  /** Whatever the values, they are the same objects: rotations and new values never leave any behind. */
  lemma CatalogFixed(v: Values, u: Values)
    ensures Catalog(v) == Catalog(u)
  {
    ShootKeysFixed(v, u);
    SameKeys(ShootObjects(v), ShootObjects(u));
  }

  /** The webhook configurations are among them. */
  lemma CatalogHooks(v: Values)
    ensures Key(ValidatingWebhookConfiguration, "", HOOKS) in Catalog(v)
    ensures Key(MutatingWebhookConfiguration, "", HOOKS) in Catalog(v)
  {
    assert ShootObjects(v)[10] in ShootObjects(v) && ShootObjects(v)[11] in ShootObjects(v);
  }

  /** The seed objects of two shoots on one seed share no key. */
  lemma SeedSetsDisjoint(v: Values, u: Values)
    ensures KeysOf(SeedObjects(v)) !! KeysOf(SeedObjects(u)) <==> v.namespace != u.namespace
  {
    assert SeedObjects(v)[0] in SeedObjects(v) && SeedObjects(u)[0] in SeedObjects(u);
    assert Key(ServiceAccount, v.namespace, NAME) in KeysOf(SeedObjects(v));
    assert Key(ServiceAccount, u.namespace, NAME) in KeysOf(SeedObjects(u));
    forall k | k in KeysOf(SeedObjects(v)) ensures k.namespace == v.namespace {
      SeedNamespaced(v, k);
    }
    forall k | k in KeysOf(SeedObjects(u)) ensures k.namespace == u.namespace {
      SeedNamespaced(u, k);
    }
  }

  lemma SeedNamespaced(v: Values, k: Key)
    requires k in KeysOf(SeedObjects(v))
    ensures k.namespace == v.namespace
  {
  }

  // ---- references ----

  predicate Has(os: seq<Object>, k: Key) {
    exists i :: 0 <= i < |os| && os[i].key == k
  }

  /** The scope in which a role is looked up. */
  function RoleKey(role: Kind, name: string, namespace: string): Key {
    Key(role, if role.ClusterRole? then "" else namespace, name)
  }

  function MountedConfigMaps(o: Object): set<string>
    requires o.spec.Workload?
  {
    set u | u in o.spec.volumes && u.FromConfigMap? :: u.configMap
  }

  function MountedSecrets(o: Object): set<string>
    requires o.spec.Workload?
  {
    set u, x | u in o.spec.volumes && u.FromSecrets? && x in u.secrets :: x
  }

  /** Objects of the same set that the object names. */
  function References(o: Object): set<Key> {
    var n := o.key.namespace;
    match o.spec
    case Workload(_, _, _, account, _, _, _, _, _, _) =>
      {Key(ServiceAccount, n, account)} + set m | m in MountedConfigMaps(o) :: Key(ConfigMap, n, m)
    case Configured(_, c) =>
      if c.baseOptions.Some? then {Key(ConfigMap, c.runnerNamespace, c.baseOptions.value.0)} else {}
    case Scaled(kind, name, _) => {Key(kind, n, name)}
    case Bound(role, name, _) => {RoleKey(role, name, n)}
    case _ => {}
  }

  predicate Closed(os: seq<Object>) {
    forall i, k :: 0 <= i < |os| && k in References(os[i]) ==> Has(os, k)
  }

  /** An empty selector is not meant to select anything. */
  predicate Selects(selector: Labels, labels: Labels) {
    selector != map[] && forall k :: k in selector ==> k in labels && labels[k] == selector[k]
  }

  lemma OwnLabelsGiven()
    ensures OwnLabels() != map[]
  {
    assert "app.kubernetes.io/name" in OwnLabels();
  }

  lemma HasAt(os: seq<Object>, i: nat, k: Key)
    requires i < |os| && os[i].key == k
    ensures Has(os, k)
  {
  }

  lemma SeedReferences(v: Values, i: nat)
    requires i < |SeedObjects(v)|
    ensures var os := SeedObjects(v);
            References(os[i]) ==
              if i == 2 && v.baseOptionsData != "" then {os[9].key}
              else if i == 3 then {os[0].key, os[2].key}
              else if i == 6 then {os[3].key}
              else if i == 8 then {os[7].key}
              else {}
  {
    if i == 3 {
      SeedMounts(v);
    }
  }

  /** Every object that a seed object names is rendered with it, for all values. */
  lemma SeedClosed(v: Values)
    ensures Closed(SeedObjects(v))
    ensures forall o :: o in SeedObjects(v) && o.spec.Bound? ==> Has(SeedObjects(v), o.spec.subject)
  {
    var os := SeedObjects(v);
    forall i, k | 0 <= i < |os| && k in References(os[i]) ensures Has(os, k) {
      SeedReferences(v, i);
    }
    forall o | o in os && o.spec.Bound? ensures Has(os, o.spec.subject) {
      SeedSubject(v, o);
    }
  }

  lemma SeedSubject(v: Values, o: Object)
    requires o in SeedObjects(v) && o.spec.Bound?
    ensures o.spec.subject == SeedObjects(v)[0].key
  {
  }

  /** The operator's pods mount its configuration and three secrets, all of them named by the values. */
  lemma SeedMounts(v: Values)
    ensures var d := SeedObjects(v)[3];
            d.spec.Workload? && MountedConfigMaps(d) == {NAME} &&
            MountedSecrets(d) == {v.serverTLSSecret, v.genericKubeconfigSecret, v.operatorAccessSecret}
  {
    var d := SeedObjects(v)[3];
    assert d == MountedDeployment(v);
    var us := d.spec.volumes;
    assert us == [us[0], us[1], us[2]];
    assert us[0] in us && us[1] in us && us[2] in us;
  }

  /** Selectors pick the operator's pods and its Service; the monitor scrapes a port of the Service; each
      port of the Service leads to a container port, and the probes and the configuration use such ports. */
  lemma SeedWired(v: Values)
    ensures var os := SeedObjects(v);
            var d, s, m, c, a := os[3].spec, os[4], os[5].spec, os[2].spec, os[6].spec;
            d.Workload? && s.spec.Exposed? && m.Monitored? && c.Configured? && a.Scaled? &&
            Selects(d.selector, d.podLabels) && Selects(s.spec.selector, d.podLabels) && Selects(m.selector, s.labels) &&
            (exists p :: p in s.spec.ports && p.name == m.port && p.target == c.config.metricsPort) &&
            (forall p :: p in s.spec.ports ==> p.target in d.containerPorts) &&
            d.probePort == c.config.healthPort &&
            {c.config.healthPort, c.config.metricsPort, c.config.webhookPort} == d.containerPorts &&
            FromSecrets({v.serverTLSSecret}, c.config.tlsDir) in d.volumes &&
            a.container == d.container && c.file == CONFIG_FILE
  {
    OwnLabelsGiven();
    var s := ServiceOf(v).spec;
    assert SeedObjects(v)[4].spec == s;
    assert s.ports[0] in s.ports;
    var d := SeedObjects(v)[3].spec;
    assert d.volumes[1] == FromSecrets({v.serverTLSSecret}, TLS_MOUNT);
  }

  /** Who is meant to hold a role: scanning and exporting is the runner's part. */
  function Holder(v: Values, role: string): Key {
    Account(if role == SCANNER || role == EXPORTER then v.runnerAccount else v.operatorAccount)
  }

  /** A binding comes right after its role. */
  lemma ShootReferences(v: Values, i: nat)
    requires i < |ShootObjects(v)|
    ensures var os := ShootObjects(v);
            References(os[i]) == (if os[i].spec.Bound? then {os[i - 1].key} else {}) &&
            (os[i].spec.Bound? ==> i > 0 && os[i].spec.subject == Holder(v, os[i - 1].key.name))
  {
    NamesDistinct();
  }

  /** Every role that a shoot object binds is rendered with it, in the scope of the binding, and is
      bound to the one service account that is meant to hold it. */
  lemma ShootClosed(v: Values)
    ensures Closed(ShootObjects(v))
    ensures forall o :: o in ShootObjects(v) && o.spec.Bound? ==> o.spec.subject == Holder(v, o.spec.name)
  {
    var os := ShootObjects(v);
    forall i | 0 <= i < |os|
      ensures forall k :: k in References(os[i]) ==> Has(os, k)
      ensures os[i].spec.Bound? ==> os[i].spec.subject == Holder(v, os[i].spec.name)
    {
      ShootReferences(v, i);
      if os[i].spec.Bound? {
        var r := RoleKey(os[i].spec.role, os[i].spec.name, os[i].key.namespace);
        assert r in References(os[i]);
      }
    }
  }

  // ---- the values of one shoot ----

  const TLS := "diki-operator-tls"

  /** The values that newComponent passes: the access secrets and service accounts have fixed names; the
      generic kubeconfig, the server certificate and the bundle are found out at run time. */
  function ComponentValues(namespace: string, replicas: int, genericKubeconfigSecret: string,
                           serverTLSSecret: string, webhookCABundle: seq<bv8>, baseOptionsData: string): Values
  {
    Values(replicas, namespace, genericKubeconfigSecret, OPERATOR_ACCESS, "diki-operator",
           RUNNER_ACCESS, "diki-runner", serverTLSSecret, webhookCABundle, baseOptionsData)
  }

  /** The secrets manager appends a hash to the name of its configuration; a deletion passes no name. */
  predicate TLSName(name: string) {
    name == "" || TLS <= name
  }

  /** newComponent was given the names above. */
  predicate Composed(v: Values) {
    TLSName(v.serverTLSSecret) &&
    v == ComponentValues(v.namespace, v.replicas, v.genericKubeconfigSecret, v.serverTLSSecret,
                         v.webhookCABundle, v.baseOptionsData)
  }

  /** The kubeconfig that the runner is told to use is one that the operator mounts, the token is not: all
      that must be known for this is that the kubeconfig is not in the runner's access secret. */
  lemma RunnerHasOwnToken(v: Values)
    requires Composed(v)
    ensures ConfigOf(v).kubeconfigSecret in MountedSecrets(SeedObjects(v)[3])
    ensures ConfigOf(v).tokenSecret !in MountedSecrets(SeedObjects(v)[3]) <==>
              v.genericKubeconfigSecret != RUNNER_ACCESS
  {
    SeedMounts(v);
    AccessNames();
  }

  /** The service account behind the runner's token is bound to the scanner and the exporter role alone,
      and no other account is. */
  lemma RunnerHasOwnRoles(v: Values, o: Object)
    requires Composed(v) && o in ShootObjects(v) && o.spec.Bound?
    ensures o.spec.subject == Account(v.runnerAccount) <==> o.spec.name == SCANNER || o.spec.name == EXPORTER
  {
    ShootClosed(v);
    AccessNames();
  }

  lemma AccessNames()
    ensures OPERATOR_ACCESS != RUNNER_ACCESS && "diki-operator" != "diki-runner"
    ensures forall tls :: TLSName(tls) ==> tls != RUNNER_ACCESS
  {
    assert |OPERATOR_ACCESS| == 26 && |RUNNER_ACCESS| == 24 && |"diki-operator"| == 13 && |"diki-runner"| == 11;
    assert TLS[0] == 'd' && RUNNER_ACCESS[0] == 's';
  }

  // ---- the way from a webhook to the operator ----

  /** The DNS names of a Service, as the server certificate lists them. */
  function DNSNames(service: string, namespace: string): set<string> {
    { service, service + "." + namespace, service + "." + namespace + ".svc",
      service + "." + namespace + ".svc.cluster.local" }
  }

  predicate HostEnds(c: char) {
    c == '/' || c == ':'
  }

  function UpToEnd(s: string): (h: string)
    ensures |h| <= |s|
  {
    if s == "" || HostEnds(s[0]) then "" else [s[0]] + UpToEnd(s[1..])
  }

  /** The host of an https URL. */
  function Host(url: string): Option<string> {
    if HTTPS <= url then Some(UpToEnd(url[|HTTPS|..])) else None
  }

  /** The port of an https URL, unless it names one itself. */
  function PortOf(url: string): Option<int> {
    if !(HTTPS <= url) then None
    else
      var rest := url[|HTTPS|..];
      if rest[|UpToEnd(rest)|..] != "" && rest[|UpToEnd(rest)|] == ':' then None else Some(HTTPS_PORT)
  }

  lemma {:induction false} UpToEndStops(h: string, path: string)
    requires forall i :: 0 <= i < |h| ==> !HostEnds(h[i])
    requires path != "" && path[0] == '/'
    ensures UpToEnd(h + path) == h
    decreases |h|
  {
    if h == "" {
      assert h + path == path;
    } else {
      assert (h + path)[1..] == h[1..] + path;
      UpToEndStops(h[1..], path);
    }
  }

  /** A namespace is a DNS label; of that, all that matters here is that it cannot end a host. */
  predicate HostPart(s: string) {
    forall i :: 0 <= i < |s| ==> !HostEnds(s[i])
  }

  lemma URLHost(v: Values, path: string)
    requires HostPart(v.namespace) && path != "" && path[0] == '/'
    ensures Host(WebhookURL(v) + path) == Some(NAME + "." + v.namespace + ".svc")
    ensures PortOf(WebhookURL(v) + path) == Some(HTTPS_PORT)
  {
    var h := NAME + "." + v.namespace + ".svc";
    var url := WebhookURL(v) + path;
    assert url == HTTPS + (h + path);
    assert url[|HTTPS|..] == h + path;
    assert HostPart(NAME) && HostPart(".svc");
    UpToEndStops(h, path);
    assert (h + path)[|h|..] == path;
  }

  function HooksOf(o: Object): seq<Webhook> {
    if o.spec.Hooked? then o.spec.hooks else []
  }

  /** The URLs of the webhooks. */
  lemma HookCases(v: Values, o: Object, h: Webhook) returns (path: string)
    requires o in ShootObjects(v) && h in HooksOf(o)
    ensures h.caBundle == v.webhookCABundle && h.url == WebhookURL(v) + path && path != "" && path[0] == '/'
  {
    var os := ShootObjects(v);
    var i :| 0 <= i < |os| && os[i] == o;
    path := if h == os[11].spec.hooks[0] then "/webhooks/scheduledcompliancescan/mutate"
            else if h == os[10].spec.hooks[0] then "/webhooks/compliancescan"
            else "/webhooks/scheduledcompliancescan/validate";
  }

  /** Each webhook calls a host that the server certificate names, and trusts the bundle of the values. */
  lemma WebhooksNameService(v: Values, o: Object, h: Webhook)
    requires HostPart(v.namespace)
    requires o in ShootObjects(v) && h in HooksOf(o)
    ensures Host(h.url).Some? && Host(h.url).value in DNSNames(NAME, v.namespace) && h.caBundle == v.webhookCABundle
  {
    var path := HookCases(v, o, h);
    URLHost(v, path);
  }

  /** The Service of that name is rendered, and takes the default port of https to the one on which the
      operator is told to serve and which its container opens. */
  lemma ServiceReachesOperator(v: Values)
    ensures var s, c, d := ServiceOf(v), ConfigOf(v), DeploymentOf(v).spec;
            Has(SeedObjects(v), s.key) && s.key == Key(Service, v.namespace, NAME) && s.spec.Exposed? && d.Workload? &&
            exists p :: p in s.spec.ports && p.port == 443 && p.target == c.webhookPort && p.target in d.containerPorts
  {
    HasAt(SeedObjects(v), 4, ServiceOf(v).key);
    var s := ServiceOf(v).spec;
    assert s.ports[1] in s.ports;
  }

  /** A call of the URL arrives where the operator serves: its host is a DNS name of the Service `s`, its port
      one of the ports of `s`, which leads to the pods of `d`, to a port that they open and on which the
      configuration `c` has the webhooks served. */
  predicate Reaches(url: string, s: Object, d: Object, c: OperatorConfig) {
    && s.key.kind.Service? && s.spec.Exposed? && d.spec.Workload? && d.key.namespace == s.key.namespace
    && Host(url).Some? && Host(url).value in DNSNames(s.key.name, s.key.namespace)
    && Selects(s.spec.selector, d.spec.podLabels)
    && exists p :: p in s.spec.ports && PortOf(url) == Some(p.port) && p.target == c.webhookPort &&
                   p.target in d.spec.containerPorts
  }

  /** Each webhook reaches the operator that is rendered with it, through the Service that is rendered with it. */
  lemma WebhooksReachOperator(v: Values, o: Object, h: Webhook)
    requires HostPart(v.namespace)
    requires o in ShootObjects(v) && h in HooksOf(o)
    ensures exists s, d :: s in SeedObjects(v) && d in SeedObjects(v) && Reaches(h.url, s, d, ConfigOf(v))
    ensures exists c :: c in SeedObjects(v) && c.spec == Configured(CONFIG_FILE, ConfigOf(v))
  {
    var path := HookCases(v, o, h);
    URLHost(v, path);
    ReachedAt(v, h.url);
    SeedParts(v);
  }

  lemma SeedParts(v: Values)
    ensures ServiceOf(v) in SeedObjects(v) && MountedDeployment(v) in SeedObjects(v)
    ensures SeedObjects(v)[2] in SeedObjects(v) && SeedObjects(v)[2].spec == Configured(CONFIG_FILE, ConfigOf(v))
  {
    assert SeedObjects(v)[3] == MountedDeployment(v) && SeedObjects(v)[4] == ServiceOf(v);
  }

  lemma ReachedAt(v: Values, url: string)
    requires Host(url) == Some(NAME + "." + v.namespace + ".svc") && PortOf(url) == Some(HTTPS_PORT)
    ensures Reaches(url, ServiceOf(v), MountedDeployment(v), ConfigOf(v))
  {
    OwnLabelsGiven();
    var s := ServiceOf(v).spec;
    assert s.ports[1] in s.ports;
  }
}
