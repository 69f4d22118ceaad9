/** The API server of a seed, which holds the objects of all shoots in one map. Every call of the controller
    and of its surroundings puts its keys together from a namespace and constants, or lists by namespace and
    label. This module shows that this is enough to keep the shoots apart, and that what a call does to the
    shared map is what the protocol says it does to the part of one shoot. */
module Store {
  import opened Wrappers
  import opened Cluster
  import opened Protocol
  import Rendering

  const IDENTITY := "extension-diki"
  const SHOOT_MR := "extension-diki-shoot"
  const SEED_MR := "extension-diki-seed"

  datatype Sort = SecretSort | MRSort | DeploymentSort | ClusterSort

  /** A fixed name, or one that the secrets manager makes of its configuration and a hash of the content:
      it stands for the content. */
  datatype Name = Plain(text: string) | Hashed(content: Secret)

  /** Identity of an object; the namespace of a Cluster resource is empty, it is cluster-scoped. */
  datatype Id = Id(sort: Sort, namespace: string, name: Name)

  datatype Body =
    | SecretBody(manager: string)             // value of the manager-identity label, empty without one
    | ShootMRBody(shoot: ManagedResource<ShootPayload>, inventory: set<Key>)
    | SeedMRBody(seed: ManagedResource<SeedPayload>)
    | DeploymentBody(deployment: SeedPayload)
    | ClusterBody(rotation: Rotation, hibernated: bool)

  type Objects = map<Id, Body>

  // ---- keys, from a namespace and constants ----

  function AccessId(n: string, name: string): Id {
    Id(SecretSort, n, Plain(name))
  }

  function ManagedId(n: string, x: Secret): Id {
    Id(SecretSort, n, Hashed(x))
  }

  function ShootMRId(n: string): Id {
    Id(MRSort, n, Plain(SHOOT_MR))
  }

  function SeedMRId(n: string): Id {
    Id(MRSort, n, Plain(SEED_MR))
  }

  function DeploymentId(n: string): Id {
    Id(DeploymentSort, n, Plain(Rendering.NAME))
  }

  /** The Cluster resource of a shoot has the name of its namespace. */
  function ClusterId(n: string): Id {
    Id(ClusterSort, "", Plain(n))
  }

  // ---- reads ----

  function ShootMR(st: Objects, n: string): Option<ManagedResource<ShootPayload>> {
    var k := ShootMRId(n);
    if k in st && st[k].ShootMRBody? then Some(st[k].shoot) else None
  }

  function Inventory(st: Objects, n: string): set<Key> {
    var k := ShootMRId(n);
    if k in st && st[k].ShootMRBody? then st[k].inventory else {}
  }

  function SeedMR(st: Objects, n: string): Option<ManagedResource<SeedPayload>> {
    var k := SeedMRId(n);
    if k in st && st[k].SeedMRBody? then Some(st[k].seed) else None
  }

  function DeploymentIn(st: Objects, n: string): Option<SeedPayload> {
    var k := DeploymentId(n);
    if k in st && st[k].DeploymentBody? then Some(st[k].deployment) else None
  }

  predicate HasCluster(st: Objects, n: string) {
    ClusterId(n) in st && st[ClusterId(n)].ClusterBody?
  }

  function RotationIn(st: Objects, n: string): Rotation {
    if HasCluster(st, n) then st[ClusterId(n)].rotation else Rotation(0, true)
  }

  function HibernatedIn(st: Objects, n: string): bool {
    HasCluster(st, n) && st[ClusterId(n)].hibernated
  }

  /** The secrets in the namespace, by what they are. */
  function Meaning(name: Name): Secret {
    match name
    case Hashed(x) => x
    case Plain(text) =>
      if text == Rendering.OPERATOR_ACCESS then OperatorAccess
      else if text == Rendering.RUNNER_ACCESS then RunnerAccess
      else Foreign(text)
  }

  function SecretsIn(st: Objects, n: string): set<Secret> {
    set k | k in st && k.sort.SecretSort? && k.namespace == n :: Meaning(k.name)
  }

  /** What the secrets manager finds when it lists its own secrets: by namespace and label. */
  function Listed(st: Objects, n: string): set<Secret> {
    set k | k in st && k.sort.SecretSort? && k.namespace == n && st[k] == SecretBody(IDENTITY) :: Meaning(k.name)
  }

  // ---- writes ----

  function PutShootMR(st: Objects, n: string, m: Option<ManagedResource<ShootPayload>>, inventory: set<Key>): Objects {
    if m.Some? then st[ShootMRId(n) := ShootMRBody(m.value, inventory)] else st - {ShootMRId(n)}
  }

  function PutSeedMR(st: Objects, n: string, m: Option<ManagedResource<SeedPayload>>): Objects {
    if m.Some? then st[SeedMRId(n) := SeedMRBody(m.value)] else st - {SeedMRId(n)}
  }

  function PutManaged(st: Objects, n: string, x: Secret): Objects {
    st[ManagedId(n, x) := SecretBody(IDENTITY)]
  }

  /** The call at `r.pc` of an operation on namespace `n`, on the shared map. */
  function Call(st: Objects, n: string, r: Run, serial: nat): Objects {
    match r.pc
    case WriteOperatorAccess => st[AccessId(n, Rendering.OPERATOR_ACCESS) := SecretBody("")]
    case WriteRunnerAccess => st[AccessId(n, Rendering.RUNNER_ACCESS) := SecretBody("")]
    case IssueCa => PutManaged(st, n, CaKey(r.rotation.ca))
    case IssueBundle => PutManaged(st, n, CaBundle(BundleFor(Listed(st, n), r.rotation)))
    case IssueCert => PutManaged(st, n, ServerCert(r.rotation.ca, serial))
    case WriteShoot => PutShootMR(st, n, Some(Written(ShootMR(st, n), r.Shoot())), Inventory(st, n))
    case WriteSeed => PutSeedMR(st, n, Some(Written(SeedMR(st, n), r.Seed())))
    case KeepShoot => PutShootMR(st, n, Kept(ShootMR(st, n)), Inventory(st, n))
    case DropShoot => PutShootMR(st, n, Marked(ShootMR(st, n)), Inventory(st, n))
    case DropSeed => PutSeedMR(st, n, Marked(SeedMR(st, n)))
    case DropOperatorAccess => st - {AccessId(n, Rendering.OPERATOR_ACCESS)}
    case DropRunnerAccess => st - {AccessId(n, Rendering.RUNNER_ACCESS)}
    case _ => st
  }

  /** What the call brings into the local variables. */
  function CallLocals(st: Objects, n: string, r: Run, serial: nat): Run {
    var next := r.(pc := After(r.op, r.pc));
    match r.pc
    case GetCluster => next.(rotation := RotationIn(st, n), replicas := if HibernatedIn(st, n) then 0 else 1)
    case IssueBundle => next.(bundle := BundleFor(Listed(st, n), r.rotation))
    case IssueCert => next.(serial := serial)
    case _ => next
  }

  /** Secrets of the namespace that the handover of the control plane takes along. */
  predicate HandedOver(k: Id, n: string) {
    k.sort.SecretSort? && k.namespace == n ==> Meaning(k.name).CaKey? || Meaning(k.name).Foreign?
  }

  /** The same for the surroundings of the shoot in namespace `n`. */
  function Surroundings(st: Objects, n: string, e: EnvStep): Objects {
    var shoot, seed, inventory := ShootMR(st, n), SeedMR(st, n), Inventory(st, n);
    var rotation, hibernated := RotationIn(st, n), HibernatedIn(st, n);
    match e
    case ListShoot(k) => if shoot.Some? then PutShootMR(st, n, shoot, inventory + {k}) else st
    case ObserveShoot =>
      if shoot.Some? then PutShootMR(st, n, Some(shoot.value.(observed := shoot.value.generation)), inventory) else st
    case RemoveShoot(k) => if shoot.Some? then PutShootMR(st, n, shoot, inventory - {k}) else st
    case ReleaseShoot => PutShootMR(st, n, None, {})
    case ApplySeed => if seed.Some? then st[DeploymentId(n) := DeploymentBody(seed.value.payload)] else st
    case ObserveSeed =>
      if seed.Some? then PutSeedMR(st, n, Some(seed.value.(observed := seed.value.generation))) else st
    case RemoveSeed => st - {DeploymentId(n)}
    case ReleaseSeed => PutSeedMR(st, n, None)
    case StartRotation => st[ClusterId(n) := ClusterBody(Rotation(rotation.ca + 1, false), hibernated)]
    case CompleteRotation => st[ClusterId(n) := ClusterBody(rotation.(dropOld := true), hibernated)]
    case SetHibernation(on) => st[ClusterId(n) := ClusterBody(rotation, on)]
    case Handover => map k | k in st && HandedOver(k, n) :: st[k]
    case _ => st
  }

  // ---- each call stays within its namespace ----

  predicate Owned(k: Id, n: string) {
    if k.sort.ClusterSort? then k.name == Plain(n) else k.namespace == n
  }

  function Mine(st: Objects, n: string): Objects {
    map k | k in st && Owned(k, n) :: st[k]
  }

  function Others(st: Objects, n: string): Objects {
    map k | k in st && !Owned(k, n) :: st[k]
  }

  lemma ReadsOwn(st: Objects, n: string)
    ensures var own := Mine(st, n);
            && ShootMR(own, n) == ShootMR(st, n) && Inventory(own, n) == Inventory(st, n)
            && SeedMR(own, n) == SeedMR(st, n) && DeploymentIn(own, n) == DeploymentIn(st, n)
            && RotationIn(own, n) == RotationIn(st, n) && HibernatedIn(own, n) == HibernatedIn(st, n)
            && HasCluster(own, n) == HasCluster(st, n)
            && SecretsIn(own, n) == SecretsIn(st, n) && Listed(own, n) == Listed(st, n)
  {
    var own := Mine(st, n);
    assert forall k :: k in st && k.sort.SecretSort? && k.namespace == n ==> k in own && own[k] == st[k];
  }

  lemma PutOwn(st: Objects, n: string, k: Id, b: Body)
    requires Owned(k, n)
    ensures Others(st[k := b], n) == Others(st, n) && Others(st - {k}, n) == Others(st, n)
    ensures Mine(st[k := b], n) == Mine(st, n)[k := b] && Mine(st - {k}, n) == Mine(st, n) - {k}
  {
  }

  /** A call writes only keys of its namespace, and what it writes there and takes into its variables
      depends only on these keys. */
  lemma CallStaysWithin(st: Objects, n: string, r: Run, serial: nat)
    ensures Others(Call(st, n, r, serial), n) == Others(st, n)
    ensures Mine(Call(st, n, r, serial), n) == Call(Mine(st, n), n, r, serial)
    ensures CallLocals(st, n, r, serial) == CallLocals(Mine(st, n), n, r, serial)
  {
    ReadsOwn(st, n);
    match r.pc
    case WriteOperatorAccess => PutOwn(st, n, AccessId(n, Rendering.OPERATOR_ACCESS), SecretBody(""));
    case WriteRunnerAccess => PutOwn(st, n, AccessId(n, Rendering.RUNNER_ACCESS), SecretBody(""));
    case IssueCa => PutOwn(st, n, ManagedId(n, CaKey(r.rotation.ca)), SecretBody(IDENTITY));
    case IssueBundle =>
      PutOwn(st, n, ManagedId(n, CaBundle(BundleFor(Listed(st, n), r.rotation))), SecretBody(IDENTITY));
    case IssueCert => PutOwn(st, n, ManagedId(n, ServerCert(r.rotation.ca, serial)), SecretBody(IDENTITY));
    case WriteShoot =>
      PutOwn(st, n, ShootMRId(n), ShootMRBody(Written(ShootMR(st, n), r.Shoot()), Inventory(st, n)));
    case WriteSeed => PutOwn(st, n, SeedMRId(n), SeedMRBody(Written(SeedMR(st, n), r.Seed())));
    case KeepShoot => PutShootMROwn(st, n, Kept(ShootMR(st, n)), Inventory(st, n));
    case DropShoot => PutShootMROwn(st, n, Marked(ShootMR(st, n)), Inventory(st, n));
    case DropSeed => PutSeedMROwn(st, n, Marked(SeedMR(st, n)));
    case DropOperatorAccess => PutOwn(st, n, AccessId(n, Rendering.OPERATOR_ACCESS), SecretBody(""));
    case DropRunnerAccess => PutOwn(st, n, AccessId(n, Rendering.RUNNER_ACCESS), SecretBody(""));
    case _ =>
  }

  lemma PutShootMROwn(st: Objects, n: string, m: Option<ManagedResource<ShootPayload>>, inventory: set<Key>)
    ensures Others(PutShootMR(st, n, m, inventory), n) == Others(st, n)
    ensures Mine(PutShootMR(st, n, m, inventory), n) == PutShootMR(Mine(st, n), n, m, inventory)
  {
    PutOwn(st, n, ShootMRId(n), if m.Some? then ShootMRBody(m.value, inventory) else SecretBody(""));
  }

  lemma PutSeedMROwn(st: Objects, n: string, m: Option<ManagedResource<SeedPayload>>)
    ensures Others(PutSeedMR(st, n, m), n) == Others(st, n)
    ensures Mine(PutSeedMR(st, n, m), n) == PutSeedMR(Mine(st, n), n, m)
  {
    PutOwn(st, n, SeedMRId(n), if m.Some? then SeedMRBody(m.value) else SecretBody(""));
  }

  lemma PutClusterOwn(st: Objects, n: string, rotation: Rotation, hibernated: bool)
    ensures var b := ClusterBody(rotation, hibernated);
            Others(st[ClusterId(n) := b], n) == Others(st, n) &&
            Mine(st[ClusterId(n) := b], n) == Mine(st, n)[ClusterId(n) := b]
  {
    PutOwn(st, n, ClusterId(n), ClusterBody(rotation, hibernated));
  }

  /** So do the steps of the surroundings of a shoot. */
  lemma SurroundingsStayWithin(st: Objects, n: string, e: EnvStep)
    ensures Others(Surroundings(st, n, e), n) == Others(st, n)
    ensures Mine(Surroundings(st, n, e), n) == Surroundings(Mine(st, n), n, e)
  {
    ReadsOwn(st, n);
    var shoot, seed, inventory := ShootMR(st, n), SeedMR(st, n), Inventory(st, n);
    var rotation, hibernated := RotationIn(st, n), HibernatedIn(st, n);
    match e
    case ListShoot(k) => PutShootMROwn(st, n, shoot, inventory + {k});
    case ObserveShoot =>
      if shoot.Some? {
        PutShootMROwn(st, n, Some(shoot.value.(observed := shoot.value.generation)), inventory);
      }
    case RemoveShoot(k) => PutShootMROwn(st, n, shoot, inventory - {k});
    case ReleaseShoot => PutShootMROwn(st, n, None, {});
    case ApplySeed =>
      if seed.Some? {
        PutOwn(st, n, DeploymentId(n), DeploymentBody(seed.value.payload));
      }
    case ObserveSeed =>
      if seed.Some? {
        PutSeedMROwn(st, n, Some(seed.value.(observed := seed.value.generation)));
      }
    case RemoveSeed => PutOwn(st, n, DeploymentId(n), SecretBody(""));
    case ReleaseSeed => PutSeedMROwn(st, n, None);
    case StartRotation => PutClusterOwn(st, n, Rotation(rotation.ca + 1, false), hibernated);
    case CompleteRotation => PutClusterOwn(st, n, rotation.(dropOld := true), hibernated);
    case SetHibernation(on) => PutClusterOwn(st, n, rotation, on);
    case _ =>
  }

  /** What is done within one namespace does not reach another. */
  lemma OthersKept(st: Objects, st': Objects, n: string, m: string)
    requires Others(st', n) == Others(st, n) && m != n
    ensures Mine(st', m) == Mine(st, m)
  {
    assert forall k :: Owned(k, m) ==> !Owned(k, n);
    assert forall k :: k in st && Owned(k, m) ==> k in Others(st, n);
    assert forall k :: k in st' && Owned(k, m) ==> k in Others(st', n);
    assert forall k :: k in st && Owned(k, m) ==> k in st' && st'[k] == st[k];
  }
}
