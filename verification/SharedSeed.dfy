/** The part of the shared map that belongs to one shoot, as a state of the protocol; what the calls on the
    shared map do to it is what the protocol says. */
module SharedSeed {
  import opened Wrappers
  import opened Cluster
  import opened Protocol
  import opened Store
  import Convergence
  import Rendering

  /** What of one shoot is not in the seed's API server: the shoot itself, the clock of its certificate,
      and the worker's variables with what was asked for so far. */
  datatype Side = Side(
    catalog: set<Key>, live: map<Key, ShootPayload>, customs: set<CustomResource>, serial: nat,
    mode: Mode, run: Option<Run>, confirmed: Option<nat>, lastOk: Option<Op>)

  function WorldAt(st: Objects, n: string, d: Side): World {
    World(d.catalog, ShootMR(st, n), Inventory(st, n), SeedMR(st, n), d.live, d.customs,
          DeploymentIn(st, n), SecretsIn(st, n), RotationIn(st, n), d.serial, HibernatedIn(st, n))
  }

  function StateAt(st: Objects, n: string, d: Side): State {
    State(WorldAt(st, n, d), d.mode, d.run, d.confirmed, d.lastOk)
  }

  /** The Cluster resource is there, and the label of the secrets manager is on the secrets that it named,
      and on no others. */
  predicate Formed(st: Objects, n: string) {
    HasCluster(st, n) &&
    forall k :: k in st && k.sort.SecretSort? && k.namespace == n ==>
      && st[k].SecretBody?
      && (st[k].manager == IDENTITY <==> k.name.Hashed?)
      && (k.name.Hashed? ==> Managed(k.name.content))
  }

  lemma FormedIsOwn(st: Objects, n: string)
    ensures Formed(Mine(st, n), n) <==> Formed(st, n)
  {
    ReadsOwn(st, n);
    var own := Mine(st, n);
    assert forall k: Id :: k.sort.SecretSort? && k.namespace == n ==>
      (k in own <==> k in st) && (k in st ==> own[k] == st[k]);
  }

  /** The whole state of a shoot is read from keys of its namespace. */
  lemma StateIsOwn(st: Objects, n: string, d: Side)
    ensures StateAt(Mine(st, n), n, d) == StateAt(st, n, d)
  {
    ReadsOwn(st, n);
  }

  // ---- the secrets of a namespace under single writes ----

  lemma ListedAll(st: Objects, n: string, x: Secret)
    requires Formed(st, n)
    ensures x in Listed(st, n) <==> x in SecretsIn(st, n) && Managed(x)
  {
    if x in SecretsIn(st, n) && Managed(x) {
      var k :| k in st && k.sort.SecretSort? && k.namespace == n && Meaning(k.name) == x;
      assert st[k] == SecretBody(IDENTITY);
    }
  }

  lemma SecretAdded(st: Objects, n: string, k: Id, b: Body)
    requires k.sort.SecretSort? && k.namespace == n
    ensures SecretsIn(st[k := b], n) == SecretsIn(st, n) + {Meaning(k.name)}
  {
    var st' := st[k := b];
    forall x | x in SecretsIn(st, n) ensures x in SecretsIn(st', n) {
      var j :| j in st && j.sort.SecretSort? && j.namespace == n && Meaning(j.name) == x;
      assert j in st';
    }
    assert k in st';
  }

  lemma SecretRemoved(st: Objects, n: string, k: Id)
    requires Formed(st, n) && k.sort.SecretSort? && k.namespace == n
    requires k.name.Hashed? ==> Managed(k.name.content)
    ensures SecretsIn(st - {k}, n) == SecretsIn(st, n) - {Meaning(k.name)}
  {
    var st' := st - {k};
    forall x | x in SecretsIn(st, n) && x != Meaning(k.name) ensures x in SecretsIn(st', n) {
      var j :| j in st && j.sort.SecretSort? && j.namespace == n && Meaning(j.name) == x;
      assert j in st';
    }
    assert forall j :: j in st' && j.sort.SecretSort? && j.namespace == n ==> Meaning(j.name) != Meaning(k.name);
  }

  lemma SecretsUntouched(st: Objects, st': Objects, n: string)
    requires forall k: Id :: k.sort.SecretSort? ==> (k in st <==> k in st') && (k in st ==> st[k] == st'[k])
    ensures SecretsIn(st', n) == SecretsIn(st, n)
    ensures Formed(st, n) && HasCluster(st', n) ==> Formed(st', n)
  {
    forall x ensures x in SecretsIn(st, n) <==> x in SecretsIn(st', n) {
      if x in SecretsIn(st, n) {
        var j :| j in st && j.sort.SecretSort? && j.namespace == n && Meaning(j.name) == x;
        assert j in st';
      }
      if x in SecretsIn(st', n) {
        var j :| j in st' && j.sort.SecretSort? && j.namespace == n && Meaning(j.name) == x;
        assert j in st;
      }
    }
  }

  /** The bundle made of the listed secrets is the one made of all. */
  lemma ListedBundle(st: Objects, n: string, rotation: Rotation)
    requires Formed(st, n)
    ensures BundleFor(Listed(st, n), rotation) == BundleFor(SecretsIn(st, n), rotation)
  {
    forall h: nat | h < rotation.ca ensures CaKey(h) in Listed(st, n) <==> CaKey(h) in SecretsIn(st, n) {
      ListedAll(st, n, CaKey(h));
    }
    Convergence.NewestOlderFrame(Listed(st, n), SecretsIn(st, n), rotation.ca);
  }

  lemma NamesDiffer()
    ensures SHOOT_MR != SEED_MR && Rendering.OPERATOR_ACCESS != Rendering.RUNNER_ACCESS
  {
    assert |SHOOT_MR| == 20 && |SEED_MR| == 19;
    assert |Rendering.OPERATOR_ACCESS| == 26 && |Rendering.RUNNER_ACCESS| == 24;
  }

  // ---- refinement ----

  lemma SecretCallRefines(st: Objects, n: string, d: Side, k: Id, b: Body)
    requires Formed(st, n) && k.sort.SecretSort? && k.namespace == n
    requires k.name.Hashed? ==> Managed(k.name.content)
    requires b == SecretBody(if k.name.Hashed? then IDENTITY else "")
    ensures WorldAt(st[k := b], n, d) == WorldAt(st, n, d).Add(Meaning(k.name)) && Formed(st[k := b], n)
    ensures WorldAt(st - {k}, n, d) == WorldAt(st, n, d).Remove(Meaning(k.name)) && Formed(st - {k}, n)
  {
    SecretAdded(st, n, k, b);
    SecretRemoved(st, n, k);
  }

  lemma ShootMRRefines(st: Objects, n: string, d: Side, m: Option<ManagedResource<ShootPayload>>, inventory: set<Key>)
    requires Formed(st, n) && (m.None? ==> inventory == {})
    ensures var st' := PutShootMR(st, n, m, inventory);
            WorldAt(st', n, d) == WorldAt(st, n, d).(shootMR := m, inventory := inventory) && Formed(st', n)
  {
    NamesDiffer();
    SecretsUntouched(st, PutShootMR(st, n, m, inventory), n);
  }

  lemma SeedMRRefines(st: Objects, n: string, d: Side, m: Option<ManagedResource<SeedPayload>>)
    requires Formed(st, n)
    ensures var st' := PutSeedMR(st, n, m);
            WorldAt(st', n, d) == WorldAt(st, n, d).(seedMR := m) && Formed(st', n)
  {
    NamesDiffer();
    SecretsUntouched(st, PutSeedMR(st, n, m), n);
  }

  lemma ClusterRefines(st: Objects, n: string, d: Side, rotation: Rotation, hibernated: bool)
    requires Formed(st, n)
    ensures var st' := st[ClusterId(n) := ClusterBody(rotation, hibernated)];
            WorldAt(st', n, d) == WorldAt(st, n, d).(rotation := rotation, hibernated := hibernated) && Formed(st', n)
  {
    SecretsUntouched(st, st[ClusterId(n) := ClusterBody(rotation, hibernated)], n);
  }

  lemma DeploymentRefines(st: Objects, n: string, d: Side, p: SeedPayload)
    requires Formed(st, n)
    ensures var st' := st[DeploymentId(n) := DeploymentBody(p)];
            WorldAt(st', n, d) == WorldAt(st, n, d).(deployment := Some(p)) && Formed(st', n)
    ensures var st' := st - {DeploymentId(n)};
            WorldAt(st', n, d) == WorldAt(st, n, d).(deployment := None) && Formed(st', n)
  {
    SecretsUntouched(st, st[DeploymentId(n) := DeploymentBody(p)], n);
    SecretsUntouched(st, st - {DeploymentId(n)}, n);
  }

  /** A call on the shared map does to the shoot of its namespace what the protocol says. */
  lemma CallRefines(st: Objects, n: string, d: Side, r: Run)
    requires Formed(st, n)
    ensures WorldAt(Call(st, n, r, d.serial), n, d) == Effect(WorldAt(st, n, d), r)
    ensures CallLocals(st, n, r, d.serial) == Locals(WorldAt(st, n, d), r)
    ensures Formed(Call(st, n, r, d.serial), n)
  {
    NamesDiffer();
    match r.pc
    case WriteOperatorAccess => SecretCallRefines(st, n, d, AccessId(n, Rendering.OPERATOR_ACCESS), SecretBody(""));
    case WriteRunnerAccess => SecretCallRefines(st, n, d, AccessId(n, Rendering.RUNNER_ACCESS), SecretBody(""));
    case IssueCa => SecretCallRefines(st, n, d, ManagedId(n, CaKey(r.rotation.ca)), SecretBody(IDENTITY));
    case IssueBundle =>
      ListedBundle(st, n, r.rotation);
      SecretCallRefines(st, n, d, ManagedId(n, CaBundle(BundleFor(Listed(st, n), r.rotation))), SecretBody(IDENTITY));
    case IssueCert =>
      SecretCallRefines(st, n, d, ManagedId(n, ServerCert(r.rotation.ca, d.serial)), SecretBody(IDENTITY));
    case WriteShoot => ShootMRRefines(st, n, d, Some(Written(ShootMR(st, n), r.Shoot())), Inventory(st, n));
    case WriteSeed => SeedMRRefines(st, n, d, Some(Written(SeedMR(st, n), r.Seed())));
    case KeepShoot => ShootMRRefines(st, n, d, Kept(ShootMR(st, n)), Inventory(st, n));
    case DropShoot => ShootMRRefines(st, n, d, Marked(ShootMR(st, n)), Inventory(st, n));
    case DropSeed => SeedMRRefines(st, n, d, Marked(SeedMR(st, n)));
    case DropOperatorAccess => SecretCallRefines(st, n, d, AccessId(n, Rendering.OPERATOR_ACCESS), SecretBody(""));
    case DropRunnerAccess => SecretCallRefines(st, n, d, AccessId(n, Rendering.RUNNER_ACCESS), SecretBody(""));
    case _ =>
  }

  /** The shoot's own side of a step of its surroundings. */
  function SideAfter(st: Objects, n: string, d: Side, e: EnvStep): Side {
    var w := EnvEffect(WorldAt(st, n, d), e);
    d.(live := w.live, customs := w.customs, serial := w.serial, mode := if e.Handover? then Active else d.mode)
  }

  lemma HandoverRefines(st: Objects, n: string, d: Side)
    requires Formed(st, n)
    ensures var st' := Surroundings(st, n, Handover);
            WorldAt(st', n, d) == EnvEffect(WorldAt(st, n, d), Handover) && Formed(st', n)
  {
    var st' := Surroundings(st, n, Handover);
    assert SecretsIn(st', n) == set x | x in SecretsIn(st, n) && (x.CaKey? || x.Foreign?) by {
      forall x | x in SecretsIn(st, n) && (x.CaKey? || x.Foreign?) ensures x in SecretsIn(st', n) {
        var j :| j in st && j.sort.SecretSort? && j.namespace == n && Meaning(j.name) == x;
        assert j in st';
      }
    }
  }

  /** Steps of the resource manager on the shoot MR. */
  lemma ShootStepsRefine(st: Objects, n: string, d: Side, e: EnvStep)
    requires Formed(st, n) && EnvEnabled(StateAt(st, n, d), e)
    requires e.ListShoot? || e.ObserveShoot? || e.RemoveShoot? || e.ReleaseShoot?
    ensures StateAt(Surroundings(st, n, e), n, SideAfter(st, n, d, e)) == Next(StateAt(st, n, d), Env(e))
    ensures Formed(Surroundings(st, n, e), n)
  {
    var d' := SideAfter(st, n, d, e);
    var shoot, inventory := ShootMR(st, n), Inventory(st, n);
    match e
    case ListShoot(k) => ShootMRRefines(st, n, d', shoot, inventory + {k});
    case ObserveShoot => ShootMRRefines(st, n, d', Some(shoot.value.(observed := shoot.value.generation)), inventory);
    case RemoveShoot(k) => ShootMRRefines(st, n, d', shoot, inventory - {k});
    case ReleaseShoot => ShootMRRefines(st, n, d', None, {});
  }

  /** Steps of the resource manager on the seed MR. */
  lemma SeedStepsRefine(st: Objects, n: string, d: Side, e: EnvStep)
    requires Formed(st, n) && EnvEnabled(StateAt(st, n, d), e)
    requires e.ApplySeed? || e.ObserveSeed? || e.RemoveSeed? || e.ReleaseSeed?
    ensures StateAt(Surroundings(st, n, e), n, SideAfter(st, n, d, e)) == Next(StateAt(st, n, d), Env(e))
    ensures Formed(Surroundings(st, n, e), n)
  {
    var d' := SideAfter(st, n, d, e);
    var seed := SeedMR(st, n);
    match e
    case ApplySeed => DeploymentRefines(st, n, d', seed.value.payload);
    case ObserveSeed => SeedMRRefines(st, n, d', Some(seed.value.(observed := seed.value.generation)));
    case RemoveSeed => DeploymentRefines(st, n, d', seed.value.payload);
    case ReleaseSeed => SeedMRRefines(st, n, d', None);
  }

  /** Steps of the gardenlet. */
  lemma GardenletStepsRefine(st: Objects, n: string, d: Side, e: EnvStep)
    requires Formed(st, n) && EnvEnabled(StateAt(st, n, d), e)
    requires e.StartRotation? || e.CompleteRotation? || e.SetHibernation? || e.Handover?
    ensures StateAt(Surroundings(st, n, e), n, SideAfter(st, n, d, e)) == Next(StateAt(st, n, d), Env(e))
    ensures Formed(Surroundings(st, n, e), n)
  {
    var d', rotation, hibernated := SideAfter(st, n, d, e), RotationIn(st, n), HibernatedIn(st, n);
    match e
    case StartRotation => ClusterRefines(st, n, d', Rotation(rotation.ca + 1, false), hibernated);
    case CompleteRotation => ClusterRefines(st, n, d', rotation.(dropOld := true), hibernated);
    case SetHibernation(on) => ClusterRefines(st, n, d', rotation, on);
    case Handover => HandoverRefines(st, n, d');
  }

  /** A step of the surroundings of a shoot does to it what the protocol says. */
  lemma SurroundingsRefine(st: Objects, n: string, d: Side, e: EnvStep)
    requires Formed(st, n) && EnvEnabled(StateAt(st, n, d), e)
    ensures StateAt(Surroundings(st, n, e), n, SideAfter(st, n, d, e)) == Next(StateAt(st, n, d), Env(e))
    ensures Formed(Surroundings(st, n, e), n)
  {
    if e.ListShoot? || e.ObserveShoot? || e.RemoveShoot? || e.ReleaseShoot? {
      ShootStepsRefine(st, n, d, e);
    } else if e.ApplySeed? || e.ObserveSeed? || e.RemoveSeed? || e.ReleaseSeed? {
      SeedStepsRefine(st, n, d, e);
    } else if e.StartRotation? || e.CompleteRotation? || e.SetHibernation? || e.Handover? {
      GardenletStepsRefine(st, n, d, e);
    }
  }
}
