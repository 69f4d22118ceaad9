/** What every step of the protocol keeps. */
module Invariant {
  import opened Wrappers
  import opened Cluster
  import opened Protocol

  /** How far an operation has come. The install and the removal sequences meet at `Sweep`. */
  function Rank(pc: Pc): nat {
    match pc
    case GetCluster => 0
    case WriteOperatorAccess => 1
    case WriteRunnerAccess => 2
    case IssueCa => 3
    case IssueBundle => 4
    case IssueCert => 5
    case WriteShoot => 6
    case WriteSeed => 7
    case AwaitSeed => 8
    case AwaitShoot => 9
    case KeepShoot => 1
    case DropShoot => 2
    case AwaitShootGone => 3
    case DropSeed => 4
    case AwaitSeedGone => 5
    case DropOperatorAccess => 6
    case DropRunnerAccess => 7
    case Sweep => 10
    case Done => 11
  }

  predicate Removes(pc: Pc) {
    match pc
    case KeepShoot => true
    case DropShoot => true
    case AwaitShootGone => true
    case DropSeed => true
    case AwaitSeedGone => true
    case DropOperatorAccess => true
    case DropRunnerAccess => true
    case _ => false
  }

  /** The calls that occur in the operation. */
  predicate InProgram(op: Op, pc: Pc) {
    match pc
    case GetCluster => true
    case Sweep => op != Migrate
    case Done => op == Migrate
    case KeepShoot => op == Migrate
    case AwaitShootGone => !op.Installs() && op != ForceDelete
    case AwaitSeedGone => !op.Installs() && op != ForceDelete
    case _ => if Removes(pc) then !op.Installs() else op.Installs()
  }

  /** Objects in the shoot and in the seed agree with the ManagedResources that carry them. */
  predicate Objects(w: World) {
    && w.live.Keys <= w.catalog
    && w.inventory <= w.live.Keys
    && (w.shootMR.None? ==> w.inventory == {})
    && (forall c :: c in w.customs ==> c.definition in w.live)
    && (w.shootMR.Some? ==>
          && w.shootMR.value.observed <= w.shootMR.value.generation
          && (w.shootMR.value.Healthy() ==>
                && w.inventory == w.catalog
                && forall k :: k in w.catalog ==> k in w.live && w.live[k] == w.shootMR.value.payload))
    && (w.seedMR.Some? ==>
          && !w.seedMR.value.keep
          && w.seedMR.value.observed <= w.seedMR.value.generation
          && (w.seedMR.value.Healthy() ==> w.deployment == Some(w.seedMR.value.payload)))
  }

  /** Which deletions can be under way in which mode; outside `Forced` the seed MR goes after the shoot MR. */
  predicate Phases(s: State) {
    var w := s.world;
    && (s.run.Some? ==> InProgram(s.run.value.op, s.run.value.pc) && s.mode == ModeOf(s.run.value.op))
    && (s.mode.Absent? || s.mode.Migrated? ==> w.shootMR.None? && w.seedMR.None?)
    && (s.mode.Active? ==>
          && (w.shootMR.Some? ==> !w.shootMR.value.deleting)
          && (w.seedMR.Some? ==> !w.seedMR.value.deleting))
    && (s.mode.Migrating? && w.shootMR.Some? && w.shootMR.value.deleting ==> w.shootMR.value.keep)
    && (!s.mode.Forced? && w.seedMR.Some? && w.seedMR.value.deleting ==> w.shootMR.None?)
    && (!s.mode.Forced? && w.seedMR.None? ==> w.deployment.None?)
  }

  /** What a removal in flight has already achieved. */
  predicate Removal(s: State) {
    s.run.Some? && !s.run.value.op.Installs() ==>
      var w, op, n := s.world, s.run.value.op, Rank(s.run.value.pc);
      && (op == Migrate && n >= 2 && w.shootMR.Some? ==> w.shootMR.value.keep)
      && (n >= 3 && w.shootMR.Some? ==> w.shootMR.value.deleting)
      && (op != ForceDelete && n >= 4 ==> w.shootMR.None?)
      && (n >= 5 && w.seedMR.Some? ==> w.seedMR.value.deleting)
      && (op != ForceDelete && n >= 6 ==> w.seedMR.None?)
      && (n >= 7 ==> OperatorAccess !in w.secrets)
      && (n >= 10 ==> RunnerAccess !in w.secrets)
  }

  /** Besides the current CA a bundle holds at most one older one, and none that is to be dropped. */
  predicate Pruned(rotation: Rotation, bundle: set<nat>) {
    && rotation.ca in bundle
    && (forall g :: g in bundle ==> g <= rotation.ca)
    && (rotation.dropOld ==> bundle == {rotation.ca})
    && (forall g, h :: g in bundle && h in bundle && g < rotation.ca && h < rotation.ca ==> g == h)
  }

  /** What an installation in flight has already achieved. */
  predicate Installation(s: State) {
    s.run.Some? && s.run.value.op.Installs() ==>
      var w, r, n := s.world, s.run.value, Rank(s.run.value.pc);
      && (n >= 2 ==> OperatorAccess in w.secrets)
      && (n >= 3 ==> RunnerAccess in w.secrets)
      && (n >= 4 ==> CaKey(r.rotation.ca) in w.secrets)
      && (n >= 5 ==>
            && Pruned(r.rotation, r.bundle)
            && CaBundle(r.bundle) in w.secrets
            && forall g :: g in r.bundle ==> CaKey(g) in w.secrets)
      && (n >= 6 ==> ServerCert(r.rotation.ca, r.serial) in w.secrets)
      && (n >= 7 ==> w.shootMR.Some? && w.shootMR.value.payload == r.Shoot() && !w.shootMR.value.keep)
      && (n >= 8 ==> w.seedMR.Some? && w.seedMR.value.payload == r.Seed())
      && (n >= 9 ==> w.seedMR.value.Healthy())
      && (n >= 10 ==> w.shootMR.value.Healthy())
  }

  /** The CA with which a certificate in use is signed: the current one, or the one before it as long
      as it is kept and no installation has succeeded with the current one. */
  predicate Usable(s: State, g: nat) {
    var ca := s.world.rotation.ca;
    CaKey(g) in s.world.secrets &&
    (g == ca || (g + 1 == ca && !s.world.rotation.dropOld && s.confirmed != Some(ca)))
  }

  /** The certificates of the seed MR and of the live Deployment. */
  predicate Signers(s: State) {
    !s.mode.Forced? ==>
      && (s.world.seedMR.Some? ==> Usable(s, s.world.seedMR.value.payload.signer))
      && (s.world.deployment.Some? ==> Usable(s, s.world.deployment.value.signer))
  }

  /** No bundle knows a CA of the future. */
  predicate Bundles(s: State) {
    var w := s.world;
    && (s.confirmed.Some? ==> s.confirmed.value <= w.rotation.ca)
    && (w.shootMR.Some? ==> forall g :: g in w.shootMR.value.payload.bundle ==> g <= w.rotation.ca)
  }

  /** A run in flight may lag behind the rotation by one; its bundle knows the certificates in use. */
  predicate Lag(s: State) {
    s.run.Some? && s.run.value.op.Installs() && Rank(s.run.value.pc) >= 1 ==>
      var w, r := s.world, s.run.value;
      && ((r.rotation.ca == w.rotation.ca && (r.rotation.dropOld ==> w.rotation.dropOld)) ||
          (r.rotation.ca + 1 == w.rotation.ca && !w.rotation.dropOld && s.confirmed != Some(w.rotation.ca)))
      && (w.seedMR.Some? ==> w.seedMR.value.payload.signer <= r.rotation.ca)
      && (w.deployment.Some? ==> w.deployment.value.signer <= r.rotation.ca)
      && (Rank(r.pc) >= 5 ==>
            && (w.seedMR.Some? ==> w.seedMR.value.payload.signer in r.bundle)
            && (w.deployment.Some? ==> w.deployment.value.signer in r.bundle))
  }

  predicate Signer(s: State) {
    Signers(s) && Bundles(s) && Lag(s)
  }

  /** The server certificates in use, stored and live, are signed by a CA of the stored bundle. */
  predicate Trusted(w: World) {
    w.shootMR.Some? ==>
      var bundle := w.shootMR.value.payload.bundle;
      && (w.seedMR.Some? ==> w.seedMR.value.payload.signer in bundle)
      && (w.deployment.Some? ==> w.deployment.value.signer in bundle)
  }

  /** The operator's pods mount its access secret and the server certificate; its configuration names
      the access secret of the runner. */
  predicate Mounted(w: World, p: SeedPayload) {
    OperatorAccess in w.secrets && RunnerAccess in w.secrets && ServerCert(p.signer, p.serial) in w.secrets
  }

  /** Secrets that the live Deployment needs exist, and so do those that the stored one would need. */
  predicate Mounts(s: State) {
    !s.mode.Forced? ==>
      && (s.world.deployment.Some? ==> Mounted(s.world, s.world.deployment.value))
      && (s.world.seedMR.Some? ==> Mounted(s.world, s.world.seedMR.value.payload))
  }

  /** After a successful installation the shoot MR lists every object that is in the shoot or that it may
      still bring there, and is not to keep them. */
  predicate Owned(s: State) {
    s.lastOk.Some? && s.lastOk.value.Installs() ==>
      && !s.mode.Absent? && !s.mode.Migrated?
      && (s.mode.Active? ==> s.world.shootMR.Some?)
      && (s.mode.Active? || s.mode.Deleting? ==>
            && s.world.live.Keys <= s.world.inventory
            && (s.world.shootMR.Some? ==>
                  && !s.world.shootMR.value.keep
                  && (s.world.shootMR.value.deleting || s.world.catalog <= s.world.inventory)))
  }

  predicate Inv(s: State) {
    Objects(s.world) && Phases(s) && Removal(s) && Installation(s) &&
    Signer(s) && Trusted(s.world) && Mounts(s) && Owned(s)
  }

  lemma NewestOlderStored(secrets: set<Secret>, g: nat)
    ensures NewestOlder(secrets, g).Some? ==>
              NewestOlder(secrets, g).value < g && CaKey(NewestOlder(secrets, g).value) in secrets
  {
  }

  lemma InitialInv(s: State)
    requires Initial(s)
    ensures Inv(s)
  {
  }

  lemma EnvKeepsObjects(s: State, e: EnvStep)
    requires Inv(s) && EnvEnabled(s, e)
    ensures Objects(EnvEffect(s.world, e))
  {
  }

  lemma EnvKeepsPhases(s: State, e: EnvStep)
    requires Inv(s) && EnvEnabled(s, e)
    ensures Phases(Next(s, Env(e))) && Owned(Next(s, Env(e)))
  {
  }

  lemma EnvKeepsRun(s: State, e: EnvStep)
    requires Inv(s) && EnvEnabled(s, e)
    ensures Removal(Next(s, Env(e))) && Installation(Next(s, Env(e)))
  {
  }

  lemma EnvKeepsSigners(s: State, e: EnvStep)
    requires Inv(s) && EnvEnabled(s, e)
    ensures Signers(Next(s, Env(e)))
  {
  }

  lemma EnvKeepsLag(s: State, e: EnvStep)
    requires Inv(s) && EnvEnabled(s, e)
    ensures Bundles(Next(s, Env(e))) && Lag(Next(s, Env(e)))
  {
  }

  lemma EnvKeepsTrusted(s: State, e: EnvStep)
    requires Inv(s) && EnvEnabled(s, e)
    ensures Trusted(EnvEffect(s.world, e))
  {
  }

  lemma EnvKeepsMounts(s: State, e: EnvStep)
    requires Inv(s) && EnvEnabled(s, e)
    ensures Mounts(Next(s, Env(e)))
  {
  }

  lemma EnvKeepsInv(s: State, e: EnvStep)
    requires Inv(s) && EnvEnabled(s, e)
    ensures Inv(Next(s, Env(e)))
  {
    EnvKeepsObjects(s, e);
    EnvKeepsPhases(s, e);
    EnvKeepsRun(s, e);
    EnvKeepsSigners(s, e);
    EnvKeepsLag(s, e);
    EnvKeepsTrusted(s, e);
    EnvKeepsMounts(s, e);
  }

  lemma BeginKeepsInv(s: State, op: Op)
    requires Inv(s) && Enabled(s, Begin(op))
    ensures Inv(Next(s, Begin(op)))
  {
  }

  /** The call `pc` is due and can be made. */
  predicate Due(s: State, pc: Pc) {
    Inv(s) && Enabled(s, Advance) && s.run.value.pc == pc
  }

  lemma GetClusterKeepsInv(s: State)
    requires Due(s, GetCluster)
    ensures Inv(Next(s, Advance))
  {
  }

  lemma AccessKeepsInv(s: State)
    requires Due(s, WriteOperatorAccess) || Due(s, WriteRunnerAccess)
    ensures Inv(Next(s, Advance))
  {
  }

  lemma IssueCaKeepsInv(s: State)
    requires Due(s, IssueCa)
    ensures Inv(Next(s, Advance))
  {
  }

  lemma IssueCertKeepsInv(s: State)
    requires Due(s, IssueCert)
    ensures Inv(Next(s, Advance))
  {
  }

  /** Certificates in use stay trusted: their signer is the current CA, or the one kept as old. */
  lemma BundleHoldsSigner(s: State, g: nat)
    requires Due(s, IssueBundle) && Usable(s, g) && g <= s.run.value.rotation.ca
    ensures g in BundleFor(s.world.secrets, s.run.value.rotation)
  {
  }

  lemma IssueBundleKeepsRun(s: State)
    requires Due(s, IssueBundle)
    ensures Installation(Next(s, Advance))
  {
    NewestOlderStored(s.world.secrets, s.run.value.rotation.ca);
  }

  lemma IssueBundleKeepsLag(s: State)
    requires Due(s, IssueBundle)
    ensures Lag(Next(s, Advance))
  {
    NewestOlderStored(s.world.secrets, s.run.value.rotation.ca);
    if s.world.seedMR.Some? {
      BundleHoldsSigner(s, s.world.seedMR.value.payload.signer);
    }
    if s.world.deployment.Some? {
      BundleHoldsSigner(s, s.world.deployment.value.signer);
    }
  }

  lemma IssueBundleKeepsInv(s: State)
    requires Due(s, IssueBundle)
    ensures Inv(Next(s, Advance))
  {
    IssueBundleKeepsRun(s);
    IssueBundleKeepsLag(s);
  }

  lemma WriteShootKeepsInv(s: State)
    requires Due(s, WriteShoot)
    ensures Inv(Next(s, Advance))
  {
  }

  lemma WriteSeedKeepsInv(s: State)
    requires Due(s, WriteSeed)
    ensures Inv(Next(s, Advance))
  {
  }

  lemma AwaitHealthyKeepsInv(s: State)
    requires Due(s, AwaitSeed) || Due(s, AwaitShoot)
    ensures Inv(Next(s, Advance))
  {
  }

  lemma AwaitGoneKeepsInv(s: State)
    requires Due(s, AwaitShootGone) || Due(s, AwaitSeedGone)
    ensures Inv(Next(s, Advance))
  {
  }

  lemma KeepKeepsInv(s: State)
    requires Due(s, KeepShoot)
    ensures Inv(Next(s, Advance))
  {
  }

  lemma DropShootKeepsInv(s: State)
    requires Due(s, DropShoot)
    ensures Inv(Next(s, Advance))
  {
  }

  lemma DropSeedKeepsInv(s: State)
    requires Due(s, DropSeed)
    ensures Inv(Next(s, Advance))
  {
  }

  lemma DropOperatorAccessKeepsInv(s: State)
    requires Due(s, DropOperatorAccess)
    ensures Inv(Next(s, Advance))
  {
  }

  lemma DropRunnerAccessKeepsInv(s: State)
    requires Due(s, DropRunnerAccess)
    ensures Inv(Next(s, Advance))
  {
  }

  lemma AdvanceKeepsInv(s: State, pc: Pc)
    requires Due(s, pc)
    ensures Inv(Next(s, Advance))
  {
    match pc
    case GetCluster => GetClusterKeepsInv(s);
    case WriteOperatorAccess => AccessKeepsInv(s);
    case WriteRunnerAccess => AccessKeepsInv(s);
    case IssueCa => IssueCaKeepsInv(s);
    case IssueBundle => IssueBundleKeepsInv(s);
    case IssueCert => IssueCertKeepsInv(s);
    case WriteShoot => WriteShootKeepsInv(s);
    case WriteSeed => WriteSeedKeepsInv(s);
    case KeepShoot => KeepKeepsInv(s);
    case DropShoot => DropShootKeepsInv(s);
    case DropSeed => DropSeedKeepsInv(s);
    case DropOperatorAccess => DropOperatorAccessKeepsInv(s);
    case DropRunnerAccess => DropRunnerAccessKeepsInv(s);
    case AwaitShootGone => AwaitGoneKeepsInv(s);
    case AwaitSeedGone => AwaitGoneKeepsInv(s);
    case _ => AwaitHealthyKeepsInv(s);
  }

  lemma SweepKeepsInv(s: State, x: Secret)
    requires Inv(s) && Enabled(s, SweepOne(x))
    ensures Inv(Next(s, SweepOne(x)))
  {
  }

  lemma FinishKeepsInv(s: State)
    requires Inv(s) && Enabled(s, Finish)
    ensures Inv(Next(s, Finish))
  {
  }

  lemma NextKeepsInv(s: State, a: Step)
    requires Inv(s) && Enabled(s, a)
    ensures Inv(Next(s, a))
  {
    match a
    case Begin(op) => BeginKeepsInv(s, op);
    case Advance => AdvanceKeepsInv(s, s.run.value.pc);
    case SweepOne(x) => SweepKeepsInv(s, x);
    case Finish => FinishKeepsInv(s);
    case Abort =>
    case Env(e) => EnvKeepsInv(s, e);
  }

  lemma {:induction false} ExecKeepsInv(s: State, t: seq<Step>)
    requires Inv(s) && Legal(s, t)
    ensures Inv(Exec(s, t))
    decreases |t|
  {
    if t != [] {
      NextKeepsInv(s, t[0]);
      ExecKeepsInv(Next(s, t[0]), t[1..]);
    }
  }
}
