/** Where completed operations end, whatever partial runs came before them. */
module Convergence {
  import opened Wrappers
  import opened Cluster
  import opened Protocol
  import opened Invariant

  /** A ManagedResource without its generation numbers. */
  datatype MRView<P> = MRView(payload: P, deleting: bool, keep: bool, healthy: bool)

  function ViewMR<P>(m: Option<ManagedResource<P>>): Option<MRView<P>> {
    match m
    case None => None
    case Some(v) => Some(MRView(v.payload, v.deleting, v.keep, v.Healthy()))
  }

  /** Everything that belongs to the extension, on the seed and in the shoot. */
  datatype View = View(
    shootMR: Option<MRView<ShootPayload>>,
    seedMR: Option<MRView<SeedPayload>>,
    live: map<Key, ShootPayload>,
    deployment: Option<SeedPayload>,
    secrets: set<Secret>)

  function Own(secrets: set<Secret>): set<Secret> {
    set x | x in secrets && !x.Foreign?
  }

  function Observe(w: World): View {
    View(ViewMR(w.shootMR), ViewMR(w.seedMR), w.live, w.deployment, Own(w.secrets))
  }

  /** The installed extension, from what the Cluster resource asks for, the certificate's renewal
      number and the CA keys stored at the start. */
  function Outcome(w: World): View {
    var bundle := BundleFor(w.secrets, w.rotation);
    var seed := SeedPayload(w.rotation.ca, w.serial, if w.hibernated then 0 else 1);
    View(
      Some(MRView(ShootPayload(bundle), false, false, true)),
      Some(MRView(seed, false, false, true)),
      map k | k in w.catalog :: ShootPayload(bundle),
      Some(seed),
      {OperatorAccess, RunnerAccess, CaBundle(bundle), ServerCert(w.rotation.ca, w.serial)} +
      set g | g in bundle :: CaKey(g))
  }

  /** The step leaves the inputs of Reconcile as they are and starts no removal. */
  predicate Steady(a: Step) {
    match a
    case Begin(op) => op.Installs()
    case Env(e) => !(e.StartRotation? || e.CompleteRotation? || e.RenewCert? || e.SetHibernation? || e.Handover?)
    case _ => true
  }

  /** Seen from the start `w0` of a series of attempts: the inputs are those of the start, and the
      attempt in flight has read them. */
  predicate Attempting(w0: World, s: State) {
    var w := s.world;
    && w.catalog == w0.catalog && w.rotation == w0.rotation
    && w.serial == w0.serial && w.hibernated == w0.hibernated
    && BundleFor(w.secrets, w.rotation) == BundleFor(w0.secrets, w0.rotation)
    && (s.run.Some? ==>
          var r, n := s.run.value, Rank(s.run.value.pc);
          && r.op.Installs()
          && (n >= 1 ==> r.rotation == w0.rotation && r.replicas == if w0.hibernated then 0 else 1)
          && (n >= 5 ==> r.bundle == BundleFor(w0.secrets, w0.rotation))
          && (n >= 6 ==> r.serial == w0.serial))
  }

  lemma {:induction false} NewestOlderFrame(a: set<Secret>, b: set<Secret>, g: nat)
    requires forall h: nat :: h < g ==> (CaKey(h) in a <==> CaKey(h) in b)
    ensures NewestOlder(a, g) == NewestOlder(b, g)
  {
    if g > 0 && CaKey(g - 1) !in a {
      NewestOlderFrame(a, b, g - 1);
    }
  }

  /** Removing a key other than the newest older one does not change which that is. */
  lemma {:induction false} NewestOlderSweep(a: set<Secret>, x: Secret, g: nat)
    requires NewestOlder(a, g).Some? ==> x != CaKey(NewestOlder(a, g).value)
    ensures NewestOlder(a - {x}, g) == NewestOlder(a, g)
  {
    if g > 0 {
      if CaKey(g - 1) !in a {
        NewestOlderSweep(a, x, g - 1);
      }
    }
  }

  lemma CallKeepsOtherKeys(w: World, r: Run, h: nat)
    requires h != r.rotation.ca
    ensures CaKey(h) in Effect(w, r).secrets <==> CaKey(h) in w.secrets
  {
  }

  lemma CallKeepsBundle(w: World, r: Run)
    requires r.pc.GetCluster? || r.rotation == w.rotation
    ensures BundleFor(Effect(w, r).secrets, w.rotation) == BundleFor(w.secrets, w.rotation)
  {
    if !r.pc.GetCluster? {
      forall h: nat | h < w.rotation.ca
        ensures CaKey(h) in w.secrets <==> CaKey(h) in Effect(w, r).secrets
      {
        CallKeepsOtherKeys(w, r, h);
      }
      NewestOlderFrame(w.secrets, Effect(w, r).secrets, w.rotation.ca);
    }
  }

  lemma CallKeepsInputs(w: World, r: Run)
    ensures var w' := Effect(w, r);
            w'.catalog == w.catalog && w'.rotation == w.rotation && w'.serial == w.serial && w'.hibernated == w.hibernated
  {
  }

  lemma AdvanceKeepsAttempting(w0: World, s: State)
    requires Attempting(w0, s) && Enabled(s, Advance) && InProgram(s.run.value.op, s.run.value.pc)
    ensures Attempting(w0, Next(s, Advance))
  {
    CallKeepsBundle(s.world, s.run.value);
    CallKeepsInputs(s.world, s.run.value);
  }

  lemma SweepKeepsAttempting(w0: World, s: State, x: Secret)
    requires Attempting(w0, s) && Enabled(s, SweepOne(x))
    ensures Attempting(w0, Next(s, SweepOne(x)))
  {
    if !s.world.rotation.dropOld {
      NewestOlderSweep(s.world.secrets, x, s.world.rotation.ca);
    }
  }

  lemma EnvKeepsAttempting(w0: World, s: State, e: EnvStep)
    requires Attempting(w0, s) && EnvEnabled(s, e) && Steady(Env(e))
    ensures Attempting(w0, Next(s, Env(e)))
  {
  }

  lemma StepKeepsAttempting(w0: World, s: State, a: Step)
    requires Inv(s) && Attempting(w0, s) && Enabled(s, a) && Steady(a)
    ensures Attempting(w0, Next(s, a))
  {
    match a
    case Advance => AdvanceKeepsAttempting(w0, s);
    case SweepOne(x) => SweepKeepsAttempting(w0, s, x);
    case Env(e) => EnvKeepsAttempting(w0, s, e);
    case _ =>
  }

  lemma {:induction false} ExecKeepsAttempting(w0: World, s: State, t: seq<Step>)
    requires Inv(s) && Attempting(w0, s) && Legal(s, t)
    requires forall a :: a in t ==> Steady(a)
    ensures Attempting(w0, Exec(s, t))
    decreases |t|
  {
    if t != [] {
      assert t[0] in t;
      StepKeepsAttempting(w0, s, t[0]);
      NextKeepsInv(s, t[0]);
      ExecKeepsAttempting(w0, Next(s, t[0]), t[1..]);
    }
  }

  /** What a successful installation has brought about. */
  predicate Installed(w: World) {
    && w.shootMR.Some? && w.shootMR.value.Healthy() && !w.shootMR.value.keep
    && w.seedMR.Some? && w.seedMR.value.Healthy()
    && var bundle, seed := w.shootMR.value.payload.bundle, w.seedMR.value.payload;
       && w.deployment == Some(seed) && seed.signer in bundle
       && w.live == (map k | k in w.catalog :: ShootPayload(bundle))
       && Own(w.secrets) == {OperatorAccess, RunnerAccess, CaBundle(bundle), ServerCert(seed.signer, seed.serial)} +
                            set g | g in bundle :: CaKey(g)
  }

  lemma FinishedInstalls(s: State)
    requires Inv(s) && Enabled(s, Finish) && s.run.value.op.Installs()
    ensures Installed(s.world)
  {
    var w, r := s.world, s.run.value;
    forall x | x in w.secrets ensures !Stale(w, r, x) {
    }
  }

  /** An attempt that can finish has reached the outcome. */
  lemma FinishedInstall(w0: World, s: State)
    requires Inv(s) && Attempting(w0, s) && Enabled(s, Finish)
    ensures Observe(Next(s, Finish).world) == Outcome(w0)
  {
    FinishedInstalls(s);
  }

  /** However often Reconcile or Restore was begun, failed or crashed at any call before it completes,
      it ends where one uninterrupted run ends: the outcome is a function of the inputs and of the
      CA keys stored at the start, of which the current and the retained one are left. */
  lemma CrashConvergence(s: State, t: seq<Step>)
    requires Inv(s) && s.run.None? && Legal(s, t) && Enabled(Exec(s, t), Finish)
    requires forall a :: a in t ==> Steady(a)
    ensures var w := Next(Exec(s, t), Finish).world;
            && Observe(w) == Outcome(s.world)
            && forall g: nat :: CaKey(g) in w.secrets <==>
                 g == s.world.rotation.ca || Retained(s.world.secrets, s.world.rotation, g)
  {
    ExecKeepsInv(s, t);
    ExecKeepsAttempting(s.world, s, t);
    FinishedInstall(s.world, Exec(s, t));
    ConvergedTrust(s, t);
  }

  // ---- which CAs are trusted and kept ----

  /** CA `g` is to stay trusted beside the current one: the rotation is not completing, and it is the newest of
      the older CAs whose keys are stored. */
  predicate Retained(secrets: set<Secret>, rotation: Rotation, g: nat) {
    !rotation.dropOld && g < rotation.ca && CaKey(g) in secrets &&
    forall h :: g < h < rotation.ca ==> CaKey(h) !in secrets
  }

  lemma {:induction false} NewestOlderMeans(secrets: set<Secret>, n: nat, g: nat)
    ensures NewestOlder(secrets, n) == Some(g) <==>
              g < n && CaKey(g) in secrets && forall h :: g < h < n ==> CaKey(h) !in secrets
  {
    if n > 0 && CaKey(n - 1) !in secrets {
      NewestOlderMeans(secrets, n - 1, g);
    }
  }

  lemma BundleMeans(secrets: set<Secret>, rotation: Rotation, g: nat)
    ensures g in BundleFor(secrets, rotation) <==> g == rotation.ca || Retained(secrets, rotation, g)
  {
    NewestOlderMeans(secrets, rotation.ca, g);
  }

  /** The stored bundle and those of all live objects are `bundle`, and the CA keys kept are those of its CAs. */
  ghost predicate Trusts(w: World, bundle: set<nat>) {
    && w.shootMR.Some? && w.shootMR.value.payload.bundle == bundle
    && (forall k :: k in w.catalog ==> k in w.live)
    && (forall k :: k in w.live ==> w.live[k].bundle == bundle)
    && (forall g: nat :: CaKey(g) in w.secrets <==> g in bundle)
  }

  /** When an installation can return success, the CA that it read as current is trusted and its key kept;
      if the rotation was completing, no other, else at most one older one. */
  lemma FinishedTrust(s: State)
    requires Inv(s) && Enabled(s, Finish) && s.run.value.op.Installs()
    ensures var rotation, bundle := s.run.value.rotation, s.run.value.bundle;
            && Trusts(s.world, bundle) && rotation.ca in bundle
            && (rotation.dropOld ==> bundle == {rotation.ca})
            && (forall g :: g in bundle ==> g <= rotation.ca)
            && (forall g, h :: g in bundle && h in bundle && g < rotation.ca && h < rotation.ca ==> g == h)
  {
    var w, bundle := s.world, s.run.value.bundle;
    FinishedInstalls(s);
    forall g: nat ensures CaKey(g) in w.secrets <==> g in bundle {
      assert CaKey(g) in w.secrets <==> CaKey(g) in Own(w.secrets);
    }
  }

  /** However often it was attempted before, a completing Reconcile or Restore ends with trust in just the
      current CA and, unless the rotation is completing, in the newest older one whose key was stored at
      the start; all other CA keys are gone. */
  lemma ConvergedTrust(s: State, t: seq<Step>)
    requires Inv(s) && s.run.None? && Legal(s, t) && Enabled(Exec(s, t), Finish)
    requires forall a :: a in t ==> Steady(a)
    ensures var bundle := Exec(s, t).run.value.bundle;
            Trusts(Next(Exec(s, t), Finish).world, bundle) &&
            (forall g :: g in bundle <==> g == s.world.rotation.ca || Retained(s.world.secrets, s.world.rotation, g)) &&
            (s.world.rotation.dropOld ==> bundle == {s.world.rotation.ca})
  {
    ExecKeepsInv(s, t);
    ExecKeepsAttempting(s.world, s, t);
    FinishedTrust(Exec(s, t));
    forall g: nat
      ensures g in Exec(s, t).run.value.bundle <==>
                g == s.world.rotation.ca || Retained(s.world.secrets, s.world.rotation, g)
    {
      BundleMeans(s.world.secrets, s.world.rotation, g);
    }
  }

  // ---- nothing to do ----

  /** The extension is installed as the inputs want it, and so is what the attempt in flight will write. */
  predicate UpToDate(w0: World, s: State) {
    Attempting(w0, s) &&
    s.world.shootMR == w0.shootMR && s.world.seedMR == w0.seedMR &&
    s.world.live == w0.live && s.world.deployment == w0.deployment
  }

  lemma StepKeepsUpToDate(w0: World, s: State, a: Step)
    requires Observe(w0) == Outcome(w0) && Inv(s) && UpToDate(w0, s) && Enabled(s, a) && Steady(a)
    requires s.mode.Active?
    ensures UpToDate(w0, Next(s, a)) && Next(s, a).mode.Active?
  {
    StepKeepsAttempting(w0, s, a);
    if a == Advance {
      CallChangesNothing(w0, s);
    } else if a.Env? {
      EnvChangesNothing(w0, s, a.e);
    }
  }

  lemma CallChangesNothing(w0: World, s: State)
    requires Observe(w0) == Outcome(w0) && Inv(s) && UpToDate(w0, s) && Enabled(s, Advance)
    ensures var w, w' := s.world, Effect(s.world, s.run.value);
            w'.shootMR == w.shootMR && w'.seedMR == w.seedMR && w'.live == w.live && w'.deployment == w.deployment
  {
  }

  lemma EnvChangesNothing(w0: World, s: State, e: EnvStep)
    requires Observe(w0) == Outcome(w0) && Inv(s) && UpToDate(w0, s) && EnvEnabled(s, e) && Steady(Env(e))
    requires s.mode.Active?
    ensures var w, w' := s.world, EnvEffect(s.world, e);
            w'.shootMR == w.shootMR && w'.seedMR == w.seedMR && w'.live == w.live && w'.deployment == w.deployment
  {
  }

  /** Reconciling what is up to date changes nothing at any step: neither ManagedResource gets a new
      generation or is ever unhealthy, and no object is touched. */
  lemma {:induction false} NothingToDo(w0: World, s: State, t: seq<Step>)
    requires Observe(w0) == Outcome(w0) && Inv(s) && UpToDate(w0, s) && s.mode.Active? && Legal(s, t)
    requires forall a :: a in t ==> Steady(a)
    ensures UpToDate(w0, Exec(s, t))
    decreases |t|
  {
    if t != [] {
      assert t[0] in t;
      StepKeepsUpToDate(w0, s, t[0]);
      NextKeepsInv(s, t[0]);
      NothingToDo(w0, Next(s, t[0]), t[1..]);
    }
  }

  /** After a Reconcile or Restore that completed, more of them with the same inputs change nothing. */
  lemma ReconcileIsIdempotent(s: State, t: seq<Step>, u: seq<Step>)
    requires Inv(s) && s.run.None? && Legal(s, t) && Enabled(Exec(s, t), Finish)
    requires Legal(Next(Exec(s, t), Finish), u)
    requires (forall a :: a in t ==> Steady(a)) && (forall a :: a in u ==> Steady(a))
    ensures var s1 := Next(Exec(s, t), Finish);
            var w, w' := s1.world, Exec(s1, u).world;
            w'.shootMR == w.shootMR && w'.seedMR == w.seedMR && w'.live == w.live && w'.deployment == w.deployment
  {
    var s1 := Next(Exec(s, t), Finish);
    ExecKeepsInv(s, t);
    NextKeepsInv(Exec(s, t), Finish);
    ExecKeepsAttempting(s.world, s, t);
    CrashConvergence(s, t);
    SameOutcome(s, t);
    NothingToDo(s1.world, s1, u);
  }

  /** The outcome wanted after a completed installation is the one that was wanted before. */
  lemma SameOutcome(s: State, t: seq<Step>)
    requires Inv(s) && s.run.None? && Legal(s, t) && Enabled(Exec(s, t), Finish)
    requires forall a :: a in t ==> Steady(a)
    ensures Outcome(Next(Exec(s, t), Finish).world) == Outcome(s.world)
  {
    ExecKeepsInv(s, t);
    ExecKeepsAttempting(s.world, s, t);
  }

  /** Objects in the shoot that the deletion of the shoot MR does not remove: all if it is to keep its
      objects, else those that it does not list. */
  function Orphans(w: World): set<Key> {
    if w.shootMR.Some? && w.shootMR.value.keep then w.live.Keys else w.live.Keys - w.inventory
  }

  lemma NoOrphans(w: World)
    ensures Orphans(w) == {} <==>
              w.live == map[] ||
              (w.live.Keys <= w.inventory && (w.shootMR.Some? ==> !w.shootMR.value.keep))
  {
    assert w.live == map[] <==> w.live.Keys == {};
    if Orphans(w) == {} && w.live.Keys != {} {
      forall k | k in w.live.Keys ensures k in w.inventory {
        assert k !in Orphans(w);
      }
    }
  }

  /** A deletion of the shoot MR has been requested, or was not needed. */
  predicate Dropped(s: State) {
    (s.mode.Deleting? || s.mode.Absent?) && (s.world.shootMR.Some? ==> s.world.shootMR.value.deleting)
  }

  lemma DroppedStep(s: State, a: Step)
    requires Inv(s) && Dropped(s) && Enabled(s, a) && (a.Begin? ==> a.op == Delete)
    ensures Dropped(Next(s, a)) && Orphans(Next(s, a).world) == Orphans(s.world)
  {
    match a
    case Env(e) => DroppedEnvStep(s, e);
    case _ =>
  }

  lemma DroppedEnvStep(s: State, e: EnvStep)
    requires Inv(s) && Dropped(s) && EnvEnabled(s, e)
    ensures Dropped(Next(s, Env(e))) && Orphans(EnvEffect(s.world, e)) == Orphans(s.world)
  {
  }

  lemma {:induction false} DroppedRun(s: State, t: seq<Step>)
    requires Inv(s) && Dropped(s) && Legal(s, t)
    requires forall a :: a in t && a.Begin? ==> a.op == Delete
    ensures Dropped(Exec(s, t)) && Orphans(Exec(s, t).world) == Orphans(s.world)
    decreases |t|
  {
    if t != [] {
      assert t[0] in t;
      DroppedStep(s, t[0]);
      NextKeepsInv(s, t[0]);
      DroppedRun(Next(s, t[0]), t[1..]);
    }
  }

  lemma NothingOwn(s: State)
    requires Inv(s) && Enabled(s, Finish) && (s.run.value.op == Delete || s.run.value.op == ForceDelete)
    ensures Own(s.world.secrets) == {}
  {
    var w, r := s.world, s.run.value;
    forall x | x in w.secrets ensures x.Foreign? {
      assert !Stale(w, r, x);
    }
  }

  lemma FinishedDelete(s: State)
    requires Inv(s) && Enabled(s, Finish) && s.run.value.op == Delete
    ensures Observe(s.world) == View(None, None, s.world.live, None, {})
    ensures s.world.inventory == {}
  {
    NothingOwn(s);
  }

  /** A Delete that succeeds, after any number of failed attempts, leaves nothing on the seed, and in
      the shoot exactly the objects that were orphans when its deletion was requested: nothing is left
      behind if and only if the shoot MR listed all objects and was not to keep them, or there were none. */
  lemma DeleteLeavesOrphans(s: State, t: seq<Step>)
    requires Inv(s) && Dropped(s) && Legal(s, t)
    requires forall a :: a in t && a.Begin? ==> a.op == Delete
    requires Enabled(Exec(s, t), Finish)
    ensures var s' := Next(Exec(s, t), Finish);
            s'.mode.Absent? && Observe(s'.world) == View(None, None, s'.world.live, None, {}) &&
            s'.world.live.Keys == Orphans(s.world) &&
            (s'.world.live == map[] <==>
               s.world.live == map[] ||
               (s.world.live.Keys <= s.world.inventory && (s.world.shootMR.Some? ==> !s.world.shootMR.value.keep)))
  {
    ExecKeepsInv(s, t);
    DroppedRun(s, t);
    var s' := Next(Exec(s, t), Finish);
    FinishedDelete(Exec(s, t));
    assert s'.world.live.Keys == Orphans(s'.world) == Orphans(s.world);
    assert s'.world.live == map[] <==> s'.world.live.Keys == {};
    NoOrphans(s.world);
  }

  /** If the last operation that succeeded was an installation, a Delete that now succeeds, whatever
      failed in between, leaves nothing at all: no ManagedResource, no object and no custom resource
      in the shoot, no secret of the extension. */
  lemma DeleteCompleteness(s: State, t: seq<Step>)
    requires Initial(s) && Legal(s, t)
    requires var s' := Exec(s, t);
             Enabled(s', Finish) && s'.run.value.op == Delete && s'.lastOk.Some? && s'.lastOk.value.Installs()
    ensures var w := Next(Exec(s, t), Finish).world;
            Observe(w) == View(None, None, map[], None, {}) && w.customs == {}
  {
    InitialInv(s);
    ExecKeepsInv(s, t);
    var s' := Exec(s, t);
    FinishedDelete(s');
    assert s'.world.live.Keys == {};
    assert s'.world.live == map[];
  }

  /** A ForceDelete that can return success leaves no secret of the extension either, and its
      ManagedResources gone or marked for deletion. */
  lemma FinishedForceDelete(s: State)
    requires Inv(s) && Enabled(s, Finish) && s.run.value.op == ForceDelete
    ensures Own(s.world.secrets) == {}
    ensures s.world.shootMR.Some? ==> s.world.shootMR.value.deleting
    ensures s.world.seedMR.Some? ==> s.world.seedMR.value.deleting
  {
    NothingOwn(s);
  }

  /** A Migrate that can return success leaves neither ManagedResource nor access secret, and no Deployment. */
  lemma FinishedMigrate(s: State)
    requires Inv(s) && Enabled(s, Finish) && s.run.value.op == Migrate
    ensures s.world.shootMR.None? && s.world.seedMR.None? && s.world.deployment.None?
    ensures OperatorAccess !in s.world.secrets && RunnerAccess !in s.world.secrets
  {
  }

  predicate GoneOrMarked<P>(m: Option<ManagedResource<P>>) {
    m.Some? ==> m.value.deleting
  }

  /** What a removal leaves when it succeeds, after any history: Delete and Migrate leave neither
      ManagedResource and no Deployment, ForceDelete at most marked ManagedResources; no access secret
      survives any of them, and no other secret of the extension Delete or ForceDelete. */
  lemma RemovalOutcome(s: State, t: seq<Step>)
    requires Initial(s) && Legal(s, t)
    requires Enabled(Exec(s, t), Finish) && !Exec(s, t).run.value.op.Installs()
    ensures var op, w := Exec(s, t).run.value.op, Next(Exec(s, t), Finish).world;
            && (op != ForceDelete ==> w.shootMR.None? && w.seedMR.None? && w.deployment.None?)
            && GoneOrMarked(w.shootMR) && GoneOrMarked(w.seedMR)
            && OperatorAccess !in w.secrets && RunnerAccess !in w.secrets
            && (op != Migrate ==> Own(w.secrets) == {})
  {
    InitialInv(s);
    ExecKeepsInv(s, t);
    var s' := Exec(s, t);
    match s'.run.value.op
    case Delete => FinishedDelete(s');
    case ForceDelete => FinishedForceDelete(s');
    case _ => FinishedMigrate(s');
  }
}
