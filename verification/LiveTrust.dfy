/** Trust between what runs: whether the live webhooks trust the certificate that the live operator mounts.
    The stored ManagedResources always agree; what is live need not, and here is exactly when it does. */
module LiveTrust {
  import opened Wrappers
  import opened Cluster
  import opened Protocol
  import opened Invariant
  import opened Convergence
  import opened Progress
  import opened Witness
  import Rendering

  /** The objects that carry the CA bundle. */
  predicate Hook(k: Key) {
    k.kind.ValidatingWebhookConfiguration? || k.kind.MutatingWebhookConfiguration?
  }

  predicate HasHooks(w: World) {
    exists k :: k in w.catalog && Hook(k)
  }

  /** The rendered shoot objects include such objects, whatever the values. */
  lemma RenderedHooks(v: Rendering.Values, w: World)
    requires w.catalog == Rendering.Catalog(v)
    ensures HasHooks(w)
  {
    Rendering.CatalogHooks(v);
    assert Hook(Key(ValidatingWebhookConfiguration, "", Rendering.HOOKS));
  }

  /** Some webhook configuration in the shoot does not trust the certificate of the live Deployment. */
  predicate Gap(w: World) {
    w.deployment.Some? && exists k :: k in w.live && Hook(k) && w.deployment.value.signer !in w.live[k].bundle
  }

  /** All webhook configurations are there, and none of them does. */
  predicate NoTrust(w: World) {
    w.deployment.Some? &&
    forall k :: k in w.catalog && Hook(k) ==> k in w.live && w.deployment.value.signer !in w.live[k].bundle
  }

  /** Every bundle of a webhook configuration, stored or live, holds CA `g`. */
  predicate Everywhere(w: World, g: nat) {
    (w.shootMR.Some? ==> g in w.shootMR.value.payload.bundle) &&
    forall k :: k in w.live && Hook(k) ==> g in w.live[k].bundle
  }

  /** Every bundle holds the current CA and the signers of the certificates that are stored or live. */
  predicate Safe(w: World) {
    && Everywhere(w, w.rotation.ca)
    && (w.deployment.Some? ==> Everywhere(w, w.deployment.value.signer))
    && (w.seedMR.Some? ==> Everywhere(w, w.seedMR.value.payload.signer))
  }

  /** A legal run in which no rotation starts. */
  predicate Calm(s: State, t: seq<Step>) {
    Legal(s, t) && Env(StartRotation) !in t
  }

  // ---- safe states stay safe ----

  /** An installation in flight has read the current CA and puts it into its bundle. */
  predicate Current(s: State) {
    s.run.Some? && s.run.value.op.Installs() ==>
      var r := s.run.value;
      && (Rank(r.pc) >= 1 ==> r.rotation.ca == s.world.rotation.ca)
      && (Rank(r.pc) >= 5 ==> s.world.rotation.ca in r.bundle)
  }

  predicate Settled(s: State) {
    Inv(s) && Safe(s.world) && Current(s)
  }

  lemma EnvKeepsSettled(s: State, e: EnvStep)
    requires Settled(s) && EnvEnabled(s, e) && !e.StartRotation?
    ensures Safe(EnvEffect(s.world, e)) && Current(Next(s, Env(e)))
  {
  }

  /** What WriteShoot stores is trusted everywhere. */
  lemma BundleKeepsSafe(s: State)
    requires Settled(s) && Enabled(s, Advance) && s.run.value.pc.WriteShoot?
    ensures Safe(s.world.WriteShoot(s.run.value.Shoot()))
  {
    var w, bundle := s.world, s.run.value.bundle;
    assert Lag(s);
    assert w.rotation.ca in bundle;
    assert w.WriteShoot(s.run.value.Shoot()).shootMR.value.payload.bundle == bundle;
  }

  /** What WriteSeed stores is signed by the current CA. */
  lemma SignerKeepsSafe(s: State)
    requires Settled(s) && Enabled(s, Advance) && s.run.value.pc.WriteSeed?
    ensures Safe(s.world.WriteSeed(s.run.value.Seed()))
  {
    assert s.world.WriteSeed(s.run.value.Seed()).seedMR.value.payload.signer == s.world.rotation.ca;
  }

  function PayloadOf<P>(m: Option<ManagedResource<P>>): Option<P> {
    if m.Some? then Some(m.value.payload) else None
  }

  /** The other calls store no payload. */
  lemma PayloadsKept(w: World, r: Run)
    requires !r.pc.WriteShoot? && !r.pc.WriteSeed?
    ensures var w' := Effect(w, r);
            w'.live == w.live && w'.rotation == w.rotation && w'.deployment == w.deployment &&
            PayloadOf(w'.shootMR) == PayloadOf(w.shootMR) && PayloadOf(w'.seedMR) == PayloadOf(w.seedMR)
  {
  }

  lemma SamePayloads(w: World, w': World, g: nat)
    requires Everywhere(w, g) && w'.live == w.live && PayloadOf(w'.shootMR) == PayloadOf(w.shootMR)
    ensures Everywhere(w', g)
  {
  }

  lemma PayloadsKeepSafe(w: World, r: Run)
    requires Safe(w) && !r.pc.WriteShoot? && !r.pc.WriteSeed?
    ensures Safe(Effect(w, r))
  {
    var w' := Effect(w, r);
    PayloadsKept(w, r);
    SamePayloads(w, w', w.rotation.ca);
    if w.deployment.Some? {
      SamePayloads(w, w', w.deployment.value.signer);
    }
    if w.seedMR.Some? {
      SamePayloads(w, w', w.seedMR.value.payload.signer);
    }
  }

  lemma CallKeepsSafe(s: State)
    requires Settled(s) && Enabled(s, Advance)
    ensures Safe(Effect(s.world, s.run.value))
  {
    if s.run.value.pc.WriteShoot? {
      BundleKeepsSafe(s);
    } else if s.run.value.pc.WriteSeed? {
      SignerKeepsSafe(s);
    } else {
      PayloadsKeepSafe(s.world, s.run.value);
    }
  }

  lemma CallKeepsCurrent(s: State)
    requires Current(s) && Enabled(s, Advance) && InProgram(s.run.value.op, s.run.value.pc)
    ensures Current(Next(s, Advance))
  {
  }

  lemma StepKeepsSettled(s: State, a: Step)
    requires Settled(s) && Enabled(s, a) && a != Env(StartRotation)
    ensures Settled(Next(s, a))
  {
    NextKeepsInv(s, a);
    match a
    case Advance =>
      CallKeepsSafe(s);
      CallKeepsCurrent(s);
    case Env(e) => EnvKeepsSettled(s, e);
    case _ =>
  }

  lemma {:induction false} RunKeepsSettled(s: State, t: seq<Step>)
    requires Settled(s) && Calm(s, t)
    ensures Settled(Exec(s, t))
    decreases |t|
  {
    if t != [] {
      assert t[0] in t;
      StepKeepsSettled(s, t[0]);
      RunKeepsSettled(Next(s, t[0]), t[1..]);
    }
  }

  // ---- other states need not ----

  /** The seed MR is stored and applied. */
  lemma SeedApplied(s: State) returns (t: seq<Step>)
    requires s.run.Some? && s.run.value.pc.WriteSeed? && (s.world.seedMR.Some? ==> !s.world.seedMR.value.deleting)
    ensures t == [Advance, Env(ApplySeed)] && Legal(s, t)
    ensures var w := Exec(s, t).world;
            w.live == s.world.live && w.catalog == s.world.catalog &&
            w.deployment.Some? && w.deployment.value.signer == s.run.value.rotation.ca
  {
    t := [Advance, Env(ApplySeed)];
    var s1 := Next(s, Advance);
    assert t[1..] == [Env(ApplySeed)] && t[1..][1..] == [];
    assert EnvEnabled(s1, ApplySeed);
    assert Legal(s1, t[1..]);
  }

  /** From a state in which some live bundle lacks the current CA, a Reconcile can bring a certificate of
      that CA to life. */
  lemma SignAhead(s: State) returns (t: seq<Step>)
    requires Inv(s) && s.run.None? && (s.mode.Absent? || s.mode.Active?)
    requires exists k :: k in s.world.live && Hook(k) && s.world.rotation.ca !in s.world.live[k].bundle
    ensures Calm(s, t) && Begin(ForceDelete) !in t && Gap(Exec(s, t).world)
    ensures Exec(s, t).world.live == s.world.live && Exec(s, t).world.catalog == s.world.catalog
    ensures Exec(s, t).world.deployment.value.signer == s.world.rotation.ca
  {
    var s1 := Next(s, Begin(Reconcile));
    t := StoreShootMR(s1);
    var u := SeedApplied(Exec(s1, t));
    ExecAppend(s1, t, u);
    t := t + u;
    ExecCons(s, Begin(Reconcile), t);
    t := [Begin(Reconcile)] + t;
  }

  /** The resource manager applies an object of the stored shoot MR. */
  lemma SpreadFirst(s: State, k: Key) returns (t: seq<Step>)
    requires Inv(s) && s.run.None? && (s.mode.Absent? || s.mode.Active?) && k in s.world.catalog && Hook(k)
    requires s.world.shootMR.Some? && s.world.rotation.ca !in s.world.shootMR.value.payload.bundle
    ensures Calm(s, t) && Begin(ForceDelete) !in t && Gap(Exec(s, t).world)
  {
    var a := Env(ApplyShoot(k));
    var s1 := Next(s, a);
    assert k in s1.world.live && s1.world.live[k] == s.world.shootMR.value.payload;
    NextKeepsInv(s, a);
    t := SignAhead(s1);
    ExecCons(s, a, t);
    t := [a] + t;
  }

  lemma UnsafeGap(s: State, k: Key) returns (t: seq<Step>)
    requires Inv(s) && s.run.None? && (s.mode.Absent? || s.mode.Active?) && k in s.world.catalog && Hook(k)
    requires !Safe(s.world)
    ensures Calm(s, t) && Begin(ForceDelete) !in t && Gap(Exec(s, t).world)
  {
    var w := s.world;
    if j :| j in w.live && Hook(j) && w.rotation.ca !in w.live[j].bundle {
      t := SignAhead(s);
    } else if Gap(w) {
      t := [];
    } else if j :| j in w.live && Hook(j) && w.seedMR.Some? && w.seedMR.value.payload.signer !in w.live[j].bundle {
      t := [Env(ApplySeed)];
      assert Legal(Next(s, t[0]), t[1..]);
    } else {
      t := SpreadFirst(s, k);
    }
  }

  /** The exact condition: between operations, as long as no rotation starts, nothing that can happen makes
      the live webhooks distrust the live operator if and only if every bundle, stored or live, holds the
      current CA and the signers of the certificates in use. */
  lemma LiveTrustExact(s: State)
    requires Inv(s) && s.run.None? && (s.mode.Absent? || s.mode.Active?) && HasHooks(s.world)
    ensures Safe(s.world) <==> forall t | Calm(s, t) :: !Gap(Exec(s, t).world)
  {
    if Safe(s.world) {
      forall t | Calm(s, t) ensures !Gap(Exec(s, t).world) {
        RunKeepsSettled(s, t);
      }
    } else {
      var k :| k in s.world.catalog && Hook(k);
      var t := UnsafeGap(s, k);
      assert Calm(s, t) && Gap(Exec(s, t).world);
    }
  }

  /** The same for the objects that the component renders, whatever its values. */
  lemma RenderedLiveTrustExact(s: State, v: Rendering.Values)
    requires Inv(s) && s.run.None? && (s.mode.Absent? || s.mode.Active?) && s.world.catalog == Rendering.Catalog(v)
    ensures Safe(s.world) <==> forall t | Calm(s, t) :: !Gap(Exec(s, t).world)
  {
    RenderedHooks(v, s.world);
    LiveTrustExact(s);
  }

  // ---- what the operations and the rotation do to the condition ----

  /** An installation that can return success leaves a safe state if and only if no rotation has started
      since it read the Cluster resource. */
  lemma InstallMakesSafe(s: State)
    requires Inv(s) && Enabled(s, Finish) && s.run.value.op.Installs() && HasHooks(s.world)
    ensures Safe(Next(s, Finish).world) <==> s.run.value.rotation.ca == s.world.rotation.ca
  {
    FinishedInstalls(s);
  }

  /** Health is not the condition: with a healthy shoot MR, whatever the state of the seed MR, it holds if
      and only if the bundle holds the current CA. */
  lemma HealthySafe(s: State)
    requires Inv(s) && s.world.shootMR.Some? && s.world.shootMR.value.Healthy()
    ensures Safe(s.world) <==> s.world.rotation.ca in s.world.shootMR.value.payload.bundle
  {
    assert s.world.live.Keys == s.world.catalog;
  }

  /** A rotation that starts after a successful installation makes the state unsafe. */
  lemma RotationMakesUnsafe(s: State)
    requires Inv(s) && HasHooks(s.world) && Installed(s.world) && s.world.rotation.dropOld
    ensures var w := Next(s, Env(StartRotation)).world;
            !Safe(w) && forall k :: k in w.catalog && Hook(k) ==> k in w.live && w.rotation.ca !in w.live[k].bundle
  {
    var k :| k in s.world.catalog && Hook(k);
    assert k in s.world.live;
  }

  /** With rotations the gap is always ahead: from every state between operations in which a Reconcile may
      begin, an installation, the completion of the rotation under way and the start of the next lead to it. */
  lemma RotationOpensGap(s: State) returns (t: seq<Step>)
    requires Inv(s) && s.run.None? && (s.mode.Absent? || s.mode.Active?) && HasHooks(s.world)
    ensures Legal(s, t) && Begin(ForceDelete) !in t && NoTrust(Exec(s, t).world)
  {
    t := InstallCompletes(s);
    assert forall a :: a in t ==> a == t[0] || a in t[1..];
    var u := RotateToGap(Exec(s, t));
    ExecAppend(s, t, u);
    t := t + u;
  }

  lemma RotateToGap(s: State) returns (t: seq<Step>)
    requires Inv(s) && s.run.None? && s.mode.Active? && HasHooks(s.world)
    requires Installed(s.world) && s.confirmed == Some(s.world.rotation.ca)
    ensures Legal(s, t) && Begin(ForceDelete) !in t && NoTrust(Exec(s, t).world)
    decreases !s.world.rotation.dropOld
  {
    var a := Env(if s.world.rotation.dropOld then StartRotation else CompleteRotation);
    var s1 := Next(s, a);
    NextKeepsInv(s, a);
    if s.world.rotation.dropOld {
      RotationMakesUnsafe(s);
      t := SignAhead(s1);
    } else {
      t := RotateToGap(s1);
    }
    ExecCons(s, a, t);
    t := [a] + t;
  }
}
