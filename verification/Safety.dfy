/** Safety of every run: any number of operations, failures, crashes, retries, rotations and
    migrations, with the resource manager and the users acting at any time. A prefix of a legal
    run is a legal run, so each statement about the last state holds after every step. */
module Safety {
  import opened Wrappers
  import opened Cluster
  import opened Protocol
  import opened Invariant

  lemma ReachableInv(s: State, t: seq<Step>)
    requires Initial(s) && Legal(s, t)
    ensures Inv(Exec(s, t))
  {
    InitialInv(s);
    ExecKeepsInv(s, t);
  }

  /** Whenever both ManagedResources are stored, the certificate that the seed one mounts is signed
      by a CA in the bundle that the shoot one hands to the webhooks; and so is the one that the live
      Deployment still mounts. */
  lemma CaRotationSafety(s: State, t: seq<Step>)
    requires Initial(s) && Legal(s, t)
    ensures var w := Exec(s, t).world;
            w.shootMR.Some? ==>
              (w.seedMR.Some? ==> w.seedMR.value.payload.signer in w.shootMR.value.payload.bundle) &&
              (w.deployment.Some? ==> w.deployment.value.signer in w.shootMR.value.payload.bundle)
  {
    ReachableInv(s, t);
  }

  lemma {:induction false} NeverForced(s: State, t: seq<Step>)
    requires Legal(s, t) && !s.mode.Forced? && Begin(ForceDelete) !in t
    ensures !Exec(s, t).mode.Forced?
    decreases |t|
  {
    if t != [] {
      assert t[0] in t;
      NeverForced(Next(s, t[0]), t[1..]);
    }
  }

  /** Each secret of the extension that the live operator Deployment mounts exists, and so does the one
      that its configuration names for the runner. */
  lemma NoDanglingSecret(s: State, t: seq<Step>)
    requires Initial(s) && Legal(s, t) && Begin(ForceDelete) !in t
    ensures var w := Exec(s, t).world;
            w.deployment.Some? ==>
              OperatorAccess in w.secrets && RunnerAccess in w.secrets &&
              ServerCert(w.deployment.value.signer, w.deployment.value.serial) in w.secrets
  {
    ReachableInv(s, t);
    NeverForced(s, t);
  }

  /** The step withdraws the operator: it deletes the seed MR, or is the resource manager's removal of
      the Deployment. */
  predicate Withdraws(s: State, a: Step) {
    (a == Advance && s.run.Some? && s.run.value.pc.DropSeed?) || a == Env(RemoveSeed)
  }

  /** The operator is withdrawn only when the shoot MR is gone; if the last success was an
      installation and the extension is being deleted, then also nothing of it is left in the shoot
      for the operator to clean up. */
  lemma TeardownOrder(s: State, t: seq<Step>, i: nat)
    requires Initial(s) && Legal(s, t) && Begin(ForceDelete) !in t && i < |t|
    ensures Legal(s, t[..i])
    ensures var s' := Exec(s, t[..i]);
            Withdraws(s', t[i]) ==>
              s'.world.shootMR.None? &&
              (s'.mode.Deleting? && s'.lastOk.Some? && s'.lastOk.value.Installs() ==>
                 s'.world.live == map[] && s'.world.customs == {})
  {
    ExecSplit(s, t, i);
    ReachableInv(s, t[..i]);
    NeverForced(s, t[..i]);
    var s' := Exec(s, t[..i]);
    assert t[i..][0] == t[i];
    assert Enabled(s', t[i]);
    if s'.world.live.Keys <= {} {
      assert s'.world.live == map[];
    }
  }

  /** When the shoot MR is healthy, every object in the shoot trusts the live Deployment, whatever the
      state of the seed MR. */
  lemma HealthyShootMeansLiveTrust(s: State, t: seq<Step>)
    requires Initial(s) && Legal(s, t)
    ensures var w := Exec(s, t).world;
            w.shootMR.Some? && w.shootMR.value.Healthy() && w.deployment.Some? ==>
              forall k :: k in w.live ==> w.deployment.value.signer in w.live[k].bundle
  {
    ReachableInv(s, t);
  }

  /** When both ManagedResources are healthy, all that they hold is also there. */
  lemma HealthyMeansLiveTrust(s: State, t: seq<Step>)
    requires Initial(s) && Legal(s, t)
    ensures var w := Exec(s, t).world;
            w.shootMR.Some? && w.shootMR.value.Healthy() && w.seedMR.Some? && w.seedMR.value.Healthy() ==>
              w.deployment.Some? &&
              forall k :: k in w.catalog ==> k in w.live && w.deployment.value.signer in w.live[k].bundle
  {
    ReachableInv(s, t);
  }
}
