/** What a ForceDelete does to an operator that still runs: its secrets go, while its Deployment is left to
    others. Here is exactly when this can leave a Deployment without its secrets. */
module ForceDeletion {
  import opened Wrappers
  import opened Cluster
  import opened Protocol
  import opened Invariant
  import opened Convergence
  import opened Witness

  /** The extension's secrets that the live Deployment needs exist, if there is one. */
  predicate NothingDangles(w: World) {
    w.deployment.Some? ==> Mounted(w, w.deployment.value)
  }

  /** No Deployment is live, and none will be: a seed MR, if any, is marked for deletion. */
  predicate NothingRuns(w: World) {
    w.deployment.None? && (w.seedMR.Some? ==> w.seedMR.value.deleting)
  }

  lemma StepKeepsNothing(s: State, a: Step)
    requires Inv(s) && s.mode.Forced? && NothingRuns(s.world) && Enabled(s, a)
    ensures Next(s, a).mode.Forced? && NothingRuns(Next(s, a).world)
  {
  }

  lemma {:induction false} RunKeepsNothing(s: State, t: seq<Step>)
    requires Inv(s) && s.mode.Forced? && NothingRuns(s.world) && Legal(s, t)
    ensures NothingRuns(Exec(s, t).world)
    decreases |t|
  {
    if t != [] {
      StepKeepsNothing(s, t[0]);
      NextKeepsInv(s, t[0]);
      RunKeepsNothing(Next(s, t[0]), t[1..]);
    }
  }

  /** Otherwise the calls of the ForceDelete take the secrets from under a Deployment that is live, or that
      the resource manager applies just before. */
  lemma SecretsGoFirst(s: State) returns (t: seq<Step>)
    requires s.run.None? && !s.mode.Migrated? && !NothingRuns(s.world)
    ensures Legal(s, t) && t != [] && t[0] == Begin(ForceDelete)
    ensures forall a :: a in t ==> OwnStep(a) || a == Env(ApplySeed)
    ensures var s' := Exec(s, t);
            s'.run.None? && s'.lastOk == Some(ForceDelete) && !NothingDangles(s'.world)
  {
    var s1 := Next(s, Begin(ForceDelete));
    if s.world.deployment.Some? {
      t := RemovalRest(s1);
    } else {
      var s2 := Next(s1, Env(ApplySeed));
      t := RemovalRest(s2);
      ExecCons(s1, Env(ApplySeed), t);
      t := [Env(ApplySeed)] + t;
    }
    ExecCons(s, Begin(ForceDelete), t);
    t := [Begin(ForceDelete)] + t;
  }

  /** A legal run that begins with the call of a ForceDelete. */
  predicate ForceDeleted(s: State, t: seq<Step>) {
    Legal(s, t) && t != [] && t[0] == Begin(ForceDelete)
  }

  /** From the call of a ForceDelete on, the secrets of the live Deployment stay, whatever happens, if and
      only if no Deployment is live and no seed MR is stored that is not already marked. */
  lemma ForceDeleteDangles(s: State)
    requires Inv(s) && s.run.None? && !s.mode.Migrated?
    ensures NothingRuns(s.world) <==> forall t | ForceDeleted(s, t) :: NothingDangles(Exec(s, t).world)
  {
    if NothingRuns(s.world) {
      NextKeepsInv(s, Begin(ForceDelete));
      forall t | ForceDeleted(s, t) ensures NothingDangles(Exec(s, t).world) {
        RunKeepsNothing(Next(s, Begin(ForceDelete)), t[1..]);
      }
    } else {
      var t := SecretsGoFirst(s);
      assert ForceDeleted(s, t) && !NothingDangles(Exec(s, t).world);
    }
  }

  /** Once a ForceDelete can return success, the secrets are missing exactly as long as the Deployment is there. */
  lemma DanglesUntilRemoved(s: State)
    requires Inv(s) && Enabled(s, Finish) && s.run.value.op == ForceDelete
    ensures NothingDangles(s.world) <==> s.world.deployment.None?
  {
    FinishedForceDelete(s);
    assert OperatorAccess in s.world.secrets ==> OperatorAccess in Own(s.world.secrets);
  }
}
