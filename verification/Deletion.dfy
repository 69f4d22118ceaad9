/** When a Delete leaves nothing, as a condition on the state in which it is called. */
module Deletion {
  import opened Wrappers
  import opened Cluster
  import opened Protocol
  import opened Invariant
  import opened Convergence
  import opened Progress
  import opened Witness

  /** No migration or forced deletion is under way. */
  predicate Deletable(mode: Mode) {
    mode.Absent? || mode.Active? || mode.Deleting?
  }

  /** An unmarked shoot MR is not to keep its objects and lists all that the resource manager can apply before
      the mark; a marked one lists all that are there, or keeps none; without one nothing is there, and no
      installation is about to store one. */
  predicate LeavesNothing(s: State) {
    var w := s.world;
    match w.shootMR
    case Some(m) =>
      if !m.deleting then !m.keep && w.catalog <= w.inventory
      else if m.keep then w.live == map[]
      else w.live.Keys <= w.inventory
    case None => w.live == map[] && !(s.run.Some? && s.run.value.op.Installs())
  }

  /** No operation but Delete is begun. */
  predicate OnlyDeletes(t: seq<Step>) {
    forall a :: a in t && a.Begin? ==> a.op == Delete
  }

  /** An installation may be begun too, but only where a shoot MR is stored. */
  predicate Upkeep(s: State, t: seq<Step>)
    requires Legal(s, t)
    decreases |t|
  {
    t == [] ||
    ((t[0].Begin? ==> t[0].op == Delete || (t[0].op.Installs() && s.world.shootMR.Some?)) &&
     Upkeep(Next(s, t[0]), t[1..]))
  }

  predicate AtDelete(s: State) {
    Enabled(s, Finish) && s.run.value.op == Delete
  }

  /** What is in flight goes on or fails, Delete is attempted any number of times, with what is stored being
      reconciled in between, and can now succeed. */
  predicate EndsInDelete(s: State, t: seq<Step>) {
    Legal(s, t) && Upkeep(s, t) && AtDelete(Exec(s, t))
  }

  lemma {:induction false} DeletesAreUpkeep(s: State, t: seq<Step>)
    requires Legal(s, t) && OnlyDeletes(t)
    ensures Upkeep(s, t)
    decreases |t|
  {
    if t != [] {
      assert t[0] in t;
      DeletesAreUpkeep(Next(s, t[0]), t[1..]);
    }
  }

  // ---- under the condition ----

  lemma EnvKeepsClean(s: State, e: EnvStep)
    requires Inv(s) && Deletable(s.mode) && LeavesNothing(s) && EnvEnabled(s, e)
    ensures LeavesNothing(Next(s, Env(e)))
  {
  }

  lemma CallKeepsClean(s: State)
    requires Inv(s) && Deletable(s.mode) && LeavesNothing(s) && Enabled(s, Advance)
    ensures LeavesNothing(Next(s, Advance))
  {
  }

  lemma StepKeepsClean(s: State, a: Step)
    requires Inv(s) && Deletable(s.mode) && LeavesNothing(s) && Enabled(s, a)
    requires a.Begin? ==> a.op == Delete || (a.op.Installs() && s.world.shootMR.Some?)
    ensures Deletable(Next(s, a).mode) && LeavesNothing(Next(s, a))
  {
    match a
    case Advance => CallKeepsClean(s);
    case Env(e) => EnvKeepsClean(s, e);
    case _ =>
  }

  lemma {:induction false} RunKeepsClean(s: State, t: seq<Step>)
    requires Inv(s) && Deletable(s.mode) && LeavesNothing(s) && Legal(s, t) && Upkeep(s, t)
    ensures LeavesNothing(Exec(s, t))
    decreases |t|
  {
    if t != [] {
      StepKeepsClean(s, t[0]);
      NextKeepsInv(s, t[0]);
      RunKeepsClean(Next(s, t[0]), t[1..]);
    }
  }

  /** Whatever attempts failed before and whatever was reconciled in between, a Delete that succeeds ends in
      one state, in which nothing of the extension is left, on the seed or in the shoot. */
  lemma CleanDelete(s: State, t: seq<Step>)
    requires Inv(s) && Deletable(s.mode) && LeavesNothing(s) && EndsInDelete(s, t)
    ensures Observe(Next(Exec(s, t), Finish).world) == View(None, None, map[], None, {})
  {
    ExecKeepsInv(s, t);
    RunKeepsClean(s, t);
    FinishedDelete(Exec(s, t));
  }

  // ---- without it ----

  /** A Delete begun in `s` can succeed, and then leaves the orphans of `s`. */
  lemma DeleteOrphans(s: State) returns (t: seq<Step>)
    requires Inv(s) && s.run.None? && Deletable(s.mode)
    ensures Legal(s, t) && OnlyDeletes(t) && AtDelete(Exec(s, t)) && Exec(s, t).world.live.Keys == Orphans(s.world)
  {
    var s1 := Next(s, Begin(Delete));
    NextKeepsInv(s, Begin(Delete));
    t := CanComplete(s1);
    FinishedDelete(Exec(s1, t));
    ExecCons(s, Begin(Delete), t);
    t := [Begin(Delete)] + t;
  }

  /** From a state with an unmarked shoot MR that is to keep `k` or does not list it, the resource manager
      applies `k`, and a Delete leaves it. */
  lemma ApplyAndDelete(s: State, k: Key) returns (t: seq<Step>)
    requires Inv(s) && s.run.None? && Deletable(s.mode) && k in s.world.catalog
    requires s.world.shootMR.Some? && !s.world.shootMR.value.deleting
    requires s.world.shootMR.value.keep || k !in s.world.inventory
    ensures Legal(s, t) && OnlyDeletes(t) && AtDelete(Exec(s, t)) && k in Exec(s, t).world.live
  {
    var a := Env(ApplyShoot(k));
    NextKeepsInv(s, a);
    assert k in Orphans(Next(s, a).world);
    t := DeleteOrphans(Next(s, a));
    ExecCons(s, a, t);
    t := [a] + t;
    assert k in Exec(s, t).world.live.Keys;
  }

  /** An installation in flight stores a new shoot MR, fails when the resource manager has applied `k` but not
      listed it, and a Delete leaves it. */
  lemma StoreAndDelete(s: State, k: Key) returns (t: seq<Step>)
    requires Inv(s) && s.run.Some? && s.run.value.op.Installs() && k in s.world.catalog && s.world.shootMR.None?
    ensures Legal(s, t) && OnlyDeletes(t) && AtDelete(Exec(s, t)) && k in Exec(s, t).world.live
  {
    t := StoreShootMR(s);
    var s1 := Exec(s, t);
    ExecKeepsInv(s, t);
    NextKeepsInv(s1, Abort);
    var u := ApplyAndDelete(Next(s1, Abort), k);
    ExecCons(s1, Abort, u);
    ExecAppend(s, t, [Abort] + u);
    t := t + ([Abort] + u);
  }

  /** An object that a Delete called between operations can leave. */
  lemma UncleanDelete(s: State, k: Key) returns (t: seq<Step>)
    requires Inv(s) && s.run.None? && Deletable(s.mode) && !LeavesNothing(s) && k in s.world.catalog
    ensures Legal(s, t) && OnlyDeletes(t) && AtDelete(Exec(s, t)) && Exec(s, t).world.live != map[]
  {
    var w := s.world;
    if w.shootMR.Some? && !w.shootMR.value.deleting {
      var j := k;
      if !w.shootMR.value.keep {
        j :| j in w.catalog && j !in w.inventory;
      }
      t := ApplyAndDelete(s, j);
    } else {
      NoOrphans(w);
      t := DeleteOrphans(s);
    }
  }

  lemma UncleanRun(s: State, k: Key) returns (t: seq<Step>)
    requires Inv(s) && Deletable(s.mode) && !LeavesNothing(s) && k in s.world.catalog
    ensures Legal(s, t) && OnlyDeletes(t) && AtDelete(Exec(s, t)) && Exec(s, t).world.live != map[]
  {
    if s.run.None? {
      t := UncleanDelete(s, k);
    } else if s.world.shootMR.None? && s.run.value.op.Installs() {
      t := StoreAndDelete(s, k);
    } else {
      NextKeepsInv(s, Abort);
      t := UncleanDelete(Next(s, Abort), k);
      ExecCons(s, Abort, t);
      t := [Abort] + t;
    }
  }

  /** A Delete leaves nothing in the shoot, however it goes, if and only if the condition holds when it is
      called. */
  lemma DeleteLeavesNothing(s: State)
    requires Inv(s) && Deletable(s.mode) && s.world.catalog != {}
    ensures LeavesNothing(s) <==> forall t | EndsInDelete(s, t) :: Next(Exec(s, t), Finish).world.live == map[]
  {
    if LeavesNothing(s) {
      forall t | EndsInDelete(s, t) ensures Next(Exec(s, t), Finish).world.live == map[] {
        CleanDelete(s, t);
      }
    } else {
      var k :| k in s.world.catalog;
      var t := UncleanRun(s, k);
      DeletesAreUpkeep(s, t);
      assert EndsInDelete(s, t) && Next(Exec(s, t), Finish).world.live != map[];
    }
  }

  // ---- what installations do to the condition ----

  /** Whenever the last success was an installation, the condition holds as long as the extension is not
      migrated or forced out. */
  lemma InstalledLeavesNothing(s: State)
    requires Inv(s) && Deletable(s.mode) && s.lastOk.Some? && s.lastOk.value.Installs()
    ensures LeavesNothing(s)
  {
    if s.world.shootMR.None? {
      assert s.world.live.Keys == {};
    }
  }

  /** A Reconcile that begins without a shoot MR and fails need not keep it: it may have stored one of which
      the resource manager has applied an object that it did not list yet. */
  lemma FailedReconcileLeaves(s: State, k: Key) returns (t: seq<Step>)
    requires Inv(s) && s.run.None? && (s.mode.Absent? || s.mode.Active?)
    requires s.world.shootMR.None? && k in s.world.catalog
    ensures t != [] && t[0] == Begin(Reconcile) && OnlyDeletes(t[1..]) && Legal(s, t)
    ensures AtDelete(Exec(s, t)) && k in Exec(s, t).world.live
  {
    NextKeepsInv(s, Begin(Reconcile));
    t := StoreAndDelete(Next(s, Begin(Reconcile)), k);
    ExecCons(s, Begin(Reconcile), t);
    t := [Begin(Reconcile)] + t;
  }
}
