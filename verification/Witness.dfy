/** Runs that exist: what an operation can do without help from its surroundings, and runs that show
    where a stronger promise would be false. */
module Witness {
  import opened Wrappers
  import opened Cluster
  import opened Protocol
  import opened Invariant

  /** Taken by the controller, none of it by the surroundings. */
  predicate OwnStep(a: Step) {
    a.Begin? || a == Advance || a.SweepOne? || a == Finish
  }

  /** The clean-up of a removal needs one call per managed secret and nobody's help. */
  lemma {:induction false} SweepCompletes(s: State) returns (t: seq<Step>)
    requires s.run.Some? && s.run.value.pc.Sweep? && !s.run.value.op.Installs()
    ensures Legal(s, t) && |t| == |ManagedSecrets(s.world)| + 1
    ensures forall a :: a in t ==> OwnStep(a)
    ensures Exec(s, t) == Finished(s.(world := Exec(s, t).world), s.run.value)
    ensures Exec(s, t).world == s.world.(secrets := s.world.secrets - ManagedSecrets(s.world))
    decreases |ManagedSecrets(s.world)|
  {
    var m := ManagedSecrets(s.world);
    if m == {} {
      t := [Finish];
      assert s.world.secrets - m == s.world.secrets;
      assert Legal(Next(s, Finish), t[1..]);
    } else {
      var x :| x in m;
      var s1 := Next(s, SweepOne(x));
      assert ManagedSecrets(s1.world) == m - {x};
      var u := SweepCompletes(s1);
      t := [SweepOne(x)] + u;
      assert t[1..] == u;
      assert s.world.secrets - {x} - (m - {x}) == s.world.secrets - m;
    }
  }

  /** Calls of a Delete or ForceDelete from `pc` on, the clean-up aside. */
  function CallsLeft(op: Op, pc: Pc): nat {
    match pc
    case GetCluster => if op == ForceDelete then 5 else 7
    case DropShoot => if op == ForceDelete then 4 else 6
    case AwaitShootGone => 5
    case DropSeed => if op == ForceDelete then 3 else 4
    case AwaitSeedGone => 3
    case DropOperatorAccess => 2
    case DropRunnerAccess => 1
    case _ => 0
  }

  /** Nothing to wait for: the operation does not wait, or there is no ManagedResource. */
  predicate Unblocked(s: State, op: Op) {
    op == ForceDelete || (op == Delete && s.world.shootMR.None? && s.world.seedMR.None?)
  }

  /** What the calls from `pc` on and the clean-up leave. */
  function Removed(w: World, pc: Pc): World {
    w.(shootMR := if Rank(pc) <= 2 then Marked(w.shootMR) else w.shootMR,
       seedMR := if Rank(pc) <= 4 then Marked(w.seedMR) else w.seedMR,
       secrets := w.secrets - ManagedSecrets(w)
                  - (if Rank(pc) <= 6 then {OperatorAccess} else {})
                  - (if Rank(pc) <= 7 then {RunnerAccess} else {}))
  }

  /** One of these calls is made at once, and leaves the rest to the next. */
  lemma RemovalCall(s: State)
    requires s.run.Some? && Unblocked(s, s.run.value.op) && InProgram(s.run.value.op, s.run.value.pc)
    requires !s.run.value.pc.Sweep?
    ensures Enabled(s, Advance)
    ensures var r, s1 := s.run.value, Next(s, Advance);
            && InProgram(r.op, s1.run.value.pc) && s1.run.value.op == r.op && Unblocked(s1, r.op)
            && s1 == s.(world := s1.world, run := s1.run)
            && CallsLeft(r.op, r.pc) == CallsLeft(r.op, s1.run.value.pc) + 1
            && ManagedSecrets(s1.world) == ManagedSecrets(s.world)
            && Removed(s1.world, s1.run.value.pc) == Removed(s.world, r.pc)
  {
    assert ManagedSecrets(Next(s, Advance).world) == ManagedSecrets(s.world);
  }

  lemma {:induction false} RemovalRest(s: State) returns (t: seq<Step>)
    requires s.run.Some? && Unblocked(s, s.run.value.op) && InProgram(s.run.value.op, s.run.value.pc)
    ensures Legal(s, t) && |t| == CallsLeft(s.run.value.op, s.run.value.pc) + |ManagedSecrets(s.world)| + 1
    ensures forall a :: a in t ==> OwnStep(a)
    ensures Exec(s, t).run.None? && Exec(s, t).lastOk == Some(s.run.value.op)
    ensures Exec(s, t).mode == if s.run.value.op == Delete then Absent else s.mode
    ensures Exec(s, t).world == Removed(s.world, s.run.value.pc)
    decreases CallsLeft(s.run.value.op, s.run.value.pc)
  {
    if s.run.value.pc.Sweep? {
      t := SweepCompletes(s);
    } else {
      RemovalCall(s);
      t := RemovalRest(Next(s, Advance));
      ExecCons(s, Advance, t);
      t := [Advance] + t;
    }
  }

  /** ForceDelete never blocks: from any state of an extension that has not left the seed, at most an
      error return of the operation in flight, the start, five calls, one more per managed secret and
      the return complete it, with no step of anybody else in between. */
  lemma ForceDeleteNeedsNobody(s: State) returns (t: seq<Step>)
    requires !s.mode.Migrated?
    ensures Legal(s, t) && |t| == (if s.run.Some? then 8 else 7) + |ManagedSecrets(s.world)|
    ensures forall a :: a in t ==> OwnStep(a) || (a == Abort && s.run.Some?)
    ensures var s' := Exec(s, t);
            s'.run.None? && s'.mode.Forced? && s'.lastOk == Some(ForceDelete) &&
            s'.world == s.world.(
              shootMR := Marked(s.world.shootMR),
              seedMR := Marked(s.world.seedMR),
              secrets := s.world.secrets - ManagedSecrets(s.world) - {OperatorAccess} - {RunnerAccess})
  {
    var s0 := s.(run := None);
    t := RemovalRest(Next(s0, Begin(ForceDelete)));
    ExecCons(s0, Begin(ForceDelete), t);
    t := [Begin(ForceDelete)] + t;
    if s.run.Some? {
      ExecCons(s, Abort, t);
      t := [Abort] + t;
    }
  }

  /** Restore fails on the destination seed before the resource manager has applied its shoot MR; a
      Delete then succeeds and leaves in the shoot all that the migration had kept there. */
  lemma EarlyDelete(s: State) returns (t: seq<Step>)
    requires s.run.None? && s.mode.Migrated? && s.world.shootMR.None? && s.world.seedMR.None?
    ensures Legal(s, t) && |t| > 3 && t[..4] == [Env(Handover), Begin(Restore), Abort, Begin(Delete)]
    ensures var s' := Exec(s, t);
            s'.mode.Absent? && s'.lastOk == Some(Delete) && s'.world.live == s.world.live
  {
    var s1 := Next(s, Env(Handover));
    var s2 := Next(s1, Begin(Restore));
    var s3 := Next(s2, Abort);
    var s4 := Next(s3, Begin(Delete));
    t := RemovalRest(s4);
    ExecCons(s3, Begin(Delete), t);
    t := [Begin(Delete)] + t;
    ExecCons(s2, Abort, t);
    t := [Abort] + t;
    ExecCons(s1, Begin(Restore), t);
    t := [Begin(Restore)] + t;
    ExecCons(s, Env(Handover), t);
    t := [Env(Handover)] + t;
  }

  /** The calls of an installation up to and including the one that stores the shoot MR. */
  lemma {:induction false} StoreShootMR(s: State) returns (t: seq<Step>)
    requires s.run.Some? && s.run.value.op.Installs() && InProgram(s.run.value.op, s.run.value.pc)
    requires Rank(s.run.value.pc) <= 7
    requires s.run.value.pc.WriteSeed? ==> s.world.shootMR.Some? && !s.world.shootMR.value.deleting
    requires s.world.shootMR.Some? ==> !s.world.shootMR.value.deleting
    ensures Legal(s, t) && forall a :: a in t ==> a == Advance
    ensures var w, s' := s.world, Exec(s, t);
            s'.run.Some? && s'.run.value.pc.WriteSeed? && s'.mode == s.mode &&
            s'.run.value.rotation == (if s.run.value.pc.GetCluster? then w.rotation else s.run.value.rotation) &&
            s'.world.shootMR.Some? && !s'.world.shootMR.value.deleting &&
            s'.world.seedMR == w.seedMR && s'.world.live == w.live && s'.world.catalog == w.catalog &&
            s'.world.inventory == w.inventory
    decreases 7 - Rank(s.run.value.pc)
  {
    if s.run.value.pc.WriteSeed? {
      t := [];
    } else {
      t := StoreShootMR(Next(s, Advance));
      ExecCons(s, Advance, t);
      t := [Advance] + t;
    }
  }

  /** An installation that crashes when the resource manager has applied `k` and the seed MR is not stored. */
  lemma InterruptedInstall(s: State, k: Key) returns (t: seq<Step>)
    requires Pristine(s) && k in s.world.catalog
    ensures Legal(s, t)
    ensures var s' := Exec(s, t);
            s'.mode.Active? && s'.run.None? && s'.world.seedMR.None? && k in s'.world.live
  {
    var s1 := Next(s, Begin(Reconcile));
    t := StoreShootMR(s1);
    ExecCons(s, Begin(Reconcile), t);
    t := [Begin(Reconcile)] + t;
    ExecSnoc(s, t, Env(ApplyShoot(k)));
    t := t + [Env(ApplyShoot(k))];
    ExecSnoc(s, t, Abort);
    t := t + [Abort];
  }

  lemma {:induction false} MigrateRest(s: State) returns (t: seq<Step>)
    requires s.run.Some? && s.run.value.op == Migrate && InProgram(Migrate, s.run.value.pc)
    requires s.world.seedMR.None? && Removal(s)
    ensures Legal(s, t)
    ensures var s' := Exec(s, t);
            s'.run.None? && s'.mode.Migrated? && s'.world.live == s.world.live &&
            s'.world.shootMR.None? && s'.world.seedMR.None?
    decreases 11 - Rank(s.run.value.pc), s.world.shootMR.Some?
  {
    var a :=
      if s.run.value.pc.Done? then Finish
      else if s.run.value.pc.AwaitShootGone? && s.world.shootMR.Some? then Env(ReleaseShoot)
      else Advance;
    if a == Finish {
      t := [];
      assert Legal(Next(s, a), t);
    } else {
      t := MigrateRest(Next(s, a));
    }
    ExecCons(s, a, t);
    t := [a] + t;
  }

  /** A Delete that succeeds need not leave the shoot clean: from every pristine state there is a run
      that ends with a successful Delete and an object of the extension still in the shoot, because
      a Restore failed before its shoot MR was applied. */
  lemma DeleteCanLeaveObjects(s: State, k: Key) returns (t: seq<Step>)
    requires Pristine(s) && k in s.world.catalog
    ensures Legal(s, t)
    ensures var s' := Exec(s, t);
            s'.mode.Absent? && s'.lastOk == Some(Delete) && k in s'.world.live
  {
    t := InterruptedInstall(s, k);
    var s1 := Exec(s, t);
    ExecSnoc(s, t, Begin(Migrate));
    t := t + [Begin(Migrate)];
    var s2 := Next(s1, Begin(Migrate));
    var u := MigrateRest(s2);
    ExecAppend(s, t, u);
    t := t + u;
    u := EarlyDelete(Exec(s2, u));
    ExecAppend(s, t, u);
    t := t + u;
  }
}
