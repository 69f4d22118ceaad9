/** Runs to success: with the help of the resource manager, every operation can be completed from where it is. */
module Progress {
  import opened Wrappers
  import opened Cluster
  import opened Protocol
  import opened Invariant
  import opened Convergence

  /** Taken by the controller between the start of an operation and its return, or by the resource manager. */
  predicate Helpful(a: Step) {
    match a
    case Begin(_) => false
    case Abort => false
    case Env(e) =>
      e.ApplyShoot? || e.ListShoot? || e.ObserveShoot? || e.RemoveShoot? || e.ReleaseShoot? ||
      e.ApplySeed? || e.ObserveSeed? || e.RemoveSeed? || e.ReleaseSeed?
    case _ => true
  }

  /** Secrets that the clean-up has still to delete. */
  function StaleSecrets(w: World, r: Run): set<Secret> {
    set x | x in w.secrets && Stale(w, r, x)
  }

  /** Objects of the shoot MR that are not yet as it wants them. */
  function Unapplied(w: World): set<Key>
    requires w.shootMR.Some?
  {
    set k | k in w.catalog && !(k in w.live && w.live[k] == w.shootMR.value.payload)
  }

  /** What is still to be done before the call that is due can be made or the operation can return. */
  function Pending(w: World, r: Run): nat {
    match r.pc
    case Sweep => |StaleSecrets(w, r)|
    case AwaitSeed => if w.seedMR.Some? && w.deployment == Some(w.seedMR.value.payload) then 0 else 1
    case AwaitShoot => if w.shootMR.Some? then |Unapplied(w)| + |w.catalog - w.inventory| else 0
    case AwaitShootGone => |w.inventory|
    case AwaitSeedGone => if w.deployment.Some? then 1 else 0
    case _ => 0
  }

  /** The wait that is due, if any, is not over. */
  function Blocked(w: World, pc: Pc): nat {
    if Ready(w, pc) then 0 else 1
  }

  predicate Closer(s: State, s': State)
    requires s.run.Some? && s'.run.Some?
  {
    var r, r' := s.run.value, s'.run.value;
    Rank(r.pc) < Rank(r'.pc) ||
    (r'.pc == r.pc &&
       (Pending(s'.world, r') < Pending(s.world, r) ||
        (Pending(s'.world, r') == Pending(s.world, r) && Blocked(s'.world, r'.pc) < Blocked(s.world, r.pc))))
  }

  lemma SubsetSmaller<T>(a: set<T>, b: set<T>, x: T)
    requires a == b - {x} && x in b
    ensures |a| < |b|
  {
  }

  /** The clean-up deletes one more secret, or is done. */
  lemma SweepStep(s: State) returns (a: Step)
    requires s.run.Some? && s.run.value.pc.Sweep?
    ensures Enabled(s, a) && (a == Finish || a.SweepOne?)
    ensures a != Finish ==> Closer(s, Next(s, a))
  {
    var stale := StaleSecrets(s.world, s.run.value);
    if x :| x in stale {
      a := SweepOne(x);
      SubsetSmaller(StaleSecrets(Next(s, a).world, s.run.value), stale, x);
    } else {
      forall x | x in s.world.secrets ensures !Stale(s.world, s.run.value, x) {
        assert x !in stale;
      }
      a := Finish;
    }
  }

  lemma ApplyOne(s: State, k: Key)
    requires Inv(s) && s.run.Some? && s.mode.Active? && s.run.value.pc.AwaitShoot? && s.world.shootMR.Some?
    requires k in Unapplied(s.world)
    ensures EnvEnabled(s, ApplyShoot(k)) && Closer(s, Next(s, Env(ApplyShoot(k))))
  {
    SubsetSmaller(Unapplied(EnvEffect(s.world, ApplyShoot(k))), Unapplied(s.world), k);
  }

  lemma AllApplied(w: World)
    requires w.shootMR.Some? && Unapplied(w) == {}
    ensures forall k :: k in w.catalog ==> k in w.live && w.live[k] == w.shootMR.value.payload
  {
    forall k | k in w.catalog ensures k in w.live && w.live[k] == w.shootMR.value.payload {
      assert k !in Unapplied(w);
    }
  }

  lemma ListOne(s: State, k: Key)
    requires Inv(s) && s.run.Some? && s.mode.Active? && s.run.value.pc.AwaitShoot? && s.world.shootMR.Some?
    requires Unapplied(s.world) == {} && k in s.world.catalog - s.world.inventory
    ensures EnvEnabled(s, ListShoot(k)) && Closer(s, Next(s, Env(ListShoot(k))))
  {
    AllApplied(s.world);
    var w := EnvEffect(s.world, ListShoot(k));
    assert Unapplied(w) == Unapplied(s.world);
    SubsetSmaller(w.catalog - w.inventory, s.world.catalog - s.world.inventory, k);
  }

  lemma ObserveApplied(s: State)
    requires Inv(s) && s.run.Some? && s.mode.Active? && s.run.value.pc.AwaitShoot? && s.world.shootMR.Some?
    requires !s.world.shootMR.value.Healthy() && Unapplied(s.world) == {} && s.world.catalog <= s.world.inventory
    ensures EnvEnabled(s, ObserveShoot) && Closer(s, Next(s, Env(ObserveShoot)))
  {
    AllApplied(s.world);
    assert Unapplied(EnvEffect(s.world, ObserveShoot)) == Unapplied(s.world);
  }

  /** The resource manager applies one more object, lists one more, or reports health. */
  lemma ApplyStep(s: State) returns (e: EnvStep)
    requires Inv(s) && s.run.Some? && s.run.value.op.Installs()
    requires s.run.value.pc.AwaitShoot? && !Ready(s.world, AwaitShoot)
    ensures EnvEnabled(s, e) && Helpful(Env(e)) && Closer(s, Next(s, Env(e)))
  {
    if k :| k in Unapplied(s.world) {
      e := ApplyShoot(k);
      ApplyOne(s, k);
    } else if k :| k in s.world.catalog - s.world.inventory {
      e := ListShoot(k);
      ListOne(s, k);
    } else {
      e := ObserveShoot;
      forall k | k in s.world.catalog ensures k in s.world.inventory {
        assert k !in s.world.catalog - s.world.inventory;
      }
      ObserveApplied(s);
    }
  }

  lemma ApplySeedStep(s: State) returns (e: EnvStep)
    requires Inv(s) && s.run.Some? && s.run.value.op.Installs()
    requires s.run.value.pc.AwaitSeed? && !Ready(s.world, AwaitSeed)
    ensures EnvEnabled(s, e) && Helpful(Env(e)) && Closer(s, Next(s, Env(e)))
  {
    e := if s.world.deployment == Some(s.world.seedMR.value.payload) then ObserveSeed else ApplySeed;
  }

  /** The resource manager removes one more object, or lets the shoot MR go. */
  lemma RemoveStep(s: State) returns (e: EnvStep)
    requires Inv(s) && s.run.Some? && !s.run.value.op.Installs()
    requires s.run.value.pc.AwaitShootGone? && !Ready(s.world, AwaitShootGone)
    ensures EnvEnabled(s, e) && Helpful(Env(e)) && Closer(s, Next(s, Env(e)))
  {
    if s.world.shootMR.value.keep || s.world.inventory == {} {
      e := ReleaseShoot;
    } else {
      var k :| k in s.world.inventory;
      e := RemoveShoot(k);
      SubsetSmaller(Next(s, Env(e)).world.inventory, s.world.inventory, k);
    }
  }

  lemma RemoveSeedStep(s: State) returns (e: EnvStep)
    requires Inv(s) && s.run.Some? && !s.run.value.op.Installs()
    requires s.run.value.pc.AwaitSeedGone? && !Ready(s.world, AwaitSeedGone)
    ensures EnvEnabled(s, e) && Helpful(Env(e)) && Closer(s, Next(s, Env(e)))
  {
    e := if s.world.deployment.None? then ReleaseSeed else RemoveSeed;
  }

  /** A call that can be made brings the operation on. */
  lemma CallStep(s: State)
    requires Inv(s) && s.run.Some? && Enabled(s, Advance)
    ensures Rank(s.run.value.pc) < Rank(Next(s, Advance).run.value.pc) <= 11
  {
  }

  lemma WaitStep(s: State) returns (e: EnvStep)
    requires Inv(s) && s.run.Some?
    requires !Ready(s.world, s.run.value.pc)
    ensures EnvEnabled(s, e) && Helpful(Env(e)) && Closer(s, Next(s, Env(e)))
    ensures !s.run.value.op.Installs() ==> !e.ApplyShoot? && !e.ListShoot?
  {
    match s.run.value.pc
    case AwaitSeed => e := ApplySeedStep(s);
    case AwaitShoot => e := ApplyStep(s);
    case AwaitShootGone => e := RemoveStep(s);
    case AwaitSeedGone => e := RemoveSeedStep(s);
  }

  /** Some step takes the operation on, or it can return. */
  lemma SomeStep(s: State) returns (a: Step)
    requires Inv(s) && s.run.Some?
    ensures Helpful(a) && Enabled(s, a) && (a == Finish || Closer(s, Next(s, a)))
    ensures !s.run.value.op.Installs() && a.Env? ==> !a.e.ApplyShoot? && !a.e.ListShoot?
  {
    if s.run.value.pc.Sweep? {
      a := SweepStep(s);
    } else if s.run.value.pc.Done? {
      a := Finish;
    } else if Ready(s.world, s.run.value.pc) {
      a := Advance;
      CallStep(s);
    } else {
      var e := WaitStep(s);
      a := Env(e);
    }
  }

  /** The rotation that the run works with, once it has read the Cluster resource. */
  function RotationOf(s: State): Rotation
    requires s.run.Some?
  {
    if s.run.value.pc.GetCluster? then s.world.rotation else s.run.value.rotation
  }

  /** The operation in flight has gone on from `s` to `s'` with the same inputs, and a deletion has not
      changed which objects it leaves. */
  predicate Carried(s: State, s': State) {
    && s.run.Some? && s'.run.Some? && s'.run.value.op == s.run.value.op && RotationOf(s') == RotationOf(s)
    && s'.world.rotation == s.world.rotation && s'.world.catalog == s.world.catalog
    && (s.run.value.op == Delete ==> Orphans(s'.world) == Orphans(s.world))
  }

  lemma CallKeepsOrphans(w: World, r: Run)
    requires InProgram(r.op, r.pc) && r.op == Delete
    ensures Orphans(Effect(w, r)) == Orphans(w)
  {
  }

  lemma CallCarries(s: State)
    requires s.run.Some? && InProgram(s.run.value.op, s.run.value.pc) && Enabled(s, Advance)
    ensures Carried(s, Next(s, Advance))
  {
    CallKeepsInputs(s.world, s.run.value);
    if s.run.value.op == Delete {
      CallKeepsOrphans(s.world, s.run.value);
    }
  }

  lemma EnvCarries(s: State, e: EnvStep)
    requires Inv(s) && s.run.Some? && EnvEnabled(s, e) && Helpful(Env(e))
    requires !s.run.value.op.Installs() ==> !e.ApplyShoot? && !e.ListShoot?
    ensures Carried(s, Next(s, Env(e)))
  {
  }

  lemma StepCarries(s: State, a: Step)
    requires Inv(s) && s.run.Some? && Enabled(s, a) && Helpful(a) && a != Finish
    requires !s.run.value.op.Installs() && a.Env? ==> !a.e.ApplyShoot? && !a.e.ListShoot?
    ensures Carried(s, Next(s, a))
  {
    match a
    case Advance => CallCarries(s);
    case Env(e) => EnvCarries(s, e);
    case _ =>
  }

  function Distance(s: State): (nat, nat, nat)
    requires s.run.Some?
  {
    var r := s.run.value;
    (if Rank(r.pc) <= 11 then 11 - Rank(r.pc) else 0, Pending(s.world, r), Blocked(s.world, r.pc))
  }

  /** From any state of any operation in flight there is a run of its own calls and the resource manager's
      steps alone that ends with success. */
  lemma {:induction false} CanComplete(s: State) returns (t: seq<Step>)
    requires Inv(s) && s.run.Some?
    ensures Legal(s, t) && forall a :: a in t ==> Helpful(a)
    ensures Inv(Exec(s, t)) && Carried(s, Exec(s, t)) && Enabled(Exec(s, t), Finish)
    decreases Distance(s).0, Distance(s).1, Distance(s).2
  {
    var a := SomeStep(s);
    if a == Finish {
      t := [];
    } else {
      NextKeepsInv(s, a);
      StepCarries(s, a);
      var s1 := Next(s, a);
      var u := CanComplete(s1);
      ExecCons(s, a, u);
      t := [a] + u;
    }
  }

  /** From every state between operations in which a Reconcile may be begun, it can succeed. */
  lemma InstallCompletes(s: State) returns (t: seq<Step>)
    requires Inv(s) && s.run.None? && (s.mode.Absent? || s.mode.Active?)
    ensures Legal(s, t) && |t| > 1 && t[0] == Begin(Reconcile) && forall a :: a in t[1..] ==> Helpful(a)
    ensures var s' := Exec(s, t);
            Inv(s') && s'.run.None? && s'.mode.Active? && s'.lastOk == Some(Reconcile) && Installed(s'.world) &&
            s'.confirmed == Some(s'.world.rotation.ca) &&
            s'.world.rotation == s.world.rotation && s'.world.catalog == s.world.catalog
  {
    var s1 := Next(s, Begin(Reconcile));
    NextKeepsInv(s, Begin(Reconcile));
    t := CanComplete(s1);
    CompletedInstall(s1, Exec(s1, t));
    ExecSnoc(s1, t, Finish);
    t := t + [Finish];
    ExecCons(s, Begin(Reconcile), t);
    t := [Begin(Reconcile)] + t;
  }

  lemma CompletedInstall(s: State, s1: State)
    requires s.run.Some? && s.run.value == First(Reconcile) && s.mode.Active? && Carried(s, s1)
    requires Inv(s1) && Enabled(s1, Finish)
    ensures var s' := Next(s1, Finish);
            Inv(s') && s'.run.None? && s'.mode.Active? && s'.lastOk == Some(Reconcile) && Installed(s'.world) &&
            s'.confirmed == Some(s'.world.rotation.ca) &&
            s'.world.rotation == s.world.rotation && s'.world.catalog == s.world.catalog
  {
    FinishedInstalls(s1);
    FinishKeepsInv(s1);
  }
}
