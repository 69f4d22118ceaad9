/** The lifecycle of the Extension resource in one namespace as a step machine: one step per API
    call of the controller, plus the steps of everything that runs beside it. */
module Protocol {
  import opened Wrappers
  import opened Cluster

  datatype Op = Reconcile | Restore | Delete | ForceDelete | Migrate
  {
    predicate Installs() {
      this == Reconcile || this == Restore
    }
  }

  /** What has been asked of the Extension: it decides which operation may be started next. */
  datatype Mode = Absent | Active | Deleting | Migrating | Migrated | Forced

  /** The call that an operation in flight makes next. */
  datatype Pc =
    | GetCluster
    | WriteOperatorAccess | WriteRunnerAccess | IssueCa | IssueBundle | IssueCert
    | WriteShoot | WriteSeed | AwaitSeed | AwaitShoot
    | KeepShoot | DropShoot | AwaitShootGone | DropSeed | AwaitSeedGone
    | DropOperatorAccess | DropRunnerAccess
    | Sweep | Done

  /** An operation in flight with its local variables. */
  datatype Run = Run(op: Op, pc: Pc, rotation: Rotation, replicas: nat, bundle: set<nat>, serial: nat)
  {
    function Shoot(): ShootPayload {
      ShootPayload(bundle)
    }

    function Seed(): SeedPayload {
      SeedPayload(rotation.ca, serial, replicas)
    }

    /** Secrets that the manager of this run has in its store, and so does not clean up. */
    predicate InStore(x: Secret) {
      op.Installs() &&
      match x
      case CaKey(g) => g in bundle
      case CaBundle(b) => b == bundle
      case ServerCert(signer, n) => signer == rotation.ca && n == serial
      case _ => false
    }
  }

  datatype State = State(
    world: World,
    mode: Mode,
    run: Option<Run>,
    confirmed: Option<nat>,   // CA generation of the last successful Reconcile or Restore
    lastOk: Option<Op>)       // last successful operation

  datatype EnvStep =
    // the resource manager, and in a forced deletion the gardenlet, which finalises ManagedResources
    | ApplyShoot(k: Key) | ListShoot(k: Key) | ObserveShoot | RemoveShoot(k: Key) | ReleaseShoot
    | ApplySeed | ObserveSeed | RemoveSeed | ReleaseSeed
    // the rest of the gardenlet, and the secrets manager's clock
    | StartRotation | CompleteRotation | RenewCert | SetHibernation(on: bool) | Handover
    // users of the shoot
    | CreateCustom(c: CustomResource) | DeleteCustom(c: CustomResource)

  datatype Step =
    | Begin(op: Op)
    | Advance
    | SweepOne(x: Secret)
    | Finish
    | Abort             // an error return or a crash
    | Env(e: EnvStep)

  function First(op: Op): Run {
    Run(op, GetCluster, Rotation(0, true), 0, {}, 0)
  }

  function After(op: Op, pc: Pc): Pc {
    match pc
    case GetCluster => if op.Installs() then WriteOperatorAccess else if op == Migrate then KeepShoot else DropShoot
    case WriteOperatorAccess => WriteRunnerAccess
    case WriteRunnerAccess => IssueCa
    case IssueCa => IssueBundle
    case IssueBundle => IssueCert
    case IssueCert => WriteShoot
    case WriteShoot => WriteSeed
    case WriteSeed => AwaitSeed
    case AwaitSeed => AwaitShoot
    case AwaitShoot => Sweep
    case KeepShoot => DropShoot
    case DropShoot => if op == ForceDelete then DropSeed else AwaitShootGone
    case AwaitShootGone => DropSeed
    case DropSeed => if op == ForceDelete then DropOperatorAccess else AwaitSeedGone
    case AwaitSeedGone => DropOperatorAccess
    case DropOperatorAccess => DropRunnerAccess
    case DropRunnerAccess => if op == Migrate then Done else Sweep
    case Sweep => Sweep
    case Done => Done
  }

  predicate Allowed(mode: Mode, op: Op) {
    match op
    case Reconcile => mode.Absent? || mode.Active?
    case Restore => mode.Active?
    case Delete => mode.Absent? || mode.Active? || mode.Deleting?
    case Migrate => mode.Active? || mode.Migrating?
    case ForceDelete => !mode.Migrated?
  }

  function ModeOf(op: Op): Mode {
    match op
    case Reconcile => Active
    case Restore => Active
    case Delete => Deleting
    case Migrate => Migrating
    case ForceDelete => Forced
  }

  /** A wait is over; any other call can be made at once. */
  predicate Ready(w: World, pc: Pc) {
    match pc
    case AwaitSeed => w.seedMR.Some? && w.seedMR.value.Healthy()
    case AwaitShoot => w.shootMR.Some? && w.shootMR.value.Healthy()
    case AwaitShootGone => w.shootMR.None?
    case AwaitSeedGone => w.seedMR.None?
    case _ => true
  }

  /** What the call at `r.pc` does to the cluster. */
  function Effect(w: World, r: Run): World {
    match r.pc
    case WriteOperatorAccess => w.Add(OperatorAccess)
    case WriteRunnerAccess => w.Add(RunnerAccess)
    case IssueCa => w.Add(CaKey(r.rotation.ca))
    case IssueBundle => w.Add(CaBundle(BundleFor(w.secrets, r.rotation)))
    case IssueCert => w.Add(ServerCert(r.rotation.ca, w.serial))
    case WriteShoot => w.WriteShoot(r.Shoot())
    case WriteSeed => w.WriteSeed(r.Seed())
    case KeepShoot => w.(shootMR := Kept(w.shootMR))
    case DropShoot => w.(shootMR := Marked(w.shootMR))
    case DropSeed => w.(seedMR := Marked(w.seedMR))
    case DropOperatorAccess => w.Remove(OperatorAccess)
    case DropRunnerAccess => w.Remove(RunnerAccess)
    case _ => w
  }

  /** What the call at `r.pc` brings into the local variables; the next call becomes due. */
  function Locals(w: World, r: Run): Run {
    var next := r.(pc := After(r.op, r.pc));
    match r.pc
    case GetCluster => next.(rotation := w.rotation, replicas := if w.hibernated then 0 else 1)
    case IssueBundle => next.(bundle := BundleFor(w.secrets, r.rotation))
    case IssueCert => next.(serial := w.serial)
    case _ => next
  }

  predicate Stale(w: World, r: Run, x: Secret) {
    x in w.secrets && Managed(x) && !r.InStore(x)
  }

  predicate EnvEnabled(s: State, e: EnvStep) {
    var w := s.world;
    match e
    case ApplyShoot(k) => w.shootMR.Some? && !w.shootMR.value.deleting && k in w.catalog
    case ListShoot(k) => w.shootMR.Some? && !w.shootMR.value.deleting && k in w.live
    case ObserveShoot =>
      w.shootMR.Some? && !w.shootMR.value.deleting && w.catalog <= w.inventory &&
      forall k :: k in w.catalog ==> k in w.live && w.live[k] == w.shootMR.value.payload
    case RemoveShoot(k) => w.shootMR.Some? && w.shootMR.value.deleting && !w.shootMR.value.keep && k in w.inventory
    case ReleaseShoot =>
      w.shootMR.Some? && w.shootMR.value.deleting && (w.shootMR.value.keep || w.inventory == {} || s.mode.Forced?)
    case ApplySeed => w.seedMR.Some? && !w.seedMR.value.deleting
    case ObserveSeed =>
      w.seedMR.Some? && !w.seedMR.value.deleting && w.deployment == Some(w.seedMR.value.payload)
    case RemoveSeed => w.seedMR.Some? && w.seedMR.value.deleting && !w.seedMR.value.keep
    case ReleaseSeed =>
      w.seedMR.Some? && w.seedMR.value.deleting && (w.seedMR.value.keep || w.deployment.None? || s.mode.Forced?)
    case StartRotation => w.rotation.dropOld
    case CompleteRotation => !w.rotation.dropOld && (s.mode.Absent? || s.confirmed == Some(w.rotation.ca))
    case RenewCert => true
    case SetHibernation(_) => true
    case Handover => s.mode.Migrated?
    case CreateCustom(c) => c.definition.kind.CustomResourceDefinition? && c.definition in w.live
    case DeleteCustom(c) => c in w.customs
  }

  function EnvEffect(w: World, e: EnvStep): World {
    match e
    case ApplyShoot(k) =>
      if w.shootMR.Some? then w.(live := w.live[k := w.shootMR.value.payload]) else w
    case ListShoot(k) => w.(inventory := w.inventory + {k})
    case ObserveShoot =>
      if w.shootMR.Some? then w.(shootMR := Some(w.shootMR.value.(observed := w.shootMR.value.generation))) else w
    case RemoveShoot(k) => w.RemoveLive(k)
    case ReleaseShoot => w.(shootMR := None, inventory := {})
    case ApplySeed => if w.seedMR.Some? then w.(deployment := Some(w.seedMR.value.payload)) else w
    case ObserveSeed =>
      if w.seedMR.Some? then w.(seedMR := Some(w.seedMR.value.(observed := w.seedMR.value.generation))) else w
    case RemoveSeed => w.(deployment := None)
    case ReleaseSeed => w.(seedMR := None)
    case StartRotation => w.(rotation := Rotation(w.rotation.ca + 1, false))
    case CompleteRotation => w.(rotation := w.rotation.(dropOld := true))
    case RenewCert => w.(serial := w.serial + 1)
    case SetHibernation(on) => w.(hibernated := on)
    case Handover => w.(secrets := set x | x in w.secrets && (x.CaKey? || x.Foreign?))
    case CreateCustom(c) => w.(customs := w.customs + {c})
    case DeleteCustom(c) => w.(customs := w.customs - {c})
  }

  predicate Enabled(s: State, a: Step) {
    match a
    case Begin(op) => s.run.None? && Allowed(s.mode, op)
    case Advance => s.run.Some? && !s.run.value.pc.Sweep? && !s.run.value.pc.Done? && Ready(s.world, s.run.value.pc)
    case SweepOne(x) => s.run.Some? && s.run.value.pc.Sweep? && Stale(s.world, s.run.value, x)
    case Finish =>
      s.run.Some? &&
      (s.run.value.pc.Done? ||
       (s.run.value.pc.Sweep? && forall x :: x in s.world.secrets ==> !Stale(s.world, s.run.value, x)))
    case Abort => s.run.Some?
    case Env(e) => EnvEnabled(s, e)
  }

  function Finished(s: State, r: Run): State {
    s.(run := None,
       lastOk := Some(r.op),
       confirmed := if r.op.Installs() then Some(r.rotation.ca) else s.confirmed,
       mode := if r.op == Delete then Absent else if r.op == Migrate then Migrated else s.mode)
  }

  function Next(s: State, a: Step): State
    requires Enabled(s, a)
  {
    match a
    case Begin(op) => s.(mode := ModeOf(op), run := Some(First(op)))
    case Advance => s.(world := Effect(s.world, s.run.value), run := Some(Locals(s.world, s.run.value)))
    case SweepOne(x) => s.(world := s.world.Remove(x))
    case Finish => Finished(s, s.run.value)
    case Abort => s.(run := None)
    case Env(e) => s.(world := EnvEffect(s.world, e), mode := if e.Handover? then Active else s.mode)
  }

  /** Every step of `t`, taken in order from `s`, is possible when its turn comes. */
  predicate Legal(s: State, t: seq<Step>)
    decreases |t|
  {
    t == [] || (Enabled(s, t[0]) && Legal(Next(s, t[0]), t[1..]))
  }

  function Exec(s: State, t: seq<Step>): State
    requires Legal(s, t)
    decreases |t|
  {
    if t == [] then s else Exec(Next(s, t[0]), t[1..])
  }

  /** Before the extension is first enabled: nothing of it exists, whatever the CA rotation went through. */
  predicate Pristine(s: State) {
    && s.mode.Absent? && s.run.None? && s.confirmed.None? && s.lastOk.None?
    && s.world.shootMR.None? && s.world.inventory == {} && s.world.seedMR.None?
    && s.world.live == map[] && s.world.customs == {} && s.world.deployment.None?
    && forall x :: x in s.world.secrets ==> x.Foreign?
  }

  /** The seed was restored with an old shoot MR, of which nothing is known but that it is not being
      deleted: keepObjects may be set, and its status need not list what is in the shoot. */
  predicate Inherited(s: State) {
    var w := s.world;
    && s.mode.Active? && s.run.None? && s.confirmed.None? && s.lastOk.None?
    && w.shootMR.Some? && !w.shootMR.value.deleting && w.shootMR.value.observed < w.shootMR.value.generation
    && (forall g :: g in w.shootMR.value.payload.bundle ==> g <= w.rotation.ca)
    && w.inventory <= w.live.Keys <= w.catalog && (forall c :: c in w.customs ==> c.definition in w.live)
    && w.seedMR.None? && w.deployment.None?
    && forall x :: x in w.secrets ==> x.Foreign?
  }

  predicate Initial(s: State) {
    Pristine(s) || Inherited(s)
  }

  lemma ExecCons(s: State, a: Step, t: seq<Step>)
    requires Enabled(s, a) && Legal(Next(s, a), t)
    ensures Legal(s, [a] + t) && Exec(s, [a] + t) == Exec(Next(s, a), t)
  {
    assert ([a] + t)[1..] == t;
  }

  lemma ExecSnoc(s: State, t: seq<Step>, a: Step)
    requires Legal(s, t) && Enabled(Exec(s, t), a)
    ensures Legal(s, t + [a]) && Exec(s, t + [a]) == Next(Exec(s, t), a)
  {
    assert [a][1..] == [];
    assert Legal(Exec(s, t), [a]);
    ExecAppend(s, t, [a]);
  }

  lemma {:induction false} ExecAppend(s: State, t: seq<Step>, u: seq<Step>)
    requires Legal(s, t) && Legal(Exec(s, t), u)
    ensures Legal(s, t + u) && Exec(s, t + u) == Exec(Exec(s, t), u)
    decreases |t|
  {
    if t == [] {
      assert t + u == u;
    } else {
      assert (t + u)[0] == t[0] && (t + u)[1..] == t[1..] + u;
      ExecAppend(Next(s, t[0]), t[1..], u);
    }
  }

  lemma {:induction false} ExecSplit(s: State, t: seq<Step>, i: nat)
    requires Legal(s, t) && i <= |t|
    ensures Legal(s, t[..i]) && Legal(Exec(s, t[..i]), t[i..]) && Exec(s, t) == Exec(Exec(s, t[..i]), t[i..])
    decreases i
  {
    if i == 0 {
      assert t[..0] == [] && t[0..] == t;
    } else {
      assert t[..i][0] == t[0] && t[..i][1..] == t[1..][..i - 1] && t[1..][i - 1..] == t[i..];
      ExecSplit(Next(s, t[0]), t[1..], i - 1);
    }
  }
}
