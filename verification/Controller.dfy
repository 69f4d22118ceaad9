/** The controller's code over an API server that others change at any time and whose calls may fail.
    Each method is shown to take only steps of the protocol, in the protocol's order; so what holds of
    every run holds of these programs. */
module Controller {
  import opened Wrappers
  import opened Cluster
  import opened Protocol
  import opened Invariant
  import opened Convergence

  /** Two minutes, in milliseconds. */
  const TIMEOUT: nat := 120_000

  /** A call does nothing and fails, takes effect but is reported as failed, or succeeds. */
  datatype Reply = Refused | ReplyLost | Answered

  /** The deadline of context.WithTimeout under an optional deadline of the parent. */
  function Deadline(parent: Option<nat>, now: nat): nat {
    match parent
    case None => now + TIMEOUT
    case Some(d) => if d < now + TIMEOUT then d else now + TIMEOUT
  }

  /** Time left until a deadline. */
  function Left(deadline: nat, now: nat): nat {
    if now < deadline then deadline - now else 0
  }

  /** The client of the API server, with the clock. */
  class Client {
    var state: State
    var now: nat
    var waited: nat                  // time spent blocked in waits
    ghost var faults: nat            // calls that failed, and whatever else went wrong
    ghost const origin: State
    ghost var history: seq<Step>     // all steps since `origin`

    ghost predicate Valid()
      reads this
    {
      Inv(origin) && Legal(origin, history) && Exec(origin, history) == state
    }

    constructor (s: State)
      requires Inv(s)
      ensures Valid() && state == s
    {
      state, now, waited, faults, origin, history := s, 0, 0, 0, s, [];
    }

    lemma StateInv()
      requires Valid()
      ensures Inv(state)
    {
      ExecKeepsInv(origin, history);
    }

    /** The operation in flight is at `pc`. */
    predicate At(pc: Pc)
      reads this
    {
      state.run.Some? && state.run.value.pc == pc
    }

    /** The operation goes on: history and time have only grown. */
    twostate predicate Continues()
      reads this
    {
      && Valid()
      && old(history) <= history && old(now) <= now && old(faults) <= faults
      && old(state.run.Some?) && state.run.Some? && state.run.value.op == old(state.run.value.op)
    }

    /** At most `most` has been spent waiting, and not more than the parent's deadline left: what is
        waited is taken from what is left. */
    twostate predicate Waits(most: nat, parent: Option<nat>)
      reads this
    {
      waited - old(waited) <= most &&
      (parent.Some? ==> waited + Left(parent.value, now) <= old(waited) + Left(parent.value, old(now)))
    }

    /** Nothing went wrong. */
    twostate predicate Faultless()
      reads this
    {
      faults == old(faults)
    }

    /** Two minutes have passed since some time within the call, or the parent's deadline has come. */
    twostate predicate TimedOut(parent: Option<nat>)
      reads this
    {
      old(now) + 120_000 <= now || (parent.Some? && parent.value <= now)
    }

    /** What Wait waits for. */
    predicate BothHealthy()
      reads this
    {
      Ready(state.world, AwaitSeed) && Ready(state.world, AwaitShoot)
    }

    /** What Destroy waits for. */
    predicate BothGone()
      reads this
    {
      state.world.shootMR.None? && state.world.seedMR.None?
    }

    method Record(a: Step, next: State)
      requires Valid() && Enabled(state, a) && next == Next(state, a)
      modifies this`state, this`history
      ensures Valid() && state == next && history == old(history) + [a]
    {
      ExecSnoc(origin, history, a);
      history := history + [a];
      state := next;
    }

    /** Anything that can happen beside the controller happens here, any number of times. */
    method Interfere()
      requires Valid()
      modifies this`state, this`history
      ensures Valid() && old(history) <= history && state.run == old(state.run)
      ensures state.run.Some? ==>
                state.mode == old(state.mode) && state.lastOk == old(state.lastOk) &&
                state.world.secrets == old(state.world.secrets)
    {
      var n: int := *;
      while n > 0
        invariant Valid() && old(history) <= history && state.run == old(state.run)
        invariant state.run.Some? ==>
                    state.mode == old(state.mode) && state.lastOk == old(state.lastOk) &&
                    state.world.secrets == old(state.world.secrets)
      {
        var e: EnvStep := *;
        StateInv();
        if EnvEnabled(state, e) {
          Record(Env(e), Next(state, Env(e)));
        }
        n := n - 1;
      }
    }

    /** The round trip of a call. */
    method RoundTrip() returns (reply: Reply)
      requires Valid()
      modifies this`state, this`history, this`now, this`faults
      ensures Valid() && old(history) <= history && state.run == old(state.run) && old(now) <= now
      ensures old(faults) <= faults && (reply.Answered? <==> Faultless())
      ensures state.run.Some? ==>
                state.mode == old(state.mode) && state.lastOk == old(state.lastOk) &&
                state.world.secrets == old(state.world.secrets)
    {
      var latency: int := *;
      now := now + if latency < 0 then 0 else latency;
      Interfere();
      reply := *;
      if !reply.Answered? {
        faults := faults + 1;
      }
    }

    /** The due call has had the effect `w` and brought the locals of `r`. */
    method Commit(w: World, r: Run)
      requires Valid() && Enabled(state, Advance)
      requires w == Effect(state.world, state.run.value) && r == Locals(state.world, state.run.value)
      modifies this`state, this`history
      ensures Valid() && old(history) <= history
      ensures state == old(state).(world := w, run := Some(r))
    {
      Record(Advance, state.(world := w, run := Some(r)));
    }

    method GetCluster() returns (ok: bool, rotation: Rotation, replicas: nat)
      requires Valid() && At(Pc.GetCluster)
      modifies this`state, this`history, this`now, this`faults
      ensures Continues() && state.world.secrets == old(state.world.secrets)
      ensures ok <==> Faultless()
      ensures ok ==> state.run.value == old(state.run.value).(
                pc := After(state.run.value.op, Pc.GetCluster), rotation := rotation, replicas := replicas)
    {
      rotation, replicas := Rotation(0, true), 0;
      var reply := RoundTrip();
      if reply.Refused? {
        return false, rotation, replicas;
      }
      rotation, replicas := state.world.rotation, if state.world.hibernated then 0 else 1;
      var r := state.run.value;
      Commit(state.world, r.(pc := After(r.op, Pc.GetCluster), rotation := rotation, replicas := replicas));
      ok := reply.Answered?;
    }

    /** AccessSecret.Reconcile */
    method ReconcileAccessSecret(x: Secret) returns (ok: bool)
      requires Valid()
      requires (At(WriteOperatorAccess) && x == OperatorAccess) || (At(WriteRunnerAccess) && x == RunnerAccess)
      modifies this`state, this`history, this`now, this`faults
      ensures Continues()
      ensures ok <==> Faultless()
      ensures ok ==> state.run.value == old(state.run.value).(pc := After(state.run.value.op, old(state.run.value.pc)))
    {
      var reply := RoundTrip();
      if reply.Refused? {
        return false;
      }
      var r := state.run.value;
      Commit(state.world.Add(x), r.(pc := After(r.op, r.pc)));
      ok := reply.Answered?;
    }

    /** Secrets manager: generate the CA */
    method GenerateCa(rotation: Rotation) returns (ok: bool)
      requires Valid() && At(IssueCa) && rotation == state.run.value.rotation
      modifies this`state, this`history, this`now, this`faults
      ensures Continues()
      ensures ok <==> Faultless()
      ensures ok ==> state.run.value == old(state.run.value).(pc := IssueBundle)
    {
      var reply := RoundTrip();
      if reply.Refused? {
        return false;
      }
      Commit(state.world.Add(CaKey(rotation.ca)), state.run.value.(pc := IssueBundle));
      ok := reply.Answered?;
    }

    /** Secrets manager: generate the bundle of the current CA and the kept old one */
    method GenerateBundle(rotation: Rotation) returns (ok: bool, bundle: set<nat>)
      requires Valid() && At(IssueBundle) && rotation == state.run.value.rotation
      modifies this`state, this`history, this`now, this`faults
      ensures Continues()
      ensures ok <==> Faultless()
      ensures ok ==> state.run.value == old(state.run.value).(pc := IssueCert, bundle := bundle)
    {
      bundle := {};
      var reply := RoundTrip();
      if reply.Refused? {
        return false, bundle;
      }
      bundle := BundleFor(state.world.secrets, rotation);
      Commit(state.world.Add(CaBundle(bundle)), state.run.value.(pc := IssueCert, bundle := bundle));
      ok := reply.Answered?;
    }

    /** Secrets manager: generate the server certificate, signed by the current CA */
    method GenerateServerCert(rotation: Rotation) returns (ok: bool, serial: nat)
      requires Valid() && At(IssueCert) && rotation == state.run.value.rotation
      modifies this`state, this`history, this`now, this`faults
      ensures Continues()
      ensures ok <==> Faultless()
      ensures ok ==> state.run.value == old(state.run.value).(pc := Pc.WriteShoot, serial := serial)
    {
      serial := 0;
      var reply := RoundTrip();
      if reply.Refused? {
        return false, serial;
      }
      serial := state.world.serial;
      Commit(state.world.Add(ServerCert(rotation.ca, serial)), state.run.value.(pc := Pc.WriteShoot, serial := serial));
      ok := reply.Answered?;
    }

    method CreateForShoot(p: ShootPayload) returns (ok: bool)
      requires Valid() && At(Pc.WriteShoot) && p == state.run.value.Shoot()
      modifies this`state, this`history, this`now, this`faults
      ensures Continues()
      ensures ok <==> Faultless()
      ensures ok ==> state.run.value == old(state.run.value).(pc := Pc.WriteSeed)
    {
      var reply := RoundTrip();
      if reply.Refused? {
        return false;
      }
      Commit(state.world.WriteShoot(p), state.run.value.(pc := Pc.WriteSeed));
      ok := reply.Answered?;
    }

    method CreateForSeed(p: SeedPayload) returns (ok: bool)
      requires Valid() && At(Pc.WriteSeed) && p == state.run.value.Seed()
      modifies this`state, this`history, this`now, this`faults
      ensures Continues()
      ensures ok <==> Faultless()
      ensures ok ==> state.run.value == old(state.run.value).(pc := AwaitSeed)
    {
      var reply := RoundTrip();
      if reply.Refused? {
        return false;
      }
      Commit(state.world.WriteSeed(p), state.run.value.(pc := AwaitSeed));
      ok := reply.Answered?;
    }

    /** SetKeepObjects(true) on the shoot MR; none there is no error */
    method SetKeepObjects() returns (ok: bool)
      requires Valid() && At(KeepShoot)
      modifies this`state, this`history, this`now, this`faults
      ensures Continues() && state.world.secrets == old(state.world.secrets)
      ensures ok <==> Faultless()
      ensures ok ==> At(DropShoot)
    {
      var reply := RoundTrip();
      if reply.Refused? {
        return false;
      }
      Commit(state.world.(shootMR := Kept(state.world.shootMR)), state.run.value.(pc := DropShoot));
      ok := reply.Answered?;
    }

    method DeleteForShoot() returns (ok: bool)
      requires Valid() && At(DropShoot)
      modifies this`state, this`history, this`now, this`faults
      ensures Continues() && state.world.secrets == old(state.world.secrets)
      ensures ok <==> Faultless()
      ensures ok ==> At(After(state.run.value.op, DropShoot))
    {
      var reply := RoundTrip();
      if reply.Refused? {
        return false;
      }
      var r := state.run.value;
      Commit(state.world.(shootMR := Marked(state.world.shootMR)), r.(pc := After(r.op, DropShoot)));
      ok := reply.Answered?;
    }

    method DeleteForSeed() returns (ok: bool)
      requires Valid() && At(DropSeed)
      modifies this`state, this`history, this`now, this`faults
      ensures Continues() && state.world.secrets == old(state.world.secrets)
      ensures ok <==> Faultless()
      ensures ok ==> At(After(state.run.value.op, DropSeed))
    {
      var reply := RoundTrip();
      if reply.Refused? {
        return false;
      }
      var r := state.run.value;
      Commit(state.world.(seedMR := Marked(state.world.seedMR)), r.(pc := After(r.op, DropSeed)));
      ok := reply.Answered?;
    }

    /** Delete an access secret; none there is no error */
    method DeleteAccessSecret(x: Secret) returns (ok: bool)
      requires Valid()
      requires (At(DropOperatorAccess) && x == OperatorAccess) || (At(DropRunnerAccess) && x == RunnerAccess)
      modifies this`state, this`history, this`now, this`faults
      ensures Continues() && ManagedSecrets(state.world) == old(ManagedSecrets(state.world))
      ensures ok <==> Faultless()
      ensures ok ==> At(if x == OperatorAccess then DropRunnerAccess else After(state.run.value.op, DropRunnerAccess))
    {
      var reply := RoundTrip();
      if reply.Refused? {
        return false;
      }
      var r := state.run.value;
      Commit(state.world.Remove(x), r.(pc := After(r.op, r.pc)));
      ok := reply.Answered?;
    }

    /** Delete one secret during the manager's clean-up */
    method DeleteSecret(x: Secret) returns (ok: bool)
      requires Valid() && At(Sweep) && Stale(state.world, state.run.value, x)
      modifies this`state, this`history, this`now, this`faults
      ensures Continues() && state.run == old(state.run)
      ensures ok <==> Faultless()
      ensures ok ==> state.world.secrets == old(state.world.secrets) - {x}
    {
      var reply := RoundTrip();
      if reply.Refused? {
        return false;
      }
      Record(SweepOne(x), state.(world := state.world.Remove(x)));
      ok := reply.Answered?;
    }

    /** WaitUntilHealthy and WaitUntilDeleted: poll until the wait for `pc` is over, an error occurs
        or the deadline has come. */
    method WaitUntilReady(pc: Pc, deadline: nat) returns (ok: bool)
      requires Valid() && At(pc)
      requires pc == AwaitSeed || pc == AwaitShoot || pc == AwaitShootGone || pc == AwaitSeedGone
      modifies this
      ensures Continues() && state.world.secrets == old(state.world.secrets)
      ensures ok ==> state.run.value == old(state.run.value).(pc := After(state.run.value.op, pc))
      ensures ok ==> Faultless()
      ensures !ok ==> !Faultless() || (state.run == old(state.run) && !Ready(state.world, pc) && deadline <= now)
      ensures waited - old(waited) == now - old(now) <= Left(deadline, old(now))
    {
      while true
        invariant Continues() && state.run == old(state.run) && Faultless()
        invariant state.world.secrets == old(state.world.secrets)
        invariant waited - old(waited) == now - old(now) <= Left(deadline, old(now))
        decreases Left(deadline, now)
      {
        Interfere();
        var severe: bool := *;
        if severe {
          faults := faults + 1;
          return false;
        }
        if Ready(state.world, pc) {
          Commit(state.world, state.run.value.(pc := After(state.run.value.op, pc)));
          return true;
        }
        if now >= deadline {
          return false;
        }
        var interval: int := *;
        var pause := if interval <= 0 then 1 else if interval < deadline - now then interval else deadline - now;
        now := now + pause;
        waited := waited + pause;
      }
    }
  }

  /** The secrets manager of one run: the secrets in its store survive its clean-up. */
  class SecretsManager {
    const client: Client
    const rotation: Rotation
    var store: set<Secret>

    constructor (client: Client, rotation: Rotation)
      ensures this.client == client && this.rotation == rotation && store == {}
    {
      this.client := client;
      this.rotation := rotation;
      store := {};
    }

    ghost predicate Agrees()
      reads this, client
    {
      client.state.run.Some? && forall x :: Managed(x) ==> (x in store <==> client.state.run.value.InStore(x))
    }

    method GenerateAllSecrets() returns (ok: bool, bundle: set<nat>, serial: nat)
      requires client.Valid() && client.At(IssueCa) && client.state.run.value.op.Installs()
      requires rotation == client.state.run.value.rotation
      modifies this, client`state, client`history, client`now, client`faults
      ensures client.Continues()
      ensures ok <==> client.Faultless()
      ensures ok ==> Agrees() &&
                     client.state.run.value ==
                       old(client.state.run.value).(pc := Pc.WriteShoot, bundle := bundle, serial := serial)
    {
      bundle, serial := {}, 0;
      ok := client.GenerateCa(rotation);
      if !ok {
        return;
      }
      ok, bundle := client.GenerateBundle(rotation);
      if !ok {
        return;
      }
      ok, serial := client.GenerateServerCert(rotation);
      if !ok {
        return;
      }
      store := (set g | g in bundle :: CaKey(g)) + {CaBundle(bundle), ServerCert(rotation.ca, serial)};
    }

    method Cleanup() returns (ok: bool)
      requires client.Valid() && client.At(Sweep) && Agrees()
      modifies client`state, client`history, client`now, client`faults
      ensures client.Continues()
      ensures ok <==> client.Faultless()
      ensures ok ==> Enabled(client.state, Finish)
    {
      var pending := set x | x in client.state.world.secrets && Managed(x) && x !in store;
      while pending != {}
        invariant client.Continues() && client.state.run == old(client.state.run) && client.Faultless()
        invariant pending == set x | x in client.state.world.secrets && Managed(x) && x !in store
        decreases |pending|
      {
        var x :| x in pending;
        ok := client.DeleteSecret(x);
        if !ok {
          return;
        }
        pending := pending - {x};
      }
      forall x | x in client.state.world.secrets
        ensures !Stale(client.state.world, client.state.run.value, x)
      {
        assert x !in pending;
      }
      ok := true;
    }
  }

  /** The diki-operator component. */
  class Component {
    const client: Client
    const shoot: ShootPayload
    const seed: SeedPayload

    constructor (client: Client, shoot: ShootPayload, seed: SeedPayload)
      ensures this.client == client && this.shoot == shoot && this.seed == seed
    {
      this.client, this.shoot, this.seed := client, shoot, seed;
    }

    /** Objects are rendered and serialised, which may fail and changes nothing. */
    method Rendered() returns (ok: bool)
      modifies client`faults
      ensures old(client.faults) <= client.faults && (ok <==> client.Faultless())
    {
      ok := *;
      if !ok {
        client.faults := client.faults + 1;
      }
    }

    /** The shoot MR is stored before the seed MR. */
    method Deploy() returns (ok: bool)
      requires client.Valid() && client.At(Pc.WriteShoot)
      requires shoot == client.state.run.value.Shoot() && seed == client.state.run.value.Seed()
      modifies client`state, client`history, client`now, client`faults
      ensures client.Continues()
      ensures ok <==> client.Faultless()
      ensures ok ==> client.state.run.value == old(client.state.run.value).(pc := AwaitSeed)
    {
      ok := Rendered();
      if !ok {
        return;
      }
      ok := client.CreateForShoot(shoot);
      if !ok {
        return;
      }
      ok := Rendered();
      if !ok {
        return;
      }
      ok := client.CreateForSeed(seed);
    }

    /** Both health checks share one deadline. */
    method Wait(parent: Option<nat>) returns (ok: bool)
      requires client.Valid() && client.At(AwaitSeed)
      modifies client
      ensures client.Continues()
      ensures ok ==> client.Faultless()
      ensures !ok ==> !client.Faultless() || (client.TimedOut(parent) && !client.BothHealthy())
      ensures ok ==> client.state.run.value == old(client.state.run.value).(pc := Sweep)
      ensures client.Waits(120_000, parent)
    {
      var deadline := Deadline(parent, client.now);
      ok := client.WaitUntilReady(AwaitSeed, deadline);
      if !ok {
        return;
      }
      ok := client.WaitUntilReady(AwaitShoot, deadline);
    }

    /** Delete the shoot MR, and unless the deletion is forced wait until it is gone. */
    method DestroyShoot(forceDelete: bool, parent: Option<nat>) returns (ok: bool)
      requires client.Valid() && client.At(DropShoot) && (forceDelete <==> client.state.run.value.op == ForceDelete)
      modifies client
      ensures client.Continues() && client.state.world.secrets == old(client.state.world.secrets)
      ensures ok ==> client.Faultless()
      ensures !ok ==> !client.Faultless() || (!forceDelete && client.TimedOut(parent) && !client.BothGone())
      ensures ok ==> client.At(DropSeed)
      ensures client.Waits(if forceDelete then 0 else 120_000, parent)
    {
      ok := client.DeleteForShoot();
      if !ok || forceDelete {
        return;
      }
      ok := client.WaitUntilReady(AwaitShootGone, Deadline(parent, client.now));
    }

    /** The same for the seed MR, with a fresh deadline. */
    method DestroySeed(forceDelete: bool, parent: Option<nat>) returns (ok: bool)
      requires client.Valid() && client.At(DropSeed) && (forceDelete <==> client.state.run.value.op == ForceDelete)
      modifies client
      ensures client.Continues() && client.state.world.secrets == old(client.state.world.secrets)
      ensures ok ==> client.Faultless()
      ensures !ok ==> !client.Faultless() || (!forceDelete && client.TimedOut(parent) && !client.BothGone())
      ensures ok ==> client.At(DropOperatorAccess)
      ensures client.Waits(if forceDelete then 0 else 120_000, parent)
    {
      ok := client.DeleteForSeed();
      if !ok || forceDelete {
        return;
      }
      ok := client.WaitUntilReady(AwaitSeedGone, Deadline(parent, client.now));
    }

    /** The shoot MR is gone before the seed MR is deleted, unless the deletion is forced. */
    method Destroy(forceDelete: bool, parent: Option<nat>) returns (ok: bool)
      requires client.Valid() && client.At(DropShoot) && (forceDelete <==> client.state.run.value.op == ForceDelete)
      modifies client
      ensures client.Continues() && client.state.world.secrets == old(client.state.world.secrets)
      ensures ok ==> client.Faultless()
      ensures !ok ==> !client.Faultless() || (!forceDelete && client.TimedOut(parent) && !client.BothGone())
      ensures ok ==> client.At(DropOperatorAccess)
      ensures client.Waits(if forceDelete then 0 else 240_000, parent)
    {
      ok := DestroyShoot(forceDelete, parent);
      if !ok {
        return;
      }
      ok := DestroySeed(forceDelete, parent);
    }
  }

  class Actuator {
    const client: Client

    constructor (client: Client)
      ensures this.client == client
    {
      this.client := client;
    }

    method Start(op: Op)
      requires client.Valid() && Enabled(client.state, Begin(op))
      modifies client`state, client`history
      ensures client.Valid() && client.history == old(client.history) + [Begin(op)]
      ensures client.state == old(client.state).(mode := ModeOf(op), run := Some(First(op)))
    {
      client.Record(Begin(op), Next(client.state, Begin(op)));
    }

    /** The operation returns: successfully, or with an error. */
    method Return(ok: bool)
      requires client.Valid() && client.state.run.Some?
      requires ok ==> Enabled(client.state, Finish)
      modifies client`state, client`history
      ensures client.Valid() && client.history == old(client.history) + [if ok then Finish else Abort]
      ensures client.state == if ok then Finished(old(client.state), old(client.state.run.value))
                              else old(client.state).(run := None)
    {
      if ok {
        client.Record(Finish, Next(client.state, Finish));
      } else {
        client.Record(Abort, Next(client.state, Abort));
      }
    }

    /** Reconcile, and Restore, which calls it. */
    method Reconcile(op: Op, parent: Option<nat>) returns (ok: bool)
      requires client.Valid() && op.Installs() && Enabled(client.state, Begin(op))
      modifies client
      ensures client.Valid() && client.state.run.None? && client.state.mode.Active?
      ensures old(client.history) + [Begin(op)] < client.history
      ensures client.history[|client.history| - 1] == if ok then Finish else Abort
      ensures ok ==> Installed(client.state.world) && client.state.lastOk == Some(op) && client.Faultless()
      ensures !ok ==> !client.Faultless() || (client.TimedOut(parent) && !client.BothHealthy())
      ensures client.Waits(120_000, parent)
    {
      Start(op);
      ok := Install(parent);
      client.StateInv();
      if ok {
        FinishedInstalls(client.state);
      }
      Return(ok);
    }

    /** newComponent fails when the image vector has no image. */
    method FindImage() returns (ok: bool)
      modifies client`faults
      ensures old(client.faults) <= client.faults && (ok <==> client.Faultless())
    {
      ok := *;
      if !ok {
        client.faults := client.faults + 1;
      }
    }

    /** Access secrets and the secrets manager's secrets. */
    method ProvideSecrets() returns (ok: bool, manager: SecretsManager, replicas: nat, bundle: set<nat>, serial: nat)
      requires client.Valid() && client.At(Pc.GetCluster) && client.state.run.value.op.Installs()
      modifies client`state, client`history, client`now, client`faults
      ensures client.Continues() && manager.client == client && fresh(manager)
      ensures ok <==> client.Faultless()
      ensures ok ==> manager.Agrees() && client.At(Pc.WriteShoot) &&
                     client.state.run.value.Shoot() == ShootPayload(bundle) &&
                     client.state.run.value.Seed() == SeedPayload(manager.rotation.ca, serial, replicas)
    {
      var rotation;
      bundle, serial := {}, 0;
      ok, rotation, replicas := client.GetCluster();
      manager := new SecretsManager(client, rotation);
      if !ok {
        return;
      }
      ok := client.ReconcileAccessSecret(OperatorAccess);
      if !ok {
        return;
      }
      ok := client.ReconcileAccessSecret(RunnerAccess);
      if !ok {
        return;
      }
      ok, bundle, serial := manager.GenerateAllSecrets();
    }

    method Install(parent: Option<nat>) returns (ok: bool)
      requires client.Valid() && client.At(Pc.GetCluster) && client.state.run.value.op.Installs()
      modifies client
      ensures client.Continues()
      ensures ok ==> Enabled(client.state, Finish) && client.Faultless()
      ensures !ok ==> !client.Faultless() || (client.TimedOut(parent) && !client.BothHealthy())
      ensures client.Waits(120_000, parent)
    {
      var manager, replicas, bundle, serial;
      ok, manager, replicas, bundle, serial := ProvideSecrets();
      if !ok {
        return;
      }
      var image := FindImage();
      if !image {
        return false;
      }
      var comp := new Component(client, ShootPayload(bundle), SeedPayload(manager.rotation.ca, serial, replicas));
      ok := RollOut(comp, manager, parent);
    }

    /** Deploy, wait, clean up. */
    method RollOut(comp: Component, manager: SecretsManager, parent: Option<nat>) returns (ok: bool)
      requires client.Valid() && client.At(Pc.WriteShoot) && client.state.run.value.op.Installs()
      requires comp.client == client
      requires comp.shoot == client.state.run.value.Shoot() && comp.seed == client.state.run.value.Seed()
      requires manager.client == client && manager.Agrees()
      modifies client
      ensures client.Continues()
      ensures ok ==> Enabled(client.state, Finish) && client.Faultless()
      ensures !ok ==> !client.Faultless() || (client.TimedOut(parent) && !client.BothHealthy())
      ensures client.Waits(120_000, parent)
    {
      ok := comp.Deploy();
      if !ok {
        return;
      }
      ok := comp.Wait(parent);
      if !ok {
        return;
      }
      ok := manager.Cleanup();
    }

    /** Delete, ForceDelete and Migrate. */
    method Delete(skipSecretsManagerCleanup: bool, forceDelete: bool, parent: Option<nat>) returns (ok: bool)
      requires client.Valid() && !(skipSecretsManagerCleanup && forceDelete)
      requires Enabled(client.state, Begin(OpFor(skipSecretsManagerCleanup, forceDelete)))
      modifies client
      ensures client.Valid() && client.state.run.None?
      ensures old(client.history) + [Begin(OpFor(skipSecretsManagerCleanup, forceDelete))] < client.history
      ensures client.history[|client.history| - 1] == if ok then Finish else Abort
      ensures ok ==> client.state.lastOk == Some(OpFor(skipSecretsManagerCleanup, forceDelete)) && client.Faultless()
      ensures !ok ==> !client.Faultless() || (!forceDelete && client.TimedOut(parent) && !client.BothGone())
      ensures ok && !forceDelete ==>
                client.state.world.shootMR.None? && client.state.world.seedMR.None? && client.state.world.deployment.None?
      ensures ok && forceDelete ==>
                (client.state.world.shootMR.Some? ==> client.state.world.shootMR.value.deleting) &&
                (client.state.world.seedMR.Some? ==> client.state.world.seedMR.value.deleting)
      ensures ok && !skipSecretsManagerCleanup ==> Own(client.state.world.secrets) == {}
      ensures ok && skipSecretsManagerCleanup ==>
                OperatorAccess !in client.state.world.secrets && RunnerAccess !in client.state.world.secrets
      ensures skipSecretsManagerCleanup ==> ManagedSecrets(client.state.world) == old(ManagedSecrets(client.state.world))
      ensures client.Waits(if forceDelete then 0 else 240_000, parent)
    {
      var op := OpFor(skipSecretsManagerCleanup, forceDelete);
      Start(op);
      ok := Uninstall(skipSecretsManagerCleanup, forceDelete, parent);
      if ok {
        client.StateInv();
        if op == Op.Delete {
          FinishedDelete(client.state);
        } else if op == ForceDelete {
          FinishedForceDelete(client.state);
        } else {
          FinishedMigrate(client.state);
        }
      }
      Return(ok);
    }

    static function OpFor(skipSecretsManagerCleanup: bool, forceDelete: bool): Op {
      if skipSecretsManagerCleanup then Migrate else if forceDelete then ForceDelete else Op.Delete
    }

    /** Everything up to the access secrets. */
    method TearDown(skipSecretsManagerCleanup: bool, forceDelete: bool, parent: Option<nat>)
      returns (ok: bool, rotation: Rotation)
      requires client.Valid() && client.At(Pc.GetCluster) && !(skipSecretsManagerCleanup && forceDelete)
      requires client.state.run.value.op == OpFor(skipSecretsManagerCleanup, forceDelete)
      modifies client
      ensures client.Continues() && client.state.world.secrets == old(client.state.world.secrets)
      ensures ok ==> client.At(DropOperatorAccess) && client.Faultless()
      ensures !ok ==> !client.Faultless() || (!forceDelete && client.TimedOut(parent) && !client.BothGone())
      ensures client.Waits(if forceDelete then 0 else 240_000, parent)
    {
      var replicas;
      ok, rotation, replicas := client.GetCluster();
      if !ok {
        return;
      }
      ok := FindImage();
      if !ok {
        return;
      }
      if skipSecretsManagerCleanup {
        ok := client.SetKeepObjects();
        if !ok {
          return;
        }
      }
      var comp := new Component(client, ShootPayload({}), SeedPayload(0, 0, 0));
      ok := comp.Destroy(forceDelete, parent);
    }

    /** The access secrets, and unless they are to be kept the secrets manager's secrets. */
    method DropSecrets(skipSecretsManagerCleanup: bool, rotation: Rotation) returns (ok: bool)
      requires client.Valid() && client.At(DropOperatorAccess) && !client.state.run.value.op.Installs()
      requires skipSecretsManagerCleanup <==> client.state.run.value.op == Migrate
      modifies client`state, client`history, client`now, client`faults
      ensures client.Continues()
      ensures ok <==> client.Faultless()
      ensures ok ==> Enabled(client.state, Finish)
      ensures skipSecretsManagerCleanup ==> ManagedSecrets(client.state.world) == old(ManagedSecrets(client.state.world))
    {
      ok := client.DeleteAccessSecret(OperatorAccess);
      if !ok {
        return;
      }
      ok := client.DeleteAccessSecret(RunnerAccess);
      if !ok || skipSecretsManagerCleanup {
        return;
      }
      ok := DropManaged(rotation);
    }

    /** A secrets manager that has nothing in its store cleans up. */
    method DropManaged(rotation: Rotation) returns (ok: bool)
      requires client.Valid() && client.At(Sweep) && !client.state.run.value.op.Installs()
      modifies client`state, client`history, client`now, client`faults
      ensures client.Continues()
      ensures ok <==> client.Faultless()
      ensures ok ==> Enabled(client.state, Finish)
    {
      var manager := new SecretsManager(client, rotation);
      ok := manager.Cleanup();
    }

    method Uninstall(skipSecretsManagerCleanup: bool, forceDelete: bool, parent: Option<nat>) returns (ok: bool)
      requires client.Valid() && client.At(Pc.GetCluster) && !(skipSecretsManagerCleanup && forceDelete)
      requires client.state.run.value.op == OpFor(skipSecretsManagerCleanup, forceDelete)
      modifies client
      ensures client.Continues()
      ensures ok ==> Enabled(client.state, Finish) && client.Faultless()
      ensures !ok ==> !client.Faultless() || (!forceDelete && client.TimedOut(parent) && !client.BothGone())
      ensures skipSecretsManagerCleanup ==> ManagedSecrets(client.state.world) == old(ManagedSecrets(client.state.world))
      ensures client.Waits(if forceDelete then 0 else 240_000, parent)
    {
      var rotation;
      ok, rotation := TearDown(skipSecretsManagerCleanup, forceDelete, parent);
      if ok {
        ok := DropSecrets(skipSecretsManagerCleanup, rotation);
      }
    }
  }
}
