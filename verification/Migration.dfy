/** Control-plane migration: what Migrate and the Restore after it must not touch. */
module Migration {
  import opened Wrappers
  import opened Cluster
  import opened Protocol
  import opened Invariant

  function ByUser(cs: set<CustomResource>, a: Step): set<CustomResource> {
    match a
    case Env(CreateCustom(c)) => cs + {c}
    case Env(DeleteCustom(c)) => cs - {c}
    case _ => cs
  }

  /** The custom resources after the users' own steps of `t`, and nothing else, have acted on `cs`. */
  function ByUsers(cs: set<CustomResource>, t: seq<Step>): set<CustomResource>
    decreases |t|
  {
    if t == [] then cs else ByUsers(ByUser(cs, t[0]), t[1..])
  }

  predicate Deletes(a: Step) {
    a == Begin(Delete) || a == Begin(ForceDelete)
  }

  /** In these modes the extension stays in the shoot, whichever seed it is managed from. */
  predicate Staying(mode: Mode) {
    mode.Active? || mode.Migrating? || mode.Migrated?
  }

  /** The controller's own calls never reach into the shoot; the resource manager does. */
  lemma CallsLeaveShoot(w: World, r: Run)
    ensures Effect(w, r).live == w.live && Effect(w, r).customs == w.customs
  {
  }

  lemma StayingEnvStep(s: State, e: EnvStep)
    requires Inv(s) && Staying(s.mode) && EnvEnabled(s, e)
    ensures var w, w' := s.world, EnvEffect(s.world, e);
            w.live.Keys <= w'.live.Keys && w'.customs == ByUser(w.customs, Env(e))
  {
  }

  lemma StayingStep(s: State, a: Step)
    requires Inv(s) && Staying(s.mode) && Enabled(s, a) && !Deletes(a)
    ensures var s' := Next(s, a);
            Staying(s'.mode) && s.world.live.Keys <= s'.world.live.Keys &&
            s'.world.customs == ByUser(s.world.customs, a)
  {
    match a
    case Env(e) => StayingEnvStep(s, e);
    case Advance => CallsLeaveShoot(s.world, s.run.value);
    case _ =>
  }

  /** Without a deletion, over any number of reconciliations and migrations, failed or not, no object
      is removed from the shoot, and custom resources change by their users' hands alone. */
  lemma {:induction false} MigrationContinuity(s: State, t: seq<Step>)
    requires Inv(s) && Staying(s.mode) && Legal(s, t)
    requires forall a :: a in t ==> !Deletes(a)
    ensures var s' := Exec(s, t);
            Staying(s'.mode) && s.world.live.Keys <= s'.world.live.Keys &&
            s'.world.customs == ByUsers(s.world.customs, t)
    decreases |t|
  {
    if t != [] {
      assert t[0] in t;
      NextKeepsInv(s, t[0]);
      StayingStep(s, t[0]);
      MigrationContinuity(Next(s, t[0]), t[1..]);
    }
  }

  /** From the start of Migrate up to the handover, retries and crashes included, the secrets manager's
      secrets stay as they are. */
  lemma {:induction false} MigrateKeepsManagedSecrets(s: State, t: seq<Step>)
    requires Inv(s) && (s.mode.Migrating? || s.mode.Migrated?) && Legal(s, t)
    requires Begin(ForceDelete) !in t && Env(Handover) !in t
    ensures var s' := Exec(s, t);
            (s'.mode.Migrating? || s'.mode.Migrated?) && ManagedSecrets(s'.world) == ManagedSecrets(s.world)
    decreases |t|
  {
    if t != [] {
      assert t[0] in t;
      NextKeepsInv(s, t[0]);
      MigrateStepKeepsManaged(s, t[0]);
      MigrateKeepsManagedSecrets(Next(s, t[0]), t[1..]);
    }
  }

  lemma MigrateCallKeepsManaged(s: State)
    requires Inv(s) && s.mode.Migrating? && Enabled(s, Advance)
    ensures ManagedSecrets(Next(s, Advance).world) == ManagedSecrets(s.world)
  {
  }

  lemma EnvKeepsManaged(w: World, e: EnvStep)
    requires !e.Handover?
    ensures ManagedSecrets(EnvEffect(w, e)) == ManagedSecrets(w)
  {
  }

  lemma MigrateStepKeepsManaged(s: State, a: Step)
    requires Inv(s) && (s.mode.Migrating? || s.mode.Migrated?) && Enabled(s, a)
    requires a != Begin(ForceDelete) && a != Env(Handover)
    ensures var s' := Next(s, a);
            (s'.mode.Migrating? || s'.mode.Migrated?) && ManagedSecrets(s'.world) == ManagedSecrets(s.world)
  {
    match a
    case Advance => MigrateCallKeepsManaged(s);
    case Env(e) => EnvKeepsManaged(s.world, e);
    case _ =>
  }

  /** The shoot MR as the first attempt of Migrate left it: never changed again until it is let go. */
  predicate KeptAs(m: ManagedResource<ShootPayload>, w: World) {
    w.shootMR.Some? ==>
      w.shootMR.value.keep && w.shootMR.value.generation == m.generation && w.shootMR.value.payload == m.payload
  }

  lemma MigrateStepKeepsShootMR(s: State, a: Step, m: ManagedResource<ShootPayload>)
    requires Inv(s) && (s.mode.Migrating? || s.mode.Migrated?) && KeptAs(m, s.world) && Enabled(s, a)
    requires a != Begin(ForceDelete) && a != Env(Handover)
    ensures KeptAs(m, Next(s, a).world)
  {
  }

  /** Once keepObjects is set, retrying Migrate gives the shoot MR no new generation and no new content. */
  lemma {:induction false} MigrateRetriesKeep(s: State, t: seq<Step>, m: ManagedResource<ShootPayload>)
    requires Inv(s) && (s.mode.Migrating? || s.mode.Migrated?) && KeptAs(m, s.world) && Legal(s, t)
    requires Begin(ForceDelete) !in t && Env(Handover) !in t
    ensures KeptAs(m, Exec(s, t).world)
    decreases |t|
  {
    if t != [] {
      assert t[0] in t;
      NextKeepsInv(s, t[0]);
      MigrateStepKeepsManaged(s, t[0]);
      MigrateStepKeepsShootMR(s, t[0], m);
      MigrateRetriesKeep(Next(s, t[0]), t[1..], m);
    }
  }

  /** No step of any operation or of its surroundings touches secrets of others. */
  lemma {:induction false} ForeignSecretsStay(s: State, t: seq<Step>, name: string)
    requires Legal(s, t)
    ensures Foreign(name) in Exec(s, t).world.secrets <==> Foreign(name) in s.world.secrets
    decreases |t|
  {
    if t != [] {
      ForeignSecretsStay(Next(s, t[0]), t[1..], name);
    }
  }

  /** The CA survives the migration: however often Migrate failed on the way, the destination starts
      with exactly the CA keys that the source had when Migrate was begun, and with nothing else of
      what the extension had on the source seed. */
  lemma HandoverCarriesCa(s: State, t: seq<Step>)
    requires Inv(s) && s.mode.Migrating? && Legal(s, t)
    requires Begin(ForceDelete) !in t && Env(Handover) !in t && Exec(s, t).mode.Migrated?
    ensures Enabled(Exec(s, t), Env(Handover))
    ensures var w := Next(Exec(s, t), Env(Handover)).world;
            (forall g: nat :: CaKey(g) in w.secrets <==> CaKey(g) in s.world.secrets) &&
            (forall x :: x in w.secrets ==> x.CaKey? || x.Foreign?) &&
            w.shootMR.None? && w.seedMR.None? && w.deployment.None?
  {
    ExecKeepsInv(s, t);
    MigrateKeepsManagedSecrets(s, t);
    var w := Exec(s, t).world;
    forall g: nat ensures CaKey(g) in w.secrets <==> CaKey(g) in s.world.secrets {
      assert CaKey(g) in w.secrets <==> CaKey(g) in ManagedSecrets(w);
      assert CaKey(g) in s.world.secrets <==> CaKey(g) in ManagedSecrets(s.world);
    }
  }
}
