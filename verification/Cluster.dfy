/** What one shoot namespace of a seed holds, together with the shoot it controls, and the effect
    that each API call of the controller and each step of its surroundings has on it. */
module Cluster {
  import opened Wrappers

  datatype Kind =
    | ServiceAccount | ConfigMap | Deployment | Service | ServiceMonitor | VerticalPodAutoscaler
    | Role | RoleBinding | ClusterRole | ClusterRoleBinding
    | ValidatingWebhookConfiguration | MutatingWebhookConfiguration | CustomResourceDefinition

  /** Identity of an API object; `namespace` is empty for cluster-scoped objects. */
  datatype Key = Key(kind: Kind, namespace: string, name: string)

  /** The secrets of the seed namespace. The secrets manager derives names from contents, so a
      server certificate is identified by the CA generation that signed it and its renewal number,
      and a bundle by the generations in it. */
  datatype Secret =
    | OperatorAccess
    | RunnerAccess
    | CaKey(gen: nat)
    | CaBundle(gens: set<nat>)
    | ServerCert(signer: nat, serial: nat)
    | Foreign(name: string)

  /** Labelled with the identity of the extension's secrets manager. */
  predicate Managed(x: Secret) {
    x.CaKey? || x.CaBundle? || x.ServerCert?
  }

  datatype ShootPayload = ShootPayload(bundle: set<nat>)
  datatype SeedPayload = SeedPayload(signer: nat, serial: nat, replicas: nat)

  datatype ManagedResource<P> =
    MR(generation: nat, observed: nat, deleting: bool, keep: bool, payload: P)
  {
    predicate Healthy() {
      observed == generation && !deleting
    }
  }

  /** Create or update with keepObjects set to false; an update that changes nothing keeps the generation. */
  function Written<P(==)>(stored: Option<ManagedResource<P>>, payload: P): ManagedResource<P> {
    match stored
    case None => MR(1, 0, false, false, payload)
    case Some(m) =>
      if m.payload == payload && !m.keep then m
      else m.(generation := m.generation + 1, keep := false, payload := payload)
  }

  function Kept<P>(stored: Option<ManagedResource<P>>): Option<ManagedResource<P>> {
    match stored
    case None => None
    case Some(m) => if m.keep then stored else Some(m.(generation := m.generation + 1, keep := true))
  }

  function Marked<P>(stored: Option<ManagedResource<P>>): Option<ManagedResource<P>> {
    match stored
    case None => None
    case Some(m) => Some(m.(deleting := true))
  }

  /** CA rotation as the Cluster resource shows it: the wanted generation, and whether older ones are to be dropped. */
  datatype Rotation = Rotation(ca: nat, dropOld: bool)

  /** A user's custom resource, stored in the shoot under its definition. */
  datatype CustomResource = CustomResource(definition: Key, name: string)

  datatype World = World(
    catalog: set<Key>,                                // keys of the objects that shootResources renders
    shootMR: Option<ManagedResource<ShootPayload>>,
    inventory: set<Key>,                              // objects listed in the status of the shoot MR
    seedMR: Option<ManagedResource<SeedPayload>>,
    live: map<Key, ShootPayload>,                     // the extension's objects in the shoot, as last applied
    customs: set<CustomResource>,
    deployment: Option<SeedPayload>,                  // the operator's Deployment, as last applied
    secrets: set<Secret>,
    rotation: Rotation,
    serial: nat,                                      // renewal number of the server certificate
    hibernated: bool)
  {
    function WriteShoot(p: ShootPayload): World {
      this.(shootMR := Some(Written(shootMR, p)))
    }

    function WriteSeed(p: SeedPayload): World {
      this.(seedMR := Some(Written(seedMR, p)))
    }

    function Add(x: Secret): World {
      this.(secrets := secrets + {x})
    }

    function Remove(x: Secret): World {
      this.(secrets := secrets - {x})
    }

    /** An object of the shoot goes; a definition takes its custom resources with it. */
    function RemoveLive(k: Key): World {
      this.(live := live - {k}, inventory := inventory - {k},
            customs := set c | c in customs && c.definition != k)
    }
  }

  function ManagedSecrets(w: World): set<Secret> {
    set x | x in w.secrets && Managed(x)
  }

  /** The newest stored CA older than generation `g`, which the manager keeps as the old CA. */
  function NewestOlder(secrets: set<Secret>, g: nat): Option<nat> {
    if g == 0 then None
    else if CaKey(g - 1) in secrets then Some(g - 1)
    else NewestOlder(secrets, g - 1)
  }

  function BundleFor(secrets: set<Secret>, rotation: Rotation): set<nat> {
    {rotation.ca} +
    if rotation.dropOld then {}
    else match NewestOlder(secrets, rotation.ca) case None => {} case Some(g) => {g}
  }
}
