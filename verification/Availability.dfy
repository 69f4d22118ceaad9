/** What users of a shoot can rely on once it is reconciled. */
module Availability {
  import opened Wrappers
  import opened Cluster
  import opened Protocol
  import opened Invariant
  import opened Convergence
  import opened Progress
  import Rendering
  import Deployed

  /** Compliance scans, scheduled ones and report outputs can be created as soon as the rendered shoot objects are
      installed. */
  lemma DefinitionsServed(s: State, v: Rendering.Values, resource: string, name: string)
    requires Installed(s.world) && s.world.catalog == Rendering.Catalog(v)
    requires resource in {"compliancescans", "scheduledcompliancescans", "reportoutputs"}
    ensures EnvEnabled(s, CreateCustom(CustomResource(Deployed.DefinitionKey(resource), name)))
  {
    Deployed.Defined(v);
  }

  /** From every state in which a Reconcile may begin there is a run to such a state. */
  lemma DefinitionsCanBeServed(s: State, v: Rendering.Values) returns (t: seq<Step>)
    requires Inv(s) && s.run.None? && (s.mode.Absent? || s.mode.Active?) && s.world.catalog == Rendering.Catalog(v)
    ensures Legal(s, t)
    ensures forall resource, name :: resource in {"compliancescans", "scheduledcompliancescans", "reportoutputs"} ==>
              EnvEnabled(Exec(s, t), CreateCustom(CustomResource(Deployed.DefinitionKey(resource), name)))
  {
    t := InstallCompletes(s);
    forall resource, name | resource in {"compliancescans", "scheduledcompliancescans", "reportoutputs"}
      ensures EnvEnabled(Exec(s, t), CreateCustom(CustomResource(Deployed.DefinitionKey(resource), name)))
    {
      DefinitionsServed(Exec(s, t), v, resource, name);
    }
  }
}
