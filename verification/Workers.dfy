/** All shoots of a seed at once: their objects in one map, and operations on them by the workers of one
    controller, interleaved in any order. */
module Workers {
  import opened Wrappers
  import opened Cluster
  import opened Protocol
  import opened Invariant
  import opened Store
  import opened SharedSeed

  const MAX_CONCURRENT_RECONCILES: nat := 5

  /** The queue keeps the namespaces that are being processed, each worker the one it works on. */
  datatype Seed = Seed(
    objects: Objects,
    sides: map<string, Side>,
    workers: seq<Option<string>>,
    processing: set<string>)

  datatype Event = Event(namespace: string, step: Step)

  function At(g: Seed, n: string): State
    requires n in g.sides
  {
    StateAt(g.objects, n, g.sides[n])
  }

  function Running(g: Seed): set<string> {
    set n | n in g.sides && g.sides[n].run.Some?
  }

  // ---- workers ----

  /** Namespaces that the workers work on. */
  function Held(ws: seq<Option<string>>): set<string> {
    set w | w in ws && w.Some? :: w.value
  }

  predicate OneEach(ws: seq<Option<string>>) {
    forall i, j :: 0 <= i < j < |ws| && ws[i].Some? ==> ws[i] != ws[j]
  }

  function FreeWorker(ws: seq<Option<string>>): (r: Option<nat>)
    ensures r.Some? ==> r.value < |ws| && ws[r.value].None?
    ensures r.None? ==> None !in ws
  {
    if ws == [] then None
    else if ws[|ws| - 1].None? then Some(|ws| - 1)
    else FreeWorker(ws[..|ws| - 1])
  }

  function Release(ws: seq<Option<string>>, n: string): seq<Option<string>> {
    seq(|ws|, i requires 0 <= i < |ws| => if ws[i] == Some(n) then None else ws[i])
  }

  /** As many namespaces are worked on as workers are busy. */
  lemma {:induction false} HeldCount(ws: seq<Option<string>>)
    requires OneEach(ws)
    ensures |Held(ws)| <= |ws| && (|Held(ws)| < |ws| <==> None in ws)
  {
    if ws != [] {
      var init, last := ws[..|ws| - 1], ws[|ws| - 1];
      assert ws == init + [last];
      HeldCount(init);
      if last.Some? {
        assert last !in init;
        assert Held(ws) == Held(init) + {last.value};
      } else {
        assert Held(ws) == Held(init);
      }
    }
  }

  lemma TakeWorker(ws: seq<Option<string>>, i: nat, n: string)
    requires OneEach(ws) && i < |ws| && ws[i].None? && n !in Held(ws)
    ensures OneEach(ws[i := Some(n)]) && Held(ws[i := Some(n)]) == Held(ws) + {n}
  {
    var ws' := ws[i := Some(n)];
    assert ws'[i] in ws';
    forall m | m in Held(ws) ensures m in Held(ws') {
      var j :| 0 <= j < |ws| && ws[j] == Some(m);
      assert ws'[j] in ws';
    }
    forall j, k | 0 <= j < k < |ws'| && ws'[j].Some? ensures ws'[j] != ws'[k] {
      assert ws[j].Some? ==> ws[j] in ws;
      assert ws[k].Some? ==> ws[k] in ws;
    }
  }

  lemma ReleaseWorker(ws: seq<Option<string>>, n: string)
    requires OneEach(ws)
    ensures OneEach(Release(ws, n)) && |Release(ws, n)| == |ws| && Held(Release(ws, n)) == Held(ws) - {n}
  {
    var ws' := Release(ws, n);
    forall m | m in Held(ws) && m != n ensures m in Held(ws') {
      var j :| 0 <= j < |ws| && ws[j] == Some(m);
      assert ws'[j] in ws';
    }
    forall m | m in Held(ws') ensures m in Held(ws) && m != n {
      var j :| 0 <= j < |ws'| && ws'[j] == Some(m);
      assert ws[j] in ws;
    }
  }

  // ---- steps on the shared map ----

  /** The clean-up looks at the listed secrets only; an operation begins when a worker is free and takes the
      namespace from the queue, which does not hand out one that is being processed. */
  predicate Possible(g: Seed, e: Event) {
    e.namespace in g.sides &&
    var n, d := e.namespace, g.sides[e.namespace];
    match e.step
    case Begin(op) => FreeWorker(g.workers).Some? && n !in g.processing && Allowed(d.mode, op)
    case SweepOne(x) =>
      d.run.Some? && d.run.value.pc.Sweep? && x in Listed(g.objects, n) && !d.run.value.InStore(x)
    case Finish =>
      d.run.Some? &&
      (d.run.value.pc.Done? ||
       (d.run.value.pc.Sweep? && forall x :: x in Listed(g.objects, n) ==> d.run.value.InStore(x)))
    case _ => Enabled(At(g, n), e.step)
  }

  function Done(g: Seed, n: string, d: Side): Seed {
    g.(sides := g.sides[n := d.(run := None)], workers := Release(g.workers, n), processing := g.processing - {n})
  }

  function Happen(g: Seed, e: Event): Seed
    requires Possible(g, e)
  {
    var n, d := e.namespace, g.sides[e.namespace];
    match e.step
    case Begin(op) =>
      g.(sides := g.sides[n := d.(mode := ModeOf(op), run := Some(First(op)))],
         workers := g.workers[FreeWorker(g.workers).value := Some(n)],
         processing := g.processing + {n})
    case Advance =>
      g.(objects := Call(g.objects, n, d.run.value, d.serial),
         sides := g.sides[n := d.(run := Some(CallLocals(g.objects, n, d.run.value, d.serial)))])
    case SweepOne(x) => g.(objects := g.objects - {ManagedId(n, x)})
    case Finish =>
      var s := Finished(At(g, n), d.run.value);
      Done(g, n, d.(mode := s.mode, confirmed := s.confirmed, lastOk := s.lastOk))
    case Abort => Done(g, n, d)
    case Env(v) =>
      g.(objects := Surroundings(g.objects, n, v), sides := g.sides[n := SideAfter(g.objects, n, d, v)])
  }

  /** What is done on the shared map stays within the namespace of the event. */
  lemma HappenStaysWithin(g: Seed, e: Event)
    requires Possible(g, e)
    ensures Others(Happen(g, e).objects, e.namespace) == Others(g.objects, e.namespace)
    ensures Happen(g, e).sides.Keys == g.sides.Keys
    ensures forall m :: m in g.sides && m != e.namespace ==> Happen(g, e).sides[m] == g.sides[m]
  {
    var n, d := e.namespace, g.sides[e.namespace];
    match e.step
    case Advance => CallStaysWithin(g.objects, n, d.run.value, d.serial);
    case SweepOne(x) => PutOwn(g.objects, n, ManagedId(n, x), SecretBody(""));
    case Env(v) => SurroundingsStayWithin(g.objects, n, v);
    case _ =>
  }

  /** No other shoot notices. */
  lemma OthersUnaffected(g: Seed, e: Event, m: string)
    requires Possible(g, e) && m in g.sides && m != e.namespace
    ensures At(Happen(g, e), m) == At(g, m) && (Formed(Happen(g, e).objects, m) <==> Formed(g.objects, m))
  {
    var g' := Happen(g, e);
    HappenStaysWithin(g, e);
    OthersKept(g.objects, g'.objects, e.namespace, m);
    StateIsOwn(g.objects, m, g.sides[m]);
    StateIsOwn(g'.objects, m, g'.sides[m]);
    FormedIsOwn(g.objects, m);
    FormedIsOwn(g'.objects, m);
  }

  // ---- every step is a step of the protocol ----

  predicate PoolSound(g: Seed) {
    && |g.workers| == MAX_CONCURRENT_RECONCILES && OneEach(g.workers)
    && Held(g.workers) == g.processing == Running(g)
  }

  predicate Sound(g: Seed) {
    PoolSound(g) && forall n :: n in g.sides ==> Formed(g.objects, n)
  }

  lemma StepPossible(g: Seed, e: Event)
    requires Sound(g) && e.namespace in g.sides
    ensures Possible(g, e) <==>
              Enabled(At(g, e.namespace), e.step) && (e.step.Begin? ==> |Running(g)| < MAX_CONCURRENT_RECONCILES)
  {
    var n, d := e.namespace, g.sides[e.namespace];
    match e.step
    case Begin(_) => HeldCount(g.workers);
    case SweepOne(x) => ListedAll(g.objects, n, x);
    case Finish =>
      forall x ensures x in Listed(g.objects, n) <==> x in SecretsIn(g.objects, n) && Managed(x) {
        ListedAll(g.objects, n, x);
      }
    case _ =>
  }

  lemma SweepRefines(g: Seed, n: string, x: Secret)
    requires Sound(g) && Possible(g, Event(n, SweepOne(x)))
    ensures At(Happen(g, Event(n, SweepOne(x))), n) == Next(At(g, n), SweepOne(x))
    ensures Formed(Happen(g, Event(n, SweepOne(x))).objects, n)
  {
    ListedAll(g.objects, n, x);
    SecretCallRefines(g.objects, n, g.sides[n], ManagedId(n, x), SecretBody(IDENTITY));
  }

  lemma StepRefines(g: Seed, e: Event)
    requires Sound(g) && Possible(g, e)
    ensures Enabled(At(g, e.namespace), e.step)
    ensures At(Happen(g, e), e.namespace) == Next(At(g, e.namespace), e.step)
    ensures Formed(Happen(g, e).objects, e.namespace)
  {
    var n, d := e.namespace, g.sides[e.namespace];
    StepPossible(g, e);
    match e.step
    case Advance => CallRefines(g.objects, n, d, d.run.value);
    case SweepOne(x) => SweepRefines(g, n, x);
    case Env(v) => SurroundingsRefine(g.objects, n, d, v);
    case _ =>
  }

  lemma PoolKept(g: Seed, e: Event)
    requires Sound(g) && Possible(g, e)
    ensures PoolSound(Happen(g, e))
    ensures Running(Happen(g, e)) == Busy(Running(g), e)
  {
    var n, g' := e.namespace, Happen(g, e);
    StepPossible(g, e);
    assert Running(g') == Busy(Running(g), e);
    match e.step
    case Begin(_) => TakeWorker(g.workers, FreeWorker(g.workers).value, n);
    case Finish => ReleaseWorker(g.workers, n);
    case Abort => ReleaseWorker(g.workers, n);
    case _ =>
  }

  lemma SoundKept(g: Seed, e: Event)
    requires Sound(g) && Possible(g, e)
    ensures Sound(Happen(g, e))
  {
    PoolKept(g, e);
    StepRefines(g, e);
    HappenStaysWithin(g, e);
    forall m | m in Happen(g, e).sides ensures Formed(Happen(g, e).objects, m) {
      if m != e.namespace {
        OthersUnaffected(g, e, m);
      }
    }
  }

  // ---- interleavings ----

  predicate LegalAll(g: Seed, es: seq<Event>)
    decreases |es|
  {
    es == [] || (Possible(g, es[0]) && LegalAll(Happen(g, es[0]), es[1..]))
  }

  function ExecAll(g: Seed, es: seq<Event>): Seed
    requires LegalAll(g, es)
    decreases |es|
  {
    if es == [] then g else ExecAll(Happen(g, es[0]), es[1..])
  }

  /** The steps of one namespace, in order. */
  function Project(es: seq<Event>, n: string): seq<Step>
    decreases |es|
  {
    if es == [] then []
    else if es[0].namespace == n then [es[0].step] + Project(es[1..], n)
    else Project(es[1..], n)
  }

  /** The namespaces with an operation in flight after an event. */
  function Busy(busy: set<string>, e: Event): set<string> {
    match e.step
    case Begin(_) => busy + {e.namespace}
    case Finish => busy - {e.namespace}
    case Abort => busy - {e.namespace}
    case _ => busy
  }

  /** Every operation begins with fewer than five in flight. */
  predicate Room(busy: set<string>, es: seq<Event>)
    decreases |es|
  {
    es == [] ||
    ((es[0].step.Begin? ==> |busy| < 5) && Room(Busy(busy, es[0]), es[1..]))
  }

  /** Whatever happens to the other shoots in the same map meanwhile, the steps of one shoot are possible by
      the protocol and lead where they lead when it is alone. */
  lemma {:induction false} NonInterference(g: Seed, es: seq<Event>, n: string)
    requires Sound(g) && LegalAll(g, es) && n in g.sides
    ensures var g' := ExecAll(g, es);
            n in g'.sides && Legal(At(g, n), Project(es, n)) && At(g', n) == Exec(At(g, n), Project(es, n))
    decreases |es|
  {
    if es != [] {
      var e, rest := es[0], es[1..];
      SoundKept(g, e);
      HappenStaysWithin(g, e);
      NonInterference(Happen(g, e), rest, n);
      if e.namespace == n {
        StepRefines(g, e);
        ExecCons(At(g, n), e.step, Project(rest, n));
      } else {
        OthersUnaffected(g, e, n);
      }
    }
  }

  lemma {:induction false} SoundRun(g: Seed, es: seq<Event>)
    requires Sound(g) && LegalAll(g, es)
    ensures Sound(ExecAll(g, es))
    decreases |es|
  {
    if es != [] {
      SoundKept(g, es[0]);
      SoundRun(Happen(g, es[0]), es[1..]);
    }
  }

  /** Between operations, with five workers and well-labelled secrets, all is sound. */
  lemma StartSound(objects: Objects, sides: map<string, Side>)
    requires forall n :: n in sides ==> Formed(objects, n) && sides[n].run.None?
    ensures Sound(Start(objects, sides))
  {
  }

  /** No more operations are in flight than there are workers, and never two on one namespace. */
  lemma BoundKept(g: Seed, es: seq<Event>)
    requires Sound(g) && LegalAll(g, es)
    ensures |Running(ExecAll(g, es))| <= 5
    ensures Held(ExecAll(g, es).workers) == Running(ExecAll(g, es)) && OneEach(ExecAll(g, es).workers)
  {
    SoundRun(g, es);
    HeldCount(ExecAll(g, es).workers);
  }

  /** One event of an interleaving in the runs of all namespaces. */
  lemma LegalHead(g: Seed, es: seq<Event>, m: string)
    requires Sound(g) && es != [] && Possible(g, es[0]) && m in g.sides
    ensures m in Happen(g, es[0]).sides
    ensures Legal(At(g, m), Project(es, m)) <==> Legal(At(Happen(g, es[0]), m), Project(es[1..], m))
  {
    var e, rest := es[0], es[1..];
    HappenStaysWithin(g, e);
    if e.namespace == m {
      StepRefines(g, e);
      assert Project(es, m)[0] == e.step && Project(es, m)[1..] == Project(rest, m);
    } else {
      OthersUnaffected(g, e, m);
    }
  }

  /** The steps of all shoots can be interleaved in a given way if and only if those of each shoot are
      possible alone, and every operation begins with fewer than five in flight: nothing else in the
      shared map makes shoots wait for each other. */
  lemma {:induction false} AnyInterleaving(g: Seed, es: seq<Event>)
    requires Sound(g) && forall e :: e in es ==> e.namespace in g.sides
    ensures LegalAll(g, es) <==>
              Room(Running(g), es) && forall n :: n in g.sides ==> Legal(At(g, n), Project(es, n))
    decreases |es|
  {
    if es != [] {
      var e, rest := es[0], es[1..];
      assert e in es;
      StepPossible(g, e);
      if Possible(g, e) {
        SoundKept(g, e);
        PoolKept(g, e);
        HappenStaysWithin(g, e);
        var g' := Happen(g, e);
        AnyInterleaving(g', rest);
        forall n | n in g.sides
          ensures Legal(At(g, n), Project(es, n)) <==> Legal(At(g', n), Project(rest, n))
        {
          LegalHead(g, es, n);
        }
        assert (forall n :: n in g.sides ==> Legal(At(g, n), Project(es, n))) <==>
               (forall n :: n in g'.sides ==> Legal(At(g', n), Project(rest, n)));
      } else {
        assert Project(es, e.namespace)[0] == e.step;
      }
    }
  }

  /** The certificates of a shoot, stored and live, are trusted by the bundle stored for the same shoot,
      whatever operations and rotations of all shoots of the seed are interleaved. */
  lemma SharedCaRotationSafety(g: Seed, es: seq<Event>, n: string)
    requires Sound(g) && LegalAll(g, es) && n in g.sides && Initial(At(g, n))
    ensures n in ExecAll(g, es).sides && Inv(At(ExecAll(g, es), n))
    ensures TrustedIn(ExecAll(g, es).objects, n)
  {
    NonInterference(g, es, n);
    InitialInv(At(g, n));
    ExecKeepsInv(At(g, n), Project(es, n));
  }

  predicate TrustedIn(st: Objects, n: string) {
    ShootMR(st, n).Some? ==>
      var bundle := ShootMR(st, n).value.payload.bundle;
      (SeedMR(st, n).Some? ==> SeedMR(st, n).value.payload.signer in bundle) &&
      (DeploymentIn(st, n).Some? ==> DeploymentIn(st, n).value.signer in bundle)
  }

  /** The controller starts with its workers free. */
  function Start(objects: Objects, sides: map<string, Side>): Seed {
    Seed(objects, sides, seq(MAX_CONCURRENT_RECONCILES, _ => None), {})
  }

  /** From the start of the controller on, all this holds of every shoot and every interleaving: all that is
      needed of the shared map is that each namespace has its Cluster resource, the label is where the
      secrets manager put it, and the extension is not yet there or is inherited. */
  lemma SharedFromStart(objects: Objects, sides: map<string, Side>, es: seq<Event>)
    requires forall n :: n in sides ==> Formed(objects, n) && Initial(StateAt(objects, n, sides[n]))
    requires LegalAll(Start(objects, sides), es)
    ensures var g := ExecAll(Start(objects, sides), es);
            |Running(g)| <= 5 &&
            forall n :: n in sides ==> n in g.sides && Inv(At(g, n)) && TrustedIn(g.objects, n)
  {
    var g := Start(objects, sides);
    StartSound(objects, sides);
    BoundKept(g, es);
    forall n | n in sides
      ensures n in ExecAll(g, es).sides && Inv(At(ExecAll(g, es), n)) && TrustedIn(ExecAll(g, es).objects, n)
    {
      SharedCaRotationSafety(g, es, n);
    }
  }
}
