/**
 * The reconciler: the create-or-already-exists step against the cluster's store, and the four
 * informer handlers (Kluster add and delete, labelled Deployment and Service delete).
 *
 * The store is a class holding the Deployments and Services of namespace "default", keyed by name.
 * The pure function Step says what one handler run does to the store's contents; the methods
 * perform it on a Cluster object and are proved to agree with Step.
 */
module Reconciler {
  import opened Wrappers
  import opened GoTypes
  import opened V1alpha1
  import opened Api
  import opened Translator

  /** Why a create call failed: the name is taken, or anything else (network, validation, permissions). */
  datatype ApiError = AlreadyExists | OtherFailure

  predicate IsAlreadyExists(e: ApiError) {
    e == AlreadyExists
  }

  /** What `recreateDeployment` / `recreateService` log after the create call. */
  datatype Outcome = Succeeded | Failed

  /** The log line chosen from the create call's error: only an error other than "already exists" is a failure. */
  function Report(err: Option<ApiError>): (o: Outcome)
    ensures o == Failed <==> err == Some(OtherFailure)
  {
    if err.Some? && !IsAlreadyExists(err.value) then Failed else Succeeded
  }

  /**
   * The store's answer to a create of `obj` under `name`, and the store afterwards. `fault` stands for
   * a failure other than a name conflict; it leaves the store as it was.
   */
  function CreateIn<T>(store: map<string, T>, name: string, obj: T, fault: bool): (r: (map<string, T>, Option<ApiError>))
    ensures r.1 == None <==> !fault && name !in store
    ensures r.1 == Some(AlreadyExists) <==> !fault && name in store
    ensures r.1 == None ==> name in r.0 && r.0[name] == obj
    ensures r.1 != None ==> r.0 == store
    ensures forall n :: n in store ==> n in r.0 && r.0[n] == store[n]
    ensures r.0.Keys <= store.Keys + {name}
  {
    if fault then (store, Some(OtherFailure))
    else if name in store then (store, Some(AlreadyExists))
    else (store[name := obj], None)
  }

  /** Repeating a create that did not fail for another reason changes nothing and reports no failure, whatever object is sent. */
  lemma CreateInIdempotent<T>(store: map<string, T>, name: string, obj: T, fault: bool, obj': T)
    requires CreateIn(store, name, obj, fault).1 != Some(OtherFailure)
    ensures var once := CreateIn(store, name, obj, fault).0;
      CreateIn(once, name, obj', false) == (once, Some(AlreadyExists))
  {
  }

  /** Contents of the store: the Deployments and the Services of the namespace, by name. */
  datatype ClusterState = ClusterState(deployments: map<string, Deployment>, services: map<string, Service>)

  /** One notification from an informer, already of the right type. */
  datatype Event =
    | KlusterAdded(kluster: Kluster)
    | KlusterDeleted(kluster: Kluster)
    | DeploymentDeleted(deployment: Deployment)
    | ServiceDeleted(service: Service)

  /**
   * What the outside world answers during one handler run: the Kluster list (None when the list call
   * fails), and whether each create call fails for a reason other than a name conflict.
   */
  datatype Env = Env(klusters: Option<seq<Kluster>>, deploymentFault: bool, serviceFault: bool)

  /** Which creates a handler run attempted and how each ended; None means no create was made. */
  datatype Effect = Effect(deployment: Option<Outcome>, service: Option<Outcome>)

  const NoEffect: Effect := Effect(None, None)

  /** The delete handlers act only on objects labelled app=bookapi (a missing label reads as ""). */
  function ShouldHeal(labels: Labels): (heal: bool)
    ensures heal <==> Selects(AppLabels, labels)
  {
    MapIndex(labels, AppKey) == AppValue
  }

  /** The Kluster a delete handler recreates from: the first listed, when the list succeeded and is not empty. */
  function FirstKluster(list: Option<seq<Kluster>>): (r: Option<Kluster>)
    ensures r.Some? <==> list.Some? && |list.value| > 0
    ensures r.Some? ==> r.value == list.value[0]
  {
    if list.Some? && |list.value| > 0 then Some(list.value[0]) else None
  }

  /** `recreateDeployment` on the store's contents. */
  function RecreateDeploymentStep(s: ClusterState, k: Kluster, fault: bool): (r: (ClusterState, Outcome))
    ensures r.0.services == s.services
    ensures r.1 == Failed <==> fault
    ensures r.0.deployments == if fault || DeploymentName in s.deployments then s.deployments
                               else s.deployments[DeploymentName := DeriveDeployment(k.spec)]
  {
    var d := DeriveDeployment(k.spec);
    var r := CreateIn(s.deployments, d.meta.name, d, fault);
    (s.(deployments := r.0), Report(r.1))
  }

  /** `recreateService` on the store's contents. */
  function RecreateServiceStep(s: ClusterState, k: Kluster, fault: bool): (r: (ClusterState, Outcome))
    ensures r.0.deployments == s.deployments
    ensures r.1 == Failed <==> fault
    ensures r.0.services == if fault || ServiceName in s.services then s.services
                            else s.services[ServiceName := DeriveService(k.spec)]
  {
    var v := DeriveService(k.spec);
    var r := CreateIn(s.services, v.meta.name, v, fault);
    (s.(services := r.0), Report(r.1))
  }

  /** One handler run: the new contents of the store and what was attempted. */
  function Step(s: ClusterState, e: Event, env: Env): (r: (ClusterState, Effect))
    ensures r.1.deployment.Some? <==>
      e.KlusterAdded? || (e.DeploymentDeleted? && ShouldHeal(e.deployment.meta.labels) && FirstKluster(env.klusters).Some?)
    ensures r.1.service.Some? <==>
      e.KlusterAdded? || (e.ServiceDeleted? && ShouldHeal(e.service.meta.labels) && FirstKluster(env.klusters).Some?)
    ensures r.1.deployment.None? ==> r.0.deployments == s.deployments
    ensures r.1.service.None? ==> r.0.services == s.services
  {
    match e
    case KlusterAdded(k) =>
      var (s1, od) := RecreateDeploymentStep(s, k, env.deploymentFault);
      var (s2, os) := RecreateServiceStep(s1, k, env.serviceFault);
      (s2, Effect(Some(od), Some(os)))
    case KlusterDeleted(_) =>
      (s, NoEffect)
    case DeploymentDeleted(d) =>
      var first := FirstKluster(env.klusters);
      if ShouldHeal(d.meta.labels) && first.Some? then
        var (s1, o) := RecreateDeploymentStep(s, first.value, env.deploymentFault);
        (s1, Effect(Some(o), None))
      else (s, NoEffect)
    case ServiceDeleted(v) =>
      var first := FirstKluster(env.klusters);
      if ShouldHeal(v.meta.labels) && first.Some? then
        var (s1, o) := RecreateServiceStep(s, first.value, env.serviceFault);
        (s1, Effect(None, Some(o)))
      else (s, NoEffect)
  }

  /** One event delivered together with the answers the outside world gives while it is handled. */
  datatype Delivery = Delivery(event: Event, env: Env)

  /** The store after the handlers have run on `ds`, one event at a time. */
  function Run(s: ClusterState, ds: seq<Delivery>): (r: ClusterState)
    ensures s.deployments.Keys <= r.deployments.Keys <= s.deployments.Keys + {DeploymentName}
    ensures s.services.Keys <= r.services.Keys <= s.services.Keys + {ServiceName}
    decreases |ds|
  {
    if ds == [] then s else Run(Step(s, ds[0].event, ds[0].env).0, ds[1..])
  }

  /**
   * `t` keeps every object of `s` as it was, and adds at most the two derived names: the controller
   * never deletes, never overwrites, and never touches any other object.
   */
  ghost predicate Grows(s: ClusterState, t: ClusterState) {
    && (forall n :: n in s.deployments ==> n in t.deployments && t.deployments[n] == s.deployments[n])
    && (forall n :: n in s.services ==> n in t.services && t.services[n] == s.services[n])
    && t.deployments.Keys <= s.deployments.Keys + {DeploymentName}
    && t.services.Keys <= s.services.Keys + {ServiceName}
  }

  /** Whatever is stored under the two derived names has the shape the translator gives. */
  ghost predicate Conforms(s: ClusterState) {
    && (DeploymentName in s.deployments ==> IsDerivedDeployment(s.deployments[DeploymentName]))
    && (ServiceName in s.services ==> IsDerivedService(s.services[ServiceName]))
  }

  /** Both derived objects exist. */
  predicate Converged(s: ClusterState) {
    DeploymentName in s.deployments && ServiceName in s.services
  }

  lemma StepGrows(s: ClusterState, e: Event, env: Env)
    ensures Grows(s, Step(s, e, env).0)
  {
  }

  lemma GrowsTransitive(s: ClusterState, t: ClusterState, u: ClusterState)
    requires Grows(s, t) && Grows(t, u)
    ensures Grows(s, u)
  {
  }

  /** Running the handlers on any sequence of events only ever adds the two derived objects. */
  lemma {:induction false} RunGrows(s: ClusterState, ds: seq<Delivery>)
    ensures Grows(s, Run(s, ds))
    decreases |ds|
  {
    if ds != [] {
      var t := Step(s, ds[0].event, ds[0].env).0;
      StepGrows(s, ds[0].event, ds[0].env);
      RunGrows(t, ds[1..]);
      GrowsTransitive(s, t, Run(t, ds[1..]));
    }
  }

  /**
   * A Kluster add attempts both creates; each reports a failure exactly when its call failed for a reason
   * other than a conflict. Without such failures both names are present afterwards. A name that was absent
   * now holds the object derived from this Kluster's spec unless its create failed; otherwise it is as before.
   */
  lemma KlusterAddConverges(s: ClusterState, k: Kluster, env: Env)
    ensures var (t, eff) := Step(s, KlusterAdded(k), env);
      && eff == Effect(Some(if env.deploymentFault then Failed else Succeeded),
                       Some(if env.serviceFault then Failed else Succeeded))
      && (!env.deploymentFault ==> DeploymentName in t.deployments)
      && (!env.serviceFault ==> ServiceName in t.services)
      && t.deployments == (if env.deploymentFault || DeploymentName in s.deployments then s.deployments
                           else s.deployments[DeploymentName := DeriveDeployment(k.spec)])
      && t.services == (if env.serviceFault || ServiceName in s.services then s.services
                        else s.services[ServiceName := DeriveService(k.spec)])
  {
  }

  /** Once both derived objects exist, no event changes the store, and no create reports a failure unless it failed for another reason. */
  lemma ConvergedIsFixpoint(s: ClusterState, e: Event, env: Env)
    requires Converged(s)
    ensures Step(s, e, env).0 == s
    ensures var eff := Step(s, e, env).1;
      && (eff.deployment == Some(Failed) <==> eff.deployment.Some? && env.deploymentFault)
      && (eff.service == Some(Failed) <==> eff.service.Some? && env.serviceFault)
  {
  }

  /** Delivering the same Kluster add again, after one without failures, is a no-op on the store. */
  lemma KlusterAddIdempotent(s: ClusterState, k: Kluster, env: Env, env': Env)
    requires !env.deploymentFault && !env.serviceFault
    ensures var once := Step(s, KlusterAdded(k), env).0;
      Step(once, KlusterAdded(k), env').0 == once
  {
  }

  /** Once converged, any sequence of events leaves the store as it is: the loop is safe to re-enter at any time. */
  lemma {:induction false} RunFromConverged(s: ClusterState, ds: seq<Delivery>)
    requires Converged(s)
    ensures Run(s, ds) == s
    decreases |ds|
  {
    if ds != [] {
      ConvergedIsFixpoint(s, ds[0].event, ds[0].env);
      RunFromConverged(s, ds[1..]);
    }
  }

  /** A Kluster delete does nothing: there is no cascade. */
  lemma KlusterDeleteIsNoop(s: ClusterState, k: Kluster, env: Env)
    ensures Step(s, KlusterDeleted(k), env) == (s, NoEffect)
  {
  }

  /**
   * A Deployment delete attempts a create exactly when the object is labelled app=bookapi and the Kluster
   * list succeeded and is not empty; it only ever creates the Deployment derived from the first Kluster,
   * and never touches Services. Otherwise nothing changes and nothing is reported.
   */
  lemma DeploymentDeleteGating(s: ClusterState, d: Deployment, env: Env)
    ensures var (t, eff) := Step(s, DeploymentDeleted(d), env);
      && eff.service == None && t.services == s.services
      && (eff.deployment.Some? <==> ShouldHeal(d.meta.labels) && env.klusters.Some? && |env.klusters.value| > 0)
      && (eff.deployment.None? ==> t == s)
      && (eff.deployment.Some? ==>
            var want := DeriveDeployment(env.klusters.value[0].spec);
            && eff.deployment == Some(if env.deploymentFault then Failed else Succeeded)
            && t.deployments == (if env.deploymentFault || DeploymentName in s.deployments then s.deployments
                                 else s.deployments[DeploymentName := want]))
  {
  }

  /** The Service delete handler, symmetric to the Deployment one. */
  lemma ServiceDeleteGating(s: ClusterState, v: Service, env: Env)
    ensures var (t, eff) := Step(s, ServiceDeleted(v), env);
      && eff.deployment == None && t.deployments == s.deployments
      && (eff.service.Some? <==> ShouldHeal(v.meta.labels) && env.klusters.Some? && |env.klusters.value| > 0)
      && (eff.service.None? ==> t == s)
      && (eff.service.Some? ==>
            var want := DeriveService(env.klusters.value[0].spec);
            && eff.service == Some(if env.serviceFault then Failed else Succeeded)
            && t.services == (if env.serviceFault || ServiceName in s.services then s.services
                              else s.services[ServiceName := want]))
  {
  }

  /** An object whose label is not app=bookapi never triggers a create. */
  lemma UnlabelledDeleteIsNoop(s: ClusterState, e: Event, env: Env)
    requires (e.DeploymentDeleted? && !ShouldHeal(e.deployment.meta.labels))
          || (e.ServiceDeleted? && !ShouldHeal(e.service.meta.labels))
    ensures Step(s, e, env) == (s, NoEffect)
  {
  }

  /** No event puts an object of another shape under a derived name. */
  lemma StepPreservesConforms(s: ClusterState, e: Event, env: Env)
    requires Conforms(s)
    ensures Conforms(Step(s, e, env).0)
  {
  }

  /** The derived names hold derived objects after any sequence of events, if they did before: the store never diverges from the desired shape. */
  lemma {:induction false} RunPreservesConforms(s: ClusterState, ds: seq<Delivery>)
    requires Conforms(s)
    ensures Conforms(Run(s, ds))
    decreases |ds|
  {
    if ds != [] {
      StepPreservesConforms(s, ds[0].event, ds[0].env);
      RunPreservesConforms(Step(s, ds[0].event, ds[0].env).0, ds[1..]);
    }
  }

  /**
   * Self-healing: if the Deployment derived from the first listed Kluster is deleted out-of-band, handling
   * its delete event without failures restores exactly the store that was there before.
   */
  lemma DeploymentSelfHeals(s: ClusterState, ks: seq<Kluster>, serviceFault: bool)
    requires |ks| > 0
    requires DeploymentName in s.deployments && s.deployments[DeploymentName] == DeriveDeployment(ks[0].spec)
    ensures var gone := s.(deployments := s.deployments - {DeploymentName});
      Step(gone, DeploymentDeleted(s.deployments[DeploymentName]), Env(Some(ks), false, serviceFault))
        == (s, Effect(Some(Succeeded), None))
  {
    var gone := s.(deployments := s.deployments - {DeploymentName});
    FixedIdentity(ks[0].spec);
    assert gone.deployments[DeploymentName := DeriveDeployment(ks[0].spec)] == s.deployments;
  }

  lemma ServiceSelfHeals(s: ClusterState, ks: seq<Kluster>, deploymentFault: bool)
    requires |ks| > 0
    requires ServiceName in s.services && s.services[ServiceName] == DeriveService(ks[0].spec)
    ensures var gone := s.(services := s.services - {ServiceName});
      Step(gone, ServiceDeleted(s.services[ServiceName]), Env(Some(ks), deploymentFault, false))
        == (s, Effect(None, Some(Succeeded)))
  {
    var gone := s.(services := s.services - {ServiceName});
    FixedIdentity(ks[0].spec);
    assert gone.services[ServiceName := DeriveService(ks[0].spec)] == s.services;
  }

  /** The cluster's object store for namespace "default", as the controller's client sees it. */
  class Cluster {
    var deployments: map<string, Deployment>
    var services: map<string, Service>

    function State(): (s: ClusterState)
      reads this
    {
      ClusterState(deployments, services)
    }

    constructor (init: ClusterState)
      ensures State() == init
    {
      deployments := init.deployments;
      services := init.services;
    }

    /** `Deployments("default").Create`: insert under the object's name unless it is taken or the call fails. */
    method CreateDeployment(d: Deployment, fault: bool) returns (err: Option<ApiError>)
      modifies this
      ensures (deployments, err) == CreateIn(old(deployments), d.meta.name, d, fault)
      ensures services == old(services)
    {
      if fault {
        err := Some(OtherFailure);
      } else if d.meta.name in deployments {
        err := Some(AlreadyExists);
      } else {
        deployments := deployments[d.meta.name := d];
        err := None;
      }
    }

    /** `Services("default").Create`. */
    method CreateService(v: Service, fault: bool) returns (err: Option<ApiError>)
      modifies this
      ensures (services, err) == CreateIn(old(services), v.meta.name, v, fault)
      ensures deployments == old(deployments)
    {
      if fault {
        err := Some(OtherFailure);
      } else if v.meta.name in services {
        err := Some(AlreadyExists);
      } else {
        services := services[v.meta.name := v];
        err := None;
      }
    }
  }

  /** `recreateDeployment`: derive the Deployment from the Kluster's spec and create it, treating "already exists" as success. */
  method RecreateDeployment(cluster: Cluster, k: Kluster, fault: bool) returns (o: Outcome)
    modifies cluster
    ensures (cluster.State(), o) == RecreateDeploymentStep(old(cluster.State()), k, fault)
    ensures cluster.services == old(cluster.services)
    ensures o == Failed <==> fault
    ensures !fault ==> DeploymentName in cluster.deployments
  {
    var d := DeriveDeployment(k.spec);
    var err := cluster.CreateDeployment(d, fault);
    if err.Some? && !IsAlreadyExists(err.value) {
      o := Failed;
    } else {
      o := Succeeded;
    }
  }

  /** `recreateService`. */
  method RecreateService(cluster: Cluster, k: Kluster, fault: bool) returns (o: Outcome)
    modifies cluster
    ensures (cluster.State(), o) == RecreateServiceStep(old(cluster.State()), k, fault)
    ensures cluster.deployments == old(cluster.deployments)
    ensures o == Failed <==> fault
    ensures !fault ==> ServiceName in cluster.services
  {
    var v := DeriveService(k.spec);
    var err := cluster.CreateService(v, fault);
    if err.Some? && !IsAlreadyExists(err.value) {
      o := Failed;
    } else {
      o := Succeeded;
    }
  }

  /** The Kluster informer's add handler: create the Deployment, then the Service, from this Kluster. */
  method OnKlusterAdd(cluster: Cluster, k: Kluster, env: Env) returns (eff: Effect)
    modifies cluster
    ensures (cluster.State(), eff) == Step(old(cluster.State()), KlusterAdded(k), env)
    ensures !env.deploymentFault ==> DeploymentName in cluster.deployments
    ensures !env.serviceFault ==> ServiceName in cluster.services
  {
    var od := RecreateDeployment(cluster, k, env.deploymentFault);
    var os := RecreateService(cluster, k, env.serviceFault);
    eff := Effect(Some(od), Some(os));
  }

  /** The Kluster informer's delete handler: only logs. */
  method OnKlusterDelete(cluster: Cluster, k: Kluster) returns (eff: Effect)
    ensures eff == NoEffect
    ensures forall env :: Step(cluster.State(), KlusterDeleted(k), env) == (cluster.State(), eff)
  {
    eff := NoEffect;
  }

  /** The Deployment informer's delete handler: recreate from the first Kluster when the deleted object was ours. */
  method OnDeploymentDelete(cluster: Cluster, d: Deployment, env: Env) returns (eff: Effect)
    modifies cluster
    ensures (cluster.State(), eff) == Step(old(cluster.State()), DeploymentDeleted(d), env)
    ensures cluster.services == old(cluster.services) && eff.service == None
    ensures eff.deployment.None? ==> cluster.deployments == old(cluster.deployments)
  {
    eff := NoEffect;
    if MapIndex(d.meta.labels, AppKey) == AppValue {
      var klusters := env.klusters;
      if klusters.Some? && |klusters.value| > 0 {
        var o := RecreateDeployment(cluster, klusters.value[0], env.deploymentFault);
        eff := Effect(Some(o), None);
      }
    }
  }

  /** The Service informer's delete handler, symmetric to the Deployment one. */
  method OnServiceDelete(cluster: Cluster, v: Service, env: Env) returns (eff: Effect)
    modifies cluster
    ensures (cluster.State(), eff) == Step(old(cluster.State()), ServiceDeleted(v), env)
    ensures cluster.deployments == old(cluster.deployments) && eff.deployment == None
    ensures eff.service.None? ==> cluster.services == old(cluster.services)
  {
    eff := NoEffect;
    if MapIndex(v.meta.labels, AppKey) == AppValue {
      var klusters := env.klusters;
      if klusters.Some? && |klusters.value| > 0 {
        var o := RecreateService(cluster, klusters.value[0], env.serviceFault);
        eff := Effect(None, Some(o));
      }
    }
  }

  /** Dispatch one event to the handler registered for it. */
  method Handle(cluster: Cluster, e: Event, env: Env) returns (eff: Effect)
    modifies cluster
    ensures (cluster.State(), eff) == Step(old(cluster.State()), e, env)
  {
    match e
    case KlusterAdded(k) => eff := OnKlusterAdd(cluster, k, env);
    case KlusterDeleted(k) => eff := OnKlusterDelete(cluster, k);
    case DeploymentDeleted(d) => eff := OnDeploymentDelete(cluster, d, env);
    case ServiceDeleted(v) => eff := OnServiceDelete(cluster, v, env);
  }
}
