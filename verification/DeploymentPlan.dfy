/** The plan filled in app by app and tunnel by tunnel (apps/portal/src/lib/deployment.ts),
    and what the finished plan promises the reconciler. */
module DeploymentPlan {
  import opened Common
  import opened Secrets
  import opened Templates
  import opened Deployment
  import opened Sorting
  import V = Validate
  import R = Render

  /* ── the services in the order they are put in the plan ── */

  /** A service put in the plan: whose it is, an app's or a tunnel's, its name and what it is. */
  datatype Owner = OfApp(id: string) | OfTunnel(id: string)
  datatype Addition = Addition(owner: Owner, name: string, service: V.Service)

  function ServicesFrom(w: World, app: App, def: Definition, services: seq<ServiceDef>): seq<Addition> {
    seq(|services|, i requires 0 <= i < |services| =>
      Addition(OfApp(app.id), ServiceName(app.id, services[i].id), ServiceOf(w, app, def, services[i])))
  }

  function AppsFrom(w: World, apps: seq<App>): seq<Addition> {
    if apps == [] then []
    else
      var app := apps[|apps| - 1];
      AppsFrom(w, apps[..|apps| - 1]) +
      (if Planned(w, app) then ServicesFrom(w, app, w.definitions[app.definitionId], w.definitions[app.definitionId].services) else [])
  }

  function ConnectorsFrom(w: World, tunnels: seq<Tunnel>): seq<Addition> {
    if tunnels == [] then []
    else
      var t := tunnels[|tunnels| - 1];
      ConnectorsFrom(w, tunnels[..|tunnels| - 1]) +
      (if RunsConnector(t) then [Addition(OfTunnel(t.id), ConnectorName(t.id), ConnectorOf(w, t))] else [])
  }

  function Additions(w: World): seq<Addition> {
    AppsFrom(w, w.apps) + ConnectorsFrom(w, w.tunnels)
  }

  /** Each takes the place of what has its name. */
  function PutAll(services: map<string, V.Service>, more: seq<Addition>): map<string, V.Service> {
    if more == [] then services
    else PutAll(services, more[..|more| - 1])[more[|more| - 1].name := more[|more| - 1].service]
  }

  lemma {:induction false} PutInTurn(services: map<string, V.Service>, a: seq<Addition>, b: seq<Addition>)
    ensures PutAll(services, a + b) == PutAll(PutAll(services, a), b)
    decreases |b|
  {
    if b == [] {
      assert a + b == a;
    } else {
      assert (a + b)[..|a + b| - 1] == a + b[..|b| - 1];
      PutInTurn(services, a, b[..|b| - 1]);
    }
  }

  lemma PutOne(services: map<string, V.Service>, more: seq<Addition>, one: Addition)
    ensures PutAll(services, more + [one]) == PutAll(services, more)[one.name := one.service]
  {
    assert (more + [one])[..|more|] == more;
  }

  /** A name stands for the last service put under it. */
  lemma {:induction false} LastStands(services: map<string, V.Service>, more: seq<Addition>, k: nat) returns (last: nat)
    requires k < |more|
    ensures k <= last < |more| && more[last].name == more[k].name
    ensures forall j :: last < j < |more| ==> more[j].name != more[k].name
    ensures more[k].name in PutAll(services, more) && PutAll(services, more)[more[k].name] == more[last].service
    decreases |more|
  {
    var n := |more| - 1;
    if more[n].name == more[k].name {
      last := n;
    } else {
      last := LastStands(services, more[..n], k);
    }
  }

  /* ── what is kept while the plan grows ── */

  /** A mount from beside the project is of a generated file. */
  predicate MountsGenerated(s: V.Service, files: set<string>) {
    forall m :: m in s.volumes && "./" <= V.Split(m, ':')[0] ==> V.Split(m, ':')[0][2..] in files
  }

  ghost predicate ServicesClosed(plan: V.Plan, pending: set<string>) {
    forall name :: name in plan.services ==>
      && V.ServiceClosed(plan.services[name], plan.services.Keys + pending, plan.volumes, plan.networks.Keys)
      && MountsGenerated(plan.services[name], plan.files.Keys)
  }

  ghost predicate FilesGood(plan: V.Plan) {
    forall f :: f in plan.files ==> V.ValidFilePath(f) && f != POLICY
  }

  ghost predicate BootstrapsClosed(plan: V.Plan) {
    forall b :: b in plan.bootstraps ==> V.BootstrapClosed(b, plan.services.Keys, plan.files.Keys)
  }

  /** The service is one of an app of the plan, or a tunnel's connector. */
  ghost predicate Origin(w: World, name: string, s: V.Service) {
    || (exists app, d :: app in w.apps && Planned(w, app) && d in w.definitions[app.definitionId].services
                         && name == ServiceName(app.id, d.id) && s == ServiceOf(w, app, w.definitions[app.definitionId], d))
    || (exists t :: t in w.tunnels && RunsConnector(t) && name == ConnectorName(t.id) && s == ConnectorOf(w, t))
  }

  ghost predicate Origins(w: World, plan: V.Plan) {
    forall name :: name in plan.services ==> Origin(w, name, plan.services[name])
  }

  ghost predicate Growing(w: World, plan: V.Plan, pending: set<string>) {
    && EDGE in plan.networks && ServicesClosed(plan, pending) && FilesGood(plan) && BootstrapsClosed(plan) && Origins(w, plan)
  }

  /** Nothing declared is taken away. */
  predicate Grew(before: V.Plan, now: V.Plan) {
    && before.services.Keys <= now.services.Keys && before.volumes <= now.volumes
    && before.networks.Keys <= now.networks.Keys && before.files.Keys <= now.files.Keys
  }

  lemma MountStays(m: string, volumes: set<string>, more: set<string>)
    requires V.ValidMount(m, volumes) && volumes <= more
    ensures V.ValidMount(m, more)
  {
  }

  lemma ServiceStays(s: V.Service, before: V.Plan, pending: set<string>, now: V.Plan, later: set<string>)
    requires V.ServiceClosed(s, before.services.Keys + pending, before.volumes, before.networks.Keys)
    requires MountsGenerated(s, before.files.Keys)
    requires Grew(before, now) && before.services.Keys + pending <= now.services.Keys + later
    ensures V.ServiceClosed(s, now.services.Keys + later, now.volumes, now.networks.Keys)
    ensures MountsGenerated(s, now.files.Keys)
  {
    forall m | m in s.volumes
      ensures V.ValidMount(m, now.volumes)
    {
      MountStays(m, before.volumes, now.volumes);
    }
  }

  /** What is closed stays closed while the plan grows by more than services. */
  lemma GrowingStays(w: World, before: V.Plan, now: V.Plan, pending: set<string>)
    requires Growing(w, before, pending) && Grew(before, now)
    requires now.services == before.services && now.bootstraps == before.bootstraps && FilesGood(now)
    ensures Growing(w, now, pending)
  {
    forall name | name in now.services
      ensures V.ServiceClosed(now.services[name], now.services.Keys + pending, now.volumes, now.networks.Keys)
      ensures MountsGenerated(now.services[name], now.files.Keys)
    {
      ServiceStays(before.services[name], before, pending, now, pending);
    }
  }

  lemma ServicePut(w: World, before: V.Plan, now: V.Plan, pending: set<string>, name: string, s: V.Service)
    requires Growing(w, before, pending) && now == before.(services := before.services[name := s])
    requires V.ServiceClosed(s, now.services.Keys + pending, now.volumes, now.networks.Keys)
    requires MountsGenerated(s, now.files.Keys) && Origin(w, name, s)
    ensures Growing(w, now, pending) && Grew(before, now)
  {
    assert now.services.Keys == before.services.Keys + {name};
    forall other | other in now.services
      ensures V.ServiceClosed(now.services[other], now.services.Keys + pending, now.volumes, now.networks.Keys)
      ensures MountsGenerated(now.services[other], now.files.Keys) && Origin(w, other, now.services[other])
    {
      if other != name {
        ServiceStays(before.services[other], before, pending, now, pending);
      }
    }
  }

  /* ── one service ── */

  lemma {:induction false} VolumeMountsValid(appId: string, volumes: seq<VolumeDef>, serviceId: string, declared: set<string>)
    requires Slug(appId) && forall v :: v in volumes ==> Slug(v.id) && ContainerPath(v.path)
    requires VolumeNames(appId, volumes, serviceId) <= declared
    ensures forall m :: m in VolumeMounts(appId, volumes, serviceId) ==>
              V.ValidMount(m, declared) && !("./" <= V.Split(m, ':')[0])
  {
    if volumes != [] {
      var n := |volumes| - 1;
      assert VolumeNames(appId, volumes[..n], serviceId) <= VolumeNames(appId, volumes, serviceId);
      VolumeMountsValid(appId, volumes[..n], serviceId, declared);
      var v := volumes[n];
      if v.service == serviceId {
        assert ServiceName(appId, v.id) in VolumeNames(appId, volumes, serviceId);
        JoinIsSlug(appId, v.id);
        VolumeMountValid(ServiceName(appId, v.id), v.path, declared);
      }
    }
  }

  lemma SettingsFrame()
    ensures Frame("apps/", "-settings.json") && Frame("apps/", "-bootstrap.sh")
  {
  }

  lemma OtherFrames()
    ensures Frame("authentik/kimono-", ".yaml") && Frame("generated/cloudflare-", ".yml") && Frame("generated/caddy-", ".caddy")
  {
  }

  lemma SettingsMountValid(appId: string, def: Definition, serviceId: string, declared: set<string>)
    requires Slug(appId) && ValidDefinition(def)
    ensures forall m :: m in SettingsMount(appId, def, serviceId) ==>
              V.ValidMount(m, declared) && V.Split(m, ':')[0] == "./" + SettingsPath(appId)
  {
    if def.settingsFile.Some? && def.settingsFile.value.service == serviceId {
      SettingsFrame();
      FramedPath("apps/", appId, "-settings.json");
      FileMountValid("./" + SettingsPath(appId), def.settingsFile.value.path, declared);
    }
  }

  /** An app's service refers to what the plan has, once the app's volumes, file and network
      are declared. */
  lemma ServiceOfClosed(w: World, app: App, def: Definition, d: ServiceDef, plan: V.Plan, services: set<string>)
    requires ValidDefinition(def) && Slug(app.id) && d in def.services
    requires forall other :: other in def.services ==> ServiceName(app.id, other.id) in services
    requires VolumeNames(app.id, def.volumes, d.id) <= plan.volumes
    requires EDGE in plan.networks && PrivateNetwork(app.id) in plan.networks
    requires SettingsMount(app.id, def, d.id) != [] ==> SettingsPath(app.id) in plan.files
    ensures V.ServiceClosed(ServiceOf(w, app, def, d), services, plan.volumes, plan.networks.Keys)
    ensures MountsGenerated(ServiceOf(w, app, def, d), plan.files.Keys)
  {
    VolumeMountsValid(app.id, def.volumes, d.id, plan.volumes);
    SettingsMountValid(app.id, def, d.id, plan.volumes);
    assert ("./" + SettingsPath(app.id))[2..] == SettingsPath(app.id);
    forall x | x in ServiceNames(app.id, d.dependsOn)
      ensures x in services
    {
      var i :| 0 <= i < |d.dependsOn| && x == ServiceName(app.id, d.dependsOn[i]);
      assert d.dependsOn[i] in d.dependsOn;
    }
  }

  /** The names of an app's services. */
  function NamesOf(appId: string, services: seq<ServiceDef>): set<string> {
    set d | d in services :: ServiceName(appId, d.id)
  }

  function ServiceAdded(w: World, app: App, def: Definition, d: ServiceDef, plan: V.Plan): V.Plan {
    plan.(volumes := plan.volumes + VolumeNames(app.id, def.volumes, d.id),
          files := if SettingsMount(app.id, def, d.id) == [] then plan.files
                   else plan.files[SettingsPath(app.id) := w.texts.settings(def, ContextOf(w, app, def))],
          services := plan.services[ServiceName(app.id, d.id) := ServiceOf(w, app, def, d)])
  }

  method AddService(w: World, app: App, def: Definition, d: ServiceDef, plan: V.Plan) returns (next: V.Plan)
    ensures next == ServiceAdded(w, app, def, d, plan)
  {
    var declared: set<string>, volumes: seq<string> := {}, [];
    for i := 0 to |def.volumes|
      invariant volumes == VolumeMounts(app.id, def.volumes[..i], d.id)
      invariant declared == VolumeNames(app.id, def.volumes[..i], d.id)
    {
      assert def.volumes[..i + 1][..i] == def.volumes[..i];
      NamesNext(app.id, def.volumes, i, d.id);
      var volume := def.volumes[i];
      if volume.service == d.id {
        declared := declared + {ServiceName(app.id, volume.id)};
        volumes := volumes + [ServiceName(app.id, volume.id) + ":" + volume.path];
      }
    }
    assert def.volumes[..|def.volumes|] == def.volumes;
    var environment := BuildEnvironment(w, app, def, d);
    var files := plan.files;
    if def.settingsFile.Some? && def.settingsFile.value.service == d.id {
      files := files[SettingsPath(app.id) := w.texts.settings(def, ContextOf(w, app, def))];
      volumes := volumes + ["./" + SettingsPath(app.id) + ":" + def.settingsFile.value.path + ":ro"];
    } else {
      assert volumes + [] == volumes;
    }
    var networks := if Routed(w, app, def, d.id) then [PrivateNetwork(app.id), EDGE] else [PrivateNetwork(app.id)];
    next := plan.(volumes := plan.volumes + declared, files := files,
                  services := plan.services[ServiceName(app.id, d.id) :=
                    V.Service(environment, ServiceNames(app.id, d.dependsOn), volumes, networks)]);
  }

  lemma NamesNext(appId: string, volumes: seq<VolumeDef>, i: nat, serviceId: string)
    requires i < |volumes|
    ensures VolumeNames(appId, volumes[..i + 1], serviceId) == VolumeNames(appId, volumes[..i], serviceId)
            + (if volumes[i].service == serviceId then {ServiceName(appId, volumes[i].id)} else {})
  {
    assert volumes[..i + 1] == volumes[..i] + [volumes[i]];
  }

  lemma SettingsPathGood(appId: string)
    requires Slug(appId)
    ensures V.ValidFilePath(SettingsPath(appId)) && SettingsPath(appId) != POLICY
    ensures V.ValidFilePath(BootstrapPath(appId)) && BootstrapPath(appId) != POLICY && V.APPS <= BootstrapPath(appId)
    ensures V.ValidFilePath(BlueprintPath(appId)) && BlueprintPath(appId) != POLICY
  {
    SettingsFrame();
    OtherFrames();
    FramedPath("apps/", appId, "-settings.json");
    FramedPath("apps/", appId, "-bootstrap.sh");
    FramedPath("authentik/kimono-", appId, ".yaml");
    assert SettingsPath(appId)[0] == BootstrapPath(appId)[0] == BlueprintPath(appId)[0] == 'a' != POLICY[0];
  }

  /** Adding a service keeps the growing plan closed, but for the services still to come. */
  lemma ServiceAddedKeeps(w: World, app: App, d: ServiceDef, plan: V.Plan)
    requires ValidWorld(w) && app in w.apps && Planned(w, app) && d in w.definitions[app.definitionId].services
    requires PrivateNetwork(app.id) in plan.networks
    requires Growing(w, plan, NamesOf(app.id, w.definitions[app.definitionId].services))
    ensures var def := w.definitions[app.definitionId];
            var next := ServiceAdded(w, app, def, d, plan);
            Growing(w, next, NamesOf(app.id, def.services)) && Grew(plan, next)
  {
    var def := w.definitions[app.definitionId];
    var next := ServiceAdded(w, app, def, d, plan);
    var pending := NamesOf(app.id, def.services);
    SettingsPathGood(app.id);
    var declared := next.(services := plan.services);
    GrowingStays(w, plan, declared, pending);
    ServiceOfClosed(w, app, def, d, declared, next.services.Keys + pending);
    ServicePut(w, declared, next, pending, ServiceName(app.id, d.id), ServiceOf(w, app, def, d));
  }

  /* ── one app ── */

  function AppBootstrap(app: App, def: Definition): seq<V.Bootstrap> {
    if def.bootstrap.None? then [] else [V.Bootstrap(ServiceName(app.id, def.bootstrap.value), BootstrapPath(app.id))]
  }

  method AddServices(w: World, app: App, plan: V.Plan) returns (next: V.Plan)
    requires ValidWorld(w) && app in w.apps && Planned(w, app) && Growing(w, plan, {})
    ensures Growing(w, next, {}) && Grew(plan, next) && NamesOf(app.id, w.definitions[app.definitionId].services) <= next.services.Keys
    ensures next.networks == plan.networks[PrivateNetwork(app.id) := !app.internetAccess]
    ensures next.bootstraps == plan.bootstraps
    ensures var def := w.definitions[app.definitionId];
            next.services == PutAll(plan.services, ServicesFrom(w, app, def, def.services))
  {
    var def := w.definitions[app.definitionId];
    ghost var pending := NamesOf(app.id, def.services);
    next := plan.(networks := plan.networks[PrivateNetwork(app.id) := !app.internetAccess]);
    GrowingStays(w, plan, next, {});
    MorePending(w, next, pending);
    for i := 0 to |def.services|
      invariant Adding(w, app, plan, next, i)
    {
      AddingNext(w, app, plan, next, i);
      next := AddService(w, app, def, def.services[i], next);
    }
    assert def.services[..|def.services|] == def.services;
    NonePending(w, next, pending);
  }

  /** The first i of an app's services are put in the plan. */
  ghost predicate Adding(w: World, app: App, plan: V.Plan, next: V.Plan, i: nat)
    requires Planned(w, app) && i <= |w.definitions[app.definitionId].services|
  {
    var def := w.definitions[app.definitionId];
    && Growing(w, next, NamesOf(app.id, def.services)) && Grew(plan, next)
    && NamesOf(app.id, def.services[..i]) <= next.services.Keys
    && next.networks == plan.networks[PrivateNetwork(app.id) := !app.internetAccess]
    && next.bootstraps == plan.bootstraps
    && next.services == PutAll(plan.services, ServicesFrom(w, app, def, def.services[..i]))
  }

  lemma AddingNext(w: World, app: App, plan: V.Plan, next: V.Plan, i: nat)
    requires ValidWorld(w) && app in w.apps && Planned(w, app) && i < |w.definitions[app.definitionId].services|
    requires Adding(w, app, plan, next, i)
    ensures var def := w.definitions[app.definitionId];
            Adding(w, app, plan, ServiceAdded(w, app, def, def.services[i], next), i + 1)
  {
    var def := w.definitions[app.definitionId];
    ServiceAddedKeeps(w, app, def.services[i], next);
    NextFrom(w, app, def, plan.services, i);
    assert def.services[..i + 1] == def.services[..i] + [def.services[i]];
  }

  lemma NextFrom(w: World, app: App, def: Definition, services: map<string, V.Service>, i: nat)
    requires i < |def.services|
    ensures var d := def.services[i];
            PutAll(services, ServicesFrom(w, app, def, def.services[..i + 1]))
            == PutAll(services, ServicesFrom(w, app, def, def.services[..i]))[ServiceName(app.id, d.id) := ServiceOf(w, app, def, d)]
  {
    var d := def.services[i];
    var one := Addition(OfApp(app.id), ServiceName(app.id, d.id), ServiceOf(w, app, def, d));
    assert ServicesFrom(w, app, def, def.services[..i + 1]) == ServicesFrom(w, app, def, def.services[..i]) + [one];
    PutOne(services, ServicesFrom(w, app, def, def.services[..i]), one);
  }

  lemma MorePending(w: World, plan: V.Plan, pending: set<string>)
    requires Growing(w, plan, {})
    ensures Growing(w, plan, pending)
  {
    forall name | name in plan.services
      ensures V.ServiceClosed(plan.services[name], plan.services.Keys + pending, plan.volumes, plan.networks.Keys)
    {
      ServiceStays(plan.services[name], plan, {}, plan, pending);
    }
  }

  lemma NonePending(w: World, plan: V.Plan, pending: set<string>)
    requires Growing(w, plan, pending) && pending <= plan.services.Keys
    ensures Growing(w, plan, {})
  {
    forall name | name in plan.services
      ensures V.ServiceClosed(plan.services[name], plan.services.Keys + {}, plan.volumes, plan.networks.Keys)
    {
      ServiceStays(plan.services[name], plan, pending, plan, {});
    }
  }

  /** Signs an app's people in: its blueprint, when a route leads to it. */
  predicate SignsIn(w: World, app: App, def: Definition) {
    def.connected && w.identityDomain != "" && AnyRouted(w, app, def)
  }

  lemma FileAdded(w: World, plan: V.Plan, path: string, text: string)
    requires Growing(w, plan, {}) && V.ValidFilePath(path) && path != POLICY
    ensures var next := plan.(files := plan.files[path := text]); Growing(w, next, {}) && Grew(plan, next)
  {
    GrowingStays(w, plan, plan.(files := plan.files[path := text]), {});
  }

  lemma BootstrapAdded(w: World, plan: V.Plan, b: V.Bootstrap)
    requires Growing(w, plan, {}) && V.BootstrapClosed(b, plan.services.Keys, plan.files.Keys)
    ensures Growing(w, plan.(bootstraps := plan.bootstraps + [b]), {})
  {
  }

  method AddApp(w: World, app: App, plan: V.Plan) returns (next: V.Plan)
    requires ValidWorld(w) && app in w.apps && Planned(w, app) && Growing(w, plan, {})
    ensures Growing(w, next, {}) && Grew(plan, next) && NamesOf(app.id, w.definitions[app.definitionId].services) <= next.services.Keys
    ensures next.networks == plan.networks[PrivateNetwork(app.id) := !app.internetAccess]
    ensures next.bootstraps == plan.bootstraps + AppBootstrap(app, w.definitions[app.definitionId])
    ensures SignsIn(w, app, w.definitions[app.definitionId]) ==> BlueprintPath(app.id) in next.files
    ensures var def := w.definitions[app.definitionId];
            next.services == PutAll(plan.services, ServicesFrom(w, app, def, def.services))
  {
    var def := w.definitions[app.definitionId];
    SettingsPathGood(app.id);
    next := AddServices(w, app, plan);
    var context := ContextOf(w, app, def);
    var signIn := SignsIn(w, app, def);
    if signIn {
      FileAdded(w, next, BlueprintPath(app.id), w.texts.blueprint(app, def, context));
      next := next.(files := next.files[BlueprintPath(app.id) := w.texts.blueprint(app, def, context)]);
    }
    if def.bootstrap.Some? {
      var scoped := if signIn then context else context.(oidc := None);
      FileAdded(w, next, BootstrapPath(app.id), w.texts.bootstrap(app, def, scoped));
      next := next.(files := next.files[BootstrapPath(app.id) := w.texts.bootstrap(app, def, scoped)]);
      var b := V.Bootstrap(ServiceName(app.id, def.bootstrap.value), BootstrapPath(app.id));
      BootstrapAdded(w, next, b);
      next := next.(bootstraps := next.bootstraps + [b]);
    }
  }

  /* ── one tunnel ── */

  lemma TunnelPathsGood(id: string)
    requires Slug(id)
    ensures V.ValidFilePath(ConfigPath(id)) && ConfigPath(id) != POLICY
    ensures V.ValidFilePath(SitesPath(id)) && SitesPath(id) != POLICY
  {
    OtherFrames();
    FramedPath("generated/cloudflare-", id, ".yml");
    FramedPath("generated/caddy-", id, ".caddy");
    assert ConfigPath(id)[0] == SitesPath(id)[0] == 'g' != POLICY[0];
  }

  lemma FixedPaths()
    ensures ContainerPath(CONFIG) && ContainerPath(CREDENTIALS)
  {
  }

  /** A connector refers to the edge network and the file the plan has for it. */
  lemma ConnectorClosed(w: World, t: Tunnel, plan: V.Plan, services: set<string>)
    requires ValidWorld(w) && t in w.tunnels && EDGE in plan.networks
    requires t.hasToken || ConfigPath(t.id) in plan.files
    ensures V.ServiceClosed(ConnectorOf(w, t), services, plan.volumes, plan.networks.Keys)
    ensures MountsGenerated(ConnectorOf(w, t), plan.files.Keys)
  {
    if !t.hasToken {
      OtherFrames();
      FixedPaths();
      FramedPath("generated/cloudflare-", t.id, ".yml");
      FileMountValid("./" + ConfigPath(t.id), CONFIG, plan.volumes);
      assert ("./" + ConfigPath(t.id))[2..] == ConfigPath(t.id);
      CredentialsMountValid(w, t.id, plan.volumes);
    }
  }

  lemma CredentialsMountValid(w: World, id: string, volumes: set<string>)
    requires ValidWorld(w) && Slug(id)
    ensures var m := w.texts.credentialsPath(id) + ":" + CREDENTIALS + ":ro";
            V.ValidMount(m, volumes) && !("./" <= V.Split(m, ':')[0])
  {
    FixedPaths();
    FileMountValid(w.texts.credentialsPath(id), CREDENTIALS, volumes);
  }

  method AddTunnel(w: World, t: Tunnel, plan: V.Plan) returns (next: V.Plan)
    requires ValidWorld(w) && t in w.tunnels && t.enabled && Growing(w, plan, {})
    ensures Growing(w, next, {}) && Grew(plan, next)
    ensures next.networks == plan.networks && next.bootstraps == plan.bootstraps
    ensures next.services == if RunsConnector(t) then plan.services[ConnectorName(t.id) := ConnectorOf(w, t)] else plan.services
    ensures t.provider.Direct? && w.portalHostname != "" && Targets(w, t, w.routes) != [] ==> SitesPath(t.id) in next.files
  {
    var targets := Targets(w, t, w.routes);
    TunnelPathsGood(t.id);
    next := plan;
    match t.provider
    case NotRendered =>
    case Direct =>
      if targets != [] && w.portalHostname != "" {
        FileAdded(w, next, SitesPath(t.id), w.texts.sites(targets));
        next := next.(files := next.files[SitesPath(t.id) := w.texts.sites(targets)]);
      }
    case Cloudflare =>
      if t.hasToken {
        next := AddConnector(w, t, next);
      } else if t.tunnelId != "" && t.credentialFile != "" {
        FileAdded(w, next, ConfigPath(t.id), w.texts.ingress(t, targets));
        next := next.(files := next.files[ConfigPath(t.id) := w.texts.ingress(t, targets)]);
        next := AddConnector(w, t, next);
      }
  }

  method AddConnector(w: World, t: Tunnel, plan: V.Plan) returns (next: V.Plan)
    requires ValidWorld(w) && t in w.tunnels && RunsConnector(t) && Growing(w, plan, {})
    requires t.hasToken || ConfigPath(t.id) in plan.files
    ensures Growing(w, next, {}) && Grew(plan, next)
    ensures next == plan.(services := plan.services[ConnectorName(t.id) := ConnectorOf(w, t)])
  {
    next := plan.(services := plan.services[ConnectorName(t.id) := ConnectorOf(w, t)]);
    ConnectorClosed(w, t, next, next.services.Keys + {});
    ServicePut(w, plan, next, {}, ConnectorName(t.id), ConnectorOf(w, t));
  }

  /* ── secrets ── */

  /** A service's environment or a file refers to the secret. */
  predicate Mentions(services: map<string, V.Service>, files: map<string, string>, secret: string) {
    || (exists name, key :: name in services && key in services[name].environment
                            && secret in References(services[name].environment[key], 0))
    || (exists file :: file in files && secret in References(files[file], 0))
  }

  function AllOf(values: map<string, string>): set<string> {
    set key, n | key in values && n in References(values[key], 0) :: n
  }

  method ScanAll(values: map<string, string>) returns (names: set<string>)
    ensures names == AllOf(values)
  {
    names := {};
    var keys := values.Keys;
    while keys != {}
      invariant keys <= values.Keys
      invariant forall n :: n in names <==> exists key :: key in values && key !in keys && n in References(values[key], 0)
      decreases |keys|
    {
      var key :| key in keys;
      names := names + set n | n in References(values[key], 0);
      keys := keys - {key};
    }
  }

  method CollectSecretNames(services: map<string, V.Service>, files: map<string, string>) returns (secrets: seq<string>)
    ensures StrictlySorted(secrets)
    ensures forall n :: n in secrets <==> Mentions(services, files, n)
  {
    var names := ScanAll(files);
    var keys := services.Keys;
    while keys != {}
      invariant keys <= services.Keys
      invariant forall n :: n in names <==>
                  n in AllOf(files) || exists name :: name in services && name !in keys && n in AllOf(services[name].environment)
      decreases |keys|
    {
      var name :| name in keys;
      var more := ScanAll(services[name].environment);
      names := names + more;
      keys := keys - {name};
    }
    secrets := SortedKeys(names);
  }

  /* ── the whole plan ── */

  function BootstrapsOf(w: World, apps: seq<App>): seq<V.Bootstrap> {
    if apps == [] then []
    else
      var n := |apps| - 1;
      BootstrapsOf(w, apps[..n]) +
      (if Planned(w, apps[n]) then AppBootstrap(apps[n], w.definitions[apps[n].definitionId]) else [])
  }

  /** The app's services are there, and its network is, cut off or not. */
  predicate AppIn(w: World, app: App, plan: V.Plan)
    requires Planned(w, app)
  {
    && NamesOf(app.id, w.definitions[app.definitionId].services) <= plan.services.Keys
    && PrivateNetwork(app.id) in plan.networks && plan.networks[PrivateNetwork(app.id)] == !app.internetAccess
  }

  ghost predicate AppsIn(w: World, apps: seq<App>, plan: V.Plan) {
    && (forall app :: app in apps && Planned(w, app) ==> AppIn(w, app, plan))
    && forall n :: n in plan.networks && n != EDGE ==> exists app :: app in apps && Planned(w, app) && n == PrivateNetwork(app.id)
  }

  lemma PrivateNetworksDiffer(a: string, b: string)
    requires Slug(a) && Slug(b)
    ensures PrivateNetwork(a) == PrivateNetwork(b) ==> a == b
    ensures PrivateNetwork(a) != EDGE
  {
    if PrivateNetwork(a) == PrivateNetwork(b) {
      assert a == PrivateNetwork(a)[..|PrivateNetwork(a)| - 8];
    }
    assert PrivateNetwork(a)[|PrivateNetwork(a)| - 8..] == "-private";
    assert PrivateNetwork(a)[|PrivateNetwork(a)| - 3] == 'a';
    assert EDGE[|EDGE| - 3] == 'd';
  }

  lemma AppStays(w: World, app: App, added: App, before: V.Plan, now: V.Plan)
    requires Planned(w, app) && AppIn(w, app, before) && Slug(app.id) && Slug(added.id) && app.id != added.id
    requires Grew(before, now) && now.networks == before.networks[PrivateNetwork(added.id) := !added.internetAccess]
    ensures AppIn(w, app, now)
  {
    PrivateNetworksDiffer(app.id, added.id);
  }

  lemma NetworksNext(w: World, apps: seq<App>, app: App, before: V.Plan, now: V.Plan)
    requires AppsIn(w, apps, before) && Planned(w, app)
    requires now.networks == before.networks[PrivateNetwork(app.id) := !app.internetAccess]
    ensures forall n :: n in now.networks && n != EDGE ==>
              exists a :: a in apps + [app] && Planned(w, a) && n == PrivateNetwork(a.id)
  {
    forall n | n in now.networks && n != EDGE
      ensures exists a :: a in apps + [app] && Planned(w, a) && n == PrivateNetwork(a.id)
    {
      if n == PrivateNetwork(app.id) {
        assert app in apps + [app];
      } else {
        var a :| a in apps && Planned(w, a) && n == PrivateNetwork(a.id);
        assert a in apps + [app];
      }
    }
  }

  lemma AppsNext(w: World, i: nat, before: V.Plan, now: V.Plan)
    requires ValidWorld(w) && i < |w.apps| && AppsIn(w, w.apps[..i], before) && Planned(w, w.apps[i])
    requires Grew(before, now) && AppIn(w, w.apps[i], now)
    requires now.networks == before.networks[PrivateNetwork(w.apps[i].id) := !w.apps[i].internetAccess]
    ensures AppsIn(w, w.apps[..i + 1], now)
  {
    assert w.apps[..i + 1] == w.apps[..i] + [w.apps[i]];
    NetworksNext(w, w.apps[..i], w.apps[i], before, now);
    forall app | app in w.apps[..i] && Planned(w, app)
      ensures AppIn(w, app, now)
    {
      var k :| 0 <= k < i && w.apps[k] == app;
      AppStays(w, app, w.apps[i], before, now);
    }
  }

  lemma AppsSkip(w: World, i: nat, plan: V.Plan)
    requires i < |w.apps| && AppsIn(w, w.apps[..i], plan) && !Planned(w, w.apps[i])
    ensures AppsIn(w, w.apps[..i + 1], plan)
  {
    assert w.apps[..i + 1] == w.apps[..i] + [w.apps[i]];
    forall n | n in plan.networks && n != EDGE
      ensures exists app :: app in w.apps[..i + 1] && Planned(w, app) && n == PrivateNetwork(app.id)
    {
      var app :| app in w.apps[..i] && Planned(w, app) && n == PrivateNetwork(app.id);
      assert app in w.apps[..i + 1];
    }
  }

  method AddApps(w: World) returns (plan: V.Plan)
    requires ValidWorld(w)
    ensures Growing(w, plan, {}) && AppsIn(w, w.apps, plan) && plan.bootstraps == BootstrapsOf(w, w.apps)
    ensures plan.services == PutAll(map[], AppsFrom(w, w.apps))
  {
    plan := V.Plan(map[], {}, map[EDGE := false], map[], [], []);
    for i := 0 to |w.apps|
      invariant Growing(w, plan, {}) && AppsIn(w, w.apps[..i], plan) && plan.bootstraps == BootstrapsOf(w, w.apps[..i])
      invariant plan.services == PutAll(map[], AppsFrom(w, w.apps[..i]))
    {
      ghost var before := plan;
      AppsFromNext(w, i);
      assert w.apps[..i + 1][..i] == w.apps[..i];
      var app := w.apps[i];
      if app.enabled && app.definitionId != "kimono-portal" && app.definitionId in w.definitions
         && !w.definitions[app.definitionId].portal {
        plan := AddApp(w, app, plan);
        AppsNext(w, i, before, plan);
      } else {
        AppsSkip(w, i, plan);
      }
    }
    assert w.apps[..|w.apps|] == w.apps;
  }

  lemma AppsFromNext(w: World, i: nat)
    requires i < |w.apps|
    ensures var app := w.apps[i];
            PutAll(map[], AppsFrom(w, w.apps[..i + 1]))
            == if !Planned(w, app) then PutAll(map[], AppsFrom(w, w.apps[..i]))
               else var def := w.definitions[app.definitionId];
                    PutAll(PutAll(map[], AppsFrom(w, w.apps[..i])), ServicesFrom(w, app, def, def.services))
  {
    var app := w.apps[i];
    assert w.apps[..i + 1][..i] == w.apps[..i];
    if Planned(w, app) {
      var def := w.definitions[app.definitionId];
      PutInTurn(map[], AppsFrom(w, w.apps[..i]), ServicesFrom(w, app, def, def.services));
    } else {
      assert AppsFrom(w, w.apps[..i]) + [] == AppsFrom(w, w.apps[..i]);
    }
  }

  lemma ConnectorsFromNext(w: World, services: map<string, V.Service>, i: nat)
    requires i < |w.tunnels|
    ensures var t, before := w.tunnels[i], PutAll(services, ConnectorsFrom(w, w.tunnels[..i]));
            PutAll(services, ConnectorsFrom(w, w.tunnels[..i + 1]))
            == if RunsConnector(t) then before[ConnectorName(t.id) := ConnectorOf(w, t)] else before
  {
    var t := w.tunnels[i];
    assert w.tunnels[..i + 1][..i] == w.tunnels[..i];
    if RunsConnector(t) {
      PutOne(services, ConnectorsFrom(w, w.tunnels[..i]), Addition(OfTunnel(t.id), ConnectorName(t.id), ConnectorOf(w, t)));
    } else {
      assert ConnectorsFrom(w, w.tunnels[..i]) + [] == ConnectorsFrom(w, w.tunnels[..i]);
    }
  }

  lemma AppsStay(w: World, before: V.Plan, now: V.Plan)
    requires AppsIn(w, w.apps, before) && Grew(before, now) && now.networks == before.networks
    ensures AppsIn(w, w.apps, now)
  {
  }

  predicate ConnectorsIn(tunnels: seq<Tunnel>, plan: V.Plan) {
    forall t :: t in tunnels && RunsConnector(t) ==> ConnectorName(t.id) in plan.services
  }

  lemma TunnelsNext(tunnels: seq<Tunnel>, i: nat, before: V.Plan, now: V.Plan)
    requires i < |tunnels| && ConnectorsIn(tunnels[..i], before) && Grew(before, now)
    requires RunsConnector(tunnels[i]) ==> ConnectorName(tunnels[i].id) in now.services
    ensures ConnectorsIn(tunnels[..i + 1], now)
  {
    assert tunnels[..i + 1] == tunnels[..i] + [tunnels[i]];
  }

  method AddTunnels(w: World, plan: V.Plan) returns (next: V.Plan)
    requires ValidWorld(w) && Growing(w, plan, {}) && AppsIn(w, w.apps, plan)
    ensures Growing(w, next, {}) && AppsIn(w, w.apps, next) && ConnectorsIn(w.tunnels, next)
    ensures next.bootstraps == plan.bootstraps
    ensures next.services == PutAll(plan.services, ConnectorsFrom(w, w.tunnels))
  {
    next := plan;
    for i := 0 to |w.tunnels|
      invariant Growing(w, next, {}) && AppsIn(w, w.apps, next) && ConnectorsIn(w.tunnels[..i], next)
      invariant next.bootstraps == plan.bootstraps
      invariant next.services == PutAll(plan.services, ConnectorsFrom(w, w.tunnels[..i]))
    {
      ghost var before := next;
      ConnectorsFromNext(w, plan.services, i);
      if w.tunnels[i].enabled {
        next := AddTunnel(w, w.tunnels[i], next);
        AppsStay(w, before, next);
      }
      TunnelsNext(w.tunnels, i, before, next);
    }
    assert w.tunnels[..|w.tunnels|] == w.tunnels;
  }

  /** What a finished plan promises: everything it refers to is declared and every file it
      mounts is generated; every service is an app's or a tunnel's, and none is missing; and
      its secrets are exactly the ones referred to, but for the mesh policy's. */
  ghost predicate Finished(w: World, plan: V.Plan) {
    && V.Closed(plan)
    && (forall name :: name in plan.services ==> MountsGenerated(plan.services[name], plan.files.Keys))
    && Origins(w, plan) && AppsIn(w, w.apps, plan) && ConnectorsIn(w.tunnels, plan)
    && plan.services == PutAll(map[], Additions(w))
    && plan.bootstraps == BootstrapsOf(w, w.apps)
    && POLICY in plan.files && plan.files[POLICY] == w.texts.policy
    && StrictlySorted(plan.secrets)
    && forall n :: n in plan.secrets <==> Mentions(plan.services, plan.files - {POLICY}, n)
  }

  method RenderDeploymentPlan(w: World) returns (plan: V.Plan)
    requires ValidWorld(w)
    ensures Finished(w, plan)
  {
    plan := AddApps(w);
    plan := AddTunnels(w, plan);
    ghost var grown := plan;
    PutInTurn(map[], AppsFrom(w, w.apps), ConnectorsFrom(w, w.tunnels));
    var secrets := CollectSecretNames(plan.services, plan.files);
    plan := plan.(secrets := secrets);
    plan := plan.(files := plan.files[POLICY := w.texts.policy]);
    PolicyAdded(w, grown, plan);
  }

  lemma PolicyIsFile()
    ensures V.ValidFilePath(POLICY)
  {
  }

  lemma PolicyAdded(w: World, grown: V.Plan, plan: V.Plan)
    requires Growing(w, grown, {}) && AppsIn(w, w.apps, grown) && ConnectorsIn(w.tunnels, grown)
    requires plan == grown.(secrets := plan.secrets, files := grown.files[POLICY := w.texts.policy])
    ensures V.Closed(plan) && Origins(w, plan) && AppsIn(w, w.apps, plan) && ConnectorsIn(w.tunnels, plan)
    ensures forall name :: name in plan.services ==> MountsGenerated(plan.services[name], plan.files.Keys)
    ensures plan.files - {POLICY} == grown.files
  {
    PolicyIsFile();
    AppsStay(w, grown, plan);
    forall name | name in plan.services
      ensures V.ServiceClosed(plan.services[name], plan.services.Keys, plan.volumes, plan.networks.Keys)
      ensures MountsGenerated(plan.services[name], plan.files.Keys)
    {
      StaysBesidePolicy(grown, plan, name);
    }
    assert plan.files - {POLICY} == grown.files;
  }

  lemma StaysBesidePolicy(grown: V.Plan, plan: V.Plan, name: string)
    requires ServicesClosed(grown, {}) && name in plan.services && Grew(grown, plan) && plan.services == grown.services
    ensures V.ServiceClosed(plan.services[name], plan.services.Keys, plan.volumes, plan.networks.Keys)
    ensures MountsGenerated(plan.services[name], plan.files.Keys)
  {
    ServiceStays(grown.services[name], grown, {}, plan, {});
    assert plan.services.Keys + {} == plan.services.Keys;
  }

  /* ── what follows ── */

  /** Once the plan's secrets are published, a render finds every value exactly when the
      mesh policy refers to none but published ones. */
  lemma RenderFindsAll(w: World, plan: V.Plan, compose: string, secrets: Values)
    requires Finished(w, plan) && forall n :: n in plan.secrets ==> n in secrets
    ensures R.Complete(R.Plan(plan.secrets, plan.files, compose), secrets)
            <==> forall n :: n in References(w.texts.policy, 0) ==> n in secrets
  {
    forall f | f in plan.files
      ensures Missing(plan.files[f], 0, secrets) == [] <==> forall n :: n in References(plan.files[f], 0) ==> n in secrets
      ensures f != POLICY ==> Missing(plan.files[f], 0, secrets) == []
    {
      MissingIff(plan.files[f], 0, secrets);
      if f != POLICY {
        var collected := plan.files - {POLICY};
        assert f in collected && collected[f] == plan.files[f];
        forall n | n in References(plan.files[f], 0)
          ensures n in secrets
        {
          assert Mentions(plan.services, collected, n);
        }
      }
    }
  }

  /** Two services that share a network other than the edge are of one app. */
  lemma PrivateStaysPrivate(w: World, plan: V.Plan, one: string, other: string, network: string)
    returns (app: App, a: ServiceDef, b: ServiceDef)
    requires ValidWorld(w) && Origins(w, plan) && one in plan.services && other in plan.services
    requires network in plan.services[one].networks && network in plan.services[other].networks && network != EDGE
    ensures app in w.apps && Planned(w, app) && network == PrivateNetwork(app.id)
    ensures var services := w.definitions[app.definitionId].services;
            a in services && b in services && one == ServiceName(app.id, a.id) && other == ServiceName(app.id, b.id)
  {
    app, a := AppOf(w, one, plan.services[one], network);
    var app', b' := AppOf(w, other, plan.services[other], network);
    JoinsPrivate(w, app, a, one, network);
    JoinsPrivate(w, app', b', other, network);
    PrivateNetworksDiffer(app.id, app'.id);
    OneApp(w, app, app');
    b := b';
  }

  /** One app's id continues the other's after a dash, and its own names go on where the
      other's do. */
  predicate Continues(a: string, x: string, b: string, y: string) {
    a + "-" <= b && x == b[|a| + 1..] + "-" + y
  }

  /** Two names joined of app and volume, or app and service, are the same. */
  predicate NamesMeet(a: string, x: string, b: string, y: string) {
    (a == b && x == y) || Continues(a, x, b, y) || Continues(b, y, a, x)
  }

  lemma ShorterContinues(a: string, x: string, b: string, y: string)
    requires |a| < |b| && ServiceName(a, x) == ServiceName(b, y)
    ensures Continues(a, x, b, y)
  {
    var joined := ServiceName(a, x);
    assert joined[..|a| + 1] == a + "-" && joined[..|a| + 1] == b[..|a| + 1];
    assert x == joined[|a| + 1..];
    assert joined[|a| + 1..] == b[|a| + 1..] + "-" + y;
  }

  lemma ContinuedMeets(a: string, x: string, b: string, y: string)
    requires Continues(a, x, b, y)
    ensures ServiceName(a, x) == ServiceName(b, y)
  {
    assert b == a + "-" + b[|a| + 1..];
  }

  lemma JoinedAlikeIff(a: string, x: string, b: string, y: string)
    ensures ServiceName(a, x) == ServiceName(b, y) <==> NamesMeet(a, x, b, y)
  {
    if ServiceName(a, x) == ServiceName(b, y) {
      if |a| < |b| {
        ShorterContinues(a, x, b, y);
      } else if |b| < |a| {
        ShorterContinues(b, y, a, x);
      } else {
        assert a == ServiceName(a, x)[..|a|] && x == ServiceName(a, x)[|a| + 1..];
      }
    }
    if Continues(a, x, b, y) {
      ContinuedMeets(a, x, b, y);
    }
    if Continues(b, y, a, x) {
      ContinuedMeets(b, y, a, x);
    }
  }

  /** Volumes of two services are the same one exactly when their joined names meet: apps
      whose ids do not continue each other share none. */
  lemma VolumesSharedIff(a: string, owns: seq<VolumeDef>, one: string, b: string, others: seq<VolumeDef>, other: string)
    ensures VolumeNames(a, owns, one) * VolumeNames(b, others, other) != {}
            <==> exists u, v :: u in owns && u.service == one && v in others && v.service == other && NamesMeet(a, u.id, b, v.id)
  {
    if name :| name in VolumeNames(a, owns, one) * VolumeNames(b, others, other) {
      var u :| u in owns && u.service == one && ServiceName(a, u.id) == name;
      var v :| v in others && v.service == other && ServiceName(b, v.id) == name;
      JoinedAlikeIff(a, u.id, b, v.id);
    }
    if u, v :| u in owns && u.service == one && v in others && v.service == other && NamesMeet(a, u.id, b, v.id) {
      JoinedAlikeIff(a, u.id, b, v.id);
      assert ServiceName(a, u.id) in VolumeNames(a, owns, one) * VolumeNames(b, others, other);
    }
  }

  /** App "a" with volume "b-c" and app "a-b" with volume "c" have the same volume. */
  lemma VolumesCanBeShared()
    ensures NamesMeet("a", "b-c", "a-b", "c") && ServiceName("a", "b-c") == ServiceName("a-b", "c")
  {
    assert "a-b"[|"a"| + 1..] == "b";
  }

  lemma OneApp(w: World, a: App, b: App)
    requires ValidWorld(w) && a in w.apps && b in w.apps && a.id == b.id
    ensures a == b
  {
    var i :| 0 <= i < |w.apps| && w.apps[i] == a;
    var j :| 0 <= j < |w.apps| && w.apps[j] == b;
  }

  /** The service is the app's, and on the network as the app's service is. */
  predicate Joins(w: World, app: App, d: ServiceDef, name: string, network: string) {
    && app in w.apps && Planned(w, app) && d in w.definitions[app.definitionId].services
    && name == ServiceName(app.id, d.id) && network in NetworksOf(w, app, w.definitions[app.definitionId], d.id)
  }

  lemma ServiceNetworks(w: World, app: App, def: Definition, d: ServiceDef, s: V.Service)
    requires s == ServiceOf(w, app, def, d)
    ensures s.networks == NetworksOf(w, app, def, d.id)
  {
  }

  lemma ConnectorNetworks(w: World, t: Tunnel)
    ensures ConnectorOf(w, t).networks == [EDGE]
  {
  }

  lemma OriginJoins(w: World, name: string, s: V.Service, network: string)
    requires Origin(w, name, s) && network in s.networks
    ensures (network == EDGE && exists t :: t in w.tunnels && RunsConnector(t) && name == ConnectorName(t.id))
            || exists app, d :: Joins(w, app, d, name, network)
  {
    if t :| t in w.tunnels && RunsConnector(t) && name == ConnectorName(t.id) && s == ConnectorOf(w, t) {
      ConnectorNetworks(w, t);
    } else {
      var app, d :| app in w.apps && Planned(w, app) && d in w.definitions[app.definitionId].services
                    && name == ServiceName(app.id, d.id) && s == ServiceOf(w, app, w.definitions[app.definitionId], d);
      ServiceNetworks(w, app, w.definitions[app.definitionId], d, s);
      assert Joins(w, app, d, name, network);
    }
  }

  lemma JoinsPrivate(w: World, app: App, d: ServiceDef, name: string, network: string)
    requires ValidWorld(w) && Joins(w, app, d, name, network) && network != EDGE
    ensures network == PrivateNetwork(app.id) && Slug(app.id)
  {
    var i :| 0 <= i < |w.apps| && w.apps[i] == app;
  }

  lemma AppOf(w: World, name: string, s: V.Service, network: string) returns (app: App, d: ServiceDef)
    requires Origin(w, name, s) && network in s.networks && network != EDGE
    ensures Joins(w, app, d, name, network)
  {
    OriginJoins(w, name, s, network);
    app, d :| Joins(w, app, d, name, network);
  }

  /** A service is on the edge only when it is a tunnel's connector or a route leads to it. */
  lemma EdgeOnlyRouted(w: World, plan: V.Plan, name: string)
    requires ValidWorld(w) && Origins(w, plan) && name in plan.services && EDGE in plan.services[name].networks
    ensures (exists t :: t in w.tunnels && RunsConnector(t) && name == ConnectorName(t.id))
            || exists app, d :: app in w.apps && Planned(w, app) && d in w.definitions[app.definitionId].services
                                && name == ServiceName(app.id, d.id) && Routed(w, app, w.definitions[app.definitionId], d.id)
  {
    OriginJoins(w, name, plan.services[name], EDGE);
    if app, d :| Joins(w, app, d, name, EDGE) {
      PrivateNetworksDiffer(app.id, app.id);
      assert Routed(w, app, w.definitions[app.definitionId], d.id);
    }
  }

  /* ── whose service a name stands for ── */

  /** The service is put in the plan, for the k-th time something is. */
  predicate PutAt(w: World, app: App, d: ServiceDef, k: nat) {
    && app in w.apps && Planned(w, app) && d in w.definitions[app.definitionId].services
    && k < |Additions(w)|
    && Additions(w)[k] == Addition(OfApp(app.id), ServiceName(app.id, d.id),
                                   ServiceOf(w, app, w.definitions[app.definitionId], d))
  }

  /** No two services of the definition have one id. */
  predicate DistinctServices(def: Definition) {
    forall i, j :: 0 <= i < j < |def.services| ==> def.services[i].id != def.services[j].id
  }

  lemma {:induction false} AppsFromHas(w: World, apps: seq<App>, app: App, d: ServiceDef) returns (k: nat)
    requires app in apps && Planned(w, app) && d in w.definitions[app.definitionId].services
    ensures k < |AppsFrom(w, apps)|
    ensures AppsFrom(w, apps)[k] == Addition(OfApp(app.id), ServiceName(app.id, d.id),
                                             ServiceOf(w, app, w.definitions[app.definitionId], d))
    decreases |apps|
  {
    var n := |apps| - 1;
    if apps[n] == app {
      var def := w.definitions[app.definitionId];
      var i :| 0 <= i < |def.services| && def.services[i] == d;
      k := |AppsFrom(w, apps[..n])| + i;
    } else {
      k := AppsFromHas(w, apps[..n], app, d);
    }
  }

  lemma IsPutAt(w: World, app: App, d: ServiceDef) returns (k: nat)
    requires app in w.apps && Planned(w, app) && d in w.definitions[app.definitionId].services
    ensures PutAt(w, app, d, k)
  {
    k := AppsFromHas(w, w.apps, app, d);
  }

  /** What an app put in the plan is on its private network, and first on it. */
  lemma {:induction false} AppsFromPrivate(w: World, apps: seq<App>, k: nat)
    requires k < |AppsFrom(w, apps)|
    ensures var one := AppsFrom(w, apps)[k];
            && one.owner.OfApp? && one.service.networks != [] && one.service.networks[0] == PrivateNetwork(one.owner.id)
            && exists app :: app in apps && app.id == one.owner.id
    decreases |apps|
  {
    var n := |apps| - 1;
    if k < |AppsFrom(w, apps[..n])| {
      AppsFromPrivate(w, apps[..n], k);
      var app :| app in apps[..n] && app.id == AppsFrom(w, apps[..n])[k].owner.id;
      assert app in apps;
    } else {
      assert apps[n] in apps;
    }
  }

  lemma {:induction false} ConnectorsFromEdge(w: World, tunnels: seq<Tunnel>, k: nat)
    requires k < |ConnectorsFrom(w, tunnels)|
    ensures ConnectorsFrom(w, tunnels)[k].owner.OfTunnel? && ConnectorsFrom(w, tunnels)[k].service.networks == [EDGE]
    decreases |tunnels|
  {
    var n := |tunnels| - 1;
    if k < |ConnectorsFrom(w, tunnels[..n])| {
      ConnectorsFromEdge(w, tunnels[..n], k);
    }
  }

  /** An app's service and what anyone else puts in the plan are on different networks. */
  lemma OthersDiffer(w: World, k: nat, j: nat)
    requires ValidWorld(w) && k < |Additions(w)| && j < |Additions(w)|
    requires Additions(w)[k].owner.OfApp? && Additions(w)[j].owner != Additions(w)[k].owner
    ensures Additions(w)[k].service != Additions(w)[j].service
  {
    NetworkOfAddition(w, k);
    NetworkOfAddition(w, j);
    var one, other := Additions(w)[k].owner.id, Additions(w)[j].owner.id;
    PrivateNetworksDiffer(one, if Additions(w)[j].owner.OfApp? then other else one);
  }

  lemma NetworkOfAddition(w: World, k: nat)
    requires ValidWorld(w) && k < |Additions(w)|
    ensures var one := Additions(w)[k];
            && one.service.networks != []
            && one.service.networks[0] == (if one.owner.OfApp? then PrivateNetwork(one.owner.id) else EDGE)
            && (one.owner.OfApp? ==> Slug(one.owner.id))
  {
    var n := |AppsFrom(w, w.apps)|;
    if k < n {
      AppsFromPrivate(w, w.apps, k);
      var app :| app in w.apps && app.id == Additions(w)[k].owner.id;
      var i :| 0 <= i < |w.apps| && w.apps[i] == app;
    } else {
      ConnectorsFromEdge(w, w.tunnels, k - n);
    }
  }

  /** Nothing put in the plan after the service has its name. */
  ghost predicate Unreplaced(w: World, app: App, d: ServiceDef) {
    exists k: nat :: PutAt(w, app, d, k) && NothingLater(Additions(w), k)
  }

  predicate NothingLater(all: seq<Addition>, k: nat)
    requires k < |all|
  {
    forall j :: k < j < |all| ==> all[j].name != all[k].name
  }

  lemma ServiceNameSplits(appId: string, a: string, b: string)
    requires ServiceName(appId, a) == ServiceName(appId, b)
    ensures a == b
  {
    assert a == ServiceName(appId, a)[|appId| + 1..] && b == ServiceName(appId, b)[|appId| + 1..];
  }

  lemma NamesDiffer(w: World, app: App, def: Definition, a: nat, b: nat)
    requires DistinctServices(def) && a < b < |def.services|
    ensures var all := ServicesFrom(w, app, def, def.services); all[a].name != all[b].name
  {
    if ServiceName(app.id, def.services[a].id) == ServiceName(app.id, def.services[b].id) {
      ServiceNameSplits(app.id, def.services[a].id, def.services[b].id);
    }
  }

  predicate DistinctApps(apps: seq<App>) {
    forall i, j :: 0 <= i < j < |apps| ==> apps[i].id != apps[j].id
  }

  lemma SameId(apps: seq<App>, a: App, b: App)
    requires DistinctApps(apps) && a in apps && b in apps && a.id == b.id
    ensures a == b
  {
    var i :| 0 <= i < |apps| && apps[i] == a;
    var j :| 0 <= j < |apps| && apps[j] == b;
  }

  lemma OwnerBefore(w: World, apps: seq<App>, app: App, n: nat, k: nat)
    requires DistinctApps(apps) && app in apps && n < |apps|
    requires k < |AppsFrom(w, apps[..n])| && AppsFrom(w, apps[..n])[k].owner == OfApp(app.id)
    ensures app in apps[..n] && app != apps[n] && DistinctApps(apps[..n])
  {
    AppsFromPrivate(w, apps[..n], k);
    var own :| own in apps[..n] && own.id == app.id;
    SameId(apps, own, app);
    var i :| 0 <= i < n && apps[i] == own;
  }

  /** Apps come one after another, so one whose services have ids of their own puts none twice. */
  lemma {:induction false} NoneTwice(w: World, apps: seq<App>, app: App, k: nat, l: nat)
    requires DistinctApps(apps) && app in apps && Planned(w, app) && DistinctServices(w.definitions[app.definitionId])
    requires k < l < |AppsFrom(w, apps)|
    requires AppsFrom(w, apps)[k].owner == AppsFrom(w, apps)[l].owner == OfApp(app.id)
    ensures AppsFrom(w, apps)[k].name != AppsFrom(w, apps)[l].name
    decreases |apps|
  {
    var n := |apps| - 1;
    if l < |AppsFrom(w, apps[..n])| {
      OwnerBefore(w, apps, app, n, l);
      NoneTwice(w, apps[..n], app, k, l);
    } else {
      SameId(apps, apps[n], app);
      LastOnce(w, apps, app, k, l);
    }
  }

  /** The last app's services are all its own, and no earlier ones are. */
  lemma LastOnce(w: World, apps: seq<App>, app: App, k: nat, l: nat)
    requires apps != [] && DistinctApps(apps) && app == apps[|apps| - 1]
    requires Planned(w, app) && DistinctServices(w.definitions[app.definitionId])
    requires |AppsFrom(w, apps[..|apps| - 1])| <= l && k < l < |AppsFrom(w, apps)|
    requires AppsFrom(w, apps)[k].owner == OfApp(app.id)
    ensures AppsFrom(w, apps)[k].name != AppsFrom(w, apps)[l].name
  {
    var n := |apps| - 1;
    var before, own := AppsFrom(w, apps[..n]), w.definitions[app.definitionId];
    assert AppsFrom(w, apps) == before + ServicesFrom(w, app, own, own.services);
    if k < |before| {
      OwnerBefore(w, apps, app, n, k);
    } else {
      NamesDiffer(w, app, own, k - |before|, l - |before|);
    }
  }

  lemma OwnNameOnce(w: World, app: App, k: nat, l: nat)
    requires ValidWorld(w) && app in w.apps && Planned(w, app) && DistinctServices(w.definitions[app.definitionId])
    requires k < l < |Additions(w)| && Additions(w)[k].owner == Additions(w)[l].owner == OfApp(app.id)
    ensures Additions(w)[k].name != Additions(w)[l].name
  {
    var n := |AppsFrom(w, w.apps)|;
    if l >= n {
      ConnectorsFromEdge(w, w.tunnels, l - n);
    }
    NoneTwice(w, w.apps, app, k, l);
  }

  lemma FinishedServices(w: World, plan: V.Plan)
    requires Finished(w, plan)
    ensures plan.services == PutAll(map[], Additions(w))
  {
  }

  lemma LastOrOther(w: World, app: App, d: ServiceDef, k: nat, last: nat)
    requires ValidWorld(w) && PutAt(w, app, d, k) && k <= last < |Additions(w)|
    requires Additions(w)[last].name == Additions(w)[k].name && NothingLater(Additions(w), last)
    ensures Additions(w)[last].owner != OfApp(app.id) ==> Additions(w)[last].service != Additions(w)[k].service
    ensures DistinctServices(w.definitions[app.definitionId]) ==>
              (Additions(w)[last].service == Additions(w)[k].service <==> NothingLater(Additions(w), k))
  {
    if Additions(w)[last].owner != OfApp(app.id) {
      OthersDiffer(w, k, last);
    } else if DistinctServices(w.definitions[app.definitionId]) && k < last {
      OwnNameOnce(w, app, k, last);
    }
  }

  /** A name stands for the last service put under it. When the ids in its definition differ,
      a planned service is in the finished plan exactly when nothing put there later has a name
      that meets its own; when the last one that has is another app's or a tunnel's, it is not. */
  lemma ServiceHeldIff(w: World, plan: V.Plan, app: App, d: ServiceDef, k: nat) returns (last: nat)
    requires ValidWorld(w) && Finished(w, plan) && PutAt(w, app, d, k)
    ensures var all := Additions(w); k <= last < |all| && all[last].name == all[k].name && NothingLater(all, last)
    ensures var name, all := ServiceName(app.id, d.id), Additions(w);
            && name in plan.services && plan.services[name] == all[last].service
            && (all[last].owner != OfApp(app.id) ==> plan.services[name] != all[k].service)
            && (DistinctServices(w.definitions[app.definitionId]) ==>
                  (plan.services[name] == all[k].service <==> NothingLater(all, k)))
  {
    FinishedServices(w, plan);
    last := LastStands(map[], Additions(w), k);
    LastOrOther(w, app, d, k, last);
  }

  lemma {:induction false} AppsFromPrefix(w: World, apps: seq<App>, m: nat)
    requires m <= |apps|
    ensures AppsFrom(w, apps[..m]) <= AppsFrom(w, apps)
    decreases |apps|
  {
    if m == |apps| {
      assert apps[..m] == apps;
    } else {
      AppsFromPrefix(w, apps[..|apps| - 1], m);
      assert apps[..|apps| - 1][..m] == apps[..m];
    }
  }

  /** What comes after the first apps is other apps' or tunnels'. */
  lemma {:induction false} OwnersLater(w: World, apps: seq<App>, m: nat, k: nat) returns (i: nat)
    requires m <= |apps| && |AppsFrom(w, apps[..m])| <= k < |AppsFrom(w, apps)|
    ensures m <= i < |apps| && AppsFrom(w, apps)[k].owner == OfApp(apps[i].id)
    decreases |apps|
  {
    assert apps[..|apps|] == apps;
    var n := |apps| - 1;
    assert apps[..n][..m] == apps[..m];
    if k < |AppsFrom(w, apps[..n])| {
      i := OwnersLater(w, apps[..n], m, k);
    } else {
      i := n;
    }
  }

  lemma NotOwnLater(w: World, a: nat, k: nat)
    requires ValidWorld(w) && a < |w.apps| && |AppsFrom(w, w.apps[..a + 1])| <= k < |Additions(w)|
    ensures Additions(w)[k].owner != OfApp(w.apps[a].id)
  {
    var n := |AppsFrom(w, w.apps)|;
    if k < n {
      var i := OwnersLater(w, w.apps, a + 1, k);
    } else {
      ConnectorsFromEdge(w, w.tunnels, k - n);
    }
  }

  /** An app's service takes the place of an earlier app's whose name it meets, as service "c"
      of an app "a-b" does with service "b-c" of an app "a". */
  lemma LaterAppReplaces(w: World, plan: V.Plan, a: nat, b: nat, d: ServiceDef, e: ServiceDef)
    requires ValidWorld(w) && Finished(w, plan) && a < b < |w.apps| && Planned(w, w.apps[a]) && Planned(w, w.apps[b])
    requires d in w.definitions[w.apps[a].definitionId].services && e in w.definitions[w.apps[b].definitionId].services
    requires NamesMeet(w.apps[a].id, d.id, w.apps[b].id, e.id)
    ensures var app := w.apps[a];
            var name := ServiceName(app.id, d.id);
            name in plan.services && plan.services[name] != ServiceOf(w, app, w.definitions[app.definitionId], d)
  {
    JoinedAlikeIff(w.apps[a].id, d.id, w.apps[b].id, e.id);
    var k, l := TwoPuts(w, a, b, d, e);
    var last := ServiceHeldIff(w, plan, w.apps[a], d, k);
    NotOwnLater(w, a, last);
  }

  /** The earlier app's service is put in the plan before all the later app's. */
  lemma TwoPuts(w: World, a: nat, b: nat, d: ServiceDef, e: ServiceDef) returns (k: nat, l: nat)
    requires ValidWorld(w) && a < b < |w.apps| && Planned(w, w.apps[a]) && Planned(w, w.apps[b])
    requires d in w.definitions[w.apps[a].definitionId].services && e in w.definitions[w.apps[b].definitionId].services
    ensures PutAt(w, w.apps[a], d, k) && PutAt(w, w.apps[b], e, l) && k < |AppsFrom(w, w.apps[..a + 1])| <= l
  {
    k := AppsFromHas(w, w.apps[..a + 1], w.apps[a], d);
    AppsFromPrefix(w, w.apps, a + 1);
    l := AppsFromHas(w, w.apps, w.apps[b], e);
    if l < |AppsFrom(w, w.apps[..a + 1])| {
      AppsFromPrivate(w, w.apps[..a + 1], l);
    }
  }

  lemma UnreplacedHeld(w: World, plan: V.Plan, app: App, d: ServiceDef)
    requires ValidWorld(w) && Finished(w, plan) && Unreplaced(w, app, d)
    ensures app in w.apps && Planned(w, app)
    ensures var name := ServiceName(app.id, d.id);
            name in plan.services && plan.services[name] == ServiceOf(w, app, w.definitions[app.definitionId], d)
  {
    var k: nat :| PutAt(w, app, d, k) && NothingLater(Additions(w), k);
    var last := ServiceHeldIff(w, plan, app, d, k);
  }

  /** A secret a service's template asks for is among the plan's secrets, unless sign-in takes
      the variable over or a service put in the plan later has a name that meets its own. */
  lemma SecretTokenPublished(w: World, plan: V.Plan, app: App, d: ServiceDef, variable: string, k: nat, key: string)
    requires ValidWorld(w) && Finished(w, plan) && app in w.apps && Planned(w, app)
    requires d in w.definitions[app.definitionId].services && variable in d.environment
    requires Unreplaced(w, app, d)
    requires variable !in SignInEnvironment(w, app, w.definitions[app.definitionId], d)
    requires TokenAt(d.environment[variable], k) && TokenOf(d.environment[variable], k) == "secret." + key && Key(key)
    ensures SecretNameOf(app.id, key) in plan.secrets
  {
    var def := w.definitions[app.definitionId];
    UnreplacedHeld(w, plan, app, d);
    SecretTokenFound(d.environment[variable], k, key, ContextOf(w, app, def));
    FieldsKeep(ResolveAll(d.environment, ContextOf(w, app, def)), app, def.fields, variable);
    var name := ServiceName(app.id, d.id);
    assert plan.services[name].environment[variable] == ResolveTemplate(d.environment[variable], ContextOf(w, app, def));
    assert Mentions(plan.services, plan.files - {POLICY}, SecretNameOf(app.id, key));
  }

  lemma {:induction false} FieldsKeep(environment: Values, app: App, fields: seq<Field>, variable: string)
    requires variable in environment
    ensures variable in FieldsAdded(environment, app, fields)
            && FieldsAdded(environment, app, fields)[variable] == environment[variable]
  {
    if fields != [] {
      FieldsKeep(environment, app, fields[..|fields| - 1], variable);
    }
  }
}
