/** What the portal knows, and what one app or tunnel adds to a deployment plan
    (apps/portal/src/lib/deployment.ts). The texts of generated files are parameters. */
module Deployment {
  import opened Common
  import opened Secrets
  import opened Templates
  import V = Validate

  datatype Endpoint = Endpoint(id: string, protocol: string, port: nat)

  datatype ServiceDef = ServiceDef(
    id: string,
    environment: Values,
    dependsOn: seq<string>,
    endpoint: Option<Endpoint>)

  datatype VolumeDef = VolumeDef(id: string, service: string, path: string)

  /** A configuration field; fallback is "" when there is no default. */
  datatype Field = Field(key: string, fallback: string, inSettings: bool)

  datatype SettingsFile = SettingsFile(service: string, path: string)

  /** How a connected app hears of sign-in: its own variables, or its settings document. */
  datatype Identity = Identity(environment: Option<Values>, inSettings: bool)

  /** portal marks an app that is a page of the portal; bootstrap names the service an
      app's setup runs in. */
  datatype Definition = Definition(
    portal: bool,
    connected: bool,
    services: seq<ServiceDef>,
    volumes: seq<VolumeDef>,
    fields: seq<Field>,
    settingsFile: Option<SettingsFile>,
    identity: Identity,
    bootstrap: Option<string>)

  datatype Override = Override(value: string, secret: bool)

  datatype App = App(
    id: string,
    definitionId: string,
    enabled: bool,
    internetAccess: bool,
    hostname: string,
    overrides: map<string, Override>)

  datatype Route = Route(
    enabled: bool,
    appId: string,
    endpointId: string,
    tunnelId: string,
    hostname: string,
    path: string)

  datatype Provider = Direct | Cloudflare | NotRendered

  datatype Tunnel = Tunnel(
    id: string,
    enabled: bool,
    provider: Provider,
    hasToken: bool,
    tunnelId: string,
    credentialFile: string)

  datatype Target = Target(hostname: string, path: string, protocol: string, service: string, port: nat)

  /** The texts of generated files, and where a tunnel's credentials are kept. */
  datatype Texts = Texts(
    settings: (Definition, Context) -> string,
    blueprint: (App, Definition, Context) -> string,
    bootstrap: (App, Definition, Context) -> string,
    sites: seq<Target> -> string,
    ingress: (Tunnel, seq<Target>) -> string,
    policy: string,
    credentialsPath: string -> string)

  datatype World = World(
    apps: seq<App>,
    routes: seq<Route>,
    tunnels: seq<Tunnel>,
    identityDomain: string,
    portalHostname: string,
    definitions: map<string, Definition>,
    texts: Texts)

  const EDGE := "kimono-edge"
  const POLICY := "mesh/policy.hujson"
  const CONFIG := "/etc/cloudflared/config.yml"
  const CREDENTIALS := "/etc/cloudflared/credentials.json"

  function ServiceName(appId: string, serviceId: string): string {
    appId + "-" + serviceId
  }

  function PrivateNetwork(appId: string): string {
    appId + "-private"
  }

  function SettingsPath(appId: string): string {
    "apps/" + appId + "-settings.json"
  }

  function BootstrapPath(appId: string): string {
    "apps/" + appId + "-bootstrap.sh"
  }

  function BlueprintPath(appId: string): string {
    "authentik/kimono-" + appId + ".yaml"
  }

  /** An app the plan runs: switched on, with a definition, and no page of the portal. */
  predicate Planned(w: World, app: App) {
    && app.enabled && app.definitionId != "kimono-portal"
    && app.definitionId in w.definitions && !w.definitions[app.definitionId].portal
  }

  /* ── routes ── */

  /** The first service with the route's endpoint. */
  function EndpointFor(endpointId: string, services: seq<ServiceDef>): (found: Option<ServiceDef>)
    ensures found.Some? ==> found.value in services && found.value.endpoint.Some? && found.value.endpoint.value.id == endpointId
  {
    if services == [] then None
    else if services[0].endpoint.Some? && services[0].endpoint.value.id == endpointId then Some(services[0])
    else EndpointFor(endpointId, services[1..])
  }

  /** An enabled route of the app leads to this service. */
  predicate Routed(w: World, app: App, def: Definition, serviceId: string) {
    exists i :: 0 <= i < |w.routes| && RouteLeads(w.routes[i], app, def, serviceId)
  }

  predicate RouteLeads(route: Route, app: App, def: Definition, serviceId: string) {
    && route.enabled && route.appId == app.id
    && EndpointFor(route.endpointId, def.services).Some?
    && EndpointFor(route.endpointId, def.services).value.id == serviceId
  }

  predicate AnyRouted(w: World, app: App, def: Definition) {
    exists i :: 0 <= i < |w.routes| && w.routes[i].enabled && w.routes[i].appId == app.id
                && EndpointFor(w.routes[i].endpointId, def.services).Some?
  }

  /* ── one service ── */

  function OidcValues(appId: string, domain: string, hostname: string): Values {
    var client, endpoint := "kimono-" + appId, "https://" + domain + "/application/o";
    map["clientId" := client,
        "clientSecret" := SecretReference(appId, "OIDC_CLIENT_SECRET"),
        "baseUrl" := "https://" + domain,
        "issuer" := endpoint + "/" + client + "/",
        "authorize" := endpoint + "/authorize/",
        "token" := endpoint + "/token/",
        "userinfo" := endpoint + "/userinfo/",
        "endSession" := endpoint + "/" + client + "/end-session/",
        "url" := "https://" + hostname]
  }

  /** The variables an app gets for sign-in when it names none of its own. */
  function OidcEnvironment(oidc: Values): Values {
    map["OIDC_CLIENT_ID" := Get(oidc, "clientId"),
        "OIDC_CLIENT_SECRET" := Get(oidc, "clientSecret"),
        "OIDC_AUTH_URI" := Get(oidc, "authorize"),
        "OIDC_TOKEN_URI" := Get(oidc, "token"),
        "OIDC_USERINFO_URI" := Get(oidc, "userinfo"),
        "OIDC_LOGOUT_URI" := Get(oidc, "endSession"),
        "OIDC_USERNAME_CLAIM" := "preferred_username",
        "OIDC_DISPLAY_NAME" := "Kimono",
        "OIDC_SCOPES" := "openid profile email",
        "FORCE_HTTPS" := "true",
        "URL" := Get(oidc, "url")]
  }

  function FieldValue(app: App, field: Field): string {
    if field.key in app.overrides then app.overrides[field.key].value else field.fallback
  }

  function Configuration(app: App, fields: seq<Field>): Values {
    if fields == [] then map[]
    else
      var n := |fields| - 1;
      Configuration(app, fields[..n])[fields[n].key := FieldValue(app, fields[n])]
  }

  function ContextOf(w: World, app: App, def: Definition): Context {
    Context(app.id, app.hostname, Configuration(app, def.fields), set s | s in def.services :: s.id,
            if w.identityDomain != "" then Some(OidcValues(app.id, w.identityDomain, app.hostname)) else None)
  }

  function ResolveAll(templates: Values, context: Context): Values {
    map k | k in templates :: ResolveTemplate(templates[k], context)
  }

  /** What a configuration field adds: its value, or a reference when it is a secret; never
      over a variable that is there. */
  function FieldAdded(environment: Values, app: App, field: Field): Values {
    if field.inSettings || FieldValue(app, field) == "" || field.key in environment then environment
    else environment[field.key :=
      if field.key in app.overrides && app.overrides[field.key].secret then SecretReference(app.id, field.key)
      else FieldValue(app, field)]
  }

  function FieldsAdded(environment: Values, app: App, fields: seq<Field>): Values {
    if fields == [] then environment
    else FieldAdded(FieldsAdded(environment, app, fields[..|fields| - 1]), app, fields[|fields| - 1])
  }

  /** The sign-in variables of a routed service of a connected app. */
  function SignInEnvironment(w: World, app: App, def: Definition, s: ServiceDef): Values {
    var context := ContextOf(w, app, def);
    if s.endpoint.None? || !Routed(w, app, def, s.id) || !def.connected || context.oidc.None? || def.identity.inSettings then map[]
    else if def.identity.environment.Some? then ResolveAll(def.identity.environment.value, context)
    else OidcEnvironment(context.oidc.value)
  }

  function EnvironmentOf(w: World, app: App, def: Definition, s: ServiceDef): Values {
    var own := ResolveAll(s.environment, ContextOf(w, app, def));
    (if s.endpoint.Some? then FieldsAdded(own, app, def.fields) else own) + SignInEnvironment(w, app, def, s)
  }

  method BuildEnvironment(w: World, app: App, def: Definition, s: ServiceDef) returns (environment: Values)
    ensures environment == EnvironmentOf(w, app, def, s)
  {
    var context := ContextOf(w, app, def);
    environment := ResolveAll(s.environment, context);
    ghost var own := environment;
    if s.endpoint.Some? {
      for i := 0 to |def.fields|
        invariant environment == FieldsAdded(own, app, def.fields[..i])
      {
        assert def.fields[..i + 1][..i] == def.fields[..i];
        environment := FieldAdded(environment, app, def.fields[i]);
      }
      assert def.fields[..|def.fields|] == def.fields;
    }
    environment := environment + SignInEnvironment(w, app, def, s);
  }

  /** The mounts of a service's own volumes. */
  function VolumeMounts(appId: string, volumes: seq<VolumeDef>, serviceId: string): seq<string> {
    if volumes == [] then []
    else
      var n := |volumes| - 1;
      VolumeMounts(appId, volumes[..n], serviceId) +
      (if volumes[n].service == serviceId then [ServiceName(appId, volumes[n].id) + ":" + volumes[n].path] else [])
  }

  function VolumeNames(appId: string, volumes: seq<VolumeDef>, serviceId: string): set<string> {
    set v | v in volumes && v.service == serviceId :: ServiceName(appId, v.id)
  }

  function SettingsMount(appId: string, def: Definition, serviceId: string): seq<string> {
    if def.settingsFile.Some? && def.settingsFile.value.service == serviceId
    then ["./" + SettingsPath(appId) + ":" + def.settingsFile.value.path + ":ro"]
    else []
  }

  function ServiceNames(appId: string, ids: seq<string>): seq<string> {
    seq(|ids|, i requires 0 <= i < |ids| => ServiceName(appId, ids[i]))
  }

  function NetworksOf(w: World, app: App, def: Definition, serviceId: string): seq<string> {
    if Routed(w, app, def, serviceId) then [PrivateNetwork(app.id), EDGE] else [PrivateNetwork(app.id)]
  }

  /** A service as the plan runs it. */
  function ServiceOf(w: World, app: App, def: Definition, s: ServiceDef): V.Service {
    V.Service(EnvironmentOf(w, app, def, s),
              ServiceNames(app.id, s.dependsOn),
              VolumeMounts(app.id, def.volumes, s.id) + SettingsMount(app.id, def, s.id),
              NetworksOf(w, app, def, s.id))
  }

  /* ── tunnels ── */

  function ConnectorName(tunnelId: string): string {
    "tunnel-" + tunnelId
  }

  function ConfigPath(tunnelId: string): string {
    "generated/cloudflare-" + tunnelId + ".yml"
  }

  function SitesPath(tunnelId: string): string {
    "generated/caddy-" + tunnelId + ".caddy"
  }

  /** A connector with a token, or with a configuration and credentials. */
  function ConnectorOf(w: World, tunnel: Tunnel): V.Service {
    if tunnel.hasToken
    then V.Service(map["TUNNEL_TOKEN" := SecretReference(ConnectorName(tunnel.id), "TOKEN")], [], [], [EDGE])
    else V.Service(map[], [],
                   ["./" + ConfigPath(tunnel.id) + ":" + CONFIG + ":ro",
                    w.texts.credentialsPath(tunnel.id) + ":" + CREDENTIALS + ":ro"], [EDGE])
  }

  /** The tunnel runs a connector in the plan. */
  predicate RunsConnector(tunnel: Tunnel) {
    tunnel.enabled && tunnel.provider.Cloudflare? && (tunnel.hasToken || (tunnel.tunnelId != "" && tunnel.credentialFile != ""))
  }

  /** settings.apps[id]; ids are the keys, so at most one app has it. */
  function AppWith(apps: seq<App>, id: string): Option<App> {
    if apps == [] then None else if apps[0].id == id then Some(apps[0]) else AppWith(apps[1..], id)
  }

  function TargetOf(w: World, route: Route): seq<Target> {
    var app := AppWith(w.apps, route.appId);
    if app.None? || app.value.definitionId !in w.definitions then []
    else
      var found := EndpointFor(route.endpointId, w.definitions[app.value.definitionId].services);
      if found.None? then []
      else
        var endpoint := found.value.endpoint.value;
        [Target(route.hostname, route.path, endpoint.protocol, ServiceName(app.value.id, found.value.id), endpoint.port)]
  }

  /** Where a tunnel's enabled routes lead. */
  function Targets(w: World, tunnel: Tunnel, routes: seq<Route>): seq<Target> {
    if routes == [] then []
    else
      var n := |routes| - 1;
      Targets(w, tunnel, routes[..n]) +
      (if routes[n].enabled && routes[n].tunnelId == tunnel.id then TargetOf(w, routes[n]) else [])
  }

  /* ── what definitions and settings must be ── */

  predicate ContainerPath(p: string) {
    "/" <= p && !Has(p, ':')
  }

  predicate ValidDefinition(def: Definition) {
    && (forall s :: s in def.services ==>
          Slug(s.id) && forall d :: d in s.dependsOn ==> exists other :: other in def.services && other.id == d)
    && (forall v :: v in def.volumes ==> Slug(v.id) && ContainerPath(v.path))
    && (def.settingsFile.Some? ==> ContainerPath(def.settingsFile.value.path))
    && (def.bootstrap.Some? ==> exists s :: s in def.services && s.id == def.bootstrap.value)
  }

  ghost predicate ValidWorld(w: World) {
    && (forall id :: id in w.definitions ==> ValidDefinition(w.definitions[id]))
    && (forall i :: 0 <= i < |w.apps| ==> Slug(w.apps[i].id))
    && (forall i, j :: 0 <= i < j < |w.apps| ==> w.apps[i].id != w.apps[j].id)
    && (forall t :: t in w.tunnels ==> Slug(t.id))
    && forall id: string :: Slug(id) ==> ContainerPath(w.texts.credentialsPath(id)) && !V.HasDots(w.texts.credentialsPath(id))
  }

  /* ── mounts and paths are as the reconciler asks ── */

  lemma SlugHasNone(s: string, c: char)
    requires Slug(s) && !SlugChar(c)
    ensures !Has(s, c)
  {
  }

  lemma SlugHasNoDots(s: string)
    requires Slug(s)
    ensures !V.HasDots(s)
  {
  }

  lemma JoinIsSlug(a: string, b: string)
    requires Slug(a) && Slug(b)
    ensures Slug(ServiceName(a, b))
  {
  }

  /** A declared volume at an absolute path. */
  lemma VolumeMountValid(name: string, path: string, volumes: set<string>)
    requires Slug(name) && name in volumes && ContainerPath(path)
    ensures V.ValidMount(name + ":" + path, volumes) && V.Split(name + ":" + path, ':')[0] == name
  {
    SlugHasNone(name, ':');
    SlugHasNoDots(name);
    V.SplitFirst(name, ':', path);
    V.SplitOne(path, ':');
  }

  /** A file mounted read-only at an absolute path. */
  lemma FileMountValid(source: string, path: string, volumes: set<string>)
    requires !Has(source, ':') && !V.HasDots(source) && ContainerPath(path)
    requires "/" <= source || "./" <= source
    ensures V.ValidMount(source + ":" + path + ":ro", volumes) && V.Split(source + ":" + path + ":ro", ':')[0] == source
  {
    assert source + ":" + path + ":ro" == source + [':'] + (path + [':'] + "ro");
    V.SplitFirst(source, ':', path + [':'] + "ro");
    V.SplitFirst(path, ':', "ro");
    V.SplitOne("ro", ':');
  }

  /** The fixed beginning and end of a generated file's path. */
  predicate Frame(start: string, end: string) {
    && start != "" && start[0] != '/'
    && (forall i :: 0 <= i < |start| ==> start[i] != '.' && start[i] != ':')
    && (forall i :: 0 <= i < |start| - 1 ==> !(start[i] == '/' && start[i + 1] == '/'))
    && (forall i :: 0 <= i < |end| ==> end[i] != '/' && end[i] != ':')
    && !V.HasDots(end)
  }

  lemma FramedChars(start: string, id: string, end: string, i: nat)
    requires Frame(start, end) && Slug(id)
    requires var f := start + id + end; i < |f|
    ensures var f := start + id + end;
            && f[i] != ':' && (f[i] == '/' ==> i < |start|) && (f[i] == '.' ==> |start| + |id| <= i)
            && (i + 1 < |f| ==> !(f[i] == '.' && f[i + 1] == '.') && !(f[i] == '/' && f[i + 1] == '/'))
            && (f[i] == '/' ==> i + 1 < |f| && f[i + 1] != '.')
  {
    var f := start + id + end;
    if i < |start| {
      assert f[i] == start[i];
      if i + 1 < |start| {
        assert f[i + 1] == start[i + 1];
      } else {
        assert f[i + 1] == id[0];
      }
    } else if i < |start| + |id| {
      assert f[i] == id[i - |start|];
    } else {
      var k := i - |start| - |id|;
      assert f[i] == end[k];
      if i + 1 < |f| {
        assert f[i + 1] == end[k + 1];
      }
    }
  }

  /** Such a path is valid, and mounted from beside the project it is too. */
  lemma FramedPath(start: string, id: string, end: string)
    requires Frame(start, end) && Slug(id)
    ensures var f := start + id + end;
            V.ValidFilePath(f) && !Has("./" + f, ':') && !V.HasDots("./" + f)
  {
    var f := start + id + end;
    forall i | 0 <= i < |f|
      ensures f[i] != ':' && (f[i] == '.' ==> |start| + |id| <= i)
      ensures i + 1 < |f| ==> !(f[i] == '.' && f[i + 1] == '.')
      ensures f[i] == '/' ==> i + 1 < |f| && f[i + 1] != '/' && f[i + 1] != '.'
    {
      FramedChars(start, id, end, i);
    }
    assert f[0] == start[0];
    var g := "./" + f;
    assert forall i :: 2 <= i < |g| ==> g[i] == f[i - 2];
  }
}
