/** The checks the reconciler makes on a plan before it trusts what the plan refers to
    (cli/internal/reconcile/plan.go). */
module Validate {
  import opened Common

  datatype Service = Service(
    environment: map<string, string>,
    dependsOn: seq<string>,
    volumes: seq<string>,
    networks: seq<string>)

  datatype Bootstrap = Bootstrap(service: string, file: string)

  /** networks says of each whether it is cut off from the internet. */
  datatype Plan = Plan(
    services: map<string, Service>,
    volumes: set<string>,
    networks: map<string, bool>,
    files: map<string, string>,
    bootstraps: seq<Bootstrap>,
    secrets: seq<string>)

  const APPS := "apps/"

  predicate HasDots(s: string) {
    exists i :: 0 <= i < |s| - 1 && s[i] == '.' && s[i + 1] == '.'
  }

  /** strings.Split on one character. */
  function Split(s: string, c: char): (parts: seq<string>)
    ensures |parts| >= 1
    decreases |s|
  {
    var i := Index(s, c);
    if i == |s| then [s] else [s[..i]] + Split(s[i + 1..], c)
  }

  lemma SplitOne(s: string, c: char)
    requires !Has(s, c)
    ensures Split(s, c) == [s]
  {
  }

  lemma SplitFirst(a: string, c: char, rest: string)
    requires !Has(a, c)
    ensures Split(a + [c] + rest, c) == [a] + Split(rest, c)
  {
    var s := a + [c] + rest;
    assert s[|a|] == c;
    assert forall j :: 0 <= j < |a| ==> s[j] == a[j];
    assert Index(s, c) == |a|;
    assert s[..|a|] == a && s[|a| + 1..] == rest;
  }

  /** A mount: a declared volume or a path, an absolute path inside, and how. */
  predicate ValidMount(mount: string, volumes: set<string>) {
    var parts := Split(mount, ':');
    && 2 <= |parts| <= 3
    && (|parts| == 3 ==> parts[2] == "ro" || parts[2] == "rw")
    && "/" <= parts[1]
    && !HasDots(parts[0])
    && ("/" <= parts[0] || "./" <= parts[0] || parts[0] in volumes)
  }

  /** Relative, without dots that climb, and as path.Clean would leave it. */
  predicate ValidFilePath(file: string) {
    && file != "" && file[0] != '/' && !HasDots(file)
    && !(|file| > 1 && file[0] == '.' && file[1] == '/')
    && forall i :: 0 <= i < |file| && file[i] == '/' ==>
         && i + 1 < |file| && file[i + 1] != '/'
         && !(file[i + 1] == '.' && (i + 2 == |file| || file[i + 2] == '/'))
  }

  predicate ServiceClosed(s: Service, services: set<string>, volumes: set<string>, networks: set<string>) {
    && (forall n :: n in s.networks ==> n in networks)
    && (forall d :: d in s.dependsOn ==> d in services)
    && forall m :: m in s.volumes ==> ValidMount(m, volumes)
  }

  predicate BootstrapClosed(b: Bootstrap, services: set<string>, files: set<string>) {
    b.service in services && b.file in files && APPS <= b.file
  }

  /** Every network, volume, service and file a plan refers to is declared in it. */
  predicate Closed(plan: Plan) {
    && (forall name :: name in plan.services ==>
          ServiceClosed(plan.services[name], plan.services.Keys, plan.volumes, plan.networks.Keys))
    && (forall file :: file in plan.files ==> ValidFilePath(file))
    && forall b :: b in plan.bootstraps ==> BootstrapClosed(b, plan.services.Keys, plan.files.Keys)
  }

  method ServiceValid(s: Service, services: set<string>, volumes: set<string>, networks: set<string>) returns (ok: bool)
    ensures ok == ServiceClosed(s, services, volumes, networks)
  {
    for i := 0 to |s.networks|
      invariant forall k :: 0 <= k < i ==> s.networks[k] in networks
    {
      if s.networks[i] !in networks {
        return false;
      }
    }
    for i := 0 to |s.dependsOn|
      invariant forall k :: 0 <= k < i ==> s.dependsOn[k] in services
    {
      if s.dependsOn[i] !in services {
        return false;
      }
    }
    for i := 0 to |s.volumes|
      invariant forall k :: 0 <= k < i ==> ValidMount(s.volumes[k], volumes)
    {
      if !ValidMount(s.volumes[i], volumes) {
        return false;
      }
    }
    return true;
  }

  method ServicesValid(plan: Plan) returns (ok: bool)
    ensures ok <==> forall name :: name in plan.services ==>
              ServiceClosed(plan.services[name], plan.services.Keys, plan.volumes, plan.networks.Keys)
  {
    var names := plan.services.Keys;
    while names != {}
      invariant names <= plan.services.Keys
      invariant forall name :: name in plan.services && name !in names ==>
                  ServiceClosed(plan.services[name], plan.services.Keys, plan.volumes, plan.networks.Keys)
      decreases |names|
    {
      var name :| name in names;
      ok := ServiceValid(plan.services[name], plan.services.Keys, plan.volumes, plan.networks.Keys);
      if !ok {
        return;
      }
      names := names - {name};
    }
    return true;
  }

  method FilesValid(files: set<string>) returns (ok: bool)
    ensures ok <==> forall file :: file in files ==> ValidFilePath(file)
  {
    var left := files;
    while left != {}
      invariant left <= files && forall file :: file in files && file !in left ==> ValidFilePath(file)
      decreases |left|
    {
      var file :| file in left;
      if !ValidFilePath(file) {
        return false;
      }
      left := left - {file};
    }
    return true;
  }

  /** Accepts exactly the closed plans, and any plan with nothing to run and no files. */
  method ValidReferences(plan: Plan) returns (ok: bool)
    ensures ok <==> Closed(plan) || (plan.services == map[] && plan.files == map[])
  {
    if |plan.services| == 0 && |plan.files| == 0 {
      return true;
    }
    ok := ServicesValid(plan);
    if !ok {
      return;
    }
    ok := FilesValid(plan.files.Keys);
    if !ok {
      return;
    }
    for i := 0 to |plan.bootstraps|
      invariant forall k :: 0 <= k < i ==> BootstrapClosed(plan.bootstraps[k], plan.services.Keys, plan.files.Keys)
    {
      if !BootstrapClosed(plan.bootstraps[i], plan.services.Keys, plan.files.Keys) {
        return false;
      }
    }
    return true;
  }
}
