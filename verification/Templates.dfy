/** Templates of app definitions, and the references secrets travel by
    (apps/portal/src/lib/deployment.ts, secret-name.ts). Keys and ids are ASCII. */
module Templates {
  import opened Common
  import opened Secrets

  function UpperChar(c: char): char {
    if 'a' <= c <= 'z' then c - 'a' + 'A' else if c == '-' then '_' else c
  }

  function Upper(s: string): (r: string)
    ensures |r| == |s| && forall i :: 0 <= i < |s| ==> r[i] == UpperChar(s[i])
  {
    seq(|s|, i requires 0 <= i < |s| => UpperChar(s[i]))
  }

  /** The name an app's secret is kept under. */
  function SecretNameOf(appId: string, key: string): string {
    Upper(SECRET + appId + "_" + key)
  }

  function Reference(name: string): string {
    "${" + name + "}"
  }

  function SecretReference(appId: string, key: string): string {
    Reference(SecretNameOf(appId, key))
  }

  predicate KeyChar(c: char) {
    'A' <= c <= 'Z' || '0' <= c <= '9' || c == '_'
  }

  predicate SlugChar(c: char) {
    'a' <= c <= 'z' || '0' <= c <= '9' || c == '-'
  }

  predicate Letter(c: char) {
    'a' <= c <= 'z' || 'A' <= c <= 'Z'
  }

  predicate Slug(s: string) {
    s != "" && forall i :: 0 <= i < |s| ==> SlugChar(s[i])
  }

  predicate Key(s: string) {
    s != "" && forall i :: 0 <= i < |s| ==> KeyChar(s[i])
  }

  lemma UpperBoth(a: string, b: string)
    ensures Upper(a + b) == Upper(a) + Upper(b)
  {
  }

  lemma UpperSecret()
    ensures Upper(SECRET) == SECRET && Upper("_") == "_"
  {
    assert forall i :: 0 <= i < |SECRET| ==> UpperChar(SECRET[i]) == SECRET[i];
  }

  lemma NamedSo(rest: string)
    requires rest != [] && forall i :: 0 <= i < |rest| ==> NameChar(rest[i])
    ensures SecretName(SECRET + rest)
  {
    var name := SECRET + rest;
    assert name[..|SECRET|] == SECRET;
    assert forall j :: |SECRET| <= j < |name| ==> name[j] == rest[j - |SECRET|];
  }

  /** The name of any secret is one the reconciler recognizes. */
  lemma NameIsProper(appId: string, key: string)
    requires Slug(appId) && Key(key)
    ensures SecretName(SecretNameOf(appId, key))
  {
    var rest := Upper(appId) + "_" + Upper(key);
    UpperBoth(SECRET + appId + "_", key);
    UpperBoth(SECRET + appId, "_");
    UpperBoth(SECRET, appId);
    UpperSecret();
    assert SecretNameOf(appId, key) == SECRET + rest;
    NamedSo(rest);
  }

  /* ── references are found ── */

  lemma {:induction false} NameEndAt(v: string, i: nat, e: nat)
    requires i <= e < |v| && !NameChar(v[e]) && forall j :: i <= j < e ==> NameChar(v[j])
    ensures NameEnd(v, i) == e
    decreases e - i
  {
    if i < e {
      NameEndAt(v, i + 1, e);
    }
  }

  lemma ReferenceStarts(name: string)
    requires SecretName(name)
    ensures |PREFIX| < |Reference(name)| && forall j :: 0 <= j < |PREFIX| ==> Reference(name)[j] == PREFIX[j]
  {
    var r := Reference(name);
    assert forall j :: 0 <= j < |name| ==> r[j + 2] == name[j];
    assert forall j :: 0 <= j < |SECRET| ==> name[j] == name[..|SECRET|][j] == SECRET[j];
    assert PREFIX == "${" + SECRET;
  }

  lemma ReferenceAt(a: string, name: string, b: string)
    requires SecretName(name)
    ensures var v := a + Reference(name) + b; RefAt(v, |a|) && RefName(v, |a|) == name
  {
    var r := Reference(name);
    var v := a + r + b;
    ReferenceStarts(name);
    assert forall j :: 0 <= j < |r| ==> v[|a| + j] == r[j];
    ReferenceHere(v, |a|, name);
  }

  lemma NameHere(v: string, i: nat, name: string)
    requires i + |Reference(name)| <= |v|
    requires forall j :: 0 <= j < |Reference(name)| ==> v[i + j] == Reference(name)[j]
    ensures forall j :: 0 <= j < |name| ==> v[i + 2 + j] == name[j]
    ensures v[i + 2 + |name|] == '}' && v[i + 2..i + 2 + |name|] == name
  {
    var r := Reference(name);
    forall j | 0 <= j < |name|
      ensures v[i + 2 + j] == name[j]
    {
      assert r[2 + j] == name[j] && v[i + (2 + j)] == r[2 + j];
    }
    assert v[i + (|r| - 1)] == r[|r| - 1] == '}';
  }

  lemma ReferenceHere(v: string, i: nat, name: string)
    requires SecretName(name) && i + |Reference(name)| <= |v|
    requires forall j :: 0 <= j < |Reference(name)| ==> v[i + j] == Reference(name)[j]
    requires HasPrefix(v, i)
    ensures RefAt(v, i) && RefName(v, i) == name
  {
    NameHere(v, i, name);
    NameThrough(v, name, i + 2);
    NameEndAt(v, i + |PREFIX|, i + 2 + |name|);
  }

  lemma NameThrough(v: string, name: string, from: nat)
    requires SecretName(name) && from + |name| <= |v| && forall j :: 0 <= j < |name| ==> v[from + j] == name[j]
    ensures forall j :: from + |SECRET| <= j < from + |name| ==> NameChar(v[j])
  {
    assert forall j :: from + |SECRET| <= j < from + |name| ==> v[j] == name[j - from];
  }

  /** A reference that starts anywhere is found, whatever stands before it. */
  lemma {:induction false} FoundFrom(v: string, i: nat, k: nat)
    requires i <= k < |v| && RefAt(v, k)
    ensures RefName(v, k) in References(v, i)
    decreases k - i
  {
    if i < k {
      if RefAt(v, i) {
        PastReference(v, i, k);
        FoundFrom(v, RefEnd(v, i), k);
      } else {
        FoundFrom(v, i + 1, k);
      }
    }
  }

  lemma DollarFirst(v: string, k: nat)
    requires RefAt(v, k)
    ensures k < |v| && v[k] == '$'
  {
    assert v[k + 0] == PREFIX[0];
  }

  lemma NoDollarInside(v: string, i: nat, k: nat)
    requires RefAt(v, i) && i < k < RefEnd(v, i)
    ensures v[k] != '$'
  {
    if k < i + |PREFIX| {
      assert v[i + (k - i)] == PREFIX[k - i];
    }
  }

  /** A reference cannot start inside another. */
  lemma PastReference(v: string, i: nat, k: nat)
    requires i < k < |v| && RefAt(v, i) && RefAt(v, k)
    ensures RefEnd(v, i) <= k
  {
    DollarFirst(v, k);
    if k < RefEnd(v, i) {
      NoDollarInside(v, i, k);
    }
  }

  lemma ReferenceFound(a: string, name: string, b: string)
    requires SecretName(name)
    ensures name in References(a + Reference(name) + b, 0)
  {
    ReferenceAt(a, name, b);
    FoundFrom(a + Reference(name) + b, 0, |a|);
  }

  /* ── templates ── */

  type Values = map<string, string>

  /** What an app's templates may name. */
  datatype Context = Context(
    appId: string,
    hostname: string,
    configuration: Values,
    services: set<string>,
    oidc: Option<Values>)

  predicate TokenChar(c: char) {
    Letter(c) || '0' <= c <= '9' || c == '_' || c == '.' || c == '-'
  }

  function TokenEnd(t: string, i: nat): (e: nat)
    requires i <= |t|
    ensures i <= e <= |t| && (e == |t| || !TokenChar(t[e])) && forall j :: i <= j < e ==> TokenChar(t[j])
    decreases |t| - i
  {
    if i == |t| || !TokenChar(t[i]) then i else TokenEnd(t, i + 1)
  }

  predicate All(s: string, from: nat, p: char -> bool) {
    forall i :: from <= i < |s| ==> p(s[i])
  }

  /** hostname, config.KEY, secret.KEY, service.id or oidc.name. */
  predicate IsToken(s: string) {
    || s == "hostname"
    || ("config." <= s && |s| > 7 && All(s, 7, KeyChar))
    || ("secret." <= s && |s| > 7 && All(s, 7, KeyChar))
    || ("service." <= s && |s| > 8 && All(s, 8, SlugChar))
    || ("oidc." <= s && |s| > 5 && All(s, 5, Letter))
  }

  /** The token in double braces that starts here. */
  predicate TokenAt(t: string, i: nat) {
    && i + 2 <= |t| && t[i] == '{' && t[i + 1] == '{'
    && var e := TokenEnd(t, i + 2);
    && e + 2 <= |t| && t[e] == '}' && t[e + 1] == '}' && IsToken(t[i + 2..e])
  }

  function TokenOf(t: string, i: nat): string
    requires TokenAt(t, i)
  {
    t[i + 2..TokenEnd(t, i + 2)]
  }

  function Get(values: Values, key: string): string {
    if key in values then values[key] else ""
  }

  function Resolve(token: string, context: Context): string
    requires IsToken(token)
  {
    if token == "hostname" then context.hostname
    else if "config." <= token then Get(context.configuration, token[7..])
    else if "secret." <= token then SecretReference(context.appId, token[7..])
    else if "service." <= token then
      (if token[8..] in context.services then context.appId + "-" + token[8..] else "")
    else if context.oidc.Some? then Get(context.oidc.value, token[5..])
    else ""
  }

  /** Every token replaced once. */
  function ResolveFrom(t: string, i: nat, context: Context): string
    requires i <= |t|
    decreases |t| - i
  {
    if i == |t| then []
    else if TokenAt(t, i) then Resolve(TokenOf(t, i), context) + ResolveFrom(t, TokenEnd(t, i + 2) + 2, context)
    else [t[i]] + ResolveFrom(t, i + 1, context)
  }

  function ResolveTemplate(t: string, context: Context): string {
    ResolveFrom(t, 0, context)
  }

  /** A token cannot start inside another. */
  lemma NoTokenInside(t: string, i: nat, k: nat)
    requires TokenAt(t, i) && i < k < TokenEnd(t, i + 2) + 2
    ensures !TokenAt(t, k)
  {
    var e := TokenEnd(t, i + 2);
    assert t[i + 2..e] != "";
    if k == i + 1 {
      assert TokenChar(t[k + 1]);
    }
  }

  lemma PastToken(t: string, i: nat, k: nat)
    requires i < k && TokenAt(t, i) && TokenAt(t, k)
    ensures TokenEnd(t, i + 2) + 2 <= k
  {
    if k < TokenEnd(t, i + 2) + 2 {
      NoTokenInside(t, i, k);
    }
  }

  lemma Regroup(first: string, a: string, x: string, b: string)
    ensures first + (a + x + b) == first + a + x + b
  {
  }

  lemma ResolveStep(t: string, i: nat, k: nat, context: Context) returns (first: string, next: nat)
    requires i < k <= |t| && TokenAt(t, k)
    ensures i < next <= k && ResolveFrom(t, i, context) == first + ResolveFrom(t, next, context)
  {
    if TokenAt(t, i) {
      PastToken(t, i, k);
      TokenResolves(t, i, context);
      first, next := Resolve(TokenOf(t, i), context), TokenEnd(t, i + 2) + 2;
    } else {
      CharStays(t, i, context);
      first, next := [t[i]], i + 1;
    }
  }

  lemma TokenResolves(t: string, i: nat, context: Context)
    requires i < |t| && TokenAt(t, i)
    ensures ResolveFrom(t, i, context) == Resolve(TokenOf(t, i), context) + ResolveFrom(t, TokenEnd(t, i + 2) + 2, context)
  {
  }

  lemma CharStays(t: string, i: nat, context: Context)
    requires i < |t| && !TokenAt(t, i)
    ensures ResolveFrom(t, i, context) == [t[i]] + ResolveFrom(t, i + 1, context)
  {
  }

  /** A token that starts anywhere is replaced. */
  lemma {:induction false} TokenReplaced(t: string, i: nat, k: nat, context: Context) returns (a: string, b: string)
    requires i <= k <= |t| && TokenAt(t, k)
    ensures ResolveFrom(t, i, context) == a + Resolve(TokenOf(t, k), context) + b
    decreases k - i
  {
    if i == k {
      a, b := "", ResolveFrom(t, TokenEnd(t, k + 2) + 2, context);
      assert "" + Resolve(TokenOf(t, k), context) == Resolve(TokenOf(t, k), context);
    } else {
      var first, next := ResolveStep(t, i, k, context);
      a, b := TokenReplaced(t, next, k, context);
      Regroup(first, a, Resolve(TokenOf(t, k), context), b);
      a := first + a;
    }
  }

  /** Every secret a template asks for is a reference the plan's secrets are collected from. */
  lemma SecretTokenFound(t: string, k: nat, key: string, context: Context)
    requires TokenAt(t, k) && TokenOf(t, k) == "secret." + key && Slug(context.appId) && Key(key)
    ensures SecretNameOf(context.appId, key) in References(ResolveTemplate(t, context), 0)
  {
    var token := "secret." + key;
    assert token[0] == 's' && token[2] == 'c' && token[7..] == key;
    assert "service."[2] != 'c' && "hostname"[0] != 's' && "config."[0] != 's';
    var a, b := TokenReplaced(t, 0, k, context);
    NameIsProper(context.appId, key);
    ReferenceFound(a, SecretNameOf(context.appId, key), b);
  }
}
