/** Secrets travel through a plan by reference: how a value is escaped for Compose, and
    how a generated file gets the values (cli/internal/reconcile/render.go, plan.go). */
module Secrets {
  import opened Common

  const PREFIX := "${KIMONO_SECRET_"
  const SECRET := "KIMONO_SECRET_"

  /* ── the pattern \$\{(KIMONO_SECRET_[A-Z0-9_]+)\} ── */

  predicate NameChar(c: char) {
    'A' <= c <= 'Z' || '0' <= c <= '9' || c == '_'
  }

  predicate HasPrefix(v: string, i: nat) {
    i + |PREFIX| <= |v| && forall j :: 0 <= j < |PREFIX| ==> v[i + j] == PREFIX[j]
  }

  function NameEnd(v: string, i: nat): (e: nat)
    requires i <= |v|
    ensures i <= e <= |v| && (e == |v| || !NameChar(v[e]))
    ensures forall j :: i <= j < e ==> NameChar(v[j])
    decreases |v| - i
  {
    if i == |v| || !NameChar(v[i]) then i else NameEnd(v, i + 1)
  }

  /** A whole reference starts here. */
  predicate RefAt(v: string, i: nat) {
    && HasPrefix(v, i)
    && var e := NameEnd(v, i + |PREFIX|);
    && i + |PREFIX| < e < |v| && v[e] == '}'
  }

  /** Just past the reference that starts here. */
  function RefEnd(v: string, i: nat): (e: nat)
    requires RefAt(v, i)
    ensures i + |PREFIX| + 1 < e <= |v| && v[e - 1] == '}'
  {
    NameEnd(v, i + |PREFIX|) + 1
  }

  function RefName(v: string, i: nat): string
    requires RefAt(v, i)
  {
    v[i + 2..RefEnd(v, i) - 1]
  }

  predicate SecretName(n: string) {
    && |n| > |SECRET| && n[..|SECRET|] == SECRET
    && forall j :: |SECRET| <= j < |n| ==> NameChar(n[j])
  }

  /** The references in a value, by name, in order. */
  function References(v: string, i: nat): seq<string>
    requires i <= |v|
    decreases |v| - i
  {
    if i == |v| then []
    else if RefAt(v, i) then [RefName(v, i)] + References(v, RefEnd(v, i))
    else References(v, i + 1)
  }

  /* ── ExpandSecrets ── */

  type Values = map<string, string>

  /** Every reference replaced once by its value; one without a value stays. */
  function Expand(v: string, i: nat, secrets: Values): string
    requires i <= |v|
    decreases |v| - i
  {
    if i == |v| then []
    else if RefAt(v, i) then
      (if RefName(v, i) in secrets then secrets[RefName(v, i)] else v[i..RefEnd(v, i)]) + Expand(v, RefEnd(v, i), secrets)
    else [v[i]] + Expand(v, i + 1, secrets)
  }

  /** The references that have no value. */
  function Missing(v: string, i: nat, secrets: Values): seq<string>
    requires i <= |v|
    decreases |v| - i
  {
    if i == |v| then []
    else if RefAt(v, i) then
      (if RefName(v, i) in secrets then [] else [RefName(v, i)]) + Missing(v, RefEnd(v, i), secrets)
    else Missing(v, i + 1, secrets)
  }

  datatype Expanded = Contents(text: string) | MissingValues(names: seq<string>)

  function ExpandedOf(v: string, secrets: Values): Expanded {
    if Missing(v, 0, secrets) == [] then Contents(Expand(v, 0, secrets)) else MissingValues(Missing(v, 0, secrets))
  }

  lemma Grouped<T>(before: seq<T>, piece: seq<T>, rest: seq<T>)
    ensures before + (piece + rest) == before + piece + rest
  {
  }

  /** The text so far, the names so far, and what is still to read make the whole. */
  ghost predicate Expanding(v: string, i: nat, secrets: Values, expanded: string, missing: seq<string>)
    requires i <= |v|
  {
    && Expand(v, 0, secrets) == expanded + Expand(v, i, secrets)
    && Missing(v, 0, secrets) == missing + Missing(v, i, secrets)
  }

  lemma ExpandingReference(v: string, i: nat, secrets: Values, expanded: string, missing: seq<string>)
    requires i < |v| && Expanding(v, i, secrets, expanded, missing) && RefAt(v, i)
    ensures var name := RefName(v, i);
            if name in secrets then Expanding(v, RefEnd(v, i), secrets, expanded + secrets[name], missing)
            else Expanding(v, RefEnd(v, i), secrets, expanded + v[i..RefEnd(v, i)], missing + [name])
  {
    var name, end := RefName(v, i), RefEnd(v, i);
    Grouped(expanded, if name in secrets then secrets[name] else v[i..end], Expand(v, end, secrets));
    Grouped(missing, if name in secrets then [] else [name], Missing(v, end, secrets));
    assert missing + [] == missing;
  }

  lemma ExpandingPlain(v: string, i: nat, secrets: Values, expanded: string, missing: seq<string>)
    requires i < |v| && Expanding(v, i, secrets, expanded, missing) && !RefAt(v, i)
    ensures Expanding(v, i + 1, secrets, expanded + [v[i]], missing)
  {
    Grouped(expanded, [v[i]], Expand(v, i + 1, secrets));
  }

  lemma ExpandingDone(v: string, secrets: Values, expanded: string, missing: seq<string>)
    requires Expanding(v, |v|, secrets, expanded, missing)
    ensures Expand(v, 0, secrets) == expanded && Missing(v, 0, secrets) == missing
  {
    assert expanded + [] == expanded && missing + [] == missing;
  }

  /** Substitutes the values stored beside the plan, collecting the names that have none. */
  method ExpandSecrets(contents: string, secrets: Values) returns (r: Expanded)
    ensures r == ExpandedOf(contents, secrets)
  {
    var expanded, missing := "", [];
    var i := 0;
    while i < |contents|
      invariant 0 <= i <= |contents| && Expanding(contents, i, secrets, expanded, missing)
    {
      if RefAt(contents, i) {
        ExpandingReference(contents, i, secrets, expanded, missing);
        var name, end := RefName(contents, i), RefEnd(contents, i);
        if name in secrets {
          expanded := expanded + secrets[name];
        } else {
          missing := missing + [name];
          expanded := expanded + contents[i..end];
        }
        i := end;
      } else {
        ExpandingPlain(contents, i, secrets, expanded, missing);
        expanded := expanded + [contents[i]];
        i := i + 1;
      }
    }
    ExpandingDone(contents, secrets, expanded, missing);
    r := if missing == [] then Contents(expanded) else MissingValues(missing);
  }

  /** Expansion succeeds exactly when every reference has a value. */
  lemma {:induction false} MissingIff(v: string, i: nat, secrets: Values)
    requires i <= |v|
    ensures Missing(v, i, secrets) == [] <==> forall n :: n in References(v, i) ==> n in secrets
    decreases |v| - i
  {
    if i < |v| {
      if RefAt(v, i) {
        MissingIff(v, RefEnd(v, i), secrets);
        assert RefName(v, i) in References(v, i);
      } else {
        MissingIff(v, i + 1, secrets);
      }
    }
  }

  /* ── composeValue ── */

  function Escaped(v: string, i: nat): string
    requires i <= |v|
    decreases |v| - i
  {
    if i == |v| then []
    else if v[i] == '$' && !HasPrefix(v, i) then "$$" + Escaped(v, i + 1)
    else [v[i]] + Escaped(v, i + 1)
  }

  /** Escapes literal dollars so Compose interpolation only resolves secret references. */
  method ComposeValue(value: string) returns (escaped: string)
    ensures escaped == Escaped(value, 0)
  {
    escaped := "";
    var index := 0;
    while index < |value|
      invariant 0 <= index <= |value|
      invariant Escaped(value, 0) == escaped + Escaped(value, index)
    {
      ghost var before := escaped;
      if value[index] == '$' && !HasPrefix(value, index) {
        escaped := escaped + "$$";
        assert escaped + Escaped(value, index + 1) == before + ("$$" + Escaped(value, index + 1));
      } else {
        escaped := escaped + [value[index]];
        assert escaped + Escaped(value, index + 1) == before + ([value[index]] + Escaped(value, index + 1));
      }
      index := index + 1;
    }
    assert escaped + [] == escaped;
  }

  /* ── Compose Specification, "Interpolation" ── */

  predicate IdentChar(c: char) {
    NameChar(c) || 'a' <= c <= 'z'
  }

  function IdentEnd(t: string, i: nat): (e: nat)
    requires i <= |t|
    ensures i <= e <= |t| && (e == |t| || !IdentChar(t[e]))
    ensures forall j :: i <= j < e ==> IdentChar(t[j])
    decreases |t| - i
  {
    if i == |t| || !IdentChar(t[i]) then i else IdentEnd(t, i + 1)
  }

  function ValueOf(env: Values, name: string): string {
    if name in env then env[name] else ""
  }

  function Prefixed(s: string, r: Option<string>): Option<string> {
    if r.None? then None else Some(s + r.value)
  }

  /** `$$` is a dollar, `${NAME}` and `$NAME` are replaced once, by nothing when unset. Any
      other use of a dollar is an error here, the forms with an operator included. */
  function Interpolate(t: string, env: Values): Option<string>
    decreases |t|
  {
    if t == [] then Some([])
    else if t[0] != '$' then Prefixed([t[0]], Interpolate(t[1..], env))
    else if |t| == 1 then None
    else if t[1] == '$' then Prefixed("$", Interpolate(t[2..], env))
    else if t[1] == '{' then
      var e := IdentEnd(t, 2);
      if e == 2 || e == |t| || t[e] != '}' then None
      else Prefixed(ValueOf(env, t[2..e]), Interpolate(t[e + 1..], env))
    else
      var e := IdentEnd(t, 1);
      if e == 1 then None else Prefixed(ValueOf(env, t[1..e]), Interpolate(t[e..], env))
  }

  /* ── the two agree ── */

  /** From here on, whatever starts like a reference is one. */
  ghost predicate WellFormed(v: string, i: nat) {
    forall j :: i <= j && HasPrefix(v, j) ==> RefAt(v, j)
  }

  ghost predicate ProperNames(secrets: Values) {
    forall n :: n in secrets ==> SecretName(n)
  }

  /** A stretch without dollars is escaped and expanded as it is. */
  lemma {:induction false} Copied(v: string, a: nat, b: nat, secrets: Values)
    requires a <= b <= |v| && forall j :: a <= j < b ==> v[j] != '$'
    ensures Escaped(v, a) == v[a..b] + Escaped(v, b)
    ensures Expand(v, a, secrets) == v[a..b] + Expand(v, b, secrets)
    ensures Missing(v, a, secrets) == Missing(v, b, secrets)
    decreases b - a
  {
    if a < b {
      Copied(v, a + 1, b, secrets);
      CopiedOne(v, a, secrets);
      OneMore(v, a, b, Escaped(v, b));
      OneMore(v, a, b, Expand(v, b, secrets));
    } else {
      assert v[a..b] == [];
    }
  }

  lemma CopiedOne(v: string, a: nat, secrets: Values)
    requires a < |v| && v[a] != '$'
    ensures Escaped(v, a) == [v[a]] + Escaped(v, a + 1)
    ensures Expand(v, a, secrets) == [v[a]] + Expand(v, a + 1, secrets)
    ensures Missing(v, a, secrets) == Missing(v, a + 1, secrets)
  {
    NoPrefix(v, a);
  }

  lemma OneMore(v: string, a: nat, b: nat, rest: string)
    requires a < b <= |v|
    ensures [v[a]] + (v[a + 1..b] + rest) == v[a..b] + rest
  {
  }

  lemma PrefixDollar(v: string, i: nat)
    requires HasPrefix(v, i)
    ensures v[i] == '$'
  {
    assert v[i + 0] == PREFIX[0];
  }

  lemma NoPrefix(v: string, i: nat)
    requires i < |v| && v[i] != '$'
    ensures !HasPrefix(v, i) && !RefAt(v, i)
  {
    if HasPrefix(v, i) {
      PrefixDollar(v, i);
    }
  }

  lemma PrefixChars(v: string, i: nat)
    requires HasPrefix(v, i)
    ensures v[i] == '$' && v[i + 1] == '{'
    ensures forall j :: i + 2 <= j < i + |PREFIX| ==> IdentChar(v[j]) && v[j] == SECRET[j - i - 2]
  {
    assert v[i + 0] == PREFIX[0] && v[i + 1] == PREFIX[1];
    assert forall k :: 2 <= k < |PREFIX| ==> IdentChar(PREFIX[k]) && PREFIX[k] == SECRET[k - 2];
    forall j | i + 2 <= j < i + |PREFIX|
      ensures IdentChar(v[j]) && v[j] == SECRET[j - i - 2]
    {
      assert v[i + (j - i)] == PREFIX[j - i];
    }
  }

  /** A name of capitals is the whole identifier unless a small letter goes on. */
  lemma NameBeforeIdent(v: string, i: nat, from: nat)
    requires from <= i <= |v| && i <= IdentEnd(v, from)
    ensures NameEnd(v, i) <= IdentEnd(v, from)
    ensures NameEnd(v, i) < |v| && v[NameEnd(v, i)] == '}' ==> NameEnd(v, i) == IdentEnd(v, from)
  {
  }

  lemma NameOfIdent(v: string, i: nat, e: nat)
    requires HasPrefix(v, i) && i + |PREFIX| <= e <= |v|
    ensures SecretName(v[i + 2..e]) <==> e > i + |PREFIX| && forall j :: i + |PREFIX| <= j < e ==> NameChar(v[j])
  {
    PrefixChars(v, i);
    var name := v[i + 2..e];
    assert name[..|SECRET|] == SECRET;
    assert forall j :: |SECRET| <= j < |name| ==> name[j] == v[i + 2 + j];
    assert forall j :: i + |PREFIX| <= j < e ==> v[j] == name[j - i - 2];
  }

  /** What follows a prefix: a name, no dollar in it, and a reference exactly when the
      name is a secret's and a brace closes it. */
  lemma AfterPrefix(v: string, i: nat)
    requires HasPrefix(v, i)
    ensures var e := IdentEnd(v, i + 2);
            && e >= i + |PREFIX| && v[i] == '$' && v[i + 1] == '{'
            && (forall j :: i + 1 <= j < e ==> v[j] != '$')
            && (RefAt(v, i) <==> e < |v| && v[e] == '}' && SecretName(v[i + 2..e]))
            && (RefAt(v, i) ==> RefEnd(v, i) == e + 1)
  {
    PrefixChars(v, i);
    var e := IdentEnd(v, i + 2);
    assert e >= i + |PREFIX|;
    NameOfIdent(v, i, e);
    NameBeforeIdent(v, i + |PREFIX|, i + 2);
  }

  /** The value escaped for Compose, once Compose has read it. */
  function Read(v: string, i: nat, secrets: Values): Option<string>
    requires i <= |v|
  {
    Interpolate(Escaped(v, i), secrets)
  }

  /** How a reading compares with the expansion: equal when well-formed, and otherwise an
      error or shorter. */
  ghost predicate Compares(read: Option<string>, expanded: string, wellFormed: bool) {
    && (read.None? ==> !wellFormed)
    && (read.Some? ==> if wellFormed then read.value == expanded else |read.value| < |expanded|)
  }

  lemma ReadPlain(v: string, i: nat, secrets: Values)
    requires i < |v| && v[i] != '$'
    ensures Read(v, i, secrets) == Prefixed([v[i]], Read(v, i + 1, secrets))
  {
    NoPrefix(v, i);
    assert Escaped(v, i)[1..] == Escaped(v, i + 1);
  }

  lemma ReadDollar(v: string, i: nat, secrets: Values)
    requires i < |v| && v[i] == '$' && !HasPrefix(v, i)
    ensures Read(v, i, secrets) == Prefixed("$", Read(v, i + 1, secrets))
  {
    var t := Escaped(v, i);
    assert t == "$$" + Escaped(v, i + 1);
    assert t[2..] == Escaped(v, i + 1);
  }

  /** What starts like a reference is read as its name's value if a brace closes it. */
  lemma ReadPrefix(v: string, i: nat, secrets: Values)
    requires HasPrefix(v, i)
    ensures var e := IdentEnd(v, i + 2);
            Read(v, i, secrets) ==
              if e == |v| || v[e] != '}' then None
              else Prefixed(ValueOf(secrets, v[i + 2..e]), Read(v, e + 1, secrets))
  {
    var e := IdentEnd(v, i + 2);
    var closed := e < |v| && v[e] == '}';
    PrefixParts(v, i, e, closed, secrets);
    InterpolateBraces(Escaped(v, i), e - i, secrets, v[i + 2..e], if closed then Escaped(v, e + 1) else [], closed);
  }

  lemma PrefixParts(v: string, i: nat, e: nat, closed: bool, secrets: Values)
    requires HasPrefix(v, i) && e == IdentEnd(v, i + 2) && (closed <==> e < |v| && v[e] == '}')
    ensures var t, n := Escaped(v, i), e - i;
            && 2 < n <= |t| && t[0] == '$' && t[1] == '{' && IdentEnd(t, 2) == n && t[2..n] == v[i + 2..e]
            && (closed <==> n < |t| && t[n] == '}') && (closed ==> t[n + 1..] == Escaped(v, e + 1))
  {
    AfterPrefix(v, i);
    Copied(v, i + 1, e, secrets);
    EscapedPrefix(v, i, e);
    SameIdent(Escaped(v, i), v, 2, i + 2, e);
  }

  lemma PartsOf(v: string, i: nat, e: nat, t: string, rest: string)
    requires i + 2 <= e <= |v| && t == v[i..e] + rest
    ensures |t| >= e - i && (forall j :: i <= j < e ==> t[j - i] == v[j])
    ensures t[2..e - i] == v[i + 2..e] && t[e - i..] == rest
  {
  }

  lemma RestOf(t: string, n: nat, rest: string)
    requires n <= |t| && t[n..] == rest
    ensures (|t| == n <==> rest == []) && (rest != [] ==> t[n] == rest[0] && t[n + 1..] == rest[1..])
  {
    if rest != [] {
      assert t[n..][0] == t[n];
      assert t[n..][1..] == t[n + 1..];
    }
  }

  lemma EscapedAll(v: string, i: nat, e: nat)
    requires HasPrefix(v, i) && i < e <= |v| && v[i] == '$'
    requires Escaped(v, i + 1) == v[i + 1..e] + Escaped(v, e)
    ensures Escaped(v, i) == v[i..e] + Escaped(v, e)
  {
    assert Escaped(v, i) == [v[i]] + Escaped(v, i + 1);
    OneMore(v, i, e, Escaped(v, e));
  }

  /** The escaped text keeps a prefix and the name after it as they are. */
  lemma EscapedPrefix(v: string, i: nat, e: nat)
    requires HasPrefix(v, i) && i + |PREFIX| <= e <= |v| && v[i] == '$'
    requires Escaped(v, i + 1) == v[i + 1..e] + Escaped(v, e)
    ensures var t := Escaped(v, i);
            && |t| >= e - i && (forall j :: i <= j < e ==> t[j - i] == v[j])
            && t[2..e - i] == v[i + 2..e] && t[e - i..] == Escaped(v, e)
            && (|t| == e - i <==> e == |v|) && (e < |v| ==> t[e - i] == v[e])
            && (e < |v| && v[e] == '}' ==> t[e - i + 1..] == Escaped(v, e + 1))
  {
    EscapedAll(v, i, e);
    PartsOf(v, i, e, Escaped(v, i), Escaped(v, e));
    RestOf(Escaped(v, i), e - i, Escaped(v, e));
    if e < |v| {
      EscapedStarts(v, e);
    }
  }

  lemma EscapedStarts(v: string, e: nat)
    requires e < |v|
    ensures Escaped(v, e) != [] && Escaped(v, e)[0] == v[e]
    ensures v[e] != '$' ==> Escaped(v, e)[1..] == Escaped(v, e + 1)
  {
  }

  lemma InterpolateBraces(t: string, e: nat, env: Values, name: string, rest: string, closed: bool)
    requires 2 < e <= |t| && t[0] == '$' && t[1] == '{' && IdentEnd(t, 2) == e && t[2..e] == name
    requires closed <==> e < |t| && t[e] == '}'
    requires closed ==> t[e + 1..] == rest
    ensures Interpolate(t, env) == if closed then Prefixed(ValueOf(env, name), Interpolate(rest, env)) else None
  {
  }

  lemma {:induction false} SameIdent(t: string, v: string, i: nat, k: nat, e: nat)
    requires k <= e <= |v| && e == IdentEnd(v, k) && i + (e - k) <= |t|
    requires t[i..i + (e - k)] == v[k..e]
    requires i + (e - k) == |t| || !IdentChar(t[i + (e - k)])
    ensures IdentEnd(t, i) == i + (e - k)
    decreases e - k
  {
    if k < e {
      assert t[i] == t[i..i + (e - k)][0] == v[k..e][0];
      assert t[i + 1..i + 1 + (e - (k + 1))] == t[i..i + (e - k)][1..];
      assert v[k + 1..e] == v[k..e][1..];
      SameIdent(t, v, i + 1, k + 1, e);
    }
  }

  lemma {:induction false} ReadCompares(v: string, i: nat, secrets: Values)
    requires i <= |v| && ProperNames(secrets) && Missing(v, i, secrets) == []
    ensures Compares(Read(v, i, secrets), Expand(v, i, secrets), WellFormed(v, i))
    decreases |v| - i
  {
    if i == |v| {
    } else if !HasPrefix(v, i) {
      NothingMissing(v, i, secrets);
      ReadCompares(v, i + 1, secrets);
      OtherCompares(v, i, secrets);
    } else {
      AfterPrefix(v, i);
      var e := IdentEnd(v, i + 2);
      if e < |v| && v[e] == '}' {
        NothingMissingPast(v, i, e, secrets);
        ReadCompares(v, e + 1, secrets);
      }
      PrefixCompares(v, i, e, secrets);
    }
  }

  lemma NothingMissing(v: string, i: nat, secrets: Values)
    requires i < |v| && !HasPrefix(v, i) && Missing(v, i, secrets) == []
    ensures Missing(v, i + 1, secrets) == []
  {
  }

  lemma PastPrefix(v: string, i: nat)
    requires HasPrefix(v, i)
    ensures var e := IdentEnd(v, i + 2);
            && i + 1 <= e && (RefAt(v, i) ==> RefEnd(v, i) == e + 1) && forall j :: i + 1 <= j < e ==> v[j] != '$'
  {
    AfterPrefix(v, i);
  }

  lemma {:induction false} NoneMissingWithin(v: string, a: nat, b: nat, secrets: Values)
    requires a <= b <= |v| && forall j :: a <= j < b ==> v[j] != '$'
    ensures Missing(v, a, secrets) == Missing(v, b, secrets)
    decreases b - a
  {
    if a < b {
      NoneMissingWithin(v, a + 1, b, secrets);
      CopiedOne(v, a, secrets);
    }
  }

  lemma NothingMissingPast(v: string, i: nat, e: nat, secrets: Values)
    requires HasPrefix(v, i) && e == IdentEnd(v, i + 2) && e < |v| && v[e] == '}'
    requires Missing(v, i, secrets) == []
    ensures Missing(v, e + 1, secrets) == []
  {
    PastPrefix(v, i);
    if RefAt(v, i) {
      NoneMissingAfter(v, i, secrets);
    } else {
      PlainIsNotMissing(v, i, secrets);
      NoneMissingWithin(v, i + 1, e + 1, secrets);
    }
  }

  lemma PlainIsNotMissing(v: string, i: nat, secrets: Values)
    requires i < |v| && !RefAt(v, i)
    ensures Missing(v, i, secrets) == Missing(v, i + 1, secrets)
  {
  }

  lemma NoneMissingAfter(v: string, i: nat, secrets: Values)
    requires i < |v| && RefAt(v, i) && Missing(v, i, secrets) == []
    ensures Missing(v, RefEnd(v, i), secrets) == []
  {
  }

  lemma PrefixCompares(v: string, i: nat, e: nat, secrets: Values)
    requires HasPrefix(v, i) && e == IdentEnd(v, i + 2) && ProperNames(secrets) && Missing(v, i, secrets) == []
    requires e < |v| && v[e] == '}' ==>
               Compares(Read(v, e + 1, secrets), Expand(v, e + 1, secrets), WellFormed(v, e + 1))
    ensures Compares(Read(v, i, secrets), Expand(v, i, secrets), WellFormed(v, i))
  {
    AfterPrefix(v, i);
    ReadPrefix(v, i, secrets);
    if e == |v| || v[e] != '}' {
      UnclosedCompares(v, i, Read(v, i, secrets), Expand(v, i, secrets));
    } else if RefAt(v, i) {
      ReferenceCompares(v, i, e, secrets);
    } else {
      LostPrefix(v, i, e, secrets, Read(v, i, secrets));
    }
  }

  lemma UnclosedCompares(v: string, i: nat, read: Option<string>, expanded: string)
    requires HasPrefix(v, i) && !RefAt(v, i) && read.None?
    ensures Compares(read, expanded, WellFormed(v, i))
  {
  }

  lemma LostPrefix(v: string, i: nat, e: nat, secrets: Values, read: Option<string>)
    requires HasPrefix(v, i) && !RefAt(v, i) && i + |PREFIX| <= e < |v| && v[e] == '}'
    requires ProperNames(secrets) && !SecretName(v[i + 2..e]) && forall j :: i + 1 <= j < e ==> v[j] != '$'
    requires Compares(Read(v, e + 1, secrets), Expand(v, e + 1, secrets), WellFormed(v, e + 1))
    requires read == Prefixed(ValueOf(secrets, v[i + 2..e]), Read(v, e + 1, secrets))
    ensures Compares(read, Expand(v, i, secrets), WellFormed(v, i))
  {
    LostExpands(v, i, e, secrets);
    LostIsUnset(v, i, v[i + 2..e], secrets);
    LostCompares(Read(v, e + 1, secrets), v[i..e + 1], Expand(v, e + 1, secrets), WellFormed(v, e + 1));
  }

  /** Text lost makes the reading shorter. */
  lemma LostCompares(read: Option<string>, lost: string, expanded: string, wellFormed: bool)
    requires Compares(read, expanded, wellFormed) && lost != []
    ensures Compares(Prefixed("", read), lost + expanded, false)
  {
  }

  lemma OtherCompares(v: string, i: nat, secrets: Values)
    requires i < |v| && !HasPrefix(v, i)
    requires Compares(Read(v, i + 1, secrets), Expand(v, i + 1, secrets), WellFormed(v, i + 1))
    ensures Compares(Read(v, i, secrets), Expand(v, i, secrets), WellFormed(v, i))
  {
    NextWellFormed(v, i);
    if v[i] == '$' {
      ReadDollar(v, i, secrets);
    } else {
      ReadPlain(v, i, secrets);
    }
  }

  lemma NextWellFormed(v: string, i: nat)
    requires !HasPrefix(v, i)
    ensures WellFormed(v, i) == WellFormed(v, i + 1)
  {
    if WellFormed(v, i + 1) {
      forall j | i <= j && HasPrefix(v, j)
        ensures RefAt(v, j)
      {
        assert j != i;
      }
    }
  }

  lemma ReferenceCompares(v: string, i: nat, e: nat, secrets: Values)
    requires RefAt(v, i) && e + 1 == RefEnd(v, i) && IdentEnd(v, i + 2) == e && Missing(v, i, secrets) == []
    requires forall j :: i + 1 <= j < e ==> v[j] != '$'
    requires Compares(Read(v, e + 1, secrets), Expand(v, e + 1, secrets), WellFormed(v, e + 1))
    requires Read(v, i, secrets) == Prefixed(ValueOf(secrets, v[i + 2..e]), Read(v, e + 1, secrets))
    ensures Compares(Read(v, i, secrets), Expand(v, i, secrets), WellFormed(v, i))
  {
    WellFormedPast(v, i, e + 1);
    assert RefName(v, i) == v[i + 2..e];
  }

  lemma ExpandPlain(v: string, i: nat, secrets: Values)
    requires i < |v| && !RefAt(v, i)
    ensures Expand(v, i, secrets) == [v[i]] + Expand(v, i + 1, secrets)
    ensures Missing(v, i, secrets) == Missing(v, i + 1, secrets)
  {
  }

  /** What only starts like a reference is kept by the expansion as it is. */
  lemma LostExpands(v: string, i: nat, e: nat, secrets: Values)
    requires HasPrefix(v, i) && !RefAt(v, i) && i + |PREFIX| <= e < |v| && v[e] == '}'
    requires forall j :: i + 1 <= j < e ==> v[j] != '$'
    ensures Expand(v, i, secrets) == v[i..e + 1] + Expand(v, e + 1, secrets)
    ensures Missing(v, i, secrets) == Missing(v, e + 1, secrets)
  {
    ExpandPlain(v, i, secrets);
    NoneMissingWithin(v, i + 1, e + 1, secrets);
    LostText(v, i, e, secrets);
  }

  lemma LostText(v: string, i: nat, e: nat, secrets: Values)
    requires i < e < |v| && !RefAt(v, i) && forall j :: i + 1 <= j <= e ==> v[j] != '$'
    ensures Expand(v, i, secrets) == v[i..e + 1] + Expand(v, e + 1, secrets)
  {
    CopiedExpands(v, i + 1, e + 1, secrets);
    OneMore(v, i, e + 1, Expand(v, e + 1, secrets));
  }

  lemma CopiedExpands(v: string, a: nat, b: nat, secrets: Values)
    requires a <= b <= |v| && forall j :: a <= j < b ==> v[j] != '$'
    ensures Expand(v, a, secrets) == v[a..b] + Expand(v, b, secrets)
  {
    Copied(v, a, b, secrets);
  }

  /** And its name has no value. */
  lemma LostIsUnset(v: string, i: nat, name: string, secrets: Values)
    requires HasPrefix(v, i) && !RefAt(v, i) && ProperNames(secrets) && !SecretName(name)
    ensures ValueOf(secrets, name) == "" && !WellFormed(v, i)
  {
  }

  lemma WellFormedPast(v: string, i: nat, e: nat)
    requires RefAt(v, i) && e == RefEnd(v, i) && IdentEnd(v, i + 2) == e - 1
    requires forall j :: i + 1 <= j < e - 1 ==> v[j] != '$'
    ensures WellFormed(v, i) == WellFormed(v, e)
  {
    forall j | i < j < e
      ensures !HasPrefix(v, j)
    {
      NoPrefix(v, j);
    }
  }

  /** A plan value read by Compose is the value a generated file gets, exactly when what
      starts like a reference in it is one. */
  lemma ComposeAgreesIff(v: string, secrets: Values)
    requires ProperNames(secrets) && ExpandedOf(v, secrets).Contents?
    ensures Interpolate(Escaped(v, 0), secrets) == Some(Expand(v, 0, secrets)) <==> WellFormed(v, 0)
  {
    ReadCompares(v, 0, secrets);
  }

  /** No other dollar is ever interpreted: a value without references comes back unchanged. */
  lemma {:induction false} LiteralSurvives(v: string, i: nat, secrets: Values)
    requires i <= |v| && forall j :: i <= j ==> !HasPrefix(v, j)
    ensures Read(v, i, secrets) == Some(v[i..])
    decreases |v| - i
  {
    if i < |v| {
      LiteralSurvives(v, i + 1, secrets);
      assert v[i..] == [v[i]] + v[i + 1..];
      if v[i] == '$' {
        ReadDollar(v, i, secrets);
      } else {
        ReadPlain(v, i, secrets);
      }
    } else {
      assert Escaped(v, i) == [] && v[i..] == [];
    }
  }

  /** A name in small letters is no reference, and Compose reads it as unset. */
  lemma MalformedIsLost()
    ensures var v := "${KIMONO_SECRET_a}";
            ExpandedOf(v, map[]) == Contents(v) && Interpolate(Escaped(v, 0), map[]) == Some("")
  {
    LostExpanded("${KIMONO_SECRET_a}");
    LostRead("${KIMONO_SECRET_a}");
  }

  lemma LostExpanded(v: string)
    requires v == "${KIMONO_SECRET_a}"
    ensures ExpandedOf(v, map[]) == Contents(v)
  {
    LowerCase(v);
    LostExpands(v, 0, 17, map[]);
    assert v[0..18] + [] == v;
  }

  lemma ReadEnd(v: string, secrets: Values)
    ensures Read(v, |v|, secrets) == Some("")
  {
    assert Escaped(v, |v|) == [];
  }

  lemma LostRead(v: string)
    requires v == "${KIMONO_SECRET_a}"
    ensures Interpolate(Escaped(v, 0), map[]) == Some("")
  {
    LowerCase(v);
    ReadPrefix(v, 0, map[]);
    LostIsUnset(v, 0, v[2..17], map[]);
    ReadEnd(v, map[]);
    assert "" + "" == "";
    assert Read(v, 0, map[]) == Prefixed("", Some("")) == Some("");
  }

  lemma LowerCase(v: string)
    requires v == "${KIMONO_SECRET_a}"
    ensures HasPrefix(v, 0) && !RefAt(v, 0) && IdentEnd(v, 2) == 17 && forall j :: 1 <= j < 18 ==> v[j] != '$'
    ensures !SecretName(v[2..17]) && |v| == 18 && v[17] == '}'
  {
    PrefixChars(v, 0);
    assert v[16] == 'a' && v[17] == '}';
    IdentOfAll(v, 2, 17);
    AfterPrefix(v, 0);
    NameOfIdent(v, 0, 17);
  }

  lemma {:induction false} IdentOfAll(t: string, i: nat, e: nat)
    requires i <= e < |t| && !IdentChar(t[e]) && forall j :: i <= j < e ==> IdentChar(t[j])
    ensures IdentEnd(t, i) == e
    decreases e - i
  {
    if i < e {
      IdentOfAll(t, i + 1, e);
    }
  }
}
