/** The names published apps are reached by (cli/internal/sandbox/preview.go). Names,
    branches and hosts are ASCII; one character stands for one byte. */
module Previews {
  import opened Common

  /* ── names ── */

  predicate AlphaNum(c: char) {
    'a' <= c <= 'z' || '0' <= c <= '9'
  }

  /** ^[a-z0-9](?:[a-z0-9-]{0,48}[a-z0-9])?$ */
  predicate PreviewName(s: string) {
    && 1 <= |s| <= 50 && AlphaNum(s[0]) && AlphaNum(s[|s| - 1])
    && forall i :: 0 <= i < |s| ==> AlphaNum(s[i]) || s[i] == '-'
  }

  /** ^[a-z0-9-]{1,63}$ */
  predicate ValidId(s: string) {
    1 <= |s| <= 63 && forall i :: 0 <= i < |s| ==> AlphaNum(s[i]) || s[i] == '-'
  }

  function LowerChar(c: char): char {
    if 'A' <= c <= 'Z' then c - 'A' + 'a' else c
  }

  function Lower(s: string): (r: string)
    ensures |r| == |s| && forall i :: 0 <= i < |s| ==> r[i] == LowerChar(s[i])
  {
    seq(|s|, i requires 0 <= i < |s| => LowerChar(s[i]))
  }

  /** What follows the last slash. */
  function AfterSlash(s: string): string {
    if s == [] then [] else if s[|s| - 1] == '/' then [] else AfterSlash(s[..|s| - 1]) + [s[|s| - 1]]
  }

  predicate IsWord(w: string) {
    w != [] && forall i :: 0 <= i < |w| ==> AlphaNum(w[i])
  }

  function WordEnd(s: string, i: nat): (e: nat)
    requires i <= |s|
    ensures i <= e <= |s| && (e == |s| || !AlphaNum(s[e]))
    ensures forall j :: i <= j < e ==> AlphaNum(s[j])
    decreases |s| - i
  {
    if i == |s| || !AlphaNum(s[i]) then i else WordEnd(s, i + 1)
  }

  /** Every run of letters and digits. */
  function Words(s: string, i: nat): (words: seq<string>)
    requires i <= |s|
    ensures forall k :: 0 <= k < |words| ==> IsWord(words[k])
    decreases |s| - i
  {
    if i == |s| then []
    else if !AlphaNum(s[i]) then Words(s, i + 1)
    else [s[i..WordEnd(s, i)]] + Words(s, WordEnd(s, i))
  }

  predicate HexChar(c: char) {
    '0' <= c <= '9' || 'a' <= c <= 'f'
  }

  predicate IsHex(w: string) {
    forall i :: 0 <= i < |w| ==> HexChar(w[i])
  }

  function JoinDashes(words: seq<string>): string {
    if words == [] then []
    else if |words| == 1 then words[0]
    else words[0] + "-" + JoinDashes(words[1..])
  }

  function TrimDashes(s: string): string {
    if s != [] && s[|s| - 1] == '-' then TrimDashes(s[..|s| - 1]) else s
  }

  /** The words a name is made of: at most three, without the branch's own hex suffix. */
  function Stem(branch: string): string {
    var words := Words(Lower(AfterSlash(branch)), 0);
    var n := |words|;
    var kept := if n > 1 && |words[n - 1]| <= 6 && IsHex(words[n - 1]) then words[..n - 1] else words;
    var three := if |kept| > 3 then kept[..3] else kept;
    var stem := JoinDashes(three);
    var short := if |stem| > 30 then TrimDashes(stem[..30]) else stem;
    if short == [] then "preview" else short
  }

  /** A few words of the branch and six random hex digits. */
  function NameFor(branch: string, suffix: string): string {
    Stem(branch) + "-" + suffix
  }

  predicate Suffix(s: string) {
    |s| == 6 && IsHex(s)
  }

  /** Starts with a letter or digit, and has only those and dashes. */
  predicate StemLike(s: string) {
    s != [] && AlphaNum(s[0]) && forall i :: 0 <= i < |s| ==> AlphaNum(s[i]) || s[i] == '-'
  }

  lemma {:induction false} JoinIsStem(words: seq<string>)
    requires words != [] && forall k :: 0 <= k < |words| ==> IsWord(words[k])
    ensures StemLike(JoinDashes(words))
  {
    if |words| > 1 {
      JoinIsStem(words[1..]);
    }
  }

  lemma {:induction false} TrimIsStem(s: string)
    requires StemLike(s)
    ensures StemLike(TrimDashes(s)) && |TrimDashes(s)| <= |s|
  {
    if s[|s| - 1] == '-' {
      TrimIsStem(s[..|s| - 1]);
    }
  }

  lemma StemIsStem(branch: string)
    ensures StemLike(Stem(branch)) && |Stem(branch)| <= 30
  {
    var words := Words(Lower(AfterSlash(branch)), 0);
    var n := |words|;
    var kept := if n > 1 && |words[n - 1]| <= 6 && IsHex(words[n - 1]) then words[..n - 1] else words;
    var three := if |kept| > 3 then kept[..3] else kept;
    var stem := JoinDashes(three);
    if three != [] {
      JoinIsStem(three);
      if |stem| > 30 {
        TrimIsStem(stem[..30]);
      }
    }
  }

  /** A made name always has the form names have. */
  lemma NameForIsName(branch: string, suffix: string)
    requires Suffix(suffix)
    ensures PreviewName(NameFor(branch, suffix))
  {
    StemIsStem(branch);
    assert HexChar(suffix[5]);
  }

  /* ── hosts ── */

  function LastColon(s: string): (i: int)
    ensures -1 <= i < |s| && (i >= 0 ==> s[i] == ':')
    ensures forall j :: i < j < |s| ==> s[j] != ':'
  {
    if s == [] then -1 else if s[|s| - 1] == ':' then |s| - 1 else LastColon(s[..|s| - 1])
  }

  /** net.SplitHostPort's host, when it finds one. */
  function HostBeforePort(s: string): Option<string> {
    var i := LastColon(s);
    if i < 0 then None
    else if s[0] == '[' then
      var end := Index(s, ']');
      if end == |s| || end + 1 != i || Has(s[1..], '[') || Has(s[end + 1..], ']') then None else Some(s[1..end])
    else if Has(s[..i], ':') || Has(s, '[') || Has(s, ']') then None
    else Some(s[..i])
  }

  function WithoutSuffix(s: string, suffix: string): string {
    if HasSuffix(s, suffix) then s[..|s| - |suffix|] else s
  }

  /** The host a request names, in lower case and without its last dot and its port. */
  function BareHost(host: string): string {
    var h := Lower(WithoutSuffix(host, "."));
    if HostBeforePort(h).Some? then HostBeforePort(h).value else h
  }

  function LabelUnder(bare: string, domain: string): Option<string> {
    if domain != "" && HasSuffix(bare, "." + domain) then Some(WithoutSuffix(bare, "." + domain))
    else if HasSuffix(bare, ".localhost") then Some(WithoutSuffix(bare, ".localhost"))
    else None
  }

  /** The preview name in a request's host: the first label under the preview domain, or
      under localhost. */
  function PreviewLabel(host: string, domain: string): Option<string> {
    var name := LabelUnder(BareHost(host), domain);
    if name.None? || Has(name.value, '.') || !PreviewName(name.value) then None else name
  }

  /** The host in a preview's address: under the domain, or under localhost with the
      proxy's port. */
  function PreviewHost(name: string, domain: string, port: string): string {
    if domain != "" then name + "." + domain else name + ".localhost:" + port
  }

  /** A domain as the configuration keeps it, and without a port. */
  predicate PlainDomain(domain: string) {
    && Lower(domain) == domain
    && (domain != "" ==> domain[|domain| - 1] != '.')
    && !Has(domain, ':') && !Has(domain, '[') && !Has(domain, ']')
  }

  predicate Port(port: string) {
    port != "" && forall i :: 0 <= i < |port| ==> '0' <= port[i] <= '9'
  }

  lemma LowerIsItself(s: string)
    requires forall i :: 0 <= i < |s| ==> !('A' <= s[i] <= 'Z')
    ensures Lower(s) == s
  {
  }

  lemma NameHasNone(name: string, c: char)
    requires PreviewName(name) && !AlphaNum(c) && c != '-'
    ensures !Has(name, c)
  {
  }

  lemma HasEither(a: string, b: string, c: char)
    ensures Has(a + b, c) <==> Has(a, c) || Has(b, c)
  {
    if Has(a, c) {
      var i :| 0 <= i < |a| && a[i] == c;
      assert (a + b)[i] == c;
    }
    if Has(b, c) {
      var i :| 0 <= i < |b| && b[i] == c;
      assert (a + b)[|a| + i] == c;
    }
  }

  lemma SuffixOff(name: string, suffix: string)
    ensures HasSuffix(name + suffix, suffix) && WithoutSuffix(name + suffix, suffix) == name
  {
  }

  lemma NoDotToDrop(host: string)
    requires host != "" && host[|host| - 1] != '.'
    ensures WithoutSuffix(host, ".") == host
  {
  }

  lemma NoPortToDrop(host: string)
    requires !Has(host, ':')
    ensures HostBeforePort(host).None?
  {
  }

  lemma PortDropped(bare: string, port: string)
    requires bare != "" && !Has(bare, ':') && !Has(bare, '[') && !Has(bare, ']') && Port(port)
    ensures HostBeforePort(bare + (":" + port)) == Some(bare)
  {
    var host := bare + (":" + port);
    assert host[|bare|] == ':';
    assert forall j :: |bare| < j < |host| ==> host[j] == port[j - |bare| - 1];
    assert LastColon(host) == |bare|;
    assert host[..|bare|] == bare;
    assert bare[0] != '[';
    HasEither(bare, ":" + port, '[');
    HasEither(bare, ":" + port, ']');
  }

  lemma DomainIsLower(domain: string)
    requires PlainDomain(domain)
    ensures forall i :: 0 <= i < |domain| ==> !('A' <= domain[i] <= 'Z')
  {
    assert forall i :: 0 <= i < |domain| ==> domain[i] == Lower(domain)[i];
  }

  lemma BareOnDomain(name: string, domain: string)
    requires PreviewName(name) && domain != "" && PlainDomain(domain)
    ensures BareHost(name + ("." + domain)) == name + ("." + domain)
  {
    var rest := "." + domain;
    assert rest[|rest| - 1] == domain[|domain| - 1];
    NoDotToDrop(name + rest);
    DomainIsLower(domain);
    assert forall i :: 0 < i < |rest| ==> rest[i] == domain[i - 1];
    LowerIsItself(name + rest);
    NameHasNone(name, ':');
    HasEither(".", domain, ':');
    HasEither(name, rest, ':');
    NoPortToDrop(name + rest);
  }

  lemma LocalHasNone(name: string, c: char)
    requires PreviewName(name) && c in {':', '[', ']'}
    ensures !Has(name + ".localhost", c)
  {
    NameHasNone(name, c);
    HasEither(name, ".localhost", c);
  }

  lemma LowerLocal(name: string, port: string)
    requires PreviewName(name) && Port(port)
    ensures var host := name + ".localhost" + (":" + port);
            WithoutSuffix(host, ".") == host && Lower(host) == host
  {
    var host := name + ".localhost" + (":" + port);
    assert host[|host| - 1] == port[|port| - 1];
    NoDotToDrop(host);
    LowerIsItself(host);
  }

  lemma BareOnLocalhost(name: string, port: string)
    requires PreviewName(name) && Port(port)
    ensures BareHost(name + ".localhost" + (":" + port)) == name + ".localhost"
  {
    LowerLocal(name, port);
    LocalHasNone(name, ':');
    LocalHasNone(name, '[');
    LocalHasNone(name, ']');
    PortDropped(name + ".localhost", port);
  }

  /** On a domain, the label of a preview's own address is its name. */
  lemma LabelOnDomain(name: string, domain: string, port: string)
    requires PreviewName(name) && domain != "" && PlainDomain(domain)
    ensures PreviewLabel(PreviewHost(name, domain, port), domain) == Some(name)
  {
    HostOnDomain(name, domain, port);
    BareOnDomain(name, domain);
    NameHasNone(name, '.');
    UnderDomain(name, domain);
  }

  lemma HostOnDomain(name: string, domain: string, port: string)
    requires domain != ""
    ensures PreviewHost(name, domain, port) == name + ("." + domain)
  {
    assert name + "." + domain == name + ("." + domain);
  }

  lemma UnderDomain(name: string, domain: string)
    requires domain != ""
    ensures LabelUnder(name + ("." + domain), domain) == Some(name)
  {
    SuffixOff(name, "." + domain);
  }

  /** On localhost too, whatever port the proxy listens on. */
  lemma LabelOnLocalhost(name: string, port: string)
    requires PreviewName(name) && Port(port)
    ensures PreviewLabel(PreviewHost(name, "", port), "") == Some(name)
  {
    HostOnLocalhost(name, port);
    BareOnLocalhost(name, port);
    SuffixOff(name, ".localhost");
    NameHasNone(name, '.');
    assert LabelUnder(name + ".localhost", "") == Some(name);
  }

  lemma HostOnLocalhost(name: string, port: string)
    ensures PreviewHost(name, "", port) == name + ".localhost" + (":" + port)
  {
    assert ".localhost:" == ".localhost" + ":";
    assert name + ".localhost:" + port == name + ".localhost" + (":" + port);
  }

  /* ── the table ── */

  datatype Preview = Preview(name: string, port: int, args: seq<string>, kind: string, dir: string, stopped: bool)

  type Table = map<string, Preview>

  /** What loading keeps of an entry. */
  predicate Passes(id: string, p: Preview) {
    ValidId(id) && PreviewName(p.name) && 0 < p.port < 65536
  }

  predicate AllPass(table: Table) {
    forall id :: id in table ==> Passes(id, table[id])
  }

  function Loaded(file: Table): Table {
    map id | id in file && Passes(id, file[id]) :: file[id]
  }

  predicate DistinctNames(table: Table) {
    forall a, b :: a in table && b in table && a != b ==> table[a].name != table[b].name
  }

  /** An app kimono-serve has up, as the outbox tells it. */
  datatype Serve = Serve(port: int, command: seq<string>, kind: string, dir: string)

  function Published(table: Table, id: string, serve: Serve, made: string): Table {
    var name := if id in table then table[id].name else made;
    table[id := Preview(name, serve.port, serve.command, serve.kind, serve.dir, false)]
  }

  const RESERVED := {"www", "mail", "api", "admin", "kimono", "auth", "login"}

  predicate DoubleDash(s: string) {
    exists i :: 0 <= i < |s| - 1 && s[i] == '-' && s[i + 1] == '-'
  }

  /** A name an owner may choose for this workspace's app. */
  predicate MayTake(table: Table, id: string, name: string) {
    && PreviewName(name) && !DoubleDash(name) && name !in RESERVED
    && id in table && forall other :: other in table && other != id ==> table[other].name != name
  }

  /** What happens to the table; a publish comes with the name a new app is given. */
  datatype Event =
    | Publish(id: string, serve: Serve, name: string)
    | Stop(id: string, stopped: bool)
    | Clear(id: string)
    | Rename(id: string, name: string)
    | Restart(file: Table)

  function Apply(table: Table, e: Event): Table {
    match e
    case Publish(id, serve, name) => Published(table, id, serve, name)
    case Stop(id, stopped) => if id in table then table[id := table[id].(stopped := stopped)] else table
    case Clear(id) => table - {id}
    case Rename(id, name) => if MayTake(table, id, name) then table[id := table[id].(name := name)] else table
    case Restart(file) => Loaded(file)
  }

  class Previews {
    var table: Table
    var file: Table

    constructor ()
      ensures table == map[] && file == map[]
    {
      table, file := map[], map[];
    }

    /** Writes the table; a write that fails leaves the file as it was. */
    method Save()
      modifies this`file
      ensures file == table || file == old(file)
    {
      var written: bool := *;
      if written {
        file := table;
      }
    }

    /** A restart: only what was saved and passes is back. */
    method Load()
      modifies this`table
      ensures table == Apply(old(table), Restart(file))
    {
      table := Loaded(file);
    }

    /** Records the app kimono-serve published, keeping its name if it had one, and says
        whether the person should hear of it. */
    method SetPreview(id: string, serve: Serve, branch: string, suffix: string) returns (changed: bool)
      modifies this
      ensures table == Apply(old(table), Publish(id, serve, NameFor(branch, suffix)))
      ensures file == table || file == old(file)
      ensures changed <==> id !in old(table) || old(table)[id].port != serve.port
                           || old(table)[id].kind != serve.kind || old(table)[id].stopped
    {
      if id in table {
        var p := table[id];
        if p.port == serve.port && p.args == serve.command && p.kind == serve.kind && p.dir == serve.dir && !p.stopped {
          assert table[id := p] == table;
          return false;
        }
        changed := p.port != serve.port || p.kind != serve.kind || p.stopped;
        table := table[id := Preview(p.name, serve.port, serve.command, serve.kind, serve.dir, false)];
      } else {
        changed := true;
        table := table[id := Preview(NameFor(branch, suffix), serve.port, serve.command, serve.kind, serve.dir, false)];
      }
      Save();
    }

    /** Marks an app stopped by its owner, or started again. */
    method SetStopped(id: string, stopped: bool)
      modifies this
      ensures table == Apply(old(table), Stop(id, stopped))
      ensures file == table || file == old(file)
    {
      if id in table {
        var p := table[id];
        if p.stopped != stopped {
          table := table[id := p.(stopped := stopped)];
          Save();
        } else {
          assert table[id := p] == table;
        }
      }
    }

    method ClearPreview(id: string) returns (had: bool)
      modifies this
      ensures table == Apply(old(table), Clear(id)) && had == (id in old(table))
      ensures file == table || file == old(file)
    {
      had := id in table;
      if had {
        table := table - {id};
        Save();
      } else {
        assert table - {id} == table;
      }
    }

    /** Gives a workspace's app the name its owner chose; names are unique across the node. */
    method RenamePreview(id: string, wanted: string) returns (ok: bool)
      modifies this
      ensures ok == MayTake(old(table), id, Lower(wanted))
      ensures table == Apply(old(table), Rename(id, Lower(wanted)))
      ensures file == table || file == old(file)
    {
      var name := Lower(wanted);
      ok := MayTake(table, id, name);
      if ok {
        table := table[id := table[id].(name := name)];
        Save();
      }
    }
  }

  /* ── over every run ── */

  function After(events: seq<Event>): Table {
    if events == [] then map[] else Apply(After(events[..|events| - 1]), events[|events| - 1])
  }

  /** Workspaces and ports are checked before they get here, made names have their form
      and are new, and a restart finds a table saved before. */
  predicate Possible(events: seq<Event>) {
    forall i :: 0 <= i < |events| ==>
      var e := events[i];
      && (e.Publish? ==> ValidId(e.id) && 0 < e.serve.port < 65536 && PreviewName(e.name)
                         && forall other :: other in After(events[..i]) ==> After(events[..i])[other].name != e.name)
      && (e.Restart? ==> exists k :: 0 <= k <= i && e.file == After(events[..k]))
  }

  lemma KeepsPassing(table: Table, e: Event)
    requires AllPass(table) && !e.Restart?
    requires e.Publish? ==> ValidId(e.id) && 0 < e.serve.port < 65536 && PreviewName(e.name)
    ensures AllPass(Apply(table, e))
  {
  }

  lemma KeepsDistinct(table: Table, e: Event)
    requires DistinctNames(table) && !e.Restart?
    requires e.Publish? ==> forall other :: other in table ==> table[other].name != e.name
    ensures DistinctNames(Apply(table, e))
  {
  }

  /** A table whose entries all pass is loaded back whole. */
  lemma LoadsWhole(table: Table)
    requires AllPass(table)
    ensures Loaded(table) == table
  {
  }

  /** Over every run, each stored preview passes the filter, so saving and loading loses
      none, and no two apps have one name. */
  lemma {:induction false} RunsLoseNothing(events: seq<Event>)
    requires Possible(events)
    ensures var table := After(events); AllPass(table) && DistinctNames(table) && Loaded(table) == table
    decreases |events|
  {
    if events != [] {
      var i := |events| - 1;
      var before, e := events[..i], events[i];
      PrefixPossible(events, i);
      RunsLoseNothing(before);
      if e.Restart? {
        var k :| 0 <= k <= i && e.file == After(events[..k]);
        PrefixPossible(events, k);
        RunsLoseNothing(events[..k]);
      } else {
        KeepsPassing(After(before), e);
        KeepsDistinct(After(before), e);
      }
    }
    LoadsWhole(After(events));
  }

  lemma PrefixPossible(events: seq<Event>, i: nat)
    requires Possible(events) && i <= |events|
    ensures Possible(events[..i])
  {
    forall k | 0 <= k < i
      ensures events[..i][k] == events[k] && events[..i][..k] == events[..k]
    {
    }
    forall k | 0 <= k < i && events[k].Restart?
      ensures exists j :: 0 <= j <= k && events[k].file == After(events[..i][..j])
    {
      var j :| 0 <= j <= k && events[k].file == After(events[..j]);
      assert events[..i][..j] == events[..j];
    }
  }
}
