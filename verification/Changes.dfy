/** The files a branch changed, read from git's two NUL-separated listings
    (cli/internal/sandbox/files.go). One character stands for one byte. */
module Changes {
  import opened Common

  /* ── fields between NULs ── */

  predicate NoNul(s: Bytes) {
    forall i :: 0 <= i < |s| ==> s[i] != '\0'
  }

  /** strings.Split by a byte. */
  function Split(s: Bytes): (fields: seq<Bytes>)
    ensures |fields| >= 1
  {
    if s == [] then [[]]
    else if s[0] == '\0' then [[]] + Split(s[1..])
    else
      var rest := Split(s[1..]);
      [[s[0]] + rest[0]] + rest[1..]
  }

  function TrimNul(s: Bytes): Bytes {
    if s != [] && s[|s| - 1] == '\0' then s[..|s| - 1] else s
  }

  /** Fields, each ended by a NUL. */
  function Terminated(fields: seq<Bytes>): Bytes {
    if fields == [] then [] else fields[0] + "\0" + Terminated(fields[1..])
  }

  lemma {:induction false} SplitHead(f: Bytes, rest: Bytes)
    requires NoNul(f)
    ensures Split(f + "\0" + rest) == [f] + Split(rest)
    ensures Split(f) == [f]
    decreases |f|
  {
    if f == [] {
      assert (f + "\0" + rest)[1..] == rest;
    } else {
      SplitHead(f[1..], rest);
      assert f[0] != '\0' && [f[0]] + f[1..] == f;
      assert (f + "\0" + rest)[1..] == f[1..] + "\0" + rest;
      assert ([f[1..]] + Split(rest))[1..] == Split(rest);
    }
  }

  /** Splitting gives back the fields git terminated. */
  lemma {:induction false} FieldsBack(fields: seq<Bytes>)
    requires fields != [] && forall f :: f in fields ==> NoNul(f)
    ensures Split(TrimNul(Terminated(fields))) == fields
  {
    var f, rest := fields[0], fields[1..];
    assert f in fields;
    if rest == [] {
      assert TrimNul(Terminated(fields)) == f;
      SplitHead(f, []);
    } else {
      FieldsBack(rest);
      var tail := Terminated(rest);
      assert tail != [] by {
        assert tail == rest[0] + "\0" + Terminated(rest[1..]);
      }
      assert Terminated(fields) == f + "\0" + tail;
      EndsInNul(rest);
      assert TrimNul(f + "\0" + tail) == f + "\0" + TrimNul(tail);
      SplitHead(f, TrimNul(tail));
    }
  }

  lemma {:induction false} EndsInNul(fields: seq<Bytes>)
    requires fields != []
    ensures Terminated(fields) != [] && Terminated(fields)[|Terminated(fields)| - 1] == '\0'
  {
    if |fields| > 1 {
      EndsInNul(fields[1..]);
    }
  }

  /* ── git diff --name-status -z ── */

  datatype Status = Added | Deleted | Renamed | Modified

  datatype ChangedFile = ChangedFile(path: Bytes, status: Status)

  /** What a code means, and how many paths follow it. */
  function ReadCode(code: Bytes): (Status, nat)
    requires code != []
  {
    match code[0]
    case 'A' => (Added, 1)
    case 'D' => (Deleted, 1)
    case 'R' => (Renamed, 2)
    case 'C' => (Added, 2)
    case _ => (Modified, 1)
  }

  function FilesFrom(fields: seq<Bytes>, i: nat): seq<ChangedFile>
    decreases |fields| - i
  {
    if i >= |fields| then []
    else if fields[i] == [] then FilesFrom(fields, i + 1)
    else
      var (status, paths) := ReadCode(fields[i]);
      if i + paths >= |fields| then []
      else [ChangedFile(fields[i + paths], status)] + FilesFrom(fields, i + paths + 1)
  }

  /** A rename or copy carries two paths; the file is listed under its new one. */
  method ParseNameStatus(out: Bytes) returns (files: seq<ChangedFile>)
    ensures files == FilesFrom(Split(TrimNul(out)), 0)
  {
    var fields := Split(TrimNul(out));
    files := [];
    var i := 0;
    while i < |fields|
      invariant FilesFrom(fields, 0) == files + FilesFrom(fields, i)
    {
      var code := fields[i];
      if code == [] {
        i := i + 1;
        continue;
      }
      var (status, paths) := ReadCode(code);
      if i + paths >= |fields| {
        break;
      }
      ghost var before := files;
      files := files + [ChangedFile(fields[i + paths], status)];
      assert files + FilesFrom(fields, i + paths + 1) == before + FilesFrom(fields, i);
      i := i + paths + 1;
    }
    assert files + [] == files;
  }

  /* ── git diff --numstat -z ── */

  /** strings.SplitN by a tab, into at most n parts. */
  function SplitTab(s: Bytes, n: nat): (parts: seq<Bytes>)
    requires n > 0
    ensures 1 <= |parts| <= n
  {
    if n == 1 || s == [] then [s]
    else if s[0] == '\t' then [[]] + SplitTab(s[1..], n - 1)
    else
      var rest := SplitTab(s[1..], n);
      [[s[0]] + rest[0]] + rest[1..]
  }

  predicate Digits(s: Bytes) {
    s != [] && forall i :: 0 <= i < |s| ==> '0' <= s[i] <= '9'
  }

  function DigitsValue(s: Bytes): nat
    requires forall i :: 0 <= i < |s| ==> '0' <= s[i] <= '9'
  {
    if s == [] then 0 else DigitsValue(s[..|s| - 1]) * 10 + (s[|s| - 1] - '0') as nat
  }

  /** strconv.Atoi, for what git writes: a number, or "-" for a binary file, which counts as zero. */
  function Count(s: Bytes): nat {
    if Digits(s) then DigitsValue(s) else 0
  }

  type Counts = map<Bytes, (nat, nat)>

  function CountsFrom(fields: seq<Bytes>, i: nat, counts: Counts): Counts
    decreases |fields| - i
  {
    if i >= |fields| then counts
    else
      var parts := SplitTab(fields[i], 3);
      if |parts| != 3 then CountsFrom(fields, i + 1, counts)
      else if parts[2] != [] then CountsFrom(fields, i + 1, counts[parts[2] := (Count(parts[0]), Count(parts[1]))])
      else if i + 2 >= |fields| then counts
      else CountsFrom(fields, i + 3, counts[fields[i + 2] := (Count(parts[0]), Count(parts[1]))])
  }

  /** Added and deleted lines by path; after a rename's counts its two paths follow. */
  method ParseNumstat(out: Bytes) returns (counts: Counts)
    ensures counts == CountsFrom(Split(TrimNul(out)), 0, map[])
  {
    counts := map[];
    var fields := Split(TrimNul(out));
    var i := 0;
    while i < |fields|
      invariant CountsFrom(fields, 0, map[]) == CountsFrom(fields, i, counts)
    {
      var parts := SplitTab(fields[i], 3);
      if |parts| != 3 {
        i := i + 1;
        continue;
      }
      var added, deleted, name := Count(parts[0]), Count(parts[1]), parts[2];
      if name == [] {
        if i + 2 >= |fields| {
          break;
        }
        name := fields[i + 2];
        i := i + 2;
      }
      counts := counts[name := (added, deleted)];
      i := i + 1;
    }
  }

  /* ── what git writes ── */

  datatype Kind = Add | Delete | Edit | Rename | Copy

  /** A change: its kind, with the similarity git prints for a rename or copy; its lines,
      None for a binary file; and its paths. */
  datatype Change = Change(kind: Kind, score: Bytes, was: Bytes, path: Bytes, lines: Option<(nat, nat)>)

  predicate TwoPaths(k: Kind) {
    k.Rename? || k.Copy?
  }

  function Code(c: Change): Bytes {
    match c.kind
    case Add => "A"
    case Delete => "D"
    case Edit => "M"
    case Rename => "R" + c.score
    case Copy => "C" + c.score
  }

  function StatusOf(k: Kind): Status {
    match k
    case Add => Added
    case Delete => Deleted
    case Edit => Modified
    case Rename => Renamed
    case Copy => Added
  }

  function DigitsOf(n: nat): (s: Bytes)
    ensures Digits(s)
    decreases n
  {
    if n < 10 then ['0' + n as char] else DigitsOf(n / 10) + ['0' + (n % 10) as char]
  }

  function Number(n: Option<nat>): Bytes {
    if n.None? then "-" else DigitsOf(n.value)
  }

  /** The counts at the head of a numstat field. */
  function CountText(c: Change): Bytes {
    match c.lines
    case None => "-\t-\t"
    case Some(l) => DigitsOf(l.0) + "\t" + DigitsOf(l.1) + "\t"
  }

  function NameFields(c: Change): seq<Bytes> {
    if TwoPaths(c.kind) then [Code(c), c.was, c.path] else [Code(c), c.path]
  }

  function StatFields(c: Change): seq<Bytes> {
    if TwoPaths(c.kind) then [CountText(c), c.was, c.path] else [CountText(c) + c.path]
  }

  /** Any bytes but NUL make a path, so long as there are some. */
  predicate Sound(c: Change) {
    c.path != [] && NoNul(c.path) && c.was != [] && NoNul(c.was) && NoNul(c.score)
  }

  function AllNameFields(cs: seq<Change>): seq<Bytes> {
    if cs == [] then [] else NameFields(cs[0]) + AllNameFields(cs[1..])
  }

  function AllStatFields(cs: seq<Change>): seq<Bytes> {
    if cs == [] then [] else StatFields(cs[0]) + AllStatFields(cs[1..])
  }

  function FilesOf(cs: seq<Change>): seq<ChangedFile> {
    seq(|cs|, i requires 0 <= i < |cs| => ChangedFile(cs[i].path, StatusOf(cs[i].kind)))
  }

  function LinesOf(c: Change): (nat, nat) {
    if c.lines.None? then (0, 0) else c.lines.value
  }

  /** The counts by path, a later change of the same path over an earlier one. */
  function CountsOf(cs: seq<Change>, counts: Counts): Counts {
    if cs == [] then counts else CountsOf(cs[1..], counts[cs[0].path := LinesOf(cs[0])])
  }

  /* ── the listings are inverted ── */

  lemma FilesOfMore(cs: seq<Change>)
    requires cs != []
    ensures FilesOf(cs) == [ChangedFile(cs[0].path, StatusOf(cs[0].kind))] + FilesOf(cs[1..])
  {
  }

  lemma {:induction false} NamesBack(fields: seq<Bytes>, i: nat, cs: seq<Change>)
    requires i <= |fields| && fields[i..] == AllNameFields(cs) && forall c :: c in cs ==> Sound(c)
    ensures FilesFrom(fields, i) == FilesOf(cs)
    decreases |cs|
  {
    if cs != [] {
      var c := cs[0];
      assert Sound(c);
      Head(fields, i, NameFields(c), AllNameFields(cs[1..]));
      NamesBack(fields, i + |NameFields(c)|, cs[1..]);
      NameBack(fields, i, c);
      FilesOfMore(cs);
    }
  }

  /** The fields of one change, and those after it. */
  lemma Head(fields: seq<Bytes>, i: nat, mine: seq<Bytes>, rest: seq<Bytes>)
    requires i <= |fields| && fields[i..] == mine + rest
    ensures i + |mine| <= |fields| && fields[i..i + |mine|] == mine && fields[i + |mine|..] == rest
    ensures forall k :: 0 <= k < |mine| ==> fields[i + k] == mine[k]
  {
    assert fields[i + |mine|..] == fields[i..][|mine|..];
    forall k | 0 <= k < |mine|
      ensures fields[i + k] == mine[k]
    {
      assert fields[i..][k] == fields[i + k];
    }
  }

  lemma NameBack(fields: seq<Bytes>, i: nat, c: Change)
    requires i + |NameFields(c)| <= |fields|
    requires forall k :: 0 <= k < |NameFields(c)| ==> fields[i + k] == NameFields(c)[k]
    ensures FilesFrom(fields, i) == [ChangedFile(c.path, StatusOf(c.kind))] + FilesFrom(fields, i + |NameFields(c)|)
  {
    assert fields[i] == fields[i + 0] == NameFields(c)[0] == Code(c);
    assert ReadCode(Code(c)) == (StatusOf(c.kind), if TwoPaths(c.kind) then 2 else 1);
    if TwoPaths(c.kind) {
      assert fields[i + 2] == NameFields(c)[2] == c.path;
    } else {
      assert fields[i + 1] == NameFields(c)[1] == c.path;
    }
  }

  lemma {:induction false} TabHead(f: Bytes, rest: Bytes, n: nat)
    requires n > 1 && forall i :: 0 <= i < |f| ==> f[i] != '\t'
    ensures SplitTab(f + "\t" + rest, n) == [f] + SplitTab(rest, n - 1)
    decreases |f|
  {
    if f == [] {
      assert (f + "\t" + rest)[1..] == rest;
    } else {
      TabHead(f[1..], rest, n);
      assert f[0] != '\t' && [f[0]] + f[1..] == f;
      assert (f + "\t" + rest)[1..] == f[1..] + "\t" + rest;
      assert ([f[1..]] + SplitTab(rest, n - 1))[1..] == SplitTab(rest, n - 1);
    }
  }

  lemma {:induction false} DigitsBack(n: nat)
    ensures Count(DigitsOf(n)) == n
    decreases n
  {
    var s := DigitsOf(n);
    if n < 10 {
      assert s[..0] == [];
      assert DigitsValue(s) == DigitsValue(s[..0]) * 10 + n;
    } else {
      DigitsBack(n / 10);
      assert s[..|s| - 1] == DigitsOf(n / 10);
    }
  }

  /** A numstat field splits into its two counts and the rest. */
  lemma CountsBack(c: Change, rest: Bytes)
    ensures var parts := SplitTab(CountText(c) + rest, 3);
            |parts| == 3 && (Count(parts[0]), Count(parts[1])) == LinesOf(c) && parts[2] == rest
  {
    var a := Number(if c.lines.None? then None else Some(c.lines.value.0));
    var b := Number(if c.lines.None? then None else Some(c.lines.value.1));
    assert CountText(c) + rest == a + "\t" + (b + "\t" + rest);
    TabHead(a, b + "\t" + rest, 3);
    TabHead(b, rest, 2);
    if c.lines.Some? {
      DigitsBack(c.lines.value.0);
      DigitsBack(c.lines.value.1);
    }
  }

  lemma {:induction false} StatsBack(fields: seq<Bytes>, i: nat, cs: seq<Change>, counts: Counts)
    requires i <= |fields| && fields[i..] == AllStatFields(cs) && forall c :: c in cs ==> Sound(c)
    ensures CountsFrom(fields, i, counts) == CountsOf(cs, counts)
    decreases |cs|
  {
    if cs != [] {
      var c := cs[0];
      FirstStatBack(fields, i, c, AllStatFields(cs[1..]), counts);
      StatsBack(fields, i + |StatFields(c)|, cs[1..], counts[c.path := LinesOf(c)]);
    } else {
      assert i == |fields|;
    }
  }

  lemma FirstStatBack(fields: seq<Bytes>, i: nat, c: Change, rest: seq<Bytes>, counts: Counts)
    requires i <= |fields| && fields[i..] == StatFields(c) + rest && Sound(c)
    ensures i + |StatFields(c)| <= |fields| && fields[i + |StatFields(c)|..] == rest
    ensures CountsFrom(fields, i, counts) == CountsFrom(fields, i + |StatFields(c)|, counts[c.path := LinesOf(c)])
  {
    Head(fields, i, StatFields(c), rest);
    StatBack(fields, i, c, counts);
  }

  lemma StatBack(fields: seq<Bytes>, i: nat, c: Change, counts: Counts)
    requires Sound(c) && i + |StatFields(c)| <= |fields|
    requires forall k :: 0 <= k < |StatFields(c)| ==> fields[i + k] == StatFields(c)[k]
    ensures CountsFrom(fields, i, counts) == CountsFrom(fields, i + |StatFields(c)|, counts[c.path := LinesOf(c)])
  {
    assert fields[i + 0] == StatFields(c)[0];
    if TwoPaths(c.kind) {
      CountsBack(c, []);
      assert CountText(c) + [] == CountText(c);
      assert fields[i + 2] == StatFields(c)[2] == c.path;
    } else {
      CountsBack(c, c.path);
    }
  }

  lemma {:induction false} NamesNoNul(cs: seq<Change>)
    requires forall c :: c in cs ==> Sound(c)
    ensures forall f :: f in AllNameFields(cs) ==> NoNul(f)
  {
    if cs != [] {
      NamesNoNul(cs[1..]);
      assert Sound(cs[0]);
    }
  }

  lemma {:induction false} StatsNoNul(cs: seq<Change>)
    requires forall c :: c in cs ==> Sound(c)
    ensures forall f :: f in AllStatFields(cs) ==> NoNul(f)
  {
    if cs != [] {
      StatsNoNul(cs[1..]);
      assert Sound(cs[0]);
      assert NoNul(CountText(cs[0]));
    }
  }

  /** Parsing inverts git's name-status listing of any changes. */
  lemma NameStatusRoundTrip(cs: seq<Change>)
    requires forall c :: c in cs ==> Sound(c)
    ensures FilesFrom(Split(TrimNul(Terminated(AllNameFields(cs)))), 0) == FilesOf(cs)
  {
    var fields := AllNameFields(cs);
    if cs != [] {
      NamesNoNul(cs);
      FieldsBack(fields);
      assert fields[0..] == fields;
      NamesBack(fields, 0, cs);
    }
  }

  /** Parsing inverts git's numstat listing of any changes. */
  lemma NumstatRoundTrip(cs: seq<Change>)
    requires forall c :: c in cs ==> Sound(c)
    ensures CountsFrom(Split(TrimNul(Terminated(AllStatFields(cs)))), 0, map[]) == CountsOf(cs, map[])
  {
    var fields := AllStatFields(cs);
    if cs != [] {
      StatsNoNul(cs);
      FieldsBack(fields);
      assert fields[0..] == fields;
      StatsBack(fields, 0, cs, map[]);
    }
  }

  /* ── the join ── */

  datatype FileLines = FileLines(file: ChangedFile, additions: nat, deletions: nat)

  /** Each file with the counts of its path. */
  method Join(files: seq<ChangedFile>, counts: Counts) returns (joined: seq<FileLines>)
    ensures |joined| == |files|
    ensures forall i :: 0 <= i < |files| ==>
              joined[i] == FileLines(files[i], CountAt(counts, files[i].path).0, CountAt(counts, files[i].path).1)
  {
    joined := [];
    for i := 0 to |files|
      invariant |joined| == i
      invariant forall k :: 0 <= k < i ==>
                  joined[k] == FileLines(files[k], CountAt(counts, files[k].path).0, CountAt(counts, files[k].path).1)
    {
      var n := CountAt(counts, files[i].path);
      joined := joined + [FileLines(files[i], n.0, n.1)];
    }
  }

  function CountAt(counts: Counts, path: Bytes): (nat, nat) {
    if path in counts then counts[path] else (0, 0)
  }

  lemma {:induction false} CountKept(cs: seq<Change>, counts: Counts, path: Bytes)
    requires path in counts && forall i :: 0 <= i < |cs| ==> cs[i].path != path
    ensures path in CountsOf(cs, counts) && CountsOf(cs, counts)[path] == counts[path]
  {
    if cs != [] {
      CountKept(cs[1..], counts[cs[0].path := LinesOf(cs[0])], path);
    }
  }

  /** With distinct new paths, each file is given its own counts. */
  lemma {:induction false} OwnCounts(cs: seq<Change>, counts: Counts, k: nat)
    requires k < |cs| && forall i, j :: 0 <= i < j < |cs| ==> cs[i].path != cs[j].path
    ensures CountAt(CountsOf(cs, counts), cs[k].path) == LinesOf(cs[k])
  {
    if k == 0 {
      CountKept(cs[1..], counts[cs[0].path := LinesOf(cs[0])], cs[0].path);
    } else {
      OwnCounts(cs[1..], counts[cs[0].path := LinesOf(cs[0])], k - 1);
    }
  }

  /** Read from git's two listings of changes with distinct new paths, every file has its
      path, its status and its own counts. */
  lemma ListingsJoin(cs: seq<Change>, k: nat)
    requires k < |cs| && (forall c :: c in cs ==> Sound(c))
    requires forall i, j :: 0 <= i < j < |cs| ==> cs[i].path != cs[j].path
    ensures var files := FilesFrom(Split(TrimNul(Terminated(AllNameFields(cs)))), 0);
            var counts := CountsFrom(Split(TrimNul(Terminated(AllStatFields(cs)))), 0, map[]);
            && |files| == |cs| && files[k] == ChangedFile(cs[k].path, StatusOf(cs[k].kind))
            && CountAt(counts, files[k].path) == LinesOf(cs[k])
  {
    NameStatusRoundTrip(cs);
    NumstatRoundTrip(cs);
    OwnCounts(cs, map[], k);
  }
}
