/** The links a tool's answer carries, found while it streams past in pieces of any size
    (cli/internal/sandbox/media.go). One character stands for one byte. */
module Links {
  import opened Common

  const SCHEME: Bytes := "https://"
  const LINK_TAIL := 4096
  const MEDIA_REMEMBERED := 300
  const MEDIA_KEEP := 3 * 60 * 60

  /** The bytes the pattern stops at: space, tab, newline, form feed, carriage return, quotes and angle brackets. */
  predicate Delimiter(c: char) {
    c == ' ' || c == '\t' || c == '\n' || c == '\U{000C}' || c == '\r' || c == '"' || c == '\'' || c == '<' || c == '>'
  }

  /* ── the pattern https://[^\s"'<>]+ ── */

  /** The pattern matches from here. */
  predicate LinkAt(text: Bytes, i: nat) {
    && i + |SCHEME| < |text| && !Delimiter(text[i + |SCHEME|])
    && forall j :: 0 <= j < |SCHEME| ==> text[i + j] == SCHEME[j]
  }

  /** Where a run of link bytes ends. */
  function LinkEnd(text: Bytes, i: nat): (e: nat)
    requires i <= |text|
    ensures i <= e <= |text|
    ensures forall j :: i <= j < e ==> !Delimiter(text[j])
    ensures e == |text| || Delimiter(text[e])
    decreases |text| - i
  {
    if i == |text| || Delimiter(text[i]) then i else LinkEnd(text, i + 1)
  }

  /** Every match, leftmost first, as long as possible, none overlapping. */
  function FindAll(text: Bytes, from: nat): (found: seq<(nat, nat)>)
    ensures forall m :: m in found ==> from <= m.0 < m.1 <= |text|
    decreases |text| - from
  {
    if from >= |text| then []
    else if LinkAt(text, from) then
      var e := LinkEnd(text, from + |SCHEME|);
      [(from, e)] + FindAll(text, e)
    else FindAll(text, from + 1)
  }

  /** A match of the whole text: a link that runs to a delimiter or the end, and is not
      the middle of an earlier one. */
  ghost predicate IsMatch(text: Bytes, a: nat, b: nat) {
    && LinkAt(text, a) && a + |SCHEME| < b <= |text|
    && (forall j :: a + |SCHEME| <= j < b ==> !Delimiter(text[j]))
    && (b == |text| || Delimiter(text[b]))
    && (forall i :: 0 <= i < a && LinkAt(text, i) ==> exists d :: i <= d < a && Delimiter(text[d]))
  }

  /** No link runs past this position. */
  predicate Stops(text: Bytes, d: nat) {
    d >= |text| || Delimiter(text[d])
  }

  /** No link that started earlier runs past this position. */
  ghost predicate Clear(text: Bytes, from: nat) {
    forall i :: 0 <= i < from && LinkAt(text, i) ==> exists d :: i <= d <= from && Stops(text, d)
  }

  lemma SchemeHasNoDelimiter(text: Bytes, i: nat, j: nat)
    requires LinkAt(text, i) && i <= j <= i + |SCHEME|
    ensures !Delimiter(text[j])
  {
    if j < i + |SCHEME| {
      assert text[i + (j - i)] == SCHEME[j - i];
    }
  }

  lemma {:induction false} FindAllFrom(text: Bytes, from: nat, a: nat, b: nat)
    requires Clear(text, from)
    ensures (a, b) in FindAll(text, from) <==> from <= a && IsMatch(text, a, b)
    decreases |text| - from
  {
    if from >= |text| {
    } else if LinkAt(text, from) {
      var e := LinkEnd(text, from + |SCHEME|);
      FirstMatch(text, from, e, a, b);
      ClearAfterLink(text, from, e);
      FindAllFrom(text, e, a, b);
    } else {
      ClearNext(text, from);
      FindAllFrom(text, from + 1, a, b);
    }
  }

  lemma ClearNext(text: Bytes, from: nat)
    requires Clear(text, from) && !LinkAt(text, from)
    ensures Clear(text, from + 1)
  {
    forall i | 0 <= i < from + 1 && LinkAt(text, i)
      ensures exists d :: i <= d <= from + 1 && Stops(text, d)
    {
      var d :| i <= d <= from && Stops(text, d);
    }
  }

  lemma ClearAfterLink(text: Bytes, from: nat, e: nat)
    requires LinkAt(text, from) && e == LinkEnd(text, from + |SCHEME|)
    ensures Clear(text, e)
  {
    assert Stops(text, e);
  }

  /** A link at the current position is a match, and the next one starts after its end. */
  lemma FirstMatch(text: Bytes, from: nat, e: nat, a: nat, b: nat)
    requires Clear(text, from) && LinkAt(text, from) && e == LinkEnd(text, from + |SCHEME|)
    ensures IsMatch(text, from, e)
    ensures from <= a < e && IsMatch(text, a, b) ==> (a, b) == (from, e)
  {
    forall i | 0 <= i < from && LinkAt(text, i)
      ensures exists d :: i <= d < from && Delimiter(text[d])
    {
      var d :| i <= d <= from && Stops(text, d);
      SchemeHasNoDelimiter(text, from, from);
    }
    if from < a < e && IsMatch(text, a, b) {
      var d :| from <= d < a && Delimiter(text[d]);
      if d <= from + |SCHEME| {
        SchemeHasNoDelimiter(text, from, d);
      }
    }
    if a == from && IsMatch(text, a, b) {
      assert b >= e && e >= b;
    }
  }

  /** The search finds exactly the matches of the whole text. */
  lemma FindAllExact(text: Bytes, a: nat, b: nat)
    ensures (a, b) in FindAll(text, 0) <==> IsMatch(text, a, b)
  {
    FindAllFrom(text, 0, a, b);
  }

  /* ── a stream in pieces ── */

  function Concat(pieces: seq<Bytes>): Bytes {
    if pieces == [] then [] else Concat(pieces[..|pieces| - 1]) + pieces[|pieces| - 1]
  }

  /** The last bytes seen, as many as are kept. */
  function Tail(seen: Bytes): (t: Bytes)
    ensures |t| <= LINK_TAIL && |t| <= |seen| && t == seen[|seen| - |t|..]
  {
    if |seen| <= LINK_TAIL then seen else seen[|seen| - LINK_TAIL..]
  }

  /** What the scanner looks at when read k arrives. */
  function Chunk(pieces: seq<Bytes>, k: nat): Bytes
    requires k < |pieces|
  {
    Tail(Concat(pieces[..k])) + pieces[k]
  }

  lemma TailOfTail(seen: Bytes, p: Bytes)
    ensures Tail(Tail(seen) + p) == Tail(seen + p)
  {
    if |seen| > LINK_TAIL {
      var head := seen[..|seen| - LINK_TAIL];
      assert seen == head + Tail(seen);
      assert seen + p == head + (Tail(seen) + p);
      SuffixTail(head, Tail(seen) + p);
    } else {
      assert Tail(seen) == seen;
    }
  }

  lemma SuffixTail(head: Bytes, rest: Bytes)
    requires |rest| >= LINK_TAIL
    ensures Tail(head + rest) == Tail(rest)
  {
    assert (head + rest)[|head| + |rest| - LINK_TAIL..] == rest[|rest| - LINK_TAIL..];
  }

  lemma NextPiece(pieces: seq<Bytes>, p: Bytes)
    ensures Chunk(pieces + [p], |pieces|) == Tail(Concat(pieces)) + p
    ensures Tail(Concat(pieces + [p])) == Tail(Tail(Concat(pieces)) + p)
  {
    assert (pieces + [p])[..|pieces|] == pieces;
    TailOfTail(Concat(pieces), p);
  }

  /** Part of a text that holds a match whole has it as a match. */
  lemma MatchInPart(text: Bytes, a: nat, b: nat, c: nat, e: nat)
    requires IsMatch(text, a, b) && c <= a && b <= e <= |text|
    ensures IsMatch(text[c..e], a - c, b - c)
  {
    var part := text[c..e];
    forall i | 0 <= i && i + c < |text| && LinkAt(part, i)
      ensures LinkAt(text, i + c)
    {
      forall j | 0 <= j < |SCHEME|
        ensures text[i + c + j] == SCHEME[j]
      {
        assert part[i + j] == text[i + c + j];
      }
    }
    forall i | 0 <= i < a - c && LinkAt(part, i)
      ensures exists d :: i <= d < a - c && Delimiter(part[d])
    {
      var d :| i + c <= d < a && Delimiter(text[d]);
      assert part[d - c] == text[d];
    }
  }

  /** The read in which a position of the stream arrives. */
  lemma {:induction false} ReadOf(pieces: seq<Bytes>, at: nat) returns (k: nat)
    requires at < |Concat(pieces)|
    ensures k < |pieces| && |Concat(pieces[..k])| <= at < |Concat(pieces[..k + 1])|
    ensures Concat(pieces[..k + 1]) == Concat(pieces[..k]) + pieces[k]
    ensures Concat(pieces[..k + 1]) <= Concat(pieces)
    decreases |pieces|
  {
    var n := |pieces| - 1;
    if at < |Concat(pieces[..n])| {
      k := ReadOf(pieces[..n], at);
      assert pieces[..n][..k] == pieces[..k] && pieces[..n][..k + 1] == pieces[..k + 1];
    } else {
      k := n;
      assert pieces[..n + 1] == pieces;
    }
  }

  /** However a stream is cut into reads, every match of at most one byte more than the
      tail is matched whole in the chunk its last byte arrives with. */
  lemma LinksFoundWhole(pieces: seq<Bytes>, a: nat, b: nat) returns (k: nat, start: nat)
    requires IsMatch(Concat(pieces), a, b) && b - a <= LINK_TAIL + 1
    ensures k < |pieces| && start <= a && (a - start, b - start) in FindAll(Chunk(pieces, k), 0)
    ensures Chunk(pieces, k)[a - start..b - start] == Concat(pieces)[a..b]
  {
    k := ReadOf(pieces, b - 1);
    start := FoundInChunk(Concat(pieces), Concat(pieces[..k]), pieces[k], a, b);
  }

  lemma FoundInChunk(stream: Bytes, seen: Bytes, p: Bytes, a: nat, b: nat) returns (start: nat)
    requires seen + p <= stream && |seen| < b <= |seen| + |p|
    requires IsMatch(stream, a, b) && b - a <= LINK_TAIL + 1
    ensures start <= a && (a - start, b - start) in FindAll(Tail(seen) + p, 0)
    ensures (Tail(seen) + p)[a - start..b - start] == stream[a..b]
  {
    start := |seen| - |Tail(seen)|;
    ChunkInStream(stream, seen, p);
    FoundInPart(stream, Tail(seen) + p, a, b, start, |seen| + |p|);
  }

  lemma FoundInPart(text: Bytes, part: Bytes, a: nat, b: nat, c: nat, e: nat)
    requires IsMatch(text, a, b) && c <= a && b <= e <= |text| && part == text[c..e]
    ensures (a - c, b - c) in FindAll(part, 0) && part[a - c..b - c] == text[a..b]
  {
    MatchInPart(text, a, b, c, e);
    SliceOfSlice(text, c, e, a, b);
    FindAllExact(part, a - c, b - c);
  }

  lemma SliceOfSlice(s: Bytes, c: nat, e: nat, a: nat, b: nat)
    requires c <= a <= b <= e <= |s|
    ensures s[c..e][a - c..b - c] == s[a..b]
  {
    forall i | 0 <= i < b - a
      ensures s[c..e][a - c..b - c][i] == s[a..b][i]
    {
    }
  }

  lemma ChunkInStream(stream: Bytes, seen: Bytes, p: Bytes)
    requires seen + p <= stream
    ensures Tail(seen) + p == stream[|seen| - |Tail(seen)|..|seen| + |p|]
  {
    assert stream[..|seen| + |p|] == seen + p;
  }

  /** That bound is exact: a longer match is split when its last byte comes in a read of
      its own; no chunk then has it whole. */
  lemma LongerLinksCanBeSplit(stream: Bytes, a: nat, b: nat)
    requires IsMatch(stream, a, b) && b - a > LINK_TAIL + 1
    ensures var pieces := [stream[..b - 1], stream[b - 1..]];
            && Concat(pieces) == stream
            && forall k :: 0 <= k < 2 ==>
                 var seen := Concat(pieces[..k]);
                 |seen| - |Tail(seen)| > a || |seen| + |pieces[k]| < b
  {
    var pieces := [stream[..b - 1], stream[b - 1..]];
    assert pieces[..0] == [] && pieces[..1] == [pieces[0]] && pieces[..2] == pieces;
    assert [pieces[0]][..0] == [];
    assert Concat([pieces[0]]) == stream[..b - 1];
    assert Concat(pieces) == stream[..b - 1] + stream[b - 1..] == stream;
  }

  /** The read ends in the middle of this link. */
  predicate CutOff(stream: Bytes, b: nat, end: nat) {
    b == end < |stream| && !Delimiter(stream[b])
  }

  /** The link is the middle of one that began before what was looked at. */
  predicate InsideEarlier(stream: Bytes, a: nat, start: nat)
    requires a <= |stream|
  {
    exists i :: 0 <= i < start && i < a && LinkAt(stream, i) && forall d :: i <= d < a ==> !Delimiter(stream[d])
  }

  /** What part of a text shows as a match is one of the whole text, unless it is cut off at
      the part's end or is the middle of a link that began before the part. */
  lemma PartMatchIff(text: Bytes, a: nat, b: nat, c: nat, e: nat)
    requires c <= a < b <= e <= |text| && IsMatch(text[c..e], a - c, b - c)
    ensures IsMatch(text, a, b) <==> !CutOff(text, b, e) && !InsideEarlier(text, a, c)
  {
    var part := text[c..e];
    assert forall k :: 0 <= k < |part| ==> part[k] == text[c + k];
    LinkOutside(text, a, c, e);
    forall d | a + |SCHEME| <= d < b
      ensures !Delimiter(text[d])
    {
      assert !Delimiter(part[d - c]);
    }
    assert b < e ==> Delimiter(part[b - c]);
    if !InsideEarlier(text, a, c) {
      forall i | 0 <= i < a && LinkAt(text, i)
        ensures exists d :: i <= d < a && Delimiter(text[d])
      {
        if i >= c {
          LinkInside(text, i, c, e);
          var d :| i - c <= d < a - c && Delimiter(part[d]);
          assert Delimiter(text[d + c]);
        }
      }
    }
  }

  lemma LinkOutside(text: Bytes, a: nat, c: nat, e: nat)
    requires c <= a <= e <= |text| && LinkAt(text[c..e], a - c)
    ensures LinkAt(text, a) && a + |SCHEME| < e
  {
    forall j | 0 <= j < |SCHEME|
      ensures text[a + j] == SCHEME[j]
    {
      assert text[c..e][a - c + j] == text[a + j];
    }
  }

  lemma LinkInside(text: Bytes, i: nat, c: nat, e: nat)
    requires c <= i && i + |SCHEME| < e <= |text| && LinkAt(text, i)
    ensures LinkAt(text[c..e], i - c)
  {
    forall j | 0 <= j < |SCHEME|
      ensures text[c..e][i - c + j] == SCHEME[j]
    {
      assert text[c..e][i - c + j] == text[i + j];
    }
  }

  /** A read notes a link that is none of the stream exactly when it cuts one off, or the
      beginning of the one it is in the middle of has left the tail. */
  lemma NotedWithoutLink(pieces: seq<Bytes>, k: nat, x: nat, y: nat) returns (start: nat, end: nat)
    requires k < |pieces| && (x, y) in FindAll(Chunk(pieces, k), 0)
    ensures end == |Concat(pieces[..k])| + |pieces[k]| <= |Concat(pieces)|
    ensures start == |Concat(pieces[..k])| - |Tail(Concat(pieces[..k]))| && start + y <= end
    ensures Concat(pieces)[start + x..start + y] == Chunk(pieces, k)[x..y]
    ensures var stream := Concat(pieces);
            IsMatch(stream, start + x, start + y)
            <==> !CutOff(stream, start + y, end) && !InsideEarlier(stream, start + x, start)
  {
    var stream, seen, part := Concat(pieces), Concat(pieces[..k]), Chunk(pieces, k);
    start, end := |seen| - |Tail(seen)|, |seen| + |pieces[k]|;
    PrefixOfStream(pieces, k);
    ChunkInStream(stream, seen, pieces[k]);
    ShownIff(stream, part, start, end, x, y);
  }

  lemma ShownIff(stream: Bytes, part: Bytes, start: nat, end: nat, x: nat, y: nat)
    requires start <= end <= |stream| && part == stream[start..end] && (x, y) in FindAll(part, 0)
    ensures start + y <= end && stream[start + x..start + y] == part[x..y]
    ensures IsMatch(stream, start + x, start + y)
            <==> !CutOff(stream, start + y, end) && !InsideEarlier(stream, start + x, start)
  {
    FindAllExact(part, x, y);
    SliceOfSlice(stream, start, end, start + x, start + y);
    PartMatchIff(stream, start + x, start + y, start, end);
  }

  lemma {:induction false} PrefixOfStream(pieces: seq<Bytes>, k: nat)
    requires k < |pieces|
    ensures Concat(pieces[..k]) + pieces[k] <= Concat(pieces)
    decreases |pieces|
  {
    var n := |pieces| - 1;
    if k < n {
      PrefixOfStream(pieces[..n], k);
      assert pieces[..n][..k] == pieces[..k];
    }
  }

  /* ── the table of links ── */

  type Table = map<Bytes, int>

  /** The matches of a text, as text. */
  function Raws(text: Bytes): seq<Bytes> {
    var found := FindAll(text, 0);
    seq(|found|, i requires 0 <= i < |found| => assert found[i] in found; text[found[i].0..found[i].1])
  }

  /** A cleaned link long enough to be one and short enough to keep. */
  predicate Keepable(link: Bytes) {
    |SCHEME| < |link| <= 4096
  }

  function Cleaned(clean: Bytes -> Bytes, raws: seq<Bytes>): set<Bytes> {
    set r | r in raws && Keepable(clean(r)) :: clean(r)
  }

  function Old(links: Table, now: int): set<Bytes> {
    set l | l in links && now - links[l] > MEDIA_KEEP
  }

  /** A table that has been trimmed: small enough, nothing old in it, and nothing dropped
      without need but old links. */
  ghost predicate Trimmed(before: Table, kept: Table, now: int) {
    && kept.Keys <= before.Keys && (forall l :: l in kept ==> kept[l] == before[l] && now - kept[l] <= MEDIA_KEEP)
    && |kept| <= MEDIA_REMEMBERED <= |kept| + |Old(before, now)|
  }

  /** Drops entries in whatever order they come, while there are too many or they are old. */
  method Trim(links: Table, now: int) returns (kept: Table)
    requires |links| > MEDIA_REMEMBERED
    ensures Trimmed(links, kept, now)
  {
    kept := links;
    var todo := links.Keys;
    ghost var gone := {};
    while todo != {}
      invariant todo <= links.Keys && kept.Keys <= links.Keys && todo <= kept.Keys
      invariant forall l :: l in kept ==> kept[l] == links[l]
      invariant forall l :: l in kept && l !in todo ==> now - kept[l] <= MEDIA_KEEP
      invariant |kept| > MEDIA_REMEMBERED ==> kept.Keys == todo
      invariant gone <= Old(links, now) && gone !! kept.Keys
      invariant |kept| + |gone| >= MEDIA_REMEMBERED
      decreases todo
    {
      var link :| link in todo;
      todo := todo - {link};
      if now - links[link] > MEDIA_KEEP || |kept| > MEDIA_REMEMBERED {
        if now - links[link] > MEDIA_KEEP {
          gone := gone + {link};
        }
        DropOne(kept, link);
        kept := kept - {link};
      }
    }
    SubsetSize(gone, Old(links, now));
  }

  lemma DropOne(m: Table, l: Bytes)
    requires l in m
    ensures |m - {l}| == |m| - 1 && (m - {l}).Keys == m.Keys - {l}
  {
    assert (m - {l}).Keys == m.Keys - {l};
    assert |m.Keys| == |m| && |(m - {l}).Keys| == |m - {l}|;
  }

  function WithLinks(links: Table, more: set<Bytes>, now: int): Table {
    links + (map l | l in more :: now)
  }

  lemma WithOneMore(links: Table, more: set<Bytes>, now: int, l: Bytes)
    ensures WithLinks(links, more + {l}, now) == WithLinks(links, more, now)[l := now]
  {
  }

  /** The table after the links of a text are noted, before any trimming. */
  ghost function Noted(links: Table, clean: Bytes -> Bytes, text: Bytes, now: int): Table {
    WithLinks(links, Cleaned(clean, Raws(text)), now)
  }

  lemma CleanedNext(clean: Bytes -> Bytes, raws: seq<Bytes>, i: nat)
    requires i < |raws|
    ensures Cleaned(clean, raws[..i + 1]) ==
              Cleaned(clean, raws[..i]) + (if Keepable(clean(raws[i])) then {clean(raws[i])} else {})
  {
    assert raws[..i + 1] == raws[..i] + [raws[i]];
  }

  /** Notes each link found. */
  lemma NotedNext(links: Table, clean: Bytes -> Bytes, raws: seq<Bytes>, i: nat, now: int)
    requires i < |raws|
    ensures var link, before := clean(raws[i]), WithLinks(links, Cleaned(clean, raws[..i]), now);
            WithLinks(links, Cleaned(clean, raws[..i + 1]), now) == if Keepable(link) then before[link := now] else before
  {
    CleanedNext(clean, raws, i);
    if Keepable(clean(raws[i])) {
      WithOneMore(links, Cleaned(clean, raws[..i]), now, clean(raws[i]));
    } else {
      assert Cleaned(clean, raws[..i + 1]) == Cleaned(clean, raws[..i]);
    }
  }

  method NoteEach(links: Table, clean: Bytes -> Bytes, found: seq<Bytes>, now: int) returns (noted: Table)
    ensures noted == WithLinks(links, Cleaned(clean, found), now)
  {
    noted := links;
    for i := 0 to |found|
      invariant noted == WithLinks(links, Cleaned(clean, found[..i]), now)
    {
      var link := clean(found[i]);
      NotedNext(links, clean, found, i, now);
      if Keepable(link) {
        noted := noted[link := now];
      }
    }
    assert found[..|found|] == found;
  }

  /** The table after a text's links are noted in it: all of them, or trimmed when too many. */
  ghost predicate Remembered(before: Table, clean: Bytes -> Bytes, text: Bytes, now: int, after: Table) {
    var noted := Noted(before, clean, text, now);
    if |noted| <= MEDIA_REMEMBERED then after == noted else Trimmed(noted, after, now)
  }

  /** A tool's answer read through to the sandbox, noting its links on the way. */
  class LinkScanner {
    const clean: Bytes -> Bytes
    var tail: Bytes
    var links: Table
    ghost var pieces: seq<Bytes>

    ghost predicate Valid()
      reads this
    {
      tail == Tail(Concat(pieces)) && |links| <= MEDIA_REMEMBERED
    }

    constructor (clean: Bytes -> Bytes)
      ensures Valid() && pieces == [] && links == map[] && this.clean == clean
    {
      this.clean := clean;
      tail, links, pieces := [], map[], [];
    }

    /** Notes the https links in part of a tool's answer. */
    method RememberLinks(text: Bytes, now: int)
      modifies this`links
      requires |links| <= MEDIA_REMEMBERED
      ensures |links| <= MEDIA_REMEMBERED
      ensures Remembered(old(links), clean, text, now, links)
    {
      var found := Raws(text);
      if found == [] {
        assert Noted(links, clean, text, now) == links;
        return;
      }
      links := NoteEach(links, clean, found, now);
      if |links| > MEDIA_REMEMBERED {
        links := Trim(links, now);
      }
    }

    /** Reads the next n bytes the tool sent. */
    method Read(p: Bytes, now: int)
      requires Valid()
      modifies this
      ensures Valid()
      ensures pieces == (if p == [] then old(pieces) else old(pieces) + [p])
      ensures p == [] ==> links == old(links)
      ensures p != [] ==> Remembered(old(links), clean, Chunk(pieces, |pieces| - 1), now, links)
    {
      if |p| > 0 {
        var chunk := tail + p;
        NextPiece(pieces, p);
        RememberLinks(chunk, now);
        pieces := pieces + [p];
        if |chunk| > LINK_TAIL {
          chunk := chunk[|chunk| - LINK_TAIL..];
        }
        tail := chunk;
      }
    }

    /** Only a link noted in the last three hours may be fetched. */
    predicate KnowsLink(link: Bytes, now: int)
      reads this
    {
      link in links && now - links[link] <= MEDIA_KEEP
    }
  }
}
