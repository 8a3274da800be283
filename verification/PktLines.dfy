/** The commands at the start of a push as git sends them and as the gateway decodes them
    (cli/internal/sandbox/gateway.go; gitprotocol-common "pkt-line Format",
    gitprotocol-pack "Reference Update Request and Packfile Transfer"). */
module PktLines {
  import opened Common

  /* ── four hexadecimal digits ── */

  function HexValue(c: char): Option<nat> {
    if '0' <= c <= '9' then Some((c - '0') as nat)
    else if 'a' <= c <= 'f' then Some((c - 'a') as nat + 10)
    else if 'A' <= c <= 'F' then Some((c - 'A') as nat + 10)
    else None
  }

  function ParseSize(s: Bytes): Option<nat>
    requires |s| == 4
  {
    var a, b, c, d := HexValue(s[0]), HexValue(s[1]), HexValue(s[2]), HexValue(s[3]);
    if a.None? || b.None? || c.None? || d.None? then None
    else Some(a.value * 4096 + b.value * 256 + c.value * 16 + d.value)
  }

  function HexDigit(n: nat): (c: char)
    requires n < 16
    ensures HexValue(c) == Some(n)
  {
    if n < 10 then '0' + n as char else 'a' + (n - 10) as char
  }

  /** A length as git writes it. */
  function FormatSize(n: nat): (s: Bytes)
    requires n < 0x10000
    ensures |s| == 4
  {
    [HexDigit(n / 16 / 16 / 16), HexDigit(n / 16 / 16 % 16), HexDigit(n / 16 % 16), HexDigit(n % 16)]
  }

  lemma SizeRoundTrip(n: nat)
    requires n < 0x10000
    ensures ParseSize(FormatSize(n)) == Some(n)
  {
    var a := n / 16;
    var b := a / 16;
    assert n == 16 * a + n % 16;
    assert a == 16 * b + a % 16;
    assert b == 16 * (b / 16) + b % 16;
  }

  /* ── one line ── */

  /** The text before the first NUL. */
  function CutNul(line: Bytes): Bytes {
    if line == [] || line[0] == '\0' then [] else [line[0]] + CutNul(line[1..])
  }

  function TrimNewlines(text: Bytes): Bytes {
    if text != [] && text[|text| - 1] == '\n' then TrimNewlines(text[..|text| - 1]) else text
  }

  /** How many bytes of white space start here: an ASCII space, or the UTF-8 form of one
      of Unicode's. The first byte of such a form never occurs inside another character. */
  function SpaceWidth(t: Bytes, i: nat): (n: nat)
    ensures i < |t| ==> n <= |t| - i
  {
    if i >= |t| then 0
    else if t[i] == ' ' || '\t' <= t[i] <= '\r' then 1
    else if t[i] == '\U{C2}' && i + 1 < |t| && (t[i + 1] == '\U{85}' || t[i + 1] == '\U{A0}') then 2
    else if i + 2 >= |t| then 0
    else if t[i] == '\U{E1}' && t[i + 1] == '\U{9A}' && t[i + 2] == '\U{80}' then 3
    else if t[i] == '\U{E2}' && t[i + 1] == '\U{80}'
            && ('\U{80}' <= t[i + 2] <= '\U{8A}' || t[i + 2] == '\U{A8}' || t[i + 2] == '\U{A9}' || t[i + 2] == '\U{AF}') then 3
    else if t[i] == '\U{E2}' && t[i + 1] == '\U{81}' && t[i + 2] == '\U{9F}' then 3
    else if t[i] == '\U{E3}' && t[i + 1] == '\U{80}' && t[i + 2] == '\U{80}' then 3
    else 0
  }

  function FieldEnd(t: Bytes, i: nat): (e: nat)
    requires i <= |t|
    ensures i <= e <= |t|
    ensures forall j :: i <= j < e ==> SpaceWidth(t, j) == 0
    ensures e == |t| || SpaceWidth(t, e) > 0
    decreases |t| - i
  {
    if i == |t| || SpaceWidth(t, i) > 0 then i else FieldEnd(t, i + 1)
  }

  /** The words of a text. */
  function Fields(t: Bytes, i: nat): seq<Bytes>
    requires i <= |t|
    decreases |t| - i
  {
    if i == |t| then []
    else if SpaceWidth(t, i) > 0 then Fields(t, i + SpaceWidth(t, i))
    else [t[i..FieldEnd(t, i)]] + Fields(t, FieldEnd(t, i))
  }

  const SHALLOW: Bytes := "shallow "

  datatype Line = Shallow | Command(ref: Bytes) | Unreadable

  /** What a pkt-line of a push says. */
  function ReadLine(line: Bytes): Line {
    var text := TrimNewlines(CutNul(line));
    if SHALLOW <= text then Shallow
    else
      var fields := Fields(text, 0);
      if |fields| != 3 then Unreadable else Command(fields[2])
  }

  /* ── the whole request ── */

  datatype Problem = ShortPush | MalformedPush | UnsupportedPush
  datatype Decoded = Pushed(refs: seq<Bytes>, consumed: nat) | Refused(problem: Problem)

  function RefsOfLine(line: Bytes): seq<Bytes> {
    match ReadLine(line)
    case Command(ref) => [ref]
    case _ => []
  }

  /** The next pkt-line: a flush, or a line of so many bytes with its length. */
  datatype Packet = Bad(problem: Problem) | Flush | Data(size: nat)

  function NextPacket(body: Bytes): (p: Packet)
    ensures p.Flush? ==> |body| >= 4
    ensures p.Data? ==> 4 <= p.size <= |body|
  {
    if |body| < 4 then Bad(ShortPush)
    else match ParseSize(body[..4])
      case None => Bad(MalformedPush)
      case Some(size) =>
        if size == 0 then Flush
        else if size < 4 then Bad(MalformedPush)
        else if |body| < size then Bad(ShortPush)
        else Data(size)
  }

  /** The commands up to the flush, and how many bytes they take. */
  function Decode(body: Bytes): (d: Decoded)
    ensures d.Pushed? ==> 4 <= d.consumed <= |body|
    decreases |body|
  {
    match NextPacket(body)
    case Bad(problem) => Refused(problem)
    case Flush => Pushed([], 4)
    case Data(size) =>
      if ReadLine(body[4..size]).Unreadable? then Refused(UnsupportedPush)
      else match Decode(body[size..])
        case Refused(p) => Refused(p)
        case Pushed(refs, n) => Pushed(RefsOfLine(body[4..size]) + refs, size + n)
  }

  /** These bytes are those lines, each after its length, and a flush. */
  ghost predicate Framed(bytes: Bytes, lines: seq<Bytes>)
    decreases |lines|
  {
    && |bytes| >= 4
    && (if lines == [] then |bytes| == 4 && ParseSize(bytes) == Some(0)
        else
          var size := 4 + |lines[0]|;
          && ParseSize(bytes[..4]) == Some(size) && size <= |bytes|
          && bytes[4..size] == lines[0] && Framed(bytes[size..], lines[1..]))
  }

  function RefsOf(lines: seq<Bytes>): seq<Bytes> {
    if lines == [] then [] else RefsOfLine(lines[0]) + RefsOf(lines[1..])
  }

  predicate Readable(lines: seq<Bytes>) {
    forall l :: l in lines ==> !ReadLine(l).Unreadable?
  }

  lemma HeadOf(body: Bytes, size: nat, n: nat)
    requires 4 <= size <= n <= |body|
    ensures body[..n][..4] == body[..4] && body[..n][4..size] == body[4..size]
    ensures body[..n][size..] == body[size..][..n - size]
  {
  }

  lemma FramedMore(bytes: Bytes, size: nat, more: seq<Bytes>)
    requires 4 <= size <= |bytes| && ParseSize(bytes[..4]) == Some(size) && Framed(bytes[size..], more)
    ensures Framed(bytes, [bytes[4..size]] + more)
  {
    assert ([bytes[4..size]] + more)[1..] == more;
  }

  lemma RefsOfMore(line: Bytes, more: seq<Bytes>)
    ensures RefsOf([line] + more) == RefsOfLine(line) + RefsOf(more)
  {
    assert ([line] + more)[1..] == more;
  }

  lemma DecodedMore(body: Bytes, size: nat)
    requires Decode(body).Pushed? && ParseSize(body[..4]) == Some(size) && size != 0
    ensures 4 <= size <= Decode(body).consumed && !ReadLine(body[4..size]).Unreadable? && Decode(body[size..]).Pushed?
    ensures Decode(body).consumed == size + Decode(body[size..]).consumed
    ensures Decode(body).refs == RefsOfLine(body[4..size]) + Decode(body[size..]).refs
  {
  }

  /** What is decoded is a prefix of the input, framed line by line through the flush, and
      the refs are those of its lines in order. */
  lemma {:induction false} DecodeSound(body: Bytes) returns (lines: seq<Bytes>)
    requires Decode(body).Pushed?
    ensures Framed(body[..Decode(body).consumed], lines) && Readable(lines)
    ensures Decode(body).refs == RefsOf(lines)
    decreases |body|
  {
    var n := Decode(body).consumed;
    var size := ParseSize(body[..4]).value;
    if size == 0 {
      assert body[..n] == body[..4];
      lines := [];
    } else {
      DecodedMore(body, size);
      var rest := body[size..];
      var more := DecodeSound(rest);
      HeadOf(body, size, n);
      assert n - size == Decode(rest).consumed;
      assert body[..n][size..] == rest[..Decode(rest).consumed];
      FramedMore(body[..n], size, more);
      RefsOfMore(body[4..size], more);
      lines := [body[4..size]] + more;
    }
  }

  /** Whatever follows the flush, framed lines decode to themselves. */
  lemma {:induction false} DecodeComplete(bytes: Bytes, lines: seq<Bytes>, rest: Bytes)
    requires Framed(bytes, lines) && Readable(lines)
    ensures Decode(bytes + rest) == Pushed(RefsOf(lines), |bytes|)
    decreases |lines|
  {
    var body := bytes + rest;
    assert body[..4] == bytes[..4];
    if lines == [] {
      assert bytes[..4] == bytes;
    } else {
      var size := 4 + |lines[0]|;
      assert lines[0] in lines;
      DecodeComplete(bytes[size..], lines[1..], rest);
      DecodeOne(body, bytes, size, rest);
      PrependsLine(body, size, lines);
    }
  }

  lemma DecodeOne(body: Bytes, bytes: Bytes, size: nat, rest: Bytes)
    requires body == bytes + rest && 4 <= size <= |bytes|
    ensures body[4..size] == bytes[4..size] && body[size..] == bytes[size..] + rest
  {
  }

  lemma PrependsLine(body: Bytes, size: nat, lines: seq<Bytes>)
    requires lines != [] && 4 <= size <= |body| && ParseSize(body[..4]) == Some(size)
    requires body[4..size] == lines[0] && !ReadLine(lines[0]).Unreadable?
    requires Decode(body[size..]).Pushed? && Decode(body[size..]).refs == RefsOf(lines[1..])
    ensures Decode(body) == Pushed(RefsOf(lines), size + Decode(body[size..]).consumed)
  {
  }

  /* ── git's own encoding ── */

  /** Lines as git sends them. */
  function Encode(lines: seq<Bytes>): Bytes
    requires forall l :: l in lines ==> |l| + 4 < 0x10000
  {
    if lines == [] then FormatSize(0)
    else FormatSize(4 + |lines[0]|) + lines[0] + Encode(lines[1..])
  }

  lemma ThreeParts(size: Bytes, line: Bytes, more: Bytes)
    requires |size| == 4
    ensures var all := size + line + more;
            all[..4] == size && all[4..4 + |line|] == line && all[4 + |line|..] == more
  {
  }

  lemma {:induction false} EncodeFramed(lines: seq<Bytes>)
    requires forall l :: l in lines ==> |l| + 4 < 0x10000
    ensures Framed(Encode(lines), lines)
  {
    if lines == [] {
      SizeRoundTrip(0);
    } else {
      EncodeFramed(lines[1..]);
      SizeRoundTrip(4 + |lines[0]|);
      ThreeParts(FormatSize(4 + |lines[0]|), lines[0], Encode(lines[1..]));
    }
  }

  /** A word: not empty, and no white space in it. */
  ghost predicate Word(w: Bytes) {
    w != [] && forall i :: 0 <= i < |w| ==> SpaceWidth(w, i) == 0 && w[i] != '\0'
  }

  /** A word stays one inside a longer text that goes on with a space or ends. */
  lemma WordInText(w: Bytes, t: Bytes, from: nat, i: nat)
    requires Word(w) && i < |w| && from + |w| <= |t|
    requires forall j :: 0 <= j < |w| ==> t[from + j] == w[j]
    requires from + |w| == |t| || t[from + |w|] == ' '
    ensures SpaceWidth(t, from + i) == 0
  {
    assert SpaceWidth(w, i) == 0;
    assert t[from + i] == w[i];
    if i + 1 < |w| { assert t[from + (i + 1)] == w[i + 1]; }
    if i + 2 < |w| { assert t[from + (i + 2)] == w[i + 2]; }
  }

  lemma FieldIsWord(w: Bytes, t: Bytes, from: nat)
    requires Word(w) && from + |w| <= |t| && t[from..from + |w|] == w
    requires from + |w| == |t| || t[from + |w|] == ' '
    ensures SpaceWidth(t, from) == 0 && FieldEnd(t, from) == from + |w|
  {
    forall j | 0 <= j < |w|
      ensures t[from + j] == w[j]
    {
      assert t[from..from + |w|][j] == t[from + j];
    }
    forall j | from <= j < from + |w|
      ensures SpaceWidth(t, j) == 0
    {
      WordInText(w, t, from, j - from);
    }
    assert from + |w| < |t| ==> SpaceWidth(t, from + |w|) == 1;
  }

  function CommandText(was: Bytes, now: Bytes, ref: Bytes): Bytes {
    was + " " + now + " " + ref
  }

  /** One step of Fields over a word and the space after it. */
  lemma FieldsStep(w: Bytes, t: Bytes, from: nat)
    requires Word(w) && from + |w| <= |t| && t[from..from + |w|] == w
    requires from + |w| == |t| || t[from + |w|] == ' '
    ensures Fields(t, from) == [w] + (if from + |w| == |t| then [] else Fields(t, from + |w| + 1))
  {
    FieldIsWord(w, t, from);
  }

  lemma PartsOfCommand(was: Bytes, now: Bytes, ref: Bytes)
    ensures var t, b, c := CommandText(was, now, ref), |was| + 1, |was| + |now| + 2;
            && |t| == c + |ref| && t[0..|was|] == was && t[|was|] == ' '
            && t[b..b + |now|] == now && t[b + |now|] == ' ' && t[c..c + |ref|] == ref
  {
    var t := CommandText(was, now, ref);
    assert t == was + (" " + (now + (" " + ref)));
  }

  lemma FieldsOfCommand(was: Bytes, now: Bytes, ref: Bytes)
    requires Word(was) && Word(now) && Word(ref)
    ensures Fields(CommandText(was, now, ref), 0) == [was, now, ref]
  {
    var t, b, c := CommandText(was, now, ref), |was| + 1, |was| + |now| + 2;
    PartsOfCommand(was, now, ref);
    ThreeFields(was, now, ref, t, b, c);
  }

  lemma ThreeFields(was: Bytes, now: Bytes, ref: Bytes, t: Bytes, b: nat, c: nat)
    requires Word(was) && Word(now) && Word(ref)
    requires b == |was| + 1 && c == b + |now| + 1 && |t| == c + |ref|
    requires t[0..|was|] == was && t[|was|] == ' ' && t[b..b + |now|] == now && t[b + |now|] == ' ' && t[c..c + |ref|] == ref
    ensures Fields(t, 0) == [was, now, ref]
  {
    FieldsStep(ref, t, c);
    assert Fields(t, c) == [ref];
    FieldsStep(now, t, b);
    assert Fields(t, b) == [now, ref];
    FieldsStep(was, t, 0);
  }

  /** What may follow a command's text: nothing or newlines, then capabilities after a NUL. */
  ghost predicate CommandTail(tail: Bytes) {
    exists k :: 0 <= k <= |tail| && (forall i :: 0 <= i < k ==> tail[i] == '\n') && (k == |tail| || tail[k] == '\0')
  }

  lemma {:induction false} CutTail(text: Bytes, tail: Bytes, k: nat)
    requires k <= |tail| && (forall i :: 0 <= i < k ==> tail[i] == '\n') && (k == |tail| || tail[k] == '\0')
    requires forall i :: 0 <= i < |text| ==> text[i] != '\0'
    ensures CutNul(text + tail) == text + tail[..k]
    decreases |text| + k
  {
    var line := text + tail;
    if text != [] {
      assert line[1..] == text[1..] + tail;
      CutTail(text[1..], tail, k);
      assert [text[0]] + (text[1..] + tail[..k]) == text + tail[..k];
    } else if k > 0 {
      assert line == tail;
      assert text + tail[1..] == tail[1..];
      CutTail(text, tail[1..], k - 1);
      assert [tail[0]] + tail[1..][..k - 1] == tail[..k];
    }
  }

  lemma {:induction false} TrimTail(text: Bytes, newlines: Bytes)
    requires text != [] && text[|text| - 1] != '\n'
    requires forall i :: 0 <= i < |newlines| ==> newlines[i] == '\n'
    ensures TrimNewlines(text + newlines) == text
    decreases |newlines|
  {
    if newlines == [] {
      assert text + newlines == text;
    } else {
      var n := |newlines| - 1;
      assert (text + newlines)[..|text| + n] == text + newlines[..n];
      TrimTail(text, newlines[..n]);
    }
  }

  /** A command line, with or without a newline and capabilities, gives its ref. */
  lemma CommandLine(was: Bytes, now: Bytes, ref: Bytes, tail: Bytes)
    requires Word(was) && Word(now) && Word(ref) && was != "shallow" && CommandTail(tail)
    ensures ReadLine(CommandText(was, now, ref) + tail) == Command(ref)
  {
    var t := CommandText(was, now, ref);
    var k :| 0 <= k <= |tail| && (forall i :: 0 <= i < k ==> tail[i] == '\n') && (k == |tail| || tail[k] == '\0');
    CutTail(t, tail, k);
    assert SpaceWidth(ref, |ref| - 1) == 0;
    assert t[|t| - 1] == ref[|ref| - 1];
    TrimTail(t, tail[..k]);
    FieldsOfCommand(was, now, ref);
    if SHALLOW <= t {
      NotShallow(was, t);
    }
  }

  /** A text that starts "shallow " has that as its first word. */
  lemma NotShallow(was: Bytes, t: Bytes)
    requires Word(was) && |was| < |t| && t[..|was|] == was && t[|was|] == ' ' && SHALLOW <= t
    ensures was == "shallow"
  {
    assert forall j :: 0 <= j < 7 ==> t[j] == SHALLOW[j] && t[j] != ' ';
    assert forall i :: 0 <= i < |was| ==> SpaceWidth(was, i) == 0 && was[i] != ' ' && t[i] == t[..|was|][i] == was[i];
    assert t[7] == SHALLOW[7] == ' ';
    assert t[..7] == "shallow";
  }

  datatype RefUpdate = RefUpdate(was: Bytes, now: Bytes, ref: Bytes, tail: Bytes)

  ghost predicate Sendable(u: RefUpdate) {
    && Word(u.was) && Word(u.now) && Word(u.ref) && u.was != "shallow" && CommandTail(u.tail)
    && |CommandText(u.was, u.now, u.ref)| + |u.tail| + 4 < 0x10000
  }

  function LinesOf(updates: seq<RefUpdate>): seq<Bytes> {
    seq(|updates|, i requires 0 <= i < |updates| =>
      CommandText(updates[i].was, updates[i].now, updates[i].ref) + updates[i].tail)
  }

  function RefsUpdated(updates: seq<RefUpdate>): seq<Bytes> {
    seq(|updates|, i requires 0 <= i < |updates| => updates[i].ref)
  }

  lemma {:induction false} RefsOfUpdates(updates: seq<RefUpdate>)
    requires forall u :: u in updates ==> Sendable(u)
    ensures RefsOf(LinesOf(updates)) == RefsUpdated(updates) && Readable(LinesOf(updates))
  {
    if updates != [] {
      var u := updates[0];
      assert u in updates;
      CommandLine(u.was, u.now, u.ref, u.tail);
      RefsOfUpdates(updates[1..]);
      assert LinesOf(updates) == [CommandText(u.was, u.now, u.ref) + u.tail] + LinesOf(updates[1..]);
      assert LinesOf(updates)[1..] == LinesOf(updates[1..]);
      assert RefsUpdated(updates) == [u.ref] + RefsUpdated(updates[1..]);
    }
  }

  /** Decoding inverts git's encoding of any list of commands, whatever pack follows. */
  lemma PushRoundTrip(updates: seq<RefUpdate>, pack: Bytes)
    requires forall u :: u in updates ==> Sendable(u)
    ensures var lines := LinesOf(updates);
            && (forall l :: l in lines ==> |l| + 4 < 0x10000)
            && Decode(Encode(lines) + pack) == Pushed(RefsUpdated(updates), |Encode(lines)|)
  {
    var lines := LinesOf(updates);
    forall l | l in lines
      ensures |l| + 4 < 0x10000
    {
      var i :| 0 <= i < |lines| && lines[i] == l;
      assert updates[i] in updates;
    }
    RefsOfUpdates(updates);
    EncodeFramed(lines);
    DecodeComplete(Encode(lines), lines, pack);
  }
}
