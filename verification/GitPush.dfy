/** A push read off the wire and forwarded, or refused (cli/internal/sandbox/gateway.go). */
module GitPush {
  import opened Common
  import opened PktLines

  /** A buffered reader over the decoded request body. */
  class Reader {
    const data: Bytes
    var pos: nat

    ghost predicate Valid()
      reads this
    {
      pos <= |data|
    }

    constructor (data: Bytes)
      ensures Valid() && this.data == data && pos == 0
    {
      this.data := data;
      pos := 0;
    }

    /** Reads exactly n bytes, or fails at the end of the body. */
    method ReadFull(n: nat) returns (ok: bool, bytes: Bytes)
      requires Valid()
      modifies this
      ensures Valid()
      ensures ok <==> old(pos) + n <= |data|
      ensures ok ==> bytes == data[old(pos)..old(pos) + n] && pos == old(pos) + n
    {
      if pos + n <= |data| {
        ok, bytes, pos := true, data[pos..pos + n], pos + n;
      } else {
        ok, bytes, pos := false, data[pos..], |data|;
      }
    }
  }

  /** The result of decoding when some lines have been read already. */
  function Prepend(refs: seq<Bytes>, n: nat, d: Decoded): Decoded {
    match d
    case Refused(p) => Refused(p)
    case Pushed(more, m) => Pushed(refs + more, n + m)
  }

  lemma DecodeNext(body: Bytes, size: nat)
    requires NextPacket(body) == Data(size) && !ReadLine(body[4..size]).Unreadable?
    ensures Decode(body) == Prepend(RefsOfLine(body[4..size]), size, Decode(body[size..]))
  {
  }

  lemma PrependTwice(a: seq<Bytes>, n: nat, b: seq<Bytes>, m: nat, d: Decoded)
    ensures Prepend(a, n, Prepend(b, m, d)) == Prepend(a + b, n + m, d)
  {
    if d.Pushed? {
      assert a + (b + d.refs) == a + b + d.refs;
    }
  }

  /** Reads one pkt-line: its length, then as many bytes as it says. */
  method ReadPacket(body: Reader) returns (problem: Option<Problem>, flush: bool, size: Bytes, line: Bytes)
    requires body.Valid()
    modifies body
    ensures body.Valid()
    ensures var next := NextPacket(body.data[old(body.pos)..]);
            && (next.Bad? ==> problem == Some(next.problem))
            && (next.Flush? ==> problem == None && flush && body.pos == old(body.pos) + 4)
            && (next.Data? ==> problem == None && !flush && body.pos == old(body.pos) + next.size
                               && line == body.data[old(body.pos)..][4..next.size])
    ensures problem == None ==> size + line == body.data[old(body.pos)..body.pos]
  {
    ghost var rest := body.data[body.pos..];
    problem, flush, line := None, false, [];
    var ok;
    ok, size := body.ReadFull(4);
    if !ok { return Some(ShortPush), false, [], []; }
    assert rest[..4] == size;
    var length := ParseSize(size);
    if length.None? { return Some(MalformedPush), false, [], []; }
    if length.value == 0 {
      flush := true;
      return;
    }
    if length.value < 4 { return Some(MalformedPush), false, [], []; }
    ok, line := body.ReadFull(length.value - 4);
    if !ok { return Some(ShortPush), false, [], []; }
    assert rest[4..length.value] == line;
  }

  /** Reads the commands at the start of a receive-pack request, up to a flush, and
      returns their refs with the bytes consumed. */
  method PushedRefs(body: Reader) returns (problem: Option<Problem>, refs: seq<Bytes>, consumed: Bytes)
    requires body.Valid() && body.pos == 0
    modifies body
    ensures body.Valid()
    ensures Decode(body.data).Refused? ==> problem == Some(Decode(body.data).problem)
    ensures Decode(body.data).Pushed? ==>
              && problem == None && refs == Decode(body.data).refs
              && body.pos == Decode(body.data).consumed && consumed == body.data[..body.pos]
  {
    refs, consumed := [], [];
    assert body.data[0..] == body.data;
    while true
      invariant body.Valid() && consumed == body.data[..body.pos]
      invariant Reading(body.data, body.pos, refs)
      decreases |body.data| - body.pos
    {
      ghost var start := body.pos;
      ghost var rest := body.data[start..];
      var bad, flush, size, line := ReadPacket(body);
      if bad.Some? { return bad, [], []; }
      Joined(consumed, body.data, start, body.pos, size, line);
      consumed := consumed + size + line;
      if flush {
        FlushNext(rest);
        return None, refs, consumed;
      }
      var said := ReadLine(line);
      if said.Unreadable? { return Some(UnsupportedPush), [], []; }
      ReadOne(body.data, start, body.pos, refs, line);
      Noted(refs, line);
      if said.Command? {
        refs := refs + [said.ref];
      }
    }
  }

  lemma Joined(consumed: Bytes, data: Bytes, a: nat, b: nat, size: Bytes, line: Bytes)
    requires a <= b <= |data| && size + line == data[a..b] && consumed == data[..a]
    ensures consumed + size + line == data[..b]
  {
    assert consumed + size + line == consumed + (size + line);
  }

  lemma FlushNext(body: Bytes)
    requires NextPacket(body).Flush?
    ensures Decode(body) == Pushed([], 4)
  {
  }

  /** The commands before this position are read; the rest is still to decode. */
  ghost predicate Reading(data: Bytes, pos: nat, refs: seq<Bytes>) {
    pos <= |data| && Decode(data) == Prepend(refs, pos, Decode(data[pos..]))
  }

  lemma DropTwice(data: Bytes, start: nat, pos: nat)
    requires start <= pos <= |data|
    ensures data[start..][pos - start..] == data[pos..]
  {
  }

  lemma ReadOne(data: Bytes, start: nat, pos: nat, refs: seq<Bytes>, line: Bytes)
    requires Reading(data, start, refs) && start <= pos <= |data|
    requires NextPacket(data[start..]) == Data(pos - start) && data[start..][4..pos - start] == line
    requires !ReadLine(line).Unreadable?
    ensures Reading(data, pos, refs + RefsOfLine(line))
  {
    DropTwice(data, start, pos);
    DecodeNext(data[start..], pos - start);
    PrependTwice(refs, start, RefsOfLine(line), pos - start, Decode(data[pos..]));
  }

  lemma Noted(refs: seq<Bytes>, line: Bytes)
    ensures refs + RefsOfLine(line) == if ReadLine(line).Command? then refs + [ReadLine(line).ref] else refs
  {
  }

  datatype Answer = Forward(body: Bytes) | BadRequest(problem: Problem) | Forbidden

  /** The agent may push its own branch, and nothing else. */
  method BrokerPush(body: Reader, branch: Bytes) returns (answer: Answer)
    requires body.Valid() && body.pos == 0
    modifies body
    ensures Decode(body.data).Refused? ==> answer == BadRequest(Decode(body.data).problem)
    ensures Decode(body.data).Pushed? ==>
              answer == if OnlyBranch(Decode(body.data).refs, branch) then Forward(body.data) else Forbidden
  {
    var problem, refs, consumed := PushedRefs(body);
    if problem.Some? { return BadRequest(problem.value); }
    var allowed := CheckRefs(refs, branch);
    if !allowed { return Forbidden; }
    var rest := body.data[body.pos..];
    assert consumed + rest == body.data;
    answer := Forward(consumed + rest);
  }

  method CheckRefs(refs: seq<Bytes>, branch: Bytes) returns (allowed: bool)
    ensures allowed == OnlyBranch(refs, branch)
  {
    for i := 0 to |refs|
      invariant forall j :: 0 <= j < i ==> refs[j] == "refs/heads/" + branch
    {
      if refs[i] != "refs/heads/" + branch {
        return false;
      }
    }
    return true;
  }

  predicate OnlyBranch(refs: seq<Bytes>, branch: Bytes) {
    forall i :: 0 <= i < |refs| ==> refs[i] == "refs/heads/" + branch
  }
}
