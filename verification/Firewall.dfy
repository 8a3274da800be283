/** The sandbox firewall: the rule set, what putting it in place does to any rule table,
    and what packets it lets through (cli/internal/sandbox/firewall.go). */
module Firewall {
  import opened Common

  const FORWARD_CHAIN := "KIMONO-SANDBOX"
  const INPUT_CHAIN := "KIMONO-SANDBOX-IN"
  const DOCKER_USER := "DOCKER-USER"
  const INPUT := "INPUT"

  /* ── rules ── */

  /** A rule: what it matches, and where a packet it matches goes. Foreign rules, which
      anyone may have put in the table, match by a test of their own. */
  datatype Match =
    | Established
    | ToGateway(gateway: string, port: int)
    | FromSubnet(subnet: string)
    | Anything
    | Foreign(test: int)

  datatype Target = Return | Reject(how: string) | Accept | Drop | Jump(chain: string)

  datatype Rule = Rule(match_: Match, target: Target)

  type Rules = seq<Rule>

  /** One program's table: a list of rules for each chain that exists. */
  type Table = map<string, Rules>

  /** The tables of iptables and ip6tables. */
  type Tables = map<string, Table>

  datatype SandboxNet = SandboxNet(subnet4: string, gateway4: string, subnet6: string, gateway6: string)

  datatype FwChain = FwChain(bin: string, name: string, rules: Rules)
  datatype FwJump = FwJump(bin: string, chain: string, rule: Rule)
  datatype Plan = Plan(chains: seq<FwChain>, jumps: seq<FwJump>)

  function RejectRule(v6: bool): Rule {
    Rule(Anything, Reject(if v6 then "" else "icmp-port-unreachable"))
  }

  /** Nothing a sandbox starts goes through the node. */
  function ForwardRules(v6: bool): Rules {
    [Rule(Established, Return), RejectRule(v6)]
  }

  function InputRules(gateway: string, port: int, v6: bool): Rules {
    [Rule(Established, Return), Rule(ToGateway(gateway, port), Return), RejectRule(v6)]
  }

  function FamilyChains(bin: string, gateway: string, port: int, v6: bool): seq<FwChain> {
    [FwChain(bin, FORWARD_CHAIN, ForwardRules(v6)), FwChain(bin, INPUT_CHAIN, InputRules(gateway, port, v6))]
  }

  function FamilyJumps(bin: string, subnet: string): seq<FwJump> {
    [FwJump(bin, DOCKER_USER, Rule(FromSubnet(subnet), Jump(FORWARD_CHAIN))),
     FwJump(bin, INPUT, Rule(FromSubnet(subnet), Jump(INPUT_CHAIN)))]
  }

  /** The whole rule set, or None when the network has no address the rules need. */
  method PlanFirewall(n: SandboxNet, port: int) returns (plan: Option<Plan>)
    ensures plan.None? <==> n.subnet4 == "" || n.gateway4 == "" || (n.subnet6 != "" && n.gateway6 == "")
    ensures plan.Some? ==> plan.value == PlanOf(n, port)
  {
    if n.subnet4 == "" || n.gateway4 == "" { return None; }
    var chains, jumps := FamilyChains("iptables", n.gateway4, port, false), FamilyJumps("iptables", n.subnet4);
    if n.subnet6 != "" {
      if n.gateway6 == "" { return None; }
      chains := chains + FamilyChains("ip6tables", n.gateway6, port, true);
      jumps := jumps + FamilyJumps("ip6tables", n.subnet6);
    }
    plan := Some(Plan(chains, jumps));
  }

  function PlanOf(n: SandboxNet, port: int): Plan {
    var six := n.subnet6 != "";
    Plan(FamilyChains("iptables", n.gateway4, port, false) + (if six then FamilyChains("ip6tables", n.gateway6, port, true) else []),
         FamilyJumps("iptables", n.subnet4) + (if six then FamilyJumps("ip6tables", n.subnet6) else []))
  }

  /* ── the programs ── */

  /** iptables and ip6tables. A change may fail, and then changes nothing; so may a listing or
      a check, and then it says what is there is not. */
  class Programs {
    var tables: Tables
    // History: how often a listing or a check failed over something that was there.
    ghost var faults: nat

    constructor (tables: Tables)
      ensures this.tables == tables && faults == 0
    {
      this.tables := tables;
      faults := 0;
    }

    /** What a listing or a check answers of something that is there, or is not. */
    method Answers(there: bool) returns (found: bool)
      modifies this`faults
      ensures found ==> there
      ensures faults == old(faults) + if there && !found then 1 else 0
    {
      found := *;
      found := found && there;
      if there && !found {
        faults := faults + 1;
      }
    }

    /** -n -L */
    method Lists(bin: string, chain: string) returns (found: bool)
      modifies this`faults
      ensures found ==> HasChain(tables, bin, chain)
      ensures faults == old(faults) + if HasChain(tables, bin, chain) && !found then 1 else 0
    {
      found := Answers(HasChain(tables, bin, chain));
    }

    /** -C */
    method Checks(bin: string, chain: string, rule: Rule) returns (found: bool)
      modifies this`faults
      ensures found ==> rule in RulesOf(tables, bin, chain)
      ensures faults == old(faults) + if rule in RulesOf(tables, bin, chain) && !found then 1 else 0
    {
      found := Answers(rule in RulesOf(tables, bin, chain));
    }

    /** -N, -F, -A and -I: sets a chain's rules, if the chain is as the command needs it. */
    method Change(bin: string, chain: string, possible: bool, rules: Rules) returns (ok: bool)
      requires possible ==> bin in tables
      modifies this`tables
      ensures tables == if ok then SetChain(old(tables), bin, chain, rules) else old(tables)
      ensures ok ==> possible
    {
      ok := *;
      ok := ok && possible;
      if ok {
        tables := SetChain(tables, bin, chain, rules);
      }
    }

    method NewChain(bin: string, chain: string) returns (ok: bool)
      modifies this`tables
      ensures tables == if ok then SetChain(old(tables), bin, chain, []) else old(tables)
      ensures ok ==> bin in old(tables) && chain !in old(tables)[bin]
    {
      ok := Change(bin, chain, bin in tables && chain !in tables[bin], []);
    }

    method Flush(bin: string, chain: string) returns (ok: bool)
      modifies this`tables
      ensures tables == if ok then SetChain(old(tables), bin, chain, []) else old(tables)
      ensures ok ==> HasChain(old(tables), bin, chain)
    {
      ok := Change(bin, chain, HasChain(tables, bin, chain), []);
    }

    method Append(bin: string, chain: string, rule: Rule) returns (ok: bool)
      modifies this`tables
      ensures ok ==> HasChain(old(tables), bin, chain)
      ensures tables == if ok then SetChain(old(tables), bin, chain, old(tables)[bin][chain] + [rule]) else old(tables)
    {
      ok := Change(bin, chain, HasChain(tables, bin, chain),
                   if HasChain(tables, bin, chain) then tables[bin][chain] + [rule] else []);
    }

    method InsertFirst(bin: string, chain: string, rule: Rule) returns (ok: bool)
      modifies this`tables
      ensures ok ==> HasChain(old(tables), bin, chain)
      ensures tables == if ok then SetChain(old(tables), bin, chain, [rule] + old(tables)[bin][chain]) else old(tables)
    {
      ok := Change(bin, chain, HasChain(tables, bin, chain),
                   if HasChain(tables, bin, chain) then [rule] + tables[bin][chain] else []);
    }
  }

  predicate HasChain(tables: Tables, bin: string, chain: string) {
    bin in tables && chain in tables[bin]
  }

  function SetChain(tables: Tables, bin: string, chain: string, rules: Rules): Tables
  {
    if bin in tables then tables[bin := tables[bin][chain := rules]] else tables
  }

  lemma SetTwice(tables: Tables, bin: string, chain: string, a: Rules, b: Rules)
    ensures SetChain(SetChain(tables, bin, chain, a), bin, chain, b) == SetChain(tables, bin, chain, b)
  {
    if bin in tables {
      assert tables[bin][chain := a][chain := b] == tables[bin][chain := b];
    }
  }

  /* ── what apply leaves behind ── */

  /** A chain rebuilt from scratch. */
  function Rebuilt(tables: Tables, c: FwChain): Tables {
    SetChain(tables, c.bin, c.name, c.rules)
  }

  /** A chain's rules, none when it doesn't exist. */
  function RulesOf(tables: Tables, bin: string, chain: string): Rules {
    if HasChain(tables, bin, chain) then tables[bin][chain] else []
  }

  /** A jump put first in its chain when it is missing; DOCKER-USER is made when it is missing. */
  function Jumped(tables: Tables, j: FwJump): Tables {
    var rules := RulesOf(tables, j.bin, j.chain);
    if j.rule in rules then tables else SetChain(tables, j.bin, j.chain, [j.rule] + rules)
  }

  function AllRebuilt(tables: Tables, chains: seq<FwChain>): Tables {
    if chains == [] then tables else Rebuilt(AllRebuilt(tables, chains[..|chains| - 1]), chains[|chains| - 1])
  }

  function AllJumped(tables: Tables, jumps: seq<FwJump>): Tables {
    if jumps == [] then tables else Jumped(AllJumped(tables, jumps[..|jumps| - 1]), jumps[|jumps| - 1])
  }

  function Applied(tables: Tables, plan: Plan): Tables {
    AllJumped(AllRebuilt(tables, plan.chains), plan.jumps)
  }

  /** A chain is as it was, or holds the first of its rules. */
  ghost predicate PartlyRebuilt(before: Tables, now: Tables, c: FwChain) {
    now == before || exists k :: 0 <= k <= |c.rules| && now == SetChain(before, c.bin, c.name, c.rules[..k])
  }

  /** A jump put first in its chain, whether one is there or not. */
  function Prepended(tables: Tables, j: FwJump): Tables {
    SetChain(tables, j.bin, j.chain, [j.rule] + RulesOf(tables, j.bin, j.chain))
  }

  /** The jump is there: put first when it was missing, or when the check failed. */
  predicate JumpEnsured(before: Tables, now: Tables, j: FwJump) {
    now == Jumped(before, j) || now == Prepended(before, j)
  }

  ghost predicate JumpsEnsured(before: Tables, now: Tables, jumps: seq<FwJump>)
    decreases |jumps|
  {
    if jumps == [] then now == before
    else
      var n := |jumps| - 1;
      exists mid :: JumpsEnsured(before, mid, jumps[..n]) && JumpEnsured(mid, now, jumps[n])
  }

  /** The first jumps are ensured, and DOCKER-USER may have been made for the next. */
  ghost predicate PartlyJumped(before: Tables, now: Tables, jumps: seq<FwJump>) {
    exists n, mid :: 0 <= n < |jumps| && JumpsEnsured(before, mid, jumps[..n]) && JumpStopped(mid, now, jumps[n])
  }

  ghost predicate JumpStopped(before: Tables, now: Tables, j: FwJump) {
    now == before
    || (j.chain == DOCKER_USER && !HasChain(before, j.bin, DOCKER_USER) && now == SetChain(before, j.bin, DOCKER_USER, []))
  }

  /** The first chains are rebuilt and the next one partly, or all are and some jumps are in place. */
  ghost predicate PartlyApplied(before: Tables, now: Tables, plan: Plan) {
    || (exists n :: 0 <= n < |plan.chains| && PartlyRebuilt(AllRebuilt(before, plan.chains[..n]), now, plan.chains[n]))
    || PartlyJumped(AllRebuilt(before, plan.chains), now, plan.jumps)
  }

  method RebuildChain(p: Programs, c: FwChain) returns (ok: bool)
    modifies p
    ensures ok ==> c.bin in old(p.tables) && p.tables == Rebuilt(old(p.tables), c)
    ensures !ok ==> PartlyRebuilt(old(p.tables), p.tables, c)
    ensures p.faults >= old(p.faults)
  {
    ghost var before := p.tables;
    var listed := p.Lists(c.bin, c.name);
    if !listed {
      ok := p.NewChain(c.bin, c.name);
      if !ok { return; }
      SetTwice(before, c.bin, c.name, [], []);
    }
    assert c.rules[..0] == [];
    ok := p.Flush(c.bin, c.name);
    if !ok { return; }
    for i := 0 to |c.rules|
      invariant c.bin in before && p.tables == SetChain(before, c.bin, c.name, c.rules[..i])
      invariant p.faults >= old(p.faults)
    {
      assert c.rules[..i + 1] == c.rules[..i] + [c.rules[i]];
      SetTwice(before, c.bin, c.name, c.rules[..i], c.rules[..i + 1]);
      ok := p.Append(c.bin, c.name, c.rules[i]);
      if !ok { return; }
    }
    assert c.rules[..|c.rules|] == c.rules;
    ok := true;
  }

  method EnsureJump(p: Programs, j: FwJump) returns (ok: bool)
    modifies p
    ensures ok ==> JumpEnsured(old(p.tables), p.tables, j) && HasChain(p.tables, j.bin, j.chain)
    ensures ok && p.faults == old(p.faults) ==> p.tables == Jumped(old(p.tables), j)
    ensures !ok ==> JumpStopped(old(p.tables), p.tables, j)
    ensures p.faults >= old(p.faults)
  {
    ghost var before := p.tables;
    if j.chain == DOCKER_USER {
      var listed := p.Lists(j.bin, DOCKER_USER);
      if !listed {
        SetTwice(before, j.bin, j.chain, [], [j.rule]);
        assert [j.rule] + [] == [j.rule];
        ok := p.NewChain(j.bin, DOCKER_USER);
        if !ok { return; }
      }
    }
    var there := p.Checks(j.bin, j.chain, j.rule);
    if there {
      return true;
    }
    ok := p.InsertFirst(j.bin, j.chain, j.rule);
  }

  /** Restores a jump that something took away, without touching anything already right. */
  method EnsureJumps(p: Programs, jumps: seq<FwJump>) returns (ok: bool)
    modifies p
    ensures ok ==> JumpsEnsured(old(p.tables), p.tables, jumps)
    ensures ok && p.faults == old(p.faults) ==> p.tables == AllJumped(old(p.tables), jumps)
    ensures !ok ==> PartlyJumped(old(p.tables), p.tables, jumps)
    ensures p.faults >= old(p.faults)
  {
    ghost var before := p.tables;
    for i := 0 to |jumps|
      invariant JumpsEnsured(before, p.tables, jumps[..i])
      invariant p.faults == old(p.faults) ==> p.tables == AllJumped(before, jumps[..i])
      invariant p.faults >= old(p.faults)
    {
      assert jumps[..i + 1][..i] == jumps[..i];
      ok := EnsureJump(p, jumps[i]);
      if !ok { return; }
    }
    assert jumps[..|jumps|] == jumps;
    ok := true;
  }

  /** Builds the chains afresh and makes sure each jump is in place. */
  method Apply(p: Programs, plan: Plan) returns (ok: bool)
    modifies p
    ensures ok ==> JumpsEnsured(AllRebuilt(old(p.tables), plan.chains), p.tables, plan.jumps)
    ensures ok && p.faults == old(p.faults) ==> p.tables == Applied(old(p.tables), plan)
    ensures !ok ==> PartlyApplied(old(p.tables), p.tables, plan)
  {
    ghost var before := p.tables;
    for i := 0 to |plan.chains|
      invariant p.tables == AllRebuilt(before, plan.chains[..i])
      invariant p.faults >= old(p.faults)
    {
      assert plan.chains[..i + 1][..i] == plan.chains[..i];
      ok := RebuildChain(p, plan.chains[i]);
      if !ok { return; }
    }
    assert plan.chains[..|plan.chains|] == plan.chains;
    ok := EnsureJumps(p, plan.jumps);
  }

  /* ── what a failure leaves ── */

  predicate IsOurs(chains: seq<FwChain>, b: string, c: string) {
    exists i :: 0 <= i < |chains| && chains[i].bin == b && chains[i].name == c
  }

  lemma {:induction false} RebuiltElsewhere(tables: Tables, chains: seq<FwChain>, b: string, c: string)
    requires !IsOurs(chains, b, c)
    ensures RulesOf(AllRebuilt(tables, chains), b, c) == RulesOf(tables, b, c)
  {
    if chains != [] {
      var n := |chains| - 1;
      assert forall i :: 0 <= i < n ==> chains[..n][i] == chains[i];
      RebuiltElsewhere(tables, chains[..n], b, c);
      RulesAfterSet(AllRebuilt(tables, chains[..n]), chains[n].bin, chains[n].name, chains[n].rules, b, c);
    }
  }

  /** The jumps into a chain stand before its rules, which keep their order. */
  ghost predicate KeepsRules(before: Rules, now: Rules) {
    |now| >= |before| && now[|now| - |before|..] == before
  }

  /** No jump goes into this chain. */
  predicate NoJumpInto(jumps: seq<FwJump>, b: string, c: string) {
    forall i :: 0 <= i < |jumps| ==> jumps[i].bin != b || jumps[i].chain != c
  }

  lemma EnsuredOne(before: Tables, now: Tables, j: FwJump, b: string, c: string)
    requires JumpEnsured(before, now, j)
    ensures now.Keys == before.Keys && KeepsRules(RulesOf(before, b, c), RulesOf(now, b, c))
    ensures j.bin != b || j.chain != c ==> RulesOf(now, b, c) == RulesOf(before, b, c)
  {
    RulesAfterSet(before, j.bin, j.chain, [j.rule] + RulesOf(before, j.bin, j.chain), b, c);
    AddedKeeps(RulesOf(before, b, c), RulesOf(before, b, c), j.rule);
  }

  lemma ThisInPlace(before: Tables, now: Tables, j: FwJump)
    requires JumpEnsured(before, now, j) && j.bin in before
    ensures j.rule in RulesOf(now, j.bin, j.chain)
  {
    RulesAfterSet(before, j.bin, j.chain, [j.rule] + RulesOf(before, j.bin, j.chain), j.bin, j.chain);
  }

  lemma LastEnsured(before: Tables, now: Tables, jumps: seq<FwJump>) returns (mid: Tables)
    requires JumpsEnsured(before, now, jumps) && jumps != []
    ensures JumpsEnsured(before, mid, jumps[..|jumps| - 1]) && JumpEnsured(mid, now, jumps[|jumps| - 1])
  {
    mid :| JumpsEnsured(before, mid, jumps[..|jumps| - 1]) && JumpEnsured(mid, now, jumps[|jumps| - 1]);
  }

  lemma KeepsOn(a: Rules, b: Rules, c: Rules)
    requires KeepsRules(a, b) && KeepsRules(b, c)
    ensures KeepsRules(a, c)
  {
    assert c[|c| - |a|..] == c[|c| - |b|..][|b| - |a|..];
  }

  /** However the checks answered, a chain keeps its rules in order behind the jumps put into
      it, and is as it was when none goes there. */
  lemma {:induction false} EnsuredKeeps(before: Tables, now: Tables, jumps: seq<FwJump>, b: string, c: string)
    requires JumpsEnsured(before, now, jumps)
    ensures now.Keys == before.Keys && KeepsRules(RulesOf(before, b, c), RulesOf(now, b, c))
    ensures NoJumpInto(jumps, b, c) ==> RulesOf(now, b, c) == RulesOf(before, b, c)
    decreases |jumps|
  {
    if jumps != [] {
      var n := |jumps| - 1;
      var mid := LastEnsured(before, now, jumps);
      EnsuredKeeps(before, mid, jumps[..n], b, c);
      EnsuredOne(mid, now, jumps[n], b, c);
      KeepsOn(RulesOf(before, b, c), RulesOf(mid, b, c), RulesOf(now, b, c));
      NoJumpBefore(jumps, n, b, c);
    }
  }

  lemma NoJumpBefore(jumps: seq<FwJump>, n: nat, b: string, c: string)
    requires n < |jumps|
    ensures NoJumpInto(jumps, b, c) ==> NoJumpInto(jumps[..n], b, c) && (jumps[n].bin != b || jumps[n].chain != c)
  {
  }

  lemma StaysInPlace(before: Tables, now: Tables, j: FwJump, b: string, c: string, rule: Rule)
    requires JumpEnsured(before, now, j) && rule in RulesOf(before, b, c)
    ensures rule in RulesOf(now, b, c)
  {
    EnsuredOne(before, now, j, b, c);
    StillIn(RulesOf(before, b, c), RulesOf(now, b, c), rule);
  }

  /** And every jump is there. */
  lemma {:induction false} EnsuredInPlace(before: Tables, now: Tables, jumps: seq<FwJump>, k: nat)
    requires JumpsEnsured(before, now, jumps) && k < |jumps| && jumps[k].bin in before
    ensures jumps[k].rule in RulesOf(now, jumps[k].bin, jumps[k].chain)
    decreases |jumps|
  {
    var n, j := |jumps| - 1, jumps[k];
    var mid := LastEnsured(before, now, jumps);
    if k < n {
      EnsuredInPlace(before, mid, jumps[..n], k);
      StaysInPlace(mid, now, jumps[n], j.bin, j.chain, j.rule);
    } else {
      EnsuredKeeps(before, mid, jumps[..n], j.bin, j.chain);
      ThisInPlace(mid, now, j);
    }
  }

  lemma StillIn(before: Rules, now: Rules, rule: Rule)
    requires KeepsRules(before, now) && rule in before
    ensures rule in now
  {
    var i :| 0 <= i < |before| && before[i] == rule;
    assert now[|now| - |before|..][i] == now[|now| - |before| + i];
  }

  lemma AddedKeeps(before: Rules, were: Rules, rule: Rule)
    requires KeepsRules(before, were)
    ensures KeepsRules(before, [rule] + were)
  {
    assert ([rule] + were)[|were| + 1 - |before|..] == were[|were| - |before|..];
  }

  /** However far an application came, a chain that is not the plan's keeps all its rules in
      order, and is as it was unless a jump goes into it. */
  lemma FailureKeepsOthers(before: Tables, now: Tables, plan: Plan, b: string, c: string)
    requires PartlyApplied(before, now, plan) && !IsOurs(plan.chains, b, c)
    ensures KeepsRules(RulesOf(before, b, c), RulesOf(now, b, c))
    ensures NoJumpInto(plan.jumps, b, c) ==> RulesOf(now, b, c) == RulesOf(before, b, c)
  {
    if n :| 0 <= n < |plan.chains| && PartlyRebuilt(AllRebuilt(before, plan.chains[..n]), now, plan.chains[n]) {
      RebuildKeepsOthers(before, now, plan.chains, n, b, c);
    } else {
      RebuiltElsewhere(before, plan.chains, b, c);
      JumpsKeepOthers(AllRebuilt(before, plan.chains), now, plan.jumps, b, c);
    }
  }

  lemma RebuildKeepsOthers(before: Tables, now: Tables, chains: seq<FwChain>, n: nat, b: string, c: string)
    requires n < |chains| && PartlyRebuilt(AllRebuilt(before, chains[..n]), now, chains[n]) && !IsOurs(chains, b, c)
    ensures RulesOf(now, b, c) == RulesOf(before, b, c)
  {
    var were := AllRebuilt(before, chains[..n]);
    assert forall i :: 0 <= i < n ==> chains[..n][i] == chains[i];
    RebuiltElsewhere(before, chains[..n], b, c);
    if now != were {
      var k :| 0 <= k <= |chains[n].rules| && now == SetChain(were, chains[n].bin, chains[n].name, chains[n].rules[..k]);
      RulesAfterSet(were, chains[n].bin, chains[n].name, chains[n].rules[..k], b, c);
    }
  }

  lemma JumpsKeepOthers(before: Tables, now: Tables, jumps: seq<FwJump>, b: string, c: string)
    requires PartlyJumped(before, now, jumps)
    ensures KeepsRules(RulesOf(before, b, c), RulesOf(now, b, c))
    ensures NoJumpInto(jumps, b, c) ==> RulesOf(now, b, c) == RulesOf(before, b, c)
  {
    var n, mid :| 0 <= n < |jumps| && JumpsEnsured(before, mid, jumps[..n]) && JumpStopped(mid, now, jumps[n]);
    NoJumpBefore(jumps, n, b, c);
    EnsuredKeeps(before, mid, jumps[..n], b, c);
    RulesAfterSet(mid, jumps[n].bin, DOCKER_USER, [], b, c);
  }

  /** Whether every jump is there. */
  predicate InPlace(tables: Tables, jumps: seq<FwJump>) {
    |jumps| > 0 && forall i :: 0 <= i < |jumps| ==> jumps[i].rule in RulesOf(tables, jumps[i].bin, jumps[i].chain)
  }

  /* ── from any rule table ── */

  lemma RulesAfterSet(tables: Tables, bin: string, chain: string, rules: Rules, b: string, c: string)
    ensures RulesOf(SetChain(tables, bin, chain, rules), b, c) ==
              if b == bin && c == chain && bin in tables then rules else RulesOf(tables, b, c)
    ensures SetChain(tables, bin, chain, rules).Keys == tables.Keys
  {
  }

  function WithJump(rules: Rules, jump: Rule): Rules {
    if jump in rules then rules else [jump] + rules
  }

  /** What a chain of one program holds once its family is in place. */
  function FamilyRules(rules: Rules, c: string, subnet: string, gateway: string, port: int, v6: bool): Rules {
    if c == FORWARD_CHAIN then ForwardRules(v6)
    else if c == INPUT_CHAIN then InputRules(gateway, port, v6)
    else if c == DOCKER_USER then WithJump(rules, Rule(FromSubnet(subnet), Jump(FORWARD_CHAIN)))
    else if c == INPUT then WithJump(rules, Rule(FromSubnet(subnet), Jump(INPUT_CHAIN)))
    else rules
  }

  /** What every chain of every program holds after the plan is applied. */
  function FinalRules(tables: Tables, n: SandboxNet, port: int, b: string, c: string): Rules {
    var rules := RulesOf(tables, b, c);
    if b == "iptables" then FamilyRules(rules, c, n.subnet4, n.gateway4, port, false)
    else if b == "ip6tables" && n.subnet6 != "" then FamilyRules(rules, c, n.subnet6, n.gateway6, port, true)
    else rules
  }

  /** The programs the plan uses have a table each. */
  predicate HasTables(tables: Tables, n: SandboxNet) {
    "iptables" in tables && (n.subnet6 != "" ==> "ip6tables" in tables)
  }

  lemma {:induction false} RebuiltInTurn(tables: Tables, a: seq<FwChain>, b: seq<FwChain>)
    ensures AllRebuilt(tables, a + b) == AllRebuilt(AllRebuilt(tables, a), b)
    decreases |b|
  {
    if b == [] {
      assert a + b == a;
    } else {
      assert (a + b)[..|a + b| - 1] == a + b[..|b| - 1];
      RebuiltInTurn(tables, a, b[..|b| - 1]);
    }
  }

  lemma {:induction false} JumpedInTurn(tables: Tables, a: seq<FwJump>, b: seq<FwJump>)
    ensures AllJumped(tables, a + b) == AllJumped(AllJumped(tables, a), b)
    decreases |b|
  {
    if b == [] {
      assert a + b == a;
    } else {
      assert (a + b)[..|a + b| - 1] == a + b[..|b| - 1];
      JumpedInTurn(tables, a, b[..|b| - 1]);
    }
  }

  lemma FamilyRebuilt(tables: Tables, bin: string, gateway: string, port: int, v6: bool, b: string, c: string)
    requires bin in tables
    ensures var t := AllRebuilt(tables, FamilyChains(bin, gateway, port, v6));
            && t.Keys == tables.Keys
            && RulesOf(t, b, c) ==
                 if b == bin && c == FORWARD_CHAIN then ForwardRules(v6)
                 else if b == bin && c == INPUT_CHAIN then InputRules(gateway, port, v6)
                 else RulesOf(tables, b, c)
  {
    var chains := FamilyChains(bin, gateway, port, v6);
    var one := Rebuilt(tables, chains[0]);
    assert chains[..1] == [chains[0]] && chains[..1][..0] == [];
    assert AllRebuilt(tables, chains[..1]) == one;
    RulesAfterSet(tables, bin, FORWARD_CHAIN, ForwardRules(v6), b, c);
    RulesAfterSet(one, bin, INPUT_CHAIN, InputRules(gateway, port, v6), b, c);
  }

  lemma JumpedRules(tables: Tables, j: FwJump, b: string, c: string)
    requires j.bin in tables
    ensures Jumped(tables, j).Keys == tables.Keys
    ensures RulesOf(Jumped(tables, j), b, c) ==
              if b == j.bin && c == j.chain then WithJump(RulesOf(tables, b, c), j.rule) else RulesOf(tables, b, c)
  {
    RulesAfterSet(tables, j.bin, j.chain, [j.rule] + RulesOf(tables, j.bin, j.chain), b, c);
  }

  lemma FamilyJumped(tables: Tables, bin: string, subnet: string, b: string, c: string)
    requires bin in tables
    ensures var t := AllJumped(tables, FamilyJumps(bin, subnet));
            && t.Keys == tables.Keys
            && RulesOf(t, b, c) ==
                 if b == bin && c == DOCKER_USER then WithJump(RulesOf(tables, b, c), Rule(FromSubnet(subnet), Jump(FORWARD_CHAIN)))
                 else if b == bin && c == INPUT then WithJump(RulesOf(tables, b, c), Rule(FromSubnet(subnet), Jump(INPUT_CHAIN)))
                 else RulesOf(tables, b, c)
  {
    var jumps := FamilyJumps(bin, subnet);
    var one := Jumped(tables, jumps[0]);
    assert jumps[..1] == [jumps[0]] && jumps[..1][..0] == [];
    assert AllJumped(tables, jumps[..1]) == one;
    JumpedRules(tables, jumps[0], b, c);
    JumpedRules(one, jumps[1], b, c);
  }

  /** Kimono's chains are the plan's, a parent chain gets its jump in front when it lacked
      it, and every foreign chain and rule is where it was. */
  lemma AppliedRules(tables: Tables, n: SandboxNet, port: int, b: string, c: string)
    requires HasTables(tables, n)
    ensures RulesOf(Applied(tables, PlanOf(n, port)), b, c) == FinalRules(tables, n, port, b, c)
  {
    var six := n.subnet6 != "";
    var chains4, jumps4 := FamilyChains("iptables", n.gateway4, port, false), FamilyJumps("iptables", n.subnet4);
    var t1 := AllRebuilt(tables, chains4);
    FamilyRebuilt(tables, "iptables", n.gateway4, port, false, b, c);
    var t2 := t1;
    if six {
      var chains6 := FamilyChains("ip6tables", n.gateway6, port, true);
      t2 := AllRebuilt(t1, chains6);
      FamilyRebuilt(t1, "ip6tables", n.gateway6, port, true, b, c);
      RebuiltInTurn(tables, chains4, chains6);
    } else {
      assert chains4 + [] == chains4;
    }
    assert t2 == AllRebuilt(tables, PlanOf(n, port).chains);
    var t3 := AllJumped(t2, jumps4);
    FamilyJumped(t2, "iptables", n.subnet4, b, c);
    if six {
      var jumps6 := FamilyJumps("ip6tables", n.subnet6);
      FamilyJumped(t3, "ip6tables", n.subnet6, b, c);
      JumpedInTurn(t2, jumps4, jumps6);
    } else {
      assert jumps4 + [] == jumps4;
    }
  }

  /** Afterwards every jump is in place, whatever port the check is asked about. */
  lemma AppliedInPlace(tables: Tables, n: SandboxNet, port: int, askedPort: int)
    requires HasTables(tables, n)
    ensures InPlace(Applied(tables, PlanOf(n, port)), PlanOf(n, askedPort).jumps)
  {
    var jumps := PlanOf(n, askedPort).jumps;
    forall i | 0 <= i < |jumps|
      ensures jumps[i].rule in RulesOf(Applied(tables, PlanOf(n, port)), jumps[i].bin, jumps[i].chain)
    {
      AppliedRules(tables, n, port, jumps[i].bin, jumps[i].chain);
    }
  }

  lemma {:induction false} AlreadyBuilt(tables: Tables, chains: seq<FwChain>)
    requires forall i :: 0 <= i < |chains| ==>
               HasChain(tables, chains[i].bin, chains[i].name) && tables[chains[i].bin][chains[i].name] == chains[i].rules
    ensures AllRebuilt(tables, chains) == tables
  {
    if chains != [] {
      var c := chains[|chains| - 1];
      AlreadyBuilt(tables, chains[..|chains| - 1]);
      assert tables[c.bin][c.name := c.rules] == tables[c.bin];
    }
  }

  lemma {:induction false} AlreadyJumped(tables: Tables, jumps: seq<FwJump>)
    requires forall i :: 0 <= i < |jumps| ==> jumps[i].rule in RulesOf(tables, jumps[i].bin, jumps[i].chain)
    ensures AllJumped(tables, jumps) == tables
  {
    if jumps != [] {
      AlreadyJumped(tables, jumps[..|jumps| - 1]);
    }
  }

  /** Applying the plan again changes nothing. */
  lemma AppliedTwice(tables: Tables, n: SandboxNet, port: int)
    requires HasTables(tables, n)
    ensures var once := Applied(tables, PlanOf(n, port)); Applied(once, PlanOf(n, port)) == once
  {
    var plan := PlanOf(n, port);
    var once := Applied(tables, plan);
    forall i | 0 <= i < |plan.chains|
      ensures HasChain(once, plan.chains[i].bin, plan.chains[i].name)
      ensures once[plan.chains[i].bin][plan.chains[i].name] == plan.chains[i].rules
    {
      AppliedRules(tables, n, port, plan.chains[i].bin, plan.chains[i].name);
    }
    AlreadyBuilt(once, plan.chains);
    AppliedInPlace(tables, n, port, port);
    AlreadyJumped(once, plan.jumps);
  }

  /* ── packets ── */

  /** A packet: the subnet it comes from, where it goes, whether it belongs to a connection
      already let in, and which foreign tests it meets. */
  datatype Packet = Packet(subnet: string, destination: string, tcp: bool, port: int, established: bool, meets: set<int>)

  predicate Matches(m: Match, p: Packet) {
    match m
    case Established => p.established
    case ToGateway(gateway, port) => p.destination == gateway && p.tcp && p.port == port
    case FromSubnet(subnet) => p.subnet == subnet
    case Anything => true
    case Foreign(test) => test in p.meets
  }

  datatype Verdict = Accepted | Rejected | Dropped | FellThrough | TooDeep

  /** Walks a list of rules, entering other chains at most so deep. */
  function Walk(table: Table, rules: Rules, p: Packet, depth: nat): Verdict
    decreases depth, |rules|
  {
    if rules == [] then FellThrough
    else if !Matches(rules[0].match_, p) then Walk(table, rules[1..], p, depth)
    else match rules[0].target
      case Return => FellThrough
      case Reject(_) => Rejected
      case Accept => Accepted
      case Drop => Dropped
      case Jump(chain) =>
        if depth == 0 then TooDeep
        else
          var v := Walk(table, if chain in table then table[chain] else [], p, depth - 1);
          if v.FellThrough? then Walk(table, rules[1..], p, depth) else v
  }

  /** The jump was missing or first: nothing foreign comes before it. */
  predicate MissingOrFirst(rules: Rules, jump: Rule) {
    jump !in rules || rules[0] == jump
  }

  lemma ForwardRejects(table: Table, p: Packet, depth: nat, v6: bool)
    requires !p.established
    ensures Walk(table, ForwardRules(v6), p, depth) == Rejected
  {
    assert ForwardRules(v6)[1..] == [RejectRule(v6)];
  }

  lemma InputRejects(table: Table, p: Packet, depth: nat, gateway: string, port: int, v6: bool)
    requires !p.established
    ensures Walk(table, InputRules(gateway, port, v6), p, depth) ==
              if Matches(ToGateway(gateway, port), p) then FellThrough else Rejected
  {
    var last := [RejectRule(v6)];
    var two := [Rule(ToGateway(gateway, port), Return)] + last;
    assert two[1..] == last && InputRules(gateway, port, v6)[1..] == two;
    assert Walk(table, last, p, depth) == Rejected;
    assert Walk(table, two, p, depth) == if Matches(ToGateway(gateway, port), p) then FellThrough else Rejected;
  }

  function AfterFirst(rules: Rules): Rules {
    if rules == [] then [] else rules[1..]
  }

  /** One family's packets: a new packet from the sandbox subnet is rejected on its way
      through the node, and on its way to the node unless it is TCP to the gateway's port;
      that one is left to the rules that were there before. */
  lemma FamilyPackets(tables: Tables, n: SandboxNet, port: int, v6: bool, p: Packet, depth: nat)
    requires HasTables(tables, n) && (v6 ==> n.subnet6 != "") && depth > 0
    requires !p.established && p.subnet == (if v6 then n.subnet6 else n.subnet4)
    ensures var bin := if v6 then "ip6tables" else "iptables";
            var gateway := if v6 then n.gateway6 else n.gateway4;
            var after := Applied(tables, PlanOf(n, port));
            && bin in after
            && (MissingOrFirst(RulesOf(tables, bin, DOCKER_USER), Rule(FromSubnet(p.subnet), Jump(FORWARD_CHAIN))) ==>
                  Walk(after[bin], RulesOf(after, bin, DOCKER_USER), p, depth) == Rejected)
            && (MissingOrFirst(RulesOf(tables, bin, INPUT), Rule(FromSubnet(p.subnet), Jump(INPUT_CHAIN))) ==>
                  Walk(after[bin], RulesOf(after, bin, INPUT), p, depth) ==
                    if p.destination == gateway && p.tcp && p.port == port
                    then Walk(after[bin], AfterFirst(RulesOf(after, bin, INPUT)), p, depth) else Rejected)
  {
    var bin := if v6 then "ip6tables" else "iptables";
    var gateway := if v6 then n.gateway6 else n.gateway4;
    var after := Applied(tables, PlanOf(n, port));
    AppliedRules(tables, n, port, bin, DOCKER_USER);
    AppliedRules(tables, n, port, bin, INPUT);
    OwnChains(tables, n, port, v6);
    ForwardRejects(after[bin], p, depth - 1, v6);
    InputRejects(after[bin], p, depth - 1, gateway, port, v6);
  }

  /** Kimono's own chains are there, with their rules. */
  lemma OwnChains(tables: Tables, n: SandboxNet, port: int, v6: bool)
    requires HasTables(tables, n) && (v6 ==> n.subnet6 != "")
    ensures var bin := if v6 then "ip6tables" else "iptables";
            var after := Applied(tables, PlanOf(n, port));
            && HasChain(after, bin, FORWARD_CHAIN) && after[bin][FORWARD_CHAIN] == ForwardRules(v6)
            && HasChain(after, bin, INPUT_CHAIN)
            && after[bin][INPUT_CHAIN] == InputRules(if v6 then n.gateway6 else n.gateway4, port, v6)
  {
    var bin := if v6 then "ip6tables" else "iptables";
    AppliedRules(tables, n, port, bin, FORWARD_CHAIN);
    AppliedRules(tables, n, port, bin, INPUT_CHAIN);
  }
}
