/**
 Forward rules (internal/config/forward.go): which targets a rule list allows,
 why the order of a validated list does not matter, and why an accepted client
 list never allows more than the server's.
 */
module ForwardPolicy {
  import opened Addresses
  import opened PortRanges
  import opened Options

  /** A parsed range is canonical if its text is the parsed value's own text. */
  datatype IPRange = Malformed | Parsed(prefix: IPPrefix, canonical: bool)

  datatype Rule = Rule(range: IPRange, tcp: seq<PortRange>, udp: seq<PortRange>)

  datatype Kind = Tcp | Udp | Unsupported

  function PortsOf(rule: Rule, kind: Kind): seq<PortRange> {
    match kind
    case Tcp => rule.tcp
    case Udp => rule.udp
    case Unsupported => []
  }

  predicate Includes(rule: Rule, a: Address) { rule.range.Parsed? && Contains(rule.range.prefix, a) }

  /** The rule allows this target. */
  ghost predicate Admits(rule: Rule, kind: Kind, a: Address, port: nat) {
    Includes(rule, a) && Member(port, PortsOf(rule, kind))
  }

  // ---------------------------------------------------------------------
  // Validation
  // ---------------------------------------------------------------------

  ghost predicate WellFormed(rule: Rule) {
    && rule.range.Parsed? && rule.range.canonical && Aligned(rule.range.prefix)
    && (rule.tcp != [] || rule.udp != []) && Sorted(rule.tcp) && Sorted(rule.udp)
  }

  /** No address is in the ranges of two rules. */
  ghost predicate Unambiguous(rules: seq<Rule>) {
    forall i, j, a | 0 <= i < j < |rules| :: !(Includes(rules[i], a) && Includes(rules[j], a))
  }

  ghost predicate ValidRules(rules: seq<Rule>) {
    (forall rule <- rules :: WellFormed(rule)) && Unambiguous(rules)
  }

  predicate BasesMeet(p: IPPrefix, q: IPPrefix) { Contains(q, BaseOf(p)) || Contains(p, BaseOf(q)) }

  lemma BasesMeetIffShared(left: Rule, right: Rule)
    requires left.range.Parsed? && right.range.Parsed?
    ensures BasesMeet(left.range.prefix, right.range.prefix) <==> exists a :: Includes(left, a) && Includes(right, a)
  {
    var p, q := left.range.prefix, right.range.prefix;
    BasesDetectOverlap(p, q);
    if Overlap(p, q) {
      var a :| Contains(p, a) && Contains(q, a);
      assert Includes(left, a) && Includes(right, a);
    }
  }

  /** Whether the rule's base meets one of the earlier ones. */
  method MeetsEarlier(rules: seq<Rule>, index: nat) returns (meets: bool)
    requires index < |rules| && forall k | 0 <= k <= index :: rules[k].range.Parsed?
    ensures meets <==> exists k, a | 0 <= k < index :: Includes(rules[k], a) && Includes(rules[index], a)
  {
    var prefix := rules[index].range.prefix;
    for k := 0 to index
      invariant forall l, a | 0 <= l < k :: !(Includes(rules[l], a) && Includes(rules[index], a))
    {
      BasesMeetIffShared(rules[k], rules[index]);
      if Contains(rules[k].range.prefix, BaseOf(prefix)) || Contains(prefix, BaseOf(rules[k].range.prefix)) {
        return true;
      }
    }
    return false;
  }

  /** Accepts exactly well-formed rules of which no two share an address, although it compares base addresses only. */
  method ValidateForwardRules(rules: seq<Rule>) returns (ok: bool)
    ensures ok <==> ValidRules(rules)
  {
    for i := 0 to |rules|
      invariant forall k | 0 <= k < i :: WellFormed(rules[k])
      invariant forall k, l, a | 0 <= k < l < i :: !(Includes(rules[k], a) && Includes(rules[l], a))
    {
      var rule := rules[i];
      assert rule in rules;
      if rule.range.Malformed? || !rule.range.canonical || !Aligned(rule.range.prefix) {
        return false;
      }
      if rule.tcp == [] && rule.udp == [] {
        return false;
      }
      var tcp := ValidateSortedPortRanges(rule.tcp);
      if !tcp {
        return false;
      }
      var udp := ValidateSortedPortRanges(rule.udp);
      if !udp {
        return false;
      }
      var meets := MeetsEarlier(rules, i);
      if meets {
        return false;
      }
    }
    return true;
  }

  // ---------------------------------------------------------------------
  // Matching
  // ---------------------------------------------------------------------

  /** The first rule whose range has the address decides. */
  ghost function Matching(rules: seq<Rule>, kind: Kind, a: Address, port: nat): Option<Rule> {
    if rules == [] then None
    else if Includes(rules[0], a) then if Member(port, PortsOf(rules[0], kind)) then Some(rules[0]) else None
    else Matching(rules[1..], kind, a, port)
  }

  method HasPort(ranges: seq<PortRange>, port: nat) returns (found: bool)
    ensures found <==> Member(port, ranges)
  {
    for i := 0 to |ranges|
      invariant forall k | 0 <= k < i :: !InRange(port, ranges[k])
    {
      if port >= ranges[i].start && port <= ranges[i].end {
        assert ranges[i] in ranges && InRange(port, ranges[i]);
        return true;
      }
    }
    return false;
  }

  method MatchingForwardRule(rules: seq<Rule>, kind: Kind, target: Option<Address>, port: nat)
    returns (matched: Option<Rule>)
    ensures matched == if target.None? || port == 0 then None else Matching(rules, kind, target.value, port)
  {
    if target.None? || port == 0 {
      return None;
    }
    var a := target.value;
    for i := 0 to |rules|
      invariant Matching(rules, kind, a, port) == Matching(rules[i..], kind, a, port)
    {
      if Includes(rules[i], a) {
        var found := HasPort(PortsOf(rules[i], kind), port);
        return if found then Some(rules[i]) else None;
      }
      assert rules[i..][1..] == rules[i + 1..];
    }
    return None;
  }

  lemma {:induction false} MatchingFinds(rules: seq<Rule>, kind: Kind, a: Address, port: nat)
    requires Unambiguous(rules)
    ensures Matching(rules, kind, a, port).Some? <==> exists rule <- rules :: Admits(rule, kind, a, port)
    ensures Matching(rules, kind, a, port).Some? ==>
      var rule := Matching(rules, kind, a, port).value; rule in rules && Admits(rule, kind, a, port)
  {
    if rules != [] {
      var first, rest := rules[0], rules[1..];
      assert rules == [first] + rest;
      assert forall i | 0 <= i < |rest| :: rest[i] == rules[i + 1];
      assert first in rules && forall rule <- rules :: rule == first || rule in rest;
      if Includes(first, a) {
        forall rule <- rest ensures !Includes(rule, a) {
          var i :| 0 <= i < |rest| && rest[i] == rule;
          assert !(Includes(rules[0], a) && Includes(rules[i + 1], a));
        }
      } else {
        MatchingFinds(rest, kind, a, port);
      }
    }
  }

  /** At most one rule of a validated list has the address, so the rule that is found is the only one there is. */
  lemma OneRuleAdmits(rules: seq<Rule>, a: Address, left: Rule, right: Rule)
    requires Unambiguous(rules) && left in rules && right in rules && Includes(left, a) && Includes(right, a)
    ensures left == right
  {
    var i :| 0 <= i < |rules| && rules[i] == left;
    var j :| 0 <= j < |rules| && rules[j] == right;
    assert i == j;
  }

  /** Two validated lists of the same rules, in any order, match every target to the same rule. */
  lemma OrderDoesNotMatter(rules: seq<Rule>, other: seq<Rule>, kind: Kind, a: Address, port: nat)
    requires ValidRules(rules) && ValidRules(other) && forall rule :: rule in rules <==> rule in other
    ensures Matching(rules, kind, a, port) == Matching(other, kind, a, port)
  {
    MatchingFinds(rules, kind, a, port);
    MatchingFinds(other, kind, a, port);
    if Matching(rules, kind, a, port).Some? {
      assert exists rule <- other :: Admits(rule, kind, a, port);
      OneRuleAdmits(rules, a, Matching(rules, kind, a, port).value, Matching(other, kind, a, port).value);
    }
  }

  // ---------------------------------------------------------------------
  // Subsets
  // ---------------------------------------------------------------------

  /** One server rule covers the client rule: its range is as short or shorter and has the base, its ports hold the ports. */
  ghost predicate CoveredBy(child: Rule, parent: Rule) {
    && child.range.Parsed? && parent.range.Parsed?
    && Contains(parent.range.prefix, BaseOf(child.range.prefix))
    && parent.range.prefix.bits <= child.range.prefix.bits
    && RangesWithin(child.tcp, parent.tcp) && RangesWithin(child.udp, parent.udp)
  }

  ghost predicate SubsetTest(global: seq<Rule>, child: seq<Rule>) {
    forall c <- child :: exists g <- global :: CoveredBy(c, g)
  }

  /** A range that does not parse covers nothing and is covered by nothing. */
  method Covering(global: seq<Rule>, rule: Rule) returns (matched: bool)
    ensures matched <==> exists g <- global :: CoveredBy(rule, g)
  {
    for j := 0 to |global|
      invariant forall k | 0 <= k < j :: !CoveredBy(rule, global[k])
    {
      var g := global[j];
      assert g in global;
      if rule.range.Parsed? && g.range.Parsed? && Contains(g.range.prefix, BaseOf(rule.range.prefix)) &&
         g.range.prefix.bits <= rule.range.prefix.bits {
        var tcp := PortRangesAreSubset(rule.tcp, g.tcp);
        var udp := PortRangesAreSubset(rule.udp, g.udp);
        if tcp && udp {
          return true;
        }
      }
    }
    return false;
  }

  method ValidateForwardRuleSubset(global: seq<Rule>, child: seq<Rule>) returns (ok: bool)
    ensures ok <==> SubsetTest(global, child)
  {
    for i := 0 to |child|
      invariant forall k | 0 <= k < i :: exists g <- global :: CoveredBy(child[k], g)
    {
      assert child[i] in child;
      var matched := Covering(global, child[i]);
      if !matched {
        return false;
      }
    }
    return true;
  }

  lemma CoveringRuleAdmits(child: Rule, parent: Rule, kind: Kind, a: Address, port: nat)
    requires CoveredBy(child, parent) && Admits(child, kind, a, port)
    ensures Admits(parent, kind, a, port)
  {
    Covers(parent.range.prefix, child.range.prefix, a);
    WithinMeansMember(PortsOf(child, kind), PortsOf(parent, kind), port);
  }

  /** Whatever an accepted client list allows, the server's list allows: for every target there is. */
  lemma SubsetIsSound(global: seq<Rule>, child: seq<Rule>, kind: Kind, a: Address, port: nat)
    requires ValidRules(global) && ValidRules(child) && SubsetTest(global, child)
    requires Matching(child, kind, a, port).Some?
    ensures Matching(global, kind, a, port).Some?
  {
    MatchingFinds(child, kind, a, port);
    var rule := Matching(child, kind, a, port).value;
    var parent :| parent in global && CoveredBy(rule, parent);
    CoveringRuleAdmits(rule, parent, kind, a, port);
    MatchingFinds(global, kind, a, port);
  }
}
