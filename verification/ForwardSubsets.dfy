/**
 The subset test for client Forward rules (validateForwardRuleSubset in
 internal/config/forward.go) compares ranges one by one. It is sound; this
 module says for exactly which server lists it accepts everything harmless.
 */
module ForwardSubsets {
  import opened Addresses
  import opened PortRanges
  import opened ForwardPolicy

  // ---------------------------------------------------------------------
  // When the subset test is exact
  // ---------------------------------------------------------------------

  /** Every target the client list allows is allowed by the server's. */
  ghost predicate AllowsNoMore(global: seq<Rule>, child: seq<Rule>) {
    forall kind, a, port: nat | Matching(child, kind, a, port).Some? :: Matching(global, kind, a, port).Some?
  }

  /** No server range is finer than a client range it starts in. */
  ghost predicate NoFiner(global: seq<Rule>, child: seq<Rule>) {
    forall g <- global, c <- child | g.range.Parsed? && c.range.Parsed? && Contains(c.range.prefix, BaseOf(g.range.prefix)) ::
      g.range.prefix.bits <= c.range.prefix.bits
  }

  ghost predicate PortsGapped(rules: seq<Rule>) { forall rule <- rules :: Gapped(rule.tcp) && Gapped(rule.udp) }

  /** The server rule that has the base of a client range has all of it. */
  lemma BaseRuleIsShorter(global: seq<Rule>, child: seq<Rule>, c: Rule, g: Rule)
    requires NoFiner(global, child) && c in child && g in global && c.range.Parsed? && g.range.Parsed?
    requires Contains(g.range.prefix, BaseOf(c.range.prefix))
    ensures g.range.prefix.bits <= c.range.prefix.bits
  {
    var p, q := c.range.prefix, g.range.prefix;
    if p.bits < q.bits {
      CommonAddress(p, q, BaseOf(p));
    }
  }

  /** Ports the client may reach at the base of its range are all allowed by one and the same server rule. */
  lemma BasePortsAllowed(global: seq<Rule>, child: seq<Rule>, c: Rule, g: Rule, kind: Kind, port: nat)
    requires ValidRules(global) && ValidRules(child) && AllowsNoMore(global, child) && c in child && g in global
    requires Includes(g, BaseOf(c.range.prefix)) && Member(port, PortsOf(c, kind))
    ensures Member(port, PortsOf(g, kind))
  {
    var a := BaseOf(c.range.prefix);
    assert Admits(c, kind, a, port);
    MatchingFinds(child, kind, a, port);
    MatchingFinds(global, kind, a, port);
    var found := Matching(global, kind, a, port).value;
    OneRuleAdmits(global, a, found, g);
  }

  lemma BaseRule(global: seq<Rule>, child: seq<Rule>, c: Rule) returns (g: Rule)
    requires ValidRules(global) && ValidRules(child) && AllowsNoMore(global, child) && c in child
    ensures g in global && Includes(g, BaseOf(c.range.prefix))
  {
    assert WellFormed(c);
    var kind := if c.tcp != [] then Tcp else Udp;
    var a, first := BaseOf(c.range.prefix), PortsOf(c, kind)[0];
    assert first in PortsOf(c, kind) && InRange(first.start, first);
    assert Admits(c, kind, a, first.start);
    MatchingFinds(child, kind, a, first.start);
    MatchingFinds(global, kind, a, first.start);
    g := Matching(global, kind, a, first.start).value;
  }

  lemma RangesLieWithin(child: seq<PortRange>, parent: seq<PortRange>)
    requires Sorted(child) && Sorted(parent) && Gapped(parent)
    requires forall port | Member(port, child) :: Member(port, parent)
    ensures RangesWithin(child, parent)
  {
    forall c <- child ensures exists r <- parent :: Within(c, r) {
      forall port | c.start <= port <= c.end ensures Member(port, parent) {
        assert InRange(port, c);
        assert Member(port, child);
      }
      var r := IntervalInOneRange(parent, c);
    }
  }

  /** A server rule that has the whole client range covers the client rule. */
  lemma WholeRangeIsCovered(global: seq<Rule>, child: seq<Rule>, c: Rule, g: Rule)
    requires ValidRules(global) && ValidRules(child) && PortsGapped(global) && AllowsNoMore(global, child)
    requires c in child && g in global && Includes(g, BaseOf(c.range.prefix)) && g.range.prefix.bits <= c.range.prefix.bits
    ensures CoveredBy(c, g)
  {
    forall kind: Kind, port | Member(port, PortsOf(c, kind)) ensures Member(port, PortsOf(g, kind)) {
      BasePortsAllowed(global, child, c, g, kind, port);
    }
    assert WellFormed(c) && WellFormed(g);
    assert PortsOf(c, Tcp) == c.tcp && PortsOf(c, Udp) == c.udp && PortsOf(g, Tcp) == g.tcp && PortsOf(g, Udp) == g.udp;
    RangesLieWithin(c.tcp, g.tcp);
    RangesLieWithin(c.udp, g.udp);
  }

  lemma AcceptedAllowsNoMore(global: seq<Rule>, child: seq<Rule>)
    requires ValidRules(global) && ValidRules(child) && SubsetTest(global, child)
    ensures AllowsNoMore(global, child)
  {
    forall kind, a, port: nat | Matching(child, kind, a, port).Some? ensures Matching(global, kind, a, port).Some? {
      SubsetIsSound(global, child, kind, a, port);
    }
  }

  /**
   For server lists whose port ranges have gaps between them and whose ranges
   are nowhere finer than the client's, the test accepts a client list exactly
   if it allows nothing the server's does not.
   */
  lemma SubsetTestIsExact(global: seq<Rule>, child: seq<Rule>)
    requires ValidRules(global) && ValidRules(child) && PortsGapped(global) && NoFiner(global, child)
    ensures SubsetTest(global, child) <==> AllowsNoMore(global, child)
  {
    if SubsetTest(global, child) {
      AcceptedAllowsNoMore(global, child);
    }
    if AllowsNoMore(global, child) {
      forall c <- child ensures exists g <- global :: CoveredBy(c, g) {
        var g := BaseRule(global, child, c);
        BaseRuleIsShorter(global, child, c, g);
        WholeRangeIsCovered(global, child, c, g);
      }
    }
  }

  // ---------------------------------------------------------------------
  // Each condition is needed
  // ---------------------------------------------------------------------

  lemma OneRuleIsValid(rule: Rule)
    requires WellFormed(rule)
    ensures ValidRules([rule])
  {
  }

  lemma OneRuleMatches(rule: Rule, kind: Kind, a: Address, port: nat)
    ensures Matching([rule], kind, a, port).Some? <==> Admits(rule, kind, a, port)
  {
    assert [rule][1..] == [];
  }

  /** A rule for one kind of traffic. */
  function RuleFor(range: IPRange, kind: Kind, ports: PortRange): Rule {
    if kind.Tcp? then Rule(range, [ports], []) else Rule(range, [], [ports])
  }

  lemma RuleForAdmits(range: IPRange, kind: Kind, ports: PortRange, other: Kind, a: Address, port: nat)
    requires !kind.Unsupported?
    ensures Admits(RuleFor(range, kind, ports), other, a, port) <==>
      other == kind && range.Parsed? && Contains(range.prefix, a) && InRange(port, ports)
  {
    assert ports in PortsOf(RuleFor(range, kind, ports), kind);
  }

  /** The client range over two adjacent server ranges. */
  function Span(ranges: seq<PortRange>, i: nat): PortRange
    requires i + 1 < |ranges|
  {
    PortRange(ranges[i].start, ranges[i + 1].end)
  }

  lemma SpannedPorts(ranges: seq<PortRange>, i: nat, port: nat)
    requires i + 1 < |ranges| && ranges[i].end + 1 == ranges[i + 1].start && InRange(port, Span(ranges, i))
    ensures Member(port, ranges)
  {
    assert InRange(port, ranges[i]) || InRange(port, ranges[i + 1]);
    assert ranges[i] in ranges && ranges[i + 1] in ranges;
  }

  lemma SpanningIsInNoRange(ranges: seq<PortRange>, i: nat)
    requires Sorted(ranges) && i + 1 < |ranges|
    ensures !RangesWithin([Span(ranges, i)], ranges)
  {
    var span := Span(ranges, i);
    forall r <- ranges ensures !Within(span, r) {
      var k :| 0 <= k < |ranges| && ranges[k] == r;
      if k > i {
        assert ranges[i].end < ranges[k].start;
      } else if k < i {
        assert ranges[k].end < ranges[i].start;
      } else {
        assert ranges[i].end < ranges[i + 1].start;
      }
    }
    assert span in [span];
  }

  /** Wherever two server ranges are adjacent, the harmless client rule that spans them is refused. */
  lemma AdjacentRangesAreRefused(global: seq<Rule>, g: Rule, kind: Kind, i: nat)
    requires ValidRules(global) && g in global && i + 1 < |PortsOf(g, kind)|
    requires PortsOf(g, kind)[i].end + 1 == PortsOf(g, kind)[i + 1].start
    ensures var child := [RuleFor(g.range, kind, Span(PortsOf(g, kind), i))];
      ValidRules(child) && AllowsNoMore(global, child) && !SubsetTest(global, child)
  {
    var ports := PortsOf(g, kind);
    var c := RuleFor(g.range, kind, Span(ports, i));
    assert WellFormed(g) && Sorted(ports) && ValidRange(ports[i]) && ValidRange(ports[i + 1]);
    OneRuleIsValid(c);
    forall other, a, port: nat | Matching([c], other, a, port).Some? ensures Matching(global, other, a, port).Some? {
      OneRuleMatches(c, other, a, port);
      RuleForAdmits(g.range, kind, Span(ports, i), other, a, port);
      SpannedPorts(ports, i, port);
      assert Admits(g, kind, a, port);
      MatchingFinds(global, kind, a, port);
    }
    SpanningIsInNoRange(ports, i);
    forall other <- global ensures !CoveredBy(c, other) {
      if CoveredBy(c, other) {
        OneRuleAdmits(global, BaseOf(c.range.prefix), other, g);
      }
    }
    assert c in [c];
  }

  /** The client rule for one port of a prefix. */
  function OnePortRule(prefix: IPPrefix, kind: Kind, port: nat): Rule {
    RuleFor(Parsed(prefix, true), kind, PortRange(port, port))
  }

  /** The rules are for the two halves of a prefix and allow a port in common. */
  ghost predicate Split(low: Rule, high: Rule, kind: Kind, port: nat) {
    && low.range.Parsed? && high.range.Parsed? && Siblings(low.range.prefix, high.range.prefix)
    && Member(port, PortsOf(low, kind)) && Member(port, PortsOf(high, kind))
  }

  lemma HalvesAdmit(global: seq<Rule>, low: Rule, high: Rule, kind: Kind, port: nat, a: Address)
    requires ValidRules(global) && low in global && high in global && Split(low, high, kind, port)
    requires Contains(Parent(low.range.prefix), a)
    ensures Matching(global, kind, a, port).Some?
  {
    SiblingsMakeParent(low.range.prefix, high.range.prefix, a);
    assert Admits(low, kind, a, port) || Admits(high, kind, a, port);
    MatchingFinds(global, kind, a, port);
  }

  lemma HalvesAllow(global: seq<Rule>, low: Rule, high: Rule, kind: Kind, port: nat)
    requires ValidRules(global) && low in global && high in global && Split(low, high, kind, port)
    ensures AllowsNoMore(global, [OnePortRule(Parent(low.range.prefix), kind, port)])
  {
    var whole := Parent(low.range.prefix);
    var c := OnePortRule(whole, kind, port);
    forall other, a, p: nat | Matching([c], other, a, p).Some? ensures Matching(global, other, a, p).Some? {
      OneRuleMatches(c, other, a, p);
      RuleForAdmits(Parsed(whole, true), kind, PortRange(port, port), other, a, p);
      HalvesAdmit(global, low, high, kind, port, a);
    }
  }

  lemma ParentIsUncovered(global: seq<Rule>, low: Rule, c: Rule)
    requires Unambiguous(global) && low in global && low.range.Parsed? && low.range.prefix.bits > 0
    requires c.range == Parsed(Parent(low.range.prefix), true)
    ensures !SubsetTest(global, [c])
  {
    forall g <- global ensures !CoveredBy(c, g) {
      if CoveredBy(c, g) {
        Covers(g.range.prefix, c.range.prefix, BaseOf(low.range.prefix));
        OneRuleAdmits(global, BaseOf(low.range.prefix), g, low);
      }
    }
    assert c in [c];
  }

  /** Wherever the server splits a prefix in two and allows a port in both, the harmless rule for the whole is refused. */
  lemma HalvesAreRefused(global: seq<Rule>, low: Rule, high: Rule, kind: Kind, port: nat)
    requires ValidRules(global) && low in global && high in global && Split(low, high, kind, port)
    ensures var child := [OnePortRule(Parent(low.range.prefix), kind, port)];
      ValidRules(child) && AllowsNoMore(global, child) && !SubsetTest(global, child)
  {
    var c := OnePortRule(Parent(low.range.prefix), kind, port);
    assert WellFormed(low) && Sorted(PortsOf(low, kind)) && port >= 1;
    OneRuleIsValid(c);
    HalvesAllow(global, low, high, kind, port);
    ParentIsUncovered(global, low, c);
  }

  // ---------------------------------------------------------------------
  // Together they are the exact condition
  // ---------------------------------------------------------------------

  ghost predicate NothingSplit(rules: seq<Rule>) {
    forall low <- rules, high <- rules, kind, port: nat :: !Split(low, high, kind, port)
  }

  ghost predicate AllowedThroughout(rules: seq<Rule>, p: IPPrefix, kind: Kind, port: nat) {
    forall a | Contains(p, a) :: exists g <- rules :: Admits(g, kind, a, port)
  }

  /** One rule has all of the prefix and the port. */
  ghost predicate HasAll(rule: Rule, p: IPPrefix, kind: Kind, port: nat) {
    Admits(rule, kind, BaseOf(p), port) && rule.range.prefix.bits <= p.bits
  }

  lemma AllowedInPart(rules: seq<Rule>, p: IPPrefix, part: IPPrefix, kind: Kind, port: nat)
    requires AllowedThroughout(rules, p, kind, port)
    requires p.width == part.width && p.bits <= part.bits && Contains(p, BaseOf(part))
    ensures AllowedThroughout(rules, part, kind, port)
  {
    forall a | Contains(part, a) ensures exists g <- rules :: Admits(g, kind, a, port) {
      Covers(p, part, a);
    }
  }

  /** A rule that has all of one half of a prefix has all of the prefix, or is for that half. */
  lemma HasHalf(rule: Rule, p: IPPrefix, half: IPPrefix, kind: Kind, port: nat)
    requires HasAll(rule, half, kind, port) && half.width == p.width && half.bits == p.bits + 1 && Contains(p, BaseOf(half))
    ensures HasAll(rule, p, kind, port) || rule.range.prefix.bits == half.bits
  {
    if rule.range.prefix.bits <= p.bits {
      ShiftFurther(half.base, p.base, HostBits(p), HostBits(rule.range.prefix));
    }
  }

  /** Where no prefix is split, a port that is allowed all over a prefix is allowed by one rule that has all of it. */
  lemma {:induction false} OneRuleHasAll(rules: seq<Rule>, p: IPPrefix, kind: Kind, port: nat) returns (g: Rule)
    requires NothingSplit(rules) && AllowedThroughout(rules, p, kind, port)
    ensures g in rules && HasAll(g, p, kind, port)
    decreases p.width - p.bits
  {
    if p.bits == p.width {
      assert Contains(p, BaseOf(p));
      g :| g in rules && Admits(g, kind, BaseOf(p), port);
    } else {
      var first, second := OtherHalf(p);
      AllowedInPart(rules, p, first, kind, port);
      AllowedInPart(rules, p, second, kind, port);
      var left := OneRuleHasAll(rules, first, kind, port);
      var right := OneRuleHasAll(rules, second, kind, port);
      HasHalf(left, p, first, kind, port);
      HasHalf(right, p, second, kind, port);
      if !HasAll(left, p, kind, port) && !HasAll(right, p, kind, port) {
        HalvesAreSiblings(p, left.range.prefix, right.range.prefix, first, second);
        assert Split(left, right, kind, port);
      }
      g := if HasAll(left, p, kind, port) then left else right;
    }
  }

  lemma ChildRangeAllowed(global: seq<Rule>, child: seq<Rule>, c: Rule, kind: Kind, port: nat)
    requires ValidRules(global) && ValidRules(child) && AllowsNoMore(global, child) && c in child && c.range.Parsed?
    requires Member(port, PortsOf(c, kind))
    ensures AllowedThroughout(global, c.range.prefix, kind, port)
  {
    forall a | Contains(c.range.prefix, a) ensures exists g <- global :: Admits(g, kind, a, port) {
      assert Admits(c, kind, a, port);
      MatchingFinds(child, kind, a, port);
      MatchingFinds(global, kind, a, port);
    }
  }

  lemma HarmlessIsCovered(global: seq<Rule>, child: seq<Rule>, c: Rule)
    requires ValidRules(global) && ValidRules(child) && PortsGapped(global) && NothingSplit(global)
    requires AllowsNoMore(global, child) && c in child
    ensures exists g <- global :: CoveredBy(c, g)
  {
    assert WellFormed(c);
    var kind := if c.tcp != [] then Tcp else Udp;
    var ports := PortsOf(c, kind);
    assert ports[0] in ports && InRange(ports[0].start, ports[0]);
    ChildRangeAllowed(global, child, c, kind, ports[0].start);
    var g := OneRuleHasAll(global, c.range.prefix, kind, ports[0].start);
    WholeRangeIsCovered(global, child, c, g);
  }

  /** The test decides exactly whether the client list is harmless, whatever the client declares. */
  ghost predicate Decides(global: seq<Rule>) {
    forall child | ValidRules(child) :: SubsetTest(global, child) <==> AllowsNoMore(global, child)
  }

  lemma UngappedMeansAdjacent(ranges: seq<PortRange>) returns (i: nat)
    requires Sorted(ranges) && !Gapped(ranges)
    ensures i + 1 < |ranges| && ranges[i].end + 1 == ranges[i + 1].start
  {
    var j: nat;
    i, j :| i < j < |ranges| && ranges[i].end + 1 >= ranges[j].start;
    assert ranges[i].end < ranges[i + 1].start && ValidRange(ranges[i + 1]);
    assert j == i + 1;
  }

  lemma GappedDecides(global: seq<Rule>, child: seq<Rule>)
    requires ValidRules(global) && PortsGapped(global) && NothingSplit(global) && ValidRules(child)
    ensures SubsetTest(global, child) <==> AllowsNoMore(global, child)
  {
    if SubsetTest(global, child) {
      AcceptedAllowsNoMore(global, child);
    }
    if AllowsNoMore(global, child) {
      forall c <- child ensures exists g <- global :: CoveredBy(c, g) {
        HarmlessIsCovered(global, child, c);
      }
    }
  }

  lemma RefusedIsUndecided(global: seq<Rule>, child: seq<Rule>)
    requires ValidRules(child) && AllowsNoMore(global, child) && !SubsetTest(global, child)
    ensures !Decides(global)
  {
  }

  lemma AdjacentIsUndecided(global: seq<Rule>, g: Rule, kind: Kind)
    requires ValidRules(global) && g in global && !Gapped(PortsOf(g, kind))
    ensures !Decides(global)
  {
    assert WellFormed(g);
    var i := UngappedMeansAdjacent(PortsOf(g, kind));
    AdjacentRangesAreRefused(global, g, kind, i);
    RefusedIsUndecided(global, [RuleFor(g.range, kind, Span(PortsOf(g, kind), i))]);
  }

  lemma SplitIsUndecided(global: seq<Rule>, low: Rule, high: Rule, kind: Kind, port: nat)
    requires ValidRules(global) && low in global && high in global && Split(low, high, kind, port)
    ensures !Decides(global)
  {
    HalvesAreRefused(global, low, high, kind, port);
    RefusedIsUndecided(global, [OnePortRule(Parent(low.range.prefix), kind, port)]);
  }

  /**
   The test is exact for every client list if and only if the server's port
   ranges have gaps between them and no prefix is split into two rules that
   allow a port in common.
   */
  lemma DecidesIff(global: seq<Rule>)
    requires ValidRules(global)
    ensures Decides(global) <==> PortsGapped(global) && NothingSplit(global)
  {
    if !PortsGapped(global) {
      var g :| g in global && !(Gapped(g.tcp) && Gapped(g.udp));
      AdjacentIsUndecided(global, g, if !Gapped(g.tcp) then Tcp else Udp);
    } else if !NothingSplit(global) {
      var low, high, kind, port: nat :| low in global && high in global && Split(low, high, kind, port);
      SplitIsUndecided(global, low, high, kind, port);
    } else {
      forall child | ValidRules(child) ensures SubsetTest(global, child) <==> AllowsNoMore(global, child) {
        GappedDecides(global, child);
      }
    }
  }
}
