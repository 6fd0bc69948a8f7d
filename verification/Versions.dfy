/**
 Release version order (internal/client/server_version.go), that is sections 9
 to 11 of SemVer 2.0.0 with an optional leading v: which texts are accepted,
 how two of them compare, and that this is the order of the numbers they denote.
 */
module Versions {
  import opened Options
  import opened Text

  // ---------------------------------------------------------------------
  // The accepted texts
  // ---------------------------------------------------------------------

  predicate IsDigit(c: char) { '0' <= c <= '9' }

  predicate IsIdentifierChar(c: char) { IsDigit(c) || 'A' <= c <= 'Z' || 'a' <= c <= 'z' || c == '-' }

  predicate IsDottedChar(c: char) { IsIdentifierChar(c) || c == '.' }

  predicate All(s: string, p: char -> bool) { forall i | 0 <= i < |s| :: p(s[i]) }

  /** 0, or digits without a leading zero. */
  predicate IsNumber(s: string) { s != "" && All(s, IsDigit) && (s == "0" || s[0] != '0') }

  /** The pieces between the dots. */
  function Split(s: string): (pieces: seq<string>)
    ensures |pieces| > 0
  {
    if s == "" then [""]
    else
      var rest := Split(s[1..]);
      if s[0] == '.' then [""] + rest else [[s[0]] + rest[0]] + rest[1..]
  }

  function Join(pieces: seq<string>): string
    requires |pieces| > 0
  {
    if |pieces| == 1 then pieces[0] else pieces[0] + "." + Join(pieces[1..])
  }

  /** One or more identifiers separated by dots. */
  predicate IsDotted(s: string) { All(s, IsDottedChar) && forall piece <- Split(s) :: piece != "" }

  /** What the pattern captures; an empty prerelease or build means there is none. */
  datatype Parts = Parts(prefixed: bool, major: string, minor: string, patch: string, prerelease: string, build: string)

  predicate WellFormed(p: Parts) {
    && IsNumber(p.major) && IsNumber(p.minor) && IsNumber(p.patch)
    && (p.prerelease == "" || IsDotted(p.prerelease)) && (p.build == "" || IsDotted(p.build))
  }

  function Render(p: Parts): string {
    (if p.prefixed then "v" else "") + RenderCore(p)
  }

  function RenderCore(p: Parts): string {
    p.major + "." + (p.minor + "." + (p.patch + RenderTail(p)))
  }

  function RenderTail(p: Parts): string {
    (if p.prerelease == "" then "" else "-" + p.prerelease) + (if p.build == "" then "" else "+" + p.build)
  }

  /** The length of the longest start of the text made of such characters. */
  function Span(s: string, p: char -> bool): (n: nat)
    ensures n <= |s| && All(s[..n], p) && (n < |s| ==> !p(s[n]))
  {
    if s == "" || !p(s[0]) then 0
    else
      var n := 1 + Span(s[1..], p);
      assert s[..n] == [s[0]] + s[1..][..n - 1];
      n
  }

  lemma {:induction false} SpanStops(a: string, b: string, p: char -> bool)
    requires All(a, p) && (b == "" || !p(b[0]))
    ensures Span(a + b, p) == |a|
  {
    if a == "" {
      assert a + b == b;
    } else {
      assert (a + b)[1..] == a[1..] + b;
      SpanStops(a[1..], b, p);
    }
  }

  /** A number followed by a dot, and what comes after. */
  function ParseNumber(s: string): Option<(string, string)> {
    var n := Span(s, IsDigit);
    if IsNumber(s[..n]) && n < |s| && s[n] == '.' then Some((s[..n], s[n + 1..])) else None
  }

  function ParseBuild(s: string): Option<string> {
    if s == "" then Some("")
    else if s[0] == '+' && IsDotted(s[1..]) && s[1..] != "" then Some(s[1..])
    else None
  }

  /** Prerelease and build. */
  function ParseTail(s: string): Option<(string, string)> {
    if s != "" && s[0] == '-' then
      var n := Span(s[1..], IsDottedChar);
      var prerelease, rest := s[1..][..n], s[1..][n..];
      if prerelease == "" || !IsDotted(prerelease) || ParseBuild(rest).None? then None
      else Some((prerelease, ParseBuild(rest).value))
    else if ParseBuild(s).None? then None
    else Some(("", ParseBuild(s).value))
  }

  /** A number, and prerelease and build after it. */
  function ParsePatch(s: string): Option<(string, string, string)> {
    var n := Span(s, IsDigit);
    var tail := ParseTail(s[n..]);
    if !IsNumber(s[..n]) || tail.None? then None else Some((s[..n], tail.value.0, tail.value.1))
  }

  function ParseCore(s: string, prefixed: bool): Option<Parts> {
    var major := ParseNumber(s);
    if major.None? then None
    else
      var minor := ParseNumber(major.value.1);
      if minor.None? then None
      else
        var patch := ParsePatch(minor.value.1);
        if patch.None? then None
        else Some(Parts(prefixed, major.value.0, minor.value.0, patch.value.0, patch.value.1, patch.value.2))
  }

  /** FindStringSubmatch with the version pattern. */
  function Parse(s: string): Option<Parts> {
    if s != "" && s[0] == 'v' then ParseCore(s[1..], true) else ParseCore(s, false)
  }

  // ---------------------------------------------------------------------
  // Parsing inverts rendering
  // ---------------------------------------------------------------------

  lemma ParsedNumber(s: string)
    requires ParseNumber(s).Some?
    ensures var (number, rest) := ParseNumber(s).value; IsNumber(number) && s == number + "." + rest
  {
    var n := Span(s, IsDigit);
    assert s == s[..n] + [s[n]] + s[n + 1..];
  }

  lemma RenderedNumber(number: string, rest: string)
    requires IsNumber(number)
    ensures ParseNumber(number + "." + rest) == Some((number, rest))
  {
    assert number + "." + rest == number + ("." + rest);
    SpanStops(number, "." + rest, IsDigit);
    assert (number + ("." + rest))[|number|] == '.';
  }

  lemma ParsedTail(s: string)
    requires ParseTail(s).Some?
    ensures var (prerelease, build) := ParseTail(s).value;
      && (prerelease == "" || IsDotted(prerelease)) && (build == "" || IsDotted(build))
      && s == RenderTail(Parts(false, "", "", "", prerelease, build))
  {
    if s != "" && s[0] == '-' {
      var n := Span(s[1..], IsDottedChar);
      var rest := s[1..][n..];
      assert s == "-" + s[1..][..n] + rest;
      assert rest != "" ==> rest == [rest[0]] + rest[1..];
    } else if s != "" {
      assert s == [s[0]] + s[1..];
    }
  }

  lemma RenderedBuild(build: string)
    requires build == "" || IsDotted(build)
    ensures ParseBuild(if build == "" then "" else "+" + build) == Some(build)
  {
    if build != "" {
      assert ("+" + build)[1..] == build;
    }
  }

  lemma RenderedTail(prerelease: string, build: string)
    requires (prerelease == "" || IsDotted(prerelease)) && (build == "" || IsDotted(build))
    ensures ParseTail(RenderTail(Parts(false, "", "", "", prerelease, build))) == Some((prerelease, build))
  {
    var tail := RenderTail(Parts(false, "", "", "", prerelease, build));
    var after := if build == "" then "" else "+" + build;
    RenderedBuild(build);
    if prerelease != "" {
      assert tail[1..] == prerelease + after;
      SpanStops(prerelease, after, IsDottedChar);
      assert (prerelease + after)[..|prerelease|] == prerelease && (prerelease + after)[|prerelease|..] == after;
    } else {
      assert tail == after;
    }
  }

  lemma ParsedPatch(s: string, p: Parts)
    requires ParsePatch(s) == Some((p.patch, p.prerelease, p.build))
    ensures IsNumber(p.patch) && (p.prerelease == "" || IsDotted(p.prerelease)) && (p.build == "" || IsDotted(p.build))
    ensures s == p.patch + RenderTail(p)
  {
    var n := Span(s, IsDigit);
    ParsedTail(s[n..]);
    assert s == s[..n] + s[n..];
  }

  lemma ParsedCore(s: string, prefixed: bool)
    requires ParseCore(s, prefixed).Some?
    ensures var p := ParseCore(s, prefixed).value; WellFormed(p) && p.prefixed == prefixed && s == RenderCore(p)
  {
    var p := ParseCore(s, prefixed).value;
    ParsedNumber(s);
    var minorText := ParseNumber(s).value.1;
    ParsedNumber(minorText);
    ParsedPatch(ParseNumber(minorText).value.1, p);
  }

  lemma TailStartsNoDigit(p: Parts)
    ensures RenderTail(p) == "" || !IsDigit(RenderTail(p)[0])
  {
  }

  lemma RenderedPatch(p: Parts)
    requires WellFormed(p)
    ensures ParsePatch(p.patch + RenderTail(p)) == Some((p.patch, p.prerelease, p.build))
  {
    var tail := RenderTail(p);
    TailStartsNoDigit(p);
    SpanStops(p.patch, tail, IsDigit);
    assert (p.patch + tail)[..|p.patch|] == p.patch && (p.patch + tail)[|p.patch|..] == tail;
    RenderedTail(p.prerelease, p.build);
  }

  lemma RenderedCore(p: Parts)
    requires WellFormed(p)
    ensures ParseCore(RenderCore(p), p.prefixed) == Some(p)
  {
    var rest := p.patch + RenderTail(p);
    RenderedNumber(p.major, p.minor + "." + rest);
    RenderedNumber(p.minor, rest);
    RenderedPatch(p);
  }

  /** The accepted texts are exactly the rendered versions, and each is accepted as the version it renders. */
  lemma ParseInvertsRender(s: string, p: Parts)
    ensures Parse(s) == Some(p) <==> WellFormed(p) && s == Render(p)
  {
    if Parse(s) == Some(p) {
      if s != "" && s[0] == 'v' {
        ParsedCore(s[1..], true);
        assert s == "v" + s[1..];
      } else {
        ParsedCore(s, false);
        assert "" + s == s;
      }
    }
    if WellFormed(p) && s == Render(p) {
      RenderedCore(p);
      if p.prefixed {
        assert s[1..] == RenderCore(p);
      } else {
        assert s == RenderCore(p) && s[0] == p.major[0];
      }
    }
  }

  // ---------------------------------------------------------------------
  // The comparison
  // ---------------------------------------------------------------------

  predicate IsVersionNumber(identifier: string) { identifier != "" && All(identifier, IsDigit) }

  function CompareLengths(left: nat, right: nat): int { if left < right then -1 else if left > right then 1 else 0 }

  /** Lengths first, then text. */
  function CompareNumbers(left: string, right: string): int {
    if |left| != |right| then CompareLengths(|left|, |right|) else Compare(left, right)
  }

  function CompareIdentifiers(left: string, right: string): int {
    if IsVersionNumber(left) && IsVersionNumber(right) then CompareNumbers(left, right)
    else if IsVersionNumber(left) then -1
    else if IsVersionNumber(right) then 1
    else Compare(left, right)
  }

  /** The first difference decides; without one, the longer list is the greater. */
  function CompareLists(left: seq<string>, right: seq<string>): int {
    if left == [] || right == [] then CompareLengths(|left|, |right|)
    else if CompareIdentifiers(left[0], right[0]) != 0 then CompareIdentifiers(left[0], right[0])
    else CompareLists(left[1..], right[1..])
  }

  function ComparePrereleases(left: string, right: string): int {
    if left == right then 0
    else if left == "" then 1
    else if right == "" then -1
    else CompareLists(Split(left), Split(right))
  }

  function CompareParts(left: Parts, right: Parts): int {
    if CompareNumbers(left.major, right.major) != 0 then CompareNumbers(left.major, right.major)
    else if CompareNumbers(left.minor, right.minor) != 0 then CompareNumbers(left.minor, right.minor)
    else if CompareNumbers(left.patch, right.patch) != 0 then CompareNumbers(left.patch, right.patch)
    else ComparePrereleases(left.prerelease, right.prerelease)
  }

  /** Numeric prerelease identifiers must not have leading zeroes. */
  predicate Comparable(p: Parts) {
    forall identifier <- Split(p.prerelease) ::
      !(IsVersionNumber(identifier) && |identifier| > 1 && identifier[0] == '0')
  }

  function CompareReleaseVersions(client: string, server: string): Option<int> {
    var left, right := Parse(client), Parse(server);
    if left.None? || right.None? || !Comparable(left.value) || !Comparable(right.value) then None
    else Some(CompareParts(left.value, right.value))
  }

  // ---------------------------------------------------------------------
  // Numbers compare by value
  // ---------------------------------------------------------------------

  function Pow10(k: nat): nat { if k == 0 then 1 else 10 * Pow10(k - 1) }

  /** The number a digit string denotes. */
  function Value(s: string): nat
    requires All(s, IsDigit)
  {
    if s == "" then 0 else (s[0] - '0') as int * Pow10(|s| - 1) + Value(s[1..])
  }

  lemma {:induction false} ValueIsBounded(s: string)
    requires All(s, IsDigit)
    ensures Value(s) < Pow10(|s|)
  {
    if s != "" {
      ValueIsBounded(s[1..]);
      DigitBound((s[0] - '0') as int, Pow10(|s| - 1), Value(s[1..]));
    }
  }

  lemma DigitBound(digit: nat, power: nat, rest: nat)
    requires digit <= 9 && rest < power
    ensures digit * power + rest < 10 * power
  {
  }

  lemma LeadingDigit(s: string)
    requires All(s, IsDigit) && s != "" && s[0] != '0'
    ensures Value(s) >= Pow10(|s| - 1)
  {
    var digit: nat, power := (s[0] - '0') as int, Pow10(|s| - 1);
    assert digit * power >= power;
  }

  lemma {:induction false} PowGrows(j: nat, k: nat)
    requires j <= k
    ensures Pow10(j) <= Pow10(k)
    decreases k
  {
    if j < k {
      PowGrows(j, k - 1);
    }
  }

  lemma LesserDigit(a: nat, b: nat, power: nat, x: nat, y: nat)
    requires a < b && x < power
    ensures a * power + x < b * power + y
  {
    assert (a + 1) * power <= b * power;
  }

  /** Digit strings of one length compare as texts exactly as their values do. */
  lemma {:induction false} SameLengthByValue(left: string, right: string)
    requires All(left, IsDigit) && All(right, IsDigit) && |left| == |right|
    ensures Compare(left, right) < 0 <==> Value(left) < Value(right)
    ensures Compare(left, right) == 0 <==> Value(left) == Value(right)
  {
    if left != "" {
      var power := Pow10(|left| - 1);
      ValueIsBounded(left[1..]);
      ValueIsBounded(right[1..]);
      if left[0] < right[0] {
        LesserDigit((left[0] - '0') as int, (right[0] - '0') as int, power, Value(left[1..]), Value(right[1..]));
      } else if right[0] < left[0] {
        LesserDigit((right[0] - '0') as int, (left[0] - '0') as int, power, Value(right[1..]), Value(left[1..]));
      } else {
        SameLengthByValue(left[1..], right[1..]);
      }
    }
  }

  lemma ShorterIsLess(left: string, right: string)
    requires IsNumber(left) && IsNumber(right) && |left| < |right|
    ensures Value(left) < Value(right)
  {
    ValueIsBounded(left);
    LeadingDigit(right);
    PowGrows(|left|, |right| - 1);
  }

  /** Length and then text is the numeric order, for numbers of any size. */
  lemma NumbersCompareByValue(left: string, right: string)
    requires IsNumber(left) && IsNumber(right)
    ensures CompareNumbers(left, right) < 0 <==> Value(left) < Value(right)
    ensures CompareNumbers(left, right) == 0 <==> Value(left) == Value(right)
  {
    if |left| < |right| {
      ShorterIsLess(left, right);
    } else if |right| < |left| {
      ShorterIsLess(right, left);
    } else {
      SameLengthByValue(left, right);
    }
  }

  // ---------------------------------------------------------------------
  // A total preorder
  // ---------------------------------------------------------------------

  lemma NumbersOrder(a: string, b: string, c: string)
    ensures CompareNumbers(a, b) == -CompareNumbers(b, a)
    ensures CompareNumbers(a, b) == 0 <==> a == b
    ensures CompareNumbers(a, b) <= 0 && CompareNumbers(b, c) <= 0 ==> CompareNumbers(a, c) <= 0
  {
    CompareIsAntisymmetric(a, b);
    CompareIsZeroOnlyOnEqual(a, b);
    if |a| == |b| == |c| && Compare(a, b) <= 0 && Compare(b, c) <= 0 {
      CompareIsTransitive(a, b, c);
    }
  }

  lemma IdentifiersOrder(a: string, b: string, c: string)
    ensures CompareIdentifiers(a, b) == -CompareIdentifiers(b, a)
    ensures CompareIdentifiers(a, b) == 0 <==> a == b
    ensures CompareIdentifiers(a, b) <= 0 && CompareIdentifiers(b, c) <= 0 ==> CompareIdentifiers(a, c) <= 0
  {
    NumbersOrder(a, b, c);
    CompareIsAntisymmetric(a, b);
    CompareIsZeroOnlyOnEqual(a, b);
    if Compare(a, b) <= 0 && Compare(b, c) <= 0 {
      CompareIsTransitive(a, b, c);
    }
  }

  lemma {:induction false} ListsAntisymmetric(a: seq<string>, b: seq<string>)
    ensures CompareLists(a, b) == -CompareLists(b, a)
    ensures CompareLists(a, b) == 0 <==> a == b
  {
    if a != [] && b != [] {
      IdentifiersOrder(a[0], b[0], a[0]);
      ListsAntisymmetric(a[1..], b[1..]);
      assert a == [a[0]] + a[1..] && b == [b[0]] + b[1..];
    }
  }

  lemma {:induction false} ListsTransitive(a: seq<string>, b: seq<string>, c: seq<string>)
    requires CompareLists(a, b) <= 0 && CompareLists(b, c) <= 0
    ensures CompareLists(a, c) <= 0
  {
    if a != [] && b != [] && c != [] {
      IdentifiersOrder(a[0], b[0], c[0]);
      IdentifiersOrder(b[0], c[0], a[0]);
      IdentifiersOrder(a[0], c[0], b[0]);
      if a[0] == b[0] == c[0] {
        ListsTransitive(a[1..], b[1..], c[1..]);
      }
    }
  }

  /** Different texts split into different pieces. */
  lemma {:induction false} JoinInvertsSplit(s: string)
    ensures Join(Split(s)) == s
  {
    if s != "" {
      JoinInvertsSplit(s[1..]);
      var rest := Split(s[1..]);
      assert s == [s[0]] + s[1..];
      if s[0] == '.' {
        assert Split(s)[1..] == rest;
      } else if |rest| > 1 {
        assert Split(s)[1..] == rest[1..];
      }
    }
  }

  lemma PrereleasesOrder(a: string, b: string, c: string)
    ensures ComparePrereleases(a, b) == -ComparePrereleases(b, a)
    ensures ComparePrereleases(a, b) == 0 <==> a == b
    ensures ComparePrereleases(a, b) <= 0 && ComparePrereleases(b, c) <= 0 ==> ComparePrereleases(a, c) <= 0
  {
    ListsAntisymmetric(Split(a), Split(b));
    JoinInvertsSplit(a);
    JoinInvertsSplit(b);
    if CompareLists(Split(a), Split(b)) <= 0 && CompareLists(Split(b), Split(c)) <= 0 {
      ListsTransitive(Split(a), Split(b), Split(c));
    }
  }

  /** The parts that count for precedence. */
  predicate SameRelease(a: Parts, b: Parts) {
    a.major == b.major && a.minor == b.minor && a.patch == b.patch && a.prerelease == b.prerelease
  }

  lemma PartsOrder(a: Parts, b: Parts, c: Parts)
    ensures CompareParts(a, b) == -CompareParts(b, a)
    ensures CompareParts(a, b) == 0 <==> SameRelease(a, b)
    ensures CompareParts(a, b) <= 0 && CompareParts(b, c) <= 0 ==> CompareParts(a, c) <= 0
  {
    NumbersOrder(a.major, b.major, c.major);
    NumbersOrder(b.major, c.major, a.major);
    NumbersOrder(a.major, c.major, b.major);
    NumbersOrder(a.minor, b.minor, c.minor);
    NumbersOrder(b.minor, c.minor, a.minor);
    NumbersOrder(a.minor, c.minor, b.minor);
    NumbersOrder(a.patch, b.patch, c.patch);
    NumbersOrder(b.patch, c.patch, a.patch);
    NumbersOrder(a.patch, c.patch, b.patch);
    PrereleasesOrder(a.prerelease, b.prerelease, c.prerelease);
  }

  /**
   On comparable versions the comparison is a total preorder, and is zero
   exactly on texts that differ at most in the v and in the build metadata.
   */
  lemma VersionsAreOrdered(a: string, b: string, c: string)
    requires CompareReleaseVersions(a, b).Some? && CompareReleaseVersions(b, c).Some?
    ensures CompareReleaseVersions(b, a).Some? && CompareReleaseVersions(a, c).Some?
    ensures CompareReleaseVersions(a, b).value == -CompareReleaseVersions(b, a).value
    ensures CompareReleaseVersions(a, b).value <= 0 && CompareReleaseVersions(b, c).value <= 0 ==>
      CompareReleaseVersions(a, c).value <= 0
    ensures CompareReleaseVersions(a, b).value == 0 <==>
      exists p, q :: WellFormed(p) && WellFormed(q) && a == Render(p) && b == Render(q) && SameRelease(p, q)
  {
    var left, right := Parse(a).value, Parse(b).value;
    PartsOrder(left, right, Parse(c).value);
    ParseInvertsRender(a, left);
    ParseInvertsRender(b, right);
    if p, q :| WellFormed(p) && WellFormed(q) && a == Render(p) && b == Render(q) && SameRelease(p, q) {
      ParseInvertsRender(a, p);
      ParseInvertsRender(b, q);
    }
  }

  // ---------------------------------------------------------------------
  // Section 11 of SemVer 2.0.0
  // ---------------------------------------------------------------------

  /** An identifier has lower precedence than another. */
  ghost predicate IdentifierPrecedes(x: string, y: string) {
    if IsVersionNumber(x) then !IsVersionNumber(y) || Value(x) < Value(y)
    else !IsVersionNumber(y) && Compare(x, y) < 0
  }

  /** Some identifier differs first and is lower, or the list is a proper start of the other. */
  ghost predicate ListPrecedes(xs: seq<string>, ys: seq<string>) {
    || (|xs| < |ys| && xs == ys[..|xs|])
    || (exists k: nat :: FirstDifference(xs, ys, k) && IdentifierPrecedes(xs[k], ys[k]))
  }

  ghost predicate FirstDifference(xs: seq<string>, ys: seq<string>, k: nat) {
    k < |xs| && k < |ys| && xs[..k] == ys[..k]
  }

  /** Major, minor and patch numerically, then a prerelease below its release, then identifier by identifier. */
  ghost predicate Precedes(a: Parts, b: Parts)
    requires WellFormed(a) && WellFormed(b)
  {
    if Value(a.major) != Value(b.major) then Value(a.major) < Value(b.major)
    else if Value(a.minor) != Value(b.minor) then Value(a.minor) < Value(b.minor)
    else if Value(a.patch) != Value(b.patch) then Value(a.patch) < Value(b.patch)
    else if a.prerelease == "" || b.prerelease == "" then a.prerelease != "" && b.prerelease == ""
    else ListPrecedes(Split(a.prerelease), Split(b.prerelease))
  }

  ghost predicate Canonical(identifier: string) { IsVersionNumber(identifier) ==> IsNumber(identifier) }

  lemma IdentifiersFollowSemVer(x: string, y: string)
    requires Canonical(x) && Canonical(y)
    ensures CompareIdentifiers(x, y) < 0 <==> IdentifierPrecedes(x, y)
  {
    if IsVersionNumber(x) && IsVersionNumber(y) {
      NumbersCompareByValue(x, y);
    }
  }

  lemma {:induction false} ListsFollowSemVer(xs: seq<string>, ys: seq<string>)
    requires (forall x <- xs :: Canonical(x)) && (forall y <- ys :: Canonical(y))
    ensures CompareLists(xs, ys) < 0 <==> ListPrecedes(xs, ys)
  {
    if xs == [] || ys == [] {
      assert xs == [] && ys != [] ==> xs == ys[..0];
    } else {
      var x, y, xs', ys' := xs[0], ys[0], xs[1..], ys[1..];
      IdentifiersFollowSemVer(x, y);
      IdentifiersOrder(x, y, x);
      ListsFollowSemVer(xs', ys');
      HeadsDecide(xs, ys);
    }
  }

  lemma StartsAgree(xs: seq<string>, ys: seq<string>, k: nat)
    requires 1 <= k <= |xs| && k <= |ys|
    ensures xs[..k] == ys[..k] <==> xs[0] == ys[0] && xs[1..][..k - 1] == ys[1..][..k - 1]
  {
    assert xs[..k] == [xs[0]] + xs[1..][..k - 1] && ys[..k] == [ys[0]] + ys[1..][..k - 1];
  }

  lemma HeadsDecide(xs: seq<string>, ys: seq<string>)
    requires xs != [] && ys != []
    ensures ListPrecedes(xs, ys) <==>
      IdentifierPrecedes(xs[0], ys[0]) || (xs[0] == ys[0] && ListPrecedes(xs[1..], ys[1..]))
  {
    var xs', ys' := xs[1..], ys[1..];
    if |xs| < |ys| {
      StartsAgree(xs, ys, |xs|);
      assert xs[..|xs|] == xs && xs'[..|xs'|] == xs';
    }
    if IdentifierPrecedes(xs[0], ys[0]) {
      assert FirstDifference(xs, ys, 0);
    }
    if k: nat :| FirstDifference(xs, ys, k) && IdentifierPrecedes(xs[k], ys[k]) && k > 0 {
      StartsAgree(xs, ys, k);
      assert FirstDifference(xs', ys', k - 1) && xs'[k - 1] == xs[k] && ys'[k - 1] == ys[k];
    }
    if xs[0] == ys[0] {
      if k: nat :| FirstDifference(xs', ys', k) && IdentifierPrecedes(xs'[k], ys'[k]) {
        StartsAgree(xs, ys, k + 1);
        assert FirstDifference(xs, ys, k + 1);
      }
    }
  }

  /** The comparison is below zero exactly when section 11 gives the first version lower precedence. */
  lemma ComparisonFollowsSemVer(client: string, server: string)
    requires CompareReleaseVersions(client, server).Some?
    ensures WellFormed(Parse(client).value) && WellFormed(Parse(server).value)
    ensures CompareReleaseVersions(client, server).value < 0 <==> Precedes(Parse(client).value, Parse(server).value)
  {
    var a, b := Parse(client).value, Parse(server).value;
    ParseInvertsRender(client, a);
    ParseInvertsRender(server, b);
    NumbersCompareByValue(a.major, b.major);
    NumbersCompareByValue(a.minor, b.minor);
    NumbersCompareByValue(a.patch, b.patch);
    PrereleasesFollowSemVer(a, b);
  }

  lemma PrereleasesFollowSemVer(a: Parts, b: Parts)
    requires WellFormed(a) && WellFormed(b) && Comparable(a) && Comparable(b)
    ensures ComparePrereleases(a.prerelease, b.prerelease) < 0 <==>
      if a.prerelease == "" || b.prerelease == "" then a.prerelease != "" && b.prerelease == ""
      else ListPrecedes(Split(a.prerelease), Split(b.prerelease))
  {
    ListsFollowSemVer(Split(a.prerelease), Split(b.prerelease));
    ListsAntisymmetric(Split(a.prerelease), Split(b.prerelease));
  }
}
