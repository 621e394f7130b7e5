// Routing by target hostname: the compiler of domain patterns and the matcher.
// The meaning of a policy is stated on DNS labels; the code compares strings.
// Letter case is that of ASCII.
module Routing {
  import opened Common

  // ---- Labels

  /** The dot-separated parts of a string. */
  function Labels(s: string): (labels: seq<string>)
    ensures labels != []
  {
    if s == "" then [""] else
      var rest := Labels(s[1..]);
      if s[0] == '.' then [""] + rest else [[s[0]] + rest[0]] + rest[1..]
  }

  function Join(labels: seq<string>): string
    requires labels != []
  {
    if |labels| == 1 then labels[0] else labels[0] + "." + Join(labels[1..])
  }

  lemma {:induction false} JoinLabels(s: string)
    ensures Join(Labels(s)) == s
  {
    if s != "" {
      JoinLabels(s[1..]);
      var rest := Labels(s[1..]);
      if s[0] != '.' {
        assert Labels(s)[1..] == rest[1..];
      }
    }
  }

  /** A string is determined by its labels. */
  lemma LabelsInjective(a: string, b: string)
    requires Labels(a) == Labels(b)
    ensures a == b
  {
    JoinLabels(a);
    JoinLabels(b);
  }

  lemma {:induction false} LabelsConcat(x: string, y: string)
    ensures Labels(x + "." + y) == Labels(x) + Labels(y)
  {
    var s := x + "." + y;
    if x == "" {
      assert s[1..] == y;
    } else {
      assert s[1..] == x[1..] + "." + y;
      LabelsConcat(x[1..], y);
    }
  }

  lemma {:induction false} JoinConcat(a: seq<string>, b: seq<string>)
    requires a != [] && b != []
    ensures Join(a + b) == Join(a) + "." + Join(b)
  {
    if |a| == 1 {
      assert (a + b)[1..] == b;
    } else {
      assert (a + b)[1..] == a[1..] + b;
      JoinConcat(a[1..], b);
    }
  }

  predicate HasSuffix(s: string, suffix: string) {
    |suffix| <= |s| && s[|s| - |suffix|..] == suffix
  }

  predicate HasPrefix(s: string, prefix: string) {
    prefix <= s
  }

  /** The last labels, and at least one more before them. */
  predicate ProperLabelSuffix(labels: seq<string>, suffix: seq<string>) {
    |suffix| < |labels| && labels[|labels| - |suffix|..] == suffix
  }

  lemma DottedSuffixCutsLabels(host: string, suffix: string)
    requires HasSuffix(host, "." + suffix)
    ensures ProperLabelSuffix(Labels(host), Labels(suffix))
  {
    var head := host[..|host| - |suffix| - 1];
    assert host == head + host[|head|..];
    Regroup(head, ".", suffix);
    LabelsConcat(head, suffix);
  }

  lemma LabelSuffixIsDotted(host: string, suffix: string)
    requires ProperLabelSuffix(Labels(host), Labels(suffix))
    ensures HasSuffix(host, "." + suffix)
  {
    var front := Labels(host)[..|Labels(host)| - |Labels(suffix)|];
    assert Labels(host) == front + Labels(suffix);
    JoinConcat(front, Labels(suffix));
    JoinLabels(host);
    JoinLabels(suffix);
    Regroup(Join(front), ".", suffix);
    EndsWith(Join(front), "." + suffix);
  }

  lemma Regroup(a: string, b: string, c: string)
    ensures a + b + c == a + (b + c)
  {
  }

  lemma EndsWith(head: string, tail: string)
    ensures HasSuffix(head + tail, tail)
  {
  }

  /** Comparing the dotted bytes is comparing labels: a wildcard never eats part
      of a label and never matches the bare domain. */
  lemma DottedSuffixIsLabelSuffix(host: string, suffix: string)
    ensures HasSuffix(host, "." + suffix) <==> ProperLabelSuffix(Labels(host), Labels(suffix))
  {
    if HasSuffix(host, "." + suffix) {
      DottedSuffixCutsLabels(host, suffix);
    }
    if ProperLabelSuffix(Labels(host), Labels(suffix)) {
      LabelSuffixIsDotted(host, suffix);
    }
  }

  // ---- Hostnames

  predicate HostChar(c: char) {
    'a' <= c <= 'z' || '0' <= c <= '9' || c == '-'
  }

  predicate ValidLabel(part: string) {
    1 <= |part| <= 63 && part[0] != '-' && part[|part| - 1] != '-' && forall c :: c in part ==> HostChar(c)
  }

  predicate ValidHost(host: string) {
    1 <= |host| <= 253 && AllValid(Labels(host))
  }

  predicate AllValid(labels: seq<string>) {
    forall i :: 0 <= i < |labels| ==> ValidLabel(labels[i])
  }

  lemma AllValidFirst(first: string, rest: seq<string>)
    ensures AllValid([first] + rest) <==> ValidLabel(first) && AllValid(rest)
  {
    var all := [first] + rest;
    assert all[0] == first && forall i :: 0 <= i < |rest| ==> all[i + 1] == rest[i];
  }

  // Position of the first dot, or the length.
  method FirstDot(s: string) returns (end: nat)
    ensures end <= |s| && '.' !in s[..end] && (end < |s| ==> s[end] == '.')
  {
    end := 0;
    while end < |s| && s[end] != '.'
      invariant end <= |s| && '.' !in s[..end]
    {
      end := end + 1;
    }
  }

  lemma {:induction false} LabelsFirst(s: string, end: nat)
    requires end <= |s| && '.' !in s[..end] && (end < |s| ==> s[end] == '.')
    ensures Labels(s) == if end == |s| then [s] else [s[..end]] + Labels(s[end + 1..])
  {
    if 0 < end {
      var rest := s[1..];
      assert s[0] == s[..end][0];
      assert rest[..end - 1] == s[..end][1..];
      LabelsFirst(rest, end - 1);
      assert [s[0]] + rest[..end - 1] == s[..end];
      assert Labels(s) == [[s[0]] + Labels(rest)[0]] + Labels(rest)[1..];
      if end < |s| {
        assert rest[end - 1 + 1..] == s[end + 1..];
        assert Labels(rest)[1..] == Labels(s[end + 1..]);
      } else {
        assert [s[0]] + rest == s;
      }
    } else if |s| > 0 {
      assert s[0] == '.';
    }
  }

  // The walk over the labels in place.
  method ValidateHostname(host: string) returns (ok: bool)
    ensures ok <==> ValidHost(host)
  {
    if host == "" || |host| > 253 {
      return false;
    }
    LabelsEnds(host);
    if HasPrefix(host, ".") || HasSuffix(host, ".") {
      return false;
    }
    ok := WalkLabels(host);
  }

  method WalkLabels(host: string) returns (ok: bool)
    requires host != "" && !HasSuffix(host, ".")
    ensures ok <==> AllValid(Labels(host))
  {
    var start := 0;
    assert host[0..] == host;
    while start < |host|
      invariant start <= |host|
      invariant AllValid(Labels(host)) <==> start == |host| || AllValid(Labels(host[start..]))
      decreases |host| - start
    {
      var valid, next := NextLabel(host[start..]);
      if !valid {
        return false;
      }
      if next < |host| - start {
        assert host[start..][next..] == host[start + next..];
      } else {
        assert host[start..][next..] == "";
        NotLast(host, start, next);
      }
      start := start + next;
    }
    return true;
  }

  // The first label, and where the next one starts; the length if there is none.
  method NextLabel(rest: string) returns (valid: bool, next: nat)
    requires rest != ""
    ensures 0 < next <= |rest|
    ensures !valid ==> !AllValid(Labels(rest))
    ensures valid && '.' in rest ==>
      rest[next - 1] == '.' && (AllValid(Labels(rest)) <==> AllValid(Labels(rest[next..])))
    ensures valid && '.' !in rest ==> next == |rest| && AllValid(Labels(rest))
  {
    var end := FirstDot(rest);
    LabelsFirst(rest, end);
    valid := ValidateLabel(rest[..end]);
    if end < |rest| {
      AllValidFirst(rest[..end], Labels(rest[end + 1..]));
      next := end + 1;
    } else {
      assert rest[..end] == rest;
      AllValidFirst(rest, []);
      assert [rest] + [] == [rest];
      next := |rest|;
    }
  }

  /** A dot at either end makes an empty part. */
  lemma LabelsEnds(host: string)
    requires host != ""
    ensures HasPrefix(host, ".") || HasSuffix(host, ".") ==> !ValidHost(host)
  {
    if HasPrefix(host, ".") {
      assert Labels(host)[0] == "";
    }
    if HasSuffix(host, ".") {
      var head := host[..|host| - 1];
      assert host == head + "." + "";
      LabelsConcat(head, "");
      assert Labels(host)[|Labels(host)| - 1] == "";
    }
  }

  /** A hostname that does not end in a dot continues after every dot. */
  lemma NotLast(host: string, start: nat, next: nat)
    requires start <= |host| && 0 < next && start + next == |host| && !HasSuffix(host, ".")
    ensures host[start..][next - 1] != '.'
  {
  }

  method ValidateLabel(part: string) returns (ok: bool)
    ensures ok <==> ValidLabel(part)
  {
    if part == "" || |part| > 63 || HasPrefix(part, "-") || HasSuffix(part, "-") {
      return false;
    }
    for i := 0 to |part|
      invariant forall j :: 0 <= j < i ==> HostChar(part[j])
    {
      if !HostChar(part[i]) {
        return false;
      }
    }
    return true;
  }

  // ---- Normal form

  function LowerChar(c: char): char {
    if 'A' <= c <= 'Z' then c - 'A' + 'a' else c
  }

  function Lower(s: string): (t: string)
    ensures |t| == |s| && forall i :: 0 <= i < |s| ==> t[i] == LowerChar(s[i])
  {
    seq(|s|, i requires 0 <= i < |s| => LowerChar(s[i]))
  }

  function TrimDot(s: string): string {
    if HasSuffix(s, ".") then s[..|s| - 1] else s
  }

  /** Lower case, without one trailing dot. */
  function NormalizeHost(host: string): string {
    Lower(TrimDot(host))
  }

  predicate IsSpace(c: char) {
    c == ' ' || '\t' <= c <= '\r'
  }

  // ---- Policies and what they mean

  datatype Rule = Rule(domains: seq<string>, routes: seq<string>)

  datatype Spec = Spec(rules: seq<Rule>, defaultRoutes: seq<string>)

  datatype Target = Domain(host: string) | IPv4(address: string) | IPv6(address: string)

  // A domain pattern on labels.
  datatype Pattern = Exact(labels: seq<string>) | Below(labels: seq<string>)
  {
    predicate Matches(host: seq<string>) {
      if Exact? then host == labels else ProperLabelSuffix(host, labels)
    }

    /** The hostname it names is one that can exist. */
    predicate Valid() {
      labels != [] && ValidHost(Join(labels))
    }
  }

  /** A leading label "*" stands for one or more labels. */
  function PatternOf(domain: string): Pattern {
    var labels := Labels(NormalizeHost(domain));
    if |labels| > 1 && labels[0] == "*" then Below(labels[1..]) else Exact(labels)
  }

  predicate ValidDomain(domain: string) {
    domain != "" && !IsSpace(domain[0]) && !IsSpace(domain[|domain| - 1]) && PatternOf(domain).Valid()
  }

  predicate ValidRule(rule: Rule) {
    rule.domains != [] && rule.routes != [] &&
    (forall i, j :: 0 <= i < j < |rule.routes| ==> rule.routes[i] != rule.routes[j]) &&
    (forall i :: 0 <= i < |rule.domains| ==> ValidDomain(rule.domains[i])) &&
    (forall i, j :: 0 <= i < j < |rule.domains| ==> PatternOf(rule.domains[i]) != PatternOf(rule.domains[j]))
  }

  predicate ValidSpec(spec: Spec) {
    forall i :: 0 <= i < |spec.rules| ==> ValidRule(spec.rules[i])
  }

  function SetOf(ids: seq<string>): set<string> {
    set i | 0 <= i < |ids| :: ids[i]
  }

  predicate RuleMatches(rule: Rule, host: seq<string>) {
    exists i :: 0 <= i < |rule.domains| && PatternOf(rule.domains[i]).Matches(host)
  }

  function FirstMatch(rules: seq<Rule>, defaults: seq<string>, host: seq<string>): set<string> {
    if rules == [] then SetOf(defaults)
    else if RuleMatches(rules[0], host) then SetOf(rules[0].routes)
    else FirstMatch(rules[1..], defaults, host)
  }

  /** The meaning of a policy: the routes of the first rule with a pattern that
      matches the target's labels; the defaults for any other target. */
  function Meaning(spec: Spec, target: Target): set<string> {
    if target.Domain? && ValidHost(NormalizeHost(target.host))
    then FirstMatch(spec.rules, spec.defaultRoutes, Labels(NormalizeHost(target.host)))
    else SetOf(spec.defaultRoutes)
  }

  // ---- The compiled form

  datatype CompiledRule = CompiledRule(exact: set<string>, wilds: seq<string>, routes: set<string>)

  datatype Router = Router(rules: seq<CompiledRule>, defaults: set<string>)

  function MatchRules(rules: seq<CompiledRule>, defaults: set<string>, host: string): set<string> {
    if rules == [] then defaults
    else if host in rules[0].exact || exists i :: 0 <= i < |rules[0].wilds| && HasSuffix(host, rules[0].wilds[i])
    then rules[0].routes
    else MatchRules(rules[1..], defaults, host)
  }

  /** No router means no restriction; with one, the result is the whole scope. */
  function Match(router: Option<Router>, target: Target): Option<set<string>> {
    if router.None? then None
    else if !target.Domain? || !ValidHost(NormalizeHost(target.host)) then Some(router.value.defaults)
    else Some(MatchRules(router.value.rules, router.value.defaults, NormalizeHost(target.host)))
  }

  // One compiled pattern: a hostname, or a suffix beginning with a dot.
  datatype Test = Whole(host: string) | Suffix(dotted: string)

  /** Nothing for a pattern the grammar refuses. The wildcard mark is looked for
      in the normal form. */
  function CompilePattern(domain: string): Option<Test> {
    if domain == "" || IsSpace(domain[0]) || IsSpace(domain[|domain| - 1]) then None else
      var normal := NormalizeHost(domain);
      var wildcard := HasPrefix(normal, "*.");
      var host := if wildcard then normal[2..] else normal;
      if !ValidHost(host) then None else Some(if wildcard then Suffix("." + host) else Whole(host))
  }

  lemma WildcardLabels(s: string)
    ensures HasPrefix(s, "*.") <==> |Labels(s)| > 1 && Labels(s)[0] == "*"
    ensures HasPrefix(s, "*.") ==> Labels(s)[1..] == Labels(s[2..])
  {
    if HasPrefix(s, "*.") {
      assert "*" + "." == "*." == s[..2] && s == s[..2] + s[2..];
      LabelsConcat("*", s[2..]);
      LabelsFirst("*", 1);
    }
    if |Labels(s)| > 1 && Labels(s)[0] == "*" {
      JoinLabels(s);
      assert "*" + "." == "*." && s == "*" + "." + Join(Labels(s)[1..]);
      assert s[..2] == "*.";
    }
  }

  /** What a test means on labels. */
  function TestPattern(test: Test): Pattern
    requires test.Suffix? ==> test.dotted != ""
  {
    match test
    case Whole(h) => Exact(Labels(h))
    case Suffix(d) => Below(Labels(d[1..]))
  }

  ghost predicate WellFormed(test: Test) {
    test.Suffix? ==> test.dotted != "" && test.dotted[0] == '.'
  }

  lemma TestPatternInjective(a: Test, b: Test)
    requires WellFormed(a) && WellFormed(b) && TestPattern(a) == TestPattern(b)
    ensures a == b
  {
    match a
    case Whole(h) => LabelsInjective(h, b.host);
    case Suffix(d) =>
      LabelsInjective(d[1..], b.dotted[1..]);
      assert d == "." + d[1..] && b.dotted == "." + b.dotted[1..];
  }

  /** Compiling a pattern accepts exactly the valid ones, and tests what they mean. */
  lemma CompilePatternMeaning(domain: string)
    ensures CompilePattern(domain).Some? <==> ValidDomain(domain)
    ensures CompilePattern(domain).Some? ==>
      WellFormed(CompilePattern(domain).value) && PatternOf(domain) == TestPattern(CompilePattern(domain).value)
  {
    var normal := NormalizeHost(domain);
    WildcardLabels(normal);
    if HasPrefix(normal, "*.") {
      JoinLabels(normal[2..]);
      assert ("." + normal[2..])[1..] == normal[2..];
    } else {
      JoinLabels(normal);
    }
  }

  /** The compiled form of the test decides it. */
  predicate Listed(test: Test, exact: set<string>, wilds: seq<string>) {
    match test
    case Whole(h) => h in exact
    case Suffix(d) => d in wilds
  }

  predicate Passes(test: Test, host: string) {
    match test
    case Whole(h) => host == h
    case Suffix(d) => HasSuffix(host, d)
  }

  lemma PassingIsMatching(test: Test, host: string)
    requires WellFormed(test)
    ensures Passes(test, host) <==> TestPattern(test).Matches(Labels(host))
  {
    match test
    case Whole(h) =>
      if Labels(h) == Labels(host) {
        LabelsInjective(h, host);
      }
    case Suffix(d) =>
      assert d == "." + d[1..];
      DottedSuffixIsLabelSuffix(host, d[1..]);
  }

  /** Some of the first `n` patterns compiles to the test. */
  ghost predicate Compiled(domains: seq<string>, n: nat, test: Test)
    requires n <= |domains|
  {
    exists i :: 0 <= i < n && CompilePattern(domains[i]) == Some(test)
  }

  /** The compiled rule holds exactly the tests of the rule's patterns. */
  ghost predicate Compiles(rule: Rule, compiled: CompiledRule) {
    compiled.routes == SetOf(rule.routes) && HoldsTests(rule.domains, |rule.domains|, compiled.exact, compiled.wilds)
  }

  ghost predicate HoldsTests(domains: seq<string>, n: nat, exact: set<string>, wilds: seq<string>)
    requires n <= |domains|
  {
    forall test :: Listed(test, exact, wilds) <==> Compiled(domains, n, test)
  }

  lemma RuleAgrees(rule: Rule, compiled: CompiledRule, host: string)
    requires ValidRule(rule) && Compiles(rule, compiled)
    ensures RuleMatches(rule, Labels(host)) <==>
      host in compiled.exact || exists i :: 0 <= i < |compiled.wilds| && HasSuffix(host, compiled.wilds[i])
  {
    if RuleMatches(rule, Labels(host)) {
      var i :| 0 <= i < |rule.domains| && PatternOf(rule.domains[i]).Matches(Labels(host));
      CompilePatternMeaning(rule.domains[i]);
      var test := CompilePattern(rule.domains[i]).value;
      PassingIsMatching(test, host);
      assert Compiled(rule.domains, |rule.domains|, test) && Listed(test, compiled.exact, compiled.wilds);
    }
    if host in compiled.exact {
      assert Listed(Whole(host), compiled.exact, compiled.wilds);
      TestMatches(rule, Whole(host), host);
    }
    if exists k :: 0 <= k < |compiled.wilds| && HasSuffix(host, compiled.wilds[k]) {
      var k :| 0 <= k < |compiled.wilds| && HasSuffix(host, compiled.wilds[k]);
      assert Listed(Suffix(compiled.wilds[k]), compiled.exact, compiled.wilds);
      TestMatches(rule, Suffix(compiled.wilds[k]), host);
    }
  }

  lemma TestMatches(rule: Rule, test: Test, host: string)
    requires Compiled(rule.domains, |rule.domains|, test) && Passes(test, host)
    ensures RuleMatches(rule, Labels(host))
  {
    var i :| 0 <= i < |rule.domains| && CompilePattern(rule.domains[i]) == Some(test);
    CompilePatternMeaning(rule.domains[i]);
    PassingIsMatching(test, host);
  }

  ghost predicate IsCompiled(spec: Spec, router: Router) {
    |router.rules| == |spec.rules| && router.defaults == SetOf(spec.defaultRoutes) &&
    forall i :: 0 <= i < |spec.rules| ==> Compiles(spec.rules[i], router.rules[i])
  }

  lemma {:induction false} RulesAgree(rules: seq<Rule>, compiled: seq<CompiledRule>, defaults: seq<string>,
                                      host: string)
    requires |compiled| == |rules|
    requires forall i :: 0 <= i < |rules| ==> ValidRule(rules[i]) && Compiles(rules[i], compiled[i])
    ensures MatchRules(compiled, SetOf(defaults), host) == FirstMatch(rules, defaults, Labels(host))
  {
    if rules != [] {
      RuleAgrees(rules[0], compiled[0], host);
      RulesAgree(rules[1..], compiled[1..], defaults, host);
    }
  }

  /** Compiling preserves meaning: for every policy it accepts and every target,
      comparing strings gives what the policy says on labels. */
  lemma CompilingPreservesMeaning(spec: Spec, router: Router, target: Target)
    requires ValidSpec(spec) && IsCompiled(spec, router)
    ensures Match(Some(router), target) == Some(Meaning(spec, target))
  {
    if target.Domain? {
      RulesAgree(spec.rules, router.rules, spec.defaultRoutes, NormalizeHost(target.host));
    }
  }

  /** Letter case and one trailing dot of the target make no difference. */
  lemma MatchIgnoresCaseAndDot(router: Option<Router>, a: string, b: string)
    requires Lower(a) == Lower(b) && !HasSuffix(a, ".")
    ensures Match(router, Domain(a)) == Match(router, Domain(b)) == Match(router, Domain(b + "."))
  {
    if a != "" {
      assert Lower(a)[|a| - 1] == LowerChar(a[|a| - 1]);
      assert Lower(b)[|b| - 1] == LowerChar(b[|b| - 1]);
    }
    assert TrimDot(a) == a && TrimDot(b) == b;
    assert TrimDot(b + ".") == b;
  }

  // ---- The compiler

  method Compile(spec: Spec) returns (router: Option<Router>)
    ensures router.Some? <==> ValidSpec(spec)
    ensures router.Some? ==> IsCompiled(spec, router.value)
  {
    var rules: seq<CompiledRule> := [];
    for i := 0 to |spec.rules|
      invariant |rules| == i
      invariant forall j :: 0 <= j < i ==> ValidRule(spec.rules[j]) && Compiles(spec.rules[j], rules[j])
    {
      var compiled := CompileRule(spec.rules[i]);
      if compiled.None? {
        return None;
      }
      rules := rules + [compiled.value];
    }
    return Some(Router(rules, SetOf(spec.defaultRoutes)));
  }

  method CompileRule(rule: Rule) returns (compiled: Option<CompiledRule>)
    ensures compiled.Some? <==> ValidRule(rule)
    ensures compiled.Some? ==> Compiles(rule, compiled.value)
  {
    if rule.domains == [] || rule.routes == [] {
      return None;
    }
    var distinct := AllDistinct(rule.routes);
    if !distinct {
      return None;
    }
    var accepted, exact, wilds := CompileDomains(rule.domains);
    if !accepted {
      return None;
    }
    return Some(CompiledRule(exact, wilds, SetOf(rule.routes)));
  }

  method AllDistinct(ids: seq<string>) returns (distinct: bool)
    ensures distinct <==> forall i, j :: 0 <= i < j < |ids| ==> ids[i] != ids[j]
  {
    var seen: set<string> := {};
    for i := 0 to |ids|
      invariant forall j :: 0 <= j < i ==> ids[j] in seen
      invariant forall id :: id in seen ==> exists j :: 0 <= j < i && ids[j] == id
      invariant forall j, k :: 0 <= j < k < i ==> ids[j] != ids[k]
    {
      if ids[i] in seen {
        return false;
      }
      seen := seen + {ids[i]};
    }
    return true;
  }

  /** The first `n` patterns are valid and no two mean the same. */
  ghost predicate ValidDomains(domains: seq<string>, n: nat)
    requires n <= |domains|
  {
    (forall i :: 0 <= i < n ==> ValidDomain(domains[i])) &&
    (forall i, j :: 0 <= i < j < n ==> PatternOf(domains[i]) != PatternOf(domains[j]))
  }

  method CompileDomains(domains: seq<string>) returns (accepted: bool, exact: set<string>, wilds: seq<string>)
    ensures accepted <==> ValidDomains(domains, |domains|)
    ensures accepted ==> HoldsTests(domains, |domains|, exact, wilds)
  {
    exact, wilds := {}, [];
    for i := 0 to |domains|
      invariant ValidDomains(domains, i) && HoldsTests(domains, i, exact, wilds)
    {
      accepted, exact, wilds := AddPattern(domains, i, exact, wilds, domains[i]);
      if !accepted {
        return;
      }
    }
    accepted := true;
  }

  // Compiles one more pattern, unless it is invalid or repeated.
  method AddPattern(ghost domains: seq<string>, ghost i: nat, exact: set<string>, wilds: seq<string>, domain: string)
      returns (accepted: bool, exact': set<string>, wilds': seq<string>)
    requires i < |domains| && domain == domains[i] && ValidDomains(domains, i) && HoldsTests(domains, i, exact, wilds)
    ensures accepted <==> ValidDomains(domains, i + 1)
    ensures accepted ==> HoldsTests(domains, i + 1, exact', wilds')
  {
    exact', wilds' := exact, wilds;
    var test := CompilePattern(domain);
    AcceptedMeansValid(domains, i, exact, wilds);
    accepted := test.Some? && !Listed(test.value, exact, wilds);
    if accepted {
      TestsGrow(domains, i, exact, wilds);
    }
    if accepted && test.value.Whole? {
      exact' := exact + {test.value.host};
    } else if accepted {
      wilds' := wilds + [test.value.dotted];
    }
  }

  /** A pattern is accepted exactly when it is valid and not repeated. */
  lemma AcceptedMeansValid(domains: seq<string>, i: nat, exact: set<string>, wilds: seq<string>)
    requires i < |domains| && ValidDomains(domains, i) && HoldsTests(domains, i, exact, wilds)
    ensures var test := CompilePattern(domains[i]);
      ValidDomains(domains, i + 1) <==> test.Some? && !Listed(test.value, exact, wilds)
  {
    CompilePatternMeaning(domains[i]);
    OneMoreDomain(domains, i);
    if CompilePattern(domains[i]).Some? {
      ListedMeansRepeated(domains, i, exact, wilds);
    }
  }

  lemma OneMoreDomain(domains: seq<string>, i: nat)
    requires i < |domains| && ValidDomains(domains, i)
    ensures ValidDomains(domains, i + 1) <==>
      ValidDomain(domains[i]) && forall j :: 0 <= j < i ==> PatternOf(domains[j]) != PatternOf(domains[i])
  {
  }

  /** Finding the test among those compiled so far means the pattern is repeated. */
  lemma ListedMeansRepeated(domains: seq<string>, i: nat, exact: set<string>, wilds: seq<string>)
    requires i < |domains| && HoldsTests(domains, i, exact, wilds) && CompilePattern(domains[i]).Some?
    requires ValidDomains(domains, i)
    ensures Listed(CompilePattern(domains[i]).value, exact, wilds) <==>
      exists j :: 0 <= j < i && PatternOf(domains[j]) == PatternOf(domains[i])
  {
    var test := CompilePattern(domains[i]).value;
    CompilePatternMeaning(domains[i]);
    if Compiled(domains, i, test) {
      var j :| 0 <= j < i && CompilePattern(domains[j]) == Some(test);
      CompilePatternMeaning(domains[j]);
      assert PatternOf(domains[j]) == PatternOf(domains[i]);
    }
    if exists j :: 0 <= j < i && PatternOf(domains[j]) == PatternOf(domains[i]) {
      var j :| 0 <= j < i && PatternOf(domains[j]) == PatternOf(domains[i]);
      CompilePatternMeaning(domains[j]);
      TestPatternInjective(CompilePattern(domains[j]).value, test);
    }
  }

  lemma ListedGrows(test: Test, more: Test, exact: set<string>, wilds: seq<string>)
    ensures more.Whole? ==> (Listed(test, exact + {more.host}, wilds) <==> Listed(test, exact, wilds) || test == more)
    ensures more.Suffix? ==>
      (Listed(test, exact, wilds + [more.dotted]) <==> Listed(test, exact, wilds) || test == more)
  {
  }

  lemma TestsGrow(domains: seq<string>, i: nat, exact: set<string>, wilds: seq<string>)
    requires i < |domains| && HoldsTests(domains, i, exact, wilds) && CompilePattern(domains[i]).Some?
    ensures var more := CompilePattern(domains[i]).value;
      (more.Whole? ==> HoldsTests(domains, i + 1, exact + {more.host}, wilds)) &&
      (more.Suffix? ==> HoldsTests(domains, i + 1, exact, wilds + [more.dotted]))
  {
    var more := CompilePattern(domains[i]).value;
    forall test
      ensures Compiled(domains, i + 1, test) <==> Listed(test, exact, wilds) || test == more
    {
      assert Compiled(domains, i, test) <==> Listed(test, exact, wilds);
    }
    forall test
      ensures more.Whole? ==> (Listed(test, exact + {more.host}, wilds) <==> Compiled(domains, i + 1, test))
      ensures more.Suffix? ==> (Listed(test, exact, wilds + [more.dotted]) <==> Compiled(domains, i + 1, test))
    {
      ListedGrows(test, more, exact, wilds);
    }
  }
}
