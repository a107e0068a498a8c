/** Capabilities: scopes, grants, delegation and routing. */
module Capability {
  import opened Basics

  datatype Scope = All | Exact(resource: string) | Subtree(resource: string)

  datatype Request = Request(capability: string, scope: Scope)

  datatype Source = RootSource | ParentSource(issuer: nat, parentGrant: nat) | HumanSource(request: nat)

  datatype Grant = Grant(
    id: nat, subject: nat, capability: string, scope: Scope, source: Source, delegable: bool, needsApproval: bool,
    expiresAt: Option<int>, uses: Option<nat>, consumedBy: Option<string>)

  /** A rule for the capabilities that match a pattern: who approves them, and whether they can be handed on. */
  datatype Rule = Rule(pattern: string, human: bool, delegable: bool)

  // ---- scopes ----

  predicate StartsWith(s: string, prefix: string) {
    |prefix| <= |s| && s[..|prefix|] == prefix
  }

  predicate EndsWithSlash(s: string) {
    |s| > 0 && s[|s| - 1] == '/'
  }

  function Prefix(resource: string): (p: string)
    ensures StartsWith(p, resource) && EndsWithSlash(p)
  {
    if EndsWithSlash(resource) then resource else resource + "/"
  }

  /** The check the manager makes, case by case. */
  predicate ScopeContains(granted: Scope, requested: Scope) {
    match granted
    case All => true
    case Exact(resource) => requested.Exact? && requested.resource == resource
    case Subtree(resource) =>
      !requested.All? && (requested.resource == resource || StartsWith(requested.resource, Prefix(resource)))
  }

  /** The resources a scope stands for. */
  predicate Denotes(scope: Scope, resource: string) {
    match scope
    case All => true
    case Exact(r) => resource == r
    case Subtree(r) => resource == r || StartsWith(resource, Prefix(r))
  }

  lemma PrefixTransitive(a: string, b: string, c: string)
    requires StartsWith(b, a) && StartsWith(c, b)
    ensures StartsWith(c, a)
  {
    assert c[..|b|] == b;
    assert c[..|a|] == c[..|b|][..|a|];
  }

  /** Some resource lies outside every scope but the one of all resources. */
  function Outside(scope: Scope): (r: string)
    requires !scope.All?
    ensures !Denotes(scope, r)
  {
    if scope.resource == "" then "x" else if scope.resource[0] == 'x' then "y" else "x"
  }

  /** The check decides exactly whether one set of resources includes the other. */
  lemma ContainsExactly(granted: Scope, requested: Scope)
    ensures ScopeContains(granted, requested) <==> forall r: string :: Denotes(requested, r) ==> Denotes(granted, r)
  {
    if ScopeContains(granted, requested) {
      forall r: string | Denotes(requested, r) ensures Denotes(granted, r) {
        if granted.Subtree? && requested.Subtree? && requested.resource != granted.resource && r != requested.resource {
          PrefixTransitive(Prefix(granted.resource), requested.resource, Prefix(requested.resource));
          PrefixTransitive(Prefix(granted.resource), Prefix(requested.resource), r);
        }
      }
    } else if requested.All? {
      assert Denotes(requested, Outside(granted));
    } else {
      assert Denotes(requested, requested.resource);
      if granted.Exact? && requested.Subtree? {
        var below := Prefix(requested.resource) + "x";
        assert Denotes(requested, below);
        assert Denotes(requested, Prefix(requested.resource));
      }
    }
  }

  lemma ContainsTransitive(a: Scope, b: Scope, c: Scope)
    requires ScopeContains(a, b) && ScopeContains(b, c)
    ensures ScopeContains(a, c)
  {
    ContainsExactly(a, b);
    ContainsExactly(b, c);
    ContainsExactly(a, c);
  }

  // ---- rules and requests ----

  predicate Matches(capability: string, pattern: string) {
    if |pattern| > 0 && pattern[|pattern| - 1] == '*' then StartsWith(capability, pattern[..|pattern| - 1])
    else capability == pattern
  }

  /** The first rule that matches; capabilities without a rule are for parents to grant and can be handed on. */
  function RuleFor(rules: seq<Rule>, capability: string): Rule {
    if |rules| == 0 then Rule(capability, false, true)
    else if Matches(capability, rules[0].pattern) then rules[0]
    else RuleFor(rules[1..], capability)
  }

  /** Equal requests are asked for once. */
  function Distinct(requests: seq<Request>): seq<Request> {
    if |requests| == 0 then []
    else
      var front := Distinct(requests[..|requests| - 1]);
      var last := requests[|requests| - 1];
      if last in front then front else front + [last]
  }

  lemma {:induction false} DistinctExactly(requests: seq<Request>, r: Request)
    ensures r in Distinct(requests) <==> r in requests
    decreases |requests|
  {
    if |requests| > 0 {
      DistinctExactly(requests[..|requests| - 1], r);
    }
  }

  lemma {:induction false} DistinctOnce(requests: seq<Request>, i: nat, j: nat)
    requires i < j < |Distinct(requests)|
    ensures Distinct(requests)[i] != Distinct(requests)[j]
    decreases |requests|
  {
    var front := Distinct(requests[..|requests| - 1]);
    if j < |front| {
      DistinctOnce(requests[..|requests| - 1], i, j);
    }
  }

  /** Leaving out repetitions changes neither which requests there are nor, by that, who can meet them. */
  lemma DistinctSame(requests: seq<Request>)
    ensures forall r :: r in Distinct(requests) <==> r in requests
    ensures forall i, j :: 0 <= i < j < |Distinct(requests)| ==> Distinct(requests)[i] != Distinct(requests)[j]
  {
    forall r ensures r in Distinct(requests) <==> r in requests {
      DistinctExactly(requests, r);
    }
    forall i, j | 0 <= i < j < |Distinct(requests)| ensures Distinct(requests)[i] != Distinct(requests)[j] {
      DistinctOnce(requests, i, j);
    }
  }

  // ---- finding grants ----

  predicate Live(g: Grant, now: int) {
    g.expiresAt.None? || g.expiresAt.value > now
  }

  predicate Usable(g: Grant, operation: Option<string>) {
    g.uses.None? || g.uses.value > 0 || (operation.Some? && g.consumedBy == operation)
  }

  predicate Fits(g: Grant, r: Request, now: int, delegable: bool, operation: Option<string>, unapproved: bool) {
    && g.capability == r.capability
    && Live(g, now)
    && (unapproved || !g.needsApproval)
    && Usable(g, operation)
    && (delegable ==> g.delegable)
    && ScopeContains(g.scope, r.scope)
  }

  function FindGrant(grants: seq<Grant>, r: Request, now: int, delegable: bool, operation: Option<string>,
                     unapproved: bool)
    : (found: Option<Grant>)
    ensures found.Some? ==> found.value in grants && Fits(found.value, r, now, delegable, operation, unapproved)
  {
    if |grants| == 0 then None
    else if Fits(grants[0], r, now, delegable, operation, unapproved) then Some(grants[0])
    else FindGrant(grants[1..], r, now, delegable, operation, unapproved)
  }

  /** Any grant that fits is reason enough to find one. */
  lemma {:induction false} FindsAny(grants: seq<Grant>, i: nat, r: Request, now: int, delegable: bool,
                                    operation: Option<string>, unapproved: bool)
    requires i < |grants| && Fits(grants[i], r, now, delegable, operation, unapproved)
    ensures FindGrant(grants, r, now, delegable, operation, unapproved).Some?
    decreases |grants|
  {
    if i > 0 {
      FindsAny(grants[1..], i - 1, r, now, delegable, operation, unapproved);
    }
  }

  // ---- issuing ----

  /** The grant is for exactly this request. */
  predicate For(g: Grant, r: Request) {
    g.capability == r.capability && g.scope == r.scope
  }

  /** Each request has its one grant, and there is no grant that was not asked for. */
  predicate OneEach(grants: seq<Grant>, requests: seq<Request>) {
    && (forall r :: r in requests ==> exists i :: 0 <= i < |grants| && For(grants[i], r))
    && (forall i :: 0 <= i < |grants| ==> Request(grants[i].capability, grants[i].scope) in requests)
    && (forall i, j :: 0 <= i < j < |grants| ==>
          !For(grants[j], Request(grants[i].capability, grants[i].scope)) && grants[i].id != grants[j].id)
  }

  function IssueRoot(rules: seq<Rule>, subject: nat, requests: seq<Request>, next: nat): seq<Grant> {
    var rs := Distinct(requests);
    seq(|rs|, i requires 0 <= i < |rs| =>
          Grant(next + i, subject, rs[i].capability, rs[i].scope, RootSource,
                RuleFor(rules, rs[i].capability).delegable,
                RuleFor(rules, rs[i].capability).human, None, None, None))
  }

  /** A root may use what no human has to approve, and hand on what a rule lets agents hand on, at any time. */
  predicate RootMay(rules: seq<Rule>, grants: seq<Grant>, r: Request, now: int) {
    var rule := RuleFor(rules, r.capability);
    && (Allowed(grants, r, now, None) || rule.human)
    && (Delegable(rules, grants, r, now) <==> !rule.human && rule.delegable)
    && FindGrant(grants, r, now, false, None, true).Some?
  }

  /** What a root is created with: one grant for each request and no other, enough for all of them at any time. */
  lemma RootIssued(rules: seq<Rule>, subject: nat, requests: seq<Request>, next: nat)
    ensures OneEach(IssueRoot(rules, subject, requests, next), requests)
    ensures forall r: Request, now: int :: r in requests ==>
              RootMay(rules, IssueRoot(rules, subject, requests, next), r, now)
  {
    var grants := IssueRoot(rules, subject, requests, next);
    EachOnce(requests, grants);
    forall r: Request, now: int | r in requests ensures RootMay(rules, grants, r, now) {
      RootUses(rules, subject, requests, next, r, now);
    }
  }

  lemma RootUses(rules: seq<Rule>, subject: nat, requests: seq<Request>, next: nat, r: Request, now: int)
    requires r in requests
    ensures RootMay(rules, IssueRoot(rules, subject, requests, next), r, now)
  {
    var rs := Distinct(requests);
    var grants := IssueRoot(rules, subject, requests, next);
    DistinctExactly(requests, r);
    var i :| 0 <= i < |rs| && rs[i] == r;
    ContainsExactly(r.scope, r.scope);
    FindsAny(grants, i, r, now, false, None, true);
    if !RuleFor(rules, r.capability).human {
      FindsAny(grants, i, r, now, false, None, false);
      if RuleFor(rules, r.capability).delegable {
        FindsAny(grants, i, r, now, true, None, false);
      }
    }
  }

  lemma EachOnce(requests: seq<Request>, grants: seq<Grant>)
    requires |grants| == |Distinct(requests)|
    requires forall i :: 0 <= i < |grants| ==> For(grants[i], Distinct(requests)[i])
    requires forall i, j :: 0 <= i < j < |grants| ==> grants[i].id != grants[j].id
    ensures OneEach(grants, requests)
  {
    var rs := Distinct(requests);
    DistinctSame(requests);
    forall r | r in requests ensures exists i :: 0 <= i < |grants| && For(grants[i], r) {
      assert r in rs;
      var i :| 0 <= i < |rs| && rs[i] == r;
      assert For(grants[i], r);
    }
    forall i | 0 <= i < |grants| ensures Request(grants[i].capability, grants[i].scope) in requests {
      assert Request(grants[i].capability, grants[i].scope) == rs[i];
    }
    forall i, j | 0 <= i < j < |grants| ensures !For(grants[j], Request(grants[i].capability, grants[i].scope)) {
      assert rs[i] != rs[j];
    }
  }

  /** What a human grants: at once, for good, and for one use if the rule calls for a human. */
  function IssueHuman(rules: seq<Rule>, subject: nat, approval: nat, requests: seq<Request>, next: nat): seq<Grant> {
    var rs := Distinct(requests);
    seq(|rs|, i requires 0 <= i < |rs| =>
          Grant(next + i, subject, rs[i].capability, rs[i].scope, HumanSource(approval),
                RuleFor(rules, rs[i].capability).delegable,
                false, None, if RuleFor(rules, rs[i].capability).human then Some(1) else None, None))
  }

  /** A human's grants are one for each request and no other, and together they allow all of them at any time. */
  lemma HumanIssued(rules: seq<Rule>, subject: nat, approval: nat, requests: seq<Request>, next: nat)
    ensures OneEach(IssueHuman(rules, subject, approval, requests, next), requests)
    ensures forall r: Request, now: int :: r in requests ==>
              Allowed(IssueHuman(rules, subject, approval, requests, next), r, now, None)
  {
    var grants := IssueHuman(rules, subject, approval, requests, next);
    EachOnce(requests, grants);
    forall r: Request, now: int | r in requests ensures Allowed(grants, r, now, None) {
      DistinctExactly(requests, r);
      var i :| 0 <= i < |grants| && Distinct(requests)[i] == r;
      ContainsExactly(r.scope, r.scope);
      FindsAny(grants, i, r, now, false, None, false);
    }
  }

  predicate Delegable(rules: seq<Rule>, grants: seq<Grant>, r: Request, now: int) {
    var rule := RuleFor(rules, r.capability);
    !rule.human && rule.delegable && FindGrant(grants, r, now, true, None, false).Some?
  }

  predicate AllDelegable(rules: seq<Rule>, grants: seq<Grant>, requests: seq<Request>, now: int) {
    forall i :: 0 <= i < |requests| ==> Delegable(rules, grants, requests[i], now)
  }

  function Delegated(rules: seq<Rule>, issuer: nat, grants: seq<Grant>, subject: nat, r: Request, now: int, id: nat)
    : Grant
    requires Delegable(rules, grants, r, now)
  {
    var source := FindGrant(grants, r, now, true, None, false).value;
    Grant(id, subject, r.capability, r.scope, ParentSource(issuer, source.id), RuleFor(rules, r.capability).delegable,
          false,
          source.expiresAt, None, None)
  }

  /** A parent hands grants on only if it holds a delegable one for every request. */
  function Delegate(rules: seq<Rule>, issuer: nat, grants: seq<Grant>, subject: nat, requests: seq<Request>, now: int,
                    next: nat)
    : Option<seq<Grant>>
  {
    var rs := Distinct(requests);
    if AllDelegable(rules, grants, rs, now) then
      Some(seq(|rs|, i requires 0 <= i < |rs| => Delegated(rules, issuer, grants, subject, rs[i], now, next + i)))
    else None
  }

  /** The same capability, no more resources, and the same time. */
  predicate Narrows(g: Grant, source: Grant) {
    && g.capability == source.capability && ScopeContains(source.scope, g.scope)
    && g.expiresAt == source.expiresAt
  }

  /** The grant comes from one that the issuer may hand on now, by its own name, and narrows it. */
  predicate HandedFrom(g: Grant, issuer: nat, source: Grant, now: int) {
    && Live(source, now) && source.delegable && !source.needsApproval && Usable(source, None)
    && Narrows(g, source) && g.source == ParentSource(issuer, source.id)
  }

  predicate HasSource(g: Grant, issuer: nat, grants: seq<Grant>, now: int) {
    exists k :: 0 <= k < |grants| && HandedFrom(g, issuer, grants[k], now)
  }

  lemma DelegatedHasSource(rules: seq<Rule>, issuer: nat, grants: seq<Grant>, subject: nat, r: Request, now: int,
                           id: nat)
    requires Delegable(rules, grants, r, now)
    ensures HasSource(Delegated(rules, issuer, grants, subject, r, now, id), issuer, grants, now)
  {
    var source := FindGrant(grants, r, now, true, None, false).value;
    var k :| 0 <= k < |grants| && grants[k] == source;
    assert HandedFrom(Delegated(rules, issuer, grants, subject, r, now, id), issuer, grants[k], now);
  }

  lemma DelegateDecides(rules: seq<Rule>, grants: seq<Grant>, requests: seq<Request>, now: int)
    ensures AllDelegable(rules, grants, Distinct(requests), now) <==>
            forall r :: r in requests ==> Delegable(rules, grants, r, now)
  {
    DistinctSame(requests);
    var rs := Distinct(requests);
    if forall r :: r in requests ==> Delegable(rules, grants, r, now) {
      assert forall i :: 0 <= i < |rs| ==> rs[i] in requests;
    } else {
      var r :| r in requests && !Delegable(rules, grants, r, now);
      assert r in rs;
    }
  }

  lemma DelegateOnce(rules: seq<Rule>, issuer: nat, grants: seq<Grant>, subject: nat, requests: seq<Request>,
                     now: int, next: nat)
    requires AllDelegable(rules, grants, Distinct(requests), now)
    ensures OneEach(Delegate(rules, issuer, grants, subject, requests, now, next).value, requests)
  {
    EachOnce(requests, Delegate(rules, issuer, grants, subject, requests, now, next).value);
  }

  lemma DelegateHasSources(rules: seq<Rule>, issuer: nat, grants: seq<Grant>, subject: nat, requests: seq<Request>,
                           now: int, next: nat)
    requires AllDelegable(rules, grants, Distinct(requests), now)
    ensures var handed := Delegate(rules, issuer, grants, subject, requests, now, next).value;
            forall i :: 0 <= i < |handed| ==> HasSource(handed[i], issuer, grants, now)
  {
    var rs := Distinct(requests);
    var handed := Delegate(rules, issuer, grants, subject, requests, now, next).value;
    forall i | 0 <= i < |handed| ensures HasSource(handed[i], issuer, grants, now) {
      DelegatedHasSource(rules, issuer, grants, subject, rs[i], now, next + i);
    }
  }

  /**
   * Handing down succeeds exactly when every request can be met, and then each handed grant narrows a live,
   * delegable grant of the issuer that no human has to approve, one for each request and no other.
   */
  lemma DelegateNarrows(rules: seq<Rule>, issuer: nat, grants: seq<Grant>, subject: nat, requests: seq<Request>,
                        now: int, next: nat)
    ensures var handed := Delegate(rules, issuer, grants, subject, requests, now, next);
            && (handed.Some? <==> forall r :: r in requests ==> Delegable(rules, grants, r, now))
            && (handed.Some? ==>
                  && OneEach(handed.value, requests)
                  && forall i :: 0 <= i < |handed.value| ==> HasSource(handed.value[i], issuer, grants, now))
  {
    DelegateDecides(rules, grants, requests, now);
    if AllDelegable(rules, grants, Distinct(requests), now) {
      DelegateOnce(rules, issuer, grants, subject, requests, now, next);
      DelegateHasSources(rules, issuer, grants, subject, requests, now, next);
    }
  }

  predicate Allowed(grants: seq<Grant>, r: Request, now: int, operation: Option<string>) {
    FindGrant(grants, r, now, false, operation, false).Some?
  }

  /** The requests that the grants do not allow now. */
  function Missing(grants: seq<Grant>, requests: seq<Request>, now: int, operation: Option<string>): seq<Request> {
    if |requests| == 0 then []
    else
      var last := requests[|requests| - 1];
      Missing(grants, requests[..|requests| - 1], now, operation) + if Allowed(grants, last, now, operation) then []
        else [last]
  }

  /** The requests that they do allow, in order. */
  function Held(grants: seq<Grant>, requests: seq<Request>, now: int, operation: Option<string>): seq<Request> {
    if |requests| == 0 then []
    else
      var last := requests[|requests| - 1];
      Held(grants, requests[..|requests| - 1], now, operation) + if Allowed(grants, last, now, operation) then [last]
        else []
  }

  lemma {:induction false} HeldExactly(grants: seq<Grant>, requests: seq<Request>, now: int,
                                       operation: Option<string>, r: Request)
    ensures r in Held(grants, requests, now, operation) <==> r in requests && Allowed(grants, r, now, operation)
    decreases |requests|
  {
    if |requests| > 0 {
      HeldExactly(grants, requests[..|requests| - 1], now, operation, r);
    }
  }

  lemma {:induction false} MissingExactly(grants: seq<Grant>, requests: seq<Request>, now: int,
                                          operation: Option<string>, r: Request)
    ensures r in Missing(grants, requests, now, operation) <==> r in requests && !Allowed(grants, r, now, operation)
    decreases |requests|
  {
    if |requests| > 0 {
      MissingExactly(grants, requests[..|requests| - 1], now, operation, r);
    }
  }

  // ---- routing ----

  /** `Path(k)`: the `k`-th ancestor, counted from the parent, is the nearest that can hand the grants down. */
  datatype Route = Human | Path(holder: nat) | Refused

  predicate RootCovers(root: seq<Grant>, requests: seq<Request>, now: int) {
    forall i :: 0 <= i < |requests| ==> FindGrant(root, requests[i], now, false, None, true).Some?
  }

  predicate AnyHuman(rules: seq<Rule>, requests: seq<Request>) {
    exists i :: 0 <= i < |requests| && RuleFor(rules, requests[i].capability).human
  }

  function NearestHolder(rules: seq<Rule>, ancestors: seq<seq<Grant>>, requests: seq<Request>, now: int)
    : (r: Option<nat>)
    ensures r.Some? ==> r.value < |ancestors| && AllDelegable(rules, ancestors[r.value], requests, now)
    ensures r.Some? ==> forall k :: 0 <= k < r.value ==> !AllDelegable(rules, ancestors[k], requests, now)
    ensures r.None? ==> forall k :: 0 <= k < |ancestors| ==> !AllDelegable(rules, ancestors[k], requests, now)
  {
    if |ancestors| == 0 then None
    else if AllDelegable(rules, ancestors[0], requests, now) then Some(0)
    else
      var rest := NearestHolder(rules, ancestors[1..], requests, now);
      if rest.Some? then Some(rest.value + 1) else None
  }

  function Plan(rules: seq<Rule>, ancestors: seq<seq<Grant>>, requests: seq<Request>, now: int): Route {
    var rs := Distinct(requests);
    if |rs| == 0 || |ancestors| == 0 || !RootCovers(ancestors[|ancestors| - 1], rs, now) then Refused
    else if AnyHuman(rules, rs) then Human
    else
      var holder := NearestHolder(rules, ancestors, rs, now);
      if holder.Some? then Path(holder.value) else Refused
  }

  // ---- methods ----

  /** Collects a source grant for every request, stopping at the first that cannot be delegated. */
  method ValidateDelegation(rules: seq<Rule>, grants: seq<Grant>, requests: seq<Request>, now: int)
    returns (sources: Option<seq<Grant>>)
    ensures sources.Some? <==> AllDelegable(rules, grants, Distinct(requests), now)
    ensures sources.Some? ==>
              && |sources.value| == |Distinct(requests)|
              && forall i :: 0 <= i < |sources.value| ==>
                   FindGrant(grants, Distinct(requests)[i], now, true, None, false) == Some(sources.value[i])
  {
    var rs := Distinct(requests);
    var found: seq<Grant> := [];
    for i := 0 to |rs|
      invariant |found| == i
      invariant forall k :: 0 <= k < i ==> Delegable(rules, grants, rs[k], now)
      invariant forall k :: 0 <= k < i ==> FindGrant(grants, rs[k], now, true, None, false) == Some(found[k])
    {
      var rule := RuleFor(rules, rs[i].capability);
      if rule.human || !rule.delegable {
        return None;
      }
      var source := FindGrant(grants, rs[i], now, true, None, false);
      if source.None? {
        return None;
      }
      found := found + [source.value];
    }
    return Some(found);
  }

  /** Sorts the requests: for each one that is held, a grant that fits it; the others are missing. */
  method Check(grants: seq<Grant>, requests: seq<Request>, now: int, operation: Option<string>)
    returns (matched: seq<Grant>, missing: seq<Request>)
    ensures missing == Missing(grants, Distinct(requests), now, operation)
    ensures var held := Held(grants, Distinct(requests), now, operation);
            && |matched| == |held|
            && forall i :: 0 <= i < |held| ==>
                 matched[i] in grants && Fits(matched[i], held[i], now, false, operation, false)
    ensures |matched| + |missing| == |Distinct(requests)|
  {
    var rs := Distinct(requests);
    matched, missing := [], [];
    for i := 0 to |rs|
      invariant missing == Missing(grants, rs[..i], now, operation)
      invariant |matched| + |missing| == i && |matched| == |Held(grants, rs[..i], now, operation)|
      invariant forall k :: 0 <= k < |matched| ==>
                  matched[k] in grants && Fits(matched[k], Held(grants, rs[..i], now, operation)[k], now, false,
                                               operation, false)
    {
      assert rs[..i + 1][..i] == rs[..i];
      var grant := FindGrant(grants, rs[i], now, false, operation, false);
      if grant.Some? {
        matched := matched + [grant.value];
      } else {
        missing := missing + [rs[i]];
      }
    }
    assert rs[..|rs|] == rs;
  }

  method PlanRequest(rules: seq<Rule>, ancestors: seq<seq<Grant>>, requests: seq<Request>, now: int)
    returns (route: Route)
    ensures route == Plan(rules, ancestors, requests, now)
  {
    var rs := Distinct(requests);
    if |rs| == 0 || |ancestors| == 0 {
      return Refused;
    }
    var human := false;
    for i := 0 to |rs|
      invariant forall k :: 0 <= k < i ==> FindGrant(ancestors[|ancestors| - 1], rs[k], now, false, None, true).Some?
      invariant human <==> exists k :: 0 <= k < i && RuleFor(rules, rs[k].capability).human
    {
      if FindGrant(ancestors[|ancestors| - 1], rs[i], now, false, None, true).None? {
        return Refused;
      }
      if RuleFor(rules, rs[i].capability).human {
        human := true;
      }
    }
    if human {
      return Human;
    }
    var holder := FindHolder(rules, ancestors, rs, now);
    return if holder.Some? then Path(holder.value) else Refused;
  }

  method FindHolder(rules: seq<Rule>, ancestors: seq<seq<Grant>>, requests: seq<Request>, now: int)
    returns (r: Option<nat>)
    ensures r == NearestHolder(rules, ancestors, requests, now)
  {
    for k := 0 to |ancestors|
      invariant forall j :: 0 <= j < k ==> !AllDelegable(rules, ancestors[j], requests, now)
    {
      if AllDelegable(rules, ancestors[k], requests, now) {
        return Some(k);
      }
    }
    return None;
  }

  // ---- handing down ----

  /** Whoever receives delegated grants can hand them on in turn, at the same time. */
  lemma ReceiverDelegates(rules: seq<Rule>, issuer: nat, grants: seq<Grant>, subject: nat, own: seq<Grant>,
                          requests: seq<Request>, now: int, next: nat)
    requires AllDelegable(rules, grants, Distinct(requests), now)
    ensures var more := Delegate(rules, issuer, grants, subject, requests, now, next).value;
            AllDelegable(rules, own + more, Distinct(requests), now)
  {
    var rs := Distinct(requests);
    var more := Delegate(rules, issuer, grants, subject, requests, now, next).value;
    forall i | 0 <= i < |rs| ensures Delegable(rules, own + more, rs[i], now) {
      assert Delegable(rules, grants, rs[i], now);
      ContainsExactly(rs[i].scope, rs[i].scope);
      FindsAny(own + more, |own| + i, rs[i], now, true, None, false);
    }
  }

  /** One approved hop: the `k`-th of the chain hands down to the one before it. */
  function Hop(rules: seq<Rule>, chain: seq<seq<Grant>>, k: nat, requests: seq<Request>, now: int, next: nat)
    : (r: Option<seq<seq<Grant>>>)
    requires 0 < k < |chain|
    ensures r.Some? ==> |r.value| == |chain|
  {
    var more := Delegate(rules, k, chain[k], k - 1, requests, now, next);
    if more.None? then None else Some(chain[k - 1 := chain[k - 1] + more.value])
  }

  lemma HopDelivers(rules: seq<Rule>, chain: seq<seq<Grant>>, k: nat, requests: seq<Request>, now: int, next: nat)
    requires 0 < k < |chain| && AllDelegable(rules, chain[k], Distinct(requests), now)
    ensures var handed := Hop(rules, chain, k, requests, now, next);
            handed.Some? && AllDelegable(rules, handed.value[k - 1], Distinct(requests), now)
  {
    ReceiverDelegates(rules, k, chain[k], k - 1, chain[k - 1], requests, now, next);
    var more := Delegate(rules, k, chain[k], k - 1, requests, now, next);
    assert Hop(rules, chain, k, requests, now, next) == Some(chain[k - 1 := chain[k - 1] + more.value]);
  }

  /** Below the holder and not below `k`, tasks have gained grants; all the others hold what they held. */
  predicate Grown(chain: seq<seq<Grant>>, after: seq<seq<Grant>>, k: nat, holder: nat) {
    && |after| == |chain|
    && forall j :: 0 <= j < |chain| ==> chain[j] <= after[j] && (j >= holder || j < k ==> after[j] == chain[j])
  }

  lemma HopGrows(rules: seq<Rule>, chain: seq<seq<Grant>>, after: seq<seq<Grant>>, k: nat, holder: nat,
                 requests: seq<Request>,
                 now: int, next: nat)
    requires 0 < k <= holder < |chain| && Grown(chain, after, k, holder)
    ensures var handed := Hop(rules, after, k, requests, now, next);
            handed.Some? ==> Grown(chain, handed.value, k - 1, holder)
  {
    var more := Delegate(rules, k, after[k], k - 1, requests, now, next);
    if more.Some? {
      assert chain[k - 1] <= after[k - 1] <= after[k - 1] + more.value;
    }
  }

  /**
   * The planned path delivers: when every ancestor from the holder down approves its hop, no hop is refused and the
   * requester, first in the chain, ends up with everything it asked for; nobody loses a grant.
   */
  method ApprovePath(rules: seq<Rule>, chain: seq<seq<Grant>>, holder: nat, requests: seq<Request>, now: int, next: nat)
    returns (refused: bool, after: seq<seq<Grant>>)
    requires holder < |chain| && AllDelegable(rules, chain[holder], Distinct(requests), now)
    ensures !refused && |after| == |chain|
    ensures Missing(after[0], Distinct(requests), now, None) == []
    ensures forall j :: 0 <= j < |chain| ==> chain[j] <= after[j] && (j >= holder ==> after[j] == chain[j])
  {
    after := chain;
    var k, id := holder, next;
    while k > 0
      invariant 0 <= k <= holder && Grown(chain, after, k, holder) && id >= 0
      invariant AllDelegable(rules, after[k], Distinct(requests), now)
    {
      HopDelivers(rules, after, k, requests, now, id);
      HopGrows(rules, chain, after, k, holder, requests, now, id);
      var handed := Hop(rules, after, k, requests, now, id);
      if handed.None? {
        return true, after;
      }
      after := handed.value;
      id := id + |Distinct(requests)|;
      k := k - 1;
    }
    DelegableAllowed(rules, after[0], Distinct(requests), now);
    refused := false;
  }

  /** Whoever could hand a grant on may use it itself. */
  lemma RequestAllowed(rules: seq<Rule>, grants: seq<Grant>, r: Request, now: int)
    requires Delegable(rules, grants, r, now)
    ensures Allowed(grants, r, now, None)
  {
    var g := FindGrant(grants, r, now, true, None, false).value;
    var i :| 0 <= i < |grants| && grants[i] == g;
    FindsAny(grants, i, r, now, false, None, false);
  }

  lemma {:induction false} DelegableAllowed(rules: seq<Rule>, grants: seq<Grant>, requests: seq<Request>, now: int)
    requires AllDelegable(rules, grants, requests, now)
    ensures Missing(grants, requests, now, None) == []
    decreases |requests|
  {
    if |requests| > 0 {
      DelegableAllowed(rules, grants, requests[..|requests| - 1], now);
      RequestAllowed(rules, grants, requests[|requests| - 1], now);
    }
  }

  // ---- using up ----

  /** A limited grant is used up by one operation at a time; the same operation may come back. */
  function Consumed(g: Grant, operation: string): Option<Grant> {
    if g.uses.None? || g.consumedBy == Some(operation) then Some(g)
    else if g.uses.value == 0 then None
    else Some(g.(uses := Some(g.uses.value - 1), consumedBy := Some(operation)))
  }

  /** What a human granted for one use serves the operation it was first used for, again and again, and no other. */
  lemma OneUse(g: Grant, r: Request, first: string, other: string, now: int, later: int)
    requires g.uses == Some(1) && g.consumedBy.None? && Fits(g, r, now, false, Some(first), false)
    ensures Consumed(g, first).Some?
    ensures Fits(Consumed(g, first).value, r, later, false, Some(other), false) <==> (other == first && Live(g, later))
    ensures other != first ==> Consumed(Consumed(g, first).value, other).None?
  {
  }
}
