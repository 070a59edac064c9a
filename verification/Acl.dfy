/** src/rag/security/acl.py: who may see what, and the cache fingerprint of a caller's reach. */
module Acl {
  import opened Schemas

  /** src/rag/security/acl.py:6-13 */
  predicate IsAllowed(p: Principal, acl: AclTags) {
    p.tenant == acl.tenant && (acl.allowGroups == {} || p.groups * acl.allowGroups != {})
  }

  /** What the rule is for: a chunk of one's own tenant, either for all of it or for a group one belongs to. */
  ghost predicate InReach(p: Principal, acl: AclTags) {
    acl.tenant == p.tenant && (acl.allowGroups == {} || exists g :: g in p.groups && g in acl.allowGroups)
  }

  lemma AllowedIsInReach(p: Principal, acl: AclTags)
    ensures IsAllowed(p, acl) <==> InReach(p, acl)
  {
    if IsAllowed(p, acl) && acl.allowGroups != {} {
      var g :| g in p.groups * acl.allowGroups;
    }
    if InReach(p, acl) && acl.allowGroups != {} {
      var g :| g in p.groups && g in acl.allowGroups;
      assert g in p.groups * acl.allowGroups;
    }
  }

  /**
   * The four cases: a chunk of another tenant is never shown; one of the tenant with no group list always is; one
   * whose list holds a group of the caller is; and one with a list that holds none is not.
   */
  lemma ReachLaws(p: Principal, acl: AclTags)
    ensures acl.tenant != p.tenant ==> !IsAllowed(p, acl)
    ensures acl.tenant == p.tenant && acl.allowGroups == {} ==> IsAllowed(p, acl)
    ensures acl.tenant == p.tenant ==> forall g :: g in p.groups && g in acl.allowGroups ==> IsAllowed(p, acl)
    ensures acl.allowGroups != {} && (forall g <- p.groups :: g !in acl.allowGroups) ==> !IsAllowed(p, acl)
  {
    AllowedIsInReach(p, acl);
  }

  /** Joining a group takes no chunk away, and adds exactly the chunks of the tenant that list the group. */
  lemma JoiningAdds(p: Principal, group: string, acl: AclTags)
    ensures IsAllowed(p.(groups := p.groups + {group}), acl) <==>
            IsAllowed(p, acl) || (acl.tenant == p.tenant && group in acl.allowGroups)
  {
    AllowedIsInReach(p, acl);
    AllowedIsInReach(p.(groups := p.groups + {group}), acl);
    assert group in p.(groups := p.groups + {group}).groups;
  }

  // ---- Python's order on strings, and `sorted` over a set of them ----

  predicate Leq(a: string, b: string) {
    a == "" || (b != "" && (a[0] < b[0] || (a[0] == b[0] && Leq(a[1..], b[1..]))))
  }

  lemma {:induction false} LeqTotal(a: string, b: string)
    ensures Leq(a, b) || Leq(b, a)
  {
    if a != "" && b != "" && a[0] == b[0] {
      LeqTotal(a[1..], b[1..]);
    }
  }

  lemma {:induction false} LeqAntisymmetric(a: string, b: string)
    requires Leq(a, b) && Leq(b, a)
    ensures a == b
  {
    if a != "" {
      LeqAntisymmetric(a[1..], b[1..]);
      assert a == [a[0]] + a[1..] && b == [b[0]] + b[1..];
    }
  }

  lemma {:induction false} LeqTransitive(a: string, b: string, c: string)
    requires Leq(a, b) && Leq(b, c)
    ensures Leq(a, c)
  {
    if a != "" && a[0] == b[0] && b[0] == c[0] {
      LeqTransitive(a[1..], b[1..], c[1..]);
    }
  }

  predicate IsLeast(x: string, s: set<string>) {
    x in s && forall y :: y in s ==> Leq(x, y)
  }

  lemma {:induction false} LeastExists(s: set<string>)
    requires s != {}
    ensures exists x :: IsLeast(x, s)
  {
    var y :| y in s;
    var rest := s - {y};
    LeqTotal(y, y);
    if rest == {} {
      assert s == {y};
      assert IsLeast(y, s);
    } else {
      LeastExists(rest);
      var x :| IsLeast(x, rest);
      LeqTotal(x, y);
      if Leq(x, y) {
        assert IsLeast(x, s);
      } else {
        forall z | z in s
          ensures Leq(y, z)
        {
          if z != y {
            LeqTransitive(y, x, z);
          }
        }
        assert IsLeast(y, s);
      }
    }
  }

  lemma LeastUnique(x: string, y: string, s: set<string>)
    requires IsLeast(x, s) && IsLeast(y, s)
    ensures x == y
  {
    LeqAntisymmetric(x, y);
  }

  lemma OneLeast(s: set<string>)
    ensures forall x, y :: IsLeast(x, s) && IsLeast(y, s) ==> x == y
  {
    forall x, y | IsLeast(x, s) && IsLeast(y, s)
      ensures x == y
    {
      LeastUnique(x, y, s);
    }
  }

  /** `sorted(groups)` */
  function Sorted(groups: set<string>): (r: seq<string>)
    ensures forall g :: g in r <==> g in groups
    decreases |groups|
  {
    if groups == {} then []
    else
      LeastExists(groups);
      OneLeast(groups);
      var x :| x in groups && IsLeast(x, groups);
      [x] + Sorted(groups - {x})
  }

  /** `sep.join(parts)` */
  function Join(sep: char, parts: seq<string>): string {
    if parts == [] then ""
    else if |parts| == 1 then parts[0]
    else parts[0] + [sep] + Join(sep, parts[1..])
  }

  /** src/rag/security/acl.py:16-34 */
  function Fingerprint(p: Principal): string {
    p.tenant + "|" + Join(',', Sorted(p.groups))
  }

  // ---- Reading a fingerprint back ----

  /** Two strings cut at the first `sep`: the parts before it agree, and so do the parts after it. */
  lemma FirstCut(a: string, b: string, x: string, y: string, sep: char)
    requires sep !in a && sep !in b && a + [sep] + x == b + [sep] + y
    ensures a == b && x == y
  {
    var s := a + [sep] + x;
    assert s[|a|] == sep && s[|b|] == sep;
    assert forall i :: 0 <= i < |a| ==> s[i] == a[i] && s[i] != sep;
    assert forall i :: 0 <= i < |b| ==> s[i] == b[i] && s[i] != sep;
    assert |a| == |b|;
    assert a == s[..|a|] && b == s[..|b|];
    assert x == s[|a| + 1..] && y == s[|b| + 1..];
  }

  ghost predicate CleanName(name: string) {
    name != "" && ',' !in name
  }

  /** Names without commas, none of them empty, are recovered from the joined string. */
  lemma {:induction false} JoinInjective(a: seq<string>, b: seq<string>)
    requires forall g :: g in a || g in b ==> CleanName(g)
    requires Join(',', a) == Join(',', b)
    ensures a == b
    decreases |a|
  {
    if a == [] || b == [] {
      JoinNonempty(a);
      JoinNonempty(b);
    } else if |a| == 1 || |b| == 1 {
      JoinComma(a);
      JoinComma(b);
      assert a[0] in a && b[0] in b;
    } else {
      assert a[0] in a && b[0] in b;
      FirstCut(a[0], b[0], Join(',', a[1..]), Join(',', b[1..]), ',');
      JoinInjective(a[1..], b[1..]);
      assert a == [a[0]] + a[1..] && b == [b[0]] + b[1..];
    }
  }

  lemma JoinNonempty(a: seq<string>)
    requires forall g :: g in a ==> CleanName(g)
    ensures Join(',', a) == "" ==> a == []
  {
    if a != [] {
      assert a[0] in a;
    }
  }

  lemma JoinComma(a: seq<string>)
    requires forall g :: g in a ==> CleanName(g)
    ensures |a| > 1 <==> ',' in Join(',', a)
  {
    if |a| >= 1 {
      assert a[0] in a;
    }
    if |a| > 1 {
      assert Join(',', a)[|a[0]|] == ',';
    }
  }

  ghost predicate Clean(p: Principal) {
    '|' !in p.tenant && forall g :: g in p.groups ==> CleanName(g)
  }

  /** Two callers reach the same documents. */
  ghost predicate SameReach(p: Principal, q: Principal) {
    forall acl :: IsAllowed(p, acl) <==> IsAllowed(q, acl)
  }

  /** Reach is the rule's, is decided by tenant and groups, and decides them. */
  lemma ReachIsTenantAndGroups(p: Principal, q: Principal)
    ensures forall acl :: IsAllowed(p, acl) <==> InReach(p, acl)
    ensures SameReach(p, q) <==> p.tenant == q.tenant && p.groups == q.groups
  {
    forall acl ensures IsAllowed(p, acl) <==> InReach(p, acl) {
      AllowedIsInReach(p, acl);
    }
    if SameReach(p, q) {
      assert IsAllowed(p, AclTags(p.tenant, {}));
      assert p.tenant == q.tenant;
      forall g
        ensures g in p.groups <==> g in q.groups
      {
        var acl := AclTags(p.tenant, {g});
        assert IsAllowed(p, acl) <==> IsAllowed(q, acl);
        assert g in p.groups <==> p.groups * {g} != {} by { assert g in p.groups ==> g in p.groups * {g}; }
        assert g in q.groups <==> q.groups * {g} != {} by { assert g in q.groups ==> g in q.groups * {g}; }
      }
    }
  }

  lemma FingerprintReadsBack(p: Principal, q: Principal)
    requires Clean(p) && Clean(q) && Fingerprint(p) == Fingerprint(q)
    ensures p.tenant == q.tenant && p.groups == q.groups
  {
    var a, b := Sorted(p.groups), Sorted(q.groups);
    FirstCut(p.tenant, q.tenant, Join(',', a), Join(',', b), '|');
    JoinInjective(a, b);
    assert forall g :: g in p.groups <==> g in q.groups;
  }

  /** Full abstraction: one fingerprint, one reach. Neither merges different reach nor splits equal reach. */
  lemma FingerprintFullyAbstract(p: Principal, q: Principal)
    requires Clean(p) && Clean(q)
    ensures Fingerprint(p) == Fingerprint(q) <==> SameReach(p, q)
  {
    ReachIsTenantAndGroups(p, q);
    if Fingerprint(p) == Fingerprint(q) {
      FingerprintReadsBack(p, q);
    }
  }

  /** Two strings cut at the last `sep`. */
  lemma LastCut(a: string, b: string, x: string, y: string, sep: char)
    requires sep !in x && sep !in y && a + [sep] + x == b + [sep] + y
    ensures a == b && x == y
  {
    var s := a + [sep] + x;
    assert s == b + [sep] + y;
    assert s[|a|] == sep && s[|b|] == sep;
    assert forall i :: |a| < i < |s| ==> s[i] == x[i - |a| - 1];
    assert forall i :: |b| < i < |s| ==> s[i] == y[i - |b| - 1];
    assert |a| == |b|;
    assert a == s[..|a|] && b == s[..|b|];
    assert x == s[|a| + 1..] && y == s[|b| + 1..];
  }

  lemma {:induction false} JoinFree(c: char, parts: seq<string>)
    requires c != ',' && forall g :: g in parts ==> c !in g
    ensures c !in Join(',', parts)
  {
    if |parts| > 1 {
      JoinFree(c, parts[1..]);
      assert parts[0] in parts;
    } else if |parts| == 1 {
      assert parts[0] in parts;
    }
  }

  /** The other clean world: bars may be in tenants, when they are in no group name. */
  ghost predicate CleanGroups(p: Principal) {
    forall g :: g in p.groups ==> CleanName(g) && '|' !in g
  }

  /** There too one fingerprint is one reach. `Clean` is therefore enough, and not the only way. */
  lemma BarsInTenants(p: Principal, q: Principal)
    requires CleanGroups(p) && CleanGroups(q)
    ensures Fingerprint(p) == Fingerprint(q) <==> SameReach(p, q)
  {
    ReachIsTenantAndGroups(p, q);
    if Fingerprint(p) == Fingerprint(q) {
      var a, b := Sorted(p.groups), Sorted(q.groups);
      JoinFree('|', a);
      JoinFree('|', b);
      LastCut(p.tenant, q.tenant, Join(',', a), Join(',', b), '|');
      JoinInjective(a, b);
      assert forall g :: g in p.groups <==> g in q.groups;
    }
  }

  lemma SortedOne(g: string)
    ensures Sorted({g}) == [g]
  {
    LeastExists({g});
    assert Sorted({g}) == [g] + Sorted({g} - {g}) by {
      var x :| IsLeast(x, {g});
      LeastUnique(x, g, {g});
    }
    assert {g} - {g} == {};
  }

  /** But the two worlds do not mix: a bar in a tenant, and one in a group name. */
  lemma BarsCollide()
    ensures exists p, q :: Clean(q) && CleanGroups(p) && Fingerprint(p) == Fingerprint(q) && !SameReach(p, q)
  {
    var p, q := Principal("s", {"c"}, "a|b"), Principal("s", {"b|c"}, "a");
    SortedOne("c");
    SortedOne("b|c");
    ReachIsTenantAndGroups(p, q);
    assert Fingerprint(p) == "a|b|c" == Fingerprint(q);
    assert Clean(q) && CleanGroups(p);
  }

  /** Why names must be clean: an empty group name and no group at all share a fingerprint, but not a reach. */
  lemma UncleanNamesCollide()
    ensures exists p, q :: Fingerprint(p) == Fingerprint(q) && !SameReach(p, q)
  {
    var p, q := Principal("s", {}, "t"), Principal("s", {""}, "t");
    var acl := AclTags("t", {""});
    assert "" in q.groups * acl.allowGroups;
    assert !IsAllowed(p, acl) && IsAllowed(q, acl);
    SortedOne("");
    assert Join(',', [""]) == "" == Join(',', []);
    assert Fingerprint(p) == Fingerprint(q);
  }
}
