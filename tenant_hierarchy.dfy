/** The tenant forest the dashboard shows (`DashboardService.BuildTenantHierarchy`):
    what it is, and what it guarantees about a flat list of parent-pointer tenants. */
module TenantHierarchy {
  import opened Common
  import opened Guids
  import opened Models
  import opened ViewModels

  /** `tenants.ToLookup(t => t.ParentTenantId)[parent]`: the tenants with that parent,
      in input order. */
  function ChildrenOf(ts: seq<Tenant>, parent: Option<Guid>): (cs: seq<Tenant>)
    ensures |cs| <= |ts|
    ensures forall k :: 0 <= k < |cs| ==> cs[k].ParentTenantId == parent
  {
    if ts == [] then []
    else if ts[0].ParentTenantId == parent then [ts[0]] + ChildrenOf(ts[1..], parent)
    else ChildrenOf(ts[1..], parent)
  }

  /** A group of a list with distinct ids has distinct ids. */
  lemma {:induction false} ChildrenOfDistinct(ts: seq<Tenant>, parent: Option<Guid>)
    requires DistinctIds(ts)
    ensures DistinctIds(ChildrenOf(ts, parent))
  {
    if ts != [] {
      var rest := ChildrenOf(ts[1..], parent);
      ChildrenOfDistinct(ts[1..], parent);
      forall k | 0 <= k < |rest| ensures rest[k].TenantId != ts[0].TenantId {
        ChildrenOfSound(ts[1..], parent, k);
        var j :| 0 <= j < |ts[1..]| && ts[1..][j] == rest[k];
        assert ts[j + 1] == rest[k];
      }
    }
  }

  /** Every member of a group is a tenant of the list. */
  lemma {:induction false} ChildrenOfSound(ts: seq<Tenant>, parent: Option<Guid>, k: int)
    requires 0 <= k < |ChildrenOf(ts, parent)|
    ensures ChildrenOf(ts, parent)[k] in ts
  {
    var rest := ChildrenOf(ts[1..], parent);
    if ts[0].ParentTenantId != parent || k > 0 {
      var k' := if ts[0].ParentTenantId == parent then k - 1 else k;
      assert ChildrenOf(ts, parent)[k] == rest[k'];
      ChildrenOfSound(ts[1..], parent, k');
      assert rest[k'] in ts[1..];
    }
  }

  /** Every tenant naming `parent` is in its group. */
  lemma {:induction false} ChildrenOfComplete(ts: seq<Tenant>, parent: Option<Guid>, i: int)
    requires 0 <= i < |ts| && ts[i].ParentTenantId == parent
    ensures ts[i] in ChildrenOf(ts, parent)
  {
    if i > 0 {
      assert ts[i] == ts[1..][i - 1];
      ChildrenOfComplete(ts[1..], parent, i - 1);
    }
  }

  /** No two tenants share a `TenantId`. */
  predicate DistinctIds(ts: seq<Tenant>) {
    forall i, j :: 0 <= i < j < |ts| ==> ts[i].TenantId != ts[j].TenantId
  }

  /** The lookup keeps input order: the group of a concatenation is the concatenation of
      the groups. */
  lemma {:induction false} ChildrenOfAppend(a: seq<Tenant>, b: seq<Tenant>, parent: Option<Guid>)
    ensures ChildrenOf(a + b, parent) == ChildrenOf(a, parent) + ChildrenOf(b, parent)
  {
    if a == [] {
      assert a + b == b;
    } else {
      assert (a + b)[0] == a[0];
      assert (a + b)[1..] == a[1..] + b;
      ChildrenOfAppend(a[1..], b, parent);
      if a[0].ParentTenantId == parent {
        assert [a[0]] + (ChildrenOf(a[1..], parent) + ChildrenOf(b, parent))
            == ([a[0]] + ChildrenOf(a[1..], parent)) + ChildrenOf(b, parent);
      }
    }
  }

  /** The node built for one tenant: its id, name and type, the given level, zero agent
      counts, `IsActive` copied, expanded. */
  function NodeFor(t: Tenant, level: int, children: seq<TenantNode>): (n: TenantNode)
    ensures n.TenantId == t.TenantId && n.Name == t.Name && n.Type == t.TenantType
    ensures n.Level == level && n.AgentCount == 0 && n.OnlineAgentCount == 0
    ensures n.IsActive == t.IsActive && n.IsExpanded && n.Children == children
  {
    TenantNode(t.TenantId, t.Name, t.TenantType, level, 0, 0, t.IsActive, true, children)
  }

  /** Why the recursion needs its bound: a tenant whose parent id is its own id makes the
      children of that id include a node for itself, built by the same call one level
      deeper, however deep the recursion already is. Distinct ids keep such a tenant away
      from every root; a root sharing its id reaches it, and `BuildChildren` then never
      returns. */
  lemma SelfParentRecursesAgain(ts: seq<Tenant>, i: int, level: int, fuel: nat) returns (k: nat)
    requires 0 <= i < |ts| && ts[i].ParentTenantId == Some(ts[i].TenantId)
    ensures var f := Forest(ts, Some(ts[i].TenantId), level, fuel + 1);
      && k < |f| && f[k].TenantId == ts[i].TenantId
      && f[k].Children == Forest(ts, Some(ts[i].TenantId), level + 1, fuel)
  {
    ChildrenOfComplete(ts, ts[i].ParentTenantId, i);
    var cs := ChildrenOf(ts, Some(ts[i].TenantId));
    k :| 0 <= k < |cs| && cs[k] == ts[i];
  }

  /** `BuildChildren(nodes, parent, level)` with at most `fuel` levels of recursion. */
  function Forest(ts: seq<Tenant>, parent: Option<Guid>, level: int, fuel: nat): (f: seq<TenantNode>)
    decreases fuel
    ensures fuel == 0 ==> f == []
    ensures fuel > 0 ==> |f| == |ChildrenOf(ts, parent)|
  {
    if fuel == 0 then []
    else
      var cs := ChildrenOf(ts, parent);
      seq(|cs|, k requires 0 <= k < |cs| =>
        NodeFor(cs[k], level, Forest(ts, Some(cs[k].TenantId), level + 1, fuel - 1)))
  }

  /** A forest `f` grows one node at a time: its first `k` nodes followed by the node of
      the `k`-th tenant of the lookup group, over the forest below that tenant,
      are its first `k + 1`. */
  lemma ForestPrefix(ts: seq<Tenant>, parent: Option<Guid>, level: int, fuel: nat, f: seq<TenantNode>,
                     k: nat, prefix: seq<TenantNode>, node: TenantNode)
    requires fuel > 0 && f == Forest(ts, parent, level, fuel)
    requires k < |ChildrenOf(ts, parent)| && prefix == f[..k]
    requires node == NodeFor(ChildrenOf(ts, parent)[k], level,
                             Forest(ts, Some(ChildrenOf(ts, parent)[k].TenantId), level + 1, fuel - 1))
    ensures prefix + [node] == f[..k + 1]
  {
    PrefixStep(f, k);
  }

  /** Taking one more element of a sequence appends that element. */
  lemma PrefixStep<T>(s: seq<T>, k: nat)
    requires k < |s|
    ensures s[..k + 1] == s[..k] + [s[k]]
  {
  }

  /** The whole forest: the tenants without a parent at level 0, recursion bounded by the
      number of tenants. */
  function Hierarchy(ts: seq<Tenant>): seq<TenantNode> {
    Forest(ts, None, 0, |ts|)
  }

  /** `nodes` is the forest below `parent` at `level`: one node per tenant of the lookup
      group, in its order, each built by `NodeFor` over the forest below itself. */
  ghost predicate Faithful(ts: seq<Tenant>, nodes: seq<TenantNode>, parent: Option<Guid>, level: int)
    decreases nodes
  {
    var cs := ChildrenOf(ts, parent);
    && |nodes| == |cs|
    && forall k :: 0 <= k < |nodes| ==>
         && nodes[k] == NodeFor(cs[k], level, nodes[k].Children)
         && Faithful(ts, nodes[k].Children, Some(cs[k].TenantId), level + 1)
  }

  /** The position of the first tenant with id `x`, if there is one. */
  function Find(ts: seq<Tenant>, x: Guid): (r: Option<nat>)
    ensures r.Some? ==> r.value < |ts| && ts[r.value].TenantId == x
    ensures r.None? ==> forall i :: 0 <= i < |ts| ==> ts[i].TenantId != x
  {
    if ts == [] then None
    else if ts[0].TenantId == x then Some(0)
    else match Find(ts[1..], x)
      case Some(j) => Some(j + 1)
      case None => None
  }

  /** With distinct ids, `Find` locates every tenant at its own position. */
  lemma FindDistinct(ts: seq<Tenant>, i: int)
    requires DistinctIds(ts) && 0 <= i < |ts|
    ensures Find(ts, ts[i].TenantId) == Some(i)
  {
    assert Find(ts, ts[i].TenantId).Some?;
  }

  /** Following `n` parent links from `from` arrives at `to` (`None` is the top). */
  predicate Reaches(ts: seq<Tenant>, from: Option<Guid>, to: Option<Guid>, n: nat)
    decreases n
  {
    if n == 0 then from == to
    else
      && from.Some?
      && Find(ts, from.value).Some?
      && Reaches(ts, ts[Find(ts, from.value).value].ParentTenantId, to, n - 1)
  }

  /** The parent chain of `p` ends at `null`. */
  ghost predicate Rooted(ts: seq<Tenant>, p: Option<Guid>) {
    exists m :: Reaches(ts, p, None, m)
  }

  /** How many nodes of the forest carry `x`. */
  function Count(nodes: seq<TenantNode>, x: Guid): nat
    decreases nodes
  {
    if nodes == [] then 0
    else (if nodes[0].TenantId == x then 1 else 0) + Count(nodes[0].Children, x) + Count(nodes[1..], x)
  }

  /** How many nodes of the subtree rooted at `n` carry `x`. */
  function Occurrences(n: TenantNode, x: Guid): nat {
    (if n.TenantId == x then 1 else 0) + Count(n.Children, x)
  }

  // ---- parent chains ----

  /** The parent link of the tenant that `Find` picks for `a`. */
  function Up(ts: seq<Tenant>, a: Option<Guid>): Option<Guid>
    requires a.Some? && Find(ts, a.value).Some?
  {
    ts[Find(ts, a.value).value].ParentTenantId
  }

  lemma {:induction false} ReachesTrans(ts: seq<Tenant>, a: Option<Guid>, b: Option<Guid>, c: Option<Guid>, m: nat, n: nat)
    requires Reaches(ts, a, b, m) && Reaches(ts, b, c, n)
    ensures Reaches(ts, a, c, m + n)
    decreases m
  {
    if m > 0 {
      ReachesTrans(ts, Up(ts, a), b, c, m - 1, n);
    }
  }

  /** With distinct ids, every member of the group of `parent` reaches `parent` in one
      step. */
  lemma ChildReachesParent(ts: seq<Tenant>, parent: Option<Guid>, k: int)
    requires DistinctIds(ts) && 0 <= k < |ChildrenOf(ts, parent)|
    ensures Reaches(ts, Some(ChildrenOf(ts, parent)[k].TenantId), parent, 1)
  {
    var t := ChildrenOf(ts, parent)[k];
    ChildrenOfSound(ts, parent, k);
    var i :| 0 <= i < |ts| && ts[i] == t;
    FindDistinct(ts, i);
    assert Reaches(ts, ts[i].ParentTenantId, parent, 0);
  }

  /** A chain is determined by its start: whatever `a` reaches in `t` steps, the tenant
      it reaches in `m <= t` steps reaches in the remaining `t - m`. */
  lemma {:induction false} ReachesSplit(ts: seq<Tenant>, a: Option<Guid>, b: Option<Guid>, c: Option<Guid>, m: nat, t: nat)
    requires m <= t && Reaches(ts, a, b, m) && Reaches(ts, a, c, t)
    ensures Reaches(ts, b, c, t - m)
    decreases m
  {
    if m > 0 {
      ReachesSplit(ts, Up(ts, a), b, c, m - 1, t - 1);
    }
  }

  /** A chain passes through a single tenant at each distance. */
  lemma ReachesUnique(ts: seq<Tenant>, a: Option<Guid>, b: Option<Guid>, c: Option<Guid>, n: nat)
    requires Reaches(ts, a, b, n) && Reaches(ts, a, c, n)
    ensures b == c
  {
    ReachesSplit(ts, a, b, c, n, n);
  }

  /** A chain that ends at `null` has no cycle. */
  lemma {:induction false} NoCycleWhenRooted(ts: seq<Tenant>, q: Option<Guid>, n: nat, m: nat)
    requires Reaches(ts, q, None, m)
    ensures n >= 1 ==> !Reaches(ts, q, q, n)
    decreases m
  {
    if n >= 1 && Reaches(ts, q, q, n) && m > 0 {
      var p := Up(ts, q);
      assert Reaches(ts, p, p, 0);
      assert Reaches(ts, q, p, 1);
      ReachesSplit(ts, q, p, q, 1, n);
      ReachesTrans(ts, p, q, p, n - 1, 1);
      NoCycleWhenRooted(ts, p, n - 1 + 1, m - 1);
    }
  }

  /** Position `j` holds a tenant that `a` reaches in fewer than `n` steps. */
  ghost predicate OnChain(ts: seq<Tenant>, a: Option<Guid>, n: nat, j: int) {
    0 <= j < |ts| && exists k :: 0 <= k < n && Reaches(ts, a, Some(ts[j].TenantId), k)
  }

  /** A chain of `n` steps that ends at `null` passes through `n` different positions of
      the list. */
  lemma {:induction false} ChainIndices(ts: seq<Tenant>, a: Option<Guid>, n: nat) returns (s: set<int>)
    requires Reaches(ts, a, None, n)
    ensures |s| == n
    ensures forall j :: j in s ==> OnChain(ts, a, n, j)
    decreases n
  {
    if n == 0 {
      s := {};
    } else {
      var i := Find(ts, a.value).value;
      var p := Up(ts, a);
      assert Reaches(ts, p, p, 0);
      assert Reaches(ts, a, p, 1);
      var s' := ChainIndices(ts, p, n - 1);
      if i in s' {
        var k :| 0 <= k < n - 1 && Reaches(ts, p, Some(ts[i].TenantId), k);
        ReachesTrans(ts, a, p, a, 1, k);
        NoCycleWhenRooted(ts, a, k + 1, n);
      }
      s := s' + {i};
      forall j | j in s ensures OnChain(ts, a, n, j) {
        if j == i {
          assert Reaches(ts, a, Some(ts[j].TenantId), 0);
        } else {
          assert OnChain(ts, p, n - 1, j);
          var k :| 0 <= k < n - 1 && Reaches(ts, p, Some(ts[j].TenantId), k);
          ReachesTrans(ts, a, p, Some(ts[j].TenantId), 1, k);
          assert Reaches(ts, a, Some(ts[j].TenantId), 1 + k);
        }
      }
    }
  }

  lemma {:induction false} IndexSetBound(s: set<int>, bound: nat)
    requires forall j :: j in s ==> 0 <= j < bound
    ensures |s| <= bound
    decreases bound
  {
    if bound > 0 {
      var e := bound - 1;
      IndexSetBound(s - {e}, e);
      if e in s {
        assert s == (s - {e}) + {e};
      } else {
        assert s == s - {e};
      }
    } else {
      forall j | j in s ensures false { }
      assert s == {};
    }
  }

  /** No parent chain ending at `null` is longer than the list. */
  lemma ChainBound(ts: seq<Tenant>, a: Option<Guid>, n: nat)
    requires Reaches(ts, a, None, n)
    ensures n <= |ts|
  {
    var s := ChainIndices(ts, a, n);
    IndexSetBound(s, |ts|);
  }

  // ---- counting nodes ----

  lemma {:induction false} CountPositive(nodes: seq<TenantNode>, x: Guid)
    ensures Count(nodes, x) > 0 <==> exists k :: 0 <= k < |nodes| && Occurrences(nodes[k], x) > 0
    decreases nodes
  {
    if nodes != [] {
      CountPositive(nodes[1..], x);
      if Count(nodes[1..], x) > 0 {
        var k :| 0 <= k < |nodes[1..]| && Occurrences(nodes[1..][k], x) > 0;
        assert Occurrences(nodes[k + 1], x) > 0;
      }
      forall k | 1 <= k < |nodes| ensures nodes[k] == nodes[1..][k - 1] { }
    }
  }

  lemma {:induction false} CountAtMostOne(nodes: seq<TenantNode>, x: Guid)
    requires forall k :: 0 <= k < |nodes| ==> Occurrences(nodes[k], x) <= 1
    requires forall j, k :: 0 <= j < k < |nodes| ==> Occurrences(nodes[j], x) == 0 || Occurrences(nodes[k], x) == 0
    ensures Count(nodes, x) <= 1
    decreases nodes
  {
    if nodes != [] {
      var rest := nodes[1..];
      assert forall k :: 0 <= k < |rest| ==> rest[k] == nodes[k + 1];
      CountAtMostOne(rest, x);
      if Occurrences(nodes[0], x) > 0 {
        CountPositive(rest, x);
      }
    }
  }

  // ---- the shape of the forest ----

  /** A group is empty when no tenant is that far below `parent`. */
  lemma NoChildren(ts: seq<Tenant>, parent: Option<Guid>)
    requires DistinctIds(ts)
    requires forall x :: !Reaches(ts, Some(x), parent, 1)
    ensures ChildrenOf(ts, parent) == []
  {
    if ChildrenOf(ts, parent) != [] {
      ChildReachesParent(ts, parent, 0);
    }
  }

  /** What lies no deeper than `fuel` below `parent` lies less deep below its children. */
  lemma NothingDeeper(ts: seq<Tenant>, parent: Option<Guid>, k: int, fuel: nat)
    requires DistinctIds(ts) && 0 <= k < |ChildrenOf(ts, parent)|
    requires forall x :: !Reaches(ts, Some(x), parent, fuel + 1)
    ensures forall x :: !Reaches(ts, Some(x), Some(ChildrenOf(ts, parent)[k].TenantId), fuel)
  {
    var c := ChildrenOf(ts, parent)[k];
    ChildReachesParent(ts, parent, k);
    forall x ensures !Reaches(ts, Some(x), Some(c.TenantId), fuel) {
      if Reaches(ts, Some(x), Some(c.TenantId), fuel) {
        ReachesTrans(ts, Some(x), Some(c.TenantId), parent, fuel, 1);
      }
    }
  }

  /** The recursion bound is harmless when no tenant lies deeper below `parent` than it. */
  lemma {:induction false} ForestFaithful(ts: seq<Tenant>, parent: Option<Guid>, level: int, fuel: nat)
    requires DistinctIds(ts)
    requires forall x :: !Reaches(ts, Some(x), parent, fuel + 1)
    ensures Faithful(ts, Forest(ts, parent, level, fuel), parent, level)
    decreases fuel
  {
    var f := Forest(ts, parent, level, fuel);
    var cs := ChildrenOf(ts, parent);
    if fuel == 0 {
      NoChildren(ts, parent);
    } else {
      forall k | 0 <= k < |cs|
        ensures Faithful(ts, f[k].Children, Some(cs[k].TenantId), level + 1)
      {
        NothingDeeper(ts, parent, k, fuel);
        ForestFaithful(ts, Some(cs[k].TenantId), level + 1, fuel - 1);
      }
    }
  }

  /** With distinct ids, the forest is the full, unbounded `BuildChildren(result, null, 0)`:
      the roots are exactly the parentless tenants at level 0, in input order, and every
      node's children are exactly the tenants naming it as parent, in input order, one
      level deeper. */
  lemma HierarchyFaithful(ts: seq<Tenant>)
    requires DistinctIds(ts)
    ensures Faithful(ts, Hierarchy(ts), None, 0)
  {
    forall x ensures !Reaches(ts, Some(x), None, |ts| + 1) {
      if Reaches(ts, Some(x), None, |ts| + 1) {
        ChainBound(ts, Some(x), |ts| + 1);
      }
    }
    ForestFaithful(ts, None, 0, |ts|);
  }

  /** A forest of that shape is unique: there is only one answer `BuildChildren` can give. */
  lemma {:induction false} FaithfulUnique(ts: seq<Tenant>, a: seq<TenantNode>, b: seq<TenantNode>, parent: Option<Guid>, level: int)
    requires Faithful(ts, a, parent, level) && Faithful(ts, b, parent, level)
    ensures a == b
    decreases a
  {
    var cs := ChildrenOf(ts, parent);
    forall k | 0 <= k < |a| ensures a[k] == b[k] {
      FaithfulUnique(ts, a[k].Children, b[k].Children, Some(cs[k].TenantId), level + 1);
    }
  }

  /** Every node of the forest below `parent` is a tenant some steps below it. */
  lemma {:induction false} FaithfulReach(ts: seq<Tenant>, nodes: seq<TenantNode>, parent: Option<Guid>, level: int, x: Guid)
    requires DistinctIds(ts)
    requires Faithful(ts, nodes, parent, level)
    requires Count(nodes, x) > 0
    ensures exists n :: n >= 1 && Reaches(ts, Some(x), parent, n)
    decreases nodes
  {
    var cs := ChildrenOf(ts, parent);
    CountPositive(nodes, x);
    var k :| 0 <= k < |nodes| && Occurrences(nodes[k], x) > 0;
    ChildReachesParent(ts, parent, k);
    if nodes[k].TenantId != x {
      FaithfulReach(ts, nodes[k].Children, Some(cs[k].TenantId), level + 1, x);
      var n :| n >= 1 && Reaches(ts, Some(x), Some(cs[k].TenantId), n);
      ReachesTrans(ts, Some(x), Some(cs[k].TenantId), parent, n, 1);
    }
  }

  /** Every tenant some steps below `parent` has a node in the forest below it. */
  lemma {:induction false} FaithfulComplete(ts: seq<Tenant>, nodes: seq<TenantNode>, parent: Option<Guid>, level: int, x: Guid, n: nat)
    requires Faithful(ts, nodes, parent, level)
    requires n >= 1 && Reaches(ts, Some(x), parent, n)
    ensures Count(nodes, x) > 0
    decreases n
  {
    var k := ChildOnChain(ts, parent, x, n);
    var c := ChildrenOf(ts, parent)[k];
    if n == 1 {
      assert nodes[k].TenantId == x;
    } else {
      FaithfulComplete(ts, nodes[k].Children, Some(c.TenantId), level + 1, x, n - 1);
    }
    assert Occurrences(nodes[k], x) > 0;
    CountPositive(nodes, x);
  }

  /** The member of the group of `parent` that a chain from `x` to `parent` passes
      through last. */
  lemma ChildOnChain(ts: seq<Tenant>, parent: Option<Guid>, x: Guid, n: nat) returns (k: int)
    requires n >= 1 && Reaches(ts, Some(x), parent, n)
    ensures 0 <= k < |ChildrenOf(ts, parent)|
    ensures Reaches(ts, Some(x), Some(ChildrenOf(ts, parent)[k].TenantId), n - 1)
  {
    var cs := ChildrenOf(ts, parent);
    var c := LastStep(ts, Some(x), parent, n - 1);
    var i := Find(ts, c.value).value;
    ChildrenOfComplete(ts, parent, i);
    k :| 0 <= k < |cs| && cs[k] == ts[i];
    assert c == Some(cs[k].TenantId);
  }

  /** The last tenant a chain passes through before its end. */
  lemma {:induction false} LastStep(ts: seq<Tenant>, a: Option<Guid>, p: Option<Guid>, n: nat) returns (c: Option<Guid>)
    requires Reaches(ts, a, p, n + 1)
    ensures Reaches(ts, a, c, n) && Reaches(ts, c, p, 1)
    decreases n
  {
    if n == 0 {
      c := a;
    } else {
      c := LastStep(ts, Up(ts, a), p, n - 1);
    }
  }

  /** With distinct ids, no tenant appears twice in the forest below a rooted `parent`. */
  lemma {:induction false} FaithfulAtMostOnce(ts: seq<Tenant>, nodes: seq<TenantNode>, parent: Option<Guid>, level: int, x: Guid)
    requires DistinctIds(ts) && Rooted(ts, parent)
    requires Faithful(ts, nodes, parent, level)
    ensures Count(nodes, x) <= 1
    decreases nodes
  {
    var cs := ChildrenOf(ts, parent);
    var m: nat :| Reaches(ts, parent, None, m);
    forall k | 0 <= k < |nodes| ensures Occurrences(nodes[k], x) <= 1 {
      ChildReachesParent(ts, parent, k);
      ReachesTrans(ts, Some(cs[k].TenantId), parent, None, 1, m);
      FaithfulAtMostOnce(ts, nodes[k].Children, Some(cs[k].TenantId), level + 1, x);
      NotBelowItself(ts, nodes, parent, level, x, k, m);
    }
    forall j, k | 0 <= j < k < |nodes|
      ensures Occurrences(nodes[j], x) == 0 || Occurrences(nodes[k], x) == 0
    {
      if Occurrences(nodes[j], x) > 0 && Occurrences(nodes[k], x) > 0 {
        SiblingsDisjoint(ts, nodes, parent, level, x, j, k, m);
      }
    }
    CountAtMostOne(nodes, x);
  }

  /** A tenant on a chain ending at `null` is not in its own subtree. */
  lemma NotBelowItself(ts: seq<Tenant>, nodes: seq<TenantNode>, parent: Option<Guid>, level: int, x: Guid, k: int, m: nat)
    requires DistinctIds(ts) && Reaches(ts, parent, None, m)
    requires Faithful(ts, nodes, parent, level)
    requires 0 <= k < |nodes|
    ensures nodes[k].TenantId == x ==> Count(nodes[k].Children, x) == 0
  {
    var cs := ChildrenOf(ts, parent);
    if nodes[k].TenantId == x && Count(nodes[k].Children, x) > 0 {
      ChildReachesParent(ts, parent, k);
      ReachesTrans(ts, Some(x), parent, None, 1, m);
      FaithfulReach(ts, nodes[k].Children, Some(x), level + 1, x);
      var n :| n >= 1 && Reaches(ts, Some(x), Some(x), n);
      NoCycleWhenRooted(ts, Some(x), n, 1 + m);
    }
  }

  /** Two different nodes of one group have no tenant in common below them. */
  lemma SiblingsDisjoint(ts: seq<Tenant>, nodes: seq<TenantNode>, parent: Option<Guid>, level: int, x: Guid, j: int, k: int, m: nat)
    requires DistinctIds(ts) && Reaches(ts, parent, None, m)
    requires Faithful(ts, nodes, parent, level)
    requires 0 <= j < k < |nodes|
    ensures Occurrences(nodes[j], x) == 0 || Occurrences(nodes[k], x) == 0
  {
    var cs := ChildrenOf(ts, parent);
    if Occurrences(nodes[j], x) > 0 && Occurrences(nodes[k], x) > 0 {
      var a := Depth(ts, nodes, parent, level, x, j);
      var b := Depth(ts, nodes, parent, level, x, k);
      ChildReachesParent(ts, parent, j);
      ChildReachesParent(ts, parent, k);
      if a == b {
        ReachesUnique(ts, Some(x), Some(cs[j].TenantId), Some(cs[k].TenantId), a);
        ChildrenOfDistinct(ts, parent);
      } else if a < b {
        SiblingsApart(ts, cs, parent, m, x, j, k, a, b);
      } else {
        SiblingsApart(ts, cs, parent, m, x, k, j, b, a);
      }
    }
  }

  /** How far `x` lies below the `k`-th node of the forest, given that it occurs there. */
  lemma Depth(ts: seq<Tenant>, nodes: seq<TenantNode>, parent: Option<Guid>, level: int, x: Guid, k: int) returns (d: nat)
    requires DistinctIds(ts)
    requires Faithful(ts, nodes, parent, level)
    requires 0 <= k < |nodes| && Occurrences(nodes[k], x) > 0
    ensures Reaches(ts, Some(x), Some(ChildrenOf(ts, parent)[k].TenantId), d)
  {
    var cs := ChildrenOf(ts, parent);
    if nodes[k].TenantId == x {
      d := 0;
    } else {
      FaithfulReach(ts, nodes[k].Children, Some(cs[k].TenantId), level + 1, x);
      d :| d >= 1 && Reaches(ts, Some(x), Some(cs[k].TenantId), d);
    }
  }

  /** Two different children of a rooted parent have no common descendant at different
      depths. */
  lemma SiblingsApart(ts: seq<Tenant>, cs: seq<Tenant>, parent: Option<Guid>, m: nat, x: Guid, j: int, k: int, a: nat, b: nat)
    requires Reaches(ts, parent, None, m)
    requires 0 <= j < |cs| && 0 <= k < |cs|
    requires Reaches(ts, Some(cs[j].TenantId), parent, 1) && Reaches(ts, Some(cs[k].TenantId), parent, 1)
    requires a < b
    ensures !(Reaches(ts, Some(x), Some(cs[j].TenantId), a) && Reaches(ts, Some(x), Some(cs[k].TenantId), b))
  {
    var cj, ck := Some(cs[j].TenantId), Some(cs[k].TenantId);
    if Reaches(ts, Some(x), cj, a) && Reaches(ts, Some(x), ck, b) {
      ReachesSplit(ts, Some(x), cj, ck, a, b);
      ReachesSplit(ts, cj, parent, ck, 1, b - a);
      ReachesTrans(ts, parent, ck, parent, b - a - 1, 1);
      NoCycleWhenRooted(ts, parent, b - a - 1 + 1, m);
    }
  }

  /** With distinct ids: a tenant has a node in the hierarchy exactly when its parent
      chain ends at `null`, and then exactly one. */
  lemma HierarchyMembership(ts: seq<Tenant>, x: Guid)
    requires DistinctIds(ts)
    ensures Count(Hierarchy(ts), x) > 0 <==> Rooted(ts, Some(x))
    ensures Count(Hierarchy(ts), x) <= 1
  {
    HierarchyFaithful(ts);
    assert Reaches(ts, None, None, 0);
    FaithfulAtMostOnce(ts, Hierarchy(ts), None, 0, x);
    if Count(Hierarchy(ts), x) > 0 {
      FaithfulReach(ts, Hierarchy(ts), None, 0, x);
    }
    if Rooted(ts, Some(x)) {
      var n :| Reaches(ts, Some(x), None, n);
      FaithfulComplete(ts, Hierarchy(ts), None, 0, x, n);
    }
  }
}
