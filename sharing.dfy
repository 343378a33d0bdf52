/**
 * The group-based sharing engine: each attribute dimension keeps a list of
 * sharing groups, and each new entity either joins a group that still has
 * room (taking its value and gaining an edge to one of its members) or
 * starts a group of its own with its default value.
 */
module SharingEngine {
  import opened EdgeAccumulator

  /** Both engines cap every group at two members. */
  const MaxGroupSize: nat := 2

  /** A sharing group: one attribute value and the ids of the entities that carry it. */
  datatype Group = Group(value: string, ids: seq<string>)

  /** A value of `Math.random()`. */
  predicate IsRandom(r: real) {
    0.0 <= r < 1.0
  }

  /**
   * The three draws one call may consume: the share test, the choice of a
   * group and the choice of a peer in it.
   */
  datatype ShareDraw = ShareDraw(share: real, group: real, peer: real)

  predicate ValidDraw(d: ShareDraw) {
    IsRandom(d.share) && IsRandom(d.group) && IsRandom(d.peer)
  }

  /** `Math.floor(r * n)`, the index `randomChoice` takes from an array of length `n`. */
  function Pick(n: nat, r: real): (i: nat)
    requires n > 0 && IsRandom(r)
    ensures i < n
  {
    var x := r * n as real;
    assert 0.0 <= x < n as real by {
      assert r * n as real < 1.0 * n as real;
    }
    x.Floor
  }

  /**
   * The pick is uniform: index `i` is chosen for exactly the draws in
   * [i/n, (i+1)/n), an interval of width 1/n.
   */
  lemma PickInterval(n: nat, r: real, i: nat)
    requires n > 0 && IsRandom(r) && i < n
    ensures Pick(n, r) == i <==> i as real / n as real <= r < (i + 1) as real / n as real
  {
    var N := n as real;
    var x := r * N;
    assert Pick(n, r) == i <==> i as real <= x < (i + 1) as real;
    DivideBelow(i as real, r, N);
    DivideAbove(r, (i + 1) as real, N);
  }

  /** Scaling by a positive factor keeps `<=` and `<`. */
  lemma Scale(a: real, b: real, N: real)
    requires N > 0.0
    ensures a <= b <==> a * N <= b * N
    ensures a < b <==> a * N < b * N
  {
    assert b * N - a * N == (b - a) * N;
    if a < b {
      assert (b - a) * N > 0.0;
    } else {
      assert (a - b) * N >= 0.0;
    }
  }

  lemma DivideBelow(a: real, r: real, N: real)
    requires N > 0.0
    ensures a / N <= r <==> a <= r * N
  {
    Scale(a / N, r, N);
    assert a / N * N == a;
  }

  lemma DivideAbove(r: real, b: real, N: real)
    requires N > 0.0
    ensures r < b / N <==> r * N < b
  {
    Scale(r, b / N, N);
    assert b / N * N == b;
  }

  /** The indices of the groups that still have room (`groups.filter(...)`), in list order. */
  function Eligible(groups: seq<Group>): (e: seq<nat>)
    ensures forall j :: 0 <= j < |e| ==> e[j] < |groups| && |groups[e[j]].ids| < MaxGroupSize
    ensures forall i :: 0 <= i < |groups| && |groups[i].ids| < MaxGroupSize ==> i in e
    ensures forall j, j' :: 0 <= j < j' < |e| ==> e[j] < e[j']
  {
    if groups == [] then []
    else
      var n := |groups| - 1;
      var init := Eligible(groups[..n]);
      if |groups[n].ids| < MaxGroupSize then init + [n] else init
  }

  /** Every group holds one or two non-empty ids. */
  predicate GroupsValid(groups: seq<Group>) {
    forall i :: 0 <= i < |groups| ==>
      1 <= |groups[i].ids| <= MaxGroupSize && forall m :: m in groups[i].ids ==> m != ""
  }

  /** Every member of every group is one of `ids`. */
  predicate MembersIn(groups: seq<Group>, ids: set<string>) {
    forall i, m :: 0 <= i < |groups| && m in groups[i].ids ==> m in ids
  }

  /** The values the groups of a list carry. */
  function Values(groups: seq<Group>): (vs: set<string>)
    ensures forall i :: 0 <= i < |groups| ==> groups[i].value in vs
    ensures forall v :: v in vs ==> exists i :: 0 <= i < |groups| && groups[i].value == v
  {
    set i | 0 <= i < |groups| :: groups[i].value
  }

  /** The group list of one attribute dimension. */
  class GroupList {
    var groups: seq<Group>

    /** `const groups = []`. */
    constructor ()
      ensures groups == []
    {
      groups := [];
    }
  }

  /** The state one `assignValue` call leaves behind: the group list, the edge table, and the value returned. */
  datatype Assignment = Assignment(groups: seq<Group>, table: EdgeTable, value: string)

  /**
   * The effect of one `assignValue` call on the group list `gs` and the
   * edge table `t`, as a value, so that the calls of one loop step can be
   * chained: in the share branch the chosen eligible group gains `id`, the
   * edge to the chosen peer is added and the group's value is returned; in
   * the fresh branch the singleton group is appended and `defaultValue`
   * returned, with the table unchanged.
   */
  function Assign(gs: seq<Group>, t: EdgeTable, id: string, defaultValue: string, reason: string,
                  probability: real, draw: ShareDraw): (r: Assignment)
    requires ValidDraw(draw) && GroupsValid(gs)
    ensures probability <= 0.0 ==> r == Assignment(gs + [Group(defaultValue, [id])], t, defaultValue)
  {
    var eligible := Eligible(gs);
    if |eligible| > 0 && draw.share < probability then
      var k := eligible[Pick(|eligible|, draw.group)];
      var peer := gs[k].ids[Pick(|gs[k].ids|, draw.peer)];
      Assignment(gs[k := Group(gs[k].value, gs[k].ids + [id])], WithEdge(t, id, peer, reason), gs[k].value)
    else
      Assignment(gs + [Group(defaultValue, [id])], t, defaultValue)
  }

  /**
   * `assignSharedValue(id, defaultValue, reason, groups)` and its twin
   * `assignTransactionAttribute`, with the probability and the edge map
   * they close over made explicit. The ghost `known` holds every id already
   * in a group, `tags` the reasons an edge may carry.
   *
   * Share branch (some group has room and the share draw is below the
   * probability): the chosen eligible group gains exactly `id`, its value
   * is returned, and `addEdge` joins `id` to one of the group's earlier
   * members. Fresh branch: one singleton group `{defaultValue, [id]}` is
   * appended, `defaultValue` is returned, and the edge map is unchanged.
   * Either way every group keeps one or two members.
   */
  method AssignValue(groups: GroupList, edges: EdgeMap, id: string, defaultValue: string, reason: string,
                     probability: real, draw: ShareDraw, ghost known: set<string>, ghost tags: set<string>)
    returns (value: string)
    requires ValidDraw(draw)
    requires GroupsValid(groups.groups) && MembersIn(groups.groups, known)
    modifies groups, edges
    ensures var gs := old(groups.groups);
      var eligible := Eligible(gs);
      if |eligible| > 0 && draw.share < probability then
        var k := eligible[Pick(|eligible|, draw.group)];
        var peer := gs[k].ids[Pick(|gs[k].ids|, draw.peer)];
        && peer in known && peer != ""
        && value == gs[k].value
        && groups.groups == gs[k := Group(gs[k].value, gs[k].ids + [id])]
        && edges.Table() == WithEdge(old(edges.Table()), id, peer, reason)
      else
        && value == defaultValue
        && groups.groups == gs + [Group(defaultValue, [id])]
        && edges.Table() == old(edges.Table())
    ensures Assignment(groups.groups, edges.Table(), value)
              == Assign(old(groups.groups), old(edges.Table()), id, defaultValue, reason, probability, draw)
    ensures value in Values(old(groups.groups)) + {defaultValue}
    ensures Values(groups.groups) <= Values(old(groups.groups)) + {defaultValue}
    ensures id != "" ==> GroupsValid(groups.groups)
    ensures MembersIn(groups.groups, known + {id})
    ensures old(edges.Valid()) ==> edges.Valid()
    ensures EndpointsIn(old(edges.Table()), known + {id}) ==> EndpointsIn(edges.Table(), known + {id})
    ensures ReasonsWithin(old(edges.Table()), tags) && reason in tags && reason != "" ==> ReasonsWithin(edges.Table(), tags)
  {
    var eligible := Eligible(groups.groups);
    if |eligible| > 0 && draw.share < probability {
      var k := eligible[Pick(|eligible|, draw.group)];
      var selected := groups.groups[k];
      var peer := selected.ids[Pick(|selected.ids|, draw.peer)];
      assert peer in groups.groups[k].ids;
      ghost var before := edges.Table();
      edges.AddEdge(id, peer, reason);
      if EndpointsIn(before, known + {id}) {
        WithEdgeKeepsEndpoints(before, id, peer, reason, known + {id});
      }
      if ReasonsWithin(before, tags) && reason in tags && reason != "" {
        WithEdgeKeepsReasons(before, id, peer, reason, tags);
      }
      JoinKeepsGroups(groups.groups, k, id, known);
      groups.groups := groups.groups[k := Group(selected.value, selected.ids + [id])];
      return selected.value;
    }
    AppendKeepsGroups(groups.groups, defaultValue, id, known);
    groups.groups := groups.groups + [Group(defaultValue, [id])];
    return defaultValue;
  }

  /** A group with room that gains `id` keeps the list valid and its members among `known + {id}`. */
  lemma JoinKeepsGroups(gs: seq<Group>, k: nat, id: string, known: set<string>)
    requires k < |gs| && |gs[k].ids| < MaxGroupSize
    requires GroupsValid(gs) && MembersIn(gs, known)
    ensures var joined := gs[k := Group(gs[k].value, gs[k].ids + [id])];
      (id != "" ==> GroupsValid(joined)) && MembersIn(joined, known + {id}) && Values(joined) == Values(gs)
  {
    var joined := gs[k := Group(gs[k].value, gs[k].ids + [id])];
    assert forall i :: 0 <= i < |gs| ==> joined[i].value == gs[i].value;
  }

  /** A new singleton group keeps the list valid and its members among `known + {id}`. */
  lemma AppendKeepsGroups(gs: seq<Group>, value: string, id: string, known: set<string>)
    requires GroupsValid(gs) && MembersIn(gs, known)
    ensures var appended := gs + [Group(value, [id])];
      (id != "" ==> GroupsValid(appended)) && MembersIn(appended, known + {id})
      && Values(appended) == Values(gs) + {value}
  {
    var appended := gs + [Group(value, [id])];
    assert forall i :: 0 <= i < |gs| ==> appended[i] == gs[i];
    assert appended[|gs|].value == value;
  }

  /**
   * For each edge reason, the value every entity seen so far received for
   * that attribute: `views[r][m]` is what entity `m` carries for `r`.
   */
  type Views = map<string, map<string, string>>

  /** `views` once entity `id` has received `value` for `reason`. */
  function Learn(views: Views, reason: string, id: string, value: string): (r: Views)
    requires reason in views
  {
    views[reason := views[reason][id := value]]
  }

  /** Every member of every group carries, in `view`, the value of its group. */
  predicate GroupsAgree(groups: seq<Group>, view: map<string, string>) {
    forall i, m :: 0 <= i < |groups| && m in groups[i].ids ==> m in view && view[m] == groups[i].value
  }

  /**
   * What an edge means: an edge that carries a reason `r` of `views` joins
   * two entities with the same value for `r`.
   */
  predicate EdgesAgree(t: EdgeTable, views: Views) {
    forall k, r :: k in t.reasons && r in t.reasons[k] && r in views ==>
      k.source in views[r] && k.target in views[r] && views[r][k.source] == views[r][k.target]
  }

  /** Joining a group: the newcomer takes the group's value, so the groups still agree once it is learnt. */
  lemma JoinAgrees(groups: seq<Group>, k: nat, id: string, view: map<string, string>)
    requires k < |groups| && GroupsAgree(groups, view) && id !in view
    ensures GroupsAgree(groups[k := Group(groups[k].value, groups[k].ids + [id])], view[id := groups[k].value])
  {
  }

  /** Founding a group: the newcomer alone carries the new value. */
  lemma AppendAgrees(groups: seq<Group>, value: string, id: string, view: map<string, string>)
    requires GroupsAgree(groups, view) && id !in view
    ensures GroupsAgree(groups + [Group(value, [id])], view[id := value])
  {
    var appended := groups + [Group(value, [id])];
    assert forall i :: 0 <= i < |groups| ==> appended[i] == groups[i];
  }

  /** Learning the value of a newcomer leaves every existing edge meaningful. */
  lemma LearnAgrees(t: EdgeTable, views: Views, reason: string, id: string, value: string)
    requires reason in views && id !in views[reason] && EdgesAgree(t, views)
    ensures EdgesAgree(t, Learn(views, reason, id, value))
  {
  }

  /**
   * The edge of the share branch joins the newcomer to a peer that carries
   * the value the newcomer receives, so it keeps every edge meaningful.
   */
  lemma AddEdgeAgrees(t: EdgeTable, views: Views, reason: string, id: string, peer: string, value: string)
    requires reason in views && id !in views[reason] && peer in views[reason] && views[reason][peer] == value
    requires id != "" && peer != "" && EdgesAgree(t, views)
    ensures EdgesAgree(WithEdge(t, id, peer, reason), Learn(views, reason, id, value))
  {
    var t', views' := WithEdge(t, id, peer, reason), Learn(views, reason, id, value);
    var key := Normalize(id, peer);
    forall k, r | k in t'.reasons && r in t'.reasons[k] && r in views'
      ensures k.source in views'[r] && k.target in views'[r] && views'[r][k.source] == views'[r][k.target]
    {
      if k == key && r != reason {
        assert r in Elements(t'.reasons[k]);
        assert k in t.reasons && r in t.reasons[k];
      } else if k != key {
        assert k in t.reasons && r in t.reasons[k];
      }
    }
  }

  /**
   * One `assignValue` call keeps what groups and edges mean: every group
   * member, the new id included, carries its group's value, and every edge
   * with reason r, the new one included, joins two ids with the same
   * recorded r-value.
   */
  lemma AssignAgrees(gs: seq<Group>, t: EdgeTable, id: string, defaultValue: string, reason: string,
                     probability: real, draw: ShareDraw, views: Views)
    requires ValidDraw(draw) && GroupsValid(gs) && id != ""
    requires reason in views && id !in views[reason]
    requires GroupsAgree(gs, views[reason]) && EdgesAgree(t, views)
    ensures var a := Assign(gs, t, id, defaultValue, reason, probability, draw);
      && GroupsAgree(a.groups, views[reason][id := a.value])
      && EdgesAgree(a.table, Learn(views, reason, id, a.value))
  {
    var eligible := Eligible(gs);
    if |eligible| > 0 && draw.share < probability {
      var k := eligible[Pick(|eligible|, draw.group)];
      var peer := gs[k].ids[Pick(|gs[k].ids|, draw.peer)];
      JoinAgrees(gs, k, id, views[reason]);
      AddEdgeAgrees(t, views, reason, id, peer, gs[k].value);
    } else {
      AppendAgrees(gs, defaultValue, id, views[reason]);
      LearnAgrees(t, views, reason, id, defaultValue);
    }
  }

  /** With probability zero (or below) the share branch is never taken, whatever the draws. */
  lemma NeverSharesAtZero(groups: seq<Group>, probability: real, draw: ShareDraw)
    requires ValidDraw(draw) && probability <= 0.0
    ensures !(|Eligible(groups)| > 0 && draw.share < probability)
  {
  }
}
