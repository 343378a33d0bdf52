/**
 * The edge accumulator: an edge map from an unordered pair of ids to the set
 * of reasons that connect them, filled by `addEdge` and turned into edge
 * records by `finalizeEdges`.
 */
module EdgeAccumulator {
  import opened JsText

  /**
   * The normalised pair an edge is stored under, smaller id first. The
   * source keys its map by the string `source|target`, which is the same
   * thing for ids without a `|`.
   */
  datatype Key = Key(source: string, target: string)

  /**
   * The contents of an edge map (a JavaScript `Map`): its keys in insertion
   * order and, for each key, its reason set (a JavaScript `Set`) as a
   * sequence in insertion order.
   */
  datatype EdgeTable = EdgeTable(order: seq<Key>, reasons: map<Key, seq<string>>)

  const EmptyTable := EdgeTable([], map[])

  predicate NoDuplicates<T(==)>(s: seq<T>) {
    forall i, j :: 0 <= i < j < |s| ==> s[i] != s[j]
  }

  function Elements<T>(s: seq<T>): (r: set<T>) {
    set x | x in s
  }

  /** A key as `addEdge` builds it: two non-empty ids, the smaller first. */
  predicate Normalized(k: Key) {
    k.source != "" && k.target != "" && Less(k.source, k.target)
  }

  /**
   * The invariant every edge map keeps: one key per entry, each entry
   * listed once in the insertion order, every key normalised, every
   * reason set free of duplicates and of the empty reason.
   */
  predicate WellFormed(t: EdgeTable) {
    && NoDuplicates(t.order)
    && (forall k :: k in t.order ==> k in t.reasons)
    && (forall k :: k in t.reasons ==> k in t.order)
    && (forall k :: k in t.reasons ==> Normalized(k) && NoDuplicates(t.reasons[k]) && "" !in t.reasons[k])
  }

  /** The reasons recorded for a key, none when it has no entry. */
  function ReasonsOf(t: EdgeTable, k: Key): (r: seq<string>) {
    if k in t.reasons then t.reasons[k] else []
  }

  /** `[source, target] = a < b ? [a, b] : [b, a]`. */
  function Normalize(a: string, b: string): (k: Key)
    requires a != b
    ensures Less(k.source, k.target)
    ensures (k.source == a && k.target == b) || (k.source == b && k.target == a)
  {
    LessTotal(a, b);
    if Less(a, b) then Key(a, b) else Key(b, a)
  }

  /** The key does not depend on the order the two ids are given in. */
  lemma NormalizeSymmetric(a: string, b: string)
    requires a != b
    ensures Normalize(a, b) == Normalize(b, a)
  {
    if Less(a, b) {
      LessAsymmetric(a, b);
    } else {
      LessTotal(a, b);
      LessAsymmetric(b, a);
    }
  }

  /** Two normalised keys over the same two ids are the same key. */
  lemma NormalizedKeyUnique(k1: Key, k2: Key)
    requires Normalized(k1) && Normalized(k2)
    requires {k1.source, k1.target} == {k2.source, k2.target}
    ensures k1 == k2
  {
    LessIrreflexive(k1.source);
    LessAsymmetric(k1.source, k1.target);
  }

  /** `Set.prototype.add`: append unless already present. */
  function SetAdd(s: seq<string>, x: string): (r: seq<string>)
    ensures Elements(r) == Elements(s) + {x}
    ensures NoDuplicates(s) ==> NoDuplicates(r)
    ensures x in s ==> r == s
  {
    if x in s then s else s + [x]
  }

  /**
   * The effect of `addEdge(map, a, b, reason)` on the map's contents:
   * nothing when an id is empty or both are equal; otherwise the entry of
   * the normalised pair, created at the end of the insertion order when
   * new, gains `reason` unless it is empty. No other entry changes.
   */
  function WithEdge(t: EdgeTable, a: string, b: string, reason: string): (r: EdgeTable)
    ensures a == "" || b == "" || a == b ==> r == t
    ensures a != "" && b != "" && a != b ==>
      var k := Normalize(a, b);
      && Normalized(k)
      && k in r.reasons
      && Elements(r.reasons[k]) == Elements(ReasonsOf(t, k)) + (if reason == "" then {} else {reason})
      && (k in t.reasons ==> r.order == t.order)
      && (k !in t.reasons ==> r.order == t.order + [k])
      && (forall k' :: k' != k ==> (k' in r.reasons <==> k' in t.reasons))
      && (forall k' :: k' != k && k' in t.reasons ==> r.reasons[k'] == t.reasons[k'])
    ensures WellFormed(t) ==> WellFormed(r)
  {
    if a == "" || b == "" || a == b then t
    else
      var k := Normalize(a, b);
      var existing := ReasonsOf(t, k);
      var updated := if reason == "" then existing else SetAdd(existing, reason);
      InsertKeepsWellFormed(t, k, updated);
      EdgeTable(if k in t.reasons then t.order else t.order + [k], t.reasons[k := updated])
  }

  /** Setting the entry of a normalised key, appended to the order when new, keeps the invariant. */
  lemma InsertKeepsWellFormed(t: EdgeTable, k: Key, updated: seq<string>)
    requires Normalized(k)
    ensures WellFormed(t) && NoDuplicates(updated) && "" !in updated ==>
      WellFormed(EdgeTable(if k in t.reasons then t.order else t.order + [k], t.reasons[k := updated]))
  {
    if WellFormed(t) && k !in t.reasons {
      var order := t.order + [k];
      assert forall i :: 0 <= i < |t.order| ==> order[i] == t.order[i] && order[i] in t.reasons;
    }
  }

  /** Every edge of the table joins two ids of `ids`. */
  predicate EndpointsIn(t: EdgeTable, ids: set<string>) {
    forall k :: k in t.reasons ==> k.source in ids && k.target in ids
  }

  /** Every edge of the table has at least one reason, and all its reasons come from `tags`. */
  predicate ReasonsWithin(t: EdgeTable, tags: set<string>) {
    forall k :: k in t.reasons ==> |t.reasons[k]| > 0 && Elements(t.reasons[k]) <= tags
  }

  lemma WithEdgeKeepsEndpoints(t: EdgeTable, a: string, b: string, reason: string, ids: set<string>)
    requires EndpointsIn(t, ids) && a in ids && b in ids
    ensures EndpointsIn(WithEdge(t, a, b, reason), ids)
  {
  }

  lemma WithEdgeKeepsReasons(t: EdgeTable, a: string, b: string, reason: string, tags: set<string>)
    requires ReasonsWithin(t, tags) && reason in tags && reason != ""
    ensures ReasonsWithin(WithEdge(t, a, b, reason), tags)
  {
    var r := WithEdge(t, a, b, reason);
    if a != "" && b != "" && a != b {
      var k := Normalize(a, b);
      assert reason in Elements(r.reasons[k]);
    }
  }

  /** An edge map as a mutable object, as the generator keeps it. */
  class EdgeMap {
    var order: seq<Key>
    var reasons: map<Key, seq<string>>

    function Table(): (r: EdgeTable)
      reads this
    {
      EdgeTable(order, reasons)
    }

    ghost predicate Valid()
      reads this
    {
      WellFormed(Table())
    }

    /** `new Map()`. */
    constructor ()
      ensures Table() == EmptyTable && Valid()
    {
      order, reasons := [], map[];
    }

    /** `edgeMap.size`. */
    function Size(): (n: nat)
      reads this
      requires Valid()
      ensures n == |reasons.Keys|
    {
      NoDuplicatesCardinality(order, reasons);
      |order|
    }

    /** `addEdge(this, a, b, reason)`. */
    method AddEdge(a: string, b: string, reason: string)
      modifies this
      ensures Table() == WithEdge(old(Table()), a, b, reason)
    {
      if a == "" || b == "" || a == b {
        return;
      }
      var key := Normalize(a, b);
      var existing := if key in reasons then reasons[key] else [];
      if reason != "" {
        existing := SetAdd(existing, reason);
      }
      if key !in reasons {
        order := order + [key];
      }
      reasons := reasons[key := existing];
    }
  }

  /** In a well-formed table the insertion order lists every key exactly once. */
  lemma NoDuplicatesCardinality(order: seq<Key>, reasons: map<Key, seq<string>>)
    requires WellFormed(EdgeTable(order, reasons))
    ensures |order| == |reasons.Keys|
  {
    DistinctCardinality(order, reasons.Keys);
  }

  /** A duplicate-free sequence has as many elements as the set of its elements. */
  lemma {:induction false} DistinctCardinality<T>(s: seq<T>, elements: set<T>)
    requires NoDuplicates(s)
    requires forall x :: x in s <==> x in elements
    ensures |s| == |elements|
  {
    if s != [] {
      var last := s[|s| - 1];
      var init := s[..|s| - 1];
      assert forall x :: x in init <==> x in s && x != last by {
        forall x | x in s && x != last ensures x in init {
          var i :| 0 <= i < |s| && s[i] == x;
          assert init[i] == x;
        }
      }
      DistinctCardinality(init, elements - {last});
    }
  }

  /** An edge record as sent to the store. */
  datatype EdgeRecord = EdgeRecord(source: string, target: string, reasons: seq<string>)

  const Unspecified := "unspecified"

  function Finalize(k: Key, reasons: seq<string>): (r: EdgeRecord) {
    EdgeRecord(k.source, k.target, if |reasons| > 0 then reasons else [Unspecified])
  }

  /**
   * `finalizeEdges`: one record per map entry, in insertion order, whose
   * reasons are the entry's reason set, or `['unspecified']` when that set
   * is empty.
   */
  function FinalizeEdges(t: EdgeTable): (r: seq<EdgeRecord>)
    requires forall k :: k in t.order ==> k in t.reasons
    ensures |r| == |t.order|
    ensures forall i :: 0 <= i < |r| ==>
      && r[i].source == t.order[i].source && r[i].target == t.order[i].target
      && |r[i].reasons| > 0
      && (|t.reasons[t.order[i]]| > 0 ==> r[i].reasons == t.reasons[t.order[i]])
      && (r[i].reasons == [Unspecified] <==> t.reasons[t.order[i]] in {[], [Unspecified]})
  {
    seq(|t.order|, i requires 0 <= i < |t.order| => Finalize(t.order[i], t.reasons[t.order[i]]))
  }

  /**
   * No unordered pair appears twice among the finalised records, and every
   * record has its smaller id first and its reasons free of duplicates.
   */
  lemma FinalizedPairsDistinct(t: EdgeTable)
    requires WellFormed(t)
    ensures var r := FinalizeEdges(t);
      && (forall i :: 0 <= i < |r| ==> Less(r[i].source, r[i].target) && NoDuplicates(r[i].reasons))
      && (forall i, j :: 0 <= i < j < |r| ==> {r[i].source, r[i].target} != {r[j].source, r[j].target})
  {
    var r := FinalizeEdges(t);
    forall i, j | 0 <= i < j < |r|
      ensures {r[i].source, r[i].target} != {r[j].source, r[j].target}
    {
      if {r[i].source, r[i].target} == {r[j].source, r[j].target} {
        NormalizedKeyUnique(t.order[i], t.order[j]);
      }
    }
  }

  /** One call of `addEdge`. */
  datatype Observation = Observation(a: string, b: string, reason: string)

  /** Whether an observation lands on the entry `k`. */
  predicate Contributes(e: Observation, k: Key) {
    e.a != "" && e.b != "" && e.a != e.b && Normalize(e.a, e.b) == k
  }

  /** A run of `addEdge` calls, in order. */
  function Accumulate(t: EdgeTable, obs: seq<Observation>): (r: EdgeTable) {
    if obs == [] then t
    else
      var e := obs[|obs| - 1];
      WithEdge(Accumulate(t, obs[..|obs| - 1]), e.a, e.b, e.reason)
  }

  /** The non-empty reasons of the observations that land on `k`. */
  function ObservedReasons(obs: seq<Observation>, k: Key): (r: set<string>) {
    set e | e in obs && Contributes(e, k) && e.reason != "" :: e.reason
  }

  /** What one `addEdge` call does to the entry `k`. */
  lemma WithEdgeAt(t: EdgeTable, e: Observation, k: Key)
    ensures var r := WithEdge(t, e.a, e.b, e.reason);
      && (k in r.reasons <==> k in t.reasons || Contributes(e, k))
      && Elements(ReasonsOf(r, k))
         == Elements(ReasonsOf(t, k)) + (if Contributes(e, k) && e.reason != "" then {e.reason} else {})
  {
  }

  /**
   * After any run of `addEdge` calls, a pair has an entry exactly when it
   * had one or some call connected it, and its reasons are the union of the
   * reasons it had and of every reason observed for it, whichever order
   * the two ids came in.
   */
  lemma {:induction false} AccumulatedReasons(t: EdgeTable, obs: seq<Observation>, k: Key)
    ensures var r := Accumulate(t, obs);
      && (k in r.reasons <==> k in t.reasons || exists e :: e in obs && Contributes(e, k))
      && Elements(ReasonsOf(r, k)) == Elements(ReasonsOf(t, k)) + ObservedReasons(obs, k)
  {
    if obs != [] {
      var init, e := obs[..|obs| - 1], obs[|obs| - 1];
      AccumulatedReasons(t, init, k);
      assert Accumulate(t, obs) == WithEdge(Accumulate(t, init), e.a, e.b, e.reason);
      WithEdgeAt(Accumulate(t, init), e, k);
      ObservationsSnoc(obs, k);
    }
  }

  lemma ObservationsSnoc(obs: seq<Observation>, k: Key)
    requires obs != []
    ensures var init, e := obs[..|obs| - 1], obs[|obs| - 1];
      && ObservedReasons(obs, k)
         == ObservedReasons(init, k) + (if Contributes(e, k) && e.reason != "" then {e.reason} else {})
      && ((exists x :: x in obs && Contributes(x, k))
          <==> (exists x :: x in init && Contributes(x, k)) || Contributes(e, k))
  {
    var init, e := obs[..|obs| - 1], obs[|obs| - 1];
    assert obs == init + [e];
    assert forall x :: x in obs <==> x in init || x == e;
  }
}
