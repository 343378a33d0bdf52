/**
 * The bulk load of `generateData`: the generated users, shared edges,
 * transactions and transaction edges are cut into fixed-size slices and
 * each slice is sent to the store as one bulk operation, phase after phase.
 * The store is modelled by the log of operations a session receives.
 */
module BatchLoader {
  import opened Wrappers
  import opened Density
  import opened EdgeAccumulator
  import opened Generator

  const BatchSize: nat := 5000
  const EdgeBatchSize: nat := 5000

  /** `s.slice(start, end)` for `start <= s.length`: the end is clamped to the length. */
  function JsSlice<T>(s: seq<T>, start: nat, end: nat): (r: seq<T>)
    requires start <= end && start <= |s|
  {
    s[start..if end < |s| then end else |s|]
  }

  /** What is left of `s` from index `i` on. */
  function Rest<T>(s: seq<T>, i: nat): (r: seq<T>)
    ensures |r| == if i <= |s| then |s| - i else 0
  {
    if i <= |s| then s[i..] else []
  }

  /**
   * The slices `s.slice(i, i + size)` for `i = 0, size, 2 * size, ...`
   * while `i < s.length`.
   */
  function Slices<T>(s: seq<T>, size: nat): (r: seq<seq<T>>)
    requires size > 0
    decreases |s|
  {
    if |s| == 0 then [] else [JsSlice(s, 0, size)] + Slices(Rest(s, size), size)
  }

  function Flatten<T>(ss: seq<seq<T>>): (r: seq<T>) {
    if ss == [] then [] else ss[0] + Flatten(ss[1..])
  }

  /** Every slice holds between one and `size` elements. */
  lemma {:induction false} SlicesBounded<T>(s: seq<T>, size: nat)
    requires size > 0
    ensures forall k :: 0 <= k < |Slices(s, size)| ==> 0 < |Slices(s, size)[k]| <= size
    decreases |s|
  {
    if |s| > 0 {
      SlicesBounded(Rest(s, size), size);
    }
  }

  /** The slices, concatenated in order, are the original sequence. */
  lemma {:induction false} SlicesConcatenate<T>(s: seq<T>, size: nat)
    requires size > 0
    ensures Flatten(Slices(s, size)) == s
    decreases |s|
  {
    if |s| > 0 {
      var head, tail := JsSlice(s, 0, size), Rest(s, size);
      SlicesConcatenate(tail, size);
      HeadAndRest(s, size);
      assert Slices(s, size) == [head] + Slices(tail, size);
      assert Flatten(Slices(s, size)) == head + Flatten(Slices(tail, size));
    }
  }

  /** The first slice followed by what is left after it is the whole sequence. */
  lemma HeadAndRest<T>(s: seq<T>, size: nat)
    requires size > 0
    ensures JsSlice(s, 0, size) + Rest(s, size) == s
  {
    if |s| > size {
      assert s[..size] + s[size..] == s;
    }
  }

  /** One step of a slice loop at index `i`, which has already produced `done`. */
  lemma SliceLoopStep<T>(s: seq<T>, size: nat, i: nat, done: seq<seq<T>>)
    requires size > 0 && i < |s|
    requires done + Slices(Rest(s, i), size) == Slices(s, size)
    ensures (done + [JsSlice(s, i, i + size)]) + Slices(Rest(s, i + size), size) == Slices(s, size)
  {
    SliceStep(s, size, i);
    assert done + Slices(Rest(s, i), size) == (done + [JsSlice(s, i, i + size)]) + Slices(Rest(s, i + size), size);
  }

  /** A slice loop that has reached the end has produced every slice. */
  lemma SliceLoopEnd<T>(s: seq<T>, size: nat, i: nat, done: seq<seq<T>>)
    requires size > 0 && i >= |s|
    requires done + Slices(Rest(s, i), size) == Slices(s, size)
    ensures done == Slices(s, size)
  {
    assert Rest(s, i) == [];
    assert done + Slices(Rest(s, i), size) == done;
  }

  /** One step of a slice loop at index `i`. */
  lemma SliceStep<T>(s: seq<T>, size: nat, i: nat)
    requires size > 0 && i < |s|
    ensures Slices(Rest(s, i), size) == [JsSlice(s, i, i + size)] + Slices(Rest(s, i + size), size)
  {
    var r := Rest(s, i);
    assert JsSlice(r, 0, size) == JsSlice(s, i, i + size);
    assert Rest(r, size) == Rest(s, i + size);
  }

  /** One bulk operation sent to the store. */
  datatype Op =
    | MergeUsers(users: seq<User>)                 // UNWIND ... MERGE (n:User {id}) SET ...
    | MergeSharedEdges(edges: seq<EdgeRecord>)     // both SHARED_ATTRIBUTE directions
    | MergeTransactions(txs: seq<Transaction>)     // UNWIND ... MERGE (tr:Transaction {id}) SET ...
    | LinkDebits(txs: seq<Transaction>)            // (sender)-[:DEBIT]->(transaction)
    | LinkCredits(txs: seq<Transaction>)           // (transaction)-[:CREDIT]->(receiver)
    | MergeRelatedEdges(edges: seq<EdgeRecord>)    // both RELATED_TO directions

  /** How many records an operation carries. */
  function Size(op: Op): (r: nat) {
    match op
    case MergeUsers(u) => |u|
    case MergeSharedEdges(e) => |e|
    case MergeTransactions(t) => |t|
    case LinkDebits(t) => |t|
    case LinkCredits(t) => |t|
    case MergeRelatedEdges(e) => |e|
  }

  /** The loading phase an operation belongs to. */
  function Phase(op: Op): (r: nat) {
    match op
    case MergeUsers(_) => 0
    case MergeSharedEdges(_) => 1
    case MergeTransactions(_) => 2
    case LinkDebits(_) => 2
    case LinkCredits(_) => 2
    case MergeRelatedEdges(_) => 3
  }

  function UserBatch(users: seq<User>): (r: Op) { MergeUsers(users) }
  function SharedEdgeBatch(edges: seq<EdgeRecord>): (r: Op) { MergeSharedEdges(edges) }
  function RelatedEdgeBatch(edges: seq<EdgeRecord>): (r: Op) { MergeRelatedEdges(edges) }

  /** One operation per slice, made by `wrap`, in slice order. */
  function Batches<T>(slices: seq<seq<T>>, wrap: seq<T> -> Op): (r: seq<Op>) {
    if slices == [] then [] else [wrap(slices[0])] + Batches(slices[1..], wrap)
  }

  lemma {:induction false} BatchesAt<T>(slices: seq<seq<T>>, wrap: seq<T> -> Op)
    ensures |Batches(slices, wrap)| == |slices|
    ensures forall k :: 0 <= k < |slices| ==> Batches(slices, wrap)[k] == wrap(slices[k])
  {
    if slices != [] {
      BatchesAt(slices[1..], wrap);
    }
  }

  /** Per transaction slice: the nodes, then the DEBIT links, then the CREDIT links. */
  function TransactionOps(slices: seq<seq<Transaction>>): (r: seq<Op>) {
    if slices == [] then []
    else [MergeTransactions(slices[0]), LinkDebits(slices[0]), LinkCredits(slices[0])] + TransactionOps(slices[1..])
  }

  /**
   * Transaction slice `k` occupies positions `3k`, `3k + 1`, `3k + 2`:
   * node merge, then DEBIT, then CREDIT, all with the same slice.
   */
  lemma {:induction false} TransactionOpsAt(slices: seq<seq<Transaction>>, k: nat)
    requires k < |slices|
    ensures |TransactionOps(slices)| == 3 * |slices|
    ensures TransactionOps(slices)[3 * k] == MergeTransactions(slices[k])
    ensures TransactionOps(slices)[3 * k + 1] == LinkDebits(slices[k])
    ensures TransactionOps(slices)[3 * k + 2] == LinkCredits(slices[k])
  {
    if k > 0 {
      TransactionOpsAt(slices[1..], k - 1);
    } else if |slices| > 1 {
      TransactionOpsAt(slices[1..], 0);
    }
  }

  /** Every operation of `ops` belongs to phase `k`. */
  predicate InPhase(ops: seq<Op>, k: nat) {
    forall i :: 0 <= i < |ops| ==> Phase(ops[i]) == k
  }

  /** Every operation of `ops` belongs to phase `k` or an earlier one. */
  predicate UpToPhase(ops: seq<Op>, k: nat) {
    forall i :: 0 <= i < |ops| ==> Phase(ops[i]) <= k
  }

  predicate PhasesOrdered(ops: seq<Op>) {
    forall i, j :: 0 <= i < j < |ops| ==> Phase(ops[i]) <= Phase(ops[j])
  }

  /** No operation carries more than 5000 records. */
  predicate WithinBatch(ops: seq<Op>) {
    forall i :: 0 <= i < |ops| ==> Size(ops[i]) <= 5000
  }

  predicate SlicesWithin<T>(slices: seq<seq<T>>) {
    forall k :: 0 <= k < |slices| ==> |slices[k]| <= 5000
  }

  lemma BatchesFacts<T>(slices: seq<seq<T>>, wrap: seq<T> -> Op, k: nat)
    requires SlicesWithin(slices)
    requires forall x :: Phase(wrap(x)) == k && Size(wrap(x)) == |x|
    ensures InPhase(Batches(slices, wrap), k) && WithinBatch(Batches(slices, wrap))
  {
    BatchesAt(slices, wrap);
  }

  lemma {:induction false} TransactionOpsFacts(slices: seq<seq<Transaction>>)
    ensures InPhase(TransactionOps(slices), 2)
    ensures SlicesWithin(slices) ==> WithinBatch(TransactionOps(slices))
  {
    if slices != [] {
      TransactionOpsFacts(slices[1..]);
    }
  }

  /** Appending a run of phase `k` to an ordered run that stops at phase `j <= k` keeps it ordered. */
  lemma AppendPhase(ops: seq<Op>, run: seq<Op>, j: nat, k: nat)
    requires PhasesOrdered(ops) && UpToPhase(ops, j) && j <= k && InPhase(run, k)
    requires WithinBatch(ops) && WithinBatch(run)
    ensures PhasesOrdered(ops + run) && UpToPhase(ops + run, k) && WithinBatch(ops + run)
  {
  }

  /** Everything `generateData` sends, in order. */
  function Plan(data: SyntheticData): (r: seq<Op>) {
    Batches(Slices(data.users, BatchSize), UserBatch)
    + Batches(Slices(data.sharedEdges, EdgeBatchSize), SharedEdgeBatch)
    + TransactionOps(Slices(data.transactions, BatchSize))
    + Batches(Slices(data.transactionEdges, EdgeBatchSize), RelatedEdgeBatch)
  }

  /**
   * The plan runs in strict phases: every user batch before any
   * shared-edge batch, those before any transaction batch, and every
   * transaction batch (nodes and both link kinds) before any RELATED_TO
   * batch. No operation carries more than 5000 records.
   */
  lemma PlanOrderedAndBounded(data: SyntheticData)
    ensures forall i, j :: 0 <= i < j < |Plan(data)| ==> Phase(Plan(data)[i]) <= Phase(Plan(data)[j])
    ensures forall i :: 0 <= i < |Plan(data)| ==> Size(Plan(data)[i]) <= 5000
  {
    var a := Batches(Slices(data.users, BatchSize), UserBatch);
    var b := Batches(Slices(data.sharedEdges, EdgeBatchSize), SharedEdgeBatch);
    var c := TransactionOps(Slices(data.transactions, BatchSize));
    var d := Batches(Slices(data.transactionEdges, EdgeBatchSize), RelatedEdgeBatch);
    assert InPhase(a, 0) && WithinBatch(a) by {
      SlicesBounded(data.users, BatchSize);
      BatchesFacts(Slices(data.users, BatchSize), UserBatch, 0);
    }
    assert InPhase(b, 1) && WithinBatch(b) by {
      SlicesBounded(data.sharedEdges, EdgeBatchSize);
      BatchesFacts(Slices(data.sharedEdges, EdgeBatchSize), SharedEdgeBatch, 1);
    }
    assert InPhase(c, 2) && WithinBatch(c) by {
      SlicesBounded(data.transactions, BatchSize);
      TransactionOpsFacts(Slices(data.transactions, BatchSize));
    }
    assert InPhase(d, 3) && WithinBatch(d) by {
      SlicesBounded(data.transactionEdges, EdgeBatchSize);
      BatchesFacts(Slices(data.transactionEdges, EdgeBatchSize), RelatedEdgeBatch, 3);
    }
    AppendPhase([], a, 0, 0);
    assert [] + a == a;
    AppendPhase(a, b, 0, 1);
    AppendPhase(a + b, c, 1, 2);
    AppendPhase(a + b + c, d, 2, 3);
    assert Plan(data) == a + b + c + d;
    assert PhasesOrdered(Plan(data)) && WithinBatch(Plan(data));
  }

  /** The records of one kind that a run of operations carries, in order. */
  function Collect<T>(ops: seq<Op>, payload: Op -> Option<seq<T>>): (r: seq<T>) {
    if ops == [] then [] else payload(ops[0]).OrElse([]) + Collect(ops[1..], payload)
  }

  lemma {:induction false} CollectAppend<T>(xs: seq<Op>, ys: seq<Op>, payload: Op -> Option<seq<T>>)
    ensures Collect(xs + ys, payload) == Collect(xs, payload) + Collect(ys, payload)
  {
    if xs == [] {
      assert xs + ys == ys;
    } else {
      assert (xs + ys)[0] == xs[0];
      assert (xs + ys)[1..] == xs[1..] + ys;
      CollectAppend(xs[1..], ys, payload);
    }
  }

  /** Batches whose operations do not carry this kind of record carry none of them. */
  lemma {:induction false} CollectNoBatches<T, U>(slices: seq<seq<T>>, wrap: seq<T> -> Op, payload: Op -> Option<seq<U>>)
    requires forall x :: payload(wrap(x)).None?
    ensures Collect(Batches(slices, wrap), payload) == []
  {
    if slices != [] {
      assert Batches(slices, wrap)[1..] == Batches(slices[1..], wrap);
      CollectNoBatches(slices[1..], wrap, payload);
    }
  }

  /** Transaction batches carry none of a kind of record that none of their three operations carries. */
  lemma {:induction false} CollectNoTransactionOps<U>(slices: seq<seq<Transaction>>, payload: Op -> Option<seq<U>>)
    requires forall x :: payload(MergeTransactions(x)).None? && payload(LinkDebits(x)).None? && payload(LinkCredits(x)).None?
    ensures Collect(TransactionOps(slices), payload) == []
  {
    if slices != [] {
      var x := slices[0];
      CollectNoTransactionOps(slices[1..], payload);
      CollectAppend([MergeTransactions(x), LinkDebits(x), LinkCredits(x)], TransactionOps(slices[1..]), payload);
      CollectTriple(x, payload);
    }
  }

  /** Batches made by a `wrap` that `payload` undoes carry exactly the slices, in order. */
  lemma {:induction false} CollectBatches<T>(slices: seq<seq<T>>, wrap: seq<T> -> Op, payload: Op -> Option<seq<T>>)
    requires forall x :: payload(wrap(x)) == Some(x)
    ensures Collect(Batches(slices, wrap), payload) == Flatten(slices)
  {
    if slices != [] {
      assert Batches(slices, wrap)[1..] == Batches(slices[1..], wrap);
      CollectBatches(slices[1..], wrap, payload);
    }
  }

  /** The plan's records of one kind are those of its four runs, in order. */
  lemma CollectPlan<T>(data: SyntheticData, payload: Op -> Option<seq<T>>)
    ensures Collect(Plan(data), payload)
         == Collect(Batches(Slices(data.users, BatchSize), UserBatch), payload)
          + Collect(Batches(Slices(data.sharedEdges, EdgeBatchSize), SharedEdgeBatch), payload)
          + Collect(TransactionOps(Slices(data.transactions, BatchSize)), payload)
          + Collect(Batches(Slices(data.transactionEdges, EdgeBatchSize), RelatedEdgeBatch), payload)
  {
    var a := Batches(Slices(data.users, BatchSize), UserBatch);
    var b := Batches(Slices(data.sharedEdges, EdgeBatchSize), SharedEdgeBatch);
    var c := TransactionOps(Slices(data.transactions, BatchSize));
    var d := Batches(Slices(data.transactionEdges, EdgeBatchSize), RelatedEdgeBatch);
    CollectAppend(a + b + c, d, payload);
    CollectAppend(a + b, c, payload);
    CollectAppend(a, b, payload);
  }

  /** The users a node merge carries. */
  function UserPayload(op: Op): (r: Option<seq<User>>) {
    if op.MergeUsers? then Some(op.users) else None
  }

  /** The edges a SHARED_ATTRIBUTE merge carries. */
  function SharedEdgePayload(op: Op): (r: Option<seq<EdgeRecord>>) {
    if op.MergeSharedEdges? then Some(op.edges) else None
  }

  /** The edges a RELATED_TO merge carries. */
  function RelatedEdgePayload(op: Op): (r: Option<seq<EdgeRecord>>) {
    if op.MergeRelatedEdges? then Some(op.edges) else None
  }

  /** Every generated user is sent exactly once, in generation order, and nothing else is sent as a user. */
  lemma PlanSendsEveryUser(data: SyntheticData)
    ensures Collect(Plan(data), UserPayload) == data.users
  {
    CollectPlan(data, UserPayload);
    CollectBatches(Slices(data.users, BatchSize), UserBatch, UserPayload);
    SlicesConcatenate(data.users, BatchSize);
    CollectNoBatches(Slices(data.sharedEdges, EdgeBatchSize), SharedEdgeBatch, UserPayload);
    CollectNoTransactionOps(Slices(data.transactions, BatchSize), UserPayload);
    CollectNoBatches(Slices(data.transactionEdges, EdgeBatchSize), RelatedEdgeBatch, UserPayload);
  }

  /** Every SHARED_ATTRIBUTE edge is sent exactly once, in finalisation order. */
  lemma PlanSendsEverySharedEdge(data: SyntheticData)
    ensures Collect(Plan(data), SharedEdgePayload) == data.sharedEdges
  {
    CollectPlan(data, SharedEdgePayload);
    CollectBatches(Slices(data.sharedEdges, EdgeBatchSize), SharedEdgeBatch, SharedEdgePayload);
    SlicesConcatenate(data.sharedEdges, EdgeBatchSize);
    CollectNoBatches(Slices(data.users, BatchSize), UserBatch, SharedEdgePayload);
    CollectNoTransactionOps(Slices(data.transactions, BatchSize), SharedEdgePayload);
    CollectNoBatches(Slices(data.transactionEdges, EdgeBatchSize), RelatedEdgeBatch, SharedEdgePayload);
  }

  /** Every RELATED_TO edge is sent exactly once, in finalisation order. */
  lemma PlanSendsEveryRelatedEdge(data: SyntheticData)
    ensures Collect(Plan(data), RelatedEdgePayload) == data.transactionEdges
  {
    CollectPlan(data, RelatedEdgePayload);
    CollectBatches(Slices(data.transactionEdges, EdgeBatchSize), RelatedEdgeBatch, RelatedEdgePayload);
    SlicesConcatenate(data.transactionEdges, EdgeBatchSize);
    CollectNoBatches(Slices(data.users, BatchSize), UserBatch, RelatedEdgePayload);
    CollectNoBatches(Slices(data.sharedEdges, EdgeBatchSize), SharedEdgeBatch, RelatedEdgePayload);
    CollectNoTransactionOps(Slices(data.transactions, BatchSize), RelatedEdgePayload);
  }

  /** The transactions a node merge carries. */
  function TransactionPayload(op: Op): (r: Option<seq<Transaction>>) {
    if op.MergeTransactions? then Some(op.txs) else None
  }

  /** The transactions a DEBIT link operation carries. */
  function DebitPayload(op: Op): (r: Option<seq<Transaction>>) {
    if op.LinkDebits? then Some(op.txs) else None
  }

  /** The transactions a CREDIT link operation carries. */
  function CreditPayload(op: Op): (r: Option<seq<Transaction>>) {
    if op.LinkCredits? then Some(op.txs) else None
  }

  /** `payload` reads one slice's worth out of the three operations sent for that slice. */
  ghost predicate PicksOneOfThree(payload: Op -> Option<seq<Transaction>>) {
    forall x: seq<Transaction> ::
      payload(MergeTransactions(x)).OrElse([]) + payload(LinkDebits(x)).OrElse([]) + payload(LinkCredits(x)).OrElse([]) == x
  }

  lemma CollectTriple<T>(x: seq<Transaction>, payload: Op -> Option<seq<T>>)
    ensures Collect([MergeTransactions(x), LinkDebits(x), LinkCredits(x)], payload)
         == payload(MergeTransactions(x)).OrElse([]) + payload(LinkDebits(x)).OrElse([])
            + payload(LinkCredits(x)).OrElse([])
  {
    var triple := [MergeTransactions(x), LinkDebits(x), LinkCredits(x)];
    assert triple[1..] == [LinkDebits(x), LinkCredits(x)];
    assert triple[1..][1..] == [LinkCredits(x)];
    assert Collect([LinkCredits(x)], payload) == payload(LinkCredits(x)).OrElse([]) + Collect([], payload);
  }

  lemma {:induction false} CollectTransactionOps(slices: seq<seq<Transaction>>, payload: Op -> Option<seq<Transaction>>)
    requires PicksOneOfThree(payload)
    ensures Collect(TransactionOps(slices), payload) == Flatten(slices)
  {
    if slices != [] {
      var x := slices[0];
      var triple := [MergeTransactions(x), LinkDebits(x), LinkCredits(x)];
      assert TransactionOps(slices) == triple + TransactionOps(slices[1..]);
      CollectTransactionOps(slices[1..], payload);
      CollectAppend(triple, TransactionOps(slices[1..]), payload);
      CollectTriple(x, payload);
    }
  }

  /** A kind of transaction record carried by one of the three phase-2 operations is carried once per transaction. */
  lemma PlanCarriesTransactions(data: SyntheticData, payload: Op -> Option<seq<Transaction>>)
    requires forall op :: Phase(op) != 2 ==> payload(op).None?
    requires PicksOneOfThree(payload)
    ensures Collect(Plan(data), payload) == data.transactions
  {
    CollectPlan(data, payload);
    CollectTransactionOps(Slices(data.transactions, BatchSize), payload);
    SlicesConcatenate(data.transactions, BatchSize);
    CollectNoBatches(Slices(data.users, BatchSize), UserBatch, payload);
    CollectNoBatches(Slices(data.sharedEdges, EdgeBatchSize), SharedEdgeBatch, payload);
    CollectNoBatches(Slices(data.transactionEdges, EdgeBatchSize), RelatedEdgeBatch, payload);
  }

  /**
   * Every generated transaction is merged as a node, linked to its sender
   * by DEBIT and to its receiver by CREDIT, each exactly once and in
   * generation order.
   */
  lemma PlanLinksEveryTransaction(data: SyntheticData)
    ensures Collect(Plan(data), TransactionPayload) == data.transactions
    ensures Collect(Plan(data), DebitPayload) == data.transactions
    ensures Collect(Plan(data), CreditPayload) == data.transactions
  {
    PhaseTwoPayloads();
    PlanCarriesTransactions(data, TransactionPayload);
    PlanCarriesTransactions(data, DebitPayload);
    PlanCarriesTransactions(data, CreditPayload);
  }

  lemma PhaseTwoPayloads()
    ensures PicksOneOfThree(TransactionPayload) && PicksOneOfThree(DebitPayload) && PicksOneOfThree(CreditPayload)
    ensures forall op :: Phase(op) != 2 ==> TransactionPayload(op).None? && DebitPayload(op).None? && CreditPayload(op).None?
  {
    forall x: seq<Transaction> ensures x + [] + [] == x && [] + x + [] == x && [] + [] + x == x {
      assert x + [] == x && [] + x == x;
    }
  }

  /** A session of the graph store, seen as the log of the operations it has run. */
  class Session {
    var log: seq<Op>

    constructor ()
      ensures log == []
    {
      log := [];
    }

    /** `await session.run(query, params)`. */
    method Run(op: Op)
      modifies this
      ensures log == old(log) + [op]
    {
      log := log + [op];
    }
  }

  /** `ops` holds one operation per slice of `slices`, made by `wrap`, in slice order. */
  predicate Wraps<T>(ops: seq<Op>, slices: seq<seq<T>>, wrap: seq<T> -> Op) {
    |ops| == |slices| && forall k {:trigger slices[k]} :: 0 <= k < |slices| ==> ops[k] == wrap(slices[k])
  }

  lemma WrapsSnoc<T>(ops: seq<Op>, slices: seq<seq<T>>, wrap: seq<T> -> Op, slice: seq<T>)
    requires Wraps(ops, slices, wrap)
    ensures Wraps(ops + [wrap(slice)], slices + [slice], wrap)
  {
  }

  lemma WrapsBatches<T>(ops: seq<Op>, slices: seq<seq<T>>, wrap: seq<T> -> Op)
    requires Wraps(ops, slices, wrap)
    ensures ops == Batches(slices, wrap)
  {
    BatchesAt(slices, wrap);
  }

  /**
   * A one-query slice loop, `for (let i = 0; i < s.length; i += size)`
   * running `wrap`'s query on `s.slice(i, i + size)`: the user loop and
   * both edge loops.
   */
  method LoadSlices<T>(session: Session, s: seq<T>, size: nat, wrap: seq<T> -> Op)
    requires size > 0
    modifies session
    ensures session.log == old(session.log) + Batches(Slices(s, size), wrap)
  {
    var i: nat := 0;
    ghost var done: seq<seq<T>> := [];
    ghost var sent: seq<Op> := [];
    while i < |s|
      invariant done + Slices(Rest(s, i), size) == Slices(s, size)
      invariant Wraps(sent, done, wrap)
      invariant session.log == old(session.log) + sent
    {
      var slice := JsSlice(s, i, i + size);
      SliceLoopStep(s, size, i, done);
      WrapsSnoc(sent, done, wrap, slice);
      SendOne(old(session.log), sent, wrap(slice));
      session.Run(wrap(slice));
      done := done + [slice];
      sent := sent + [wrap(slice)];
      i := i + size;
    }
    SliceLoopEnd(s, size, i, done);
    WrapsBatches(sent, done, wrap);
  }

  /** `ops` holds, per slice of `slices`, its node merge, DEBIT and CREDIT operations. */
  predicate Triples(ops: seq<Op>, slices: seq<seq<Transaction>>) {
    && |ops| == 3 * |slices|
    && forall k {:trigger slices[k]} :: 0 <= k < |slices| ==>
         ops[3 * k] == MergeTransactions(slices[k]) && ops[3 * k + 1] == LinkDebits(slices[k])
         && ops[3 * k + 2] == LinkCredits(slices[k])
  }

  /** Sending one more operation extends what has been sent by it. */
  lemma SendOne(start: seq<Op>, sent: seq<Op>, op: Op)
    ensures (start + sent) + [op] == start + (sent + [op])
  {
  }

  /** Sending more operations extends what has been sent by them. */
  lemma SendMany(start: seq<Op>, sent: seq<Op>, ops: seq<Op>)
    ensures (start + sent) + ops == start + (sent + ops)
  {
  }

  /** The three operations sent for one transaction slice. */
  function Triple(slice: seq<Transaction>): (r: seq<Op>) {
    [MergeTransactions(slice), LinkDebits(slice), LinkCredits(slice)]
  }

  /** One pass of the transaction loop: the node merge, then the DEBIT links, then the CREDIT links. */
  method SendTransactionSlice(session: Session, slice: seq<Transaction>)
    modifies session
    ensures session.log == old(session.log) + Triple(slice)
  {
    session.Run(MergeTransactions(slice));
    session.Run(LinkDebits(slice));
    session.Run(LinkCredits(slice));
  }

  lemma TriplesSnoc(ops: seq<Op>, slices: seq<seq<Transaction>>, slice: seq<Transaction>)
    requires Triples(ops, slices)
    ensures Triples(ops + Triple(slice), slices + [slice])
  {
  }

  lemma TriplesTransactionOps(ops: seq<Op>, slices: seq<seq<Transaction>>)
    requires Triples(ops, slices)
    ensures ops == TransactionOps(slices)
  {
    if slices == [] {
      TransactionOpsEmpty();
    } else {
      TransactionOpsAt(slices, 0);
      forall j | 0 <= j < |ops| ensures ops[j] == TransactionOps(slices)[j] {
        var k := j / 3;
        TransactionOpsAt(slices, k);
        assert j == 3 * k || j == 3 * k + 1 || j == 3 * k + 2;
      }
    }
  }

  lemma TransactionOpsEmpty()
    ensures TransactionOps([]) == []
  {
  }

  /** The transaction loop: three queries per slice. */
  method LoadTransactions(session: Session, transactions: seq<Transaction>)
    modifies session
    ensures session.log == old(session.log) + TransactionOps(Slices(transactions, BatchSize))
  {
    var i: nat := 0;
    ghost var done: seq<seq<Transaction>> := [];
    ghost var sent: seq<Op> := [];
    while i < |transactions|
      invariant done + Slices(Rest(transactions, i), BatchSize) == Slices(transactions, BatchSize)
      invariant Triples(sent, done)
      invariant session.log == old(session.log) + sent
    {
      var slice := JsSlice(transactions, i, i + BatchSize);
      SliceLoopStep(transactions, BatchSize, i, done);
      TriplesSnoc(sent, done, slice);
      SendMany(old(session.log), sent, Triple(slice));
      SendTransactionSlice(session, slice);
      sent := sent + Triple(slice);
      done := done + [slice];
      i := i + BatchSize;
    }
    SliceLoopEnd(transactions, BatchSize, i, done);
    TriplesTransactionOps(sent, done);
  }

  lemma AppendFour(s: seq<Op>, a: seq<Op>, b: seq<Op>, c: seq<Op>, d: seq<Op>)
    ensures s + a + b + c + d == s + (a + b + c + d)
  {
  }

  /** The four loading phases of `generateData`, in order. */
  method Load(session: Session, data: SyntheticData)
    modifies session
    ensures session.log == old(session.log) + Plan(data)
  {
    ghost var start := session.log;
    LoadSlices(session, data.users, BatchSize, UserBatch);
    LoadSlices(session, data.sharedEdges, EdgeBatchSize, SharedEdgeBatch);
    LoadTransactions(session, data.transactions);
    LoadSlices(session, data.transactionEdges, EdgeBatchSize, RelatedEdgeBatch);
    AppendFour(start, Batches(Slices(data.users, BatchSize), UserBatch),
               Batches(Slices(data.sharedEdges, EdgeBatchSize), SharedEdgeBatch),
               TransactionOps(Slices(data.transactions, BatchSize)),
               Batches(Slices(data.transactionEdges, EdgeBatchSize), RelatedEdgeBatch));
  }

  /** The response of a successful generation. */
  datatype Summary = Summary(
    users: nat,
    transactions: nat,
    sharedEdges: nat,
    transactionEdges: nat,
    userDensity: real,
    transactionDensity: real,
    effectiveUserDensity: real,
    effectiveTransactionDensity: real)

  /**
   * `generateData`: normalise the request, generate, load in phases and
   * report. `data` is the generated dataset, named for the contract.
   */
  method GenerateData(session: Session, req: GenerateRequest,
                      userDraws: nat -> UserDraws, transactionDraws: nat -> TransactionDraws)
    returns (summary: Summary, ghost data: SyntheticData)
    requires forall i :: ValidUserDraws(userDraws(i))
    requires forall i :: ValidTransactionDraws(transactionDraws(i))
    modifies session
    ensures var p := NormalizeRequest(req);
      && summary.users == p.usersCount == |data.users|
      && summary.transactions == p.transactionsCount == |data.transactions|
      && summary.sharedEdges == |data.sharedEdges|
      && summary.transactionEdges == |data.transactionEdges|
      && summary.userDensity == p.userDensity
      && summary.transactionDensity == p.transactionDensity
      && summary.effectiveUserDensity == SparseProbability(p.userDensity, p.usersCount, 8.0, 0.1)
      && summary.effectiveTransactionDensity == SparseProbability(p.transactionDensity, p.transactionsCount, 6.0, 0.08)
      && EdgeSetValid(data.sharedEdges, UserIds(p.usersCount), UserTags + {SeedTag})
      && EdgeSetValid(data.transactionEdges, TransactionIds(p.transactionsCount), TransactionTags + {SeedTag})
      && (p.userDensity > 0.0 <==> data.sharedEdges != [])
      && (p.transactionDensity > 0.0 <==> data.transactionEdges != [])
    ensures var p := NormalizeRequest(req);
      && (forall i :: 0 <= i < p.usersCount ==> UserAt(data.users[i], i))
      && (forall i :: 0 <= i < p.transactionsCount ==>
            IsTransaction(data.transactions[i], i, p.usersCount, transactionDraws(i)))
    ensures UserEdgesShare(data.sharedEdges, data.users)
    ensures TransactionEdgesShare(data.transactionEdges, data.transactions)
    ensures session.log == old(session.log) + Plan(data)
  {
    var p := NormalizeRequest(req);
    var generated := BuildSyntheticData(p.usersCount, p.transactionsCount, p.userDensity, p.transactionDensity,
                                        userDraws, transactionDraws);
    Load(session, generated);
    data := generated;
    summary := Summary(p.usersCount, p.transactionsCount, |generated.sharedEdges|, |generated.transactionEdges|,
                       p.userDensity, p.transactionDensity,
                       generated.effectiveUserDensity, generated.effectiveTransactionDensity);
  }
}
