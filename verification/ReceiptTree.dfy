/** The receipt tree of a transaction: a depth-first walk over a graph of receipts
    with a shared set of visited ids, and the verdict read off the tree. */
module ReceiptTrees {
  import opened Prelude

  datatype Status = NoStatus | SuccessValue | SuccessReceiptId | FailureStatus

  datatype Tag = TagSuccessValue | TagSuccessReceiptId | TagFailure | TagPendingYield | TagUnknown

  // What the response says about one receipt; the receipt itself may be absent.
  datatype Outcome = Outcome(status: Status, receiptIds: seq<string>)
  datatype RawReceipt = RawReceipt(predecessor: string, isPromiseYield: bool)

  datatype Response = Response(outcomes: map<string, Outcome>, receipts: map<string, RawReceipt>,
                               roots: seq<string>, topFailed: bool)

  datatype Node =
    | Expanded(id: string, tag: Tag, isRefund: bool, children: seq<Node>)
    | Dedupe(id: string)
    | Missing(id: string)

  function StatusTag(status: Status): Tag {
    match status
    case NoStatus => TagUnknown
    case SuccessValue => TagSuccessValue
    case SuccessReceiptId => TagSuccessReceiptId
    case FailureStatus => TagFailure
  }

  /** A yielded receipt still chained to its callback waits to be resumed. */
  function TagOf(r: Response, id: string): Tag
    requires id in r.outcomes
  {
    var tag := StatusTag(r.outcomes[id].status);
    if id in r.receipts && r.receipts[id].isPromiseYield && tag == TagSuccessReceiptId then TagPendingYield else tag
  }

  predicate IsRefund(r: Response, id: string) {
    id in r.receipts && r.receipts[id].predecessor == "system"
  }

  // --- The walk as a function of the visited set ---

  datatype Walked = Walked(nodes: seq<Node>, seen: set<string>)

  function Unseen(r: Response, seen: set<string>): nat {
    |r.outcomes.Keys - seen|
  }

  lemma SeenShrinks(r: Response, seen: set<string>, seen': set<string>)
    requires seen <= seen'
    ensures Unseen(r, seen') <= Unseen(r, seen)
    ensures forall id | id in r.outcomes && id !in seen && id in seen' :: Unseen(r, seen') < Unseen(r, seen)
  {
    assert r.outcomes.Keys - seen' <= r.outcomes.Keys - seen;
    SubsetSize(r.outcomes.Keys - seen', r.outcomes.Keys - seen);
    forall id | id in r.outcomes && id !in seen && id in seen'
      ensures Unseen(r, seen') < Unseen(r, seen)
    {
      SubsetSize(r.outcomes.Keys - seen', r.outcomes.Keys - seen - {id});
    }
  }

  lemma {:induction false} SubsetSize(a: set<string>, b: set<string>)
    requires a <= b
    ensures |a| <= |b|
    decreases |a|
  {
    if a != {} {
      var x :| x in a;
      SubsetSize(a - {x}, b - {x});
    }
  }

  /** One receipt: a leaf if it was visited before or has no outcome. */
  function Walk(r: Response, seen: set<string>, id: string): (w: Walked)
    ensures seen <= w.seen && |w.nodes| == 1
    decreases Unseen(r, seen), 0, 0
  {
    if id in seen then Walked([Dedupe(id)], seen)
    else if id !in r.outcomes then Walked([Missing(id)], seen + {id})
    else
      SeenShrinks(r, seen, seen + {id});
      var rest := WalkAll(r, seen + {id}, r.outcomes[id].receiptIds);
      Walked([Expanded(id, TagOf(r, id), IsRefund(r, id), rest.nodes)], rest.seen)
  }

  /** A list of receipts, left to right, sharing the visited set. */
  function WalkAll(r: Response, seen: set<string>, ids: seq<string>): (w: Walked)
    ensures seen <= w.seen && |w.nodes| == |ids|
    decreases Unseen(r, seen), 1, |ids|
  {
    if ids == [] then Walked([], seen)
    else
      var first := Walk(r, seen, ids[0]);
      SeenShrinks(r, seen, first.seen);
      var rest := WalkAll(r, first.seen, ids[1..]);
      Walked(first.nodes + rest.nodes, rest.seen)
  }

  /** The tree of a transaction. */
  function BuildTree(r: Response): seq<Node> {
    WalkAll(r, {}, r.roots).nodes
  }

  // --- The walk as it is done: one shared, mutated set ---

  class Walker {
    const response: Response
    var seen: set<string>

    constructor (r: Response)
      ensures response == r && seen == {}
    {
      response, seen := r, {};
    }

    method WalkReceipt(id: string) returns (node: Node)
      modifies this
      ensures Walked([node], seen) == Walk(response, old(seen), id)
      decreases Unseen(response, seen), 0, 0
    {
      if id in seen {
        return Dedupe(id);
      }
      SeenShrinks(response, seen, seen + {id});
      seen := seen + {id};
      if id !in response.outcomes {
        return Missing(id);
      }
      var children := MapWalk(response.outcomes[id].receiptIds);
      return Expanded(id, TagOf(response, id), IsRefund(response, id), children);
    }

    method MapWalk(ids: seq<string>) returns (nodes: seq<Node>)
      modifies this
      ensures Walked(nodes, seen) == WalkAll(response, old(seen), ids)
      decreases Unseen(response, seen), 1, 0
    {
      nodes := [];
      ghost var start := seen;
      for i := 0 to |ids|
        invariant start <= seen
        invariant
          var rest := WalkAll(response, seen, ids[i..]);
          WalkAll(response, start, ids) == Walked(nodes + rest.nodes, rest.seen)
      {
        assert ids[i..][0] == ids[i] && ids[i..][1..] == ids[i + 1..];
        SeenShrinks(response, start, seen);
        ghost var before := nodes;
        var node := WalkReceipt(ids[i]);
        nodes := nodes + [node];
        ghost var rest := WalkAll(response, seen, ids[i + 1..]);
        assert before + ([node] + rest.nodes) == nodes + rest.nodes;
      }
      assert nodes + [] == nodes;
    }
  }

  // An error response has no result and gets no tree.
  datatype Tree = ErrorTree | Transaction(topFailed: bool, children: seq<Node>)

  function TreeOf(result: Option<Response>): Tree {
    if result.None? then ErrorTree else Transaction(result.value.topFailed, BuildTree(result.value))
  }

  method BuildReceiptTree(result: Option<Response>) returns (tree: Tree)
    ensures tree == TreeOf(result)
  {
    if result.None? {
      return ErrorTree;
    }
    var walker := new Walker(result.value);
    var children := walker.MapWalk(result.value.roots);
    return Transaction(result.value.topFailed, children);
  }

  // --- What the walk visits ---

  /** Ids visited for the first time in these nodes, with multiplicity. */
  function FirstVisits(nodes: seq<Node>): multiset<string>
    decreases nodes
  {
    if nodes == [] then multiset{}
    else
      (match nodes[0]
       case Expanded(id, _, _, children) => multiset{id} + FirstVisits(children)
       case Missing(id) => multiset{id}
       case Dedupe(_) => multiset{}) + FirstVisits(nodes[1..])
  }

  /** Known receipts of the set have all their children in the larger set. */
  ghost predicate ClosedWithin(r: Response, part: set<string>, whole: set<string>) {
    forall id, child | id in part && id in r.outcomes && child in r.outcomes[id].receiptIds :: child in whole
  }

  lemma FirstVisitsConcat(a: seq<Node>, b: seq<Node>)
    ensures FirstVisits(a + b) == FirstVisits(a) + FirstVisits(b)
  {
    if a == [] {
      assert a + b == b;
    } else {
      assert (a + b)[1..] == a[1..] + b;
      FirstVisitsConcat(a[1..], b);
    }
  }

  lemma ClosedUnion(r: Response, a: set<string>, b: set<string>, mid: set<string>, whole: set<string>)
    requires ClosedWithin(r, a, mid) && ClosedWithin(r, b, whole) && mid <= whole
    ensures ClosedWithin(r, a + b, whole)
  {
  }

  lemma NothingClosed(r: Response, whole: set<string>)
    ensures ClosedWithin(r, {}, whole)
  {
  }

  lemma DisjointSum(a: set<string>, b: set<string>)
    requires a !! b
    ensures multiset(a + b) == multiset(a) + multiset(b)
  {
  }

  /** Visits before a point and visits after it. */
  lemma VisitsInTwo(r: Response, seen: set<string>, mid: set<string>, end: set<string>)
    requires seen <= mid <= end
    ensures end - seen == (mid - seen) + (end - mid) && (mid - seen) !! (end - mid)
  {
  }

  lemma {:induction false} WalkVisits(r: Response, seen: set<string>, id: string)
    ensures
      var w := Walk(r, seen, id);
      && id in w.seen
      && FirstVisits(w.nodes) == multiset(w.seen - seen)
      && ClosedWithin(r, w.seen - seen, w.seen)
    decreases Unseen(r, seen), 0, 0
  {
    var w := Walk(r, seen, id);
    if id in seen {
      assert w.seen - seen == {};
    } else if id !in r.outcomes {
      assert w.seen - seen == {id};
      assert w.nodes[1..] == [];
    } else {
      SeenShrinks(r, seen, seen + {id});
      WalkAllVisits(r, seen + {id}, r.outcomes[id].receiptIds);
      VisitsInTwo(r, seen, seen + {id}, w.seen);
      assert (seen + {id}) - seen == {id};
      DisjointSum({id}, w.seen - (seen + {id}));
      assert w.nodes[1..] == [];
    }
  }

  lemma {:induction false} WalkAllVisits(r: Response, seen: set<string>, ids: seq<string>)
    ensures
      var w := WalkAll(r, seen, ids);
      && (forall id | id in ids :: id in w.seen)
      && FirstVisits(w.nodes) == multiset(w.seen - seen)
      && ClosedWithin(r, w.seen - seen, w.seen)
    decreases Unseen(r, seen), 1, |ids|
  {
    hide ClosedWithin;
    var w := WalkAll(r, seen, ids);
    if ids == [] {
      assert w.seen - seen == {};
      NothingClosed(r, w.seen);
    } else {
      var first := Walk(r, seen, ids[0]);
      var rest := WalkAll(r, first.seen, ids[1..]);
      WalkVisits(r, seen, ids[0]);
      SeenShrinks(r, seen, first.seen);
      WalkAllVisits(r, first.seen, ids[1..]);
      FirstVisitsConcat(first.nodes, rest.nodes);
      VisitsInTwo(r, seen, first.seen, w.seen);
      DisjointSum(first.seen - seen, w.seen - first.seen);
      ClosedUnion(r, first.seen - seen, w.seen - first.seen, first.seen, w.seen);
    }
  }

  // --- Reachability ---

  /** A path of receipts, each created by the one before. */
  ghost predicate Leads(r: Response, path: seq<string>) {
    && path != [] && path[0] in r.roots
    && forall k | 0 <= k < |path| - 1 :: path[k] in r.outcomes && path[k + 1] in r.outcomes[path[k]].receiptIds
  }

  ghost predicate Reaches(r: Response, id: string) {
    exists path :: Leads(r, path) && path[|path| - 1] == id
  }

  lemma ReachesChild(r: Response, id: string, child: string)
    requires Reaches(r, id) && id in r.outcomes && child in r.outcomes[id].receiptIds
    ensures Reaches(r, child)
  {
    var path :| Leads(r, path) && path[|path| - 1] == id;
    var longer := path + [child];
    forall k | 0 <= k < |longer| - 1
      ensures longer[k] in r.outcomes && longer[k + 1] in r.outcomes[longer[k]].receiptIds
    {
      assert longer[k] == path[k];
    }
    assert Leads(r, longer) && longer[|longer| - 1] == child;
  }

  lemma {:induction false} WalkReaches(r: Response, seen: set<string>, id: string)
    requires Reaches(r, id)
    ensures forall x | x in Walk(r, seen, id).seen - seen :: Reaches(r, x)
    decreases Unseen(r, seen), 0, 0
  {
    if id !in seen && id in r.outcomes {
      SeenShrinks(r, seen, seen + {id});
      forall child | child in r.outcomes[id].receiptIds
        ensures Reaches(r, child)
      {
        ReachesChild(r, id, child);
      }
      WalkAllReaches(r, seen + {id}, r.outcomes[id].receiptIds);
    }
  }

  lemma {:induction false} WalkAllReaches(r: Response, seen: set<string>, ids: seq<string>)
    requires forall id | id in ids :: Reaches(r, id)
    ensures forall x | x in WalkAll(r, seen, ids).seen - seen :: Reaches(r, x)
    decreases Unseen(r, seen), 1, |ids|
  {
    hide Reaches;
    if ids != [] {
      var first := Walk(r, seen, ids[0]);
      WalkReaches(r, seen, ids[0]);
      SeenShrinks(r, seen, first.seen);
      WalkAllReaches(r, first.seen, ids[1..]);
    }
  }

  lemma {:induction false} ClosedHoldsPath(r: Response, whole: set<string>, path: seq<string>)
    requires (forall id | id in r.roots :: id in whole) && ClosedWithin(r, whole, whole) && Leads(r, path)
    ensures path[|path| - 1] in whole
    decreases |path|
  {
    if |path| > 1 {
      var front := path[..|path| - 1];
      assert forall k | 0 <= k < |front| :: front[k] == path[k];
      ClosedHoldsPath(r, whole, front);
      assert path[|path| - 2] in r.outcomes && path[|path| - 2 + 1] in r.outcomes[path[|path| - 2]].receiptIds;
    }
  }

  /** On any receipt graph, cyclic or not, the walk visits exactly the receipts
      reachable from the transaction, and each of them exactly once. */
  lemma VisitsExactlyReachable(r: Response, id: string)
    ensures FirstVisits(BuildTree(r))[id] == if Reaches(r, id) then 1 else 0
  {
    var w := WalkAll(r, {}, r.roots);
    WalkAllVisits(r, {}, r.roots);
    assert w.seen - {} == w.seen;
    forall root | root in r.roots
      ensures Reaches(r, root)
    {
      assert Leads(r, [root]) && [root][0] == root;
    }
    WalkAllReaches(r, {}, r.roots);
    if Reaches(r, id) {
      var path :| Leads(r, path) && path[|path| - 1] == id;
      ClosedHoldsPath(r, w.seen, path);
    }
  }

  // --- Nodes say what the response says ---

  /** The receipt is the yielded end of a chain that has not been resumed. */
  predicate WaitsForResume(r: Response, id: string)
    requires id in r.outcomes
  {
    r.outcomes[id].status == SuccessReceiptId && id in r.receipts && r.receipts[id].isPromiseYield
  }

  /** A tag says which status the outcome has, and tells a waiting yield apart. */
  predicate TagFits(r: Response, id: string, tag: Tag)
    requires id in r.outcomes
  {
    match tag
    case TagSuccessValue => r.outcomes[id].status == SuccessValue
    case TagSuccessReceiptId => r.outcomes[id].status == SuccessReceiptId && !WaitsForResume(r, id)
    case TagFailure => r.outcomes[id].status == FailureStatus
    case TagPendingYield => WaitsForResume(r, id)
    case TagUnknown => r.outcomes[id].status == NoStatus
  }

  ghost predicate Faithful(r: Response, node: Node)
    decreases node
  {
    match node
    case Expanded(id, tag, isRefund, children) =>
      && id in r.outcomes && TagFits(r, id, tag)
      && (isRefund <==> id in r.receipts && r.receipts[id].predecessor == "system")
      && |children| == |r.outcomes[id].receiptIds|
      && (forall i | 0 <= i < |children| :: children[i].id == r.outcomes[id].receiptIds[i])
      && forall i | 0 <= i < |children| :: Faithful(r, children[i])
    case Missing(id) => id !in r.outcomes
    case Dedupe(_) => true
  }

  ghost predicate AllFaithful(r: Response, nodes: seq<Node>, ids: seq<string>) {
    |nodes| == |ids| && forall i | 0 <= i < |nodes| :: nodes[i].id == ids[i] && Faithful(r, nodes[i])
  }

  lemma {:induction false} WalkFaithful(r: Response, seen: set<string>, id: string)
    ensures AllFaithful(r, Walk(r, seen, id).nodes, [id])
    decreases Unseen(r, seen), 0, 0
  {
    if id !in seen && id in r.outcomes {
      SeenShrinks(r, seen, seen + {id});
      WalkAllFaithful(r, seen + {id}, r.outcomes[id].receiptIds);
    }
  }

  /** An expanded node lists its receipt's own children, in order. */
  lemma {:induction false} WalkAllFaithful(r: Response, seen: set<string>, ids: seq<string>)
    ensures AllFaithful(r, WalkAll(r, seen, ids).nodes, ids)
    decreases Unseen(r, seen), 1, |ids|
  {
    if ids != [] {
      var first := Walk(r, seen, ids[0]);
      WalkFaithful(r, seen, ids[0]);
      SeenShrinks(r, seen, first.seen);
      WalkAllFaithful(r, first.seen, ids[1..]);
    }
  }

  // --- The verdict ---

  datatype Verdict = UnknownVerdict | HardFail | Pending | PartialFail | FullSuccess

  predicate FailedNode(node: Node) {
    node.Expanded? && node.tag == TagFailure && !node.isRefund
  }

  predicate PendingNode(node: Node) {
    node.Expanded? && (node.tag == TagPendingYield || node.tag == TagUnknown)
  }

  /** Some node in the tree is one of these. */
  predicate Somewhere(p: Node -> bool, nodes: seq<Node>)
    decreases nodes
  {
    nodes != [] &&
    (p(nodes[0]) || (nodes[0].Expanded? && Somewhere(p, nodes[0].children)) || Somewhere(p, nodes[1..]))
  }

  function Verdicts(topFailed: bool, anyFail: bool, anyPending: bool): Verdict {
    if topFailed then HardFail else if anyPending then Pending else if anyFail then PartialFail else FullSuccess
  }

  /** The two flags the scan sets. */
  class Scan {
    var anyFail: bool
    var anyPending: bool

    constructor ()
      ensures !anyFail && !anyPending
    {
      anyFail, anyPending := false, false;
    }

    method WalkNodes(nodes: seq<Node>)
      modifies this
      ensures anyFail == (old(anyFail) || Somewhere(FailedNode, nodes))
      ensures anyPending == (old(anyPending) || Somewhere(PendingNode, nodes))
      decreases nodes
    {
      ghost var fail, pending := anyFail, anyPending;
      for i := 0 to |nodes|
        invariant (anyFail || Somewhere(FailedNode, nodes[i..])) == (fail || Somewhere(FailedNode, nodes))
        invariant (anyPending || Somewhere(PendingNode, nodes[i..])) == (pending || Somewhere(PendingNode, nodes))
      {
        assert nodes[i..][0] == nodes[i] && nodes[i..][1..] == nodes[i + 1..];
        if FailedNode(nodes[i]) {
          anyFail := true;
        }
        if PendingNode(nodes[i]) {
          anyPending := true;
        }
        if nodes[i].Expanded? {
          WalkNodes(nodes[i].children);
        }
      }
    }
  }

  function VerdictOnTree(tree: Tree): Verdict {
    if tree.ErrorTree? then UnknownVerdict
    else Verdicts(tree.topFailed, Somewhere(FailedNode, tree.children), Somewhere(PendingNode, tree.children))
  }

  method Classify(tree: Tree) returns (verdict: Verdict)
    ensures verdict == VerdictOnTree(tree)
  {
    if tree.ErrorTree? {
      return UnknownVerdict;
    }
    var scan := new Scan();
    scan.WalkNodes(tree.children);
    if tree.topFailed {
      return HardFail;
    }
    if scan.anyPending {
      return Pending;
    }
    if scan.anyFail {
      return PartialFail;
    }
    return FullSuccess;
  }

  /** A property of nodes that depends on the receipt alone. */
  ghost predicate ReadsReceipt(r: Response, p: Node -> bool, q: string -> bool) {
    forall node: Node | Faithful(r, node) :: p(node) <==> node.Expanded? && q(node.id)
  }

  /** A tree has such a node exactly if it expands such a receipt. */
  lemma {:induction false} SomewhereIffVisited(r: Response, nodes: seq<Node>, p: Node -> bool, q: string -> bool)
    requires ReadsReceipt(r, p, q) && forall i | 0 <= i < |nodes| :: Faithful(r, nodes[i])
    ensures Somewhere(p, nodes) <==> exists id :: id in FirstVisits(nodes) && id in r.outcomes && q(id)
    decreases nodes
  {
    hide TagFits;
    if nodes != [] {
      assert Faithful(r, nodes[0]);
      var rest := nodes[1..];
      SomewhereIffVisited(r, rest, p, q);
      if nodes[0].Expanded? {
        SomewhereIffVisited(r, nodes[0].children, p, q);
      }
    }
  }

  /** Its outcome is a failure, and it is no refund. */
  ghost predicate FailsReceipt(r: Response, id: string) {
    id in r.outcomes && r.outcomes[id].status == FailureStatus
    && !(id in r.receipts && r.receipts[id].predecessor == "system")
  }

  /** It has no status yet, or it is a yield still waiting to be resumed. */
  ghost predicate AwaitsReceipt(r: Response, id: string) {
    id in r.outcomes && (r.outcomes[id].status == NoStatus || WaitsForResume(r, id))
  }

  ghost predicate SomeFails(r: Response) {
    exists id :: Reaches(r, id) && FailsReceipt(r, id)
  }

  ghost predicate SomeAwaits(r: Response) {
    exists id :: Reaches(r, id) && AwaitsReceipt(r, id)
  }

  /** The verdict, stated over the graph: over every reachable receipt that has an outcome.
      A failed transaction outranks a waiting receipt, and that a failed receipt. */
  ghost predicate IsVerdict(r: Response, verdict: Verdict) {
    match verdict
    case UnknownVerdict => false
    case HardFail => r.topFailed
    case Pending => !r.topFailed && SomeAwaits(r)
    case PartialFail => !r.topFailed && !SomeAwaits(r) && SomeFails(r)
    case FullSuccess => !r.topFailed && !SomeAwaits(r) && !SomeFails(r)
  }

  lemma VisitedIffReached(r: Response, id: string)
    ensures id in FirstVisits(BuildTree(r)) <==> Reaches(r, id)
  {
    VisitsExactlyReachable(r, id);
  }

  lemma FailureFound(r: Response)
    ensures Somewhere(FailedNode, BuildTree(r)) <==> SomeFails(r)
  {
    hide Reaches, WalkAll, BuildTree, FirstVisits, Somewhere;
    TreeFaithful(r);
    SomewhereIffVisited(r, BuildTree(r), FailedNode,
                        id => id in r.outcomes && r.outcomes[id].status == FailureStatus
                              && !(id in r.receipts && r.receipts[id].predecessor == "system"));
    forall id {
      VisitedIffReached(r, id);
    }
  }

  lemma WaitingFound(r: Response)
    ensures Somewhere(PendingNode, BuildTree(r)) <==> SomeAwaits(r)
  {
    hide Reaches, WalkAll, BuildTree, FirstVisits, Somewhere;
    TreeFaithful(r);
    SomewhereIffVisited(r, BuildTree(r), PendingNode,
                        id => id in r.outcomes && (r.outcomes[id].status == NoStatus || WaitsForResume(r, id)));
    forall id {
      VisitedIffReached(r, id);
    }
  }

  lemma TreeFaithful(r: Response)
    ensures AllFaithful(r, BuildTree(r), r.roots)
  {
    WalkAllFaithful(r, {}, r.roots);
  }

  /** What the scan of the tree reports is the verdict over the graph. */
  lemma ClassifyIsVerdict(r: Response)
    ensures IsVerdict(r, VerdictOnTree(TreeOf(Some(r))))
  {
    hide BuildTree, Somewhere, SomeFails, SomeAwaits;
    FailureFound(r);
    WaitingFound(r);
  }

  /** The two in sequence: the verdict on a transaction, or none on an error response. */
  method VerdictOnTransaction(result: Option<Response>) returns (verdict: Verdict)
    ensures verdict == UnknownVerdict <==> result.None?
    ensures verdict == HardFail <==> result.Some? && result.value.topFailed
    ensures verdict == Pending <==>
            result.Some? && !result.value.topFailed && exists id :: Reaches(result.value, id) && AwaitsReceipt(result.value, id)
    ensures verdict == PartialFail <==>
            && result.Some? && !result.value.topFailed
            && (forall id | Reaches(result.value, id) :: !AwaitsReceipt(result.value, id))
            && exists id :: Reaches(result.value, id) && FailsReceipt(result.value, id)
    ensures verdict == FullSuccess <==>
            && result.Some? && !result.value.topFailed
            && forall id | Reaches(result.value, id) :: !AwaitsReceipt(result.value, id) && !FailsReceipt(result.value, id)
  {
    hide Reaches, FailsReceipt, AwaitsReceipt, TreeOf, VerdictOnTree;
    var tree := BuildReceiptTree(result);
    verdict := Classify(tree);
    if result.Some? {
      ClassifyIsVerdict(result.value);
    } else {
      NoVerdict();
    }
  }

  lemma NoVerdict()
    ensures VerdictOnTree(TreeOf(None)) == UnknownVerdict
  {
  }

  /** The same graph with roots and children listed in any order, repeated or not. */
  ghost predicate Reordered(r: Response, r': Response) {
    && r'.receipts == r.receipts && r'.topFailed == r.topFailed
    && r'.outcomes.Keys == r.outcomes.Keys
    && (forall id :: id in r.roots <==> id in r'.roots)
    && (forall id | id in r.outcomes :: r'.outcomes[id].status == r.outcomes[id].status)
    && (forall id, child | id in r.outcomes :: child in r.outcomes[id].receiptIds <==> child in r'.outcomes[id].receiptIds)
  }

  lemma ReorderedReaches(r: Response, r': Response, id: string)
    requires Reordered(r, r') && Reaches(r, id)
    ensures Reaches(r', id)
  {
    var path :| Leads(r, path) && path[|path| - 1] == id;
    assert Leads(r', path);
  }

  /** The verdict does not depend on the order in which receipts are listed. */
  lemma VerdictIgnoresOrder(r: Response, r': Response)
    requires Reordered(r, r')
    ensures VerdictOnTree(TreeOf(Some(r))) == VerdictOnTree(TreeOf(Some(r')))
  {
    hide Reaches, TreeOf, VerdictOnTree;
    assert Reordered(r', r);
    forall id
      ensures Reaches(r, id) <==> Reaches(r', id)
      ensures FailsReceipt(r, id) <==> FailsReceipt(r', id)
      ensures AwaitsReceipt(r, id) <==> AwaitsReceipt(r', id)
    {
      if Reaches(r, id) {
        ReorderedReaches(r, r', id);
      }
      if Reaches(r', id) {
        ReorderedReaches(r', r, id);
      }
    }
    ClassifyIsVerdict(r);
    ClassifyIsVerdict(r');
  }
}
