/** The bridge's one queue: requests of four priority classes, each class closed by a marker
    node. Nodes are values; JudgeList proves that no value occurs twice, so a value names one
    node of the doubly linked list. */
module PriorityList {
  import opened Options
  import opened Tokens

  // Primary keys start at 1, so `bool(_working)` is "has a submission".
  type SubmissionId = n: int | 0 < n witness 1

  const PRIORITIES: nat := 4
  const REJUDGE_PRIORITY: nat := 2

  datatype Request = Request(id: SubmissionId, problem: string, language: string, source: string,
                             judgeId: Option<string>, banned: seq<string>)
  datatype Node = Marker(priority: nat) | Entry(request: Request)

  // When a request entered the queue: its class, and its place in the order of all arrivals.
  datatype Stamp = Stamp(priority: nat, arrival: nat)
  type Stamps = map<SubmissionId, Stamp>

  ghost predicate Stamped(n: Node, stamps: Stamps) {
    n.Entry? ==> n.request.id in stamps
  }

  ghost function ClassOf(n: Node, stamps: Stamps): nat
    requires Stamped(n, stamps)
  {
    match n
    case Marker(p) => p
    case Entry(r) => stamps[r.id].priority
  }

  // Queue order: by class, then arrival, and the marker of a class after all its entries.
  ghost predicate Before(a: Node, b: Node, stamps: Stamps)
    requires Stamped(a, stamps) && Stamped(b, stamps)
  {
    || ClassOf(a, stamps) < ClassOf(b, stamps)
    || (&& ClassOf(a, stamps) == ClassOf(b, stamps)
        && a.Entry?
        && (b.Entry? ==> stamps[a.request.id].arrival < stamps[b.request.id].arrival))
  }

  ghost predicate Ordered(q: seq<Node>, stamps: Stamps) {
    && (forall i :: 0 <= i < |q| ==> Stamped(q[i], stamps))
    && (forall i, j :: 0 <= i < j < |q| ==> Before(q[i], q[j], stamps))
  }

  // The four markers, and nothing of another class, in queue order.
  ghost predicate WellFormed(q: seq<Node>, stamps: Stamps) {
    && Ordered(q, stamps)
    && (forall p: nat :: p < PRIORITIES ==> Marker(p) in q)
    && (forall n :: n in q ==> ClassOf(n, stamps) < PRIORITIES)
  }

  function IndexOf(q: seq<Node>, n: Node): (i: nat)
    requires n in q
    ensures i < |q| && q[i] == n
    ensures forall j :: 0 <= j < i ==> q[j] != n
  {
    if q[0] == n then 0 else 1 + IndexOf(q[1..], n)
  }

  // `dllist.remove(node)`
  function RemoveNode(q: seq<Node>, n: Node): seq<Node>
    requires n in q
  {
    var i := IndexOf(q, n);
    q[..i] + q[i + 1..]
  }

  // `dllist.insert(value, before)` with the marker of class p as the second argument.
  function InsertEntry(q: seq<Node>, r: Request, p: nat): seq<Node>
    requires Marker(p) in q
  {
    var i := IndexOf(q, Marker(p));
    q[..i] + [Entry(r)] + q[i..]
  }

  lemma RemoveMembers(q: seq<Node>, n: Node, stamps: Stamps)
    requires Ordered(q, stamps) && n in q && n.Entry?
    ensures forall m :: m in RemoveNode(q, n) <==> m in q && m != n
  {
    var i := IndexOf(q, n);
    assert forall k :: 0 <= k < i ==> Before(q[k], q[i], stamps);
    assert forall k :: i < k < |q| ==> Before(q[i], q[k], stamps);
    assert q == q[..i] + [n] + q[i + 1..];
  }

  /** Unlinking an entry keeps the order and loses exactly that entry. */
  lemma RemoveKeepsOrder(q: seq<Node>, r: Request, stamps: Stamps)
    requires WellFormed(q, stamps) && Entry(r) in q
    ensures WellFormed(RemoveNode(q, Entry(r)), stamps)
    ensures forall n :: n in RemoveNode(q, Entry(r)) <==> n in q && n != Entry(r)
    ensures |RemoveNode(q, Entry(r))| == |q| - 1
  {
    var i := IndexOf(q, Entry(r));
    var s := RemoveNode(q, Entry(r));
    RemoveMembers(q, Entry(r), stamps);
    forall a, b | 0 <= a < b < |s|
      ensures Stamped(s[a], stamps) && Stamped(s[b], stamps) && Before(s[a], s[b], stamps)
    {
      var a', b' := if a < i then a else a + 1, if b < i then b else b + 1;
      assert s[a] == q[a'] && s[b] == q[b'];
    }
    assert forall n :: n in s ==> Stamped(n, stamps);
  }

  // Stamping one more request changes nothing for the nodes already queued.
  lemma StampsGrow(a: Node, b: Node, r: Request, t: Stamp, stamps: Stamps)
    requires Stamped(a, stamps) && Stamped(b, stamps)
    requires (a.Entry? ==> a.request.id != r.id) && (b.Entry? ==> b.request.id != r.id)
    ensures Before(a, b, stamps) == Before(a, b, stamps[r.id := t])
  {
  }

  // The new entry falls after everything in front of its marker and before the rest.
  lemma NewestBefore(n: Node, r: Request, p: nat, clock: nat, stamps: Stamps)
    requires Stamped(n, stamps)
    requires n.Entry? ==> n.request.id != r.id && stamps[n.request.id].arrival < clock
    ensures Before(n, Marker(p), stamps) ==> Before(n, Entry(r), stamps[r.id := Stamp(p, clock)])
    ensures n == Marker(p) || Before(Marker(p), n, stamps) ==> Before(Entry(r), n, stamps[r.id := Stamp(p, clock)])
  {
  }

  lemma InsertMembers(q: seq<Node>, r: Request, p: nat)
    requires Marker(p) in q
    ensures forall n :: n in InsertEntry(q, r, p) <==> n in q || n == Entry(r)
  {
    var i := IndexOf(q, Marker(p));
    assert q == q[..i] + q[i..];
  }

  lemma InsertedPair(q: seq<Node>, r: Request, p: nat, clock: nat, stamps: Stamps, a: nat, b: nat)
    requires WellFormed(q, stamps) && p < PRIORITIES && a < b <= |q|
    requires forall n :: n in q && n.Entry? ==> n.request.id != r.id && stamps[n.request.id].arrival < clock
    ensures var s, stamps' := InsertEntry(q, r, p), stamps[r.id := Stamp(p, clock)];
            Stamped(s[a], stamps') && Stamped(s[b], stamps') && Before(s[a], s[b], stamps')
  {
    var i := IndexOf(q, Marker(p));
    if a == i {
      NewestBefore(q[b - 1], r, p, clock, stamps);
    } else if b == i {
      NewestBefore(q[a], r, p, clock, stamps);
    } else {
      StampsGrow(q[if a < i then a else a - 1], q[if b < i then b else b - 1], r, Stamp(p, clock), stamps);
    }
  }

  /** Appending to a class keeps the order: the new entry is last of its class, and no other
      entry changes its place. */
  lemma InsertKeepsOrder(q: seq<Node>, r: Request, p: nat, clock: nat, stamps: Stamps)
    requires WellFormed(q, stamps) && p < PRIORITIES
    requires forall n :: n in q && n.Entry? ==> n.request.id != r.id && stamps[n.request.id].arrival < clock
    ensures WellFormed(InsertEntry(q, r, p), stamps[r.id := Stamp(p, clock)])
    ensures forall n :: n in InsertEntry(q, r, p) <==> n in q || n == Entry(r)
  {
    var s := InsertEntry(q, r, p);
    var stamps' := stamps[r.id := Stamp(p, clock)];
    InsertMembers(q, r, p);
    assert forall n :: n in s ==> Stamped(n, stamps') && ClassOf(n, stamps') < PRIORITIES;
    forall a, b | 0 <= a < b < |s| ensures Before(s[a], s[b], stamps') {
      InsertedPair(q, r, p, clock, stamps, a, b);
    }
  }

  /** Unlinking an entry that was just inserted gives the old queue back. */
  lemma RemoveUndoesInsert(q: seq<Node>, r: Request, p: nat)
    requires Marker(p) in q && Entry(r) !in q
    ensures Entry(r) in InsertEntry(q, r, p) && RemoveNode(InsertEntry(q, r, p), Entry(r)) == q
  {
    var i := IndexOf(q, Marker(p));
    var s := InsertEntry(q, r, p);
    assert s[i] == Entry(r) && Entry(r) !in s[..i];
    assert s[IndexOf(s, Entry(r))] !in s[..i];
    assert IndexOf(s, Entry(r)) == i;
  }

  /** A scan that has passed exactly the markers below `priority` reads off the class each
      entry was queued with. */
  lemma ScannedPriority(q: seq<Node>, stamps: Stamps, i: nat, priority: nat)
    requires WellFormed(q, stamps) && i < |q| && q[i].Entry?
    requires forall p: nat :: p < PRIORITIES ==> (p < priority <==> Marker(p) in q[..i])
    requires priority <= PRIORITIES
    ensures priority == stamps[q[i].request.id].priority
  {
    var c, front := stamps[q[i].request.id].priority, q[..i];
    assert q[i] in q;
    forall p: nat | p < PRIORITIES ensures p < c <==> Marker(p) in q[..i] {
      var m := IndexOf(q, Marker(p));
      assert m < i ==> q[..i][m] == Marker(p) && Before(q[m], q[i], stamps);
      assert i < m ==> Before(q[i], q[m], stamps);
      assert forall k :: 0 <= k < i ==> Before(q[k], q[i], stamps);
    }
    assert Marker(c) !in front;
    assert priority < c ==> Marker(priority) in front;
  }

  /** The markers come in order, so the next one passed is the one of the class being scanned. */
  lemma NextMarker(q: seq<Node>, stamps: Stamps, i: nat, priority: nat)
    requires WellFormed(q, stamps) && i < |q| && q[i].Marker?
    requires forall p: nat :: p < PRIORITIES ==> (p < priority <==> Marker(p) in q[..i])
    requires priority <= PRIORITIES
    ensures q[i] == Marker(priority) && priority < PRIORITIES
    ensures forall p: nat :: p < PRIORITIES ==> (p < priority + 1 <==> Marker(p) in q[..i + 1])
  {
    var m, front := q[i].priority, q[..i];
    assert q[i] in q;
    assert q[..i + 1] == front + [q[i]];
    forall p: nat | p < PRIORITIES ensures p < m <==> Marker(p) in front {
      var k := IndexOf(q, Marker(p));
      assert k < i ==> front[k] == Marker(p) && Before(q[k], q[i], stamps);
      assert i < k ==> Before(q[i], q[k], stamps);
      assert forall k :: 0 <= k < i ==> Before(q[k], q[i], stamps);
    }
    assert Marker(m) !in front;
    assert priority < m ==> Marker(priority) in front;
  }
}
