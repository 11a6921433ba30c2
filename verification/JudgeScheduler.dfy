/** The bridge's scheduler. Every public method of JudgeList runs under one lock, so each is one
    atomic step here. How its dispatches end is up to the judges: the n-th one of a scheduler ends
    with the outcome number n of a sequence that is given from outside, any sequence at all. */
module JudgeScheduler {
  import opened Options
  import opened Tokens
  import opened PriorityList

  // submit() returned, or raised DeferredSubmission, InvalidSubmission or any other exception.
  datatype Outcome = Ok | Deferred | Invalid | Failed
  datatype Attempt = Attempt(judge: Judge, id: SubmissionId, outcome: Outcome)
  datatype Retry = Retry(request: Request, priority: nat)

  // How a submission was handed to its judge: the request, its class, and the token of the run.
  datatype Grant = Grant(request: Request, priority: nat, token: Option<Token>)

  class Judge {
    const name: string
    var working: Option<SubmissionId>
    var dispatchId: Option<Token>
    var isDisabled: bool
    var load: real
    var retryRequest: Option<Retry>
    // Problem data, executors and remote readiness, as can_judge finds them.
    var supports: (string, string, SubmissionId) -> bool

    constructor (name: string, supports: (string, string, SubmissionId) -> bool)
      ensures this.name == name && this.supports == supports && working.None? && !isDisabled
    {
      this.name := name;
      this.supports := supports;
      working, dispatchId, retryRequest, isDisabled, load := None, None, None, false, 1e100;
    }

    predicate CanJudge(r: Request)
      reads `supports, `isDisabled
    {
      && supports(r.problem, r.language, r.id)
      && ((r.judgeId.None? && !isDisabled) || r.judgeId == Some(name))
    }

    predicate Takes(r: Request)
      reads `supports, `isDisabled
    {
      name !in r.banned && CanJudge(r)
    }

    /** A request that asks for a judge goes to the judge of that name, even a disabled one; any other goes to judges
        that are not disabled; and never to one that was banned, or lacks what it needs. */
    lemma TakesExactly(r: Request)
      ensures Takes(r) <==>
              && supports(r.problem, r.language, r.id) && (forall b :: b in r.banned ==> b != name)
              && match r.judgeId
                 case None => !isDisabled
                 case Some(asked) => asked == name
    {
    }

    predicate Idle()
      reads `working, `isDisabled
    {
      working.None? && !isDisabled
    }

    /** Hands the submission to the judge, which answers `answer`. `expected` is the token JudgeList
        recorded for it; the database token that is dispatched must equal it. A failure may come
        before or after the judge has noted the submission as its own. */
    method Submit(id: SubmissionId, expected: Option<Token>, answer: Outcome) returns (o: Outcome)
      requires working.None?
      modifies `working, `dispatchId
      ensures o == answer
      ensures o.Ok? ==> working == Some(id) && (expected.Some? ==> dispatchId == expected)
      ensures o.Deferred? || o.Invalid? ==> working.None?
      ensures o.Failed? ==> working.None? || working == Some(id)
    {
      o := answer;
      dispatchId := *;
      if o.Ok? {
        working := Some(id);
        if expected.Some? { dispatchId := expected; }
      } else if o.Failed? {
        var noted: bool := *;
        working := if noted then Some(id) else None;
      }
    }
  }

  // Who was working on what; whoever is in here is not to be disturbed.
  type Busy = map<Judge, SubmissionId>

  ghost predicate Undisturbed(busy: Busy)
    reads busy.Keys`working
  {
    forall j :: j in busy ==> j.working == Some(busy[j])
  }

  ghost function Working(js: set<Judge>): (busy: Busy)
    reads js`working
    ensures Undisturbed(busy)
    ensures forall j :: j in js && j.working.Some? ==> j in busy
  {
    map j | j in js && j.working.Some? :: j.working.value
  }

  // Some entry of the trail says that this judge deferred the submission or found it invalid.
  ghost predicate Refused(judge: Judge, id: SubmissionId, trail: seq<Attempt>) {
    Attempt(judge, id, Deferred) in trail || Attempt(judge, id, Invalid) in trail
  }

  // The submission left the queue for a reason: a judge took it, or it had become invalid.
  ghost predicate Settled(id: SubmissionId, trail: seq<Attempt>) {
    exists a :: a in trail && a.id == id && (a.outcome.Ok? || a.outcome.Invalid?)
  }

  ghost predicate NoDeferral(trail: seq<Attempt>) {
    forall a :: a in trail ==> !a.outcome.Deferred?
  }

  // The attempts of a trail, and the submissions they were about.
  ghost function Attempts(trail: seq<Attempt>): set<Attempt> {
    set a | a in trail
  }

  ghost function Ids(trail: seq<Attempt>): set<SubmissionId> {
    set a | a in trail :: a.id
  }

  lemma AttemptsSplit(first: seq<Attempt>, second: seq<Attempt>)
    ensures Attempts(first + second) == Attempts(first) + Attempts(second)
    ensures Ids(first + second) == Ids(first) + Ids(second)
  {
    var both := first + second;
    assert forall a :: a in both <==> a in first || a in second;
    assert forall a :: a in first || a in second ==> a in both;
  }

  lemma SubsetSize<T>(a: set<T>, b: set<T>)
    requires a <= b
    ensures |a| <= |b| && (|a| == |b| ==> a == b)
  {
    assert b == a + (b - a);
  }

  // The scheduler's own state, apart from what it keeps on the judges.
  datatype Snapshot = Snapshot(queue: seq<Node>, judges: set<Judge>, nodeMap: map<SubmissionId, Node>,
                               submissionMap: map<SubmissionId, Judge>, dispatchIds: map<SubmissionId, Token>,
                               grants: map<SubmissionId, Grant>, stamps: Stamps, clock: nat, asked: nat)

  // An assignment stands exactly as long as nobody is asked about its submission; one that is new comes from a
  // dispatch that succeeded.
  ghost predicate Assigned(before: map<SubmissionId, Judge>, after: map<SubmissionId, Judge>, trail: seq<Attempt>) {
    && (forall id :: id !in Ids(trail) ==> Lookup(after, id) == Lookup(before, id))
    && (forall id :: id in after && id in Ids(trail) ==> Attempt(after[id], id, Ok) in trail)
  }

  lemma AssignedTransitive(a: map<SubmissionId, Judge>, b: map<SubmissionId, Judge>, c: map<SubmissionId, Judge>,
                           first: seq<Attempt>, second: seq<Attempt>)
    requires Assigned(a, b, first) && Assigned(b, c, second)
    ensures Assigned(a, c, first + second)
  {
    var both := first + second;
    AttemptsSplit(first, second);
    assert forall x :: x in both <==> x in first || x in second;
    forall id | id in c && id in Ids(both) ensures Attempt(c[id], id, Ok) in both {
      if id !in Ids(second) {
        assert Lookup(c, id) == Lookup(b, id);
      }
    }
  }

  /** An assignment of a judge that is not disturbed survives a call if and only if no attempt of the call was about its
      submission, however that attempt ended. */
  lemma AssignmentSurvives(s: Snapshot, t: Snapshot, trail: seq<Attempt>, id: SubmissionId)
    requires Assigned(s.submissionMap, t.submissionMap, trail) && id in s.submissionMap
    requires forall a :: a in trail ==> a.judge != s.submissionMap[id]
    ensures Lookup(t.submissionMap, id) == Lookup(s.submissionMap, id) <==> id !in Ids(trail)
  {
  }

  // What queued entries and assignments of t are made of, compared with s: an assignment is an old one or comes from
  // a dispatch that the trail records, and a dispatch from the queue hands over what was queued, as it was queued.
  ghost predicate Accounted(s: Snapshot, t: Snapshot, trail: seq<Attempt>) {
    && (forall id :: id in t.nodeMap ==> Lookup(s.nodeMap, id) == Some(t.nodeMap[id]) &&
                                         Lookup(t.dispatchIds, id) == Lookup(s.dispatchIds, id))
    && Assigned(s.submissionMap, t.submissionMap, trail)
    && (forall id :: id !in s.nodeMap ==> Lookup(t.grants, id) == Lookup(s.grants, id))
    && (forall a :: a in trail && a.outcome.Ok? ==> HandedOver(s, t, a.id))
  }

  ghost predicate HandedOver(s: Snapshot, t: Snapshot, id: SubmissionId) {
    && id in t.grants && id in s.stamps && Lookup(s.nodeMap, id) == Some(Entry(t.grants[id].request))
    && t.grants[id].priority == s.stamps[id].priority
    && (id in s.dispatchIds ==> t.grants[id].token == Some(s.dispatchIds[id]))
    && Lookup(t.dispatchIds, id) == Lookup(s.dispatchIds, id)
  }

  // Judges are lost exactly by failing.
  ghost predicate FailedOnly(s: Snapshot, t: Snapshot, trail: seq<Attempt>) {
    && (forall a :: a in trail && a.outcome.Failed? ==> a.judge !in t.judges)
    && (forall j :: j in s.judges && j !in t.judges ==> exists a :: a in trail && a.outcome.Failed? && a.judge == j)
  }

  ghost predicate NoFailure(trail: seq<Attempt>) {
    forall a :: a in trail ==> !a.outcome.Failed?
  }

  // All attempts are those of these judges.
  ghost predicate By(trail: seq<Attempt>, judges: set<Judge>) {
    forall a :: a in trail ==> a.judge in judges
  }

  // What handing out queued work may do: judges and entries only go away, an entry goes away
  // only when it is settled, a taken submission stays with its judge, and nothing changes for
  // submissions that were not queued.
  ghost predicate Progress(s: Snapshot, t: Snapshot, trail: seq<Attempt>) {
    && t.judges <= s.judges && t.stamps == s.stamps && t.clock == s.clock
    && Accounted(s, t, trail) && FailedOnly(s, t, trail)
    && |t.queue| <= |s.queue|
    && (forall n :: n in t.queue ==> n in s.queue)
    && (forall n :: n in s.queue && n !in t.queue ==> n.Entry? && Settled(n.request.id, trail))
    && (forall a :: a in trail ==>
          && a.id in s.nodeMap
          && (a.outcome.Ok? || a.outcome.Invalid? ==> a.id !in t.nodeMap)
          && (a.outcome.Ok? ==> Lookup(t.submissionMap, a.id) == Some(a.judge)))
    && (forall id :: id !in s.nodeMap ==>
          && id !in t.nodeMap
          && Lookup(t.dispatchIds, id) == Lookup(s.dispatchIds, id))
  }

  lemma ProgressReflexive(s: Snapshot)
    ensures Progress(s, s, [])
  {
  }

  lemma ProgressTransitive(s: Snapshot, t: Snapshot, u: Snapshot, first: seq<Attempt>, second: seq<Attempt>)
    requires Progress(s, t, first) && Progress(t, u, second)
    ensures Progress(s, u, first + second)
  {
    var both := first + second;
    assert forall a :: a in first || a in second ==> a in both;
    AccountedTransitive(s, t, u, first, second);
    FailedTransitive(s, t, u, first, second);
    forall n | n in s.queue && n !in u.queue ensures n.Entry? && Settled(n.request.id, both) {
      if n in t.queue {
        assert Settled(n.request.id, second);
      } else {
        assert Settled(n.request.id, first);
      }
    }
  }

  lemma AccountedTransitive(s: Snapshot, t: Snapshot, u: Snapshot, first: seq<Attempt>, second: seq<Attempt>)
    requires Accounted(s, t, first) && Accounted(t, u, second) && t.stamps == s.stamps
    requires forall a :: a in first && a.outcome.Ok? ==> a.id !in t.nodeMap
    requires forall id :: id !in t.nodeMap ==> Lookup(u.dispatchIds, id) == Lookup(t.dispatchIds, id)
    requires forall id :: id in t.nodeMap ==> id in s.nodeMap
    ensures Accounted(s, u, first + second)
  {
    var both := first + second;
    assert forall a :: a in both <==> a in first || a in second;
    AssignedTransitive(s.submissionMap, t.submissionMap, u.submissionMap, first, second);
    forall a | a in both && a.outcome.Ok? ensures HandedOver(s, u, a.id) {
      if a in first {
        assert HandedOver(s, t, a.id);
        assert Lookup(u.grants, a.id) == Lookup(t.grants, a.id);
      } else {
        assert HandedOver(t, u, a.id);
        assert Lookup(s.nodeMap, a.id) == Lookup(t.nodeMap, a.id);
      }
    }
  }

  lemma FailedTransitive(s: Snapshot, t: Snapshot, u: Snapshot, first: seq<Attempt>, second: seq<Attempt>)
    requires FailedOnly(s, t, first) && FailedOnly(t, u, second) && u.judges <= t.judges
    ensures FailedOnly(s, u, first + second)
  {
    var both := first + second;
    assert forall a :: a in both <==> a in first || a in second;
  }

  lemma BySplit(first: seq<Attempt>, second: seq<Attempt>, judges: set<Judge>)
    ensures By(first + second, judges) <==> By(first, judges) && By(second, judges)
  {
    var both := first + second;
    assert forall a :: a in both <==> a in first || a in second;
  }

  lemma ByWider(trail: seq<Attempt>, few: set<Judge>, many: set<Judge>, busy: set<Judge>)
    requires By(trail, few - busy) && few <= many
    ensures By(trail, many - busy)
  {
  }

  /** If all attempts were made by members, the judges stay the same exactly when none failed. */
  lemma LossIsFailure(s: Snapshot, t: Snapshot, trail: seq<Attempt>)
    requires FailedOnly(s, t, trail) && t.judges <= s.judges && By(trail, s.judges)
    ensures t.judges == s.judges <==> NoFailure(trail)
  {
  }

  // What one dispatch of a queued submission changes.
  ghost predicate Offered(s: Snapshot, t: Snapshot, judge: Judge, id: SubmissionId, o: Outcome) {
    && t.queue == s.queue && t.nodeMap == s.nodeMap && t.stamps == s.stamps && t.clock == s.clock
    && t.submissionMap == (if o.Ok? then s.submissionMap[id := judge] else s.submissionMap - {id})
    && t.judges == (if o.Failed? then s.judges - {judge} else s.judges)
    && t.dispatchIds == (if o.Invalid? then s.dispatchIds - {id} else s.dispatchIds)
    && (if o.Ok? then id in t.grants && t.grants == s.grants[id := t.grants[id]] else t.grants == s.grants)
    && (o.Ok? ==> HandedOver(s, t, id))
  }

  // Deferred dispatches leave nothing assigned for their submissions.
  ghost function Waived(s: Snapshot, ids: set<SubmissionId>): Snapshot {
    s.(submissionMap := s.submissionMap - ids)
  }

  // What taking in a request may do to everything else, and what becomes of the request: it is
  // queued, or assigned, or was found invalid.
  ghost predicate Admitted(s: Snapshot, t: Snapshot, r: Request, trail: seq<Attempt>) {
    && t.judges <= s.judges && t.clock >= s.clock
    && Assigned(s.submissionMap, t.submissionMap, trail) && FailedOnly(s, t, trail)
    && (forall n :: n in t.queue ==> n in s.queue || n == Entry(r))
    && (forall n :: n in s.queue && n !in t.queue ==>
          n.Entry? && (n.request.id == r.id || Settled(n.request.id, trail)))
    && (forall id :: id != r.id ==> Lookup(t.stamps, id) == Lookup(s.stamps, id))
    && (forall id :: id != r.id && id !in s.nodeMap ==> Lookup(t.dispatchIds, id) == Lookup(s.dispatchIds, id))
    && (forall a :: a in trail ==> a.id == r.id || a.id in s.nodeMap)
    && (r.id in t.nodeMap || r.id in t.submissionMap || exists a :: a in trail && a.id == r.id && a.outcome.Invalid?)
  }

  // A dispatch of a submission that was neither queued nor assigned.
  ghost predicate OfferedFresh(s: Snapshot, t: Snapshot, judge: Judge, id: SubmissionId, o: Outcome) {
    && t.queue == s.queue && t.nodeMap == s.nodeMap && t.stamps == s.stamps && t.clock == s.clock
    && t.submissionMap == (if o.Ok? then s.submissionMap[id := judge] else s.submissionMap)
    && t.judges == (if o.Failed? then s.judges - {judge} else s.judges)
    && t.dispatchIds == (if o.Invalid? then s.dispatchIds - {id} else s.dispatchIds)
  }

  // A request that was neither queued nor assigned before: where it is now, it is as it was asked, under the token
  // recorded for it, and if it is queued it arrived at `since` or later.
  ghost predicate Placed(since: nat, t: Snapshot, r: Request, priority: nat, recorded: Option<Token>) {
    && (r.id in t.nodeMap ==>
          && t.nodeMap[r.id] == Entry(r) && r.id in t.stamps && t.stamps[r.id].priority == priority
          && t.stamps[r.id].arrival >= since
          && Lookup(t.dispatchIds, r.id) == recorded)
    && (r.id in t.submissionMap ==>
          && Lookup(t.dispatchIds, r.id) == recorded && r.id in t.grants
          && t.grants[r.id].request == r && t.grants[r.id].priority == priority
          && (recorded.Some? ==> t.grants[r.id].token == recorded))
  }

  lemma EnqueuePlaces(s: Snapshot, t: Snapshot, r: Request, priority: nat)
    requires Enqueued(s, t, r, priority) && r.id !in s.submissionMap
    ensures Placed(s.clock, t, r, priority, Lookup(s.dispatchIds, r.id))
  {
  }

  lemma ProgressPlaces(s: Snapshot, t: Snapshot, trail: seq<Attempt>, r: Request, priority: nat)
    requires Progress(s, t, trail) && r.id !in s.submissionMap && Lookup(s.nodeMap, r.id) == Some(Entry(r))
    requires r.id in s.stamps && s.stamps[r.id].priority == priority
    ensures Placed(s.stamps[r.id].arrival, t, r, priority, Lookup(s.dispatchIds, r.id))
  {
    if r.id in t.submissionMap {
      assert Attempt(t.submissionMap[r.id], r.id, Ok) in trail;
      assert HandedOver(s, t, r.id);
    }
  }

  lemma OfferAdmitted(s: Snapshot, t: Snapshot, judge: Judge, r: Request, o: Outcome)
    requires OfferedFresh(s, t, judge, r.id, o) && (o.Ok? || o.Invalid?) && r.id !in s.submissionMap
    ensures Admitted(s, t, r, [Attempt(judge, r.id, o)])
  {
    var a := Attempt(judge, r.id, o);
    assert a in [a] && Ids([a]) == {r.id};
  }

  // What Enqueue changes.
  ghost predicate Enqueued(s: Snapshot, t: Snapshot, r: Request, priority: nat) {
    && t.judges == s.judges && t.submissionMap == s.submissionMap && t.dispatchIds == s.dispatchIds &&
       t.grants == s.grants
    && (forall n :: n in t.queue <==> n in s.queue || n == Entry(r))
    && t.nodeMap == s.nodeMap[r.id := Entry(r)]
    && t.stamps == s.stamps[r.id := Stamp(priority, s.clock)] && t.clock == s.clock + 1
  }

  lemma EnqueueAdmitted(s: Snapshot, t: Snapshot, r: Request, priority: nat)
    requires Enqueued(s, t, r, priority)
    ensures Admitted(s, t, r, [])
  {
  }

  lemma FirstAttempt(s: Snapshot, t: Snapshot, judge: Judge, id: SubmissionId, o: Outcome)
    requires OfferedFresh(s, t, judge, id, o) && id !in s.submissionMap
    ensures Assigned(s.submissionMap, t.submissionMap, [Attempt(judge, id, o)])
    ensures FailedOnly(s, t, [Attempt(judge, id, o)])
  {
    var a := Attempt(judge, id, o);
    assert a in [a] && Ids([a]) == {id};
  }

  lemma DeferredAdmitted(s: Snapshot, m: Snapshot, t: Snapshot, u: Snapshot, r: Request, priority: nat,
                         judge: Judge, more: seq<Attempt>)
    requires OfferedFresh(s, m, judge, r.id, Deferred) && Enqueued(m, t, r, priority) && Progress(t, u, more)
    requires r.id !in s.nodeMap && r.id !in s.submissionMap && (Entry(r) in u.queue ==> r.id in u.nodeMap)
    ensures Admitted(s, u, r, [Attempt(judge, r.id, Deferred)] + more)
  {
    var first := [Attempt(judge, r.id, Deferred)];
    var trail := first + more;
    assert forall a :: a in more ==> a in trail;
    FirstAttempt(s, m, judge, r.id, Deferred);
    AssignedTransitive(s.submissionMap, m.submissionMap, u.submissionMap, first, more);
    FailedTransitive(s, m, u, first, more);
    forall n | n in s.queue && n !in u.queue
      ensures n.Entry? && (n.request.id == r.id || Settled(n.request.id, trail))
    {
      assert n in t.queue;
      assert Settled(n.request.id, more);
    }
    if Entry(r) !in u.queue {
      assert Entry(r) in t.queue;
      assert Settled(r.id, more);
    }
  }

  lemma RetriedAdmitted(s: Snapshot, t: Snapshot, u: Snapshot, r: Request, judge: Judge, more: seq<Attempt>)
    requires OfferedFresh(s, t, judge, r.id, Failed) && Admitted(t, u, r, more) && r.id !in s.submissionMap
    ensures Admitted(s, u, r, [Attempt(judge, r.id, Failed)] + more)
  {
    var first := [Attempt(judge, r.id, Failed)];
    var trail := first + more;
    assert forall a :: a in more ==> a in trail;
    FirstAttempt(s, t, judge, r.id, Failed);
    AssignedTransitive(s.submissionMap, t.submissionMap, u.submissionMap, first, more);
    FailedTransitive(s, t, u, first, more);
    forall n | n in s.queue && n !in u.queue && n.Entry? && n.request.id != r.id ensures Settled(n.request.id, trail) {
      assert Settled(n.request.id, more);
    }
  }

  // Clearing the way for a request: its own old entry and token may go, nothing else.
  ghost predicate Cleared(s: Snapshot, t: Snapshot, id: SubmissionId) {
    && t.judges == s.judges && t.submissionMap == s.submissionMap && t.grants == s.grants
    && t.stamps == s.stamps && t.clock == s.clock
    && (forall n :: n in t.queue ==> n in s.queue)
    && (forall n :: n in s.queue && n !in t.queue ==> n.Entry? && n.request.id == id)
    && (forall id' :: id' != id ==> (id' in t.nodeMap <==> id' in s.nodeMap))
    && (forall id' :: id' != id ==> Lookup(t.dispatchIds, id') == Lookup(s.dispatchIds, id'))
  }

  lemma ClearedTransitive(s: Snapshot, t: Snapshot, u: Snapshot, id: SubmissionId)
    requires Cleared(s, t, id) && Cleared(t, u, id)
    ensures Cleared(s, u, id)
  {
  }

  // A request for a submission that some judge is working on: the assignment stands; the run is
  // queued with its token, unless it is the one being judged, which then is the only one left.
  ghost predicate Waits(s: Snapshot, t: Snapshot, r: Request, priority: nat, token: Option<Token>)
    reads s.submissionMap.Values
  {
    && t.judges == s.judges && t.submissionMap == s.submissionMap && t.grants == s.grants && r.id in s.submissionMap
    && (s.submissionMap[r.id].dispatchId == token ==> r.id !in t.nodeMap && t.dispatchIds == s.dispatchIds)
    && (s.submissionMap[r.id].dispatchId != token ==>
          && Lookup(t.nodeMap, r.id) == Some(Entry(r)) && Lookup(t.stamps, r.id) == Some(Stamp(priority, s.clock))
          && token.Some? && t.dispatchIds == s.dispatchIds[r.id := token.value])
  }

  lemma ClearedAdmitted(s: Snapshot, t: Snapshot, u: Snapshot, r: Request, trail: seq<Attempt>)
    requires Cleared(s, t, r.id) && Admitted(t, u, r, trail)
    ensures Admitted(s, u, r, trail)
  {
  }

  lemma BehindAdmitted(s: Snapshot, t: Snapshot, u: Snapshot, r: Request, priority: nat)
    requires Cleared(s, t, r.id) && Enqueued(t, u, r, priority)
    ensures Admitted(s, u, r, [])
  {
    EnqueueAdmitted(t, u, r, priority);
    ClearedAdmitted(s, t, u, r, []);
  }

  lemma PutThenRemove<K, V>(m: map<K, V>, k: K, v: V)
    ensures m[k := v] - {k} == m - {k}
  {
  }

  // One walk through the queue: all of its dispatches but the last were deferred, and the
  // last, of node n, is unlinked if that settled it.
  ghost predicate Served(s: Snapshot, t: Snapshot, judge: Judge, n: Node, o: Outcome, trail: seq<Attempt>) {
    && (!o.Deferred? ==>
        n in s.queue && n.Entry? && n.request.id in s.nodeMap && Attempt(judge, n.request.id, o) in trail)
    && (forall a :: a in trail ==>
          a.id in s.nodeMap && (a.outcome.Deferred? || (!o.Deferred? && a == Attempt(judge, n.request.id, o))))
    && t.stamps == s.stamps && t.clock == s.clock && |t.queue| <= |s.queue|
    && (forall m :: m in t.queue <==> m in s.queue && (o.Ok? || o.Invalid? ==> m != n))
    && t.nodeMap == (if (o.Ok? || o.Invalid?) && n.Entry? then s.nodeMap - {n.request.id} else s.nodeMap)
    && (forall id :: id !in s.nodeMap ==> Lookup(t.dispatchIds, id) == Lookup(s.dispatchIds, id))
    && t.submissionMap ==
       Waived(s, Ids(trail)).submissionMap + (if o.Ok? && n.Entry? then map[n.request.id := judge] else map[])
    && (o.Ok? ==> n.Entry? && Lookup(t.submissionMap, n.request.id) == Some(judge) && HandedOver(s, t, n.request.id))
    && (o.Failed? ==> t.judges == s.judges - {judge}) && (!o.Failed? ==> t.judges == s.judges)
    && Lookup(t.dispatchIds, if n.Entry? then n.request.id else 1) ==
       (if o.Invalid? && n.Entry? then None else Lookup(s.dispatchIds, if n.Entry? then n.request.id else 1))
    && (if o.Ok? && n.Entry? then n.request.id in t.grants &&
        t.grants == s.grants[n.request.id := t.grants[n.request.id]]
        else t.grants == s.grants)
    && (forall id :: id in t.nodeMap ==> Lookup(t.dispatchIds, id) == Lookup(s.dispatchIds, id))
  }

  // What Unlink changes.
  ghost predicate Unlinked(s: Snapshot, t: Snapshot, n: Node) {
    && n.Entry? && |t.queue| == |s.queue| - 1
    && (forall m :: m in t.queue <==> m in s.queue && m != n)
    && t.nodeMap == s.nodeMap - {n.request.id}
    && t.submissionMap == s.submissionMap && t.dispatchIds == s.dispatchIds && t.grants == s.grants &&
       t.judges == s.judges
    && t.stamps == s.stamps && t.clock == s.clock
  }

  lemma OfferedServed(s: Snapshot, m: Snapshot, t: Snapshot, judge: Judge, n: Node, o: Outcome, trail: seq<Attempt>)
    requires n in s.queue && n.Entry? && n.request.id in s.nodeMap
    requires forall a :: a in trail ==> a.id in s.nodeMap && a.outcome.Deferred?
    requires Offered(Waived(s, Ids(trail)), m, judge, n.request.id, o) && !o.Deferred?
    requires if o.Ok? || o.Invalid? then Unlinked(m, t, n) else m == t
    ensures Served(s, t, judge, n, o, trail + [Attempt(judge, n.request.id, o)])
  {
    var a, longer := Attempt(judge, n.request.id, o), trail + [Attempt(judge, n.request.id, o)];
    assert longer[|trail|] == a;
    AttemptsSplit(trail, [a]);
    assert Ids([a]) == {n.request.id};
    OneMore(s.submissionMap, Ids(trail), n.request.id, judge);
  }

  lemma OneMore<K, V>(m: map<K, V>, gone: set<K>, k: K, v: V)
    ensures m - gone - {k} == m - (gone + {k})
    ensures (m - gone)[k := v] == m - (gone + {k}) + map[k := v]
  {
  }

  lemma ServedProgress(s: Snapshot, t: Snapshot, judge: Judge, n: Node, o: Outcome, trail: seq<Attempt>)
    requires Served(s, t, judge, n, o, trail) && By(trail, {judge})
    ensures Progress(s, t, trail)
  {
    ServedAccounted(s, t, judge, n, o, trail);
  }

  lemma ServedAccounted(s: Snapshot, t: Snapshot, judge: Judge, n: Node, o: Outcome, trail: seq<Attempt>)
    requires Served(s, t, judge, n, o, trail) && By(trail, {judge})
    ensures Accounted(s, t, trail) && FailedOnly(s, t, trail)
  {
  }

  ghost function ClassAt(n: Node, stamps: Stamps): nat {
    if n.Marker? then n.priority else if n.request.id in stamps then stamps[n.request.id].priority else PRIORITIES
  }

  // No contest or default entry of the queue is one that this judge takes, except those that it has deferred.
  ghost predicate NothingUrgent(j: Judge, q: seq<Node>, stamps: Stamps, told: set<Attempt>)
    reads j`supports, j`isDisabled
  {
    forall n :: n in q && n.Entry? && ClassAt(n, stamps) < REJUDGE_PRIORITY ==>
      !j.Takes(n.request) || Attempt(j, n.request.id, Deferred) in told
  }

  lemma StillNothingUrgent(js: set<Judge>, q: seq<Node>, shorter: seq<Node>, stamps: Stamps, told: set<Attempt>,
                           more: set<Attempt>)
    requires (forall n :: n in shorter ==> n in q) && told <= more
    ensures forall j :: j in js && NothingUrgent(j, q, stamps, told) ==> NothingUrgent(j, shorter, stamps, more)
  {
  }

  // A judge has nothing urgent to wait for after one more entry if and only if it had nothing before, and the entry is
  // not urgent or not for it, or it has deferred it.
  lemma NothingUrgentAdded(j: Judge, s: Snapshot, t: Snapshot, r: Request, priority: nat, told: set<Attempt>)
    requires Enqueued(s, t, r, priority) && forall n :: n in s.queue && n.Entry? ==> n.request.id != r.id
    ensures NothingUrgent(j, t.queue, t.stamps, told) <==>
            NothingUrgent(j, s.queue, s.stamps, told) &&
            (priority >= REJUDGE_PRIORITY || !j.Takes(r) || Attempt(j, r.id, Deferred) in told)
  {
    assert Entry(r) in t.queue && ClassAt(Entry(r), t.stamps) == priority;
    assert forall n :: n in s.queue ==> ClassAt(n, t.stamps) == ClassAt(n, s.stamps);
  }

  // No entry of the queue is one that this judge takes, except those that it has deferred, and rejudges while one judge
  // is kept in reserve.
  ghost predicate NothingLeft(j: Judge, q: seq<Node>, stamps: Stamps, told: set<Attempt>, reserving: bool)
    reads j`supports, j`isDisabled
  {
    forall n :: n in q && n.Entry? && j.Takes(n.request) ==>
      Attempt(j, n.request.id, Deferred) in told || (ClassAt(n, stamps) >= REJUDGE_PRIORITY && reserving)
  }

  // How one call of _handle_free_judge ended for the judge it was called with.
  datatype Verdict = Spared | Dispatched(id: SubmissionId) | Lost

  class JudgeList {
    // How the dispatches end, one after the other, and how many have been made.
    const answers: nat -> Outcome
    var asked: nat
    var queue: seq<Node>
    var judges: set<Judge>
    var nodeMap: map<SubmissionId, Node>
    var submissionMap: map<SubmissionId, Judge>
    var dispatchIds: map<SubmissionId, Token>
    ghost var grants: map<SubmissionId, Grant>
    ghost var stamps: Stamps
    ghost var clock: nat

    constructor (answers: nat -> Outcome)
      ensures Valid() && Conserving({}) && judges == {} && nodeMap == map[] && submissionMap == map[]
      ensures this.answers == answers
    {
      this.answers, asked := answers, 0;
      queue := seq(PRIORITIES, p requires 0 <= p => Marker(p));
      judges, nodeMap, submissionMap, dispatchIds := {}, map[], map[], map[];
      grants, stamps, clock := map[], map[], 0;
      new;
      assert forall p: nat :: p < PRIORITIES ==> queue[p] == Marker(p);
    }

    // node_map is exactly the index of the queued entries; the queue holds its four markers and
    // keeps (class, arrival) order.
    ghost predicate QueueOk()
      reads `queue, `nodeMap, `stamps, `clock
    {
      && WellFormed(queue, stamps)
      && (forall n :: n in queue && n.Entry? ==>
            && n.request.id in nodeMap && nodeMap[n.request.id] == n
            && stamps[n.request.id].arrival < clock)
      && (forall id :: id in nodeMap ==> nodeMap[id].Entry? && nodeMap[id].request.id == id && nodeMap[id] in queue)
    }

    // An assigned judge works on exactly that submission, and can say how it was requested.
    ghost predicate AssignmentsOk()
      reads `submissionMap, `grants, submissionMap.Values
    {
      forall id :: id in submissionMap ==>
        && submissionMap[id].working == Some(id)
        && id in grants && grants[id].request.id == id && grants[id].priority < PRIORITIES
        && submissionMap[id].retryRequest == Some(Retry(grants[id].request, grants[id].priority))
        && submissionMap[id].dispatchId == grants[id].token
    }

    // A submission both queued and assigned is queued for another run than the assigned one.
    ghost predicate TokensOk()
      reads `submissionMap, `nodeMap, `dispatchIds, submissionMap.Values
    {
      forall id :: id in submissionMap && id in nodeMap ==>
        id in dispatchIds && submissionMap[id].dispatchId != Some(dispatchIds[id])
    }

    ghost predicate Valid()
      reads `queue, `nodeMap, `stamps, `clock, `submissionMap, `grants, `dispatchIds, submissionMap.Values
    {
      QueueOk() && AssignmentsOk() && TokensOk()
    }

    // The end of dispatch number n.
    function Answer(n: nat): Outcome {
      answers(n)
    }

    // The trail is exactly what was answered from dispatch number `from` on, before number `to`.
    ghost predicate Answered(from: nat, to: nat, trail: seq<Attempt>) {
      to == from + |trail| && forall i :: 0 <= i < |trail| ==> trail[i].outcome == Answer(from + i)
    }

    lemma AnsweredBoth(from: nat, mid: nat, to: nat, first: seq<Attempt>, second: seq<Attempt>)
      requires Answered(from, mid, first) && Answered(mid, to, second)
      ensures Answered(from, to, first + second)
    {
      var both := first + second;
      forall i | 0 <= i < |both| ensures both[i].outcome == Answer(from + i) {
        assert i >= |first| ==> both[i] == second[i - |first|];
      }
    }

    lemma AnsweredNext(from: nat, mid: nat, trail: seq<Attempt>, a: Attempt)
      requires Answered(from, mid, trail) && a.outcome == Answer(mid)
      ensures Answered(from, mid + 1, trail + [a])
    {
    }

    // This judge is not kept idle while a contest or default entry it could take is waiting, except for entries that
    // it has deferred.
    ghost predicate Covered(j: Judge, told: set<Attempt>)
      reads `queue, `stamps, `judges, j`working, j`isDisabled, j`supports
    {
      j in judges && j.Idle() ==> NothingUrgent(j, queue, stamps, told)
    }

    ghost predicate AllCovered(js: set<Judge>, told: set<Attempt>)
      reads `queue, `stamps, `judges, js`working, js`isDisabled, js`supports
    {
      forall j :: j in js ==> Covered(j, told)
    }

    // This judge is not left idle beside anything that it could take, except for what it has deferred, and for rejudges
    // while one judge is kept in reserve.
    ghost predicate Satisfied(j: Judge, told: set<Attempt>)
      reads `queue, `stamps, `judges, judges`working, judges`isDisabled, j`working, j`isDisabled, j`supports
    {
      j in judges && j.working.None? ==> NothingLeft(j, queue, stamps, told, Reserving())
    }

    ghost predicate AllSatisfied(js: set<Judge>, told: set<Attempt>)
      reads `queue, `stamps, `judges, judges`working, judges`isDisabled, js`working, js`isDisabled, js`supports
    {
      forall j :: j in js ==> Satisfied(j, told)
    }

    lemma SatisfiedMore(js: set<Judge>, few: set<Judge>, told: set<Attempt>, more: set<Attempt>)
      requires AllSatisfied(js, told) && few <= js && told <= more
      ensures AllSatisfied(few, more)
    {
    }

    /** Work conservation: no judge is idle beside a contest or default entry that it could take, except for entries
        that it has deferred. */
    ghost predicate Conserving(told: set<Attempt>)
      reads `queue, `stamps, `judges, judges`working, judges`isDisabled, judges`supports
    {
      AllCovered(judges, told)
    }

    /** Without a deferral there is no exception. */
    lemma ConservedOutright(trail: seq<Attempt>)
      requires Conserving(Attempts(trail)) && NoDeferral(trail)
      ensures Conserving({})
    {
    }

    ghost function ClassIn(n: Node): nat
      reads `stamps
    {
      ClassAt(n, stamps)
    }

    function Enabled(): set<Judge>
      reads `judges, judges`isDisabled
    {
      set j | j in judges && !j.isDisabled
    }

    function IdleEnabled(): set<Judge>
      reads `judges, judges`working, judges`isDisabled
    {
      set j | j in judges && j.Idle()
    }

    // The last idle judge of several is kept for contest and default submissions.
    predicate Reserving()
      reads `judges, judges`working, judges`isDisabled
    {
      |Enabled()| > 1 && |IdleEnabled()| <= 1
    }

    /** Rejudges are held back exactly while two judges are enabled and no two of them are free. */
    lemma ReservingMeans()
      ensures Reserving() <==>
              && (exists j, k :: j in judges && k in judges && j != k && !j.isDisabled && !k.isDisabled)
              && (forall j, k :: j in judges && k in judges && j != k && !j.isDisabled && !k.isDisabled ==>
                    j.working.Some? || k.working.Some?)
    {
      MoreThanOne(Enabled());
      MoreThanOne(IdleEnabled());
      if Reserving() {
        var j, k :| j in Enabled() && k in Enabled() && j != k;
        assert j in judges && k in judges && !j.isDisabled && !k.isDisabled;
        forall j, k | j in judges && k in judges && j != k && !j.isDisabled && !k.isDisabled
          ensures j.working.Some? || k.working.Some?
        {
          assert !(j in IdleEnabled() && k in IdleEnabled());
        }
      } else if |Enabled()| > 1 {
        var j, k :| j in IdleEnabled() && k in IdleEnabled() && j != k;
        assert j in judges && k in judges;
      } else {
        forall j, k | j in judges && k in judges && j != k ensures j.isDisabled || k.isDisabled {
          assert !(j in Enabled() && k in Enabled());
        }
      }
    }

    static lemma MoreThanOne<T>(s: set<T>)
      ensures |s| > 1 <==> exists x, y :: x in s && y in s && x != y
    {
      if |s| > 1 {
        var x :| x in s;
        var y := AnotherMember(s, x);
      }
      if x, y :| x in s && y in s && x != y {
        SubsetSize({x, y}, s);
      }
    }

    // What a dispatch of class 2 or 3 leaves behind.
    ghost predicate Reserved()
      reads `judges, judges`working, judges`isDisabled
    {
      |Enabled()| <= 1 || exists j :: j in judges && j.Idle()
    }

    twostate lemma OneLeftIdle(judge: Judge)
      requires judges == old(judges) && !old(Reserving()) && judge.working.Some?
      requires forall j :: j in judges ==>
        j.isDisabled == old(j.isDisabled) && (j != judge ==> j.working == old(j.working))
      ensures Reserved()
    {
      assert Enabled() == old(Enabled());
      if old(|IdleEnabled()|) > 1 {
        var rest := old(IdleEnabled()) - {judge};
        assert judge in old(IdleEnabled()) ==> |rest| == old(|IdleEnabled()|) - 1;
        assert judge !in old(IdleEnabled()) ==> rest == old(IdleEnabled());
        assert rest != {};
        var j :| j in rest;
        assert j in judges && j.Idle();
      }
    }

    // Lines common to both dispatching methods: assign, submit, and undo what must be undone.
    method Offer(judge: Judge, r: Request, priority: nat) returns (o: Outcome)
      requires AssignmentsOk() && judge.working.None? && priority < PRIORITIES
      modifies `asked, `submissionMap, `grants, `dispatchIds, `judges
      modifies judge`working, judge`dispatchId, judge`retryRequest
      ensures judges == if o.Failed? then old(judges) - {judge} else old(judges)
      ensures dispatchIds == if o.Invalid? then old(dispatchIds) - {r.id} else old(dispatchIds)
      ensures submissionMap == if o.Ok? then old(submissionMap)[r.id := judge] else old(submissionMap) - {r.id}
      ensures asked == old(asked) + 1 && o == Answer(old(asked))
      ensures o.Ok? ==> judge.working == Some(r.id) && judge.retryRequest == Some(Retry(r, priority))
      ensures o.Ok? && r.id in dispatchIds ==> judge.dispatchId == Some(dispatchIds[r.id])
      ensures grants == if o.Ok? then old(grants)[r.id := Grant(r, priority, judge.dispatchId)] else old(grants)
      ensures o.Deferred? || o.Invalid? ==> judge.working.None?
      ensures AssignmentsOk()
      ensures judge !in old(submissionMap).Values
    {
      o := AssignAndSubmit(judge, r, priority);
      if o.Invalid? {
        dispatchIds := dispatchIds - {r.id};
      } else if o.Failed? {
        judges := judges - {judge};
      }
    }

    method AssignAndSubmit(judge: Judge, r: Request, priority: nat) returns (o: Outcome)
      requires AssignmentsOk() && judge.working.None? && priority < PRIORITIES
      modifies `asked, `submissionMap, `grants, judge`working, judge`dispatchId, judge`retryRequest
      ensures submissionMap == if o.Ok? then old(submissionMap)[r.id := judge] else old(submissionMap) - {r.id}
      ensures asked == old(asked) + 1 && o == Answer(old(asked))
      ensures o.Ok? ==> judge.working == Some(r.id) && judge.retryRequest == Some(Retry(r, priority))
      ensures o.Ok? && r.id in dispatchIds ==> judge.dispatchId == Some(dispatchIds[r.id])
      ensures grants == if o.Ok? then old(grants)[r.id := Grant(r, priority, judge.dispatchId)] else old(grants)
      ensures o.Deferred? || o.Invalid? ==> judge.working.None?
      ensures AssignmentsOk()
      ensures judge !in old(submissionMap).Values
    {
      assert forall id :: id in submissionMap ==> submissionMap[id] != judge;
      PutThenRemove(submissionMap, r.id, judge);
      submissionMap := submissionMap[r.id := judge];
      judge.retryRequest := Some(Retry(r, priority));
      o := judge.Submit(r.id, Lookup(dispatchIds, r.id), Answer(asked));
      asked := asked + 1;
      if o.Ok? {
        grants := grants[r.id := Grant(r, priority, judge.dispatchId)];
      } else {
        Unassign(r.id, judge);
      }
    }

    method Unassign(id: SubmissionId, judge: Judge)
      modifies `submissionMap
      ensures submissionMap == if id in old(submissionMap) && old(submissionMap)[id] == judge
                               then old(submissionMap) - {id} else old(submissionMap)
    {
      if id in submissionMap && submissionMap[id] == judge {
        submissionMap := submissionMap - {id};
      }
    }

    method Unlink(id: SubmissionId)
      requires QueueOk() && id in nodeMap
      modifies `queue, `nodeMap
      ensures QueueOk() && nodeMap == old(nodeMap) - {id}
      ensures forall n :: n in queue <==> n in old(queue) && n != old(nodeMap[id])
      ensures |queue| == |old(queue)| - 1
    {
      RemoveKeepsOrder(queue, nodeMap[id].request, stamps);
      queue := RemoveNode(queue, nodeMap[id]);
      nodeMap := nodeMap - {id};
    }

    method Enqueue(r: Request, priority: nat)
      requires QueueOk() && r.id !in nodeMap && priority < PRIORITIES
      modifies `queue, `nodeMap, `stamps, `clock
      ensures QueueOk() && Enqueued(old(Snap()), Snap(), r, priority)
      ensures queue == InsertEntry(old(queue), r, priority)
    {
      InsertKeepsOrder(queue, r, priority, clock, stamps);
      queue := InsertEntry(queue, r, priority);
      nodeMap := nodeMap[r.id := Entry(r)];
      stamps := stamps[r.id := Stamp(priority, clock)];
      clock := clock + 1;
    }

    ghost function Snap(): Snapshot
      reads this
    {
      Snapshot(queue, judges, nodeMap, submissionMap, dispatchIds, grants, stamps, clock, asked)
    }

    // All that follows an entry of a class is of that class or a later one.
    lemma LaterClasses(i: nat)
      requires QueueOk() && i < |queue|
      ensures forall k :: i <= k < |queue| ==> ClassIn(queue[k]) >= ClassIn(queue[i])
    {
      assert forall k :: i < k < |queue| ==> Before(queue[i], queue[k], stamps);
    }

    // What the walk leaves for a judge that it found nothing for.
    ghost predicate NothingFor(judge: Judge, trail: seq<Attempt>)
      reads `queue, `stamps, judge`supports, judge`isDisabled, `judges, judges`working, judges`isDisabled
    {
      forall n :: n in queue && n.Entry? && judge.Takes(n.request) ==>
        || Refused(judge, n.request.id, trail)
        || (ClassIn(n) >= REJUDGE_PRIORITY && Reserving())
    }

    // Entry i is the first in queue order that the judge takes and did not refuse.
    ghost predicate FirstFor(judge: Judge, q: seq<Node>, i: nat, trail: seq<Attempt>)
      reads judge`supports, judge`isDisabled
    {
      i < |q| && q[i].Entry? && judge.Takes(q[i].request) && RefusedBefore(judge, q, i, trail)
    }

    ghost predicate RefusedBefore(judge: Judge, q: seq<Node>, i: nat, trail: seq<Attempt>)
      reads judge`supports, judge`isDisabled
    {
      && i <= |q|
      && forall k :: 0 <= k < i && q[k].Entry? && judge.Takes(q[k].request) ==> Refused(judge, q[k].request.id, trail)
    }

    lemma RefusedFurther(judge: Judge, q: seq<Node>, i: nat, j: nat, trail: seq<Attempt>, a: Attempt)
      requires RefusedBefore(judge, q, i, trail) && i < j <= |q|
      requires q[i].Entry? && a == Attempt(judge, q[i].request.id, Deferred)
      requires forall k :: i < k < j && q[k].Entry? ==> !judge.Takes(q[k].request)
      ensures RefusedBefore(judge, q, j, trail + [a])
    {
      var longer := trail + [a];
      assert longer[|trail|] == a;
      assert forall b :: b in trail ==> b in longer;
    }

    // The request is kept for a retry with the class that it was queued with.
    ghost predicate KeptFor(judge: Judge, n: Node)
      reads `stamps, judge`retryRequest
    {
      n.Entry? && judge.retryRequest == Some(Retry(n.request, ClassIn(n)))
    }

    // The judge works on the entry's submission, as it was queued, and if it was a rejudge, one judge is in reserve.
    ghost predicate Took(judge: Judge, n: Node)
      reads `stamps, judge`working, judge`retryRequest, `judges, judges`working, judges`isDisabled
    {
      KeptFor(judge, n) && judge.working == Some(n.request.id) && (ClassIn(n) >= REJUDGE_PRIORITY ==> Reserved())
    }

    // Where a dispatch that was not deferred leaves the judge, before the entry is unlinked.
    ghost predicate AfterOffer(judge: Judge, id: SubmissionId, o: Outcome)
      reads this, submissionMap.Values, judge
    {
      && (o.Ok? <==> id in submissionMap)
      && (o.Ok? ==> submissionMap[id] == judge)
      && (o.Invalid? ==> judge.working.None?)
      && (forall id' :: id' != id && id' in submissionMap && id' in nodeMap ==>
            id' in dispatchIds && submissionMap[id'].dispatchId != Some(dispatchIds[id']))
    }

    // One dispatch from the queue; the entry itself stays linked.
    method OfferEntry(judge: Judge, r: Request, priority: nat) returns (o: Outcome)
      requires Valid() && judge.working.None? && priority < PRIORITIES && Entry(r) in queue
      modifies `asked, `submissionMap, `grants, `dispatchIds, `judges
      modifies judge`working, judge`dispatchId, judge`retryRequest
      ensures QueueOk() && AssignmentsOk()
      ensures asked == old(asked) + 1 && o == Answer(old(asked))
      ensures submissionMap == if o.Ok? then old(submissionMap)[r.id := judge] else old(submissionMap) - {r.id}
      ensures judges == if o.Failed? then old(judges) - {judge} else old(judges)
      ensures dispatchIds == if o.Invalid? then old(dispatchIds) - {r.id} else old(dispatchIds)
      ensures AfterOffer(judge, r.id, o) && (o.Ok? ==> judge.retryRequest == Some(Retry(r, priority)))
      ensures grants == if o.Ok? then old(grants)[r.id := Grant(r, priority, judge.dispatchId)] else old(grants)
      ensures o.Ok? && r.id in dispatchIds ==> judge.dispatchId == Some(dispatchIds[r.id])
      ensures o.Deferred? ==> Valid() && judge.working.None?
    {
      o := Offer(judge, r, priority);
    }

    // The walk has passed exactly the markers of the classes below `priority`.
    ghost predicate Passed(i: nat, priority: nat)
      reads this
    {
      && i <= |queue| && priority <= PRIORITIES
      && forall p: nat :: p < PRIORITIES ==> (p < priority <==> Marker(p) in queue[..i])
    }

    lemma PassedEntry(i: nat, priority: nat)
      requires Passed(i, priority) && i < |queue| && queue[i].Entry?
      ensures Passed(i + 1, priority)
    {
      assert queue[..i + 1] == queue[..i] + [queue[i]];
    }

    // The walk itself: on to the next entry that the judge takes, or at which it must stop to
    // keep one judge in reserve.
    method Next(judge: Judge, from: nat, passed: nat) returns (i: nat, priority: nat, stop: bool)
      requires QueueOk() && Passed(from, passed)
      ensures from <= i && Passed(i, priority)
      ensures forall k :: from <= k < i && queue[k].Entry? ==> !judge.Takes(queue[k].request)
      ensures stop && i < |queue| ==>
        Reserving() && forall k :: i <= k < |queue| ==> ClassIn(queue[k]) >= REJUDGE_PRIORITY
      ensures !stop ==>
        i < |queue| && queue[i].Entry? && judge.Takes(queue[i].request) && priority == ClassIn(queue[i]) < PRIORITIES
      ensures !stop && priority >= REJUDGE_PRIORITY ==> !Reserving()
    {
      i, priority := from, passed;
      while i < |queue|
        invariant from <= i && Passed(i, priority)
        invariant forall k :: from <= k < i && queue[k].Entry? ==> !judge.Takes(queue[k].request)
      {
        assert queue[..i + 1] == queue[..i] + [queue[i]];
        assert queue[i] in queue;
        if queue[i].Marker? {
          NextMarker(queue, stamps, i, priority);
          priority := queue[i].priority + 1;
        } else {
          ScannedPriority(queue, stamps, i, priority);
          if priority >= REJUDGE_PRIORITY && Reserving() {
            LaterClasses(i);
            return i, priority, true;
          }
          if judge.Takes(queue[i].request) {
            return i, priority, false;
          }
        }
        i := i + 1;
      }
      stop := true;
    }

    // The state of a walk between two dispatches: everything before entry i was not for this
    // judge or was deferred, and it is at an entry to offer or at its end.
    ghost predicate Walking(judge: Judge, i: nat, priority: nat, stop: bool, trail: seq<Attempt>)
      reads this, submissionMap.Values, judge, judges
    {
      && Valid() && judge.working.None? && Passed(i, priority) && RefusedBefore(judge, queue, i, trail)
      && (forall a :: a in trail ==> a.judge == judge && a.id in nodeMap && a.outcome.Deferred?)
      && (if stop then
            i == |queue| || (Reserving() && forall k :: i <= k < |queue| ==> ClassIn(queue[k]) >= REJUDGE_PRIORITY)
          else
            && i < |queue| && queue[i].Entry? && judge.Takes(queue[i].request)
            && priority == ClassIn(queue[i]) < PRIORITIES && (priority >= REJUDGE_PRIORITY ==> !Reserving()))
    }

    // Offers the entry that the walk has reached.
    method OfferAt(judge: Judge, i: nat, priority: nat) returns (o: Outcome)
      requires Valid() && judge.working.None? && i < |queue| && queue[i].Entry?
      requires priority == ClassIn(queue[i]) < PRIORITIES && (priority >= REJUDGE_PRIORITY ==> !Reserving())
      modifies `asked, `submissionMap, `grants, `dispatchIds, `judges
      modifies judge`working, judge`dispatchId, judge`retryRequest
      ensures QueueOk() && AssignmentsOk() && AfterOffer(judge, queue[i].request.id, o)
      ensures asked == old(asked) + 1 && o == Answer(old(asked))
      ensures Offered(old(Snap()), Snap(), judge, queue[i].request.id, o)
      ensures o.Deferred? ==> Valid() && judge.working.None?
      ensures o.Ok? ==> Took(judge, queue[i])
    {
      assert queue[i] in queue;
      o := OfferEntry(judge, queue[i].request, priority);
      if o.Ok? && priority >= REJUDGE_PRIORITY {
        OneLeftIdle(judge);
      }
    }

    // The same as a step of the walk, which goes on if the entry is deferred.
    method Advance(judge: Judge, i: nat, priority: nat, ghost trail: seq<Attempt>)
      returns (o: Outcome, i': nat, priority': nat, stop: bool, ghost trail': seq<Attempt>)
      requires Walking(judge, i, priority, false, trail)
      modifies `asked, `submissionMap, `grants, `dispatchIds, `judges
      modifies judge`working, judge`dispatchId, judge`retryRequest
      ensures QueueOk() && AssignmentsOk()
      ensures asked == old(asked) + 1 && o == Answer(old(asked))
      ensures Offered(old(Snap()), Snap(), judge, queue[i].request.id, o)
      ensures trail' == if o.Deferred? then trail + [Attempt(judge, queue[i].request.id, o)] else trail
      ensures o.Deferred? ==> i < i' && Walking(judge, i', priority', stop, trail')
      ensures !o.Deferred? ==> i' == i && FirstFor(judge, queue, i, trail) && AfterOffer(judge, queue[i].request.id, o)
      ensures o.Ok? ==> Took(judge, queue[i])
    {
      o := OfferAt(judge, i, priority);
      i', priority', stop, trail' := i, priority, true, trail;
      if o.Deferred? {
        i', priority', stop, trail' := WalkOn(judge, i, priority, trail);
      }
    }

    // On from a deferred entry to the next one for this judge.
    method WalkOn(judge: Judge, i: nat, priority: nat, ghost trail: seq<Attempt>)
      returns (i': nat, priority': nat, stop: bool, ghost trail': seq<Attempt>)
      requires Valid() && judge.working.None? && Passed(i, priority) && RefusedBefore(judge, queue, i, trail)
      requires i < |queue| && queue[i].Entry?
      requires forall a :: a in trail ==> a.judge == judge && a.id in nodeMap && a.outcome.Deferred?
      ensures trail' == trail + [Attempt(judge, queue[i].request.id, Deferred)]
      ensures i < i' && Walking(judge, i', priority', stop, trail')
    {
      PassedEntry(i, priority);
      assert queue[i] in queue;
      i', priority', stop := Next(judge, i + 1, priority);
      RefusedFurther(judge, queue, i, i', trail, Attempt(judge, queue[i].request.id, Deferred));
      trail' := trail + [Attempt(judge, queue[i].request.id, Deferred)];
    }

    lemma WalkedThrough(judge: Judge, i: nat, priority: nat, trail: seq<Attempt>)
      requires Walking(judge, i, priority, true, trail)
      ensures NothingFor(judge, trail)
    {
    }

    // Since s, the walk has made the attempts of this trail, all deferred.
    ghost predicate Waiving(s: Snapshot, t: Snapshot, trail: seq<Attempt>) {
      t == Waived(s, Ids(trail)).(asked := t.asked) && Answered(s.asked, t.asked, trail)
    }

    // And then one more, which was not deferred.
    ghost predicate Ending(s: Snapshot, t: Snapshot, trail: seq<Attempt>, judge: Judge, id: SubmissionId, o: Outcome) {
      && t.asked > 0 && Answered(s.asked, t.asked - 1, trail) && o == Answer(t.asked - 1)
      && Offered(Waived(s, Ids(trail)), t, judge, id, o)
    }

    lemma WalkNext(s: Snapshot, m: Snapshot, t: Snapshot, trail: seq<Attempt>, judge: Judge, id: SubmissionId,
                   o: Outcome)
      requires Waiving(s, m, trail) && Offered(m, t, judge, id, o) && t.asked == m.asked + 1 && o == Answer(m.asked)
      ensures if o.Deferred? then Waiving(s, t, trail + [Attempt(judge, id, o)])
              else Ending(s, t, trail, judge, id, o)
    {
      if o.Deferred? {
        var a := Attempt(judge, id, o);
        AttemptsSplit(trail, [a]);
        AnsweredNext(s.asked, m.asked, trail, a);
        assert Ids([a]) == {id};
        assert s.submissionMap - Ids(trail) - {id} == s.submissionMap - (Ids(trail) + {id});
      }
    }

    // The same, after the offers of the walk so far.
    method AdvanceSince(judge: Judge, i: nat, priority: nat, ghost trail: seq<Attempt>, ghost s: Snapshot)
      returns (o: Outcome, i': nat, priority': nat, stop: bool, ghost trail': seq<Attempt>)
      requires Walking(judge, i, priority, false, trail) && Waiving(s, Snap(), trail)
      modifies `asked, `submissionMap, `grants, `dispatchIds, `judges
      modifies judge`working, judge`dispatchId, judge`retryRequest
      ensures QueueOk() && AssignmentsOk()
      ensures o.Deferred? ==> Waiving(s, Snap(), trail') && i < i' && Walking(judge, i', priority', stop, trail')
      ensures !o.Deferred? ==> i' == i && trail' == trail && Ending(s, Snap(), trail, judge, queue[i].request.id, o)
      ensures !o.Deferred? ==> FirstFor(judge, queue, i, trail) && AfterOffer(judge, queue[i].request.id, o)
      ensures o.Ok? ==> Took(judge, queue[i])
    {
      ghost var m, id := Snap(), queue[i].request.id;
      o, i', priority', stop, trail' := Advance(judge, i, priority, trail);
      WalkNext(s, m, Snap(), trail, judge, id, o);
    }

    // Walks the queue for a free judge, up to the first entry that it takes and does not defer.
    // An outcome Deferred means that the walk ended without one; `trail` lists the deferrals.
    method Scan(judge: Judge) returns (o: Outcome, i: nat, ghost trail: seq<Attempt>)
      requires Valid() && judge.working.None?
      modifies `asked, `submissionMap, `grants, `dispatchIds, `judges
      modifies judge`working, judge`dispatchId, judge`retryRequest
      ensures QueueOk() && AssignmentsOk()
      ensures forall a :: a in trail ==> a.judge == judge && a.id in nodeMap && a.outcome.Deferred?
      ensures o.Deferred? ==> Valid() && judge.working.None? && NothingFor(judge, trail)
      ensures o.Deferred? ==> Waiving(old(Snap()), Snap(), trail)
      ensures !o.Deferred? ==> FirstFor(judge, queue, i, trail) && AfterOffer(judge, queue[i].request.id, o)
      ensures !o.Deferred? ==> Ending(old(Snap()), Snap(), trail, judge, queue[i].request.id, o)
      ensures o.Ok? ==> Took(judge, queue[i])
    {
      var priority;
      o, i, priority, trail := Walk(judge);
      if o.Deferred? {
        WalkedThrough(judge, i, priority, trail);
      }
    }

    // The first entry for this judge.
    method Begin(judge: Judge) returns (i: nat, priority: nat, stop: bool)
      requires Valid() && judge.working.None?
      ensures Walking(judge, i, priority, stop, [])
    {
      i, priority, stop := Next(judge, 0, 0);
    }

    method Walk(judge: Judge) returns (o: Outcome, i: nat, priority: nat, ghost trail: seq<Attempt>)
      requires Valid() && judge.working.None?
      modifies `asked, `submissionMap, `grants, `dispatchIds, `judges
      modifies judge`working, judge`dispatchId, judge`retryRequest
      ensures !o.Deferred? ==> QueueOk() && AssignmentsOk()
      ensures !o.Deferred? ==> forall a :: a in trail ==> a.judge == judge && a.id in nodeMap && a.outcome.Deferred?
      ensures o.Deferred? ==> Walking(judge, i, priority, true, trail) && Waiving(old(Snap()), Snap(), trail)
      ensures !o.Deferred? ==> FirstFor(judge, queue, i, trail) && AfterOffer(judge, queue[i].request.id, o)
      ensures !o.Deferred? ==> Ending(old(Snap()), Snap(), trail, judge, queue[i].request.id, o)
      ensures o.Ok? ==> Took(judge, queue[i])
    {
      var stop: bool;
      ghost var s := Snap();
      trail, o := [], Deferred;
      i, priority, stop := Begin(judge);
      while !stop
        modifies `asked, `submissionMap, `grants, `dispatchIds, `judges
        modifies judge`working, judge`dispatchId, judge`retryRequest
        invariant o.Deferred? && Walking(judge, i, priority, stop, trail)
        invariant s == old(Snap()) && Waiving(s, Snap(), trail)
        decreases |queue| - i, !stop
      {
        o, i, priority, stop, trail := AdvanceSince(judge, i, priority, trail, s);
        if !o.Deferred? {
          return;
        }
      }
    }

    // How a call for this judge ended, over the queue it started from. If the judge failed, all others have been tried.
    ghost predicate Ended(judge: Judge, s: Snapshot, v: Verdict, trail: seq<Attempt>)
      reads `queue, `stamps, judge`working, judge`supports, judge`isDisabled, judge`retryRequest
      reads `judges, judges`working, judges`isDisabled, judges`supports
    {
      match v
      case Spared => judges == s.judges && judge.working.None? && NothingFor(judge, trail)
      case Lost => judge !in judges && AllSatisfied(judges, Attempts(trail))
      case Dispatched(id) =>
        judges == s.judges && judge.working == Some(id) && exists n :: Chosen(judge, s, id, n, trail)
    }

    // n was the first entry in (class, arrival) order that the judge takes and did not refuse, and its class was
    // recovered from the markers.
    ghost predicate Chosen(judge: Judge, s: Snapshot, id: SubmissionId, n: Node, trail: seq<Attempt>)
      reads judge`supports, judge`isDisabled, judge`retryRequest, `judges, judges`working, judges`isDisabled
    {
      && Ordered(s.queue, s.stamps) && n in s.queue && n.Entry? && n.request.id == id && judge.Takes(n.request)
      && judge.retryRequest == Some(Retry(n.request, ClassOf(n, s.stamps)))
      && Attempt(judge, id, Ok) in trail
      && (forall m :: m in s.queue && m.Entry? && judge.Takes(m.request) && Before(m, n, s.stamps) ==>
            Refused(judge, m.request.id, trail))
      && (ClassOf(n, s.stamps) >= REJUDGE_PRIORITY ==> Reserved())
    }

    lemma FirstIsChosen(judge: Judge, s: Snapshot, i: nat, trail: seq<Attempt>)
      requires Ordered(s.queue, s.stamps) && FirstFor(judge, s.queue, i, trail) && s.stamps == stamps
      requires Took(judge, s.queue[i]) && judges == s.judges
      ensures var id := s.queue[i].request.id;
              Ended(judge, s, Dispatched(id), trail + [Attempt(judge, id, Ok)])
    {
      var id := s.queue[i].request.id;
      var trail' := trail + [Attempt(judge, id, Ok)];
      assert trail'[|trail|] == Attempt(judge, id, Ok);
      assert forall b :: b in trail ==> b in trail';
      assert forall k :: i < k < |s.queue| ==> Before(s.queue[i], s.queue[k], s.stamps);
      assert Chosen(judge, s, id, s.queue[i], trail');
    }

    // Unlinking an entry that turned out invalid explains it away for the rest of the call.
    lemma EndedAfterDrop(judge: Judge, s: Snapshot, t: Snapshot, n: Node, v: Verdict, drops: seq<Attempt>,
                         trail: seq<Attempt>)
      requires Ended(judge, t, v, trail) && Ordered(s.queue, s.stamps)
      requires n.Entry? && Attempt(judge, n.request.id, Invalid) in drops
      requires t.stamps == s.stamps && t.judges == s.judges && forall m :: m in s.queue <==> m in t.queue || m == n
      ensures Ended(judge, s, v, drops + trail)
    {
      AttemptsSplit(drops, trail);
      var trail' := drops + trail;
      assert forall a :: a in drops || a in trail ==> a in trail';
      if v.Dispatched? {
        var c :| Chosen(judge, t, v.id, c, trail);
        assert Chosen(judge, s, v.id, c, trail');
      }
    }

    // Drops the entry of a submission that its judge took or found invalid.
    method Settle(judge: Judge, ghost n: Node, id: SubmissionId, ghost o: Outcome)
      requires QueueOk() && AssignmentsOk() && n in queue && n.Entry? && n.request.id == id
      requires AfterOffer(judge, id, o)
      modifies `queue, `nodeMap
      ensures Valid() && Unlinked(old(Snap()), Snap(), n)
    {
      Unlink(id);
    }

    // One walk and what it does to the queue; entry i of the old queue was offered last.
    method Serve(judge: Judge) returns (o: Outcome, ghost i: nat, ghost trail: seq<Attempt>)
      requires Valid() && judge.working.None?
      modifies `asked, `queue, `nodeMap, `submissionMap, `grants, `dispatchIds, `judges
      modifies judge`working, judge`dispatchId, judge`retryRequest
      ensures Valid() && By(trail, {judge})
      ensures o.Deferred? ==> Answered(old(asked), asked, trail)
      ensures judges == if o.Failed? then old(judges) - {judge} else old(judges)
      ensures o.Deferred? ==> judge.working.None? && NothingFor(judge, trail)
      ensures o.Deferred? ==> Served(old(Snap()), Snap(), judge, Marker(0), o, trail)
      ensures !o.Deferred? ==> FirstFor(judge, old(queue), i, trail)
      ensures !o.Deferred? ==>
        Served(old(Snap()), Snap(), judge, old(queue)[i], o, trail + [Attempt(judge, old(queue)[i].request.id, o)])
      ensures !o.Deferred? ==> Answered(old(asked), asked, trail + [Attempt(judge, old(queue)[i].request.id, o)])
      ensures o.Ok? ==> Took(judge, old(queue)[i])
      ensures o.Invalid? ==> judge.working.None? && |queue| < old(|queue|)
    {
      ghost var s := Snap();
      var k;
      o, k, trail := Scan(judge);
      i := k;
      if !o.Deferred? {
        Conclude(judge, k, o, s, trail);
      } else {
        WaivingServed(s, Snap(), judge, trail);
      }
    }

    lemma WaivingServed(s: Snapshot, t: Snapshot, judge: Judge, trail: seq<Attempt>)
      requires Waiving(s, t, trail) && forall a :: a in trail ==> a.id in s.nodeMap && a.outcome.Deferred?
      ensures Served(s, t, judge, Marker(0), Deferred, trail)
    {
    }

    // Drops entry k if that dispatch settled it.
    method Conclude(judge: Judge, k: nat, o: Outcome, ghost s: Snapshot, ghost trail: seq<Attempt>)
      requires QueueOk() && AssignmentsOk() && k < |queue| && queue[k].Entry? && !o.Deferred?
      requires AfterOffer(judge, queue[k].request.id, o)
      requires Ending(s, Snap(), trail, judge, queue[k].request.id, o)
      requires forall a :: a in trail ==> a.id in nodeMap && a.outcome.Deferred?
      requires o.Ok? ==> Took(judge, queue[k])
      modifies `queue, `nodeMap
      ensures Valid() && (o.Invalid? ==> |queue| < |old(queue)|) && (o.Ok? ==> Took(judge, old(queue)[k]))
      ensures Served(s, Snap(), judge, old(queue)[k], o, trail + [Attempt(judge, old(queue)[k].request.id, o)])
      ensures Answered(s.asked, asked, trail + [Attempt(judge, old(queue)[k].request.id, o)])
    {
      ghost var n := queue[k];
      AnsweredNext(s.asked, asked - 1, trail, Attempt(judge, n.request.id, o));
      assert n in queue;
      ghost var m := Snap();
      if o.Ok? || o.Invalid? {
        Settle(judge, n, queue[k].request.id, o);
      }
      OfferedServed(s, m, Snap(), judge, n, o, trail);
    }

    // The walk and how it ends: a call is over unless the entry was invalid or the judge failed.
    method Dispatch(judge: Judge, ghost busy: Busy) returns (o: Outcome, ghost n: Node, ghost trail: seq<Attempt>)
      requires Valid() && judge.working.None? && Undisturbed(busy)
      modifies `asked, `queue, `nodeMap, `submissionMap, `grants, `dispatchIds, `judges
      modifies judge`working, judge`dispatchId, judge`retryRequest
      ensures Valid() && Progress(old(Snap()), Snap(), trail) && By(trail, {judge}) && Undisturbed(busy)
      ensures Answered(old(asked), asked, trail)
      ensures judges == if o.Failed? then old(judges) - {judge} else old(judges)
      ensures o.Deferred? ==> Ended(judge, old(Snap()), Spared, trail)
      ensures o.Ok? ==> n.Entry? && Ended(judge, old(Snap()), Dispatched(n.request.id), trail)
      ensures o.Invalid? ==> judge.working.None? && |queue| < old(|queue|) && Ordered(old(queue), stamps)
      ensures o.Invalid? ==>
        && n.Entry? && Attempt(judge, n.request.id, Invalid) in trail
        && forall m :: m in old(queue) <==> m in queue || m == n
    {
      ghost var s := Snap();
      ghost var i;
      o, i, trail := Serve(judge);
      n := Marker(0);
      if !o.Deferred? {
        n := s.queue[i];
        if o.Ok? {
          FirstIsChosen(judge, s, i, trail);
        }
        BySplit(trail, [Attempt(judge, n.request.id, o)], {judge});
        trail := trail + [Attempt(judge, n.request.id, o)];
      }
      ServedProgress(s, Snap(), judge, n, o, trail);
    }

    /** Hands a free judge the first queued entry that it takes, if it may have one. */
    method HandleFreeJudge(judge: Judge, ghost busy: Busy) returns (ghost v: Verdict, ghost trail: seq<Attempt>)
      requires Valid() && judge.working.None? && Undisturbed(busy)
      modifies this, judge`working, judge`dispatchId, judge`retryRequest
      modifies judges`working, judges`dispatchId, judges`retryRequest
      decreases |judges|, if judge in judges then 0 else 2, |queue|, 0
      ensures Valid() && Progress(old(Snap()), Snap(), trail) && Answered(old(asked), asked, trail) && Undisturbed(busy)
      ensures Ended(judge, old(Snap()), v, trail) && By(trail, old(judges) + {judge} - busy.Keys)
    {
      ghost var s := Snap();
      var o;
      ghost var n;
      o, n, trail := Dispatch(judge, busy);
      v := Lost;
      if o.Ok? {
        v := Dispatched(n.request.id);
      } else if o.Deferred? {
        v := Spared;
      } else if o.Invalid? {
        v, trail := AfterInvalid(judge, s, n, trail, busy);
      } else {
        SubsetSize(judges, s.judges);
        trail := AfterFailure(judge, s, trail, busy);
      }
    }

    // Two parts of a call, one after the other.
    lemma Joined(s: Snapshot, t: Snapshot, u: Snapshot, first: seq<Attempt>, second: seq<Attempt>, js: set<Judge>)
      requires Progress(s, t, first) && Answered(s.asked, t.asked, first) && By(first, js)
      requires Progress(t, u, second) && Answered(t.asked, u.asked, second) && By(second, js)
      ensures Progress(s, u, first + second) && Answered(s.asked, u.asked, first + second) && By(first + second, js)
      ensures Attempts(first + second) == Attempts(first) + Attempts(second)
    {
      ProgressTransitive(s, t, u, first, second);
      BySplit(first, second, js);
      AnsweredBoth(s.asked, t.asked, u.asked, first, second);
      AttemptsSplit(first, second);
    }

    // The entry was dropped, and the judge is tried again.
    method AfterInvalid(judge: Judge, ghost s: Snapshot, ghost n: Node, ghost drops: seq<Attempt>, ghost busy: Busy)
      returns (ghost v: Verdict, ghost trail: seq<Attempt>)
      requires Valid() && judge.working.None? && Progress(s, Snap(), drops) && By(drops, {judge}) && Undisturbed(busy)
      requires Answered(s.asked, asked, drops)
      requires Ordered(s.queue, stamps) && n.Entry? && Attempt(judge, n.request.id, Invalid) in drops
      requires judges == s.judges && forall m :: m in s.queue <==> m in queue || m == n
      modifies this, judge`working, judge`dispatchId, judge`retryRequest
      modifies judges`working, judges`dispatchId, judges`retryRequest
      decreases |judges|, if judge in judges then 0 else 2, |queue|, 1
      ensures Valid() && Progress(s, Snap(), trail) && Answered(s.asked, asked, trail) && Undisturbed(busy)
      ensures Ended(judge, s, v, trail) && By(trail, s.judges + {judge} - busy.Keys)
    {
      ghost var t := Snap();
      ghost var more;
      v, more := HandleFreeJudge(judge, busy);
      EndedAfterDrop(judge, s, t, n, v, drops, more);
      Joined(s, t, Snap(), drops, more, s.judges + {judge} - busy.Keys);
      trail := drops + more;
    }

    // The judge is lost, and the idle ones are tried.
    method AfterFailure(judge: Judge, ghost s: Snapshot, ghost losses: seq<Attempt>, ghost busy: Busy)
      returns (ghost trail: seq<Attempt>)
      requires Valid() && judge !in judges && Progress(s, Snap(), losses) && By(losses, {judge}) && Undisturbed(busy)
      requires Answered(s.asked, asked, losses) && judge !in busy
      modifies this, judges`working, judges`dispatchId, judges`retryRequest
      decreases |judges|, 1, 1
      ensures Valid() && Progress(s, Snap(), trail) && Answered(s.asked, asked, trail) && Undisturbed(busy)
      ensures judge !in judges && By(trail, s.judges + {judge} - busy.Keys)
      ensures AllSatisfied(judges, Attempts(trail))
    {
      ghost var t := Snap();
      ghost var more := HandleIdle({}, {}, {}, busy);
      Joined(s, t, Snap(), losses, more, s.judges + {judge} - busy.Keys);
      SatisfiedMore(t.judges - {}, judges, Attempts(more), Attempts(losses) + Attempts(more));
      trail := losses + more;
    }

    /** A judge that was served is covered: what waits for it, if anything, it has deferred, or it waits behind the
        reservation rule. */
    lemma EndedCovers(judge: Judge, s: Snapshot, v: Verdict, trail: seq<Attempt>)
      requires QueueOk() && Progress(s, Snap(), trail) && Ended(judge, s, v, trail)
      ensures Covered(judge, Attempts(trail))
    {
    }

    // Serves a free judge. It is covered then, and those covered before stay so.
    method ServeCovering(judge: Judge, ghost covered: set<Judge>, ghost told: set<Attempt>, ghost busy: Busy)
      returns (ghost v: Verdict, ghost trail: seq<Attempt>)
      requires Valid() && judge.working.None? && Undisturbed(busy) && AllCovered(covered, told)
      modifies this, judge`working, judge`dispatchId, judge`retryRequest
      modifies judges`working, judges`dispatchId, judges`retryRequest
      decreases |judges|, if judge in judges then 0 else 2, |queue|, 1
      ensures Valid() && Progress(old(Snap()), Snap(), trail) && Answered(old(asked), asked, trail) && Undisturbed(busy)
      ensures Ended(judge, old(Snap()), v, trail) && By(trail, old(judges) + {judge} - busy.Keys)
      ensures AllCovered(covered + {judge}, told + Attempts(trail))
    {
      ghost var t := Snap();
      ghost var all := busy + Working(covered);
      assert forall j :: j in busy ==> all[j] == busy[j];
      v, trail := HandleFreeJudge(judge, all);
      ServedCovers(judge, covered, t, all, told, v, trail);
    }

    lemma ServedCovers(judge: Judge, covered: set<Judge>, t: Snapshot, busy: Busy, told: set<Attempt>, v: Verdict,
                       trail: seq<Attempt>)
      requires QueueOk() && Progress(t, Snap(), trail) && Ended(judge, t, v, trail) && Undisturbed(busy)
      requires forall j :: j in covered ==>
        j in busy || j !in t.judges || j.isDisabled || NothingUrgent(j, t.queue, t.stamps, told)
      ensures AllCovered(covered + {judge}, told + Attempts(trail))
    {
      EndedCovers(judge, t, v, trail);
      StillCovered({judge}, Snap(), map[], Attempts(trail), [], told + Attempts(trail));
      StillCovered(covered, t, busy, told, trail, told + Attempts(trail));
    }

    // Whoever was working still is, and whoever was covered has nothing new to wait for.
    lemma StillCovered(covered: set<Judge>, t: Snapshot, busy: Busy, told: set<Attempt>, trail: seq<Attempt>,
                       more: set<Attempt>)
      requires Progress(t, Snap(), trail) && Undisturbed(busy) && told <= more
      requires forall j :: j in covered ==>
        j in busy || j !in t.judges || !j.Idle() || NothingUrgent(j, t.queue, t.stamps, told)
      ensures AllCovered(covered, more)
    {
      StillNothingUrgent(covered, t.queue, queue, t.stamps, told, more);
    }

    // A judge that was served is satisfied, and those that were before still are: if a judge was lost, all others have
    // been tried again, and if none was, no judge has become idle.
    lemma StillSatisfied(judge: Judge, served: set<Judge>, t: Snapshot, enabled: set<Judge>, idle: set<Judge>,
                         reserving: bool, told: set<Attempt>, busy: Busy, v: Verdict, trail: seq<Attempt>)
      requires QueueOk() && Progress(t, Snap(), trail) && Ended(judge, t, v, trail) && Undisturbed(busy)
      requires reserving ==> |enabled| > 1 && |idle| <= 1
      requires enabled == set j | j in t.judges && !j.isDisabled
      requires forall j :: j in t.judges ==> j in busy || j in idle || j.isDisabled
      requires forall j :: j in served ==>
        j in busy || j !in t.judges || NothingLeft(j, t.queue, t.stamps, told, reserving)
      ensures AllSatisfied(served + {judge}, told + Attempts(trail))
    {
      if v.Lost? {
        SatisfiedMore(judges, judges, Attempts(trail), told + Attempts(trail));
      } else {
        StillReserving(enabled, idle, reserving);
        SpareSatisfied(judge, t, v, trail);
      }
    }

    lemma StillReserving(enabled: set<Judge>, idle: set<Judge>, reserving: bool)
      requires reserving ==> |enabled| > 1 && |idle| <= 1
      requires enabled == Enabled() && IdleEnabled() <= idle
      ensures reserving ==> Reserving()
    {
      SubsetSize(IdleEnabled(), idle);
    }

    lemma SpareSatisfied(judge: Judge, t: Snapshot, v: Verdict, trail: seq<Attempt>)
      requires QueueOk() && Progress(t, Snap(), trail) && Ended(judge, t, v, trail) && !v.Lost?
      ensures Satisfied(judge, Attempts(trail))
    {
    }

    // Serves a judge if it is idle, as one more step since s. Those tried before stay covered,
    // and nobody busy is disturbed.
    method TryJudge(judge: Judge, ghost s: Snapshot, ghost soFar: seq<Attempt>, ghost tried: set<Judge>,
                    ghost served: set<Judge>, ghost told: set<Attempt>, ghost all: set<Judge>, ghost busy: Busy)
      returns (ghost trail: seq<Attempt>)
      requires Valid() && Progress(s, Snap(), soFar) && Answered(s.asked, asked, soFar) && By(soFar, all - busy.Keys)
      requires judges <= all && judge in all && Undisturbed(busy) && AllCovered(tried, told + Attempts(soFar))
      requires AllSatisfied(served, Attempts(soFar))
      modifies this, judge`working, judge`dispatchId, judge`retryRequest
      modifies judges`working, judges`dispatchId, judges`retryRequest
      decreases |judges|, if judge in judges then 0 else 2, |queue|, 3
      ensures Valid() && Progress(s, Snap(), trail) && Answered(s.asked, asked, trail) && By(trail, all - busy.Keys)
      ensures Undisturbed(busy) && AllCovered(tried + {judge}, told + Attempts(trail))
      ensures AllSatisfied(served + {judge}, Attempts(trail))
      ensures judges <= old(judges)
    {
      trail := soFar;
      if judge.working.None? {
        ghost var t := Snap();
        ghost var more := ServeNext(judge, tried, served, told, Attempts(soFar), busy);
        Joined(s, t, Snap(), soFar, more, all - busy.Keys);
        trail := soFar + more;
        assert told + Attempts(soFar) + Attempts(more) == told + Attempts(trail);
      }
    }

    method ServeNext(judge: Judge, ghost tried: set<Judge>, ghost served: set<Judge>, ghost told: set<Attempt>,
                     ghost before: set<Attempt>, ghost busy: Busy)
      returns (ghost trail: seq<Attempt>)
      requires Valid() && judge.working.None? && Undisturbed(busy)
      requires AllCovered(tried, told + before) && AllSatisfied(served, before)
      modifies this, judge`working, judge`dispatchId, judge`retryRequest
      modifies judges`working, judges`dispatchId, judges`retryRequest
      decreases |judges|, if judge in judges then 0 else 2, |queue|, 2
      ensures Valid() && Progress(old(Snap()), Snap(), trail) && Answered(old(asked), asked, trail) && Undisturbed(busy)
      ensures By(trail, old(judges) + {judge} - busy.Keys)
      ensures AllCovered(tried + {judge}, told + before + Attempts(trail))
      ensures AllSatisfied(served + {judge}, before + Attempts(trail))
    {
      ghost var t, enabled, idle, reserving := Snap(), Enabled(), IdleEnabled(), Reserving();
      ghost var most := busy + Working(judges);
      assert forall j :: j in busy ==> most[j] == busy[j];
      ghost var v;
      v, trail := ServeCovering(judge, tried, told + before, most);
      StillSatisfied(judge, served, t, enabled, idle, reserving, before, most, v, trail);
    }

    /** Tries every idle judge of the list as it is now, except those to skip. Judges can leave
        the list while the snapshot is worked through. Those tried are satisfied then, and those
        that were covered before are still covered. */
    method HandleIdle(skip: set<Judge>, ghost covered: set<Judge>, ghost told: set<Attempt>, ghost busy: Busy)
      returns (ghost trail: seq<Attempt>)
      requires Valid() && Undisturbed(busy) && AllCovered(covered, told)
      modifies this, judges`working, judges`dispatchId, judges`retryRequest
      decreases |judges|, 1, 0
      ensures Valid() && Progress(old(Snap()), Snap(), trail) && Answered(old(asked), asked, trail) && Undisturbed(busy)
      ensures By(trail, old(judges) - busy.Keys)
      ensures AllCovered(old(judges) - skip + covered, told + Attempts(trail))
      ensures AllSatisfied(old(judges) - skip, Attempts(trail))
    {
      ghost var s, all := Snap(), judges;
      var rest := judges - skip;
      ghost var tried, served := covered, {};
      trail := [];
      ProgressReflexive(s);
      assert told + Attempts([]) == told;
      while rest != {}
        invariant Valid() && Progress(s, Snap(), trail) && Answered(s.asked, asked, trail) && Undisturbed(busy)
        invariant judges <= all && By(trail, all - busy.Keys) && AllCovered(tried, told + Attempts(trail))
        invariant rest <= all && all - skip + covered <= tried + rest
        invariant all - skip <= served + rest && AllSatisfied(served, Attempts(trail))
        decreases |rest|
      {
        var c :| c in rest;
        SubsetSize(judges, all);
        trail := TryJudge(c, s, trail, tried, served, told, all, busy);
        MovedOver(rest, tried, c);
        MovedOver(rest, served, c);
        rest := rest - {c};
        tried, served := tried + {c}, served + {c};
      }
    }

    static lemma MovedOver<T>(a: set<T>, b: set<T>, x: T)
      requires x in a
      ensures b + {x} + (a - {x}) == b + a
    {
    }

    static lemma LeastLoad(js: set<Judge>) returns (j: Judge)
      requires js != {}
      ensures j in js && forall k :: k in js ==> j.load <= k.load
    {
      j :| j in js;
      var rest := js - {j};
      assert forall k :: k in js ==> k == j || k in rest;
      if rest != {} {
        var k := LeastLoad(rest);
        if k.load < j.load { j := k; }
      }
    }

    static lemma OnlyMember<T>(s: set<T>, x: T)
      requires x in s && |s| == 1
      ensures s == {x}
    {
      assert |s - {x}| == 0;
    }

    static lemma AnotherMember<T>(s: set<T>, x: T) returns (y: T)
      requires |s| > 1
      ensures y in s && y != x
    {
      assert s != {};
      assert s != {x};
      y :| y in s && y != x;
    }

    // The judges that take the request, and the load of those that are free for it.
    ghost function Takers(r: Request): set<Judge>
      reads `judges, judges`isDisabled, judges`supports
    {
      set j | j in judges && j.Takes(r)
    }

    ghost function Free(r: Request): (free: map<Judge, real>)
      reads `judges, judges`working, judges`isDisabled, judges`supports, judges`load
    {
      map j | j in judges && j.Takes(r) && j.Idle() :: j.load
    }

    // The judge a new request goes to at once: one of least load among those free for it. A rejudge must leave another
    // free judge, unless no other judge takes the request at all.
    ghost predicate Selected(free: map<Judge, real>, takers: set<Judge>, priority: nat, choice: Option<Judge>) {
      match choice
      case Some(j) =>
        && j in free && (forall k :: k in free ==> free[j] <= free[k])
        && (priority >= REJUDGE_PRIORITY ==> (exists k :: k in free && k != j) || takers == {j})
      case None =>
        free == map[] || (priority >= REJUDGE_PRIORITY && exists j :: j in takers && free.Keys == {j} && takers != {j})
    }

    method SelectJudge(r: Request, priority: nat) returns (choice: Option<Judge>)
      ensures Selected(old(Free(r)), old(Takers(r)), priority, choice)
    {
      var candidates := set j | j in judges && j.Takes(r);
      var available := set j | j in candidates && j.Idle();
      assert candidates == Takers(r) && available == Free(r).Keys;
      if available == {} {
        return None;
      }
      ghost var j := LeastLoad(available);
      var least :| least in available && forall k :: k in available ==> least.load <= k.load;
      if |available| == 1 {
        OnlyMember(available, least);
        if |candidates| > 1 {
          if priority >= REJUDGE_PRIORITY {
            assert least in candidates;
            return None;
          }
        } else {
          SubsetSize({least}, candidates);
        }
      } else {
        ghost var other := AnotherMember(available, least);
      }
      return Some(least);
    }

    // What the rest of judge() needs to know of the choice.
    lemma ChoiceMeans(r: Request, priority: nat, choice: Option<Judge>)
      requires Selected(Free(r), Takers(r), priority, choice)
      ensures choice.Some? ==> choice.value in judges && choice.value.working.None?
      ensures choice.None? && priority < REJUDGE_PRIORITY ==> NobodyIdleFor(r)
    {
      assert forall j :: j in judges && j.Takes(r) && j.Idle() ==> j in Free(r);
    }

    method OfferNew(judge: Judge, r: Request, priority: nat) returns (o: Outcome)
      requires Valid() && priority < PRIORITIES && r.id !in nodeMap && r.id !in submissionMap && judge.working.None?
      modifies `asked, `submissionMap, `grants, `dispatchIds, `judges
      modifies judge`working, judge`dispatchId, judge`retryRequest
      ensures Valid() && OfferedFresh(old(Snap()), Snap(), judge, r.id, o)
      ensures asked == old(asked) + 1 && o == Answer(old(asked))
      ensures o.Ok? ==> judge.working == Some(r.id)
      ensures Placed(clock, Snap(), r, priority, old(Lookup(dispatchIds, r.id)))
      ensures judge in old(judges) && old(Conserving({})) ==> Conserving({})
    {
      o := Offer(judge, r, priority);
      assert old(submissionMap) - {r.id} == old(submissionMap);
    }

    // A deferred new request is queued, and the other idle judges are tried.
    method QueueDeferred(r: Request, priority: nat, judge: Judge, ghost s: Snapshot, ghost busy: Busy)
      returns (ghost trail: seq<Attempt>)
      requires Valid() && priority < PRIORITIES && r.id !in nodeMap && r.id !in submissionMap
      requires OfferedFresh(s, Snap(), judge, r.id, Deferred) && Undisturbed(busy) && r.id !in s.submissionMap
      modifies this, judges`working, judges`dispatchId, judges`retryRequest
      ensures Valid() && Undisturbed(busy) && Answered(old(asked), asked, trail) && By(trail, old(judges) - busy.Keys)
      ensures Admitted(s, Snap(), r, [Attempt(judge, r.id, Deferred)] + trail)
      ensures Placed(s.clock, Snap(), r, priority, Lookup(s.dispatchIds, r.id))
      ensures old(Conserving({})) ==> Conserving({Attempt(judge, r.id, Deferred)} + Attempts(trail))
      ensures AllSatisfied(judges - {judge}, {Attempt(judge, r.id, Deferred)} + Attempts(trail))
    {
      ghost var t, first := Snap(), Attempt(judge, r.id, Deferred);
      ghost var covered := if Conserving({}) then {judge} else {};
      QueueNew(r, priority, judge);
      ghost var u := Snap();
      trail := HandleIdle({judge}, covered, {first}, busy);
      SatisfiedMore(t.judges - {judge}, judges - {judge}, Attempts(trail), {first} + Attempts(trail));
      ProgressPlaces(u, Snap(), trail, r, priority);
      DeferredAdmitted(s, t, u, Snap(), r, priority, judge, trail);
    }

    // A new entry leaves a judge covered that has deferred it.
    method QueueNew(r: Request, priority: nat, ghost judge: Judge)
      requires Valid() && r.id !in nodeMap && r.id !in submissionMap && priority < PRIORITIES
      modifies `queue, `nodeMap, `stamps, `clock
      ensures Valid() && Enqueued(old(Snap()), Snap(), r, priority)
      ensures old(Covered(judge, {})) ==> Covered(judge, {Attempt(judge, r.id, Deferred)})
    {
      ghost var s := Snap();
      EnqueueRun(r, priority);
      NothingUrgentAdded(judge, s, Snap(), r, priority, {Attempt(judge, r.id, Deferred)});
    }

    // A new entry keeps work conserved unless it is urgent and an idle judge takes it.
    method QueueRun(r: Request, priority: nat)
      requires Valid() && priority < PRIORITIES && r.id !in nodeMap
      requires r.id in submissionMap ==>
                 r.id in dispatchIds && submissionMap[r.id].dispatchId != Some(dispatchIds[r.id])
      modifies `queue, `nodeMap, `stamps, `clock
      ensures Valid() && Enqueued(old(Snap()), Snap(), r, priority)
      ensures old(Conserving({})) ==> (Conserving({}) <==> priority >= REJUDGE_PRIORITY || NobodyIdleFor(r))
    {
      ghost var s := Snap();
      EnqueueRun(r, priority);
      forall j | j in judges && j.Idle() {
        NothingUrgentAdded(j, s, Snap(), r, priority, {});
      }
    }

    // No idle judge takes the request.
    ghost predicate NobodyIdleFor(r: Request)
      reads `judges, judges`working, judges`isDisabled, judges`supports
    {
      forall j :: j in judges ==> !(j.Takes(r) && j.Idle())
    }

    // Queues a run that no judge is working on.
    method EnqueueRun(r: Request, priority: nat)
      requires Valid() && priority < PRIORITIES && r.id !in nodeMap
      requires r.id in submissionMap ==>
                 r.id in dispatchIds && submissionMap[r.id].dispatchId != Some(dispatchIds[r.id])
      modifies `queue, `nodeMap, `stamps, `clock
      ensures Valid() && Enqueued(old(Snap()), Snap(), r, priority)
    {
      Enqueue(r, priority);
    }

    // Who was tried first.
    ghost function FirstTried(trail: seq<Attempt>): Option<Judge> {
      if trail == [] then None else Some(trail[0].judge)
    }

    // The judge that deferred the request, if one did after those before it failed.
    ghost function DeferredBy(trail: seq<Attempt>): Option<Judge> {
      if trail == [] then None
      else if trail[0].outcome.Deferred? then Some(trail[0].judge)
      else if trail[0].outcome.Failed? then DeferredBy(trail[1..])
      else None
    }

    // After a deferral all other judges have been tried.
    ghost predicate OthersTried(trail: seq<Attempt>)
      reads `queue, `stamps, `judges, judges`working, judges`isDisabled, judges`supports
    {
      DeferredBy(trail).Some? ==> AllSatisfied(judges - {DeferredBy(trail).value}, Attempts(trail))
    }

    // A request is queued without being deferred only if no judge may have it.
    ghost predicate HeldBack(r: Request, priority: nat, trail: seq<Attempt>)
      reads `nodeMap, `judges, judges`working, judges`isDisabled, judges`supports, judges`load
    {
      r.id in nodeMap && DeferredBy(trail).None? ==> Selected(Free(r), Takers(r), priority, None)
    }

    // The first attempt, if any, is for this request, and it is the only one if it succeeds.
    ghost predicate StartsWith(s: Snapshot, t: Snapshot, id: SubmissionId, trail: seq<Attempt>) {
      trail != [] ==>
        && trail[0].id == id
        && (trail[0].outcome.Ok? ==> |trail| == 1 && OfferedFresh(s, t, trail[0].judge, id, Ok))
    }

    // The rest of judge(): the request is dispatched at once if a judge is chosen, or else queued.
    method Place(r: Request, priority: nat, ghost busy: Busy) returns (ghost trail: seq<Attempt>)
      requires Valid() && priority < PRIORITIES && r.id !in nodeMap && r.id !in submissionMap && Undisturbed(busy)
      modifies this, judges`working, judges`dispatchId, judges`retryRequest
      decreases |judges|, 2
      ensures Valid() && Admitted(old(Snap()), Snap(), r, trail) && Undisturbed(busy)
      ensures Answered(old(asked), asked, trail) && By(trail, old(judges) - busy.Keys)
      ensures Selected(old(Free(r)), old(Takers(r)), priority, FirstTried(trail))
      ensures StartsWith(old(Snap()), Snap(), r.id, trail)
      ensures Placed(old(clock), Snap(), r, priority, old(Lookup(dispatchIds, r.id)))
      ensures old(Conserving({})) ==> Conserving(Attempts(trail))
      ensures OthersTried(trail) && HeldBack(r, priority, trail)
    {
      ghost var conserved := Conserving({});
      var chosen := SelectJudge(r, priority);
      ChoiceMeans(r, priority, chosen);
      assert conserved == Conserving({});
      trail := [];
      if chosen.None? {
        QueueChosen(r, priority, busy);
      } else {
        trail := Start(chosen.value, r, priority, busy);
      }
    }

    // No judge was chosen.
    method QueueChosen(r: Request, priority: nat, ghost busy: Busy)
      requires Valid() && priority < PRIORITIES && r.id !in nodeMap && r.id !in submissionMap && Undisturbed(busy)
      requires Selected(Free(r), Takers(r), priority, None) && (priority < REJUDGE_PRIORITY ==> NobodyIdleFor(r))
      modifies `queue, `nodeMap, `stamps, `clock
      ensures Valid() && Admitted(old(Snap()), Snap(), r, []) && Undisturbed(busy)
      ensures Placed(old(clock), Snap(), r, priority, old(Lookup(dispatchIds, r.id)))
      ensures old(Conserving({})) ==> Conserving(Attempts([]))
      ensures Selected(Free(r), Takers(r), priority, None)
    {
      ghost var s := Snap();
      QueueRun(r, priority);
      EnqueuePlaces(s, Snap(), r, priority);
      EnqueueAdmitted(s, Snap(), r, priority);
      assert Attempts([]) == {};
    }

    method Start(judge: Judge, r: Request, priority: nat, ghost busy: Busy) returns (ghost trail: seq<Attempt>)
      requires Valid() && priority < PRIORITIES && r.id !in nodeMap && r.id !in submissionMap && Undisturbed(busy)
      requires judge in judges && judge.working.None?
      modifies this, judges`working, judges`dispatchId, judges`retryRequest
      decreases |judges|, 1
      ensures Valid() && Admitted(old(Snap()), Snap(), r, trail) && Undisturbed(busy)
      ensures Answered(old(asked), asked, trail) && By(trail, old(judges) - busy.Keys)
      ensures FirstTried(trail) == Some(judge) && StartsWith(old(Snap()), Snap(), r.id, trail)
      ensures Placed(old(clock), Snap(), r, priority, old(Lookup(dispatchIds, r.id)))
      ensures old(Conserving({})) ==> Conserving(Attempts(trail))
      ensures OthersTried(trail) && HeldBack(r, priority, trail)
    {
      ghost var s, all, from := Snap(), judges, asked;
      assert judge !in busy;
      var o := OfferNew(judge, r, priority);
      SubsetSize(judges, all);
      ghost var left, mid := judges, asked;
      ghost var more := Follow(judge, r, priority, o, s, busy);
      ByWider(more, left, all, busy.Keys);
      AfterFirst(from, mid, asked, Attempt(judge, r.id, o), more, all - busy.Keys);
      trail := [Attempt(judge, r.id, o)] + more;
    }

    lemma AfterFirst(from: nat, mid: nat, to: nat, a: Attempt, more: seq<Attempt>, js: set<Judge>)
      requires mid == from + 1 && a.outcome == Answer(from) && Answered(mid, to, more) && a.judge in js && By(more, js)
      ensures Answered(from, to, [a] + more) && By([a] + more, js) && Attempts([a] + more) == {a} + Attempts(more)
    {
      AnsweredBoth(from, mid, to, [a], more);
      BySplit([a], more, js);
      AttemptsSplit([a], more);
      assert Attempts([a]) == {a};
    }

    // What follows the dispatch. A failed judge has left the list, and the request starts over.
    method Follow(judge: Judge, r: Request, priority: nat, o: Outcome, ghost s: Snapshot, ghost busy: Busy)
      returns (ghost more: seq<Attempt>)
      requires Valid() && priority < PRIORITIES && r.id !in nodeMap && (o.Ok? || r.id !in submissionMap)
      requires Undisturbed(busy) && r.id !in s.submissionMap
      requires OfferedFresh(s, Snap(), judge, r.id, o) && s.nodeMap == nodeMap
      requires Placed(s.clock, Snap(), r, priority, Lookup(s.dispatchIds, r.id))
      modifies this, judges`working, judges`dispatchId, judges`retryRequest
      decreases |judges| + (if o.Failed? then 1 else 0), 0
      ensures Valid() && Admitted(s, Snap(), r, [Attempt(judge, r.id, o)] + more) && Undisturbed(busy)
      ensures Answered(old(asked), asked, more) && By(more, old(judges) - busy.Keys)
      ensures StartsWith(s, Snap(), r.id, [Attempt(judge, r.id, o)] + more)
      ensures Placed(s.clock, Snap(), r, priority, Lookup(s.dispatchIds, r.id))
      ensures old(Conserving({})) ==> Conserving({Attempt(judge, r.id, o)} + Attempts(more))
      ensures OthersTried([Attempt(judge, r.id, o)] + more) && HeldBack(r, priority, [Attempt(judge, r.id, o)] + more)
    {
      ghost var t := Snap();
      more := [];
      if o.Ok? || o.Invalid? {
        OfferAdmitted(s, t, judge, r, o);
        assert [Attempt(judge, r.id, o)] + [] == [Attempt(judge, r.id, o)];
      } else if o.Deferred? {
        more := QueueDeferred(r, priority, judge, s, busy);
        DeferredFirst(Attempt(judge, r.id, o), more);
      } else {
        more := Place(r, priority, busy);
        StillOthersTried(Attempt(judge, r.id, o), more);
        RetriedAdmitted(s, t, Snap(), r, judge, more);
      }
    }

    lemma DeferredFirst(a: Attempt, more: seq<Attempt>)
      requires a.outcome.Deferred? && AllSatisfied(judges - {a.judge}, {a} + Attempts(more))
      ensures OthersTried([a] + more)
    {
      AttemptsSplit([a], more);
      assert Attempts([a]) == {a};
    }

    lemma StillOthersTried(a: Attempt, more: seq<Attempt>)
      requires a.outcome.Failed? && OthersTried(more)
      ensures OthersTried([a] + more) && DeferredBy([a] + more) == DeferredBy(more)
    {
      AttemptsSplit([a], more);
      assert ([a] + more)[1..] == more;
      if DeferredBy(more).Some? {
        var rest := judges - {DeferredBy(more).value};
        SatisfiedMore(rest, rest, Attempts(more), Attempts([a] + more));
      }
    }

    // The request is for a run that is already queued or already being judged.
    predicate Duplicate(id: SubmissionId, token: Option<Token>)
      reads this, submissionMap.Values
    {
      if id in nodeMap then token.None? || Lookup(dispatchIds, id) == token
      else id in submissionMap && (token.None? || submissionMap[id].dispatchId == token)
    }

    // A queued run gives way to a newer one.
    method DropQueued(id: SubmissionId)
      requires Valid()
      modifies `queue, `nodeMap
      ensures Valid() && Cleared(old(Snap()), Snap(), id) && id !in nodeMap && dispatchIds == old(dispatchIds)
      ensures id !in old(nodeMap) ==> Snap() == old(Snap())
      ensures old(Conserving({})) ==> Conserving({})
    {
      if id in nodeMap {
        ghost var q := queue;
        Unlink(id);
        StillNothingUrgent(judges, q, queue, stamps, {}, {});
      }
    }

    method Record(id: SubmissionId, token: Token)
      requires Valid() && id !in nodeMap
      modifies `dispatchIds
      ensures Valid() && dispatchIds == old(dispatchIds)[id := token]
      ensures Cleared(old(Snap()), Snap(), id)
      ensures old(Conserving({})) ==> Conserving({})
    {
      dispatchIds := dispatchIds[id := token];
    }

    // A new run of a submission that is being judged waits in the queue for its worker; a
    // request for the run being judged changes nothing.
    method Wait(r: Request, priority: nat, token: Option<Token>)
      requires Valid() && priority < PRIORITIES && r.id !in nodeMap && r.id in submissionMap
      modifies `queue, `nodeMap, `stamps, `clock, `dispatchIds
      ensures Valid() && Admitted(old(Snap()), Snap(), r, [])
      ensures token.None? || submissionMap[r.id].dispatchId == token ==> Snap() == old(Snap())
      ensures token.Some? && submissionMap[r.id].dispatchId != token ==>
        && nodeMap == old(nodeMap)[r.id := Entry(r)] && stamps[r.id] == Stamp(priority, old(clock))
        && dispatchIds == old(dispatchIds)[r.id := token.value]
      ensures old(Conserving({})) ==>
        (Conserving({}) <==> r.id !in nodeMap || priority >= REJUDGE_PRIORITY || NobodyIdleFor(r))
    {
      if token.Some? && submissionMap[r.id].dispatchId != token {
        QueueBehind(r, priority, token.value);
      }
    }

    method QueueBehind(r: Request, priority: nat, token: Token)
      requires Valid() && priority < PRIORITIES && r.id !in nodeMap && r.id in submissionMap
      requires submissionMap[r.id].dispatchId != Some(token)
      modifies `queue, `nodeMap, `stamps, `clock, `dispatchIds
      ensures Valid() && Admitted(old(Snap()), Snap(), r, [])
      ensures nodeMap == old(nodeMap)[r.id := Entry(r)] && stamps[r.id] == Stamp(priority, old(clock))
      ensures dispatchIds == old(dispatchIds)[r.id := token]
      ensures old(Conserving({})) ==> (Conserving({}) <==> priority >= REJUDGE_PRIORITY || NobodyIdleFor(r))
    {
      ghost var s := Snap();
      Record(r.id, token);
      ghost var t := Snap();
      QueueRun(r, priority);
      BehindAdmitted(s, t, Snap(), r, priority);
    }

    // The token recorded for a request that is about to be placed.
    ghost function Recorded(ids: map<SubmissionId, Token>, id: SubmissionId, token: Option<Token>): Option<Token> {
      if token.Some? then token else Lookup(ids, id)
    }

    // The guards of judge(), up to the point where the request is placed or waits.
    method Prepare(r: Request, token: Option<Token>, ghost busy: Busy) returns (duplicate: bool)
      requires Valid() && Undisturbed(busy)
      modifies `queue, `nodeMap, `dispatchIds
      ensures Valid() && Cleared(old(Snap()), Snap(), r.id) && Undisturbed(busy)
      ensures duplicate ==> old(Duplicate(r.id, token)) && Snap() == old(Snap())
      ensures !duplicate ==> r.id !in nodeMap
      ensures old(Duplicate(r.id, token)) ==>
        Snap() == old(Snap()) &&
          (!duplicate ==> r.id in submissionMap && (token.None? || submissionMap[r.id].dispatchId == token))
      ensures r.id in submissionMap ==> dispatchIds == old(dispatchIds)
      ensures !duplicate && r.id !in submissionMap ==>
                Lookup(dispatchIds, r.id) == Recorded(old(dispatchIds), r.id, token)
      ensures old(Conserving({})) ==> Conserving({})
    {
      if r.id in nodeMap && (token.None? || Lookup(dispatchIds, r.id) == token) {
        return true;
      }
      Clear(r.id, token);
      return false;
    }

    // They change nothing about the judges.
    method PrepareQuietly(r: Request, token: Option<Token>, ghost busy: Busy) returns (duplicate: bool)
      requires Valid() && Undisturbed(busy)
      modifies `queue, `nodeMap, `dispatchIds
      ensures Valid() && Cleared(old(Snap()), Snap(), r.id) && Undisturbed(busy)
      ensures duplicate ==> old(Duplicate(r.id, token)) && Snap() == old(Snap())
      ensures !duplicate ==> r.id !in nodeMap
      ensures old(Duplicate(r.id, token)) ==>
        Snap() == old(Snap()) &&
          (!duplicate ==> r.id in submissionMap && (token.None? || submissionMap[r.id].dispatchId == token))
      ensures r.id in submissionMap ==> dispatchIds == old(dispatchIds)
      ensures !duplicate && r.id !in submissionMap ==>
                Lookup(dispatchIds, r.id) == Recorded(old(dispatchIds), r.id, token)
      ensures old(Conserving({})) ==> Conserving({})
      ensures Free(r) == old(Free(r)) && Takers(r) == old(Takers(r))
    {
      duplicate := Prepare(r, token, busy);
    }

    // The old entry goes, and the token of a run that is about to be placed is recorded.
    method Clear(id: SubmissionId, token: Option<Token>)
      requires Valid()
      modifies `queue, `nodeMap, `dispatchIds
      ensures Valid() && Cleared(old(Snap()), Snap(), id) && id !in nodeMap
      ensures id !in old(nodeMap) && (id in submissionMap || token.None?) ==> Snap() == old(Snap())
      ensures dispatchIds == if id in submissionMap || token.None? then old(dispatchIds)
              else old(dispatchIds)[id := token.value]
      ensures old(Conserving({})) ==> Conserving({})
    {
      ghost var s := Snap();
      DropQueued(id);
      if id !in submissionMap && token.Some? {
        ghost var t := Snap();
        Record(id, token.value);
        ClearedTransitive(s, t, Snap(), id);
      }
    }

    // Everything else in the queue arrived before this submission.
    ghost predicate ArrivedLast(id: SubmissionId)
      reads `nodeMap, `stamps
    {
      forall other :: other in nodeMap && other != id ==>
        other in stamps && id in stamps && stamps[other].arrival < stamps[id].arrival
    }

    /** First come, first served: a request that is queued arrives after all that were queued before it. */
    lemma LaterArrival(s: Snapshot, r: Request, trail: seq<Attempt>)
      requires QueueOk() && Admitted(s, Snap(), r, trail) && r.id in stamps && stamps[r.id].arrival >= s.clock
      requires ArrivalsKnown(s)
      ensures ArrivedLast(r.id)
    {
      forall other | other in nodeMap && other != r.id
        ensures other in stamps && stamps[other].arrival < stamps[r.id].arrival
      {
        assert nodeMap[other] in s.queue;
        assert Lookup(stamps, other) == Lookup(s.stamps, other);
      }
    }

    /** judge(): a request to judge a submission, as the run that `token` names. */
    method JudgeRequest(r: Request, priority: nat, token: Option<Token>, ghost busy: Busy)
      returns (ghost trail: seq<Attempt>)
      requires Valid() && priority < PRIORITIES && Undisturbed(busy)
      modifies this, judges`working, judges`dispatchId, judges`retryRequest
      ensures Valid() && Undisturbed(busy) && Answered(old(asked), asked, trail) && By(trail, old(judges) - busy.Keys)
      ensures Admitted(old(Snap()), Snap(), r, trail)
      ensures old(Duplicate(r.id, token)) ==> Snap() == old(Snap()) && trail == []
      ensures !old(Duplicate(r.id, token)) && r.id in nodeMap ==> ArrivedLast(r.id)
      ensures !old(Duplicate(r.id, token)) && r.id in old(submissionMap) ==>
        Waits(old(Snap()), Snap(), r, priority, token) && trail == []
      ensures !old(Duplicate(r.id, token)) && r.id !in old(submissionMap) ==>
        && Selected(old(Free(r)), old(Takers(r)), priority, FirstTried(trail)) && HeldBack(r, priority, trail)
        && Placed(old(clock), Snap(), r, priority, Recorded(old(dispatchIds), r.id, token))
        && (trail != [] && trail[0].outcome.Ok? ==>
              submissionMap == old(submissionMap)[r.id := trail[0].judge] && judges == old(judges) && |trail| == 1)
      ensures old(Conserving({})) && r.id !in old(submissionMap) ==> Conserving(Attempts(trail))
      ensures OthersTried(trail)
      ensures old(Conserving({})) && r.id in old(submissionMap) && !old(Duplicate(r.id, token)) ==>
        (Conserving({}) <==> r.id !in nodeMap || priority >= REJUDGE_PRIORITY || NobodyIdleFor(r))
    {
      ghost var s := Snap();
      trail := [];
      assert Attempts([]) == {};
      var duplicate := PrepareQuietly(r, token, busy);
      if !duplicate {
        trail := Proceed(r, priority, token, s, busy);
      }
    }

    // The request waits for its worker or is placed.
    method Proceed(r: Request, priority: nat, token: Option<Token>, ghost s: Snapshot, ghost busy: Busy)
      returns (ghost trail: seq<Attempt>)
      requires Valid() && priority < PRIORITIES && r.id !in nodeMap && Cleared(s, Snap(), r.id)
      requires Undisturbed(busy) && ArrivalsKnown(s) && (r.id in submissionMap ==> dispatchIds == s.dispatchIds)
      modifies this, judges`working, judges`dispatchId, judges`retryRequest
      ensures Valid() && Undisturbed(busy) && Answered(old(asked), asked, trail) && By(trail, old(judges) - busy.Keys)
      ensures Admitted(s, Snap(), r, trail) && (r.id in nodeMap ==> ArrivedLast(r.id))
      ensures r.id in old(submissionMap) ==>
        && trail == [] && (token.Some? ==> Waits(s, Snap(), r, priority, token))
        && (token.None? || old(submissionMap[r.id].dispatchId) == token ==> Snap() == old(Snap()))
        && (old(Conserving({})) ==>
              (Conserving({}) <==> r.id !in nodeMap || priority >= REJUDGE_PRIORITY || NobodyIdleFor(r)))
      ensures r.id !in old(submissionMap) ==>
        && Selected(old(Free(r)), old(Takers(r)), priority, FirstTried(trail)) &&
           StartsWith(old(Snap()), Snap(), r.id, trail)
        && Placed(s.clock, Snap(), r, priority, old(Lookup(dispatchIds, r.id)))
        && (old(Conserving({})) ==> Conserving(Attempts(trail))) && OthersTried(trail)
        && HeldBack(r, priority, trail)
    {
      trail := [];
      if r.id in submissionMap {
        WaitCleared(r, priority, token, s, busy);
      } else {
        trail := PlaceCleared(r, priority, s, busy);
      }
    }

    method WaitCleared(r: Request, priority: nat, token: Option<Token>, ghost s: Snapshot, ghost busy: Busy)
      requires Valid() && priority < PRIORITIES && r.id !in nodeMap && r.id in submissionMap
      requires Cleared(s, Snap(), r.id) && dispatchIds == s.dispatchIds && Undisturbed(busy) && ArrivalsKnown(s)
      modifies `queue, `nodeMap, `stamps, `clock, `dispatchIds
      ensures Valid() && Admitted(s, Snap(), r, []) && (token.Some? ==> Waits(s, Snap(), r, priority, token))
      ensures token.None? || submissionMap[r.id].dispatchId == token ==> Snap() == old(Snap())
      ensures Undisturbed(busy) && (r.id in nodeMap ==> ArrivedLast(r.id))
      ensures old(Conserving({})) ==>
        (Conserving({}) <==> r.id !in nodeMap || priority >= REJUDGE_PRIORITY || NobodyIdleFor(r))
    {
      ghost var t := Snap();
      Wait(r, priority, token);
      ClearedAdmitted(s, t, Snap(), r, []);
      if r.id in nodeMap {
        LaterArrival(s, r, []);
      }
    }

    ghost predicate ArrivalsKnown(s: Snapshot) {
      forall n :: n in s.queue && n.Entry? ==> n.request.id in s.stamps && s.stamps[n.request.id].arrival < s.clock
    }

    method PlaceCleared(r: Request, priority: nat, ghost s: Snapshot, ghost busy: Busy)
      returns (ghost trail: seq<Attempt>)
      requires Valid() && priority < PRIORITIES && r.id !in nodeMap && r.id !in submissionMap &&
               Cleared(s, Snap(), r.id)
      requires Undisturbed(busy) && ArrivalsKnown(s)
      modifies this, judges`working, judges`dispatchId, judges`retryRequest
      ensures Valid() && Admitted(s, Snap(), r, trail) && Undisturbed(busy)
      ensures Answered(old(asked), asked, trail) && By(trail, old(judges) - busy.Keys)
      ensures Selected(old(Free(r)), old(Takers(r)), priority, FirstTried(trail))
      ensures StartsWith(old(Snap()), Snap(), r.id, trail)
      ensures Placed(s.clock, Snap(), r, priority, old(Lookup(dispatchIds, r.id)))
      ensures r.id in nodeMap ==> ArrivedLast(r.id)
      ensures old(Conserving({})) ==> Conserving(Attempts(trail))
      ensures OthersTried(trail) && HeldBack(r, priority, trail)
    {
      ghost var t := Snap();
      trail := Place(r, priority, busy);
      ClearedAdmitted(s, t, Snap(), r, trail);
      if r.id in nodeMap {
        LaterArrival(s, r, trail);
      }
    }

    // Serves a free judge when all others were covered.
    method ServeFree(judge: Judge, ghost covered: set<Judge>, ghost told: set<Attempt>, ghost busy: Busy)
      returns (ghost v: Verdict, ghost trail: seq<Attempt>)
      requires Valid() && judge.working.None? && Undisturbed(busy) && AllCovered(covered, told)
      modifies this, judge`working, judge`dispatchId, judge`retryRequest
      modifies judges`working, judges`dispatchId, judges`retryRequest
      ensures Valid() && Progress(old(Snap()), Snap(), trail) && Answered(old(asked), asked, trail) && Undisturbed(busy)
      ensures By(trail, old(judges) + {judge} - busy.Keys) && Ended(judge, old(Snap()), v, trail)
      ensures old(judges) <= covered + {judge} ==> Conserving(told + Attempts(trail))
    {
      v, trail := ServeCovering(judge, covered, told, busy);
    }

    /** A judge connects. Others of its name are only told to disconnect. */
    method Register(judge: Judge, ghost busy: Busy) returns (ghost v: Verdict, ghost trail: seq<Attempt>)
      requires Valid() && judge.working.None? && Undisturbed(busy)
      modifies this, judge`working, judge`dispatchId, judge`retryRequest
      modifies judges`working, judges`dispatchId, judges`retryRequest
      ensures Valid() && Progress(old(Snap()).(judges := old(judges) + {judge}), Snap(), trail)
      ensures Answered(old(asked), asked, trail) && Undisturbed(busy) && By(trail, old(judges) + {judge} - busy.Keys)
      ensures Ended(judge, old(Snap()).(judges := old(judges) + {judge}), v, trail)
      ensures old(Conserving({})) ==> Conserving(Attempts(trail))
    {
      ghost var others := if old(Conserving({})) then judges - {judge} else {};
      judges := judges + {judge};
      v, trail := ServeFree(judge, others, {}, busy);
      assert {} + Attempts(trail) == Attempts(trail);
    }

    method SetSupports(judge: Judge, supports: (string, string, SubmissionId) -> bool)
      requires Valid()
      modifies judge`supports
      ensures Valid() && judge.supports == supports
    {
      judge.supports := supports;
    }

    /** A judge reports a new problem list. */
    method UpdateProblems(judge: Judge, supports: (string, string, SubmissionId) -> bool, ghost busy: Busy)
      returns (ghost v: Verdict, ghost trail: seq<Attempt>)
      requires Valid() && Undisturbed(busy)
      modifies this, judge`supports, judge`working, judge`dispatchId, judge`retryRequest
      modifies judges`working, judges`dispatchId, judges`retryRequest
      ensures Valid() && Progress(old(Snap()), Snap(), trail) && Answered(old(asked), asked, trail) && Undisturbed(busy)
      ensures By(trail, old(judges) + {judge} - busy.Keys)
      ensures judge.supports == supports && (old(judge.working).None? ==> Ended(judge, old(Snap()), v, trail))
      ensures old(judge.working).Some? ==> trail == [] && Snap() == old(Snap())
      ensures old(Conserving({})) ==> Conserving(Attempts(trail))
    {
      ghost var others := if old(Conserving({})) then judges - {judge} else {};
      SetSupports(judge, supports);
      v, trail := Spared, [];
      ProgressReflexive(Snap());
      if judge.working.None? {
        v, trail := ServeFree(judge, others, {}, busy);
      }
      assert {} + Attempts(trail) == Attempts(trail);
    }

    /** Every idle judge is tried again. From any state, this leaves no judge idle beside anything that it could take,
        except for what it has deferred, and for rejudges while one judge is kept in reserve. */
    method RetryQueued(ghost busy: Busy) returns (ghost trail: seq<Attempt>)
      requires Valid() && Undisturbed(busy)
      modifies this, judges`working, judges`dispatchId, judges`retryRequest
      ensures Valid() && Progress(old(Snap()), Snap(), trail) && Answered(old(asked), asked, trail) && Undisturbed(busy)
      ensures By(trail, old(judges) - busy.Keys) && Conserving(Attempts(trail)) && AllSatisfied(judges, Attempts(trail))
    {
      trail := HandleIdle({}, {}, {}, busy);
      assert {} + Attempts(trail) == Attempts(trail);
    }

    // The scheduler's state once a judge has let go of its submission.
    ghost function Released(s: Snapshot, id: SubmissionId): Snapshot {
      s.(submissionMap := s.submissionMap - {id},
         dispatchIds := if id in s.nodeMap then s.dispatchIds else s.dispatchIds - {id})
    }

    // The judge stops working on the submission that it is assigned.
    method Release(judge: Judge, id: SubmissionId)
      requires Valid() && id in submissionMap && submissionMap[id] == judge
      modifies `submissionMap, `dispatchIds, judge`working
      ensures Valid() && judge.working.None? && Snap() == Released(old(Snap()), id)
      ensures forall j :: j in judges && j != judge && old(Covered(j, {})) ==> Covered(j, {})
    {
      submissionMap := submissionMap - {id};
      if id !in nodeMap {
        dispatchIds := dispatchIds - {id};
      }
      judge.working := None;
    }

    /** A judge finished. It is released if and only if the submission is assigned to it, and
        then it is served at once. */
    method OnJudgeFree(judge: Judge, id: SubmissionId, ghost busy: Busy)
      returns (released: bool, ghost v: Verdict, ghost trail: seq<Attempt>)
      requires Valid() && Undisturbed(busy) && judge !in busy
      modifies this, judge`working, judge`dispatchId, judge`retryRequest
      modifies judges`working, judges`dispatchId, judges`retryRequest
      ensures Valid() && Answered(old(asked), asked, trail) && Undisturbed(busy)
      ensures By(trail, old(judges) + {judge} - busy.Keys)
      ensures released <==> Lookup(old(submissionMap), id) == Some(judge)
      ensures !released ==> Snap() == old(Snap()) && judge.working == old(judge.working) && trail == []
      ensures released ==> Progress(Released(old(Snap()), id), Snap(), trail)
      ensures released ==> Ended(judge, Released(old(Snap()), id), v, trail)
      ensures old(Conserving({})) ==> Conserving(Attempts(trail))
    {
      v, trail := Spared, [];
      released := id in submissionMap && submissionMap[id] == judge;
      if released {
        ghost var others := if old(Conserving({})) then judges - {judge} else {};
        Release(judge, id);
        v, trail := ServeFree(judge, others, {}, busy);
      }
      assert {} + Attempts(trail) == Attempts(trail);
    }

    method Leave(judge: Judge)
      requires Valid()
      modifies `submissionMap, `judges
      ensures Valid() && judge !in submissionMap.Values && Snap() == old(Gone(Snap(), judge, judge.working))
      ensures old(Conserving({})) ==> Conserving({})
    {
      Vacate(judge);
      judges := judges - {judge};
    }

    // Nothing stays assigned to the judge.
    method Vacate(judge: Judge)
      requires Valid()
      modifies `submissionMap
      ensures Valid() && judge !in submissionMap.Values
      ensures submissionMap == if judge.working.Some? && Lookup(old(submissionMap), judge.working.value) == Some(judge)
                               then old(submissionMap) - {judge.working.value} else old(submissionMap)
    {
      if judge.working.Some? {
        Unassign(judge.working.value, judge);
      }
    }

    // The scheduler's state once a judge has gone.
    ghost function Gone(s: Snapshot, judge: Judge, working: Option<SubmissionId>): Snapshot {
      s.(judges := s.judges - {judge},
         submissionMap := if working.Some? && Lookup(s.submissionMap, working.value) == Some(judge)
                          then s.submissionMap - {working.value} else s.submissionMap)
    }

    /** A judge disconnects, and nothing is assigned to it any more. If one judge is left and
        idle, the reservation no longer holds work back from it, and it is served at once. */
    method Remove(judge: Judge, ghost busy: Busy) returns (ghost v: Verdict, ghost trail: seq<Attempt>)
      requires Valid() && Undisturbed(busy)
      modifies this, judges`working, judges`dispatchId, judges`retryRequest
      ensures Valid() && judge !in judges && judge !in submissionMap.Values
      ensures Progress(old(Gone(Snap(), judge, judge.working)), Snap(), trail)
      ensures Answered(old(asked), asked, trail) && Undisturbed(busy) && By(trail, old(judges) - {judge} - busy.Keys)
      ensures forall last :: old(judges) - {judge} == {last} && old(last.working).None? ==>
        Ended(last, old(Gone(Snap(), judge, judge.working)), v, trail)
      ensures (forall last :: old(judges) - {judge} == {last} ==> old(last.working).Some?) ==>
        trail == [] && Snap() == old(Gone(Snap(), judge, judge.working))
      ensures old(Conserving({})) ==> Conserving(Attempts(trail))
    {
      Leave(judge);
      v, trail := Spared, [];
      ProgressReflexive(Snap());
      assert Attempts([]) == {};
      if |judges| == 1 {
        var last :| last in judges;
        OnlyMember(judges, last);
        if last.working.None? {
          v, trail := ServeLast(last, judge, busy);
        }
      }
    }

    // Serves the last judge; nothing is assigned to the one that is gone.
    method ServeLast(last: Judge, ghost gone: Judge, ghost busy: Busy)
      returns (ghost v: Verdict, ghost trail: seq<Attempt>)
      requires Valid() && last.working.None? && judges == {last} && gone != last && gone !in submissionMap.Values
      requires Undisturbed(busy)
      modifies this, judges`working, judges`dispatchId, judges`retryRequest
      ensures Valid() && Progress(old(Snap()), Snap(), trail) && Ended(last, old(Snap()), v, trail)
      ensures Answered(old(asked), asked, trail) && Undisturbed(busy) && By(trail, {last} - busy.Keys)
      ensures gone !in submissionMap.Values
      ensures Conserving(Attempts(trail))
    {
      ghost var before := submissionMap;
      v, trail := ServeFree(last, {}, {}, busy);
      NeverAssigned(before, submissionMap, trail, gone);
      assert {} + Attempts(trail) == Attempts(trail);
      assert {last} + {last} == {last};
    }

    lemma NeverAssigned(before: map<SubmissionId, Judge>, after: map<SubmissionId, Judge>, trail: seq<Attempt>,
                        j: Judge)
      requires Assigned(before, after, trail) && j !in before.Values && forall a :: a in trail ==> a.judge != j
      ensures j !in after.Values
    {
      forall id | id in after ensures after[id] != j {
        if id in Ids(trail) {
          assert Attempt(after[id], id, Ok) in trail;
        } else {
          assert Lookup(after, id) == Lookup(before, id);
        }
      }
    }

    /** An abort reaches the worker if the submission is assigned; else the submission is no
        longer queued. */
    method Abort(id: SubmissionId) returns (sent: bool)
      requires Valid()
      modifies `queue, `nodeMap, `dispatchIds
      ensures Valid()
      ensures sent <==> id in submissionMap
      ensures sent ==> Snap() == old(Snap())
      ensures !sent ==> id !in nodeMap && nodeMap == old(nodeMap) - {id}
      ensures !sent ==> dispatchIds == if id in old(nodeMap) then old(dispatchIds) - {id} else old(dispatchIds)
      ensures old(Conserving({})) ==> Conserving({})
    {
      sent := id in submissionMap;
      if !sent && id in nodeMap {
        DropAborted(id);
      }
    }

    method DropAborted(id: SubmissionId)
      requires Valid() && id !in submissionMap && id in nodeMap
      modifies `queue, `nodeMap, `dispatchIds
      ensures Valid() && nodeMap == old(nodeMap) - {id} && dispatchIds == old(dispatchIds) - {id}
      ensures old(Conserving({})) ==> Conserving({})
    {
      DropEntry(id);
      Forget(id);
    }

    method DropEntry(id: SubmissionId)
      requires Valid() && id in nodeMap
      modifies `queue, `nodeMap
      ensures Valid() && nodeMap == old(nodeMap) - {id}
      ensures old(Conserving({})) ==> Conserving({})
    {
      ghost var q := queue;
      Unlink(id);
      StillNothingUrgent(judges, q, queue, stamps, {}, {});
    }

    method Forget(id: SubmissionId)
      requires Valid() && id !in nodeMap
      modifies `dispatchIds
      ensures Valid() && dispatchIds == old(dispatchIds) - {id}
    {
      dispatchIds := dispatchIds - {id};
    }

    method TakeBack(judge: Judge, id: SubmissionId)
      requires Valid() && Lookup(submissionMap, id) == Some(judge)
      modifies `submissionMap, `dispatchIds, judge`working
      ensures Valid() && judge.working.None?
      ensures Snap() == old(Snap()).(submissionMap := old(submissionMap) - {id}, dispatchIds := old(dispatchIds) - {id})
    {
      Unassign(id, judge);
      judge.working := None;
      dispatchIds := dispatchIds - {id};
    }

    /** A remote judge gives its submission back, to run under a new token. A rejudge that is
        already queued takes its place, but the token recorded for that rejudge is dropped. */
    method Defer(judge: Judge, id: SubmissionId, token: Token, ghost busy: Busy) returns (ghost trail: seq<Attempt>)
      requires Valid() && Undisturbed(busy) && judge !in busy
      modifies this, judge`working, judge`dispatchId, judge`retryRequest
      modifies judges`working, judges`dispatchId, judges`retryRequest
      ensures Valid() && Answered(old(asked), asked, trail) && Undisturbed(busy) && By(trail, old(judges) - busy.Keys)
      ensures Lookup(old(submissionMap), id) != Some(judge) ==> Snap() == old(Snap()) && trail == []
      ensures Lookup(old(submissionMap), id) == Some(judge) && id in old(nodeMap) ==>
        && judge.working.None? && trail == []
        && Snap() == old(Snap()).(submissionMap := old(submissionMap) - {id}, dispatchIds := old(dispatchIds) - {id})
      ensures Lookup(old(submissionMap), id) == Some(judge) && id !in old(nodeMap) ==>
        old(judge.retryRequest.Some?) && old(judge.retryRequest.value.request.id) == id &&
        Admitted(old(Snap()).(submissionMap := old(submissionMap) - {id}, dispatchIds := old(dispatchIds) - {id}),
                 Snap(), old(judge.retryRequest.value.request), trail) &&
        Placed(old(clock), Snap(), old(judge.retryRequest.value.request), old(judge.retryRequest.value.priority),
               Some(token)) &&
        (id in nodeMap ==> ArrivedLast(id)) && OthersTried(trail) &&
        HeldBack(old(judge.retryRequest.value.request), old(judge.retryRequest.value.priority), trail)
    {
      trail := [];
      if id !in submissionMap || submissionMap[id] != judge {
        return;
      }
      var retry := judge.retryRequest.value;
      TakeBack(judge, id);
      if id !in nodeMap {
        trail := JudgeRequest(retry.request, retry.priority, Some(token), busy);
      }
    }

    // A judge whose connection is lost is taken out before it gives its submission back.
    method Discard(judge: Judge)
      requires Valid()
      modifies `judges
      ensures Valid() && Snap() == old(Snap()).(judges := old(judges) - {judge})
      ensures old(Conserving({})) ==> Conserving({})
    {
      judges := judges - {judge};
    }

    method SetDisabled(j: Judge, isDisabled: bool)
      requires Valid()
      modifies j`isDisabled
      ensures Valid() && j.isDisabled == isDisabled
    {
      j.isDisabled := isDisabled;
    }

    // One judge is disabled or enabled, and served if that made it idle.
    method Toggle(j: Judge, isDisabled: bool, ghost told: set<Attempt>, ghost busy: Busy)
      returns (ghost v: Verdict, ghost trail: seq<Attempt>)
      requires Valid() && j in judges && Undisturbed(busy)
      modifies this, j`isDisabled, judges`working, judges`dispatchId, judges`retryRequest
      ensures Valid() && Progress(old(Snap()), Snap(), trail) && Answered(old(asked), asked, trail) && Undisturbed(busy)
      ensures j.isDisabled == isDisabled && By(trail, old(judges) - busy.Keys)
      ensures isDisabled ==> trail == [] && judges == old(judges)
      ensures !isDisabled && old(j.working).None? ==> Ended(j, old(Snap()), v, trail)
      ensures old(Conserving(told)) ==> Conserving(told + Attempts(trail))
    {
      ghost var others := if old(Conserving(told)) then judges - {j} else {};
      SetDisabled(j, isDisabled);
      v, trail := Spared, [];
      ProgressReflexive(Snap());
      assert told + Attempts([]) == told;
      if !isDisabled && j.working.None? {
        v, trail := ServeFree(j, others, told, busy);
      }
    }

    // The same as one more step since s.
    method ToggleNext(j: Judge, isDisabled: bool, ghost s: Snapshot, ghost soFar: seq<Attempt>, ghost conserved: bool,
                      ghost busy: Busy)
      returns (ghost v: Verdict, ghost trail: seq<Attempt>)
      requires Valid() && j in judges && Progress(s, Snap(), soFar) && Answered(s.asked, asked, soFar)
      requires Undisturbed(busy) && By(soFar, judges - busy.Keys) && (conserved ==> Conserving(Attempts(soFar)))
      modifies this, j`isDisabled, judges`working, judges`dispatchId, judges`retryRequest
      ensures Valid() && Progress(s, Snap(), trail) && Answered(s.asked, asked, trail) && Undisturbed(busy)
      ensures judges <= old(judges) && (isDisabled ==> judges == old(judges)) && j.isDisabled == isDisabled
      ensures By(trail, old(judges) - busy.Keys) && (conserved ==> Conserving(Attempts(trail)))
      ensures soFar == [] && !isDisabled && old(j.working).None? ==> Ended(j, old(Snap()), v, trail)
    {
      ghost var t := Snap();
      ghost var more;
      v, more := Toggle(j, isDisabled, Attempts(soFar), busy);
      Joined(s, t, Snap(), soFar, more, old(judges) - busy.Keys);
      trail := soFar + more;
      assert soFar == [] ==> trail == more;
    }

    // Halfway through: those of the name that are not left are as they should be, all others as they were.
    ghost predicate Toggling(name: string, isDisabled: bool, all: set<Judge>, left: set<Judge>, disabled: set<Judge>)
      reads all`isDisabled
    {
      forall j :: j in all ==>
        if j.name != name then j.isDisabled == (j in disabled) else j in left || j.isDisabled == isDisabled
    }

    // The only judge of the name, if it is idle and is to be enabled.
    ghost function SoleIdle(name: string, isDisabled: bool): (sole: Option<Judge>)
      reads `judges, judges`working
      ensures sole.Some? ==> sole.value in judges && sole.value.working.None? && !isDisabled && sole.value.name == name
      ensures sole.Some? ==> forall k :: k in judges && k.name == name ==> k == sole.value
      ensures forall j :: j in judges && IsSole(j, name) && !isDisabled && j.working.None? ==> sole == Some(j)
    {
      if !isDisabled && exists j :: j in judges && j.working.None? && IsSole(j, name) then
        var j :| j in judges && j.working.None? && IsSole(j, name);
        Some(j)
      else None
    }

    ghost predicate IsSole(j: Judge, name: string)
      reads `judges
    {
      j.name == name && forall k :: k in judges && k.name == name ==> k == j
    }

    // It is as it was while it is still left, and has been served when it is not.
    ghost predicate SoleServed(j: Judge, left: set<Judge>, s: Snapshot, v: Verdict, trail: seq<Attempt>)
      reads this, j, judges
    {
      if j in left then trail == [] && Snap() == s && j.working.None? else Ended(j, s, v, trail)
    }

    // One round of the loop.
    method ToggleRound(j: Judge, name: string, isDisabled: bool, size: nat, ghost left: set<Judge>,
                       ghost all: set<Judge>, ghost disabled: set<Judge>, ghost s: Snapshot, ghost soFar: seq<Attempt>,
                       ghost conserved: bool, ghost sole: Option<Judge>, ghost busy: Busy)
      returns (ok: bool, ghost v: Verdict, ghost trail: seq<Attempt>)
      requires j.name == name
      requires sole.Some? ==> sole.value == j && !isDisabled && SoleServed(j, left + {j}, s, Spared, soFar)
      requires Valid() && j in judges && judges == all && size == |all| && Progress(s, Snap(), soFar)
      requires Answered(s.asked, asked, soFar) && Undisturbed(busy) && By(soFar, all - busy.Keys)
      requires Toggling(name, isDisabled, all, left + {j}, disabled) && j !in left
      requires conserved ==> Conserving(Attempts(soFar))
      modifies this, j`isDisabled, judges`working, judges`dispatchId, judges`retryRequest
      ensures Valid() && Progress(s, Snap(), trail) && Answered(s.asked, asked, trail) && Undisturbed(busy)
      ensures By(trail, all - busy.Keys)
      ensures Toggling(name, isDisabled, all, left, disabled)
      ensures if ok then judges == all else judges != all
      ensures isDisabled ==> ok
      ensures conserved ==> Conserving(Attempts(trail))
      ensures sole.Some? ==> SoleServed(j, left, s, v, trail)
    {
      v, trail := ToggleNext(j, isDisabled, s, soFar, conserved, busy);
      SubsetSize(judges, all);
      ok := |judges| == size;
    }

    /** Judges of a name are disabled or enabled. The loop runs over the live set, so a dispatch
        that fails and takes a judge out ends it with an exception: exactly then it is cut short. */
    method UpdateDisableJudge(name: string, isDisabled: bool, ghost busy: Busy)
      returns (ok: bool, ghost v: Verdict, ghost trail: seq<Attempt>)
      requires Valid() && Undisturbed(busy)
      modifies this, judges`isDisabled, judges`working, judges`dispatchId, judges`retryRequest
      ensures Valid() && Progress(old(Snap()), Snap(), trail) && Answered(old(asked), asked, trail) && Undisturbed(busy)
      ensures By(trail, old(judges) - busy.Keys)
      ensures forall j :: j in old(judges) && j.name != name ==> j.isDisabled == old(j.isDisabled)
      ensures ok ==> forall j :: j in old(judges) && j.name == name ==> j.isDisabled == isDisabled
      ensures ok <==> NoFailure(trail)
      ensures isDisabled ==> ok
      ensures old(Conserving({})) ==> Conserving(Attempts(trail))
      ensures old(SoleIdle(name, isDisabled)).Some? ==>
        Ended(old(SoleIdle(name, isDisabled)).value, old(Snap()), v, trail)
    {
      ghost var s, all, disabled := Snap(), judges, (set j | j in judges && j.isDisabled);
      ghost var conserved, sole := Conserving({}), SoleIdle(name, isDisabled);
      ok, v, trail := ToggleAll(name, isDisabled, disabled, conserved, sole, busy);
      LossIsFailure(s, Snap(), trail);
    }

    // The loop.
    method ToggleAll(name: string, isDisabled: bool, ghost disabled: set<Judge>, ghost conserved: bool,
                     ghost sole: Option<Judge>, ghost busy: Busy)
      returns (ok: bool, ghost v: Verdict, ghost trail: seq<Attempt>)
      requires Valid() && Undisturbed(busy) && (conserved ==> Conserving({}))
      requires Toggling(name, isDisabled, judges, judges, disabled)
      requires sole.Some? ==>
        && sole.value in judges && sole.value.working.None? && !isDisabled && sole.value.name == name
        && forall k :: k in judges && k.name == name ==> k == sole.value
      modifies this, judges`isDisabled, judges`working, judges`dispatchId, judges`retryRequest
      ensures Valid() && Progress(old(Snap()), Snap(), trail) && Answered(old(asked), asked, trail) && Undisturbed(busy)
      ensures By(trail, old(judges) - busy.Keys) && (if ok then judges == old(judges) else judges != old(judges))
      ensures exists left :: Toggling(name, isDisabled, old(judges), left, disabled) && (ok ==> left == {})
      ensures isDisabled ==> ok
      ensures conserved ==> Conserving(Attempts(trail))
      ensures sole.Some? && ok ==> Ended(sole.value, old(Snap()), v, trail)
      ensures sole.Some? && !ok ==> trail == [] || Ended(sole.value, old(Snap()), v, trail)
    {
      ghost var s, all := Snap(), judges;
      ProgressReflexive(s);
      var rest, size := judges, |judges|;
      trail, ok, v := [], true, Spared;
      assert Attempts([]) == {};
      while rest != {} && ok
        invariant rest <= all && Toggling(name, isDisabled, all, rest, disabled)
        invariant Valid() && Progress(s, Snap(), trail) && Answered(s.asked, asked, trail) && By(trail, all - busy.Keys)
        invariant (if ok then judges == all else judges != all) && (isDisabled ==> ok) && Undisturbed(busy)
        invariant conserved ==> Conserving(Attempts(trail))
        invariant sole.Some? ==> SoleServed(sole.value, rest, s, v, trail)
        decreases |rest|
      {
        var j :| j in rest;
        rest := rest - {j};
        if j.name == name {
          ok, v, trail := ToggleRound(j, name, isDisabled, size, rest, all, disabled, s, trail, conserved, sole, busy);
        }
      }
    }
  }

  // A request that any judge may take.
  predicate ForAnyone(r: Request) {
    r.judgeId.None? && r.banned == []
  }

  // The scheduler of the runs below: every dispatch succeeds, and the judges can judge everything.
  ghost predicate Smooth(list: JudgeList, judge: Judge)
    reads judge`supports, judge`isDisabled
  {
    && (forall n :: list.Answer(n) == Ok) && !judge.isDisabled
    && forall problem, language, id :: judge.supports(problem, language, id)
  }

  lemma SomeAttempt(trail: seq<Attempt>)
    ensures trail == [] || exists a :: a in trail
  {
    if trail != [] {
      assert trail[0] in trail;
    }
  }

  // A judge joins a fresh scheduler.
  method JudgeJoined() returns (list: JudgeList, judge: Judge)
    ensures fresh(list) && fresh(judge) && list.Valid() && Smooth(list, judge) && judge.working.None?
    ensures list.judges == {judge} && list.nodeMap == map[] && list.submissionMap == map[]
  {
    list := new JudgeList(n => Ok);
    judge := new Judge("judge", (problem, language, id) => true);
    ghost var v, trail := list.Register(judge, map[]);
    SomeAttempt(trail);
  }

  // It is given submission 1 under token 10.
  method OneAssigned(r: Request) returns (list: JudgeList, judge: Judge)
    requires r.id == 1 && ForAnyone(r)
    ensures fresh(list) && fresh(judge) && list.Valid() && Smooth(list, judge) && list.judges == {judge}
    ensures list.submissionMap == map[1 := judge] && list.nodeMap == map[]
    ensures judge.dispatchId == Some(10) && judge.retryRequest == Some(Retry(r, 1))
  {
    list, judge := JudgeJoined();
    GivenOne(list, judge, r);
  }

  method GivenOne(list: JudgeList, judge: Judge, r: Request)
    requires list.Valid() && Smooth(list, judge) && judge.working.None? && r.id == 1 && ForAnyone(r)
    requires list.judges == {judge} && list.nodeMap == map[] && list.submissionMap == map[]
    modifies list, judge`working, judge`dispatchId, judge`retryRequest
    ensures list.Valid() && list.judges == {judge} && list.submissionMap == map[1 := judge] && list.nodeMap == map[]
    ensures judge.dispatchId == Some(10) && judge.retryRequest == Some(Retry(r, 1))
  {
    ghost var free, answer := list.Free(r), list.Answer(list.asked);
    assert judge in free;
    ghost var trail := list.JudgeRequest(r, 1, Some(10), map[]);
    assert trail[0].outcome == answer;
  }

  // Another run of it is requested with token 11 meanwhile, and waits.
  method RunWaits(r: Request, priority: nat) returns (list: JudgeList, judge: Judge)
    requires r.id == 1 && ForAnyone(r) && priority < PRIORITIES
    ensures fresh(list) && fresh(judge) && list.Valid() && Smooth(list, judge) && list.judges == {judge}
    ensures list.submissionMap == map[1 := judge] && Lookup(list.dispatchIds, 1) == Some(11)
    ensures list.nodeMap == map[1 := Entry(r)] && 1 in list.stamps && list.stamps[1].priority == priority
  {
    list, judge := OneAssigned(r);
    ghost var s := list.Snap();
    ghost var trail := list.JudgeRequest(r, priority, Some(11), map[]);
    OnlyEntry(list, s, r, trail);
  }

  lemma OnlyEntry(list: JudgeList, s: Snapshot, r: Request, trail: seq<Attempt>)
    requires list.QueueOk() && Admitted(s, list.Snap(), r, trail) && Lookup(list.nodeMap, r.id) == Some(Entry(r))
    requires forall n :: n in s.queue ==> n.Marker?
    ensures list.nodeMap == map[r.id := Entry(r)]
  {
    assert forall id :: id in list.nodeMap ==> list.nodeMap[id] in list.queue;
  }

  /** A run in which a rejudge loses its token: it is still queued, but without a token, once the judge has given its
      own run back. */
  method RejudgeLosesToken(r: Request) returns (list: JudgeList)
    requires r.id == 1 && ForAnyone(r)
    ensures list.Valid() && 1 in list.nodeMap && 1 !in list.dispatchIds
  {
    var judge;
    list, judge := RunWaits(r, REJUDGE_PRIORITY);
    ghost var trail := list.Defer(judge, 1, 12, map[]);
  }

  // Another judge joins, and the new run goes to it.
  method RunOvertaken(r: Request) returns (list: JudgeList, first: Judge, second: Judge)
    requires r.id == 1 && ForAnyone(r)
    ensures fresh(list) && fresh(first) && fresh(second) && list.Valid() && list.judges <= {first, second}
    ensures first != second && first.working == Some(1) && Lookup(list.submissionMap, 1) == Some(second)
  {
    list, first := RunWaits(r, 1);
    second := new Judge("second", (problem, language, id) => true);
    SecondJoins(list, first, second, r);
  }

  method SecondJoins(list: JudgeList, first: Judge, second: Judge, r: Request)
    requires Smooth(list, second) && second != first && second.working.None? && first.working == Some(1)
    requires list.Valid() && Smooth(list, first) && list.judges == {first} && list.submissionMap == map[1 := first]
    requires list.nodeMap == map[1 := Entry(r)] && ForAnyone(r) && 1 in list.stamps && list.stamps[1].priority == 1
    modifies list, first`working, first`dispatchId, first`retryRequest
    modifies second`working, second`dispatchId, second`retryRequest
    ensures list.Valid() && list.judges <= {first, second}
    ensures first.working == Some(1) && Lookup(list.submissionMap, 1) == Some(second)
  {
    ghost var s := list.Snap().(judges := list.judges + {second});
    ghost var v, trail := list.Register(second, map[first := 1]);
    GoesToSecond(list, s, second, v, trail, r);
  }

  lemma GoesToSecond(list: JudgeList, s: Snapshot, second: Judge, v: Verdict, trail: seq<Attempt>, r: Request)
    requires list.Valid() && Smooth(list, second) && second in s.judges && list.Answered(s.asked, list.asked, trail)
    requires Progress(s, list.Snap(), trail) && list.Ended(second, s, v, trail) && ForAnyone(r)
    requires By(trail, {second})
    requires Entry(r) in s.queue && s.nodeMap == map[1 := Entry(r)] && r.id == 1
    requires 1 in s.stamps && s.stamps[1].priority == 1
    ensures Lookup(list.submissionMap, 1) == Some(second)
  {
    assert second.Takes(r) && ClassAt(Entry(r), s.stamps) == 1;
    SomeAttempt(trail);
    forall a | a in trail ensures a == Attempt(second, 1, Ok) {
      var i :| 0 <= i < |trail| && trail[i] == a;
      assert list.Answer(s.asked + i) == Ok;
    }
  }

  /** A run in which a judge is lost for good: it finishes a submission that has been given to another judge meanwhile,
      its release is refused, and it stays busy. */
  method WorkerStaysBusy(r: Request) returns (list: JudgeList, worker: Judge, released: bool)
    requires r.id == 1 && ForAnyone(r)
    ensures !released && worker.working == Some(1) && list.Valid() && Lookup(list.submissionMap, 1) != Some(worker)
  {
    var other;
    list, worker, other := RunOvertaken(r);
    ghost var v, trail;
    released, v, trail := list.OnJudgeFree(worker, 1, map[]);
  }
}
