/** The daemon's messages as plain sequences: what is kept, and what a filter lets through. */
module MessageLog {
  datatype Message = Message(id: int, channel: string, text: string)

  // The names that every JavaScript object answers to, and that therefore pass every filter.
  const INHERITED: set<string> := {
    "constructor", "toString", "toLocaleString", "valueOf", "hasOwnProperty", "isPrototypeOf", "propertyIsEnumerable",
    "__proto__", "__defineGetter__", "__defineSetter__", "__lookupGetter__", "__lookupSetter__" }

  predicate Passes(filter: set<string>, m: Message) {
    m.channel in filter || m.channel in INHERITED
  }

  // The message number i of a daemon that started at `base` has this id.
  function IdAt(base: int, i: nat): int {
    base + i + 1
  }

  ghost predicate Numbered(log: seq<Message>, base: int) {
    forall i :: 0 <= i < |log| ==> log[i].id == IdAt(base, i)
  }

  function Last(log: seq<Message>, n: nat): (r: seq<Message>)
    ensures |r| == if |log| < n then |log| else n
  {
    if |log| <= n then log else log[|log| - n..]
  }

  /** One more message pushes out the oldest one, when the log is full. */
  lemma LogNext(log: seq<Message>, m: Message, n: nat, base: int)
    requires n > 0 && Numbered(log, base) && m.id == base + |log| + 1
    ensures Last(log + [m], n) ==
            if |Last(log, n)| == n then (Last(log, n) + [m])[1..] else Last(log, n) + [m]
    ensures Numbered(log + [m], base)
  {
  }

  // ----- What a filter lets through -----

  // From message number `from` on.
  function Unread(log: seq<Message>, from: nat, filter: set<string>): seq<Message> {
    if |log| <= from then []
    else
      var m := log[|log| - 1];
      Unread(log[..|log| - 1], from, filter) + if Passes(filter, m) then [m] else []
  }

  lemma UnreadNext(log: seq<Message>, m: Message, from: nat, filter: set<string>)
    requires from <= |log|
    ensures Unread(log + [m], from, filter) == Unread(log, from, filter) + if Passes(filter, m) then [m] else []
  {
    assert (log + [m])[..|log|] == log;
  }

  ghost predicate Increasing(ms: seq<Message>) {
    forall i, j :: 0 <= i < j < |ms| ==> ms[i].id < ms[j].id
  }

  // All ids are above `low` and not above `high`.
  ghost predicate Within(ms: seq<Message>, low: int, high: int) {
    forall i :: 0 <= i < |ms| ==> low < ms[i].id <= high
  }

  /** Each message once and in order, and exactly those that the filter lets through. */
  lemma {:induction false} UnreadExactly(log: seq<Message>, from: nat, filter: set<string>, base: int)
    requires Numbered(log, base)
    ensures Increasing(Unread(log, from, filter)) && Within(Unread(log, from, filter), base + from, base + |log|)
    ensures forall i :: from <= i < |log| ==>
              (log[i] in Unread(log, from, filter) <==> log[i].channel in filter || log[i].channel in INHERITED)
  {
    if |log| > from {
      var rest, m := log[..|log| - 1], log[|log| - 1];
      UnreadExactly(rest, from, filter, base);
      forall i | from <= i < |rest| ensures log[i] in Unread(log, from, filter) <==> Passes(filter, log[i]) {
        assert rest[i] == log[i] && log[i].id != m.id;
      }
      NotAbove(Unread(rest, from, filter), base + from, base + |rest|, m);
    }
  }

  lemma NotAbove(ms: seq<Message>, low: int, high: int, m: Message)
    requires Within(ms, low, high) && m.id > high
    ensures m !in ms
  {
  }

  lemma {:induction false} UnreadFound(log: seq<Message>, from: nat, filter: set<string>, m: Message) returns (i: nat)
    requires m in Unread(log, from, filter)
    ensures from <= i < |log| && log[i] == m && Passes(filter, m)
  {
    var rest := log[..|log| - 1];
    i := |log| - 1;
    if m in Unread(rest, from, filter) {
      i := UnreadFound(rest, from, filter, m);
    }
  }

  // ----- Reading the retained messages -----

  // Among n messages of which the newest `kept` are retained, the first retained one whose id is above `last`.
  function Missed(n: nat, kept: nat, base: int, last: int): (i: nat)
    requires kept <= n
    ensures n - kept <= i <= n && forall k :: n - kept <= k < n ==> (k >= i <==> IdAt(base, k) > last)
  {
    if last - base <= n - kept then n - kept else if last - base >= n then n else last - base
  }

  datatype Reading = Reading(sent: seq<Message>, last: int)

  // A message above the last one seen is looked at, and sent if the filter lets it through.
  function ReadOne(r: Reading, m: Message, filter: set<string>): Reading {
    if m.id > r.last then Reading(r.sent + (if Passes(filter, m) then [m] else []), m.id) else r
  }

  function Read(ms: seq<Message>, r: Reading, filter: set<string>): Reading {
    if ms == [] then r else ReadOne(Read(ms[..|ms| - 1], r, filter), ms[|ms| - 1], filter)
  }

  lemma ReadNext(ms: seq<Message>, n: nat, r: Reading, filter: set<string>)
    requires n < |ms|
    ensures Read(ms[..n + 1], r, filter) == ReadOne(Read(ms[..n], r, filter), ms[n], filter)
  {
    assert ms[..n + 1][..n] == ms[..n];
  }

  lemma TailButLast(log: seq<Message>, lo: nat)
    requires lo < |log|
    ensures log[lo..][..|log| - lo - 1] == log[..|log| - 1][lo..] && log[lo..][|log| - lo - 1] == log[|log| - 1]
  {
  }

  lemma {:induction false} ReadTail(log: seq<Message>, lo: nat, from: nat, base: int, r: Reading, filter: set<string>)
    requires Numbered(log, base) && lo <= from && lo <= |log|
    requires forall k :: lo <= k < |log| ==> (k >= from <==> IdAt(base, k) > r.last)
    ensures Read(log[lo..], r, filter) ==
            Reading(r.sent + Unread(log, from, filter), if from < |log| then base + |log| else r.last)
  {
    if lo < |log| {
      var rest, m := log[..|log| - 1], log[|log| - 1];
      ReadTail(rest, lo, from, base, r, filter);
      TailButLast(log, lo);
      assert IdAt(base, |log| - 1) == m.id;
      if from < |log| {
        Appends(r.sent, Unread(rest, from, filter), if Passes(filter, m) then [m] else []);
      }
    }
  }

  lemma Appends(a: seq<Message>, b: seq<Message>, c: seq<Message>)
    ensures a + (b + c) == (a + b) + c
  {
  }

  lemma LastIsTail(log: seq<Message>, n: nat)
    ensures Last(log, n) == log[|log| - |Last(log, n)|..]
  {
  }

  /** Reading the retained messages finds exactly those above the last one seen. */
  lemma ReadRetained(log: seq<Message>, base: int, n: nat, r: Reading, filter: set<string>)
    requires Numbered(log, base)
    ensures var from := Missed(|log|, |Last(log, n)|, base, r.last);
            Read(Last(log, n), r, filter) ==
            Reading(r.sent + Unread(log, from, filter), if from < |log| then base + |log| else r.last)
  {
    LastIsTail(log, n);
    ReadTail(log, |log| - |Last(log, n)|, Missed(|log|, |Last(log, n)|, base, r.last), base, r, filter);
  }

  // ----- Long polls -----

  // The first message, if any.
  function First(ms: seq<Message>): seq<Message> {
    if ms == [] then [] else [ms[0]]
  }

  // A request reads the retained messages: the first one above `last` that it asks for.
  function Poll(ms: seq<Message>, last: int, channels: set<string>): seq<Message> {
    if ms == [] then []
    else
      var r, m := Poll(ms[..|ms| - 1], last, channels), ms[|ms| - 1];
      if r == [] && m.id > last && Passes(channels, m) then [m] else r
  }

  lemma PollNext(ms: seq<Message>, n: nat, last: int, channels: set<string>)
    requires n < |ms|
    ensures var r := Poll(ms[..n], last, channels);
            Poll(ms[..n + 1], last, channels) ==
            if r == [] && ms[n].id > last && Passes(channels, ms[n]) then [ms[n]] else r
  {
    assert ms[..n + 1][..n] == ms[..n];
  }

  lemma {:induction false} PollTail(log: seq<Message>, lo: nat, from: nat, base: int, last: int, channels: set<string>)
    requires Numbered(log, base) && lo <= from && lo <= |log|
    requires forall k :: lo <= k < |log| ==> (k >= from <==> IdAt(base, k) > last)
    ensures Poll(log[lo..], last, channels) == First(Unread(log, from, channels))
  {
    if lo < |log| {
      PollTail(log[..|log| - 1], lo, from, base, last, channels);
      TailButLast(log, lo);
      assert IdAt(base, |log| - 1) == log[|log| - 1].id;
    }
  }

  lemma PollRetained(log: seq<Message>, base: int, n: nat, last: int, channels: set<string>)
    requires Numbered(log, base)
    ensures Poll(Last(log, n), last, channels) ==
            First(Unread(log, Missed(|log|, |Last(log, n)|, base, last), channels))
  {
    LastIsTail(log, n);
    PollTail(log, |log| - |Last(log, n)|, Missed(|log|, |Last(log, n)|, base, last), base, last, channels);
  }

  /** The answer is a message that was asked for, message number i, nothing before it was, and there is none only if
      nothing was asked for. */
  lemma AnswerIsFirst(log: seq<Message>, from: nat, channels: set<string>, base: int) returns (i: nat)
    requires Numbered(log, base)
    ensures from <= i
    ensures forall j :: from <= j < i && j < |log| ==> !Passes(channels, log[j])
    ensures if i < |log| then First(Unread(log, from, channels)) == [log[i]] && Passes(channels, log[i])
            else First(Unread(log, from, channels)) == []
  {
    var all := Unread(log, from, channels);
    UnreadExactly(log, from, channels, base);
    i := from + |log|;
    if all != [] {
      i := UnreadFound(log, from, channels, all[0]);
      forall j | from <= j < i ensures !Passes(channels, log[j]) {
        NoneBelowFirst(all, log[j]);
      }
    }
  }

  lemma NoneBelowFirst(ms: seq<Message>, m: Message)
    requires Increasing(ms) && ms != [] && m.id < ms[0].id
    ensures m !in ms
  {
    forall k | 0 <= k < |ms| ensures ms[k] != m {
      assert ms[0].id <= ms[k].id;
    }
  }

  // ----- What a connection has been sent -----

  // `earlier` under its earlier filters, then everything from message number `since` on that its filter lets through.
  ghost predicate Delivered(sent: seq<Message>, earlier: seq<Message>, log: seq<Message>, since: nat,
                            filter: set<string>)
  {
    since <= |log| && sent == earlier + Unread(log, since, filter)
  }

  lemma DeliverNext(sent: seq<Message>, earlier: seq<Message>, log: seq<Message>, since: nat, filter: set<string>,
                    m: Message)
    requires Delivered(sent, earlier, log, since, filter)
    ensures Delivered(sent + (if Passes(filter, m) then [m] else []), earlier, log + [m], since, filter)
  {
    UnreadNext(log, m, since, filter);
    Appends(earlier, Unread(log, since, filter), if Passes(filter, m) then [m] else []);
  }

  /** From message number `since` on, exactly the messages that the filter lets through have been sent, each once and
      in order. */
  lemma SentExactly(sent: seq<Message>, earlier: seq<Message>, log: seq<Message>, since: nat, filter: set<string>,
                    base: int)
    requires Delivered(sent, earlier, log, since, filter) && Numbered(log, base)
    ensures |earlier| <= |sent| && Increasing(sent[|earlier|..])
    ensures forall i :: since <= i < |log| ==> (log[i] in sent[|earlier|..] <==> Passes(filter, log[i]))
  {
    assert sent[|earlier|..] == Unread(log, since, filter);
    UnreadExactly(log, since, filter, base);
  }

  /** A message posted now comes after everything sent so far. */
  lemma PostKeepsOrder(sent: seq<Message>, m: Message, filter: set<string>, base: int)
    requires Within(sent, base, m.id - 1) && base < m.id
    ensures var longer := sent + (if Passes(filter, m) then [m] else []);
            (Increasing(longer) <==> Increasing(sent)) && Within(longer, base, m.id)
  {
    var longer := sent + (if Passes(filter, m) then [m] else []);
    assert forall i :: 0 <= i < |sent| ==> longer[i] == sent[i];
  }

  // Some message that is read again lets itself be sent though it is not above the last one sent.
  ghost predicate Repeats(sent: seq<Message>, log: seq<Message>, from: nat, filter: set<string>) {
    sent != [] && exists i :: from <= i < |log| && log[i].id <= sent[|sent| - 1].id && Passes(filter, log[i])
  }

  lemma CatchUpWithin(sent: seq<Message>, log: seq<Message>, from: nat, filter: set<string>, base: int)
    requires Numbered(log, base) && Within(sent, base, base + |log|)
    ensures Within(sent + Unread(log, from, filter), base, base + |log|)
  {
    UnreadExactly(log, from, filter, base);
  }

  /** Catching up keeps everything sent once and in order if and only if it was so before and nothing is repeated. */
  lemma CatchUpOrder(sent: seq<Message>, log: seq<Message>, from: nat, filter: set<string>, base: int)
    requires Numbered(log, base)
    ensures Increasing(sent + Unread(log, from, filter)) <==> Increasing(sent) && !Repeats(sent, log, from, filter)
  {
    var more := Unread(log, from, filter);
    UnreadExactly(log, from, filter, base);
    FirstRepeats(sent, log, from, filter);
    if sent == [] || more == [] {
      assert sent + more == if sent == [] then more else sent;
      assert Increasing([]);
    } else {
      JoinIncreases(sent, more);
    }
  }

  // Something is repeated exactly when the first message that is sent again is.
  lemma FirstRepeats(sent: seq<Message>, log: seq<Message>, from: nat, filter: set<string>)
    requires Increasing(Unread(log, from, filter))
    requires forall i :: from <= i < |log| ==> (log[i] in Unread(log, from, filter) <==> Passes(filter, log[i]))
    ensures var more := Unread(log, from, filter);
            Repeats(sent, log, from, filter) <==> sent != [] && more != [] && more[0].id <= sent[|sent| - 1].id
  {
    var more := Unread(log, from, filter);
    if more != [] {
      var i := UnreadFound(log, from, filter, more[0]);
    }
    if Repeats(sent, log, from, filter) {
      var i :| from <= i < |log| && log[i].id <= sent[|sent| - 1].id && Passes(filter, log[i]);
      assert log[i] in more;
    }
  }

  lemma JoinIncreases(a: seq<Message>, b: seq<Message>)
    requires a != [] && b != [] && Increasing(b)
    ensures Increasing(a + b) <==> Increasing(a) && a[|a| - 1].id < b[0].id
  {
    var all := a + b;
    assert forall i :: 0 <= i < |a| ==> all[i] == a[i];
    assert forall i :: 0 <= i < |b| ==> all[|a| + i] == b[i];
    assert Increasing(all) ==> all[|a| - 1].id < all[|a|].id;
    if Increasing(a) && a[|a| - 1].id < b[0].id {
      forall i, j | 0 <= i < j < |all| ensures all[i].id < all[j].id {
        assert i < |a| ==> a[i].id <= a[|a| - 1].id;
        assert j >= |a| ==> b[0].id <= b[j - |a|].id;
      }
    }
  }

  /** A connection whose cursor is at or above the last message it was sent repeats nothing. */
  lemma NothingRepeated(sent: seq<Message>, log: seq<Message>, n: nat, base: int, last: int, filter: set<string>)
    requires Numbered(log, base)
    requires sent != [] ==> last >= sent[|sent| - 1].id
    ensures !Repeats(sent, log, Missed(|log|, |Last(log, n)|, base, last), filter)
  {
    var from := Missed(|log|, |Last(log, n)|, base, last);
    forall i | from <= i < |log| ensures log[i].id > last {
      assert log[i].id == IdAt(base, i);
    }
  }

  /** The failing input: one message, sent already, is read again by a connection whose cursor lies below it. */
  lemma LowCursorRepeats(log: seq<Message>, n: nat, base: int, last: int, filter: set<string>)
    requires Numbered(log, base) && |log| == 1 && n > 0 && last <= base && Passes(filter, log[0])
    ensures Missed(|log|, |Last(log, n)|, base, last) == 0
    ensures Unread(log, 0, filter) == log && !Increasing(log + log)
  {
    assert log[..0] == [] && log == [] + [log[0]];
    assert (log + log)[0].id == (log + log)[1].id;
  }
}
