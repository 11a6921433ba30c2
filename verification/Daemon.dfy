/** The websocket daemon: its log, the connections that follow it and the requests that wait for it. */
module Daemon {
  import opened MessageQueue
  import opened MessageLog

  // One websocket connection. The ghost fields say which part of the log it was promised, and whether it has set its
  // own cursor since it last heard of the log.
  class Client {
    var last: int
    var filter: set<string>
    var sent: seq<Message>
    ghost var earlier: seq<Message>
    ghost var since: nat
    ghost var moved: bool

    constructor ()
      ensures last == 0 && sent == [] && earlier == [] && !moved
    {
      last, filter, sent, earlier, since, moved := 0, {}, [], [], 0, false;
    }

    method GotMessage(m: Message)
      modifies this`sent, this`last, this`moved
      ensures sent == old(sent) + (if Passes(filter, m) then [m] else []) && last == m.id && !moved
    {
      if Passes(filter, m) {
        sent := sent + [m];
      }
      last, moved := m.id, false;
    }
  }

  // One long-poll request, answered at most once.
  class Poller {
    const channels: set<string>
    const last: int
    var answer: seq<Message>
    ghost var since: nat

    constructor (channels: set<string>, last: int)
      ensures this.channels == channels && this.last == last && answer == []
    {
      this.channels, this.last, answer, since := channels, last, [], 0;
    }

    // Nothing that was asked for has come since the wait began.
    ghost predicate Waits(log: seq<Message>)
      reads this
    {
      answer == [] && since <= |log| && First(Unread(log, since, channels)) == []
    }

    // The answer is the first message that was asked for.
    ghost predicate Answered(log: seq<Message>)
      reads this
    {
      since <= |log| && answer == First(Unread(log, since, channels)) != []
    }

    method GotMessage(m: Message, ghost log: seq<Message>) returns (got: bool)
      requires Waits(log)
      modifies this`answer
      ensures got == Passes(channels, m)
      ensures if got then Answered(log + [m]) else Waits(log + [m])
    {
      UnreadNext(log, m, since, channels);
      got := Passes(channels, m);
      if got {
        answer := [m];
      }
    }
  }

  class Daemon {
    const maxQueue: nat
    ghost const base: int
    const messages: Queue<Message>
    var messageId: int
    var followers: set<Client>
    var pollers: set<Poller>
    ghost var history: seq<Message>

    ghost predicate Log()
      reads this`messageId, this`history, messages, messages.items
    {
      && maxQueue > 0 && messages.Valid() && messages.Contents() == Last(history, maxQueue)
      && Numbered(history, base) && messageId == base + |history|
    }

    // Of a log, a follower has got what it was promised, and unless it moved its cursor it has seen all of it.
    ghost predicate Follows(c: Client, log: seq<Message>)
      reads c
    {
      && Delivered(c.sent, c.earlier, log, c.since, c.filter)
      && Within(c.sent, base, base + |log|)
      && (!c.moved ==> log == [] || c.last >= base + |log|)
    }

    ghost predicate AllFollow(cs: set<Client>, log: seq<Message>)
      reads cs
    {
      forall c :: c in cs ==> Follows(c, log)
    }

    ghost predicate AllWait(ps: set<Poller>, log: seq<Message>)
      reads ps
    {
      forall p :: p in ps ==> p.Waits(log)
    }

    ghost predicate Valid()
      reads this, messages, messages.items, followers, pollers
    {
      Log() && AllFollow(followers, history) && AllWait(pollers, history)
    }

    constructor (maxQueue: nat, now: int)
      requires maxQueue > 0
      ensures Valid() && history == [] && followers == {} && pollers == {} && base == now && this.maxQueue == maxQueue
      ensures fresh(messages) && fresh(messages.items)
    {
      this.maxQueue, base := maxQueue, now;
      messages := new Queue<Message>();
      messageId, followers, pollers, history := now, {}, {}, [];
    }

    // Numbers a message and keeps the newest ones.
    method Record(channel: string, text: string) returns (m: Message)
      requires Log()
      modifies this`messageId, this`history, messages, messages.items
      ensures Log() && history == old(history) + [m] && m == Message(messageId, channel, text)
      ensures messageId == old(messageId) + 1
      ensures forall item :: item in messages.items ==> item in old(messages.items) || fresh(item)
    {
      messageId := messageId + 1;
      m := Message(messageId, channel, text);
      ghost var longer := history + [m];
      LogNext(history, m, maxQueue, base);
      Keep(m);
      assert messages.Contents() == Last(longer, maxQueue);
      history := longer;
    }

    method Keep(m: Message)
      requires messages.Valid() && |messages.Contents()| <= maxQueue
      modifies messages, messages.items
      ensures messages.Valid()
      ensures messages.Contents() ==
              if |old(messages.Contents())| == maxQueue then (old(messages.Contents()) + [m])[1..]
                 else old(messages.Contents()) + [m]
      ensures forall item :: item in messages.items ==> item in old(messages.items) || fresh(item)
    {
      messages.Push(m);
      ghost var all := messages.items;
      assert forall item :: item in all ==> item in old(messages.items) || fresh(item);
      if messages.length > maxQueue {
        var oldest := messages.Pop();
      }
    }

    method TellFollowers(m: Message, ghost log: seq<Message>)
      requires AllFollow(followers, log) && m.id == base + |log| + 1
      modifies followers`sent, followers`last, followers`moved
      ensures AllFollow(followers, log + [m]) && forall c :: c in followers ==> TellOne(c, m)
    {
      var left := followers;
      while left != {}
        invariant left <= followers && AllFollow(left, log)
        invariant forall c :: c in left ==> c.sent == old(c.sent)
        invariant AllFollow(followers - left, log + [m]) && forall c :: c in followers - left ==> TellOne(c, m)
      {
        var c :| c in left;
        TellFollower(c, m, log);
        left := left - {c};
      }
    }

    method TellFollower(c: Client, m: Message, ghost log: seq<Message>)
      requires Follows(c, log) && m.id == base + |log| + 1
      modifies c`sent, c`last, c`moved
      ensures Follows(c, log + [m]) && TellOne(c, m)
    {
      DeliverNext(c.sent, c.earlier, log, c.since, c.filter, m);
      PostKeepsOrder(c.sent, m, c.filter, base);
      c.GotMessage(m);
    }

    // A follower that is told of a message gets it if its filter lets it through, has seen it, and what it was sent
    // is in order exactly if it was before.
    twostate predicate TellOne(c: Client, m: Message)
      reads c
    {
      && c.sent == old(c.sent) + (if Passes(c.filter, m) then [m] else []) && c.last == m.id && !c.moved
      && (Increasing(c.sent) <==> old(Increasing(c.sent)))
    }

    // Answers every waiting request that asks for the message; it no longer waits.
    method AnswerPollers(m: Message, ghost log: seq<Message>)
      requires AllWait(pollers, log)
      modifies this`pollers, pollers`answer
      ensures pollers == set p | p in old(pollers) && !Passes(p.channels, m)
      ensures AllWait(pollers, log + [m])
      ensures forall p :: p in old(pollers) - pollers ==> p.Answered(log + [m])
    {
      var left := pollers;
      ghost var all := pollers;
      while left != {}
        invariant left <= all && pollers <= all
        invariant forall p :: p in all ==> (p in pollers <==> p in left || !Passes(p.channels, m))
        invariant forall p :: p in left ==> p.Waits(log)
        invariant forall p :: p in all - left ==>
                    if Passes(p.channels, m) then p.Answered(log + [m]) else p.Waits(log + [m])
        modifies this`pollers, all`answer
      {
        var p :| p in left;
        var got := p.GotMessage(m, log);
        if got {
          pollers := pollers - {p};
        }
        left := left - {p};
      }
    }

    method Broadcast(m: Message, ghost log: seq<Message>)
      requires AllFollow(followers, log) && AllWait(pollers, log) && m.id == base + |log| + 1
      modifies this`pollers, followers`sent, followers`last, followers`moved, pollers`answer
      ensures AllFollow(followers, log + [m]) && AllWait(pollers, log + [m])
      ensures forall c :: c in followers ==> TellOne(c, m)
      ensures pollers == set p | p in old(pollers) && !Passes(p.channels, m)
      ensures forall p :: p in old(pollers) - pollers ==> p.Answered(log + [m])
    {
      TellFollowers(m, log);
      AnswerPollers(m, log);
    }

    /** Posts a message: the log takes it, every follower is told, and the requests that waited for it are answered. */
    method MessagesPost(channel: string, text: string) returns (id: int)
      requires Valid()
      modifies this`messageId, this`history, this`pollers, messages, messages.items
      modifies followers`sent, followers`last, followers`moved, pollers`answer
      ensures Valid() && history == old(history) + [Message(id, channel, text)]
      ensures forall c :: c in followers ==> TellOne(c, Message(id, channel, text))
      ensures pollers == set p | p in old(pollers) && !Passes(p.channels, Message(id, channel, text))
      ensures forall p :: p in old(pollers) - pollers ==> p.Answered(history)
    {
      ghost var log := history;
      var m := Record(channel, text);
      Broadcast(m, log);
      id := m.id;
    }

    // Where a connection or request that has seen everything up to `last` has to start reading.
    ghost function Start(last: int): (i: nat)
      reads this`history
      ensures i <= |history|
    {
      Missed(|history|, |Last(history, maxQueue)|, base, last)
    }

    lemma StartsAtFirst(last: int)
      requires Log() && |history| == 1 && last <= base
      ensures Start(last) == 0
    {
    }

    // Walks over the retained messages.
    method ReadAll(c: Client)
      requires messages.Valid()
      modifies c`sent, c`last, c`moved
      ensures Reading(c.sent, c.last) == Read(messages.Contents(), Reading(old(c.sent), old(c.last)), c.filter)
      ensures c.moved ==> old(c.moved)
    {
      ghost var kept, r, n := messages.Contents(), Reading(c.sent, c.last), 0;
      var item := messages.head;
      while item != null
        invariant n <= |kept| && item == At(messages.items, n)
        invariant Reading(c.sent, c.last) == Read(kept[..n], r, c.filter) && (c.moved ==> old(c.moved))
        decreases |kept| - n
      {
        ReadNext(kept, n, r, c.filter);
        ReadItem(c, item.data);
        item := item.next;
        n := n + 1;
      }
      assert kept[..|kept|] == kept;
    }

    method ReadItem(c: Client, m: Message)
      modifies c`sent, c`last, c`moved
      ensures Reading(c.sent, c.last) == ReadOne(Reading(old(c.sent), old(c.last)), m, c.filter)
      ensures c.moved ==> old(c.moved)
    {
      if m.id > c.last {
        c.GotMessage(m);
      }
    }

    // The messages that a connection missed, as far as they are retained.
    method MessagesCatchUp(c: Client) returns (ghost from: nat)
      requires Log()
      modifies c`sent, c`last, c`moved
      ensures from == Start(old(c.last)) && c.sent == old(c.sent) + Unread(history, from, c.filter)
      ensures c.last >= messageId || history == []
    {
      from := Start(c.last);
      ReadRetained(history, base, maxQueue, Reading(c.sent, c.last), c.filter);
      ReadAll(c);
    }

    /** A connection chooses its channels and catches up with the log; an empty choice is refused. What it was sent is
        in order afterwards exactly if it was before and the cursor does not make it repeat anything. */
    method SetFilter(c: Client, channels: seq<string>) returns (ok: bool, ghost from: nat)
      requires Valid() && (c in followers || c.sent == [])
      modifies this`followers, c
      ensures Valid() && ok == (channels != []) && from == Start(old(c.last))
      ensures followers == if ok then old(followers) + {c} else old(followers)
      ensures !ok ==> c.sent == old(c.sent) && c.filter == old(c.filter)
      ensures ok ==> c.filter == (set ch | ch in channels) && !c.moved && c.earlier == old(c.sent) && c.since == from
      ensures ok ==> c.sent == old(c.sent) + Unread(history, from, c.filter)
      ensures ok ==> (Increasing(c.sent) <==> old(Increasing(c.sent)) && !Repeats(old(c.sent), history, from, c.filter))
    {
      ghost var sent := c.sent;
      ok, from := ChooseChannels(c, channels);
      if ok {
        CatchUpOrder(sent, history, from, c.filter, base);
      }
    }

    method ChooseChannels(c: Client, channels: seq<string>) returns (ok: bool, ghost from: nat)
      requires Valid() && (c in followers || c.sent == [])
      modifies this`followers, c
      ensures Valid() && ok == (channels != []) && from == Start(old(c.last))
      ensures followers == if ok then old(followers) + {c} else old(followers)
      ensures !ok ==> c.sent == old(c.sent) && c.filter == old(c.filter)
      ensures ok ==> c.filter == (set ch | ch in channels) && !c.moved && c.earlier == old(c.sent) && c.since == from
      ensures ok ==> c.sent == old(c.sent) + Unread(history, from, c.filter)
    {
      ok, from := channels != [], Start(c.last);
      if ok {
        ghost var others := followers - {c};
        from := Subscribe(c, (set ch | ch in channels), others);
        Enrol(c);
      }
    }

    method Enrol(c: Client)
      requires Log() && AllFollow(followers - {c}, history) && Follows(c, history) && AllWait(pollers, history)
      modifies this`followers
      ensures Valid() && followers == old(followers) + {c}
    {
      followers := followers + {c};
    }

    method Subscribe(c: Client, filter: set<string>, ghost others: set<Client>) returns (ghost from: nat)
      requires Log() && Within(c.sent, base, messageId) && AllFollow(others, history) && c !in others
      modifies c
      ensures AllFollow(others, history) && Follows(c, history) && c.filter == filter && !c.moved
      ensures from == Start(old(c.last)) && c.earlier == old(c.sent) && c.since == from
      ensures c.sent == old(c.sent) + Unread(history, from, filter)
    {
      from := SubscribeOne(c, filter);
    }

    method SubscribeOne(c: Client, filter: set<string>) returns (ghost from: nat)
      requires Log() && Within(c.sent, base, messageId)
      modifies c
      ensures Follows(c, history) && c.filter == filter && !c.moved
      ensures from == Start(old(c.last)) && c.earlier == old(c.sent) && c.since == from
      ensures c.sent == old(c.sent) + Unread(history, from, filter)
    {
      ghost var sent := c.sent;
      c.filter := filter;
      from := MessagesCatchUp(c);
      CatchUpWithin(sent, history, from, filter, base);
      c.earlier, c.since, c.moved := sent, from, false;
    }

    /** A connection says what it has seen. Nothing is sent, and nothing that was promised is lost. */
    method StartMsg(c: Client, start: int)
      requires Valid()
      modifies c`last, c`moved
      ensures Valid() && c.last == start
    {
      c.last, c.moved := start, true;
    }

    method Close(c: Client)
      requires Valid()
      modifies this`followers
      ensures Valid() && followers == old(followers) - {c}
    {
      followers := followers - {c};
    }

    /** Every follower has got, once and in order, every message since it last chose its channels, and every retained
        one before that it had not seen: exactly those that its channels let through. */
    lemma FollowerMissesNothing(c: Client)
      requires Valid() && c in followers
      ensures |c.earlier| <= |c.sent| && Increasing(c.sent[|c.earlier|..])
      ensures forall i :: c.since <= i < |history| ==>
        (history[i] in c.sent[|c.earlier|..] <==> Passes(c.filter, history[i]))
    {
      SentExactly(c.sent, c.earlier, history, c.since, c.filter, base);
    }

    /** Choosing channels again repeats nothing, unless the cursor was moved below the last message sent and no message
        has been posted since. */
    lemma CursorKeepsOrder(c: Client, filter: set<string>)
      requires Valid() && c in followers && (!c.moved || (c.sent != [] ==> c.last >= c.sent[|c.sent| - 1].id))
      ensures !Repeats(c.sent, history, Start(c.last), filter)
    {
      NothingRepeated(c.sent, history, maxQueue, base, c.last, filter);
    }

    /** A long-poll request: answered at once by the first retained message it asks for, or left waiting. */
    method LongPoll(p: Poller)
      requires Valid() && p !in pollers && p.answer == []
      modifies this`pollers, p
      ensures Valid() && p.since == Start(p.last) && p.answer == First(Unread(history, p.since, p.channels))
      ensures pollers == if p.answer == [] then old(pollers) + {p} else old(pollers)
    {
      PollAll(p);
      if p.answer == [] {
        Enlist(p);
      }
    }

    method Enlist(p: Poller)
      requires Valid() && p.Waits(history)
      modifies this`pollers
      ensures Valid() && pollers == old(pollers) + {p}
    {
      pollers := pollers + {p};
    }

    method PollAll(p: Poller)
      requires Valid() && p.answer == [] && p !in pollers
      modifies p
      ensures Valid() && p.since == Start(p.last) && p.answer == First(Unread(history, p.since, p.channels))
      ensures p.answer == [] ==> p.Waits(history)
    {
      PollOne(p);
    }

    method PollOne(p: Poller)
      requires Log() && p.answer == []
      modifies p
      ensures p.since == Start(p.last) && p.answer == First(Unread(history, p.since, p.channels))
    {
      p.since := Start(p.last);
      PollRetained(history, base, maxQueue, p.last, p.channels);
      PollKept(p);
    }

    method PollItem(p: Poller, m: Message)
      modifies p`answer
      ensures p.answer == if old(p.answer) == [] && m.id > p.last && Passes(p.channels, m) then [m] else old(p.answer)
    {
      if p.answer == [] && m.id > p.last && Passes(p.channels, m) {
        p.answer := [m];
      }
    }

    method PollKept(p: Poller)
      requires messages.Valid() && p.answer == []
      modifies p`answer
      ensures p.answer == Poll(messages.Contents(), p.last, p.channels)
    {
      ghost var kept, n := messages.Contents(), 0;
      var item := messages.head;
      while item != null
        invariant n <= |kept| && item == At(messages.items, n)
        invariant p.answer == Poll(kept[..n], p.last, p.channels)
        decreases |kept| - n
      {
        PollNext(kept, n, p.last, p.channels);
        PollItem(p, item.data);
        item := item.next;
        n := n + 1;
      }
      assert kept[..|kept|] == kept;
    }
  }

  // A connection follows channel "a" of a fresh daemon.
  method Following(maxQueue: nat, now: int) returns (d: Daemon, c: Client)
    requires maxQueue > 0
    ensures fresh(d) && fresh(c) && fresh(d.messages) && fresh(d.messages.items) && d.Valid()
    ensures d.followers == {c} && d.pollers == {} && d.maxQueue == maxQueue && d.base == now
    ensures d.history == [] && c.sent == [] && c.filter == {"a"}
  {
    d := new Daemon(maxQueue, now);
    c := new Client();
    var ok, from := d.SetFilter(c, ["a"]);
  }

  // It gets a message.
  method MessageSent(maxQueue: nat, now: int, text: string) returns (d: Daemon, c: Client, m: Message)
    requires maxQueue > 0
    ensures fresh(d) && fresh(c) && d.Valid() && c in d.followers && d.base == now
    ensures d.history == [m] && c.sent == [m] && m.channel == "a"
  {
    d, c := Following(maxQueue, now);
    var id := d.MessagesPost("a", text);
    m := Message(id, "a", text);
  }

  // It moves its cursor back and chooses its channel again.
  method MoveBackAndReadAgain(d: Daemon, c: Client, now: int)
    requires d.Valid() && c in d.followers && |d.history| == 1 && now == d.base && d.history[0].channel == "a"
    modifies d`followers, c
    ensures c.sent == old(c.sent) + d.history
  {
    d.StartMsg(c, now);
    ReadAgain(d, c);
  }

  method ReadAgain(d: Daemon, c: Client)
    requires d.Valid() && c in d.followers && |d.history| == 1 && c.last <= d.base && d.history[0].channel == "a"
    modifies d`followers, c
    ensures c.sent == old(c.sent) + d.history
  {
    d.StartsAtFirst(c.last);
    var ok, from := d.ChooseChannels(c, ["a"]);
    OneChannel("a", d.history);
  }

  lemma OneChannel(channel: string, log: seq<Message>)
    requires |log| == 1 && log[0].channel == channel
    ensures Unread(log, 0, set ch | ch in [channel]) == log
  {
    assert (set ch | ch in [channel]) == {channel};
    assert log[..0] == [] && log == [] + [log[0]];
  }

  /** A run in which a message is sent twice. */
  method MessageSentTwice(maxQueue: nat, now: int, text: string) returns (c: Client, m: Message)
    requires maxQueue > 0
    ensures c.sent == [m] + [m]
  {
    var d;
    d, c, m := MessageSent(maxQueue, now, text);
    MoveBackAndReadAgain(d, c, now);
  }
}
