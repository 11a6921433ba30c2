/** The websocket daemon's queue: a linked list with its head, tail and length. */
module MessageQueue {
  class Item<T> {
    const data: T
    var next: Item?<T>

    constructor (data: T, next: Item?<T>)
      ensures this.data == data && this.next == next
    {
      this.data, this.next := data, next;
    }
  }

  // The item at a position, or null beyond the ends.
  function At<T>(items: seq<Item<T>>, i: int): Item?<T> {
    if 0 <= i < |items| then items[i] else null
  }

  ghost function DataOf<T>(items: seq<Item<T>>): (s: seq<T>)
    ensures |s| == |items| && forall i :: 0 <= i < |items| ==> s[i] == items[i].data
  {
    if items == [] then [] else DataOf(items[..|items| - 1]) + [items[|items| - 1].data]
  }

  lemma DataOfFront<T>(item: Item<T>, rest: seq<Item<T>>)
    ensures DataOf([item] + rest) == [item.data] + DataOf(rest)
  {
  }

  ghost predicate Linked<T>(items: seq<Item<T>>)
    reads items
  {
    forall i :: 0 <= i < |items| ==> items[i].next == At(items, i + 1)
  }

  ghost predicate Chain<T>(items: seq<Item<T>>)
    reads items
  {
    Linked(items) && forall i, j :: 0 <= i < j < |items| ==> items[i] != items[j]
  }

  lemma ChainTail<T>(items: seq<Item<T>>)
    requires items != [] && Chain(items)
    ensures Chain(items[1..]) && items[0].next == At(items[1..], 0)
    ensures [items[0].data] + DataOf(items[1..]) == DataOf(items)
  {
    LinkedTail(items);
    DataOfFront(items[0], items[1..]);
    assert [items[0]] + items[1..] == items;
  }

  lemma ChainFront<T>(item: Item<T>, rest: seq<Item<T>>)
    requires Chain(rest) && item !in rest && item.next == At(rest, 0)
    ensures Chain([item] + rest) && DataOf([item] + rest) == [item.data] + DataOf(rest)
  {
    LinkedFront(item, rest);
    DataOfFront(item, rest);
  }

  lemma LinkedTail<T>(items: seq<Item<T>>)
    requires items != [] && Linked(items)
    ensures Linked(items[1..]) && items[0].next == At(items[1..], 0)
  {
    var rest := items[1..];
    forall i | 0 <= i < |rest| ensures rest[i].next == At(rest, i + 1) {
      assert rest[i] == items[i + 1];
    }
  }

  lemma LinkedFront<T>(item: Item<T>, rest: seq<Item<T>>)
    requires Linked(rest) && item.next == At(rest, 0)
    ensures Linked([item] + rest)
  {
    var items := [item] + rest;
    forall i | 0 <= i < |items| ensures items[i].next == At(items, i + 1) {
      if i > 0 {
        assert items[i] == rest[i - 1];
      }
    }
  }

  class Queue<T> {
    var head: Item?<T>
    var tail: Item?<T>
    var length: int
    ghost var items: seq<Item<T>>

    ghost predicate Valid()
      reads this, items
    {
      && length == |items| && Chain(items)
      && head == At(items, 0) && tail == At(items, |items| - 1)
    }

    ghost function Contents(): (s: seq<T>)
      reads this`items
      ensures |s| == |items|
    {
      DataOf(items)
    }

    constructor ()
      ensures Valid() && Contents() == [] && fresh(items)
    {
      head, tail, length, items := null, null, 0, [];
    }

    method Push(data: T)
      requires Valid()
      modifies this, items
      ensures Valid() && Contents() == old(Contents()) + [data] && old(items) <= items
      ensures |items| == |old(items)| + 1 && items[..|old(items)|] == old(items) && fresh(items[|old(items)|])
    {
      var prev := tail;
      var item := new Item<T>(data, null);
      tail := item;
      if prev != null {
        prev.next := tail;
      } else {
        head := tail;
      }
      length := length + 1;
      items := items + [item];
    }

    method Pop() returns (data: T)
      requires Valid() && Contents() != []
      modifies this
      ensures Valid() && [data] + Contents() == old(Contents())
      ensures items == old(items)[1..]
    {
      data := head.data;
      ChainTail(items);
      head := head.next;
      if head == null {
        tail := null;
      }
      length := length - 1;
      items := items[1..];
    }

    method Unshift(data: T)
      requires Valid()
      modifies this
      ensures Valid() && Contents() == [data] + old(Contents())
      ensures |items| == |old(items)| + 1 && items[1..] == old(items) && fresh(items[0])
    {
      var item := new Item<T>(data, head);
      head := item;
      if tail == null {
        tail := head;
      }
      length := length + 1;
      ChainFront(item, items);
      items := [item] + items;
    }

    method ToArray() returns (elements: seq<T>)
      requires Valid()
      ensures elements == Contents()
    {
      elements := [];
      var item := head;
      while item != null
        invariant |elements| <= |items| && elements == Contents()[..|elements|]
        invariant item == At(items, |elements|)
        decreases |items| - |elements|
      {
        assert item.next == At(items, |elements| + 1);
        elements := elements + [item.data];
        item := item.next;
      }
    }
  }

  lemma NextPrefix<T>(elements: seq<T>, i: nat)
    requires i < |elements|
    ensures elements[..i + 1] == elements[..i] + [elements[i]]
  {
  }

  method FromArray<T>(elements: seq<T>) returns (queue: Queue<T>)
    ensures fresh(queue) && fresh(queue.items) && queue.Valid() && queue.Contents() == elements
  {
    queue := new Queue<T>();
    for i := 0 to |elements|
      invariant fresh(queue) && fresh(queue.items) && queue.Valid() && queue.Contents() == elements[..i]
    {
      NextPrefix(elements, i);
      queue.Push(elements[i]);
    }
  }
}
