/** BuffersPool: queues of idle buffers by type, with a bound on the blocks kept. */
module BuffersPools {

  /** A stored buffer and the time it was put. */
  datatype Stored = Stored(id: nat, since: nat)

  /** The queue of one type of buffer. */
  datatype Queue = Queue(headerSize: nat, numBlocks: nat, items: seq<Stored>)

  function Blocks(qs: seq<Queue>): nat {
    if qs == [] then 0 else Blocks(qs[..|qs| - 1]) + |qs[|qs| - 1].items| * qs[|qs| - 1].numBlocks
  }

  predicate AgeOrdered(items: seq<Stored>) { forall i, j :: 0 <= i < j < |items| ==> items[i].since <= items[j].since }

  predicate Expired(s: Stored, now: nat, age: nat) { now - s.since >= age }

  /** The entries that are not expired, in order. */
  function Young(items: seq<Stored>, now: nat, age: nat): seq<Stored> {
    if items == [] then []
    else (if Expired(items[0], now, age) then [] else [items[0]]) + Young(items[1..], now, age)
  }

  /** An entry stays exactly if it is younger than the limit. */
  lemma {:induction false} YoungAre(items: seq<Stored>, now: nat, age: nat, s: Stored)
    ensures s in Young(items, now, age) <==> s in items && now < s.since + age
  {
    if items != [] {
      YoungAre(items[1..], now, age, s);
      assert items == [items[0]] + items[1..];
    }
  }

  /** Oldest first, the unexpired entries are a suffix. */
  lemma {:induction false} YoungIsSuffix(items: seq<Stored>, now: nat, age: nat)
    requires AgeOrdered(items) && (items != [] ==> !Expired(items[0], now, age))
    ensures Young(items, now, age) == items
  {
    if items != [] {
      var rest := items[1..];
      assert rest != [] ==> rest[0] == items[1];
      YoungIsSuffix(rest, now, age);
    }
  }

  lemma {:induction false} BlocksUpdate(qs: seq<Queue>, i: nat, q: Queue)
    requires i < |qs| && q.numBlocks == qs[i].numBlocks
    ensures Blocks(qs[i := q]) == Blocks(qs) - |qs[i].items| * q.numBlocks + |q.items| * q.numBlocks
  {
    var n := |qs| - 1;
    if i < n {
      assert qs[i := q][..n] == qs[..n][i := q];
      BlocksUpdate(qs[..n], i, q);
    } else {
      assert qs[i := q][..n] == qs[..n];
    }
  }

  lemma BlocksSnoc(qs: seq<Queue>, q: Queue)
    ensures Blocks(qs + [q]) == Blocks(qs) + |q.items| * q.numBlocks
  {
    assert (qs + [q])[..|qs|] == qs;
  }

  predicate DistinctTypes(qs: seq<Queue>) {
    forall i, j :: 0 <= i < j < |qs| ==> qs[i].headerSize != qs[j].headerSize || qs[i].numBlocks != qs[j].numBlocks
  }

  function Ids(q: Queue): set<nat> { set s | s in q.items :: s.id }

  predicate In(qs: seq<Queue>, id: nat) { exists i :: 0 <= i < |qs| && id in Ids(qs[i]) }

  /** No buffer is in two queues. */
  predicate Disjoint(qs: seq<Queue>) { forall i, j :: 0 <= i < j < |qs| ==> Ids(qs[i]) !! Ids(qs[j]) }

  /** A queue holds a buffer once, and older entries first. */
  predicate QueueOk(q: Queue, time: nat) {
    && AgeOrdered(q.items) && (forall k :: 0 <= k < |q.items| ==> q.items[k].since <= time)
    && (forall k, m :: 0 <= k < m < |q.items| ==> q.items[k].id != q.items[m].id)
  }

  predicate QueuesOk(qs: seq<Queue>, time: nat) {
    DistinctTypes(qs) && Disjoint(qs) && forall i :: 0 <= i < |qs| ==> QueueOk(qs[i], time)
  }

  function Popped(q: Queue): Queue
    requires q.items != []
  {
    q.(items := q.items[1..])
  }

  lemma PoppedOk(q: Queue, time: nat)
    requires QueueOk(q, time) && q.items != []
    ensures QueueOk(Popped(q), time) && Ids(Popped(q)) == Ids(q) - {q.items[0].id} && q.items[0].id in Ids(q)
  {
    var id := q.items[0].id;
    forall x | x in Ids(q) && x != id ensures x in Ids(Popped(q)) {
      var k :| 0 <= k < |q.items| && q.items[k].id == x;
      assert Popped(q).items[k - 1] == q.items[k];
    }
    assert q.items[0] in q.items;
  }

  /** Another queue at one place, of the same type and without foreign buffers. */
  lemma ReplacedOk(qs: seq<Queue>, i: nat, q: Queue, time: nat, id: nat)
    requires QueuesOk(qs, time) && i < |qs| && q == qs[i].(items := q.items) && QueueOk(q, time)
    requires Ids(q) <= Ids(qs[i]) + {id} && (id in Ids(qs[i]) || !In(qs, id))
    ensures QueuesOk(qs[i := q], time)
  {
    hide QueueOk;
    var qs' := qs[i := q];
    forall j, k | 0 <= j < k < |qs'| ensures Ids(qs'[j]) !! Ids(qs'[k]) {
      if j == i { assert id in Ids(qs[i]) || id !in Ids(qs[k]); } else if k == i { assert id in Ids(qs[i]) || id !in Ids(qs[j]); }
    }
  }

  lemma PopBlocks(qs: seq<Queue>, i: nat)
    requires i < |qs| && qs[i].items != []
    ensures Blocks(qs[i := Popped(qs[i])]) == Blocks(qs) - qs[i].numBlocks
  {
    BlocksUpdate(qs, i, Popped(qs[i]));
    Times(|qs[i].items| - 1, qs[i].numBlocks);
  }

  lemma Times(n: nat, m: nat)
    ensures (n + 1) * m == n * m + m
  {}

  lemma PopGone(qs: seq<Queue>, i: nat, q: Queue, id: nat)
    requires Disjoint(qs) && i < |qs| && id in Ids(qs[i]) && id !in Ids(q)
    ensures In(qs, id) && !In(qs[i := q], id)
  {
    hide Ids;
    var qs' := qs[i := q];
    forall j | 0 <= j < |qs'| ensures id !in Ids(qs'[j]) {
      if j < i { assert Ids(qs[j]) !! Ids(qs[i]); } else if j > i { assert Ids(qs[i]) !! Ids(qs[j]); }
    }
  }

  /** Taking the oldest entry of a queue. */
  lemma PopOk(qs: seq<Queue>, i: nat, time: nat)
    requires QueuesOk(qs, time) && i < |qs| && qs[i].items != []
    ensures QueuesOk(qs[i := Popped(qs[i])], time)
    ensures In(qs, qs[i].items[0].id) && !In(qs[i := Popped(qs[i])], qs[i].items[0].id)
    ensures Blocks(qs[i := Popped(qs[i])]) == Blocks(qs) - qs[i].numBlocks
  {
    hide QueueOk, Ids, Blocks, In;
    PoppedOk(qs[i], time);
    ReplacedOk(qs, i, Popped(qs[i]), time, qs[i].items[0].id);
    PopGone(qs, i, Popped(qs[i]), qs[i].items[0].id);
    PopBlocks(qs, i);
  }

  function Pushed(q: Queue, id: nat, now: nat): Queue { q.(items := q.items + [Stored(id, now)]) }

  lemma PushedOk(q: Queue, id: nat, time: nat, now: nat)
    requires QueueOk(q, time) && time <= now && id !in Ids(q)
    ensures QueueOk(Pushed(q, id, now), now) && Ids(Pushed(q, id, now)) == Ids(q) + {id}
  {
    var q', n := Pushed(q, id, now), |q.items|;
    forall k | 0 <= k < n ensures q.items[k].id != id { assert q.items[k] in q.items; }
    assert q'.items[n] == Stored(id, now) && q'.items[n] in q'.items;
    assert forall s :: s in q.items ==> s in q'.items;
  }

  lemma LaterOk(qs: seq<Queue>, time: nat, now: nat)
    requires QueuesOk(qs, time) && time <= now
    ensures QueuesOk(qs, now)
  {}

  lemma PushBlocks(qs: seq<Queue>, i: nat, id: nat, now: nat)
    requires i < |qs|
    ensures Blocks(qs[i := Pushed(qs[i], id, now)]) == Blocks(qs) + qs[i].numBlocks
  {
    BlocksUpdate(qs, i, Pushed(qs[i], id, now));
    Times(|qs[i].items|, qs[i].numBlocks);
  }

  lemma NotIn(qs: seq<Queue>, i: nat, id: nat)
    requires i < |qs| && !In(qs, id)
    ensures id !in Ids(qs[i])
  {}

  lemma NowIn(qs: seq<Queue>, i: nat, q: Queue, id: nat)
    requires i < |qs| && id in Ids(q)
    ensures In(qs[i := q], id)
  {
    assert qs[i := q][i] == q;
  }

  lemma PushOk(qs: seq<Queue>, i: nat, id: nat, time: nat, now: nat)
    requires QueuesOk(qs, time) && i < |qs| && !In(qs, id) && time <= now
    ensures QueuesOk(qs[i := Pushed(qs[i], id, now)], now) && In(qs[i := Pushed(qs[i], id, now)], id)
    ensures Blocks(qs[i := Pushed(qs[i], id, now)]) == Blocks(qs) + qs[i].numBlocks
  {
    hide QueueOk, Ids, Blocks, In;
    LaterOk(qs, time, now);
    NotIn(qs, i, id);
    PushedOk(qs[i], id, time, now);
    ReplacedOk(qs, i, Pushed(qs[i], id, now), now, id);
    NowIn(qs, i, Pushed(qs[i], id, now), id);
    PushBlocks(qs, i, id, now);
  }

  lemma NewQueueOk(qs: seq<Queue>, headerSize: nat, numBlocks: nat, time: nat)
    requires QueuesOk(qs, time)
    requires forall k :: 0 <= k < |qs| ==> qs[k].headerSize != headerSize || qs[k].numBlocks != numBlocks
    ensures var qs' := qs + [Queue(headerSize, numBlocks, [])];
            QueuesOk(qs', time) && Blocks(qs') == Blocks(qs) && forall id :: In(qs', id) ==> In(qs, id)
  {
    hide QueueOk, Ids, Blocks;
    var q := Queue(headerSize, numBlocks, []);
    BlocksSnoc(qs, q);
    EmptyQueue(q, time);
    assert forall i :: 0 <= i < |qs| ==> (qs + [q])[i] == qs[i];
  }

  lemma EmptyQueue(q: Queue, time: nat)
    requires q.items == []
    ensures QueueOk(q, time) && Ids(q) == {} && Blocks([q]) == 0
  {}

  // ---------------------------------------------------------------- the pool by type

  /** What the pool stores of one type, oldest first. */
  function ItemsOf(qs: seq<Queue>, headerSize: nat, numBlocks: nat): seq<Stored> {
    if qs == [] then []
    else if qs[0].headerSize == headerSize && qs[0].numBlocks == numBlocks then qs[0].items
    else ItemsOf(qs[1..], headerSize, numBlocks)
  }

  lemma {:induction false} ItemsAt(qs: seq<Queue>, i: nat)
    requires DistinctTypes(qs) && i < |qs|
    ensures ItemsOf(qs, qs[i].headerSize, qs[i].numBlocks) == qs[i].items
  {
    if i > 0 { ItemsAt(qs[1..], i - 1); }
  }

  lemma {:induction false} ItemsNone(qs: seq<Queue>, headerSize: nat, numBlocks: nat)
    requires forall k :: 0 <= k < |qs| ==> qs[k].headerSize != headerSize || qs[k].numBlocks != numBlocks
    ensures ItemsOf(qs, headerSize, numBlocks) == []
  {
    if qs != [] { ItemsNone(qs[1..], headerSize, numBlocks); }
  }

  lemma {:induction false} ItemsUpdated(qs: seq<Queue>, i: nat, q: Queue, headerSize: nat, numBlocks: nat)
    requires DistinctTypes(qs) && i < |qs| && q == qs[i].(items := q.items)
    ensures ItemsOf(qs[i := q], headerSize, numBlocks) ==
            if headerSize == q.headerSize && numBlocks == q.numBlocks then q.items else ItemsOf(qs, headerSize, numBlocks)
  {
    if i > 0 {
      assert qs[i := q][1..] == qs[1..][i - 1 := q];
      ItemsUpdated(qs[1..], i - 1, q, headerSize, numBlocks);
    } else {
      assert qs[0 := q][1..] == qs[1..];
    }
  }

  lemma {:induction false} ItemsSnoc(qs: seq<Queue>, q: Queue, headerSize: nat, numBlocks: nat)
    requires q.items == []
    ensures ItemsOf(qs + [q], headerSize, numBlocks) == ItemsOf(qs, headerSize, numBlocks)
  {
    if qs == [] {
      assert [] + [q] == [q];
    } else {
      assert (qs + [q])[0] == qs[0] && (qs + [q])[1..] == qs[1..] + [q];
      ItemsSnoc(qs[1..], q, headerSize, numBlocks);
    }
  }

  /** The items of one type became `items`, all others stayed. */
  ghost predicate OnlyType(was: seq<Queue>, now: seq<Queue>, headerSize: nat, numBlocks: nat, items: seq<Stored>) {
    forall h: nat, n: nat :: ItemsOf(now, h, n) == if h == headerSize && n == numBlocks then items else ItemsOf(was, h, n)
  }

  lemma Distinct(qs: seq<Queue>, time: nat)
    requires QueuesOk(qs, time)
    ensures DistinctTypes(qs)
  {}

  lemma SameItems(was: seq<Queue>, now: seq<Queue>, headerSize: nat, numBlocks: nat)
    requires OnlyType(was, now, headerSize, numBlocks, ItemsOf(was, headerSize, numBlocks))
    ensures ItemsOf(now, headerSize, numBlocks) == ItemsOf(was, headerSize, numBlocks)
  {}

  lemma OnlyTypeUpdated(qs: seq<Queue>, i: nat, items: seq<Stored>)
    requires DistinctTypes(qs) && i < |qs|
    ensures OnlyType(qs, qs[i := qs[i].(items := items)], qs[i].headerSize, qs[i].numBlocks, items)
  {
    hide ItemsOf;
    var q := qs[i].(items := items);
    var qs' := qs[i := q];
    forall h: nat, n: nat ensures ItemsOf(qs', h, n) == if h == q.headerSize && n == q.numBlocks then items else ItemsOf(qs, h, n) {
      ItemsUpdated(qs, i, q, h, n);
    }
  }

  lemma OnlyTypeSame(was: seq<Queue>, now: seq<Queue>, headerSize: nat, numBlocks: nat)
    requires now == was || now == was + [Queue(headerSize, numBlocks, [])]
    ensures OnlyType(was, now, headerSize, numBlocks, ItemsOf(was, headerSize, numBlocks))
  {
    forall h: nat, n: nat ensures ItemsOf(now, h, n) == ItemsOf(was, h, n) {
      if now != was { ItemsSnoc(was, Queue(headerSize, numBlocks, []), h, n); }
    }
  }

  lemma OnlyTypeThen(a: seq<Queue>, b: seq<Queue>, c: seq<Queue>, headerSize: nat, numBlocks: nat, xs: seq<Stored>, ys: seq<Stored>)
    requires OnlyType(a, b, headerSize, numBlocks, xs) && OnlyType(b, c, headerSize, numBlocks, ys)
    ensures OnlyType(a, c, headerSize, numBlocks, ys)
  {
    forall h: nat, n: nat ensures ItemsOf(c, h, n) == if h == headerSize && n == numBlocks then ys else ItemsOf(a, h, n) {
      assert ItemsOf(b, h, n) == if h == headerSize && n == numBlocks then xs else ItemsOf(a, h, n);
    }
  }

  class BuffersPool {
    var queues: seq<Queue>
    var maxBlocks: nat
    var currentBlocks: nat
    /** The last reading of the clock. */
    ghost var time: nat

    ghost predicate Valid()
      reads this
    {
      currentBlocks == Blocks(queues) && QueuesOk(queues, time)
    }

    constructor ()
      ensures Valid() && queues == [] && maxBlocks == 8192
    {
      queues, maxBlocks, currentBlocks, time := [], 8192, 0, 0;
    }

    /** buffersMap_.find. */
    method Find(headerSize: nat, numBlocks: nat) returns (i: nat)
      ensures i <= |queues|
      ensures i < |queues| ==> queues[i].headerSize == headerSize && queues[i].numBlocks == numBlocks
      ensures i == |queues| ==> forall k :: 0 <= k < |queues| ==> queues[k].headerSize != headerSize || queues[k].numBlocks != numBlocks
    {
      i := 0;
      while i < |queues| && !(queues[i].headerSize == headerSize && queues[i].numBlocks == numBlocks)
        invariant i <= |queues|
        invariant forall k :: 0 <= k < i ==> queues[k].headerSize != headerSize || queues[k].numBlocks != numBlocks
      {
        i := i + 1;
      }
    }

    /** get: the oldest stored buffer of the type, which then is in no queue, or a new one. */
    method Get(headerSize: nat, numBlocks: nat) returns (found: bool, id: nat)
      requires Valid()
      modifies `queues, `currentBlocks
      ensures Valid() && (found <==> ItemsOf(old(queues), headerSize, numBlocks) != [])
      ensures found ==> In(old(queues), id) && !In(queues, id) && currentBlocks == old(currentBlocks) - numBlocks
      ensures found ==>
                var items := ItemsOf(old(queues), headerSize, numBlocks);
                id == items[0].id && OnlyType(old(queues), queues, headerSize, numBlocks, items[1..])
      ensures !found ==> queues == old(queues) && currentBlocks == old(currentBlocks)
    {
      hide QueuesOk, In, Blocks, ItemsOf, OnlyType;
      Distinct(queues, time);
      var i := Find(headerSize, numBlocks);
      if i == |queues| {
        ItemsNone(queues, headerSize, numBlocks);
        return false, 0;
      }
      ItemsAt(queues, i);
      if queues[i].items == [] { return false, 0; }
      PopOk(queues, i, time);
      OnlyTypeUpdated(queues, i, queues[i].items[1..]);
      id := queues[i].items[0].id;
      currentBlocks := currentBlocks - numBlocks;
      queues := queues[i := Popped(queues[i])];
      return true, id;
    }

    /** put: kept if there is room, else discarded. */
    method Put(headerSize: nat, numBlocks: nat, id: nat, now: nat) returns (kept: bool)
      requires Valid() && !In(queues, id) && time <= now
      modifies `queues, `currentBlocks, `time
      ensures Valid() && kept == (old(currentBlocks) + numBlocks <= maxBlocks)
      ensures currentBlocks == old(currentBlocks) + if kept then numBlocks else 0
      ensures kept ==> currentBlocks <= maxBlocks && In(queues, id)
      ensures OnlyType(old(queues), queues, headerSize, numBlocks,
                       ItemsOf(old(queues), headerSize, numBlocks) + if kept then [Stored(id, now)] else [])
    {
      hide QueuesOk, In, Blocks, ItemsOf, OnlyType;
      var i := Find(headerSize, numBlocks);
      if i == |queues| {
        NewQueueOk(queues, headerSize, numBlocks, time);
        queues := queues + [Queue(headerSize, numBlocks, [])];
      }
      OnlyTypeSame(old(queues), queues, headerSize, numBlocks);
      Distinct(queues, time);
      ghost var was, items := queues, queues[i].items;
      ItemsAt(was, i);
      SameItems(old(queues), was, headerSize, numBlocks);
      assert items + [] == items;
      kept := currentBlocks + numBlocks <= maxBlocks;
      if kept {
        PushOk(queues, i, id, time, now);
        OnlyTypeUpdated(was, i, items + [Stored(id, now)]);
        queues := queues[i := Pushed(queues[i], id, now)];
        OnlyTypeThen(old(queues), was, queues, headerSize, numBlocks, items, items + [Stored(id, now)]);
        currentBlocks := currentBlocks + numBlocks;
      } else {
        LaterOk(queues, time, now);
      }
      time := now;
    }

    /** The inner loop of releaseOldBuffers. */
    method ReleaseFront(i: nat, now: nat, age: nat)
      requires Valid() && i < |queues|
      modifies `queues, `currentBlocks
      ensures Valid() && |queues| == |old(queues)| && forall k :: 0 <= k < |queues| && k != i ==> queues[k] == old(queues)[k]
      ensures queues[i] == old(queues)[i].(items := Young(old(queues)[i].items, now, age))
    {
      hide QueuesOk, Blocks;
      ghost var end := Young(queues[i].items, now, age);
      while queues[i].items != [] && Expired(queues[i].items[0], now, age)
        invariant Valid() && |queues| == |old(queues)| && forall k :: 0 <= k < |queues| && k != i ==> queues[k] == old(queues)[k]
        invariant queues[i] == old(queues)[i].(items := queues[i].items) && Young(queues[i].items, now, age) == end
        decreases |queues[i].items|
      {
        PopOk(queues, i, time);
        currentBlocks := currentBlocks - queues[i].numBlocks;
        queues := queues[i := Popped(queues[i])];
      }
      assert AgeOrdered(queues[i].items) by { Ordered(queues, i, time); }
      YoungIsSuffix(queues[i].items, now, age);
    }

    /** releaseOldBuffers: exactly the unexpired entries remain. */
    method ReleaseOldBuffers(now: nat, age: nat)
      requires Valid()
      modifies `queues, `currentBlocks
      ensures Valid() && |queues| == |old(queues)|
      ensures forall i :: 0 <= i < |queues| ==> queues[i] == old(queues)[i].(items := Young(old(queues)[i].items, now, age))
    {
      hide QueuesOk, Blocks, Young;
      for i := 0 to |queues|
        invariant Valid() && |queues| == |old(queues)|
        invariant forall k :: 0 <= k < i ==> queues[k] == old(queues)[k].(items := Young(old(queues)[k].items, now, age))
        invariant forall k :: i <= k < |queues| ==> queues[k] == old(queues)[k]
      {
        ReleaseFront(i, now, age);
      }
    }

    method SetMaxNumberOfBlocks(n: nat)
      modifies `maxBlocks
      ensures maxBlocks == n
    {
      maxBlocks := n;
    }
  }

  lemma Ordered(qs: seq<Queue>, i: nat, time: nat)
    requires QueuesOk(qs, time) && i < |qs|
    ensures AgeOrdered(qs[i].items)
  {}
}
