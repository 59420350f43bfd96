/** What the client of a write operation is told, alone or in a forwarding chain. */
module ClientInv {
  import opened ChunkTypes
  import opened WriteOp

  ghost predicate Distinct(xs: seq<nat>) {
    forall i, j :: 0 <= i < j < |xs| ==> xs[i] != xs[j]
  }

  /** The write ids the client got OK for, in order. */
  function OkIds(rs: seq<Reply>): seq<nat> {
    if rs == [] then []
    else
      var r := rs[|rs| - 1];
      OkIds(rs[..|rs| - 1]) + if r.status == STATUS_OK then [r.writeId] else []
  }

  /** In a chain the client has OK for an id exactly when both our worker and the next
      server reported it; the ids reported by exactly one of them are remembered. */
  ghost predicate Chained(c: Client) {
    && Distinct(c.nexts) && Distinct(OkIds(c.replies))
    && (forall id :: id in c.partial <==> (id in c.oks) != (id in c.nexts))
    && (forall id :: id in OkIds(c.replies) <==> id in c.oks && id in c.nexts)
  }

  /** Alone, the client is told a prefix of our own OKs, the rest is remembered. */
  ghost predicate Unchained(c: Client) {
    && c.nexts == [] && OkIds(c.replies) <= c.oks
    && (forall id :: id in c.partial <==> id in c.oks[|OkIds(c.replies)|..])
  }

  /** `last`: the connection is still in WriteLast, so every OK goes out at once. */
  ghost predicate ClientOk(c: Client, chain: bool, last: bool) {
    && Distinct(c.oks)
    && if chain then !last && Chained(c) else Unchained(c) && (last ==> OkIds(c.replies) == c.oks)
  }

  lemma OkIdsAppend(rs: seq<Reply>, r: Reply)
    ensures OkIds(rs + [r]) == OkIds(rs) + if r.status == STATUS_OK then [r.writeId] else []
  {
    assert (rs + [r])[..|rs|] == rs;
  }

  lemma DistinctAppend(xs: seq<nat>, x: nat)
    requires Distinct(xs) && x !in xs
    ensures Distinct(xs + [x])
  {}

  lemma DistinctFront(xs: seq<nat>, x: nat)
    requires Distinct(xs + [x])
    ensures Distinct(xs) && x !in xs
  {
    var ys := xs + [x];
    assert ys[|xs|] == x && forall i :: 0 <= i < |xs| ==> ys[i] == xs[i];
  }

  lemma LocalOkChained(c: Client, id: nat)
    requires ClientOk(c, true, false) && id !in c.oks
    ensures ClientOk(LocalOk(c, false, id), true, false)
  {
    OkIdsAppend(c.replies, Reply(STATUS_OK, id));
    DistinctAppend(c.oks, id);
    if id in c.partial {
      DistinctAppend(OkIds(c.replies), id);
    }
  }

  lemma LocalOkUnchained(c: Client, last: bool, id: nat)
    requires ClientOk(c, false, last) && id !in c.oks
    ensures ClientOk(LocalOk(c, last, id), false, last)
  {
    OkIdsAppend(c.replies, Reply(STATUS_OK, id));
    DistinctAppend(c.oks, id);
    var n := |OkIds(c.replies)|;
    assert (c.oks + [id])[n..] == c.oks[n..] + [id];
    if !last {
      assert id !in c.oks[n..];
    }
  }

  lemma {:induction false} LocalOksOk(c: Client, chain: bool, last: bool, ids: seq<nat>)
    requires ClientOk(c, chain, last) && Distinct(c.oks + ids)
    ensures LocalOks(c, last, ids).oks == c.oks + ids
    ensures LocalOks(c, last, ids).nexts == c.nexts
    ensures ClientOk(LocalOks(c, last, ids), chain, last)
  {
    if ids == [] {
      assert c.oks + ids == c.oks;
    } else {
      var n := |ids| - 1;
      assert c.oks + ids == (c.oks + ids[..n]) + [ids[n]];
      DistinctFront(c.oks + ids[..n], ids[n]);
      LocalOksOk(c, chain, last, ids[..n]);
      var c1 := LocalOks(c, last, ids[..n]);
      if chain { LocalOkChained(c1, ids[n]); } else { LocalOkUnchained(c1, last, ids[n]); }
    }
  }

  /** The next server's reports, one for each id. */
  lemma NextOkChained(c: Client, id: nat)
    requires ClientOk(c, true, false) && id !in c.nexts
    ensures ClientOk(NextOk(c, false, id), true, false)
  {
    OkIdsAppend(c.replies, Reply(STATUS_OK, id));
    DistinctAppend(c.nexts, id);
    if id in c.partial {
      DistinctAppend(OkIds(c.replies), id);
    }
  }

  /** An error tells the client of no further OK. */
  lemma FailedOk(c: Client, chain: bool, last: bool, r: Reply)
    requires ClientOk(c, chain, last) && r.status != STATUS_OK
    ensures ClientOk(Failed(c, r), chain, last) && OkIds(Failed(c, r).replies) == OkIds(c.replies)
  {
    OkIdsAppend(c.replies, r);
    assert OkIds(c.replies) + [] == OkIds(c.replies);
  }

  /** In either mode the client only has OKs our own worker issued. */
  lemma ToldWasLocal(c: Client, chain: bool, last: bool, id: nat)
    requires ClientOk(c, chain, last) && Reply(STATUS_OK, id) in c.replies
    ensures id in c.oks
  {
    InOkIds(c.replies, id);
  }

  lemma {:induction false} InOkIds(rs: seq<Reply>, id: nat)
    ensures Reply(STATUS_OK, id) in rs <==> id in OkIds(rs)
  {
    if rs != [] {
      var n := |rs| - 1;
      assert rs == rs[..n] + [rs[n]];
      InOkIds(rs[..n], id);
    }
  }
}
