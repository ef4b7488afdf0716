/**
 The subscriber side of sockets.py: one `Client` queue per websocket, the
 module-level `clients` list, and `set_listener`, which fans every change out to
 all registered clients.
 */
module Broadcast {
  import opened Json

  /**
   A message queued for a subscriber: the object `{entity: data}`. The model keeps
   the pair; turning it into JSON text is left to the serialiser.
   */
  datatype Msg = Msg(entity: string, data: Json)

  /** `n` copies of `m`, one per registered listener that forwards it. */
  function Repeat(m: Msg, n: nat): seq<Msg>
  {
    if n == 0 then [] else Repeat(m, n - 1) + [m]
  }

  /** What a client receives for a run of changes when `n` listeners forward each one. */
  function Fanout(notices: seq<Msg>, n: nat): seq<Msg>
  {
    if notices == [] then [] else Repeat(notices[0], n) + Fanout(notices[1..], n)
  }

  /** Fanning out two runs of changes is fanning out the first, then the second. */
  lemma {:induction false} FanoutAppend(a: seq<Msg>, b: seq<Msg>, n: nat)
    ensures Fanout(a + b, n) == Fanout(a, n) + Fanout(b, n)
  {
    if a == [] {
      assert a + b == b;
    } else {
      assert (a + b)[0] == a[0] && (a + b)[1..] == a[1..] + b;
      FanoutAppend(a[1..], b, n);
    }
  }

  /** One more change reaches a client as `n` more copies at the tail of its queue. */
  lemma FanoutSnoc(notices: seq<Msg>, m: Msg, n: nat)
    ensures Fanout(notices + [m], n) == Fanout(notices, n) + Repeat(m, n)
  {
    FanoutAppend(notices, [m], n);
    assert [m][1..] == [];
    assert Repeat(m, n) + [] == Repeat(m, n);
  }

  /** With the single listener the server registers, a client receives each change exactly once, in order. */
  lemma {:induction false} FanoutSingleListener(notices: seq<Msg>)
    ensures Fanout(notices, 1) == notices
  {
    if notices != [] {
      FanoutSingleListener(notices[1..]);
      assert Repeat(notices[0], 1) == [notices[0]];
    }
  }

  /** A subscriber's outbound queue: first in, first out, never full. */
  class Client {
    var queue: seq<Msg>

    constructor ()
      ensures queue == []
    {
      queue := [];
    }

    /** `put_nowait` on an unbounded queue: always succeeds, appends at the tail. */
    method Put(m: Msg)
      modifies this
      ensures queue == old(queue) + [m]
    {
      queue := queue + [m];
    }

    /** The writer takes the oldest message; the model leaves out the wait on an empty queue. */
    method Get() returns (m: Msg)
      requires queue != []
      modifies this
      ensures m == old(queue)[0] && queue == old(queue)[1..]
      ensures [m] + queue == old(queue)
    {
      m := queue[0];
      queue := queue[1..];
    }
  }

  predicate Distinct(cs: seq<Client>)
  {
    forall i, j :: 0 <= i < j < |cs| ==> cs[i] != cs[j]
  }

  /** Where `c` first occurs in `cs`. */
  function FirstIndex(cs: seq<Client>, c: Client): (i: nat)
    requires c in cs
    ensures i < |cs| && cs[i] == c && c !in cs[..i]
  {
    if cs[0] == c then 0 else FirstIndex(cs[1..], c) + 1
  }

  /** Dropping the entry at a position where `c` occurs for the first time. */
  lemma RemovedAt(cs: seq<Client>, c: Client, i: nat)
    requires i < |cs| && cs[i] == c && c !in cs[..i]
    ensures var r := cs[..i] + cs[i + 1..];
      && |r| == |cs| - 1
      && (forall x :: x in r ==> x in cs)
      && (forall x :: x in cs && x != c ==> x in r)
      && (Distinct(cs) ==> Distinct(r) && c !in r)
  {
    var r := cs[..i] + cs[i + 1..];
    forall x | x in cs && x != c
      ensures x in r
    {
      var j :| 0 <= j < |cs| && cs[j] == x;
      if j < i { assert r[j] == x; } else { assert r[j - 1] == x; }
    }
    if Distinct(cs) {
      forall j, k | 0 <= j < k < |r|
        ensures r[j] != r[k]
      {
        var j', k' := if j < i then j else j + 1, if k < i then k else k + 1;
        assert r[j] == cs[j'] && r[k] == cs[k'];
      }
      forall j | 0 <= j < |r|
        ensures r[j] != c
      {
        assert r[j] == cs[if j < i then j else j + 1];
      }
    }
  }

  /** `list.remove(c)`: drops the first occurrence of `c` and keeps the rest in order. */
  function Without(cs: seq<Client>, c: Client): (r: seq<Client>)
    ensures c in cs ==> r == cs[..FirstIndex(cs, c)] + cs[FirstIndex(cs, c) + 1..]
    ensures c !in cs ==> r == cs
    ensures c in cs ==> |r| == |cs| - 1
    ensures forall x :: x in r ==> x in cs
    ensures forall x :: x in cs && x != c ==> x in r
    ensures Distinct(cs) ==> Distinct(r) && c !in r
  {
    if c !in cs then cs
    else if cs[0] == c then
      RemovedAt(cs, c, 0);
      cs[1..]
    else
      var rest := Without(cs[1..], c);
      RemovedAfterHead(cs, c, rest);
      RemovedAt(cs, c, FirstIndex(cs, c));
      [cs[0]] + rest
  }

  /** Removing the first `c` behind a head that is not `c` keeps the head in front. */
  lemma RemovedAfterHead(cs: seq<Client>, c: Client, rest: seq<Client>)
    requires c in cs && cs[0] != c
    requires rest == cs[1..][..FirstIndex(cs[1..], c)] + cs[1..][FirstIndex(cs[1..], c) + 1..]
    ensures [cs[0]] + rest == cs[..FirstIndex(cs, c)] + cs[FirstIndex(cs, c) + 1..]
  {
    var tail, i := cs[1..], FirstIndex(cs[1..], c);
    assert FirstIndex(cs, c) == i + 1;
    assert cs[..i + 1] == [cs[0]] + tail[..i] && cs[i + 2..] == tail[i + 1..];
  }

  /** Removing a client that was added last, and only once, gives back the list before. */
  lemma WithoutLast(cs: seq<Client>, c: Client)
    requires c !in cs
    ensures Without(cs + [c], c) == cs
  {
    if cs != [] {
      assert (cs + [c])[1..] == cs[1..] + [c];
      WithoutLast(cs[1..], c);
    }
  }

  /** The module-level `clients` list: the websockets currently subscribed. */
  class Registry {
    var clients: seq<Client>

    /** Every subscription adds a new client, so no client is listed twice. */
    ghost predicate Valid()
      reads this
    {
      Distinct(clients)
    }

    ghost function Members(): set<Client>
      reads this
    {
      set c | c in clients
    }

    constructor ()
      ensures Valid() && clients == []
    {
      clients := [];
    }

    /** A websocket connects: a new empty client joins the end of the list. */
    method Subscribe() returns (c: Client)
      requires Valid()
      modifies this
      ensures Valid() && fresh(c) && c.queue == []
      ensures clients == old(clients) + [c]
    {
      c := new Client();
      clients := clients + [c];
    }

    /** The websocket is gone: its client leaves the list; `found` is false where Python raises ValueError. */
    method Unsubscribe(c: Client) returns (found: bool)
      requires Valid()
      modifies this
      ensures Valid() && c !in clients
      ensures found == (c in old(clients))
      ensures clients == Without(old(clients), c)
    {
      found := c in clients;
      clients := Without(clients, c);
    }

    /** `set_listener`: queue `{entity: data}` once on every registered client, and on nothing else. */
    method SetListener(entity: string, data: Json)
      requires Valid()
      modifies Members()
      ensures forall c :: c in clients ==> c.queue == old(c.queue) + [Msg(entity, data)]
      ensures forall c: Client :: old(allocated(c)) && c !in clients ==> c.queue == old(c.queue)
    {
      var m := Msg(entity, data);
      for i := 0 to |clients|
        invariant forall c :: c in clients[..i] ==> c.queue == old(c.queue) + [m]
        invariant forall c :: c in clients[i..] ==> c.queue == old(c.queue)
      {
        assert clients[i] !in clients[..i] && clients[i] !in clients[i + 1..];
        clients[i].Put(m);
        assert clients[..i + 1] == clients[..i] + [clients[i]];
      }
      assert clients[..|clients|] == clients;
    }
  }
}
