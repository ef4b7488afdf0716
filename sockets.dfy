/**
 The request side of sockets.py: module start-up, the loop of `read_ws` that
 applies what a websocket sends, and the POST/PUT branch of the entity route.
 */
module Sockets {
  import opened Wrappers
  import opened Json
  import opened Broadcast
  import opened Store

  /**
   Module start-up: the empty `clients` list, `myWorld = World()`, and
   `myWorld.add_set_listener(set_listener)`.
   */
  method Start() returns (world: World)
    ensures fresh(world) && fresh(world.clients) && world.Valid()
    ensures world.space == map[] && world.Log == []
    ensures world.listeners == [SetListener] && world.clients.clients == []
  {
    var clients := new Registry();
    world := new World(clients);
    world.AddSetListener(SetListener);
  }

  // ---------------------------------------------------------------------------
  // read_ws

  /** What one `ws.receive()` yields, after `json.loads`. */
  datatype Frame =
    | Closed              // `receive` returned None: the peer went away
    | Unparsable          // `json.loads` raised
    | Packet(value: Json) // the parsed message

  /** The exception that ends the reader. */
  datatype ReadError =
    | DecodeError   // the text was not JSON
    | NotAnObject   // `packet.items()` on a value that is not a dict
    | UnboundValue  // `v1` read before any packet bound it

  /** How the reader stops: on None, still waiting for more, or by raising. */
  datatype Exit = Ended | Waiting | Raised(error: ReadError)

  /** `set` for every `(entityid, body)` pair of a packet, in order. */
  function SetsOf(pairs: seq<(string, Json)>): (ops: seq<Op>)
  {
    seq(|pairs|, i requires 0 <= i < |pairs| => SetOp(pairs[i].0, pairs[i].1))
  }

  /** Every store call in `ops` is a `set`. */
  predicate AllSets(ops: seq<Op>)
  {
    forall i :: 0 <= i < |ops| ==> ops[i].SetOp?
  }

  /** Every packet among `frames` is a value `json.loads` can produce. */
  predicate Parsed(frames: seq<Frame>)
  {
    forall i :: 0 <= i < |frames| && frames[i].Packet? ==> WellFormed(frames[i].value)
  }

  /**
   Handling one frame when `last` is the value `v1` holds (`None` while it is
   still unbound): stop, or go on with the new `v1` and the `set` calls made.
   */
  datatype Handling = Stop(exit: Exit) | Continue(last: Option<Json>, ops: seq<Op>)

  function Handle(last: Option<Json>, frame: Frame): (h: Handling)
    ensures h.Stop? ==> h.exit != Waiting
    ensures h.Continue? ==> h.last.Some? && AllSets(h.ops)
    ensures h.Continue? && h.ops != [] ==> h.last.value != Hello
  {
    match frame
    case Closed => Stop(Ended)
    case Unparsable => Stop(Raised(DecodeError))
    case Packet(v) =>
      if !v.JObject? then Stop(Raised(NotAnObject))
      else
        var v1 := if v.fields == [] then last else Some(v.fields[|v.fields| - 1].1);
        if v1.None? then Stop(Raised(UnboundValue))
        else if v1.value == Hello then Continue(v1, [])
        else Continue(v1, SetsOf(v.fields))
  }

  /** The reader's whole session: how it ends and every store call it makes, in order. */
  datatype Session = Session(exit: Exit, ops: seq<Op>)

  function Read(last: Option<Json>, frames: seq<Frame>): (r: Session)
    ensures AllSets(r.ops)
    decreases |frames|
  {
    if frames == [] then Session(Waiting, [])
    else match Handle(last, frames[0])
      case Stop(x) => Session(x, [])
      case Continue(v1, ops) =>
        var rest := Read(v1, frames[1..]);
        Session(rest.exit, ops + rest.ops)
  }

  /**
   The loop of `read_ws` over the frames a websocket delivers: the store ends up
   as the run of the session's `set` calls leaves it, and every subscriber has
   been sent those calls' notices, in order, once per registered listener.
   */
  method ReadWs(world: World, frames: seq<Frame>) returns (exit: Exit)
    requires world.Valid() && Parsed(frames)
    modifies world, world.clients.Members()
    ensures world.Valid() && world.listeners == old(world.listeners)
    ensures exit == Read(None, frames).exit
    ensures var run := Run(old(world.space), Read(None, frames).ops);
      && run.Some?
      && world.space == run.value.space
      && forall c :: c in world.clients.clients ==>
           c.queue == old(c.queue) + Fanout(run.value.notices, |world.listeners|)
  {
    var v1: Option<Json> := None;
    ghost var done: seq<Op> := [];
    ghost var notices: seq<Msg> := [];
    ghost var cs, n := world.clients.clients, |world.listeners|;
    var i := 0;
    while i < |frames|
      invariant 0 <= i <= |frames|
      invariant world.Valid() && world.listeners == old(world.listeners)
      invariant Read(None, frames) == Session(Read(v1, frames[i..]).exit, done + Read(v1, frames[i..]).ops)
      invariant Run(old(world.space), done) == Some(Outcome(world.space, notices))
      invariant world.clients.clients == cs
      invariant forall c :: c in cs ==> c.queue == old(c.queue) + Fanout(notices, n)
    {
      ghost var sent, mid := notices, world.space;
      assert frames[i].Packet? ==> WellFormed(frames[i].value);
      var h := Receive(world, v1, frames[i], cs, n);
      ReadStep(v1, frames, i, done);
      if h.Stop? {
        return h.exit;
      }
      ghost var run := Run(mid, h.ops).value;
      RunContinues(old(world.space), done, h.ops);
      FanoutAppend(sent, run.notices, n);
      done, notices := done + h.ops, notices + run.notices;
      v1 := h.last;
      i := i + 1;
    }
    assert frames[i..] == [] && done + [] == done;
    exit := Waiting;
  }

  /** The packet loop's bookkeeping for pair `j`: one more `set`, stepping from where the run stood. */
  lemma SetStep(space: Space, pairs: seq<(string, Json)>, j: nat, mid: Space, notices: seq<Msg>)
    requires j < |pairs| && Run(space, SetsOf(pairs[..j])) == Some(Outcome(mid, notices))
    ensures Run(space, SetsOf(pairs[..j + 1])) ==
      Some(Outcome(SetEntity(mid, pairs[j].0, pairs[j].1), notices + [Msg(pairs[j].0, pairs[j].1)]))
  {
    var op := SetOp(pairs[j].0, pairs[j].1);
    assert SetsOf(pairs[..j + 1]) == SetsOf(pairs[..j]) + [op];
    RunExtend(space, SetsOf(pairs[..j]), op);
  }

  /** Handling frame `i` moves the reader's bookkeeping one frame on. */
  lemma ReadStep(last: Option<Json>, frames: seq<Frame>, i: nat, done: seq<Op>)
    requires i < |frames|
    requires Read(None, frames) == Session(Read(last, frames[i..]).exit, done + Read(last, frames[i..]).ops)
    ensures Handle(last, frames[i]).Stop? ==> Read(None, frames) == Session(Handle(last, frames[i]).exit, done)
    ensures Handle(last, frames[i]).Continue? ==>
      var h := Handle(last, frames[i]);
      Read(None, frames) == Session(Read(h.last, frames[i + 1..]).exit, (done + h.ops) + Read(h.last, frames[i + 1..]).ops)
  {
    ReadUnfold(last, frames, i);
    assert done + [] == done;
    match Handle(last, frames[i])
    case Stop(_) =>
    case Continue(v1, ops) =>
      assert done + (ops + Read(v1, frames[i + 1..]).ops) == (done + ops) + Read(v1, frames[i + 1..]).ops;
  }

  lemma ReadUnfold(last: Option<Json>, frames: seq<Frame>, i: nat)
    requires i < |frames|
    ensures Read(last, frames[i..]) ==
      match Handle(last, frames[i])
      case Stop(x) => Session(x, [])
      case Continue(v1, ops) => Session(Read(v1, frames[i + 1..]).exit, ops + Read(v1, frames[i + 1..]).ops)
  {
    assert frames[i..][0] == frames[i] && frames[i..][1..] == frames[i + 1..];
  }

  /**
   One pass of the `while True` loop of `read_ws` on the frame received: stop,
   or apply the packet's `set` calls and go on with the new `v1`.
   */
  method Receive(world: World, v1: Option<Json>, frame: Frame, ghost cs: seq<Client>, ghost n: nat) returns (h: Handling)
    requires world.Valid() && world.clients.clients == cs && |world.listeners| == n
    requires frame.Packet? ==> WellFormed(frame.value)
    modifies world, world.clients.Members()
    ensures h == Handle(v1, frame)
    ensures world.Valid() && world.listeners == old(world.listeners) && world.clients.clients == cs
    ensures var run := if h.Continue? then Run(old(world.space), h.ops) else Some(Outcome(old(world.space), []));
      && run.Some?
      && world.space == run.value.space
      && forall c :: c in cs ==> c.queue == old(c.queue) + Fanout(run.value.notices, n)
  {
    match frame {
      case Closed =>
        return Stop(Ended);
      case Unparsable =>
        return Stop(Raised(DecodeError));
      case Packet(packet) =>
        if !packet.JObject? {
          return Stop(Raised(NotAnObject));
        }
        var last := LastValue(packet.fields, v1);
        if last.None? {
          return Stop(Raised(UnboundValue));
        }
        if last.value == Hello {
          assert Run(world.space, []) == Some(Outcome(world.space, []));
          return Continue(last, []);
        }
        ApplyPacket(world, packet.fields);
        return Continue(last, SetsOf(packet.fields));
    }
  }

  /** `for k1, v1 in packet.items()`: after the loop `v1` holds the last value, or what it held before. */
  method LastValue(pairs: seq<(string, Json)>, v1: Option<Json>) returns (r: Option<Json>)
    ensures r == if pairs == [] then v1 else Some(pairs[|pairs| - 1].1)
  {
    r := v1;
    for j := 0 to |pairs|
      invariant r == if j == 0 then v1 else Some(pairs[j - 1].1)
    {
      r := Some(pairs[j].1);
    }
  }

  /** `for entityid, body in packet.items(): myWorld.set(entityid, body)`. */
  method ApplyPacket(world: World, pairs: seq<(string, Json)>)
    requires world.Valid() && WellFormed(JObject(pairs))
    modifies world, world.clients.Members()
    ensures world.Valid() && world.listeners == old(world.listeners)
    ensures var run := Run(old(world.space), SetsOf(pairs));
      && run.Some?
      && world.space == run.value.space
      && forall c :: c in world.clients.clients ==>
           c.queue == old(c.queue) + Fanout(run.value.notices, |world.listeners|)
  {
    ghost var notices: seq<Msg> := [];
    ghost var cs, n := world.clients.clients, |world.listeners|;
    for j := 0 to |pairs|
      invariant world.Valid() && world.listeners == old(world.listeners)
      invariant Run(old(world.space), SetsOf(pairs[..j])) == Some(Outcome(world.space, notices))
      invariant world.clients.clients == cs
      invariant forall c :: c in cs ==> c.queue == old(c.queue) + Fanout(notices, n)
    {
      MemberWellFormed(pairs, j);
      SetStep(old(world.space), pairs, j, world.space, notices);
      FanoutSnoc(notices, Msg(pairs[j].0, pairs[j].1), n);
      world.Set(pairs[j].0, pairs[j].1);
      assert world.clients.clients == cs;
      notices := notices + [Msg(pairs[j].0, pairs[j].1)];
    }
    assert pairs[..|pairs|] == pairs;
  }

  /** The reader reads nothing after a None: frames past the first `Closed` have no effect. */
  lemma {:induction false} ReadStopsAtClose(last: Option<Json>, frames: seq<Frame>, i: nat)
    requires i < |frames| && frames[i] == Closed
    ensures Read(last, frames) == Read(last, frames[..i + 1])
    ensures Read(last, frames).exit != Waiting
    decreases i
  {
    if i > 0 {
      assert frames[..i + 1][0] == frames[0] && frames[..i + 1][1..] == frames[1..][..i];
      match Handle(last, frames[0])
      case Stop(_) =>
      case Continue(v1, _) =>
        ReadStopsAtClose(v1, frames[1..], i - 1);
    }
  }

  /** A packet whose last value is "HELLO" is a handshake: no `set` at all, whatever else it holds. */
  lemma HandshakeIgnored(last: Option<Json>, pairs: seq<(string, Json)>, rest: seq<Frame>)
    requires pairs != [] && pairs[|pairs| - 1].1 == Hello
    ensures Read(last, [Packet(JObject(pairs))] + rest) == Read(Some(Hello), rest)
  {
    assert ([Packet(JObject(pairs))] + rest)[1..] == rest;
  }

  /** Any other packet is applied pair by pair with `set`, in the packet's order, before what follows. */
  lemma PacketApplied(last: Option<Json>, pairs: seq<(string, Json)>, rest: seq<Frame>)
    requires pairs != [] && pairs[|pairs| - 1].1 != Hello
    ensures var s := Read(Some(pairs[|pairs| - 1].1), rest);
      Read(last, [Packet(JObject(pairs))] + rest) == Session(s.exit, SetsOf(pairs) + s.ops)
  {
    assert ([Packet(JObject(pairs))] + rest)[1..] == rest;
  }

  /**
   Only the last pair is looked at: a "HELLO" elsewhere in a packet is stored as
   that entity's value, and a "HELLO" last discards the pairs before it.
   */
  lemma OnlyLastPairChecked(x: Json)
    requires x != Hello
    ensures Read(None, [Packet(JObject([("7", Hello), ("8", x)]))]).ops == [SetOp("7", Hello), SetOp("8", x)]
    ensures Read(None, [Packet(JObject([("8", x), ("7", Hello)]))]).ops == []
  {
  }

  /** `v1` outlives the packet that bound it: an empty packet raises only before any other packet. */
  lemma EmptyPacket(last: Option<Json>, rest: seq<Frame>)
    ensures last.None? ==> Read(last, [Packet(EmptyObject)] + rest) == Session(Raised(UnboundValue), [])
    ensures last.Some? ==> Read(last, [Packet(EmptyObject)] + rest) == Read(last, rest)
  {
    assert ([Packet(EmptyObject)] + rest)[1..] == rest;
  }

  /** The messages a run of `set` calls broadcasts: `{entityid: body}` for each call, in order. */
  function SetMessages(ops: seq<Op>): (ms: seq<Msg>)
    requires AllSets(ops)
  {
    seq(|ops|, i requires 0 <= i < |ops| => Msg(ops[i].entity, ops[i].data))
  }

  /** `set` never raises, and each call notifies its entity with the body just stored. */
  lemma {:induction false} SetsNotifyBodies(space: Space, ops: seq<Op>)
    requires AllSets(ops)
    ensures Run(space, ops).Some? && Run(space, ops).value.notices == SetMessages(ops)
    decreases |ops|
  {
    if ops != [] {
      var next := SetEntity(space, ops[0].entity, ops[0].data);
      SetsNotifyBodies(next, ops[1..]);
      assert SetMessages(ops) == [Msg(ops[0].entity, ops[0].data)] + SetMessages(ops[1..]);
    }
  }

  /**
   In the running server (one listener), every subscriber receives `{entityid: body}`
   exactly once for each `set` the reader makes, in the order it makes them.
   */
  lemma SubscribersReceiveEachSet(space: Space, frames: seq<Frame>)
    ensures AllSets(Read(None, frames).ops)
    ensures Run(space, Read(None, frames).ops).Some?
    ensures Fanout(Run(space, Read(None, frames).ops).value.notices, 1) == SetMessages(Read(None, frames).ops)
  {
    SetsNotifyBodies(space, Read(None, frames).ops);
    FanoutSingleListener(Run(space, Read(None, frames).ops).value.notices);
  }

  // ---------------------------------------------------------------------------
  // subscribe_socket

  /**
   The writer loop of `subscribe_socket`: pop the oldest message and send it,
   again and again. The model sends what is queued and stops where the real
   loop would block on an empty queue.
   */
  method WriteWs(client: Client) returns (sent: seq<Msg>)
    modifies client
    ensures sent == old(client.queue) && client.queue == []
  {
    sent := [];
    while client.queue != []
      invariant sent + client.queue == old(client.queue)
      decreases |client.queue|
    {
      var m := client.Get();
      sent := sent + [m];
    }
  }

  /**
   One websocket's life under one fixed interleaving: the client is registered,
   the reader applies every frame that arrives, the writer then sends what was
   queued, and the client is removed. In the server the removal happens only
   when `ws.send` raises; here the writer's end is taken as that moment. The
   socket is sent the notices of its own changes, once per listener, in order,
   and nothing is queued for it afterwards.
   */
  method SubscribeSocket(world: World, frames: seq<Frame>) returns (exit: Exit, sent: seq<Msg>)
    requires world.Valid() && Parsed(frames)
    modifies world, world.clients, world.clients.Members()
    ensures world.Valid() && world.listeners == old(world.listeners)
    ensures world.clients.clients == old(world.clients.clients)
    ensures exit == Read(None, frames).exit
    ensures var run := Run(old(world.space), Read(None, frames).ops);
      && run.Some?
      && world.space == run.value.space
      && sent == Fanout(run.value.notices, |world.listeners|)
  {
    var client := world.clients.Subscribe();
    exit := ReadWs(world, frames);
    sent := WriteWs(client);
    var found := world.clients.Unsubscribe(client);
    assert found;
    WithoutLast(old(world.clients.clients), client);
  }

  // ---------------------------------------------------------------------------
  // POST and PUT on /entity/<entity>

  /** What the route returns: the entity's value, or a server error when the handler raises. */
  datatype Response = Ok(body: Json) | ServerError

  /** POST: `set` the entity to the body and answer with what `get` then returns. */
  method PostEntity(world: World, e: Key, body: Json) returns (r: Response)
    requires world.Valid() && WellFormed(body)
    modifies world, world.clients.Members()
    ensures world.Valid() && world.listeners == old(world.listeners)
    ensures r == Ok(body)
    ensures world.space == SetEntity(old(world.space), e, body)
    ensures forall c :: c in world.clients.clients ==>
              c.queue == old(c.queue) + Repeat(Msg(e, body), |world.listeners|)
  {
    world.Set(e, body);
    r := Ok(world.Get(e));
  }

  /** `/clear`: empty the world and answer what `world()` then returns. */
  method ClearRoute(world: World) returns (r: Space)
    modifies world`space
    ensures r == map[] && world.space == map[]
    ensures forall e :: world.Get(e) == EmptyObject
  {
    world.Clear();
    r := world.Snapshot();
  }

  /** The `update` calls a PUT makes for a body with members `pairs`: one per member, in order. */
  function UpdatesFor(e: Key, pairs: seq<(string, Json)>): seq<Op>
  {
    seq(|pairs|, i requires 0 <= i < |pairs| => UpdateOp(e, pairs[i].0, pairs[i].1))
  }

  /**
   PUT: one `update` per member of the body, in order, then answer with `get`.
   A body that is not an object, or an entity whose value is not an object,
   makes the handler raise before anything changes.
   */
  method PutEntity(world: World, e: Key, body: Json) returns (r: Response)
    requires world.Valid() && WellFormed(body)
    modifies world, world.clients.Members()
    ensures world.Valid() && world.listeners == old(world.listeners)
    ensures r == ServerError ==> world.space == old(world.space)
    ensures r == ServerError ==> forall c :: c in world.clients.clients ==> c.queue == old(c.queue)
    ensures !body.JObject? ==> r == ServerError
    ensures body.JObject? ==>
      var run := Run(old(world.space), UpdatesFor(e, body.fields));
      && (r.Ok? <==> run.Some?)
      && (r.Ok? ==> world.space == run.value.space && r.body == Lookup(world.space, e))
      && (r.Ok? ==> forall c :: c in world.clients.clients ==>
                      c.queue == old(c.queue) + Fanout(run.value.notices, |world.listeners|))
    ensures r.Ok? && old(world.Get(e)).JObject? ==>
      r.body.JObject? && AsMap(r.body.fields) == AsMap(old(world.Get(e)).fields) + AsMap(body.fields)
  {
    if !body.JObject? {
      return ServerError;
    }
    ghost var before, entry := world.space, world.Get(e);
    var ok := ApplyUpdates(world, e, body.fields);
    if !ok {
      return ServerError;
    }
    r := Ok(world.Get(e));
    if Lookup(before, e).JObject? {
      PutMergesBody(before, e, body.fields);
    }
  }

  /**
   `for k, v in postResponseBody.items(): myWorld.update(entity, k, v)`. Only the first
   `update` can fail: once one succeeded the entity holds an object.
   */
  method ApplyUpdates(world: World, e: Key, pairs: seq<(string, Json)>) returns (ok: bool)
    requires world.Valid() && WellFormed(JObject(pairs))
    modifies world, world.clients.Members()
    ensures world.Valid() && world.listeners == old(world.listeners)
    ensures ok <==> Run(old(world.space), UpdatesFor(e, pairs)).Some?
    ensures !ok ==> world.space == old(world.space)
    ensures !ok ==> forall c :: c in world.clients.clients ==> c.queue == old(c.queue)
    ensures ok ==>
      var run := Run(old(world.space), UpdatesFor(e, pairs)).value;
      && world.space == run.space
      && forall c :: c in world.clients.clients ==>
           c.queue == old(c.queue) + Fanout(run.notices, |world.listeners|)
  {
    ghost var notices: seq<Msg> := [];
    ghost var cs := world.clients.clients;
    ghost var n := |world.listeners|;
    for j := 0 to |pairs|
      invariant world.Valid() && world.listeners == old(world.listeners)
      invariant Run(old(world.space), UpdatesFor(e, pairs[..j])) == Some(Outcome(world.space, notices))
      invariant world.clients.clients == cs
      invariant forall c :: c in cs ==> c.queue == old(c.queue) + Fanout(notices, n)
    {
      PutStep(old(world.space), e, pairs, j);
      ok := world.Update(e, pairs[j].0, pairs[j].1);
      assert world.clients.clients == cs;
      if !ok {
        PutOutcome(old(world.space), e, pairs[..j]);
        assert pairs[..j] == [] && notices == [] && Fanout(notices, n) == [];
        return;
      }
      FanoutSnoc(notices, Msg(e, world.Get(e)), n);
      notices := notices + [Msg(e, world.Get(e))];
    }
    assert pairs[..|pairs|] == pairs;
    ok := true;
  }

  /** The PUT loop's bookkeeping for member `j`: one more `update`, and a failure there fails the whole run. */
  lemma PutStep(space: Space, e: Key, pairs: seq<(string, Json)>, j: nat)
    requires j < |pairs| && Run(space, UpdatesFor(e, pairs[..j])).Some?
    ensures var op, o := UpdateOp(e, pairs[j].0, pairs[j].1), Run(space, UpdatesFor(e, pairs[..j])).value;
      Run(space, UpdatesFor(e, pairs[..j + 1])) ==
        match Step(o.space, op)
        case None => None
        case Some(after) => Some(Outcome(after, o.notices + Notices(after, op)))
    ensures Run(space, UpdatesFor(e, pairs[..j + 1])).None? ==> Run(space, UpdatesFor(e, pairs)).None?
  {
    UpdatesForSplit(e, pairs, j);
    RunExtend(space, UpdatesFor(e, pairs[..j]), UpdateOp(e, pairs[j].0, pairs[j].1));
    RunAppend(space, UpdatesFor(e, pairs[..j + 1]), UpdatesFor(e, pairs[j + 1..]));
  }

  lemma UpdatesForSplit(e: Key, pairs: seq<(string, Json)>, j: nat)
    requires j < |pairs|
    ensures UpdatesFor(e, pairs[..j + 1]) == UpdatesFor(e, pairs[..j]) + [UpdateOp(e, pairs[j].0, pairs[j].1)]
    ensures UpdatesFor(e, pairs) == UpdatesFor(e, pairs[..j + 1]) + UpdatesFor(e, pairs[j + 1..])
  {
  }

  /**
   What a PUT does to the store: it fails exactly when the body has members and
   the entity's value is not an object; otherwise the entity's members are the
   old ones with the body's assigned in order, every other entity is untouched,
   and listeners hear one notice per member.
   */
  lemma {:induction false} PutOutcome(space: Space, e: Key, pairs: seq<(string, Json)>)
    ensures Run(space, UpdatesFor(e, pairs)).Some? <==> (pairs == [] || Lookup(space, e).JObject?)
    ensures Run(space, UpdatesFor(e, pairs)).Some? ==>
      var after := Run(space, UpdatesFor(e, pairs)).value;
      && |after.notices| == |pairs|
      && (forall other :: other != e ==> Lookup(after.space, other) == Lookup(space, other))
      && (pairs == [] ==> after.space == space)
      && (pairs != [] ==> Lookup(after.space, e) == JObject(Merge(Lookup(space, e).fields, pairs)))
    decreases |pairs|
  {
    if pairs != [] {
      var ops := UpdatesFor(e, pairs);
      assert ops[0] == UpdateOp(e, pairs[0].0, pairs[0].1);
      assert ops[1..] == UpdatesFor(e, pairs[1..]);
      match Step(space, ops[0])
      case None =>
      case Some(next) =>
        PutOutcome(next, e, pairs[1..]);
    }
  }

  /**
   PUT with an object body on an entity holding an object (or nothing yet)
   leaves the entity as the old object overridden by the body's members.
   */
  lemma PutMergesBody(space: Space, e: Key, body: seq<(string, Json)>)
    requires Lookup(space, e).JObject?
    requires DistinctKeys(Lookup(space, e).fields) && DistinctKeys(body)
    ensures Run(space, UpdatesFor(e, body)).Some?
    ensures var entry := Lookup(Run(space, UpdatesFor(e, body)).value.space, e);
      && entry.JObject?
      && DistinctKeys(entry.fields)
      && AsMap(entry.fields) == AsMap(Lookup(space, e).fields) + AsMap(body)
  {
    PutOutcome(space, e, body);
    MergeOverrides(Lookup(space, e).fields, body);
    if body == [] {
      assert AsMap(body) == map[];
      assert AsMap(Lookup(space, e).fields) + map[] == AsMap(Lookup(space, e).fields);
    }
  }
}
