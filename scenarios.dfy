/**
 Concrete sessions with the server: what a websocket client and the HTTP routes
 observe, stated as assertions that Dafny proves from the model's contracts.
 */
module Scenarios {
  import opened Wrappers
  import opened Json
  import opened Broadcast
  import opened Store
  import opened Sockets

  /**
   Entity "5" holds `{"x": 1, "y": 2}`; a connected client sends
   `{"5": {"x": 3, "y": 2}}`: every subscriber, the sender included, is sent
   `{"5": {"x": 3, "y": 2}}`, and `GET /entity/5` answers the new value.
   */
  method MoveIsEchoed()
  {
    var world := Start();
    var before := JObject([("x", JNumber(1)), ("y", JNumber(2))]);
    var after := JObject([("x", JNumber(3)), ("y", JNumber(2))]);
    assert WellFormed(before) && WellFormed(after);
    world.Set("5", before);
    var sender := world.clients.Subscribe();
    var other := world.clients.Subscribe();
    var frames := [Packet(JObject([("5", after)])), Closed];
    assert Read(None, frames[1..]) == Session(Ended, []);
    assert Read(None, frames) == Session(Ended, [SetOp("5", after)]);
    var moved := SetEntity(world.space, "5", after);
    assert [SetOp("5", after)][1..] == [];
    assert Step(world.space, SetOp("5", after)) == Some(moved);
    assert Notices(moved, SetOp("5", after)) == [Msg("5", after)];
    assert Run(world.space, [SetOp("5", after)]) == Some(Outcome(moved, [Msg("5", after)] + []));
    assert frames[0].value == JObject([("5", after)]) && !frames[1].Packet?;
    assert WellFormed(JObject([("5", after)]));
    assert Parsed(frames);
    var exit := ReadWs(world, frames);
    assert exit == Ended;
    FanoutSingleListener([Msg("5", after)]);
    assert sender.queue == [Msg("5", after)];
    assert other.queue == [Msg("5", after)];
    assert world.Get("5") == after;
  }

  /** A client sends `{"7": "HELLO"}`: nothing is broadcast and the world is as it was. */
  method HandshakeChangesNothing()
  {
    var world := Start();
    world.Set("3", EmptyObject);
    var client := world.clients.Subscribe();
    var space := world.space;
    var frames := [Packet(JObject([("7", Hello)]))];
    assert Read(Some(Hello), frames[1..]) == Session(Waiting, []);
    assert Read(None, frames) == Session(Waiting, []);
    assert WellFormed(frames[0].value);
    var exit := ReadWs(world, frames);
    assert exit == Waiting;
    assert world.space == space;
    assert client.queue == [];
  }

  /** PUT `{"color": "red"}` on entity "9" holding `{"x": 1}` stores `{"x": 1, "color": "red"}`. */
  method PutAddsMember()
  {
    var world := Start();
    world.Set("9", JObject([("x", JNumber(1))]));
    var merged := JObject([("x", JNumber(1)), ("color", JString("red"))]);
    var body := JObject([("color", JString("red"))]);
    assert UpdatesFor("9", body.fields) == [UpdateOp("9", "color", JString("red"))];
    var r := PutEntity(world, "9", body);
    assert r == Ok(merged);
    assert world.Get("9") == merged;
  }

  /** `update` on an entity never written creates it as an object with that one member. */
  method UpdateCreatesEntity()
  {
    var world := Start();
    var ok := world.Update("2", "x", JNumber(4));
    assert ok;
    assert world.Get("2") == JObject([("x", JNumber(4))]);
  }

  /** A subscriber that has gone away is sent nothing more, while the others still are. */
  method RemovedSubscriberHearsNothing()
  {
    var world := Start();
    var gone := world.clients.Subscribe();
    var stays := world.clients.Subscribe();
    var found := world.clients.Unsubscribe(gone);
    assert found;
    world.Set("1", JString("moved"));
    assert gone.queue == [];
    assert stays in world.clients.clients;
    assert stays.queue == [Msg("1", JString("moved"))];
  }

  /** Two subscribers registered before two changes both receive them in the order they happened. */
  method SubscribersAgreeOnOrder()
  {
    var world := Start();
    var a := world.clients.Subscribe();
    var b := world.clients.Subscribe();
    var m1 := JObject([("x", JNumber(1))]);
    world.Set("1", m1);
    assert Repeat(Msg("1", m1), 1) == [Msg("1", m1)];
    var ok := world.Update("1", "y", JNumber(2));
    assert ok;
    var m2 := world.Get("1");
    assert Repeat(Msg("1", m2), 1) == [Msg("1", m2)];
    assert a.queue == [Msg("1", m1), Msg("1", m2)];
    assert b.queue == [Msg("1", m1), Msg("1", m2)];
    var first := a.Get();
    var second := a.Get();
    assert first == Msg("1", m1) && second == Msg("1", m2);
  }

  /** `clear` empties the world, queues nothing and keeps the listener registered. */
  method ClearIsSilent()
  {
    var world := Start();
    var client := world.clients.Subscribe();
    world.Set("4", JNumber(0));
    var queued := client.queue;
    world.Clear();
    assert world.Snapshot() == map[];
    assert world.Get("4") == EmptyObject;
    assert client.queue == queued;
    assert world.listeners == [SetListener];
  }
}
