/**
 The `World` of sockets.py: a map from entity name to the entity's JSON value,
 with listeners that are called after every `set` and `update`.

 The first half states what the operations do to the map as functions on values
 (`SetEntity`, `UpdateEntity`, and `Run` for a whole history of calls); the class
 `World` is the object the server mutates, and its methods are proved against
 those functions.
 */
module Store {
  import opened Wrappers
  import opened Json
  import opened Broadcast

  type Key = string

  /** The world's contents: `self.space`. */
  type Space = map<Key, Json>

  /** Every stored value is one `json.loads` can produce. */
  predicate WellFormedSpace(space: Space)
  {
    forall e {:trigger WellFormed(space[e])} :: e in space ==> WellFormed(space[e])
  }

  /** `get`: never fails; an entity never written reads as an empty object. */
  function Lookup(space: Space, e: Key): (r: Json)
    ensures e !in space ==> r == EmptyObject
    ensures e in space ==> r == space[e]
  {
    if e in space then space[e] else EmptyObject
  }

  /** `set`: the entity's value is replaced wholesale; every other entity reads as before. */
  function SetEntity(space: Space, e: Key, d: Json): (r: Space)
    ensures Lookup(r, e) == d
    ensures forall other :: other != e ==> Lookup(r, other) == Lookup(space, other)
  {
    space[e := d]
  }

  /**
   `update`: one member of the entity's object is set, the others are kept; an
   unseen entity starts from an empty object. When the stored value is not an
   object, `entry[key] = value` raises TypeError in Python: `None` here, with
   nothing changed.
   */
  function UpdateEntity(space: Space, e: Key, k: string, v: Json): (r: Option<Space>)
    ensures r.Some? <==> Lookup(space, e).JObject?
    ensures r.Some? ==> forall other :: other != e ==> Lookup(r.value, other) == Lookup(space, other)
    ensures r.Some? ==> Lookup(r.value, e).JObject?
    ensures r.Some? ==>
      var before, after := Lookup(space, e).fields, Lookup(r.value, e).fields;
      && Keys(after) == (if k in Keys(before) then Keys(before) else Keys(before) + [k])
      && (DistinctKeys(before) ==> DistinctKeys(after) && AsMap(after) == AsMap(before)[k := v])
  {
    match Lookup(space, e)
    case JObject(fields) => Some(space[e := JObject(Assign(fields, k, v))])
    case _ => None
  }

  /** An update of an entity never written creates it holding just the one member. */
  lemma UpdateUnseen(space: Space, e: Key, k: string, v: Json)
    requires e !in space
    ensures UpdateEntity(space, e, k, v) == Some(space[e := JObject([(k, v)])])
  {
  }

  /** The store operations the rest of the program calls. */
  datatype Op =
    | SetOp(entity: Key, data: Json)
    | UpdateOp(entity: Key, key: string, value: Json)
    | ClearOp

  /** One store call on the map: only an `update` of an entity holding a non-object fails. */
  function Step(space: Space, op: Op): (r: Option<Space>)
    ensures r.None? <==> op.UpdateOp? && !Lookup(space, op.entity).JObject?
  {
    match op
    case SetOp(e, d) => Some(SetEntity(space, e, d))
    case UpdateOp(e, k, v) => UpdateEntity(space, e, k, v)
    case ClearOp => Some(map[])
  }

  /**
   What the listeners are told about an operation, given the space after it: the
   entity and its whole new value for `set` and `update`; nothing for `clear`.
   */
  function Notices(after: Space, op: Op): seq<Msg>
  {
    match op
    case SetOp(e, _) => [Msg(e, Lookup(after, e))]
    case UpdateOp(e, _, _) => [Msg(e, Lookup(after, e))]
    case ClearOp => []
  }

  /** The final space and the notices, in order, of a run of operations that all succeed. */
  datatype Outcome = Outcome(space: Space, notices: seq<Msg>)

  /** Running operations one after the other; `None` as soon as one of them raises. */
  function Run(space: Space, ops: seq<Op>): (r: Option<Outcome>)
    decreases |ops|
  {
    if ops == [] then Some(Outcome(space, []))
    else match Step(space, ops[0])
      case None => None
      case Some(next) => Prepend(Notices(next, ops[0]), Run(next, ops[1..]))
  }

  /** Put `notices` in front of those of a run, if it succeeded. */
  function Prepend(notices: seq<Msg>, r: Option<Outcome>): Option<Outcome>
  {
    match r
    case None => None
    case Some(o) => Some(Outcome(o.space, notices + o.notices))
  }

  /** Continue a run with more operations. */
  function Then(first: Option<Outcome>, ops: seq<Op>): Option<Outcome>
  {
    match first
    case None => None
    case Some(o) =>
      match Run(o.space, ops)
      case None => None
      case Some(o2) => Some(Outcome(o2.space, o.notices + o2.notices))
  }

  /** Running `a + b` is running `a`, then `b` from where `a` left off. */
  lemma {:induction false} RunAppend(space: Space, a: seq<Op>, b: seq<Op>)
    ensures Run(space, a + b) == Then(Run(space, a), b)
    decreases |a|
  {
    if a == [] {
      assert a + b == b;
      match Run(space, b)
      case None =>
      case Some(o) =>
        assert [] + o.notices == o.notices;
    } else {
      assert (a + b)[0] == a[0] && (a + b)[1..] == a[1..] + b;
      match Step(space, a[0])
      case None =>
      case Some(next) =>
        var n := Notices(next, a[0]);
        calc {
          Run(space, a + b);
          Prepend(n, Run(next, a[1..] + b));
          { RunAppend(next, a[1..], b); }
          Prepend(n, Then(Run(next, a[1..]), b));
          { ThenPrepend(n, Run(next, a[1..]), b); }
          Then(Prepend(n, Run(next, a[1..])), b);
          Then(Run(space, a), b);
        }
    }
  }

  lemma ThenPrepend(n: seq<Msg>, r: Option<Outcome>, b: seq<Op>)
    ensures Prepend(n, Then(r, b)) == Then(Prepend(n, r), b)
  {
    match r
    case None =>
    case Some(o) =>
      match Run(o.space, b)
      case None =>
      case Some(o2) =>
        assert n + (o.notices + o2.notices) == (n + o.notices) + o2.notices;
  }

  /** Running one operation more: its step from where the run stood, its notices after the others. */
  lemma RunExtend(space: Space, done: seq<Op>, op: Op)
    requires Run(space, done).Some?
    ensures var o := Run(space, done).value;
      Run(space, done + [op]) ==
        match Step(o.space, op)
        case None => None
        case Some(next) => Some(Outcome(next, o.notices + Notices(next, op)))
  {
    RunAppend(space, done, [op]);
    var o := Run(space, done).value;
    assert [op][1..] == [];
    match Step(o.space, op)
    case None =>
    case Some(next) =>
      assert Run(o.space, [op]) == Some(Outcome(next, Notices(next, op) + []));
      assert Notices(next, op) + [] == Notices(next, op);
  }

  /** A run that stood at `Outcome(space', notices)` and goes on with `ops` from there. */
  lemma RunContinues(space: Space, done: seq<Op>, ops: seq<Op>)
    requires Run(space, done).Some?
    requires Run(Run(space, done).value.space, ops).Some?
    ensures var o, o2 := Run(space, done).value, Run(Run(space, done).value.space, ops).value;
      Run(space, done + ops) == Some(Outcome(o2.space, o.notices + o2.notices))
  {
    RunAppend(space, done, ops);
  }

  /** Whether `op` discards the value of entity `e`: a `set` of it, or `clear`. */
  predicate Resets(op: Op, e: Key)
  {
    op.ClearOp? || (op.SetOp? && op.entity == e)
  }

  /** The `(key, value)` pairs of the updates to `e` among `ops`, in order. */
  function UpdatesTo(e: Key, ops: seq<Op>): seq<(string, Json)>
  {
    if ops == [] then []
    else (if ops[0].UpdateOp? && ops[0].entity == e then [(ops[0].key, ops[0].value)] else [])
         + UpdatesTo(e, ops[1..])
  }

  /**
   With no `set` of `e` and no `clear` in between, `get(e)` after a run of
   operations is its value before with every update to `e` applied in order.
   */
  lemma {:induction false} UpdatesAccumulate(space: Space, ops: seq<Op>, e: Key)
    requires Run(space, ops).Some?
    requires forall i :: 0 <= i < |ops| ==> !Resets(ops[i], e)
    ensures UpdatesTo(e, ops) == [] ==> Lookup(Run(space, ops).value.space, e) == Lookup(space, e)
    ensures UpdatesTo(e, ops) != [] ==>
      && Lookup(space, e).JObject?
      && Lookup(Run(space, ops).value.space, e) == JObject(Merge(Lookup(space, e).fields, UpdatesTo(e, ops)))
    decreases |ops|
  {
    if ops != [] {
      var op, rest := ops[0], ops[1..];
      var next := Step(space, op).value;
      assert Run(next, rest).Some?;
      assert forall i :: 0 <= i < |rest| ==> !Resets(rest[i], e) by {
        forall i | 0 <= i < |rest| ensures !Resets(rest[i], e) {
          assert rest[i] == ops[i + 1];
        }
      }
      UpdatesAccumulate(next, rest, e);
      assert !Resets(ops[0], e);
      if op.UpdateOp? && op.entity == e {
        var pair := (op.key, op.value);
        assert UpdatesTo(e, ops) == [pair] + UpdatesTo(e, rest);
        assert ([pair] + UpdatesTo(e, rest))[1..] == UpdatesTo(e, rest);
      } else {
        assert Lookup(next, e) == Lookup(space, e);
        assert UpdatesTo(e, ops) == UpdatesTo(e, rest);
      }
    }
  }

  /**
   After any history of successful calls, `get(e)` is the value of the last `set`
   of `e` (an empty object after a `clear`), with the updates to `e` made since
   then merged in one key at a time.
   */
  lemma GetAfterLastReset(space: Space, before: seq<Op>, reset: Op, since: seq<Op>, e: Key)
    requires Resets(reset, e)
    requires forall i :: 0 <= i < |since| ==> !Resets(since[i], e)
    requires Run(space, before + [reset] + since).Some?
    ensures var base := if reset.SetOp? then reset.data else EmptyObject;
      UpdatesTo(e, since) == [] ==> Lookup(Run(space, before + [reset] + since).value.space, e) == base
    ensures var base := if reset.SetOp? then reset.data else EmptyObject;
      UpdatesTo(e, since) != [] ==>
        && base.JObject?
        && Lookup(Run(space, before + [reset] + since).value.space, e) == JObject(Merge(base.fields, UpdatesTo(e, since)))
  {
    RunAppend(space, before + [reset], since);
    RunAppend(space, before, [reset]);
    var mid := Run(space, before).value.space;
    var after := Step(mid, reset).value;
    assert [reset][1..] == [];
    assert Run(mid, [reset]).value.space == after;
    assert Run(space, before + [reset]).value.space == after;
    UpdatesAccumulate(after, since, e);
  }

  /** The listener functions the program registers; `set_listener` is the only one it defines. */
  datatype Listener = SetListener

  /** One call of a registered listener: its position in the list, the entity, and the value passed. */
  datatype Invocation = Invocation(position: nat, entity: Key, data: Json)

  /** Each of the first `n` registered listeners called once with `(e, d)`, in registration order. */
  function Invocations(n: nat, e: Key, d: Json): seq<Invocation>
  {
    if n == 0 then [] else Invocations(n - 1, e, d) + [Invocation(n - 1, e, d)]
  }

  /**
   `World`. `clients` is the registry the registered `set_listener` queues onto
   (the module-level list); `Log` records every listener call the world makes.
   */
  class World {
    var space: Space
    var listeners: seq<Listener>
    ghost var Log: seq<Invocation>
    const clients: Registry

    /** The registry lists no client twice, and every stored value is one `json.loads` can produce. */
    ghost predicate Valid()
      reads this, clients
    {
      && clients.Valid()
      && WellFormedSpace(space)
    }

    /** A new world is empty and has no listeners. */
    constructor (clients: Registry)
      requires clients.Valid()
      ensures Valid() && this.clients == clients
      ensures space == map[] && listeners == [] && Log == []
    {
      this.clients := clients;
      space := map[];
      listeners := [];
      Log := [];
    }

    method AddSetListener(listener: Listener)
      modifies this
      ensures listeners == old(listeners) + [listener]
      ensures space == old(space) && Log == old(Log)
    {
      listeners := listeners + [listener];
    }

    /** `update`: set one member of the entity, then tell every listener the entity's new value. */
    method Update(e: Key, k: string, v: Json) returns (ok: bool)
      requires Valid() && WellFormed(v)
      modifies this, clients.Members()
      ensures Valid() && listeners == old(listeners)
      ensures ok <==> UpdateEntity(old(space), e, k, v).Some?
      ensures ok ==> Some(space) == UpdateEntity(old(space), e, k, v)
      ensures ok ==> Get(e).JObject? && AsMap(Get(e).fields) == AsMap(old(Get(e)).fields)[k := v]
      ensures ok ==> Log == old(Log) + Invocations(|listeners|, e, Get(e))
      ensures ok ==> forall c :: c in clients.clients ==> c.queue == old(c.queue) + Repeat(Msg(e, Get(e)), |listeners|)
      ensures !ok ==> space == old(space) && Log == old(Log)
      ensures !ok ==> forall c :: c in clients.clients ==> c.queue == old(c.queue)
    {
      var entry := Get(e);
      if !entry.JObject? {
        return false;
      }
      AssignWellFormed(entry.fields, k, v);
      space := space[e := JObject(Assign(entry.fields, k, v))];
      UpdateListeners(e);
      ok := true;
    }

    /** `set`: replace the entity's value, then tell every listener. */
    method Set(e: Key, d: Json)
      requires Valid() && WellFormed(d)
      modifies this, clients.Members()
      ensures Valid() && listeners == old(listeners)
      ensures space == SetEntity(old(space), e, d)
      ensures Log == old(Log) + Invocations(|listeners|, e, d)
      ensures forall c :: c in clients.clients ==> c.queue == old(c.queue) + Repeat(Msg(e, d), |listeners|)
    {
      space := space[e := d];
      UpdateListeners(e);
    }

    /** `update_listeners`: call each registered listener once, in order, with the entity's current value. */
    method UpdateListeners(e: Key)
      requires Valid()
      modifies this`Log, clients.Members()
      ensures Log == old(Log) + Invocations(|listeners|, e, Get(e))
      ensures forall c :: c in clients.clients ==> c.queue == old(c.queue) + Repeat(Msg(e, Get(e)), |listeners|)
    {
      for i := 0 to |listeners|
        invariant Log == old(Log) + Invocations(i, e, Get(e))
        invariant forall c :: c in clients.clients ==> c.queue == old(c.queue) + Repeat(Msg(e, Get(e)), i)
      {
        match listeners[i] {
          case SetListener => clients.SetListener(e, Get(e));
        }
        Log := Log + [Invocation(i, e, Get(e))];
      }
    }

    /** `clear`: drop every entity; no listener is called and the listeners stay registered. */
    method Clear()
      modifies this`space
      ensures space == map[]
      ensures listeners == old(listeners) && Log == old(Log)
    {
      space := map[];
    }

    /** `get`: what a listener is handed and a GET answers; always something `json.dumps` accepts back. */
    function Get(e: Key): (r: Json)
      reads this
      ensures WellFormedSpace(space) ==> WellFormed(r)
    {
      Lookup(space, e)
    }

    /** `world`: every entity with the value `get` returns for it. */
    function Snapshot(): (r: Space)
      reads this
      ensures forall e :: e in r <==> e in space
      ensures forall e :: e in r ==> Get(e) == r[e]
      ensures forall e :: e !in r ==> Get(e) == EmptyObject
    {
      space
    }
  }
}
