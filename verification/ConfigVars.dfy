/** Configuration variables: a value, its listeners, and the notifications they receive. */
module ConfigVars {

  /** One call of a listener: its arguments, and the value that the variable held at the time. */
  datatype Call<T> = Call(id: nat, before: T, after: T, held: T)

  /** `live` are the ids of the registered listeners in the order of the listener map; `lastId` is the
      shared id counter; `calls` are all notifications ever made; `since` is the value when a
      listener was registered and `until` the value when it was removed. */
  datatype VarState<T> = VarState(
    val: T,
    live: seq<nat>,
    lastId: nat,
    calls: seq<Call<T>>,
    since: map<nat, T>,
    until: map<nat, T>)

  function Fresh<T>(v: T): VarState<T> {
    VarState(v, [], 0, [], map[], map[])
  }

  function Notify<T>(live: seq<nat>, before: T, after: T): (r: seq<Call<T>>)
    ensures |r| == |live|
  {
    seq(|live|, i requires 0 <= i < |live| => Call(live[i], before, after, before))
  }

  /** `setValue`: nothing when the value is the same; otherwise every listener in id order, then the
      assignment. */
  function Assign<T(==)>(s: VarState<T>, v: T): VarState<T> {
    if v == s.val then s else s.(calls := s.calls + Notify(s.live, s.val, v), val := v)
  }

  /** `addListener`: the counter is shared with other variables, so `gap` ids may have gone by. */
  function Register<T>(s: VarState<T>, gap: nat): VarState<T> {
    var id := s.lastId + gap + 1;
    s.(lastId := id, live := s.live + [id], since := s.since[id := s.val])
  }

  function Without(q: seq<nat>, id: nat): (r: seq<nat>)
    ensures forall x :: x in r <==> x in q && x != id
  {
    if q == [] then [] else (if q[0] == id then [] else [q[0]]) + Without(q[1..], id)
  }

  function Unregister<T>(s: VarState<T>, id: nat): VarState<T> {
    if id in s.live then s.(live := Without(s.live, id), until := s.until[id := s.val]) else s
  }

  function UnregisterAll<T>(s: VarState<T>): VarState<T> {
    s.(live := [], until := s.until + map id | id in s.live :: s.val)
  }

  // ---------------------------------------------------------------- runs

  datatype Op<T> = SetValue(v: T) | AddListener(gap: nat) | DelListener(id: nat) | ClearListener

  function Step<T(==)>(s: VarState<T>, op: Op<T>): VarState<T> {
    match op
    case SetValue(v) => Assign(s, v)
    case AddListener(gap) => Register(s, gap)
    case DelListener(id) => Unregister(s, id)
    case ClearListener => UnregisterAll(s)
  }

  function RunOps<T(==)>(s: VarState<T>, ops: seq<Op<T>>): VarState<T>
    decreases |ops|
  {
    if ops == [] then s else RunOps(Step(s, ops[0]), ops[1..])
  }

  /** What listener `id` received, in order. */
  function Received<T>(calls: seq<Call<T>>, id: nat): seq<Call<T>> {
    if calls == [] then []
    else (if calls[0].id == id then [calls[0]] else []) + Received(calls[1..], id)
  }

  /** The calls replay a value: each starts where the one before ended, and each is a real change. */
  predicate Replays<T(==)>(start: T, calls: seq<Call<T>>, end: T)
    decreases |calls|
  {
    if calls == [] then start == end
    else calls[0].before == start && calls[0].after != start && Replays(calls[0].after, calls[1..], end)
  }

  ghost predicate Ascending(q: seq<nat>) {
    forall i, j :: 0 <= i < j < |q| ==> q[i] < q[j]
  }

  /** Ids are in ascending order and new ones are larger; every registered listener's calls replay the
      value from its registration to now, and a removed one's to its removal. */
  ghost predicate VarOK<T>(s: VarState<T>) {
    && Ascending(s.live)
    && (forall id :: id in s.live ==> id <= s.lastId && id in s.since && id !in s.until)
    && (forall id :: id in s.since ==> id <= s.lastId && (id in s.live || id in s.until))
    && (forall id :: id in s.until ==> id in s.since)
    && (forall i :: 0 <= i < |s.calls| ==> s.calls[i].id in s.since)
    && (forall id :: id in s.live ==> Replays(s.since[id], Received(s.calls, id), s.val))
    && (forall id :: id in s.until ==> Replays(s.since[id], Received(s.calls, id), s.until[id]))
  }

  lemma {:induction false} ReceivedAdd<T>(p: seq<Call<T>>, q: seq<Call<T>>, id: nat)
    ensures Received(p + q, id) == Received(p, id) + Received(q, id)
  {
    if p == [] {
      assert p + q == q;
    } else {
      ReceivedAdd(p[1..], q, id);
      assert (p + q)[1..] == p[1..] + q && (p + q)[0] == p[0];
      var first := if p[0].id == id then [p[0]] else [];
      assert first + (Received(p[1..], id) + Received(q, id)) == (first + Received(p[1..], id)) + Received(q, id);
    }
  }

  lemma {:induction false} ReceivedNone<T>(calls: seq<Call<T>>, id: nat)
    requires forall i :: 0 <= i < |calls| ==> calls[i].id != id
    ensures Received(calls, id) == []
  {
    if calls != [] {
      assert calls[0].id != id;
      assert forall i :: 0 <= i < |calls| - 1 ==> calls[1..][i] == calls[i + 1];
      ReceivedNone(calls[1..], id);
    }
  }

  /** One change reaches every live listener exactly once. */
  lemma {:induction false} ReceivedNotify<T>(live: seq<nat>, before: T, after: T, id: nat)
    requires Ascending(live)
    ensures Received(Notify(live, before, after), id) == if id in live then [Call(id, before, after, before)] else []
  {
    var calls := Notify(live, before, after);
    if live != [] {
      assert calls[1..] == Notify(live[1..], before, after);
      assert forall i, j :: 0 <= i < j < |live| - 1 ==> live[1..][i] == live[i + 1] && live[1..][j] == live[j + 1];
      ReceivedNotify(live[1..], before, after, id);
      if live[0] == id {
        assert forall i :: 0 < i < |live| ==> live[i] > id;
        assert id !in live[1..];
      }
    }
  }

  lemma {:induction false} ReplaysSnoc<T>(start: T, calls: seq<Call<T>>, mid: T, c: Call<T>)
    requires Replays(start, calls, mid) && c.before == mid && c.after != mid
    ensures Replays(start, calls + [c], c.after)
    decreases |calls|
  {
    if calls == [] {
      assert calls + [c] == [c];
    } else {
      assert (calls + [c])[1..] == calls[1..] + [c];
      ReplaysSnoc(calls[0].after, calls[1..], mid, c);
    }
  }

  lemma AssignOK<T>(s: VarState<T>, v: T)
    requires VarOK(s)
    ensures VarOK(Assign(s, v))
  {
    if v != s.val {
      var t := Assign(s, v);
      forall id | id in s.since ensures Received(t.calls, id) ==
        if id in s.live then Received(s.calls, id) + [Call(id, s.val, v, s.val)] else Received(s.calls, id)
      {
        ReceivedAdd(s.calls, Notify(s.live, s.val, v), id);
        ReceivedNotify(s.live, s.val, v, id);
      }
      forall id | id in s.live ensures Replays(s.since[id], Received(t.calls, id), v) {
        ReplaysSnoc(s.since[id], Received(s.calls, id), s.val, Call(id, s.val, v, s.val));
      }
    }
  }

  lemma RegisterOK<T>(s: VarState<T>, gap: nat)
    requires VarOK(s)
    ensures VarOK(Register(s, gap))
  {
    var id, t := s.lastId + gap + 1, Register(s, gap);
    assert id !in s.since;
    ReceivedNone(s.calls, id);
    assert forall x :: x in t.live <==> x in s.live || x == id;
    SnocAscending(s.live, id);
    forall x | x in t.live
      ensures x <= t.lastId && x in t.since && x !in t.until && Replays(t.since[x], Received(t.calls, x), t.val)
    {
      if x != id { assert t.since[x] == s.since[x]; }
    }
    forall x | x in t.until ensures x in t.since && Replays(t.since[x], Received(t.calls, x), t.until[x]) {
      assert x in s.since && t.since[x] == s.since[x];
    }
  }

  lemma SnocAscending(q: seq<nat>, id: nat)
    requires Ascending(q) && forall x :: x in q ==> x < id
    ensures Ascending(q + [id])
  {
    assert forall i :: 0 <= i < |q| ==> q[i] in q;
  }

  lemma {:induction false} WithoutAscending(q: seq<nat>, id: nat)
    requires Ascending(q)
    ensures Ascending(Without(q, id))
  {
    if q != [] {
      assert Ascending(q[1..]) by { assert forall i :: 0 <= i < |q| - 1 ==> q[1..][i] == q[i + 1]; }
      WithoutAscending(q[1..], id);
      var r := Without(q[1..], id);
      forall x | x in r ensures q[0] < x {
        assert x in q[1..];
        var i :| 0 <= i < |q| - 1 && q[1..][i] == x;
        assert q[i + 1] == x;
      }
      assert forall i :: 0 <= i < |r| ==> r[i] in r;
    }
  }

  lemma StepOK<T>(s: VarState<T>, op: Op<T>)
    requires VarOK(s)
    ensures VarOK(Step(s, op))
  {
    match op
    case SetValue(v) => AssignOK(s, v);
    case AddListener(gap) => RegisterOK(s, gap);
    case DelListener(id) => WithoutAscending(s.live, id);
    case ClearListener => {}
  }

  lemma FreshOK<T>(v: T)
    ensures VarOK(Fresh(v))
  {}

  /** In every run from a new variable, what a listener received while registered replays the value,
      call by call: from the value at its registration to the one it has now, or to the one at its
      removal. */
  lemma NotificationsReplay<T>(v: T, ops: seq<Op<T>>, id: nat)
    ensures var s := RunOps(Fresh(v), ops);
      && (id in s.live ==> id in s.since && Replays(s.since[id], Received(s.calls, id), s.val))
      && (id in s.until ==> id in s.since && Replays(s.since[id], Received(s.calls, id), s.until[id]))
      && (id !in s.since ==> Received(s.calls, id) == [])
  {
    FreshOK(v);
    RunOK(Fresh(v), ops);
    var s := RunOps(Fresh(v), ops);
    if id !in s.since { ReceivedNone(s.calls, id); }
  }

  lemma {:induction false} RunOK<T>(s: VarState<T>, ops: seq<Op<T>>)
    requires VarOK(s)
    ensures VarOK(RunOps(s, ops))
    decreases |ops|
  {
    if ops != [] {
      StepOK(s, ops[0]);
      RunOK(Step(s, ops[0]), ops[1..]);
    }
  }

  /** A change calls each live listener once, in ascending id order, with the same pair, while the
      variable still holds the old value. */
  lemma ChangeCallsEachOnce<T>(s: VarState<T>, v: T)
    requires VarOK(s) && v != s.val
    ensures var calls := Assign(s, v).calls[|s.calls|..];
      && |calls| == |s.live|
      && (forall i :: 0 <= i < |calls| ==> calls[i].before == calls[i].held == s.val && calls[i].after == v)
      && (forall i, j :: 0 <= i < j < |calls| ==> calls[i].id < calls[j].id)
      && (forall id :: id in s.live <==> exists i :: 0 <= i < |calls| && calls[i].id == id)
  {
    var calls := Assign(s, v).calls[|s.calls|..];
    assert calls == Notify(s.live, s.val, v);
    forall id | id in s.live ensures exists i :: 0 <= i < |calls| && calls[i].id == id {
      var i :| 0 <= i < |s.live| && s.live[i] == id;
      assert calls[i].id == id;
    }
  }

  lemma ChangeSkips<T>(s: VarState<T>, v: T, id: nat)
    requires Ascending(s.live) && id !in s.live
    ensures Received(Assign(s, v).calls, id) == Received(s.calls, id)
  {
    if v != s.val {
      ReceivedAdd(s.calls, Notify(s.live, s.val, v), id);
      ReceivedNotify(s.live, s.val, v, id);
    }
  }

  /** A listener that is gone stays gone, since numbers are not used again, and hears nothing. */
  lemma {:induction false} StaysGone<T>(s: VarState<T>, ops: seq<Op<T>>, id: nat)
    requires VarOK(s) && id <= s.lastId && id !in s.live
    ensures id !in RunOps(s, ops).live && Received(RunOps(s, ops).calls, id) == Received(s.calls, id)
    decreases |ops|
  {
    if ops != [] {
      var t := Step(s, ops[0]);
      StepOK(s, ops[0]);
      if ops[0].SetValue? { ChangeSkips(s, ops[0].v, id); }
      StaysGone(t, ops[1..], id);
    }
  }

  /** Removing a listener, or all of them, in any run: the others stay registered in their order, and no
      later change calls the removed one. */
  lemma RemovedHearsNothing<T>(v: T, ops: seq<Op<T>>, removal: Op<T>, later: seq<Op<T>>, id: nat)
    requires id in RunOps(Fresh(v), ops).since && (removal == DelListener(id) || removal == ClearListener)
    ensures var s := RunOps(Fresh(v), ops); var t := Step(s, removal);
      && t.val == s.val && t.calls == s.calls && Ascending(t.live)
      && (forall x :: x in t.live <==> x in s.live && x != id && removal != ClearListener)
      && id !in RunOps(t, later).live && Received(RunOps(t, later).calls, id) == Received(s.calls, id)
  {
    var s := RunOps(Fresh(v), ops);
    FreshOK(v);
    RunOK(Fresh(v), ops);
    StepOK(s, removal);
    StaysGone(Step(s, removal), later, id);
  }

  // ---------------------------------------------------------------- the object

  /** The id counter shared by all variables of one type. */
  class IdSource {
    var last: nat
    constructor () ensures last == 0 { last := 0; }
  }

  class ConfigVar<T(==)> {
    var val: T
    var cbs: seq<nat>
    var calls: seq<Call<T>>
    ghost var lastSeen: nat
    ghost var since: map<nat, T>
    ghost var until: map<nat, T>

    constructor (v: T)
      ensures State() == Fresh(v)
    {
      val, cbs, calls := v, [], [];
      lastSeen, since, until := 0, map[], map[];
    }

    ghost function State(): VarState<T>
      reads this
    {
      VarState(val, cbs, lastSeen, calls, since, until)
    }

    /** The first part of `setValue`, under the read lock: an equal value ends it, otherwise every
        listener is called with the value held now and the new one. */
    method NotifyAll(v: T) returns (changed: bool)
      modifies this`calls
      ensures changed <==> v != val
      ensures calls == if changed then old(calls) + Notify(cbs, val, v) else old(calls)
    {
      if v == val {
        return false;
      }
      var i := 0;
      while i < |cbs|
        invariant 0 <= i <= |cbs|
        invariant calls == old(calls) + Notify(cbs[..i], val, v)
      {
        calls := calls + [Call(cbs[i], val, v, val)];
        assert Notify(cbs[..i + 1], val, v) == Notify(cbs[..i], val, v) + [Call(cbs[i], val, v, val)];
        i := i + 1;
      }
      assert cbs[..i] == cbs;
      changed := true;
    }

    /** The second part, under the write lock. */
    method Store(v: T)
      modifies this`val
      ensures val == v
    {
      val := v;
    }

    method SetValue(v: T)
      modifies this`val, this`calls
      ensures State() == Assign(old(State()), v)
    {
      var changed := NotifyAll(v);
      if changed {
        Store(v);
      }
    }

    method AddListener(ids: IdSource) returns (id: nat)
      requires lastSeen <= ids.last
      modifies this`cbs, this`lastSeen, this`since, ids
      ensures id == old(ids.last) + 1 == ids.last
      ensures State() == Register(old(State()), old(ids.last) - old(lastSeen))
    {
      ids.last := ids.last + 1;
      id := ids.last;
      cbs := cbs + [id];
      lastSeen := id;
      since := since[id := val];
    }

    /** The listeners that stay when `id` is erased. */
    method Kept(id: nat) returns (kept: seq<nat>)
      ensures kept == Without(cbs, id)
    {
      kept := [];
      var i := 0;
      while i < |cbs|
        invariant 0 <= i <= |cbs|
        invariant kept == Without(cbs[..i], id)
      {
        WithoutSnoc(cbs[..i], cbs[i], id);
        assert cbs[..i + 1] == cbs[..i] + [cbs[i]];
        if cbs[i] != id {
          kept := kept + [cbs[i]];
        }
        i := i + 1;
      }
      assert cbs[..i] == cbs;
    }

    method DelListener(id: nat)
      modifies this`cbs, this`until
      ensures State() == Unregister(old(State()), id)
    {
      var kept := Kept(id);
      if id in cbs {
        until := until[id := val];
      } else {
        WithoutAbsent(cbs, id);
      }
      cbs := kept;
    }

    method ClearListener()
      modifies this`cbs, this`until
      ensures State() == UnregisterAll(old(State()))
    {
      until := until + map id | id in cbs :: val;
      cbs := [];
    }
  }

  lemma {:induction false} WithoutSnoc(q: seq<nat>, last: nat, id: nat)
    ensures Without(q + [last], id) == Without(q, id) + if last == id then [] else [last]
  {
    if q == [] {
      assert [last][1..] == [] && q + [last] == [last];
    } else {
      assert (q + [last])[1..] == q[1..] + [last];
      WithoutSnoc(q[1..], last, id);
    }
  }

  lemma {:induction false} WithoutAbsent(q: seq<nat>, id: nat)
    requires id !in q
    ensures Without(q, id) == q
  {
    if q != [] { WithoutAbsent(q[1..], id); }
  }
}
