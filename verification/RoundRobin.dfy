/** What a caller-thread scheduler is meant to do: take turns in first-in-first-out order. Every
    task body is a finite script of segments; a turn runs one segment of the first item, appends
    what the segment submitted and then, if it yielded READY, the item itself. */
module RoundRobin {
  import opened Wrappers
  import opened Selections

  datatype Script = Segment(subs: seq<Sub>, end: End)

  datatype End = YieldReady(next: Script) | YieldHold(next: Script) | Return | Throw

  /** A handle names one of the fibers the client created; a number outside that range is a null
      handle. `pinned` pins the submission to the scheduler's own thread. */
  datatype Sub = SubHandle(id: nat, pinned: bool) | SubBody(body: Script, pinned: bool)

  datatype Item = Handle(id: nat) | Body(script: Script)

  /** One executed segment: of the client's fiber `who`, or of a callback. */
  datatype Event = Event(who: Option<nat>, subs: seq<Sub>, end: End)

  /** `rest[i]` is what the client's fiber `i` has still to run. */
  datatype Table = Table(queue: seq<Item>, rest: seq<Option<Script>>)

  datatype Outcome = Outcome(log: seq<Event>, rest: seq<Option<Script>>)

  function Items(subs: seq<Sub>, n: nat): (q: seq<Item>) {
    if subs == [] then []
    else
      (match subs[0]
       case SubHandle(id, _) => if id < n then [Handle(id)] else []
       case SubBody(b, _) => [Body(b)]) + Items(subs[1..], n)
  }

  function NextOf(e: End): Option<Script> {
    match e
    case YieldReady(s) => Some(s)
    case YieldHold(s) => Some(s)
    case Return => None
    case Throw => None
  }

  /** The first item takes its turn. */
  function Turn(a: Table): (r: (Table, seq<Event>))
    requires a.queue != []
    ensures |r.0.rest| == |a.rest|
  {
    var tail := a.queue[1..];
    match a.queue[0]
    case Handle(id) =>
      if id < |a.rest| && a.rest[id].Some? then
        var s := a.rest[id].value;
        var again := if s.end.YieldReady? then [Handle(id)] else [];
        (a.(queue := tail + Items(s.subs, |a.rest|) + again, rest := a.rest[id := NextOf(s.end)]),
         [Event(Some(id), s.subs, s.end)])
      else (a.(queue := tail), [])
    case Body(s) =>
      var again := if s.end.YieldReady? then [Body(s.end.next)] else [];
      (a.(queue := tail + Items(s.subs, |a.rest|) + again),
       [Event(None, s.subs, s.end)])
  }

  // ---------------------------------------------------------------- the measure

  function Weight(s: Script): (w: nat)
    ensures w >= 1
    decreases s
  {
    1 + SubsWeight(s.subs) +
      match s.end
      case YieldReady(n) => Weight(n)
      case YieldHold(n) => Weight(n)
      case _ => 0
  }

  function SubsWeight(subs: seq<Sub>): nat
    decreases subs
  {
    if subs == [] then 0 else SubWeight(subs[0]) + SubsWeight(subs[1..])
  }

  function SubWeight(sub: Sub): nat
    decreases sub
  {
    match sub
    case SubBody(b, _) => Weight(b)
    case SubHandle(_, _) => 0
  }

  function ItemWeight(i: Item): nat {
    match i case Body(s) => Weight(s) case Handle(_) => 0
  }

  function QueueWeight(q: seq<Item>): nat {
    if q == [] then 0 else ItemWeight(q[0]) + QueueWeight(q[1..])
  }

  function OptWeight(o: Option<Script>): nat {
    if o.Some? then Weight(o.value) else 0
  }

  function RestWeight(r: seq<Option<Script>>): nat {
    if r == [] then 0 else OptWeight(r[0]) + RestWeight(r[1..])
  }

  /** Segments still to run, in the queue, in the client's fibers and in nested submissions. */
  function Work(a: Table): nat {
    QueueWeight(a.queue) + RestWeight(a.rest)
  }

  lemma {:induction false} QueueWeightAdd(p: seq<Item>, q: seq<Item>)
    ensures QueueWeight(p + q) == QueueWeight(p) + QueueWeight(q)
  {
    if p == [] {
      assert p + q == q;
    } else {
      assert (p + q)[1..] == p[1..] + q;
      QueueWeightAdd(p[1..], q);
    }
  }

  lemma {:induction false} ItemsWeight(subs: seq<Sub>, n: nat)
    ensures QueueWeight(Items(subs, n)) == SubsWeight(subs)
  {
    if subs != [] {
      ItemsWeight(subs[1..], n);
      var head := match subs[0]
        case SubHandle(id, _) => if id < n then [Handle(id)] else []
        case SubBody(b, _) => [Body(b)];
      QueueWeightAdd(head, Items(subs[1..], n));
    }
  }

  lemma {:induction false} RestUpdate(r: seq<Option<Script>>, i: nat, o: Option<Script>)
    requires i < |r|
    ensures RestWeight(r[i := o]) + OptWeight(r[i]) == RestWeight(r) + OptWeight(o)
  {
    if i == 0 {
      assert r[0 := o][1..] == r[1..];
    } else {
      assert r[i := o][1..] == r[1..][i - 1 := o];
      RestUpdate(r[1..], i - 1, o);
    }
  }

  /** Every turn consumes a segment, or removes the handle of a finished fiber. */
  lemma TurnDecreases(a: Table)
    requires a.queue != []
    ensures var b := Turn(a).0;
      Work(b) < Work(a) || (Work(b) == Work(a) && |b.queue| < |a.queue|)
    ensures Turn(a).1 != [] ==> Work(Turn(a).0) < Work(a)
  {
    var tail := a.queue[1..];
    match a.queue[0]
    case Handle(id) =>
      if id < |a.rest| && a.rest[id].Some? {
        var s := a.rest[id].value;
        var again := if s.end.YieldReady? then [Handle(id)] else [];
        QueueWeightAdd(tail + Items(s.subs, |a.rest|), again);
        QueueWeightAdd(tail, Items(s.subs, |a.rest|));
        ItemsWeight(s.subs, |a.rest|);
        RestUpdate(a.rest, id, NextOf(s.end));
      }
    case Body(s) =>
      var again := if s.end.YieldReady? then [Body(s.end.next)] else [];
      QueueWeightAdd(tail + Items(s.subs, |a.rest|), again);
      QueueWeightAdd(tail, Items(s.subs, |a.rest|));
      ItemsWeight(s.subs, |a.rest|);
  }

  /** The whole rotation. */
  function Rotate(a: Table): (o: Outcome)
    ensures |o.rest| == |a.rest|
    decreases Work(a), |a.queue|
  {
    if a.queue == [] then Outcome([], a.rest)
    else
      TurnDecreases(a);
      var (b, ev) := Turn(a);
      var o := Rotate(b);
      o.(log := ev + o.log)
  }

  lemma RotateOnce(a: Table)
    requires a.queue != []
    ensures Rotate(a).log == Turn(a).1 + Rotate(Turn(a).0).log && Rotate(a).rest == Rotate(Turn(a).0).rest
  {}

  lemma RotateEmpty(a: Table)
    requires a.queue == []
    ensures Rotate(a) == Outcome([], a.rest)
  {}

  /** The order in which the rotation comes to its end. */
  predicate Less(b: Table, a: Table) {
    Work(b) < Work(a) || (Work(b) == Work(a) && |b.queue| < |a.queue|)
  }

  lemma Assoc(p: seq<Event>, q: seq<Event>, r: seq<Event>)
    ensures p + (q + r) == (p + q) + r
  {}

  /** What is left of the rotation after a turn that followed the log `before`. */
  lemma AfterTurn(a: Table, before: seq<Event>, whole: seq<Event>)
    requires a.queue != [] && before + Rotate(a).log == whole
    ensures (before + Turn(a).1) + Rotate(Turn(a).0).log == whole
    ensures Rotate(Turn(a).0).rest == Rotate(a).rest
  {
    RotateOnce(a);
    Assoc(before, Turn(a).1, Rotate(Turn(a).0).log);
  }

  // ---------------------------------------------------------------- what rotation guarantees

  /** At most as many segments run as the scripts hold. */
  lemma {:induction false} RotateBounded(a: Table)
    ensures |Rotate(a).log| <= Work(a)
    decreases Work(a), |a.queue|
  {
    if a.queue != [] {
      TurnDecreases(a);
      RotateBounded(Turn(a).0);
    }
  }

  /** The segments a callback runs: until it yields HOLD, returns or throws. Nobody has a handle to
      resume it by after a HOLD. */
  function Chain(s: Script): multiset<Event>
    decreases Weight(s)
  {
    multiset{Event(None, s.subs, s.end)} + if s.end.YieldReady? then Chain(s.end.next) else multiset{}
  }

  function Chains(q: seq<Item>): multiset<Event> {
    if q == [] then multiset{}
    else (match q[0] case Body(s) => Chain(s) case Handle(_) => multiset{}) + Chains(q[1..])
  }

  /** The segments of all callbacks that were submitted while the log was made. */
  function Submitted(log: seq<Event>, n: nat): multiset<Event> {
    if log == [] then multiset{} else Chains(Items(log[0].subs, n)) + Submitted(log[1..], n)
  }

  /** The segments of callbacks in a log. */
  function Callbacks(log: seq<Event>): multiset<Event> {
    if log == [] then multiset{}
    else (if log[0].who.None? then multiset{log[0]} else multiset{}) + Callbacks(log[1..])
  }

  lemma {:induction false} ChainsAdd(p: seq<Item>, q: seq<Item>)
    ensures Chains(p + q) == Chains(p) + Chains(q)
  {
    if p == [] {
      assert p + q == q;
    } else {
      assert (p + q)[1..] == p[1..] + q;
      ChainsAdd(p[1..], q);
    }
  }

  /** One turn: what it runs and leaves of callbacks is what it found and what it submitted. */
  lemma TurnChains(a: Table)
    requires a.queue != []
    ensures Callbacks(Turn(a).1) + Chains(Turn(a).0.queue) == Chains(a.queue) + Submitted(Turn(a).1, |a.rest|)
  {
    match a.queue[0]
    case Handle(id) => if id < |a.rest| && a.rest[id].Some? { HandleChains(a, id); }
    case Body(s) => BodyChains(a, s);
  }

  lemma HandleChains(a: Table, id: nat)
    requires a.queue != [] && a.queue[0] == Handle(id) && id < |a.rest| && a.rest[id].Some?
    ensures Callbacks(Turn(a).1) + Chains(Turn(a).0.queue) == Chains(a.queue) + Submitted(Turn(a).1, |a.rest|)
  {
    var s := a.rest[id].value;
    TurnParts(a.queue[1..], Items(s.subs, |a.rest|), if s.end.YieldReady? then [Handle(id)] else []);
    OneEvent(Event(Some(id), s.subs, s.end), |a.rest|);
    assert Turn(a).1 == [Event(Some(id), s.subs, s.end)];
    assert Chains(a.queue) == Chains(a.queue[1..]);
  }

  lemma BodyChains(a: Table, s: Script)
    requires a.queue != [] && a.queue[0] == Body(s)
    ensures Callbacks(Turn(a).1) + Chains(Turn(a).0.queue) == Chains(a.queue) + Submitted(Turn(a).1, |a.rest|)
  {
    TurnParts(a.queue[1..], Items(s.subs, |a.rest|), if s.end.YieldReady? then [Body(s.end.next)] else []);
    OneEvent(Event(None, s.subs, s.end), |a.rest|);
    assert Turn(a).1 == [Event(None, s.subs, s.end)];
    assert Chains(a.queue) == Chain(s) + Chains(a.queue[1..]);
  }

  lemma TurnParts(tail: seq<Item>, subs: seq<Item>, again: seq<Item>)
    requires |again| <= 1
    ensures Chains(tail + subs + again) == Chains(tail) + Chains(subs) + Chains(again)
    ensures Chains(again) == if again == [] then multiset{} else match again[0] case Body(s) => Chain(s) case Handle(_) => multiset{}
  {
    ChainsAdd(tail + subs, again);
    ChainsAdd(tail, subs);
    if again != [] { assert again[1..] == []; }
  }

  lemma OneEvent(e: Event, n: nat)
    ensures Submitted([e], n) == Chains(Items(e.subs, n))
    ensures Callbacks([e]) == if e.who.None? then multiset{e} else multiset{}
  {
    assert [e][1..] == [];
  }

  lemma LogFirst(ev: seq<Event>, log: seq<Event>, n: nat)
    requires |ev| <= 1
    ensures Callbacks(ev + log) == Callbacks(ev) + Callbacks(log)
    ensures Submitted(ev + log, n) == Submitted(ev, n) + Submitted(log, n)
  {
    if ev == [] {
      assert ev + log == log;
    } else {
      assert (ev + log)[1..] == log && ev[1..] == [];
    }
  }

  lemma Balance(now: multiset<Event>, later: multiset<Event>, left: multiset<Event>, found: multiset<Event>,
                subNow: multiset<Event>, subLater: multiset<Event>)
    requires now + left == found + subNow && later == left + subLater
    ensures now + later == found + (subNow + subLater)
  {
    assert now + later == (now + left) + subLater;
    assert (found + subNow) + subLater == found + (subNow + subLater);
  }

  /** Callbacks run to their end, and each of their segments exactly once: the callback segments in
      the log are those of the callbacks queued at the start and of all that were submitted on the
      way. */
  lemma {:induction false} CallbacksRunWhole(a: Table)
    ensures Callbacks(Rotate(a).log) == Chains(a.queue) + Submitted(Rotate(a).log, |a.rest|)
    decreases Work(a), |a.queue|
  {
    if a.queue != [] {
      TurnDecreases(a);
      CallbacksRunWhole(Turn(a).0);
      RotateOnce(a);
      TurnChains(a);
      LogFirst(Turn(a).1, Rotate(Turn(a).0).log, |a.rest|);
      Balance(Callbacks(Turn(a).1), Callbacks(Rotate(Turn(a).0).log), Chains(Turn(a).0.queue), Chains(a.queue),
              Submitted(Turn(a).1, |a.rest|), Submitted(Rotate(Turn(a).0).log, |a.rest|));
    }
  }

  /** The segments of one fiber in a log. */
  function Of(log: seq<Event>, id: nat): seq<Event> {
    if log == [] then []
    else (if log[0].who == Some(id) then [log[0]] else []) + Of(log[1..], id)
  }

  lemma {:induction false} OfAdd(p: seq<Event>, q: seq<Event>, id: nat)
    ensures Of(p + q, id) == Of(p, id) + Of(q, id)
  {
    if p == [] {
      assert p + q == q;
    } else {
      OfAdd(p[1..], q, id);
      assert (p + q)[1..] == p[1..] + q && (p + q)[0] == p[0];
      var first := if p[0].who == Some(id) then [p[0]] else [];
      assert first + (Of(p[1..], id) + Of(q, id)) == (first + Of(p[1..], id)) + Of(q, id);
    }
  }

  /** The successive segments of a script, as fiber `id` runs them. */
  function Segments(id: nat, o: Option<Script>): seq<Event>
    decreases OptWeight(o)
  {
    if o.None? then []
    else
      [Event(Some(id), o.value.subs, o.value.end)] +
      match o.value.end
      case YieldReady(next) => Segments(id, Some(next))
      case YieldHold(next) => Segments(id, Some(next))
      case _ => []
  }

  lemma SegmentsFirst(id: nat, s: Script)
    ensures Segments(id, Some(s)) == [Event(Some(id), s.subs, s.end)] + Segments(id, NextOf(s.end))
  {}

  lemma OfOne(e: Event, id: nat)
    ensures Of([e], id) == if e.who == Some(id) then [e] else []
  {
    assert [e][1..] == [];
  }

  lemma TurnInOrder(a: Table, id: nat)
    requires a.queue != [] && id < |a.rest|
    ensures Of(Turn(a).1, id) + Segments(id, Turn(a).0.rest[id]) == Segments(id, a.rest[id])
    ensures a.queue[0] == Handle(id) && a.rest[id].Some? ==>
      Of(Turn(a).1, id) == [Event(Some(id), a.rest[id].value.subs, a.rest[id].value.end)]
    ensures !(a.queue[0] == Handle(id) && a.rest[id].Some?) ==> Of(Turn(a).1, id) == [] && Turn(a).0.rest[id] == a.rest[id]
  {
    var ev := Turn(a).1;
    if ev != [] {
      assert ev == [ev[0]];
      OfOne(ev[0], id);
    }
    if a.queue[0] == Handle(id) && a.rest[id].Some? { SegmentsFirst(id, a.rest[id].value); }
  }

  /** Who is queued stays queued until its turn, and a READY yield queues again. */
  lemma TurnKeepsQueued(a: Table, id: nat)
    requires a.queue != [] && id < |a.rest| && Handle(id) in a.queue && a.rest[id].Some?
    requires a.queue[0] == Handle(id) ==> a.rest[id].value.end.YieldReady?
    ensures Handle(id) in Turn(a).0.queue
  {
    var q := Turn(a).0.queue;
    if a.queue[0] == Handle(id) {
      assert q[|q| - 1] == Handle(id);
    } else {
      assert a.queue == [a.queue[0]] + a.queue[1..];
      assert a.queue[1..] <= q;
    }
  }

  /** Each fiber runs its own segments in order, each at most once: what it ran, followed by what it
      has left, is what it had at the start. */
  lemma {:induction false} RunsInOrder(a: Table, id: nat)
    requires id < |a.rest|
    ensures Of(Rotate(a).log, id) + Segments(id, Rotate(a).rest[id]) == Segments(id, a.rest[id])
    decreases Work(a), |a.queue|
  {
    if a.queue != [] {
      TurnDecreases(a);
      var (b, ev) := Turn(a);
      RunsInOrder(b, id);
      OfAdd(ev, Rotate(b).log, id);
      TurnInOrder(a, id);
    }
  }

  /** No fiber is left READY: a queued fiber with work left runs, and the last segment it runs does
      not end in a READY yield. */
  lemma {:induction false} NotLeftReady(a: Table, id: nat)
    requires id < |a.rest|
    ensures var ran := Of(Rotate(a).log, id);
      && (Handle(id) in a.queue && a.rest[id].Some? ==> ran != [])
      && (ran != [] ==> !ran[|ran| - 1].end.YieldReady?)
    decreases Work(a), |a.queue|
  {
    if a.queue != [] {
      TurnDecreases(a);
      var (b, ev) := Turn(a);
      NotLeftReady(b, id);
      OfAdd(ev, Rotate(b).log, id);
      TurnInOrder(a, id);
      if Handle(id) in a.queue && a.rest[id].Some? && (a.queue[0] == Handle(id) ==> a.rest[id].value.end.YieldReady?) {
        TurnKeepsQueued(a, id);
      }
    }
  }

  // ---------------------------------------------------------------- what a segment submits

  /** A submission that queues something: a callback, or the handle of one of the client's `n` fibers. */
  predicate Takes(sub: Sub, n: nat) {
    sub.SubBody? || sub.id < n
  }

  predicate StandsFor(it: Item, sub: Sub) {
    match sub
    case SubHandle(id, _) => it == Handle(id)
    case SubBody(body, _) => it == Body(body)
  }

  /** The items `q` are those submissions, in their order, and nothing else. */
  ghost predicate QueuesAt(q: seq<Item>, subs: seq<Sub>, n: nat, idx: seq<nat>) {
    && |q| == |idx| && Lists(idx, set i: nat | i < |subs| && Takes(subs[i], n))
    && forall k :: 0 <= k < |q| ==> idx[k] < |subs| && StandsFor(q[k], subs[idx[k]])
  }

  lemma ItemsOne(sub: Sub, n: nat)
    ensures Items([sub], n) == if !Takes(sub, n) then [] else if sub.SubBody? then [Body(sub.body)] else [Handle(sub.id)]
  {
    assert [sub][1..] == [];
  }

  lemma ItemsCons(subs: seq<Sub>, n: nat)
    requires subs != []
    ensures Items(subs, n) == Items([subs[0]], n) + Items(subs[1..], n)
  {
    assert [subs[0]][1..] == [];
  }

  lemma {:induction false} ItemsSnoc(subs: seq<Sub>, last: Sub, n: nat)
    ensures Items(subs + [last], n) == Items(subs, n) + Items([last], n)
  {
    if subs == [] {
      assert subs + [last] == [last];
    } else {
      ItemsSnoc(subs[1..], last, n);
      assert (subs + [last])[1..] == subs[1..] + [last];
      ItemsCons(subs, n);
      ItemsCons(subs + [last], n);
    }
  }

  lemma {:induction false} ItemsQueue(subs: seq<Sub>, n: nat) returns (idx: seq<nat>)
    ensures QueuesAt(Items(subs, n), subs, n, idx)
    decreases |subs|
  {
    idx := [];
    if subs != [] {
      var m := |subs| - 1;
      var first, last := subs[..m], subs[m];
      idx := ItemsQueue(first, n);
      assert subs == first + [last];
      ItemsSnoc(first, last, n);
      ItemsOne(last, n);
      var before, all := set i: nat | i < m && Takes(first[i], n), set i: nat | i < |subs| && Takes(subs[i], n);
      assert all == if Takes(last, n) then before + {m} else before;
      if Takes(last, n) {
        ListsSnoc(idx, before, m);
        idx := idx + [m];
      }
    }
  }

  /** The first item runs a segment of script `s`. */
  predicate Plays(a: Table, s: Script) {
    a.queue != [] &&
    match a.queue[0]
    case Handle(id) => id < |a.rest| && a.rest[id] == Some(s)
    case Body(b) => b == s
  }

  /** A turn that runs a segment: behind what was queued stand the callbacks and the client's handles it
      submits, in their order, then the item itself if it yielded READY, and nothing else. */
  lemma TurnQueues(a: Table, s: Script) returns (subs: seq<Item>, idx: seq<nat>)
    requires Plays(a, s)
    ensures QueuesAt(subs, s.subs, |a.rest|, idx)
    ensures Turn(a).0.queue == a.queue[1..] + subs +
      match s.end case YieldReady(next) => [if a.queue[0].Handle? then a.queue[0] else Body(next)] case _ => []
    ensures Turn(a).1 == [Event(if a.queue[0].Handle? then Some(a.queue[0].id) else None, s.subs, s.end)]
  {
    subs := Items(s.subs, |a.rest|);
    idx := ItemsQueue(s.subs, |a.rest|);
  }

  predicate SubmitsHandle(subs: seq<Sub>, id: nat) {
    exists i :: 0 <= i < |subs| && subs[i].SubHandle? && subs[i].id == id
  }

  lemma TurnSubmits(a: Table, id: nat)
    requires a.queue != [] && Turn(a).1 != [] && id < |a.rest| && SubmitsHandle(Turn(a).1[0].subs, id)
    ensures Handle(id) in Turn(a).0.queue
  {
    var s := match a.queue[0] case Handle(f) => a.rest[f].value case Body(b) => b;
    var subs, idx := TurnQueues(a, s);
    var i :| 0 <= i < |s.subs| && s.subs[i].SubHandle? && s.subs[i].id == id;
    assert i in idx;
    var k :| 0 <= k < |idx| && idx[k] == i;
    assert subs[k] == Handle(id) && subs[k] in subs;
  }

  /** Fiber `id` runs a segment after event number `k`. */
  predicate RunsAfter(log: seq<Event>, k: int, id: nat) {
    exists j :: k < j < |log| && j >= 0 && log[j].who == Some(id)
  }

  lemma {:induction false} OfOccurs(log: seq<Event>, id: nat)
    requires Of(log, id) != []
    ensures RunsAfter(log, -1, id)
  {
    if log[0].who != Some(id) {
      OfOccurs(log[1..], id);
      OneBefore([log[0]], log[1..], -1, id);
      assert log == [log[0]] + log[1..];
    }
  }

  lemma OneBefore(first: seq<Event>, later: seq<Event>, k: int, id: nat)
    requires |first| == 1 && RunsAfter(later, k, id)
    ensures RunsAfter(first + later, k + 1, id) && RunsAfter(first + later, k, id)
  {
    var j :| k < j < |later| && j >= 0 && later[j].who == Some(id);
    assert (first + later)[j + 1].who == Some(id);
  }

  /** Event number `k` of the rotation submits the handle of fiber `id`, which has work left then. */
  predicate Resubmits(log: seq<Event>, rest: seq<Option<Script>>, k: nat, id: nat) {
    && k < |log| && id < |rest| && SubmitsHandle(log[k].subs, id)
    && |Of(log[..k + 1], id)| < |Segments(id, rest[id])|
  }

  lemma SubmittedNow(a: Table, id: nat)
    requires a.queue != [] && Turn(a).1 != [] && Resubmits(Rotate(a).log, a.rest, 0, id)
    ensures RunsAfter(Rotate(a).log, 0, id)
  {
    var b, ev := Turn(a).0, Turn(a).1;
    RotateOnce(a);
    assert Rotate(a).log[..1] == ev;
    TurnInOrder(a, id);
    TurnSubmits(a, id);
    NotLeftReady(b, id);
    OfOccurs(Rotate(b).log, id);
    OneBefore(ev, Rotate(b).log, -1, id);
  }

  lemma LogSplits(ev: seq<Event>, later: seq<Event>, k: nat, id: nat)
    requires |ev| <= k < |ev| + |later|
    ensures (ev + later)[k] == later[k - |ev|]
    ensures |Of((ev + later)[..k + 1], id)| == |Of(ev, id)| + |Of(later[..k - |ev| + 1], id)|
  {
    assert (ev + later)[..k + 1] == ev + later[..k - |ev| + 1];
    OfAdd(ev, later[..k - |ev| + 1], id);
  }

  lemma ResubmitsLater(a: Table, k: nat, id: nat)
    requires a.queue != [] && Resubmits(Rotate(a).log, a.rest, k, id) && |Turn(a).1| <= k
    ensures Resubmits(Rotate(Turn(a).0).log, Turn(a).0.rest, k - |Turn(a).1|, id)
  {
    RotateOnce(a);
    TurnInOrder(a, id);
    LogSplits(Turn(a).1, Rotate(Turn(a).0).log, k, id);
  }

  /** A fiber with work left that any segment submits runs again. */
  lemma {:induction false} SubmittedRuns(a: Table, k: nat, id: nat)
    requires Resubmits(Rotate(a).log, a.rest, k, id)
    ensures RunsAfter(Rotate(a).log, k, id)
    decreases Work(a), |a.queue|
  {
    if a.queue != [] {
      TurnDecreases(a);
      RotateOnce(a);
      var ev, later := Turn(a).1, Rotate(Turn(a).0).log;
      if k < |ev| {
        SubmittedNow(a, id);
      } else {
        ResubmitsLater(a, k, id);
        SubmittedRuns(Turn(a).0, k - |ev|, id);
        if ev == [] { assert ev + later == later; } else { OneBefore(ev, later, k - 1, id); }
      }
    }
  }
}
