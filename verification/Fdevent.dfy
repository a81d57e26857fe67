// The event context: installed events, poll timeouts and the run queue (porting/adb/fdevent/fdevent.cpp).
module Fdevent {
  import opened Base

  const NANOS_PER_MILLI := 1_000_000

  // A closure of the run queue: which closures it queues itself, and what it does to the events.
  datatype Task = Task(name: nat, effects: seq<Effect>)

  datatype Effect = Opens(fd: nat) | Closes(fd: nat) | Posts(task: Task)

  class Event {
    const id: nat
    const fd: nat
    const handler: seq<Effect>           // what its function does
    var timeout: Option<nat>             // in milliseconds
    var lastActive: int                  // in nanoseconds

    constructor (id: nat, fd: nat, handler: seq<Effect>)
      ensures this.id == id && this.fd == fd && this.handler == handler && timeout == None
    {
      this.id, this.fd, this.handler, timeout, lastActive := id, fd, handler, None, 0;
    }

    // The milliseconds left of the timeout, rounded towards zero and clamped at zero.
    ghost function Left(now: int): (r: Option<nat>)
      reads this
    {
      if timeout == None then None
      else
        var left := lastActive + timeout.value * NANOS_PER_MILLI - now;
        Some(if left < 0 then 0 else left / NANOS_PER_MILLI)
    }
  }

  // duration_cast rounds towards zero.
  function Truncate(nanos: int): int {
    if nanos >= 0 then nanos / NANOS_PER_MILLI else -(-nanos / NANOS_PER_MILLI)
  }

  // How much work the queued closures can still cause.
  function Weight(queue: seq<Task>): nat
    decreases queue, 0
  {
    if queue == [] then 0 else Weight(queue[..|queue| - 1]) + TaskWeight(queue[|queue| - 1])
  }

  function TaskWeight(t: Task): (n: nat)
    ensures n > 0
    decreases t, 1
  {
    1 + EffectsWeight(t.effects)
  }

  function EffectsWeight(es: seq<Effect>): nat
    decreases es, 0
  {
    if es == [] then 0
    else EffectsWeight(es[1..]) + EffectWeight(es[0])
  }

  function EffectWeight(e: Effect): nat
    decreases e, 1
  {
    match e
    case Posts(t) => TaskWeight(t)
    case _ => 0
  }

  lemma {:induction false} WeightOfConcat(a: seq<Task>, b: seq<Task>)
    ensures Weight(a + b) == Weight(a) + Weight(b)
  {
    if b == [] {
      assert a + b == a;
    } else {
      assert (a + b)[..|a + b| - 1] == a + b[..|b| - 1];
      WeightOfConcat(a, b[..|b| - 1]);
    }
  }

  // ----- What handlers and closures do -----

  // The closures that some effects queue.
  function PostsOf(es: seq<Effect>): seq<Task> {
    if es == [] then []
    else (match es[0] case Posts(t) => [t] case _ => []) + PostsOf(es[1..])
  }

  // The descriptors that have an event after some effects.
  function FdsAfter(es: seq<Effect>, fds: set<nat>): set<nat>
    decreases |es|
  {
    if es == [] then fds
    else
      match es[0]
      case Opens(fd) => FdsAfter(es[1..], fds + {fd})
      case Closes(fd) => FdsAfter(es[1..], fds - {fd})
      case _ => FdsAfter(es[1..], fds)
  }

  // A descriptor has an event exactly if it was opened and not closed later, or had one and was never closed.
  ghost predicate StaysOpen(es: seq<Effect>, fds: set<nat>, fd: nat) {
    || (fd in fds && Closes(fd) !in es)
    || exists i :: 0 <= i < |es| && es[i] == Opens(fd) && Closes(fd) !in es[i..]
  }

  lemma {:induction false} FdsAfterMeans(es: seq<Effect>, fds: set<nat>, fd: nat)
    ensures fd in FdsAfter(es, fds) <==> StaysOpen(es, fds, fd)
    decreases |es|
  {
    if es != [] {
      var next := match es[0] case Opens(x) => fds + {x} case Closes(x) => fds - {x} case _ => fds;
      FdsAfterMeans(es[1..], next, fd);
      assert es == [es[0]] + es[1..];
      if StaysOpen(es[1..], next, fd) && !(fd in next && Closes(fd) !in es[1..]) {
        var i :| 0 <= i < |es[1..]| && es[1..][i] == Opens(fd) && Closes(fd) !in es[1..][i..];
        assert es[i + 1..] == es[1..][i..] && es[i + 1] == Opens(fd);
      } else if fd in next && Closes(fd) !in es[1..] && fd !in fds {
        assert es[0] == Opens(fd) && es[0..] == es;
      }
      if StaysOpen(es, fds, fd) && !(fd in fds && Closes(fd) !in es) {
        var i :| 0 <= i < |es| && es[i] == Opens(fd) && Closes(fd) !in es[i..];
        if i > 0 { assert es[1..][i - 1..] == es[i..] && es[1..][i - 1] == Opens(fd); }
        else { assert es[0..] == es; }
      }
    }
  }

  lemma {:induction false} PostsOfConcat(a: seq<Effect>, b: seq<Effect>)
    ensures PostsOf(a + b) == PostsOf(a) + PostsOf(b)
  {
    if a == [] {
      assert a + b == b;
    } else {
      assert (a + b)[0] == a[0] && (a + b)[1..] == a[1..] + b;
      PostsOfConcat(a[1..], b);
    }
  }

  // The closures that they queue weigh what the effects weigh.
  lemma {:induction false} PostsWeigh(es: seq<Effect>)
    ensures Weight(PostsOf(es)) == EffectsWeight(es)
  {
    if es != [] {
      PostsWeigh(es[1..]);
      match es[0]
      case Posts(t) =>
        WeightOfConcat([t], PostsOf(es[1..]));
        assert [t][..0] == [] && Weight([t]) == TaskWeight(t);
      case _ =>
        assert PostsOf(es) == PostsOf(es[1..]);
    }
  }

  // These are the positions of the Posts among the effects.
  ghost predicate PostsAt(es: seq<Effect>, posts: seq<Task>, at: seq<nat>) {
    && |at| == |posts|
    && (forall k :: 0 <= k < |at| ==> at[k] < |es| && es[at[k]] == Posts(posts[k]))
    && (forall j, k :: 0 <= j < k < |at| ==> at[j] < at[k])
    && (forall i :: 0 <= i < |es| && es[i].Posts? ==> i in at)
  }

  // The closures that effects queue are those of their Posts, in order.
  lemma {:induction false} PostsAre(es: seq<Effect>) returns (at: seq<nat>)
    ensures PostsAt(es, PostsOf(es), at)
    decreases |es|
  {
    if es == [] {
      return [];
    }
    var rest := PostsAre(es[1..]);
    at := if es[0].Posts? then [0] + Shifted(rest) else Shifted(rest);
    PostsAtNext(es, PostsOf(es[1..]), rest, at);
  }

  lemma {:induction false} PostsAtNext(es: seq<Effect>, posts: seq<Task>, rest: seq<nat>, at: seq<nat>)
    requires es != [] && PostsAt(es[1..], posts, rest)
    requires at == if es[0].Posts? then [0] + Shifted(rest) else Shifted(rest)
    ensures PostsAt(es, if es[0].Posts? then [es[0].task] + posts else posts, at)
  {
    var all := if es[0].Posts? then [es[0].task] + posts else posts;
    PostsShift(es, rest, at);
    PostsRise(rest, at, es[0].Posts?);
    forall k | 0 <= k < |at| ensures at[k] < |es| && es[at[k]] == Posts(all[k]) {
      PostThere(es, posts, rest, at, all, k);
    }
  }

  lemma {:induction false} PostThere(es: seq<Effect>, posts: seq<Task>, rest: seq<nat>, at: seq<nat>, all: seq<Task>,
                                     k: nat)
    requires es != [] && |rest| == |posts| && k < |at|
    requires forall j :: 0 <= j < |rest| ==> rest[j] < |es| - 1 && es[1..][rest[j]] == Posts(posts[j])
    requires at == if es[0].Posts? then [0] + Shifted(rest) else Shifted(rest)
    requires all == if es[0].Posts? then [es[0].task] + posts else posts
    ensures at[k] < |es| && es[at[k]] == Posts(all[k])
  {
    if es[0].Posts? && k > 0 {
      assert es[1..][rest[k - 1]] == es[at[k]];
    } else if !es[0].Posts? {
      assert es[1..][rest[k]] == es[at[k]];
    }
  }

  lemma {:induction false} PostsRise(rest: seq<nat>, at: seq<nat>, here: bool)
    requires at == if here then [0] + Shifted(rest) else Shifted(rest)
    requires forall j, k :: 0 <= j < k < |rest| ==> rest[j] < rest[k]
    ensures forall j, k :: 0 <= j < k < |at| ==> at[j] < at[k]
  {
    var d := if here then 1 else 0;
    forall j, k | 0 <= j < k < |at| ensures at[j] < at[k] {
      assert at[k] == rest[k - d] + 1;
      if j >= d { assert at[j] == rest[j - d] + 1; }
    }
  }

  lemma {:induction false} PostsShift(es: seq<Effect>, rest: seq<nat>, at: seq<nat>)
    requires es != [] && at == if es[0].Posts? then [0] + Shifted(rest) else Shifted(rest)
    requires forall i :: 0 <= i < |es| - 1 && es[1..][i].Posts? ==> i in rest
    ensures forall i :: 0 <= i < |es| && es[i].Posts? ==> i in at
  {
    forall i | 0 <= i < |es| && es[i].Posts? ensures i in at {
      if i > 0 {
        assert es[1..][i - 1] == es[i];
        ShiftedMember(rest, i - 1);
      }
    }
  }

  function Shifted(at: seq<nat>): seq<nat> {
    seq(|at|, k requires 0 <= k < |at| => at[k] + 1)
  }

  lemma {:induction false} ShiftedMember(at: seq<nat>, i: nat)
    requires i in at
    ensures i + 1 in Shifted(at)
  {
    var k :| 0 <= k < |at| && at[k] == i;
    assert Shifted(at)[k] == i + 1;
  }

  lemma {:induction false} FdsAfterConcat(a: seq<Effect>, b: seq<Effect>, fds: set<nat>)
    ensures FdsAfter(a + b, fds) == FdsAfter(b, FdsAfter(a, fds))
    decreases |a|
  {
    if a == [] {
      assert a + b == b;
    } else {
      assert (a + b)[0] == a[0] && (a + b)[1..] == a[1..] + b;
      var next := match a[0] case Opens(x) => fds + {x} case Closes(x) => fds - {x} case _ => fds;
      FdsAfterConcat(a[1..], b, next);
    }
  }

  // What effects do to the installed events, when events made from now on have a number of at least `first`: the
  // descriptors are those that stay open, an event whose descriptor was never closed is still there, and every other
  // is new.
  ghost predicate Installs(es: seq<Effect>, before: map<nat, Event>, first: nat, after: map<nat, Event>) {
    && after.Keys == FdsAfter(es, before.Keys)
    && (forall fd :: fd in before && Closes(fd) !in es ==> fd in after && after[fd] == before[fd])
    && (forall fd :: fd in after && !(fd in before && Closes(fd) !in es) ==> after[fd].id >= first)
  }

  lemma {:induction false} InstallsNothing(before: map<nat, Event>, first: nat)
    ensures Installs([], before, first, before)
  {
  }

  lemma {:induction false} InstallsThen(a: seq<Effect>, b: seq<Effect>, before: map<nat, Event>, first: nat,
                                        mid: map<nat, Event>, next: nat, after: map<nat, Event>)
    requires Installs(a, before, first, mid) && Installs(b, mid, next, after) && first <= next
    ensures Installs(a + b, before, first, after)
  {
    FdsAfterConcat(a, b, before.Keys);
    forall fd ensures Closes(fd) in a + b <==> Closes(fd) in a || Closes(fd) in b {}
  }

  // The closures that other threads queue before the i-th closure is taken.
  function Arrivals(others: seq<seq<Task>>, i: nat): seq<Task> {
    if i < |others| then others[i] else []
  }

  // What is queued while some closures run: before each of them what arrives, behind it what it queues.
  function Added(ran: seq<Task>, others: seq<seq<Task>>): seq<Task> {
    if ran == [] then []
    else
      var k := |ran| - 1;
      Added(ran[..k], others) + Arrivals(others, k) + PostsOf(ran[k].effects)
  }

  // All effects of some closures, in order.
  function EffectsOf(ran: seq<Task>): seq<Effect> {
    if ran == [] then [] else EffectsOf(ran[..|ran| - 1]) + ran[|ran| - 1].effects
  }

  lemma {:induction false} AddedNext(ran: seq<Task>, others: seq<seq<Task>>, t: Task)
    ensures Added(ran + [t], others) == Added(ran, others) + Arrivals(others, |ran|) + PostsOf(t.effects)
    ensures EffectsOf(ran + [t]) == EffectsOf(ran) + t.effects
  {
    assert (ran + [t])[..|ran|] == ran;
  }

  // What the i-th closure that is taken adds, and its effects.
  lemma {:induction false} AddedAt(ran: seq<Task>, others: seq<seq<Task>>, i: nat)
    requires i < |ran|
    ensures Added([], others) == [] && EffectsOf([]) == []
    ensures Added(ran[..i + 1], others) ==
            Added(ran[..i], others) + (if i < |others| then others[i] else []) + PostsOf(ran[i].effects)
    ensures EffectsOf(ran[..i + 1]) == EffectsOf(ran[..i]) + ran[i].effects
  {
    TakeNext(ran, i);
    AddedNext(ran[..i], others, ran[i]);
  }

  // After the closures `now` were taken, the queue holds what is left of what was queued.
  ghost predicate Flushed(start: seq<Task>, was: seq<Task>, now: seq<Task>, others: seq<seq<Task>>, queue: seq<Task>,
                          posted: seq<Task>)
  {
    && now + queue == start + Added(now, others) && posted == was + Added(now, others)
    && QueuedBeforeTaken(start, now, others)
  }

  lemma {:induction false} FlushedNext(start: seq<Task>, was: seq<Task>, now: seq<Task>, others: seq<seq<Task>>,
                                       queue: seq<Task>, posted: seq<Task>, t: Task)
    requires Flushed(start, was, now, others, queue, posted) && queue != []
    requires (queue + Arrivals(others, |now|))[0] == t
    ensures
      var (more, posts) := (Arrivals(others, |now|), PostsOf(t.effects));
      Flushed(start, was, now + [t], others, (queue + more)[1..] + posts, posted + more + posts)
  {
    var (more, posts) := (Arrivals(others, |now|), PostsOf(t.effects));
    AddedNext(now, others, t);
    QueuedNext(start, now, others, t);
    FrontMoves(start, Added(now, others), now, queue, more, posts, t);
    Assoc3(was, Added(now, others), more, posts);
  }

  // The same with what the closures did to the events.
  ghost predicate Flushing(start: seq<Task>, was: seq<Task>, now: seq<Task>, others: seq<seq<Task>>, queue: seq<Task>,
                           posted: seq<Task>, before: map<nat, Event>, first: nat, after: map<nat, Event>)
  {
    Flushed(start, was, now, others, queue, posted) && Installs(EffectsOf(now), before, first, after)
  }

  // The closures `now` have run: all that were queued at the start, all that arrived, and all that they queued
  // themselves, in this order; nothing else was queued, and the events are those that their effects leave.
  ghost predicate Drained(now: seq<Task>, start: seq<Task>, was: seq<Task>, others: seq<seq<Task>>, posted: seq<Task>,
                          before: map<nat, Event>, first: nat, after: map<nat, Event>)
  {
    && now == start + Added(now, others) && posted == was + Added(now, others)
    && QueuedBeforeTaken(start, now, others)
    && Installs(EffectsOf(now), before, first, after)
  }

  lemma {:induction false} FlushEnds(start: seq<Task>, was: seq<Task>, now: seq<Task>, others: seq<seq<Task>>,
                                     posted: seq<Task>, before: map<nat, Event>, first: nat, after: map<nat, Event>)
    requires Flushing(start, was, now, others, [], posted, before, first, after)
    ensures Drained(now, start, was, others, posted, before, first, after)
  {
    assert now + [] == now;
  }

  lemma {:induction false} FlushBegins(queue: seq<Task>, posted: seq<Task>, others: seq<seq<Task>>,
                                       installed: map<nat, Event>, first: nat)
    ensures Flushing(queue, posted, [], others, queue, posted, installed, first, installed)
  {
    InstallsNothing(installed, first);
  }

  lemma {:induction false} FlushTurn(start: seq<Task>, was: seq<Task>, now: seq<Task>, others: seq<seq<Task>>,
                                     queue: seq<Task>, posted: seq<Task>, before: map<nat, Event>, first: nat,
                                     mid: map<nat, Event>, next: nat, after: map<nat, Event>, t: Task)
    requires Flushing(start, was, now, others, queue, posted, before, first, mid) && queue != []
    requires (queue + Arrivals(others, |now|))[0] == t
    requires Installs(t.effects, mid, next, after) && first <= next
    ensures
      var (arrived, posts) := (Arrivals(others, |now|), PostsOf(t.effects));
      Flushing(start, was, now + [t], others, (queue + arrived)[1..] + posts, posted + arrived + posts, before, first,
               after)
  {
    FlushedNext(start, was, now, others, queue, posted, t);
    InstallsThen(EffectsOf(now), t.effects, before, first, mid, next, after);
    AddedNext(now, others, t);
  }

  lemma {:induction false} FrontMoves(start: seq<Task>, added: seq<Task>, now: seq<Task>, queue: seq<Task>,
                                      more: seq<Task>, posts: seq<Task>, t: Task)
    requires now + queue == start + added && queue != [] && (queue + more)[0] == t
    ensures now + [t] + ((queue + more)[1..] + posts) == start + (added + more + posts)
  {
    var rest := (queue + more)[1..];
    assert now + [t] + (rest + posts) == now + ([t] + rest) + posts;
    assert [t] + rest == queue + more;
    assert now + (queue + more) + posts == (now + queue) + more + posts;
    Assoc3(start, added, more, posts);
  }

  lemma {:induction false} Assoc3(a: seq<Task>, b: seq<Task>, c: seq<Task>, d: seq<Task>)
    ensures a + b + c + d == a + (b + c + d)
  {
  }

  lemma {:induction false} WeightOfRest(queue: seq<Task>)
    requires queue != []
    ensures Weight(queue) == TaskWeight(queue[0]) + Weight(queue[1..])
  {
    assert queue == [queue[0]] + queue[1..];
    WeightOfConcat([queue[0]], queue[1..]);
    assert [queue[0]][..0] == [] && Weight([queue[0]]) == TaskWeight(queue[0]);
  }

  // What a closure queues stands behind it: when it was taken, it had been queued before.
  ghost predicate QueuedBeforeTaken(start: seq<Task>, ran: seq<Task>, others: seq<seq<Task>>) {
    forall i :: 0 <= i < |ran| ==> i < |start| + |Added(ran[..i], others)|
  }

  lemma {:induction false} QueuedNext(start: seq<Task>, ran: seq<Task>, others: seq<seq<Task>>, t: Task)
    requires QueuedBeforeTaken(start, ran, others) && |ran| < |start| + |Added(ran, others)|
    ensures QueuedBeforeTaken(start, ran + [t], others)
  {
    forall i | 0 <= i < |ran + [t]| ensures i < |start| + |Added((ran + [t])[..i], others)| {
      assert (ran + [t])[..i] == ran[..i];
      if i == |ran| { assert ran[..i] == ran; }
    }
  }

  class Context {
    var installed: map<nat, Event>       // installed_fdevents_
    var events: set<Event>               // fdevent_set_
    var nextId: nat
    var queue: seq<Task>                 // run_queue_
    ghost var posted: seq<Task>          // history: all closures ever queued
    ghost var ran: seq<Task>             // history: all closures taken from the queue
    ghost var invoked: seq<Event>        // history: the events whose function was called

    // The map and the set describe the same events, and closures run in the order in which they were queued.
    ghost predicate Valid()
      reads this
    {
      && (forall fd :: fd in installed ==> installed[fd].fd == fd && installed[fd] in events)
      && (forall e :: e in events ==> e.fd in installed && installed[e.fd] == e)
      && (forall e :: e in events ==> e.id < nextId)
      && (forall e, f :: e in events && f in events && e.id == f.id ==> e == f)
      && posted == ran + queue
    }

    constructor ()
      ensures Valid() && installed == map[] && events == {} && queue == [] && posted == []
    {
      installed, events, nextId, queue, posted, ran, invoked := map[], {}, 0, [], [], [], [];
    }

    method Create(fd: nat, handler: seq<Effect>) returns (e: Event)
      requires Valid() && fd !in installed
      modifies this`installed, this`events, this`nextId
      ensures Valid() && fresh(e) && e.fd == fd && e.handler == handler && e.id == old(nextId) < nextId
      ensures installed == old(installed)[fd := e] && events == old(events) + {e}
    {
      e := new Event(nextId, fd, handler);
      nextId := nextId + 1;
      installed := installed[fd := e];
      events := events + {e};
    }

    method Destroy(e: Event?) returns (fd: Option<nat>)
      requires Valid() && (e != null ==> e in events)
      modifies this`installed, this`events
      ensures Valid()
      ensures e == null ==> fd == None && installed == old(installed) && events == old(events)
      ensures e != null ==> fd == Some(e.fd) && installed == old(installed) - {e.fd} && events == old(events) - {e}
    {
      if e == null {
        return None;
      }
      installed := installed - {e.fd};
      events := events - {e};
      return Some(e.fd);
    }

    // fdevent_context::Run
    method Post(t: Task)
      requires Valid()
      modifies this`queue, this`posted
      ensures Valid() && queue == old(queue) + [t] && posted == old(posted) + [t]
    {
      queue := queue + [t];
      posted := posted + [t];
    }

    // One thing that a handler or closure does.
    method PerformOne(e: Effect)
      requires Valid()
      modifies this`installed, this`events, this`nextId, this`queue, this`posted
      ensures Valid() && old(nextId) <= nextId
      ensures queue == old(queue) + PostsOf([e]) && posted == old(posted) + PostsOf([e])
      ensures Installs([e], old(installed), old(nextId), installed)
    {
      assert [e][1..] == [];
      match e {
        case Opens(fd) =>
          if fd !in installed {
            var made := Create(fd, []);
          }
        case Closes(fd) =>
          if fd in installed {
            var closed := Destroy(installed[fd]);
          }
        case Posts(t) =>
          Post(t);
      }
    }

    // The body of a handler or closure.
    method Perform(effects: seq<Effect>)
      requires Valid()
      modifies this`installed, this`events, this`nextId, this`queue, this`posted
      ensures Valid() && old(nextId) <= nextId
      ensures queue == old(queue) + PostsOf(effects) && posted == old(posted) + PostsOf(effects)
      ensures Installs(effects, old(installed), old(nextId), installed)
      decreases |effects|
    {
      if effects == [] {
        InstallsNothing(installed, nextId);
        return;
      }
      ghost var (e, rest) := ([effects[0]], effects[1..]);
      PostsOfConcat(e, rest);
      PerformOne(effects[0]);
      Assoc(old(queue), PostsOf(e), PostsOf(rest));
      Assoc(old(posted), PostsOf(e), PostsOf(rest));
      ghost var (mid, next) := (installed, nextId);
      Perform(effects[1..]);
      InstallsThen(e, rest, old(installed), old(nextId), mid, next, installed);
      assert e + rest == effects;
    }

    // Closures that other threads queue.
    method Arrive(ts: seq<Task>)
      requires Valid()
      modifies this`queue, this`posted
      ensures Valid() && queue == old(queue) + ts && posted == old(posted) + ts
    {
      for i := 0 to |ts|
        invariant Valid() && queue == old(queue) + ts[..i] && posted == old(posted) + ts[..i]
      {
        TakeNext(ts, i);
        Post(ts[i]);
      }
      assert ts[..|ts|] == ts;
    }

    // One turn of FlushRunQueue: other threads queue `arrived`, then the first closure is taken and performed.
    method TakeOne(arrived: seq<Task>) returns (ghost t: Task)
      requires Valid() && queue != []
      modifies this`installed, this`events, this`nextId, this`queue, this`posted, this`ran
      ensures Valid() && old(nextId) <= nextId && t == (old(queue) + arrived)[0] && ran == old(ran) + [t]
      ensures queue == (old(queue) + arrived)[1..] + PostsOf(t.effects)
      ensures posted == old(posted) + arrived + PostsOf(t.effects)
      ensures Installs(t.effects, old(installed), old(nextId), installed)
      ensures arrived == [] ==> Weight(queue) < old(Weight(queue))
    {
      Arrive(arrived);
      assert arrived == [] ==> queue == old(queue);
      var task := queue[0];
      t := task;
      WeightOfRest(queue);
      WeightOfConcat(queue[1..], PostsOf(t.effects));
      PostsWeigh(t.effects);
      queue := queue[1..];
      ran := ran + [task];
      Perform(task.effects);
    }

    // FlushRunQueue.  Other threads queue `others[i]` before the i-th closure is taken.  What runs is what was queued,
    // in that order: before the call, by other threads, and by the closures that ran.
    method FlushRunQueue(others: seq<seq<Task>>)
      requires Valid()
      modifies this`installed, this`events, this`nextId, this`queue, this`posted, this`ran
      ensures Valid() && queue == [] && ran == posted && old(ran) <= ran && old(nextId) <= nextId
      ensures Drained(ran[|old(ran)|..], old(queue), old(posted), others, posted, old(installed), old(nextId), installed)
    {
      ghost var now := [];
      var i := 0;
      FlushBegins(queue, posted, others, installed, nextId);
      while queue != []
        invariant Valid() && ran == old(ran) + now && old(nextId) <= nextId && i == |now|
        invariant Flushing(old(queue), old(posted), now, others, queue, posted, old(installed), old(nextId), installed)
        decreases if i < |others| then |others| - i else 0, Weight(queue)
      {
        ghost var (waiting, before, mid, next) := (queue, posted, installed, nextId);
        ghost var t := TakeOne(Arrivals(others, i));
        FlushTurn(old(queue), old(posted), now, others, waiting, before, old(installed), old(nextId), mid, next,
                  installed, t);
        now := now + [t];
        i := i + 1;
      }
      FlushEnds(old(queue), old(posted), now, others, posted, old(installed), old(nextId), installed);
      assert ran[|old(ran)|..] == now;
    }

    // HandleEvents: the function of the first event that is still installed is called, and no other; then the
    // run queue is drained.
    method HandleEvents(pending: seq<Event>, others: seq<seq<Task>>)
      requires Valid()
      modifies this
      ensures Valid() && queue == [] && ran == posted && old(ran) <= ran
      ensures invoked == old(invoked) + FirstInstalled(pending, old(events))
      ensures
        var first := Handled(FirstInstalled(pending, old(events)));
        var now := ran[|old(ran)|..];
        && now == old(queue) + PostsOf(first) + Added(now, others)
        && posted == old(posted) + PostsOf(first) + Added(now, others)
        && QueuedBeforeTaken(old(queue) + PostsOf(first), now, others)
        && Installs(first + EffectsOf(now), old(installed), old(nextId), installed)
    {
      HandleFirst(pending);
      ghost var (first, mid, next) := (Handled(FirstInstalled(pending, old(events))), installed, nextId);
      FlushRunQueue(others);
      InstallsThen(first, EffectsOf(ran[|old(ran)|..]), old(installed), old(nextId), mid, next, installed);
    }

    // The loop of HandleEvents.
    method HandleFirst(pending: seq<Event>)
      requires Valid()
      modifies this`installed, this`events, this`nextId, this`queue, this`posted, this`invoked
      ensures Valid() && old(nextId) <= nextId
      ensures invoked == old(invoked) + FirstInstalled(pending, old(events))
      ensures
        var first := Handled(FirstInstalled(pending, old(events)));
        && queue == old(queue) + PostsOf(first) && posted == old(posted) + PostsOf(first)
        && Installs(first, old(installed), old(nextId), installed)
    {
      InstallsNothing(installed, nextId);
      for i := 0 to |pending|
        invariant Valid() && unchanged(this)
        invariant FirstInstalled(pending, events) == FirstInstalled(pending[i..], events)
      {
        if pending[i] in events {
          invoked := invoked + [pending[i]];
          Perform(pending[i].handler);
          return;
        }
      }
    }

    // CalculatePollDuration
    method CalculatePollDuration(now: int) returns (r: Option<nat>)
      requires Valid()
      ensures IsLeast(r, events, now)
    {
      r := None;
      var todo := installed.Keys;
      ghost var seen: set<Event> := {};
      while todo != {}
        invariant todo <= installed.Keys && IsLeast(r, seen, now)
        invariant forall e :: e in events <==> e in seen || (e.fd in todo && installed[e.fd] == e)
        decreases |todo|
      {
        var fd :| fd in todo;
        todo := todo - {fd};
        var e := installed[fd];
        LeastNext(r, seen, e, now);
        if e.timeout.Some? {
          var deadline := e.lastActive + e.timeout.value * NANOS_PER_MILLI;
          var left := Truncate(deadline - now);
          if left < 0 {
            left := 0;
          }
          LeftIs(e, now);
          if r == None || left < r.value {
            r := Some(left);
          }
        }
        seen := seen + {e};
      }
      assert seen == events;
    }
  }

  // The least time left of any of the events; None if none has a timeout.
  ghost predicate IsLeast(r: Option<nat>, events: set<Event>, now: int)
    reads events
  {
    && (r == None ==> forall e :: e in events ==> e.timeout == None)
    && (r.Some? ==> exists e :: e in events && e.Left(now) == r)
    && (r.Some? ==> forall e :: e in events && e.timeout.Some? ==> r.value <= e.Left(now).value)
  }

  lemma LeastNext(r: Option<nat>, events: set<Event>, e: Event, now: int)
    requires IsLeast(r, events, now)
    ensures
      var left := e.Left(now);
      IsLeast(if left == None || (r.Some? && r.value <= left.value) then r else left, events + {e}, now)
  {
    if r.Some? {
      var f :| f in events && f.Left(now) == r;
      assert f in events + {e};
    }
    assert e in events + {e};
  }

  // The first of the pending events that is installed, if any.
  ghost function FirstInstalled(pending: seq<Event>, events: set<Event>): seq<Event> {
    if pending == [] then [] else if pending[0] in events then [pending[0]] else FirstInstalled(pending[1..], events)
  }

  lemma {:induction false} FirstInstalledMeans(pending: seq<Event>, events: set<Event>)
    ensures FirstInstalled(pending, events) == [] <==> forall e :: e in pending ==> e !in events
    ensures FirstInstalled(pending, events) != [] ==>
              exists i :: 0 <= i < |pending| && FirstInstalled(pending, events) == [pending[i]] && pending[i] in events
                          && forall j :: 0 <= j < i ==> pending[j] !in events
  {
    if pending != [] && pending[0] !in events {
      FirstInstalledMeans(pending[1..], events);
      if FirstInstalled(pending[1..], events) != [] {
        var i :| 0 <= i < |pending[1..]| && FirstInstalled(pending[1..], events) == [pending[1..][i]]
                 && pending[1..][i] in events && forall j :: 0 <= j < i ==> pending[1..][j] !in events;
        assert pending[i + 1] == pending[1..][i];
        forall j | 0 <= j < i + 1 ensures pending[j] !in events {
          if j > 0 { assert pending[j] == pending[1..][j - 1]; }
        }
      }
    }
  }

  // What the function of the event does, if there is one.
  ghost function Handled(es: seq<Event>): seq<Effect> {
    if es == [] then [] else es[0].handler
  }

  lemma LeftIs(e: Event, now: int)
    requires e.timeout.Some?
    ensures
      var left := Truncate(e.lastActive + e.timeout.value * NANOS_PER_MILLI - now);
      e.Left(now) == Some(if left < 0 then 0 else left)
  {
  }

  // Waiting for the poll duration does not go past a deadline that has not passed, and ends less than a
  // millisecond before the earliest one.
  lemma PollEndsInTime(e: Event, now: int, wait: nat)
    requires e.timeout.Some? && wait <= e.Left(now).value
    ensures
      var deadline := e.lastActive + e.timeout.value * NANOS_PER_MILLI;
      && (now <= deadline ==> now + wait * NANOS_PER_MILLI <= deadline)
      && (deadline < now ==> wait == 0)
      && (wait == e.Left(now).value ==> deadline < now + (wait + 1) * NANOS_PER_MILLI)
  {
  }
}
