/**
 Locks on physical targets, held from a request's inspection to the end of the run it launches
 (src/edgeshard/control/master/profiling_admin.py).

 A request acquires the locks of its (worker, device) keys one after the other, in ascending order, and
 hands them to the run it launches.  A lock is an asyncio.Lock: whoever calls release frees it, so
 ownership is kept here beside it to show that nobody ever frees another's lock.  A released lock may go
 to any waiter.
 */
module TargetLocks {
  import opened Orders

  datatype Key = Key(worker: string, device: string)

  /** Python's order on pairs of strings. */
  predicate KeyLt(a: Key, b: Key)
  {
    StrLt(a.worker, b.worker) || (a.worker == b.worker && StrLt(a.device, b.device))
  }

  lemma KeyLtTransitive(a: Key, b: Key, c: Key)
    requires KeyLt(a, b) && KeyLt(b, c)
    ensures KeyLt(a, c)
  {
    if StrLt(a.worker, b.worker) && StrLt(b.worker, c.worker) {
      StrLtTransitive(a.worker, b.worker, c.worker);
    } else if a.worker == b.worker == c.worker {
      StrLtTransitive(a.device, b.device, c.device);
    }
  }

  /** What `sorted` makes of a set of keys. */
  predicate Ascending(keys: seq<Key>)
  {
    forall i, j :: 0 <= i < j < |keys| ==> KeyLt(keys[i], keys[j])
  }

  datatype Owner = Request(id: nat) | Run(id: nat)

  /** A request that holds the first `held` of its locks. */
  datatype Pending = Pending(keys: seq<Key>, held: nat)

  /** A background run until its done-callback has been called. */
  datatype Task = Task(experiment: string, locks: seq<Key>, done: bool)

  /** `runs` and `runLocks` are the admin's own tables; `owners` says who holds each locked key. */
  datatype State = State(
    owners: map<Key, Owner>, requests: map<nat, Pending>, tasks: map<nat, Task>,
    runs: map<string, nat>, runLocks: map<string, seq<Key>>)

  const INITIAL := State(map[], map[], map[], map[], map[])

  datatype Event =
    | Start(r: nat, keys: seq<Key>)
    | Acquire(r: nat)
    | Abandon(r: nat)
    | Reject(r: nat)
    | Launch(r: nat, experiment: string, task: nat)
    | TaskDone(task: nat)
    | Finish(task: nat)
    | Cancel(experiment: string)
    | Shutdown

  /** The physical targets of an experiment's cases; network experiments have none. */
  type Targets = string -> set<Key>

  /** The cases of an experiment lie within the keys its request locked; a request that locks something plans
      cases on devices. */
  predicate Covers(targets: Targets, keys: seq<Key>, experiment: string)
  {
    && (forall k :: k in targets(experiment) ==> k in keys)
    && (keys == [] <==> targets(experiment) == {})
  }

  predicate Enabled(targets: Targets, s: State, e: Event)
  {
    match e
    case Start(r, keys) => r !in s.requests && Ascending(keys)
    case Acquire(r) =>
      r in s.requests && s.requests[r].held < |s.requests[r].keys| &&
      s.requests[r].keys[s.requests[r].held] !in s.owners
    case Abandon(r) => r in s.requests && s.requests[r].held < |s.requests[r].keys|
    case Reject(r) => r in s.requests && s.requests[r].held == |s.requests[r].keys|
    case Launch(r, x, t) =>
      && r in s.requests && s.requests[r].held == |s.requests[r].keys| && t !in s.tasks
      && Covers(targets, s.requests[r].keys, x)
    case TaskDone(t) => t in s.tasks && !s.tasks[t].done
    case Finish(t) => t in s.tasks && s.tasks[t].done
    case Cancel(_) => true
    case Shutdown => true
  }

  /** `_release_target_locks`: frees every one that is locked, by whomever. */
  function Release(owners: map<Key, Owner>, keys: seq<Key>): map<Key, Owner>
  {
    map k | k in owners && k !in keys :: owners[k]
  }

  function Transfer(owners: map<Key, Owner>, keys: seq<Key>, to: Owner): map<Key, Owner>
  {
    map k | k in owners :: if k in keys then to else owners[k]
  }

  /** `_launch` finds a run of this experiment in flight. */
  predicate InFlight(s: State, experiment: string)
  {
    experiment in s.runs && s.runs[experiment] in s.tasks && !s.tasks[s.runs[experiment]].done
  }

  function Next(targets: Targets, s: State, e: Event): State
    requires Enabled(targets, s, e)
  {
    match e
    case Start(r, keys) => s.(requests := s.requests[r := Pending(keys, 0)])
    case Acquire(r) =>
      var p := s.requests[r];
      s.(owners := s.owners[p.keys[p.held] := Request(r)], requests := s.requests[r := Pending(p.keys, p.held + 1)])
    case Abandon(r) =>
      s.(owners := Release(s.owners, s.requests[r].keys[..s.requests[r].held]), requests := s.requests - {r})
    case Reject(r) => s.(owners := Release(s.owners, s.requests[r].keys), requests := s.requests - {r})
    case Launch(r, x, t) =>
      var keys := s.requests[r].keys;
      if InFlight(s, x) then s.(owners := Release(s.owners, keys), requests := s.requests - {r})
      else State(Transfer(s.owners, keys, Run(t)), s.requests - {r}, s.tasks[t := Task(x, keys, false)],
                 s.runs[x := t], s.runLocks[x := keys])
    case TaskDone(t) => s.(tasks := s.tasks[t := s.tasks[t].(done := true)])
    case Finish(t) =>
      var x := s.tasks[t].experiment;
      var locks := if x in s.runLocks then s.runLocks[x] else [];
      State(Release(s.owners, locks), s.requests, s.tasks - {t}, s.runs - {x}, s.runLocks - {x})
    case Cancel(x) => s.(runs := s.runs - {x})
    case Shutdown => s.(runs := map[])
  }

  // ---------------------------------------------------------------------------
  // The invariant
  // ---------------------------------------------------------------------------

  /** What an owner holds. */
  function Holding(s: State, o: Owner): seq<Key>
  {
    match o
    case Request(r) => if r in s.requests &&
                       s.requests[r].held <= |s.requests[r].keys| then s.requests[r].keys[..s.requests[r].held] else []
    case Run(t) => if t in s.tasks then s.tasks[t].locks else []
  }

  /** The ownership map and the parties' own lists say the same. */
  ghost predicate OwnersOk(s: State)
  {
    forall k, o :: k in Holding(s, o) <==> k in s.owners && s.owners[k] == o
  }

  predicate PendingOk(p: Pending)
  {
    p.held <= |p.keys| && Ascending(p.keys)
  }

  ghost predicate RequestsOk(requests: map<nat, Pending>)
  {
    forall r :: r in requests ==> PendingOk(requests[r])
  }

  /** A run that holds locks is the one whose locks the table keeps under its experiment. */
  ghost predicate TaskOk(targets: Targets, runLocks: map<string, seq<Key>>, t: Task)
  {
    && Covers(targets, t.locks, t.experiment)
    && (t.locks != [] ==> t.experiment in runLocks && runLocks[t.experiment] == t.locks)
  }

  ghost predicate TasksOk(targets: Targets, runLocks: map<string, seq<Key>>, tasks: map<nat, Task>)
  {
    forall t :: t in tasks ==> TaskOk(targets, runLocks, tasks[t])
  }

  /** Untargeted experiments never have locks in the table. */
  ghost predicate TableOk(targets: Targets, runLocks: map<string, seq<Key>>)
  {
    forall x :: x in runLocks && targets(x) == {} ==> runLocks[x] == []
  }

  ghost predicate Inv(targets: Targets, s: State)
  {
    OwnersOk(s) && RequestsOk(s.requests) && TasksOk(targets, s.runLocks, s.tasks) && TableOk(targets, s.runLocks)
  }

  /** Two runs of one targeted experiment cannot both be unfinished: they would own the same lock. */
  lemma OneTargetedRun(targets: Targets, s: State, t: nat, t': nat)
    requires Inv(targets, s) && t in s.tasks && t' in s.tasks
    requires s.tasks[t].experiment == s.tasks[t'].experiment && targets(s.tasks[t].experiment) != {}
    ensures t == t'
  {
    assert TaskOk(targets, s.runLocks, s.tasks[t]) && TaskOk(targets, s.runLocks, s.tasks[t']);
    var k :| k in targets(s.tasks[t].experiment);
    assert k in Holding(s, Run(t)) && k in Holding(s, Run(t'));
    assert s.owners[k] == Run(t) && s.owners[k] == Run(t');
  }

  /** What a finishing run releases is exactly what it holds. */
  lemma FinishReleasesOwn(targets: Targets, s: State, t: nat)
    requires Inv(targets, s) && t in s.tasks
    ensures (if s.tasks[t].experiment in s.runLocks then s.runLocks[s.tasks[t].experiment] else []) ==
              Holding(s, Run(t))
  {
    assert TaskOk(targets, s.runLocks, s.tasks[t]);
  }

  /** Releasing all that `o` holds leaves the other owners as they were. */
  lemma ReleaseKeeps(s: State, s': State, o: Owner)
    requires OwnersOk(s) && s'.owners == Release(s.owners, Holding(s, o))
    requires Holding(s', o) == [] && forall p :: p != o ==> Holding(s', p) == Holding(s, p)
    ensures OwnersOk(s')
  {
    forall k, p ensures k in Holding(s', p) <==> k in s'.owners && s'.owners[k] == p {
      assert k in Holding(s, p) <==> k in s.owners && s.owners[k] == p;
      assert k in Holding(s, o) <==> k in s.owners && s.owners[k] == o;
    }
  }

  lemma StartStep(targets: Targets, s: State, r: nat, keys: seq<Key>)
    requires Inv(targets, s) && r !in s.requests && Ascending(keys)
    ensures Inv(targets, s.(requests := s.requests[r := Pending(keys, 0)]))
  {
    var s' := s.(requests := s.requests[r := Pending(keys, 0)]);
    assert forall o :: Holding(s', o) == Holding(s, o);
  }

  lemma AcquireStep(targets: Targets, s: State, r: nat)
    requires Inv(targets, s) && Enabled(targets, s, Acquire(r))
    ensures Inv(targets, Next(targets, s, Acquire(r)))
  {
    var s', p := Next(targets, s, Acquire(r)), s.requests[r];
    var key := p.keys[p.held];
    assert p.keys[..p.held + 1] == p.keys[..p.held] + [key];
    forall k, o ensures k in Holding(s', o) <==> k in s'.owners && s'.owners[k] == o {
      assert k in Holding(s, o) <==> k in s.owners && s.owners[k] == o;
      if o != Request(r) { assert Holding(s', o) == Holding(s, o); }
    }
  }

  /** A request that goes away without a run. */
  lemma DropStep(targets: Targets, s: State, r: nat, keys: seq<Key>)
    requires Inv(targets, s) && r in s.requests && keys == Holding(s, Request(r))
    ensures Inv(targets, s.(owners := Release(s.owners, keys), requests := s.requests - {r}))
  {
    var s' := s.(owners := Release(s.owners, keys), requests := s.requests - {r});
    ReleaseKeeps(s, s', Request(r));
  }

  /** The locks pass from the request to its run. */
  lemma TransferOwners(s: State, s': State, r: nat, t: nat, keys: seq<Key>)
    requires OwnersOk(s) && keys == Holding(s, Request(r)) && Holding(s, Run(t)) == []
    requires s'.owners == Transfer(s.owners, keys, Run(t)) && Holding(s', Request(r)) == [] &&
             Holding(s', Run(t)) == keys
    requires forall o :: o != Request(r) && o != Run(t) ==> Holding(s', o) == Holding(s, o)
    ensures OwnersOk(s')
  {
    forall k, o ensures k in Holding(s', o) <==> k in s'.owners && s'.owners[k] == o {
      assert k in Holding(s, o) <==> k in s.owners && s.owners[k] == o;
      assert k in Holding(s, Request(r)) <==> k in s.owners && s.owners[k] == Request(r);
      assert k in Holding(s, Run(t)) <==> k in s.owners && s.owners[k] == Run(t);
    }
  }

  lemma Disjoint(s: State, o: Owner, p: Owner)
    requires OwnersOk(s) && o != p
    ensures forall k :: k in Holding(s, o) ==> k !in Holding(s, p)
  {
    forall k | k in Holding(s, o) ensures k !in Holding(s, p) {
      assert s.owners[k] == o;
    }
  }

  /** A second run of a targeted experiment would need locks that the first still owns. */
  lemma NoRivalRun(targets: Targets, s: State, r: nat, x: string, t: nat)
    requires Inv(targets, s) && Enabled(targets, s, Launch(r, x, t))
    ensures forall i :: i in s.tasks && s.tasks[i].experiment == x ==> targets(x) == {} && s.tasks[i].locks == []
  {
    forall i | i in s.tasks && s.tasks[i].experiment == x ensures targets(x) == {} && s.tasks[i].locks == [] {
      assert TaskOk(targets, s.runLocks, s.tasks[i]);
      var keys := s.requests[r].keys;
      assert keys == keys[..s.requests[r].held];
      Disjoint(s, Request(r), Run(i));
      assert forall k :: k in targets(x) ==> k in Holding(s, Request(r));
    }
  }

  lemma LaunchStep(targets: Targets, s: State, r: nat, x: string, t: nat)
    requires Inv(targets, s) && Enabled(targets, s, Launch(r, x, t)) && !InFlight(s, x)
    ensures Inv(targets, Next(targets, s, Launch(r, x, t)))
  {
    var s', keys := Next(targets, s, Launch(r, x, t)), s.requests[r].keys;
    assert keys == keys[..s.requests[r].held];
    NoRivalRun(targets, s, r, x, t);
    TransferOwners(s, s', r, t, keys);
    forall i | i in s'.tasks ensures TaskOk(targets, s'.runLocks, s'.tasks[i]) {
      if i != t { assert TaskOk(targets, s.runLocks, s.tasks[i]); }
    }
  }

  lemma FinishStep(targets: Targets, s: State, t: nat)
    requires Inv(targets, s) && Enabled(targets, s, Finish(t))
    ensures Inv(targets, Next(targets, s, Finish(t)))
  {
    var s', x := Next(targets, s, Finish(t)), s.tasks[t].experiment;
    FinishReleasesOwn(targets, s, t);
    ReleaseKeeps(s, s', Run(t));
    forall i | i in s'.tasks ensures TaskOk(targets, s'.runLocks, s'.tasks[i]) {
      assert TaskOk(targets, s.runLocks, s.tasks[i]);
      if s.tasks[i].experiment == x && targets(x) != {} { OneTargetedRun(targets, s, t, i); }
    }
  }

  lemma DoneStep(targets: Targets, s: State, t: nat)
    requires Inv(targets, s) && t in s.tasks
    ensures Inv(targets, s.(tasks := s.tasks[t := s.tasks[t].(done := true)]))
  {
    var s' := s.(tasks := s.tasks[t := s.tasks[t].(done := true)]);
    assert forall o :: Holding(s', o) == Holding(s, o);
    forall i | i in s'.tasks ensures TaskOk(targets, s'.runLocks, s'.tasks[i]) {
      assert TaskOk(targets, s.runLocks, s.tasks[i]);
    }
  }

  lemma TableStep(targets: Targets, s: State, runs': map<string, nat>)
    requires Inv(targets, s)
    ensures Inv(targets, s.(runs := runs'))
  {
    assert forall o :: Holding(s.(runs := runs'), o) == Holding(s, o);
  }

  lemma NextKeepsInv(targets: Targets, s: State, e: Event)
    requires Inv(targets, s) && Enabled(targets, s, e)
    ensures Inv(targets, Next(targets, s, e))
  {
    match e
    case Start(r, keys) => StartStep(targets, s, r, keys);
    case Acquire(r) => AcquireStep(targets, s, r);
    case Abandon(r) => DropStep(targets, s, r, s.requests[r].keys[..s.requests[r].held]);
    case Reject(r) =>
      assert s.requests[r].keys[..s.requests[r].held] == s.requests[r].keys;
      DropStep(targets, s, r, s.requests[r].keys);
    case Launch(r, x, t) =>
      if InFlight(s, x) {
        assert s.requests[r].keys[..s.requests[r].held] == s.requests[r].keys;
        DropStep(targets, s, r, s.requests[r].keys);
      } else {
        LaunchStep(targets, s, r, x, t);
      }
    case TaskDone(t) => DoneStep(targets, s, t);
    case Finish(t) => FinishStep(targets, s, t);
    case Cancel(x) => TableStep(targets, s, s.runs - {x});
    case Shutdown => TableStep(targets, s, map[]);
  }

  // ---------------------------------------------------------------------------
  // Every run of the admin
  // ---------------------------------------------------------------------------

  ghost predicate Follows(targets: Targets, s: State, s': State)
  {
    exists e :: Enabled(targets, s, e) && s' == Next(targets, s, e)
  }

  ghost predicate IsRun(targets: Targets, run: seq<State>)
  {
    run != [] && run[0] == INITIAL && forall i :: 0 < i < |run| ==> Follows(targets, run[i - 1], run[i])
  }

  lemma {:induction false} EveryRunKeepsInv(targets: Targets, run: seq<State>, i: nat)
    requires IsRun(targets, run) && i < |run|
    ensures Inv(targets, run[i])
  {
    if i > 0 {
      EveryRunKeepsInv(targets, run, i - 1);
      assert Follows(targets, run[i - 1], run[i]);
      var e :| Enabled(targets, run[i - 1], e) && run[i] == Next(targets, run[i - 1], e);
      NextKeepsInv(targets, run[i - 1], e);
    }
  }

  /** Who acts in a step that releases locks. */
  function Actor(e: Event): set<Owner>
  {
    match e
    case Abandon(r) => {Request(r)}
    case Reject(r) => {Request(r)}
    case Launch(r, _, _) => {Request(r)}
    case Finish(t) => {Run(t)}
    case _ => {}
  }

  /** Although a release frees whatever is locked, every step frees or hands over only locks of the one who acts,
      and leaves it with none: each acquired lock is released exactly once. */
  lemma ReleasesOwnExactlyOnce(targets: Targets, s: State, e: Event)
    requires Inv(targets, s) && Enabled(targets, s, e)
    ensures var s' := Next(targets, s, e);
            && (forall k :: k in s.owners && (k !in s'.owners || s'.owners[k] != s.owners[k]) ==>
                  s.owners[k] in Actor(e))
            && (forall o :: o in Actor(e) ==> Holding(s', o) == [] && forall k :: k in s'.owners ==> s'.owners[k] != o)
  {
    var s' := Next(targets, s, e);
    NextKeepsInv(targets, s, e);
    ActorGivesUpAll(targets, s, e);
    forall k | k in s.owners && (k !in s'.owners || s'.owners[k] != s.owners[k]) ensures s.owners[k] in Actor(e) {
      ChangedWasActors(targets, s, e, k);
    }
    forall o | o in Actor(e) ensures forall k :: k in s'.owners ==> s'.owners[k] != o {
      assert forall k :: k in s'.owners && s'.owners[k] == o ==> k in Holding(s', o);
    }
  }

  lemma ActorGivesUpAll(targets: Targets, s: State, e: Event)
    requires Inv(targets, s) && Enabled(targets, s, e)
    ensures forall o :: o in Actor(e) ==> Holding(Next(targets, s, e), o) == []
  {
  }

  lemma ChangedWasActors(targets: Targets, s: State, e: Event, k: Key)
    requires Inv(targets, s) && Enabled(targets, s, e) && k in s.owners
    requires k !in Next(targets, s, e).owners || Next(targets, s, e).owners[k] != s.owners[k]
    ensures s.owners[k] in Actor(e)
  {
    match e {
      case Abandon(r) => assert k in Holding(s, Request(r));
      case Reject(r) =>
        assert s.requests[r].keys[..s.requests[r].held] == s.requests[r].keys;
        assert k in Holding(s, Request(r));
      case Launch(r, x, t) =>
        assert s.requests[r].keys[..s.requests[r].held] == s.requests[r].keys;
        assert k in Holding(s, Request(r));
      case Finish(t) =>
        FinishReleasesOwn(targets, s, t);
        assert k in Holding(s, Run(t));
      case _ =>
    }
  }

  /** No lock outlives its request or run. */
  lemma NoLockLeaks(targets: Targets, run: seq<State>, i: nat, k: Key)
    requires IsRun(targets, run) && i < |run| && k in run[i].owners
    ensures match run[i].owners[k]
            case Request(r) => r in run[i].requests && k in run[i].requests[r].keys
            case Run(t) => t in run[i].tasks && k in run[i].tasks[t].locks
  {
    EveryRunKeepsInv(targets, run, i);
    assert k in Holding(run[i], run[i].owners[k]);
  }

  // ---------------------------------------------------------------------------
  // Deadlock freedom
  // ---------------------------------------------------------------------------

  /** The request waits for a lock another owner holds. */
  predicate Waits(s: State, r: nat)
  {
    r in s.requests && s.requests[r].held < |s.requests[r].keys| && s.requests[r].keys[s.requests[r].held] in s.owners
  }

  function AwaitedKey(s: State, r: nat): Key
    requires Waits(s, r)
  {
    s.requests[r].keys[s.requests[r].held]
  }

  /** Every waiter waits for a key above all it holds, and never for itself. */
  lemma WaitsUpwards(targets: Targets, s: State, r: nat, k: Key)
    requires Inv(targets, s) && Waits(s, r) && k in Holding(s, Request(r))
    ensures KeyLt(k, AwaitedKey(s, r))
    ensures s.owners[AwaitedKey(s, r)] != Request(r)
  {
    var p := s.requests[r];
    assert PendingOk(p);
    var i :| 0 <= i < p.held && p.keys[i] == k;
    assert KeyLt(p.keys[i], p.keys[p.held]);
    NotHeldYet(targets, s, r);
  }

  lemma NotHeldYet(targets: Targets, s: State, r: nat)
    requires Inv(targets, s) && Waits(s, r)
    ensures s.owners[AwaitedKey(s, r)] != Request(r)
  {
    var p := s.requests[r];
    assert PendingOk(p);
    forall i | 0 <= i < p.held ensures p.keys[i] != p.keys[p.held] {
      assert KeyLt(p.keys[i], p.keys[p.held]);
    }
    assert p.keys[p.held] !in Holding(s, Request(r));
  }

  ghost function Above(s: State, k: Key): set<Key>
  {
    set x | x in s.owners && KeyLt(k, x)
  }

  lemma AboveShrinks(s: State, k: Key, k': Key)
    requires KeyLt(k, k') && k' in s.owners
    ensures |Above(s, k')| < |Above(s, k)|
  {
    forall x | x in Above(s, k') ensures x in Above(s, k) { KeyLtTransitive(k, k', x); }
    assert k' in Above(s, k) && k' !in Above(s, k');
    assert Above(s, k') <= Above(s, k) - {k'};
    SubsetSmaller(Above(s, k'), Above(s, k) - {k'});
  }

  lemma {:induction false} SubsetSmaller<T>(a: set<T>, b: set<T>)
    requires a <= b
    ensures |a| <= |b|
  {
    if a != {} {
      var x :| x in a;
      SubsetSmaller(a - {x}, b - {x});
    }
  }

  /** `o` is at the end of the wait chain that starts at request `r`. */
  least predicate WaitsOn(s: State, r: nat, o: Owner)
  {
    Waits(s, r) &&
    (s.owners[AwaitedKey(s, r)] == o ||
     (s.owners[AwaitedKey(s, r)].Request? && WaitsOn(s, s.owners[AwaitedKey(s, r)].id, o)))
  }

  /** Every wait chain ends in a run or in a request that does not wait for a lock, so somebody can always move. */
  lemma {:induction false} WaitChainsEnd(targets: Targets, s: State, r: nat) returns (o: Owner)
    requires Inv(targets, s) && Waits(s, r)
    ensures WaitsOn(s, r, o) && (o.Request? ==> o.id in s.requests && !Waits(s, o.id))
    decreases |Above(s, AwaitedKey(s, r))|
  {
    var k := AwaitedKey(s, r);
    o := s.owners[k];
    assert k in Holding(s, o);
    if o.Request? && Waits(s, o.id) {
      WaitsUpwards(targets, s, o.id, k);
      AboveShrinks(s, k, AwaitedKey(s, o.id));
      o := WaitChainsEnd(targets, s, o.id);
    }
  }

  /** Whoever does not wait has a step of its own. */
  lemma NotWaitingCanMove(targets: Targets, s: State, o: Owner)
    requires Inv(targets, s)
    requires o.Request? ==> o.id in s.requests && !Waits(s, o.id)
    requires o.Run? ==> o.id in s.tasks
    ensures match o
            case Request(r) => Enabled(targets, s, Acquire(r)) || Enabled(targets, s, Reject(r))
            case Run(t) => Enabled(targets, s, TaskDone(t)) || Enabled(targets, s, Finish(t))
  {
    if o.Request? { assert PendingOk(s.requests[o.id]); }
  }

  // ---------------------------------------------------------------------------
  // One dispatcher per experiment
  // ---------------------------------------------------------------------------

  /** A targeted experiment never has two unfinished runs. */
  lemma OneDispatcher(targets: Targets, run: seq<State>, i: nat, t: nat, t': nat)
    requires IsRun(targets, run) && i < |run| && t in run[i].tasks && t' in run[i].tasks && t != t'
    requires run[i].tasks[t].experiment == run[i].tasks[t'].experiment
    ensures targets(run[i].tasks[t].experiment) == {}
  {
    EveryRunKeepsInv(targets, run, i);
    if targets(run[i].tasks[t].experiment) != {} { OneTargetedRun(targets, run[i], t, t'); }
  }

  predicate Unfinished(s: State, t: nat, x: string)
  {
    t in s.tasks && s.tasks[t].experiment == x && !s.tasks[t].done
  }

  /** The table still knows every unfinished run of the experiment, so there is at most one. */
  ghost predicate Tracked(s: State, x: string)
  {
    forall t :: Unfinished(s, t, x) ==> x in s.runs && s.runs[x] == t
  }

  /** The step takes the experiment off the table while a run of it is unfinished: a cancellation, the shutdown, or
      the late callback of an earlier run. */
  ghost predicate Forgets(s: State, e: Event, x: string)
  {
    && (e == Cancel(x) || e == Shutdown || (e.Finish? && e.task in s.tasks && s.tasks[e.task].experiment == x))
    && exists t :: Unfinished(s, t, x)
  }

  /** A start launches a second run of the experiment only if the table has lost the first; the table loses it by
      exactly those steps. */
  lemma TrackedIff(targets: Targets, s: State, e: Event, x: string)
    requires Enabled(targets, s, e) && Tracked(s, x)
    ensures Tracked(Next(targets, s, e), x) <==> !Forgets(s, e, x)
  {
    var s' := Next(targets, s, e);
    if Forgets(s, e, x) {
      var t :| Unfinished(s, t, x);
      assert Unfinished(s', t, x);
    } else {
      forall t | Unfinished(s', t, x) ensures x in s'.runs && s'.runs[x] == t {
        if t in s.tasks { assert Unfinished(s, t, x); }
      }
    }
  }

  ghost predicate Forgot(targets: Targets, s: State, s': State, x: string)
  {
    exists e :: Enabled(targets, s, e) && s' == Next(targets, s, e) && Forgets(s, e, x)
  }

  /** In every run: two unfinished runs of one experiment, targeted or not, only after the table has forgotten one. */
  lemma {:induction false} TwoRunsOnlyIfForgotten(targets: Targets, run: seq<State>, i: nat, x: string)
    requires IsRun(targets, run) && i < |run|
    ensures Tracked(run[i], x) || exists j :: 0 < j <= i && Forgot(targets, run[j - 1], run[j], x)
  {
    if i > 0 {
      TwoRunsOnlyIfForgotten(targets, run, i - 1, x);
      assert Follows(targets, run[i - 1], run[i]);
      if Tracked(run[i - 1], x) {
        var e :| Enabled(targets, run[i - 1], e) && run[i] == Next(targets, run[i - 1], e);
        TrackedIff(targets, run[i - 1], e, x);
      }
    }
  }

  /** What a launch, the end of a run and its callback do to the tables and the locks. */
  lemma LaunchMeans(targets: Targets, s: State, r: nat, x: string, t: nat)
    requires Inv(targets, s) && Enabled(targets, s, Launch(r, x, t))
    ensures var s', keys := Next(targets, s, Launch(r, x, t)), s.requests[r].keys;
            var second := x in s.runs && s.runs[x] in s.tasks && !s.tasks[s.runs[x]].done;
            && r !in s'.requests
            && (second ==>
                  && s'.tasks == s.tasks && s'.runs == s.runs && s'.runLocks == s.runLocks
                  && forall k :: k in s'.owners <==> k in s.owners && k !in keys)
            && (!second ==>
                  && t in s'.tasks && s'.tasks[t] == Task(x, keys, false) && s'.tasks - {t} == s.tasks
                  && x in s'.runs && s'.runs[x] == t && x in s'.runLocks && s'.runLocks[x] == keys
                  && s'.owners.Keys == s.owners.Keys
                  && forall k :: k in keys ==> k in s'.owners && s'.owners[k] == Run(t))
  {
    var keys := s.requests[r].keys;
    assert keys[..s.requests[r].held] == keys;
    assert Holding(s, Request(r)) == keys;
  }

  /** The callback of a run takes its experiment off both tables and frees what it holds, and nothing else. */
  lemma FinishMeans(targets: Targets, s: State, t: nat, k: Key)
    requires Inv(targets, s) && Enabled(targets, s, Finish(t))
    ensures var s', x := Next(targets, s, Finish(t)), s.tasks[t].experiment;
            && t !in s'.tasks && s'.tasks == s.tasks - {t} && s'.requests == s.requests
            && x !in s'.runs && s'.runs == s.runs - {x} && x !in s'.runLocks && s'.runLocks == s.runLocks - {x}
            && (k in s'.owners <==> k in s.owners && s.owners[k] != Run(t))
            && (k in s'.owners ==> s'.owners[k] == s.owners[k])
  {
    FinishReleasesOwn(targets, s, t);
    if k in s.owners { assert k in Holding(s, s.owners[k]); }
  }

  lemma UntargetedCovers(targets: Targets, x: string)
    requires targets(x) == {}
    ensures Covers(targets, [], x)
  {
  }

  /** An untargeted one can: cancelling forgets the run before it has ended, and a new start launches another. */
  lemma TwoUntargetedRuns(targets: Targets, x: string) returns (run: seq<State>)
    requires targets(x) == {}
    ensures IsRun(targets, run)
    ensures var s := run[|run| - 1];
            0 in s.tasks && 1 in s.tasks && s.tasks[0] == s.tasks[1] == Task(x, [], false)
  {
    UntargetedCovers(targets, x);
    var s1 := Next(targets, INITIAL, Start(0, []));
    var s2 := Next(targets, s1, Launch(0, x, 0));
    var s3 := Next(targets, s2, Cancel(x));
    var s4 := Next(targets, s3, Start(0, []));
    var s5 := Next(targets, s4, Launch(0, x, 1));
    assert Follows(targets, INITIAL, s1) && Follows(targets, s1, s2) && Follows(targets, s2, s3);
    assert Follows(targets, s3, s4) && Follows(targets, s4, s5);
    run := [INITIAL, s1, s2, s3, s4, s5];
  }

  /** A step that is neither a cancellation nor the shutdown. */
  ghost predicate GoesOn(targets: Targets, s: State, s': State)
  {
    exists e :: Enabled(targets, s, e) && !e.Cancel? && !e.Shutdown? && s' == Next(targets, s, e)
  }

  ghost predicate AllGoOn(targets: Targets, run: seq<State>)
  {
    forall i :: 0 < i < |run| ==> GoesOn(targets, run[i - 1], run[i])
  }

  lemma GoesFurther(targets: Targets, run: seq<State>, s: State)
    requires run != [] && AllGoOn(targets, run) && GoesOn(targets, run[|run| - 1], s)
    ensures AllGoOn(targets, run + [s])
  {
    var longer := run + [s];
    forall i | 0 < i < |longer| ensures GoesOn(targets, longer[i - 1], longer[i]) {
      if i < |run| { assert GoesOn(targets, run[i - 1], run[i]); }
    }
  }

  /** A run has ended, its callback is still to come, and a second one has been launched. */
  lemma LaunchedAfterDone(targets: Targets, x: string) returns (run: seq<State>)
    requires targets(x) == {}
    ensures |run| == 6 && run[0] == INITIAL && AllGoOn(targets, run)
    ensures run[5] == State(map[], map[], map[0 := Task(x, [], true), 1 := Task(x, [], false)], map[x := 1],
                            map[x := []])
  {
    UntargetedCovers(targets, x);
    var s1 := Next(targets, INITIAL, Start(0, []));
    var s2 := Next(targets, s1, Launch(0, x, 0));
    var s3 := Next(targets, s2, TaskDone(0));
    var s4 := Next(targets, s3, Start(0, []));
    var s5 := Next(targets, s4, Launch(0, x, 1));
    run := [INITIAL, s1, s2, s3, s4, s5];
  }

  /** Its late callback takes the second one off the table, and a third is launched beside it. */
  lemma ForgottenByCallback(targets: Targets, x: string, s: State) returns (rest: seq<State>)
    requires targets(x) == {}
    requires s == State(map[], map[], map[0 := Task(x, [], true), 1 := Task(x, [], false)], map[x := 1], map[x := []])
    ensures |rest| == 3 && GoesOn(targets, s, rest[0]) && GoesOn(targets, rest[0], rest[1])
    ensures GoesOn(targets, rest[1], rest[2]) && Unfinished(rest[2], 1, x) && Unfinished(rest[2], 2, x)
  {
    UntargetedCovers(targets, x);
    var s6 := Next(targets, s, Finish(0));
    assert s6.tasks == map[1 := Task(x, [], false)] && s6.runs == map[] && s6.requests == map[];
    var s7 := Next(targets, s6, Start(0, []));
    var s8 := Next(targets, s7, Launch(0, x, 2));
    rest := [s6, s7, s8];
  }

  /** Without any cancellation: the callback of a run that is already done takes its successor off the table, and a
      third start launches a second unfinished run. */
  lemma TwoRunsWithoutCancel(targets: Targets, x: string) returns (run: seq<State>)
    requires targets(x) == {}
    ensures run != [] && run[0] == INITIAL && AllGoOn(targets, run)
    ensures Unfinished(run[|run| - 1], 1, x) && Unfinished(run[|run| - 1], 2, x)
  {
    run := LaunchedAfterDone(targets, x);
    var rest := ForgottenByCallback(targets, x, run[5]);
    GoesFurther(targets, run, rest[0]);
    run := run + [rest[0]];
    GoesFurther(targets, run, rest[1]);
    run := run + [rest[1]];
    GoesFurther(targets, run, rest[2]);
    run := run + [rest[2]];
  }

  // ---------------------------------------------------------------------------
  // The admin's tables
  // ---------------------------------------------------------------------------

  class AdminTables {
    var locked: set<Key>
    var runs: map<string, nat>
    var runLocks: map<string, seq<Key>>

    constructor ()
      ensures locked == {} && runs == map[] && runLocks == map[]
    {
      locked, runs, runLocks := {}, map[], map[];
    }

    ghost predicate Shows(s: State)
      reads this
    {
      locked == s.owners.Keys && runs == s.runs && runLocks == s.runLocks
    }

    /** In reverse order, whatever is locked. */
    method ReleaseTargetLocks(keys: seq<Key>)
      modifies this`locked
      ensures locked == old(locked) - set k | k in keys
    {
      var i := |keys|;
      while i > 0
        invariant 0 <= i <= |keys|
        invariant locked == old(locked) - set k | k in keys[i..]
      {
        i := i - 1;
        assert keys[i..] == [keys[i]] + keys[i + 1..];
        if keys[i] in locked {
          locked := locked - {keys[i]};
        }
      }
    }

    /** `done` tells whether a task, if the table has one, is done. */
    method LaunchRun(experiment: string, keys: seq<Key>, task: nat, done: nat -> bool, ghost targets: Targets,
                     ghost s: State, ghost r: nat)
      requires Shows(s) && Enabled(targets, s, Launch(r, experiment, task)) && s.requests[r].keys == keys
      requires experiment in runs ==>
                 && runs[experiment] in s.tasks
                 && done(runs[experiment]) == s.tasks[runs[experiment]].done
      modifies this
      ensures Shows(Next(targets, s, Launch(r, experiment, task)))
    {
      if experiment in runs && !done(runs[experiment]) {
        ReleaseTargetLocks(keys);
        return;
      }
      runs := runs[experiment := task];
      runLocks := runLocks[experiment := keys];
    }

    method FinishRun(experiment: string, ghost targets: Targets, ghost s: State, ghost task: nat)
      requires Shows(s) && Enabled(targets, s, Finish(task)) && s.tasks[task].experiment == experiment
      modifies this
      ensures Shows(Next(targets, s, Finish(task)))
    {
      runs := runs - {experiment};
      var locks := if experiment in runLocks then runLocks[experiment] else [];
      runLocks := runLocks - {experiment};
      ReleaseTargetLocks(locks);
    }
  }
}
