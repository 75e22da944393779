/** From pool events to recalculated arbs, as a state machine: handlers that update
    pools and schedule puts, the shared queue, the consumer, and the processing tasks
    it spawns, interleaved in any way. */
module Pipeline {
  import opened Seqs
  import opened Reduction
  import opened Arbitrage

  /** A spawned `process_onchain_arbs` with the arbs it has still to calculate. */
  datatype Task = Task(todo: seq<Arb>)

  /** version counts the updates of each pool; scanned and seen are the versions the
      consumer last looked up and each arb was last calculated at. */
  datatype State = State(
    version: map<string, nat>,
    scanned: map<string, nat>,
    seen: map<(Arb, string), nat>,
    pending: multiset<string>,
    queue: seq<string>,
    tasks: seq<Task>,
    updates: multiset<string>,
    consumed: multiset<string>)

  const INITIAL := State(map[], map[], map[], multiset{}, [], [], multiset{}, multiset{})

  function Count<K>(m: map<K, nat>, k: K): nat {
    if k in m then m[k] else 0
  }

  datatype Step =
    | Update(pool: string)    // a handler's update succeeds and its put is scheduled
    | HalfUpdate(pool: string) // a Mint or Burn handler updates the pool, but its snapshot
                               // update raises: no put is scheduled
    | Put(pool: string)       // a scheduled put runs
    | Consume                 // the consumer takes the queue's head
    | Calculate(task: nat)    // a task calculates its next arb

  predicate Enabled(s: State, step: Step) {
    match step
    case Update(_) => true
    case HalfUpdate(_) => true
    case Put(p) => p in s.pending
    case Consume => s.queue != []
    case Calculate(i) => i < |s.tasks| && s.tasks[i].todo != []
  }

  function Spawned(arbs: seq<Arb>, pool: string): seq<Task> {
    var affected := Filter(AffectedBy(pool), arbs);
    if affected != [] then [Task(affected)] else []
  }

  function Apply(arbs: seq<Arb>, s: State, step: Step): State
    requires Enabled(s, step)
  {
    match step
    case Update(p) =>
      s.(version := s.version[p := Count(s.version, p) + 1], pending := s.pending + multiset{p},
         updates := s.updates + multiset{p})
    case HalfUpdate(p) =>
      s.(version := s.version[p := Count(s.version, p) + 1])
    case Put(p) =>
      s.(pending := s.pending - multiset{p}, queue := s.queue + [p])
    case Consume =>
      var p := s.queue[0];
      s.(queue := s.queue[1..], consumed := s.consumed + multiset{p},
         scanned := s.scanned[p := Count(s.version, p)], tasks := s.tasks + Spawned(arbs, p))
    case Calculate(i) =>
      var t := s.tasks[i];
      s.(seen := Recorded(s, t.todo[0]),
         tasks := if |t.todo| == 1 then s.tasks[..i] + s.tasks[i + 1..] else s.tasks[i := Task(t.todo[1..])])
  }

  /** Calculating an arb reads the current state of all its pools. */
  function Recorded(s: State, a: Arb): map<(Arb, string), nat> {
    s.seen + map p | p in a.pools :: (a, p) := Count(s.version, p)
  }

  predicate AllEnabled(arbs: seq<Arb>, s: State, steps: seq<Step>)
    decreases |steps|
  {
    steps == [] || (Enabled(s, steps[0]) && AllEnabled(arbs, Apply(arbs, s, steps[0]), steps[1..]))
  }

  function Run(arbs: seq<Arb>, s: State, steps: seq<Step>): State
    requires AllEnabled(arbs, s, steps)
    decreases |steps|
  {
    if steps == [] then s else Run(arbs, Apply(arbs, s, steps[0]), steps[1..])
  }

  // ----- invariants of every interleaving

  predicate Announced(s: State, p: string) {
    p in s.pending || p in s.queue
  }

  ghost predicate InTodo(tasks: seq<Task>, a: Arb) {
    exists i :: 0 <= i < |tasks| && a in tasks[i].todo
  }

  /** Updates are accounted for, no task is without work, and nothing is recorded that
      has not happened. */
  ghost predicate Inv(s: State) {
    && s.updates == s.pending + multiset(s.queue) + s.consumed
    && (forall i :: 0 <= i < |s.tasks| ==> s.tasks[i].todo != [])
    && (forall p :: Count(s.scanned, p) <= Count(s.version, p))
    && (forall a, p :: Count(s.seen, (a, p)) <= Count(s.version, p))
  }

  lemma StepKeepsAccount(arbs: seq<Arb>, s: State, step: Step)
    requires s.updates == s.pending + multiset(s.queue) + s.consumed && Enabled(s, step)
    ensures var s' := Apply(arbs, s, step); s'.updates == s'.pending + multiset(s'.queue) + s'.consumed
  {
    match step
    case Update(_) =>
    case HalfUpdate(_) =>
    case Put(p) => assert s.pending == (s.pending - multiset{p}) + multiset{p};
    case Consume => assert s.queue == [s.queue[0]] + s.queue[1..];
    case Calculate(_) =>
  }

  lemma StepKeepsTasks(arbs: seq<Arb>, s: State, step: Step)
    requires (forall i :: 0 <= i < |s.tasks| ==> s.tasks[i].todo != []) && Enabled(s, step)
    ensures var s' := Apply(arbs, s, step); forall i :: 0 <= i < |s'.tasks| ==> s'.tasks[i].todo != []
  {
  }

  lemma RecordedAt(s: State, h: Arb, a: Arb, p: string)
    ensures Count(Recorded(s, h), (a, p)) ==
            if a == h && p in a.pools then Count(s.version, p) else Count(s.seen, (a, p))
  {
    assert (a, p) in Recorded(s, h) <==> (a, p) in s.seen || (a == h && p in a.pools);
  }

  lemma StepKeepsSeen(arbs: seq<Arb>, s: State, step: Step, a: Arb, p: string)
    requires Count(s.seen, (a, p)) <= Count(s.version, p) && Enabled(s, step)
    ensures var s' := Apply(arbs, s, step); Count(s'.seen, (a, p)) <= Count(s'.version, p)
  {
    if step.Calculate? {
      RecordedAt(s, s.tasks[step.task].todo[0], a, p);
    }
  }

  lemma StepKeepsScanned(arbs: seq<Arb>, s: State, step: Step, p: string)
    requires Count(s.scanned, p) <= Count(s.version, p) && Enabled(s, step)
    ensures var s' := Apply(arbs, s, step); Count(s'.scanned, p) <= Count(s'.version, p)
  {
  }

  lemma StepKeepsInv(arbs: seq<Arb>, s: State, step: Step)
    requires Inv(s) && Enabled(s, step)
    ensures Inv(Apply(arbs, s, step))
  {
    StepKeepsAccount(arbs, s, step);
    StepKeepsTasks(arbs, s, step);
    var s' := Apply(arbs, s, step);
    forall p ensures Count(s'.scanned, p) <= Count(s'.version, p) {
      StepKeepsScanned(arbs, s, step, p);
    }
    forall a, p ensures Count(s'.seen, (a, p)) <= Count(s'.version, p) {
      StepKeepsSeen(arbs, s, step, a, p);
    }
  }

  // ----- which changes of a pool reach the consumer

  /** The pool was scanned at its latest version, or is announced. */
  predicate InSync(s: State, p: string) {
    Count(s.scanned, p) == Count(s.version, p) || Announced(s, p)
  }

  /** Some half update of p happens while p is not announced and is followed by no
      update of p. */
  ghost predicate Loses(arbs: seq<Arb>, s: State, steps: seq<Step>, p: string)
    requires AllEnabled(arbs, s, steps)
    decreases |steps|
  {
    steps != [] && (
      (steps[0] == HalfUpdate(p) && !Announced(s, p) && Update(p) !in steps[1..]) ||
      Loses(arbs, Apply(arbs, s, steps[0]), steps[1..], p))
  }

  lemma StepKeepsSync(arbs: seq<Arb>, s: State, step: Step, p: string)
    requires Enabled(s, step)
    ensures step == Update(p) ==> InSync(Apply(arbs, s, step), p)
    ensures InSync(s, p) && (step == HalfUpdate(p) ==> Announced(s, p)) ==> InSync(Apply(arbs, s, step), p)
  {
    if step.Consume? {
      assert s.queue == [s.queue[0]] + s.queue[1..];
    }
  }

  /** An unannounced pool stays so until it is updated, and then is not scanned. */
  lemma {:induction false} StaysLost(arbs: seq<Arb>, s: State, steps: seq<Step>, p: string)
    requires Inv(s) && AllEnabled(arbs, s, steps)
    requires !Announced(s, p) && Count(s.scanned, p) < Count(s.version, p) && Update(p) !in steps
    ensures !InSync(Run(arbs, s, steps), p)
    decreases |steps|
  {
    if steps == [] {
    } else {
      assert steps[0] in steps;
      StepKeepsInv(arbs, s, steps[0]);
      StaysLost(arbs, Apply(arbs, s, steps[0]), steps[1..], p);
    }
  }

  lemma {:induction false} SyncUnlessLost(arbs: seq<Arb>, s: State, steps: seq<Step>, p: string)
    requires Inv(s) && AllEnabled(arbs, s, steps) && (InSync(s, p) || Update(p) in steps)
    ensures InSync(Run(arbs, s, steps), p) <==> !Loses(arbs, s, steps, p)
    decreases |steps|
  {
    if steps == [] {
    } else {
      var s' := Apply(arbs, s, steps[0]);
      StepKeepsInv(arbs, s, steps[0]);
      StepKeepsSync(arbs, s, steps[0], p);
      if steps[0] == HalfUpdate(p) && !Announced(s, p) && Update(p) !in steps[1..] {
        StaysLost(arbs, s', steps[1..], p);
      } else {
        SyncUnlessLost(arbs, s', steps[1..], p);
      }
    }
  }

  lemma {:induction false} RunKeepsInv(arbs: seq<Arb>, s: State, steps: seq<Step>)
    requires Inv(s) && AllEnabled(arbs, s, steps)
    ensures Inv(Run(arbs, s, steps))
    decreases |steps|
  {
    if steps == [] {
    } else {
      StepKeepsInv(arbs, s, steps[0]);
      RunKeepsInv(arbs, Apply(arbs, s, steps[0]), steps[1..]);
    }
  }

  /** In every reachable state the announcements account for the successful updates,
      and a changed pool that is neither scanned since nor announced is exactly one
      that was lost: half updated while it was not announced, and not updated since. */
  lemma EveryInterleaving(arbs: seq<Arb>, steps: seq<Step>, p: string)
    requires AllEnabled(arbs, INITIAL, steps)
    ensures Inv(Run(arbs, INITIAL, steps))
    ensures InSync(Run(arbs, INITIAL, steps), p) <==> !Loses(arbs, INITIAL, steps, p)
  {
    RunKeepsInv(arbs, INITIAL, steps);
    SyncUnlessLost(arbs, INITIAL, steps, p);
  }

  // ----- which arbs are up to date

  /** An arb that p affects is up to date at p, or will be: p is still announced, or the
      arb is still to be calculated. */
  ghost predicate Covered(s: State, a: Arb, p: string) {
    Count(s.seen, (a, p)) == Count(s.version, p) || Announced(s, p) || InTodo(s.tasks, a)
  }

  lemma ConsumeKeepsCovered(arbs: seq<Arb>, s: State, a: Arb, p: string)
    requires s.queue != [] && Covered(s, a, p) && a in arbs && AffectedBy(p)(a)
    ensures Covered(Apply(arbs, s, Consume), a, p)
  {
    var s' := Apply(arbs, s, Consume);
    var h := s.queue[0];
    assert s.queue == [h] + s.queue[1..];
    if InTodo(s.tasks, a) {
      var i :| 0 <= i < |s.tasks| && a in s.tasks[i].todo;
      assert s'.tasks[i] == s.tasks[i];
    } else if p == h {
      assert a in Filter(AffectedBy(p), arbs);
      assert s'.tasks[|s.tasks|].todo == Filter(AffectedBy(p), arbs);
    }
  }

  lemma CalculateKeepsTodo(arbs: seq<Arb>, s: State, i: nat, a: Arb)
    requires Enabled(s, Calculate(i)) && InTodo(s.tasks, a) && a != s.tasks[i].todo[0]
    ensures InTodo(Apply(arbs, s, Calculate(i)).tasks, a)
  {
    var s' := Apply(arbs, s, Calculate(i));
    var k :| 0 <= k < |s.tasks| && a in s.tasks[k].todo;
    var t := s.tasks[i].todo;
    if k == i {
      assert t == [t[0]] + t[1..];
      assert s'.tasks[i].todo == t[1..];
    } else if |t| > 1 || k < i {
      assert s'.tasks[k] == s.tasks[k];
    } else {
      assert s'.tasks[k - 1] == s.tasks[k];
    }
  }

  lemma CalculateKeepsCovered(arbs: seq<Arb>, s: State, i: nat, a: Arb, p: string)
    requires Enabled(s, Calculate(i)) && Covered(s, a, p) && p in a.pools
    ensures Covered(Apply(arbs, s, Calculate(i)), a, p)
  {
    var h := s.tasks[i].todo[0];
    if a == h {
      assert p in a.pools;
    } else if InTodo(s.tasks, a) {
      CalculateKeepsTodo(arbs, s, i, a);
    } else {
      RecordedAt(s, h, a, p);
    }
  }

  lemma StepKeepsCovered(arbs: seq<Arb>, s: State, step: Step, a: Arb, p: string)
    requires Enabled(s, step) && a in arbs && AffectedBy(p)(a)
    ensures step == Update(p) ==> Covered(Apply(arbs, s, step), a, p)
    ensures Covered(s, a, p) && (step == HalfUpdate(p) ==> Announced(s, p)) ==> Covered(Apply(arbs, s, step), a, p)
  {
    if Covered(s, a, p) {
      match step
      case Update(_) =>
      case HalfUpdate(_) =>
      case Put(_) =>
      case Consume => ConsumeKeepsCovered(arbs, s, a, p);
      case Calculate(i) => CalculateKeepsCovered(arbs, s, i, a, p);
    }
  }

  lemma {:induction false} CoveredUnlessLost(arbs: seq<Arb>, s: State, steps: seq<Step>, a: Arb, p: string)
    requires AllEnabled(arbs, s, steps) && a in arbs && AffectedBy(p)(a)
    requires (Covered(s, a, p) || Update(p) in steps) && !Loses(arbs, s, steps, p)
    ensures Covered(Run(arbs, s, steps), a, p)
    decreases |steps|
  {
    if steps == [] {
    } else {
      StepKeepsCovered(arbs, s, steps[0], a, p);
      CoveredUnlessLost(arbs, Apply(arbs, s, steps[0]), steps[1..], a, p);
    }
  }

  ghost predicate Quiet(s: State) {
    s.pending == multiset{} && s.queue == [] && s.tasks == []
  }

  /** Once nothing is in flight, every announcement was consumed, and a pool is scanned
      at its latest version, with every arb that it affects calculated at that
      version, unless it was lost; a lost pool is not. */
  lemma NoLostUpdate(arbs: seq<Arb>, steps: seq<Step>, p: string)
    requires AllEnabled(arbs, INITIAL, steps) && Quiet(Run(arbs, INITIAL, steps))
    ensures var s := Run(arbs, INITIAL, steps);
            && s.updates == s.consumed
            && (Count(s.scanned, p) == Count(s.version, p) <==> !Loses(arbs, INITIAL, steps, p))
            && (!Loses(arbs, INITIAL, steps, p) ==>
                  forall a :: a in arbs && AffectedBy(p)(a) ==> Count(s.seen, (a, p)) == Count(s.version, p))
  {
    EveryInterleaving(arbs, steps, p);
    if !Loses(arbs, INITIAL, steps, p) {
      forall a | a in arbs && AffectedBy(p)(a) ensures Covered(Run(arbs, INITIAL, steps), a, p) {
        CoveredUnlessLost(arbs, INITIAL, steps, a, p);
      }
    }
  }

  /** A single half update: nothing is in flight, and the change is lost. */
  lemma HalfUpdateIsLost(arbs: seq<Arb>, p: string)
    ensures var steps := [HalfUpdate(p)];
            && AllEnabled(arbs, INITIAL, steps) && Loses(arbs, INITIAL, steps, p)
            && Quiet(Run(arbs, INITIAL, steps))
            && Count(Run(arbs, INITIAL, steps).scanned, p) < Count(Run(arbs, INITIAL, steps).version, p)
  {
    var steps := [HalfUpdate(p)];
    assert steps[1..] == [];
    assert Run(arbs, INITIAL, steps) == Apply(arbs, INITIAL, HalfUpdate(p));
  }

  // ----- the queue is first in, first out

  /** The addresses that the puts of steps add, in order. */
  function Puts(steps: seq<Step>): seq<string> {
    if steps == [] then []
    else (if steps[0].Put? then [steps[0].pool] else []) + Puts(steps[1..])
  }

  /** How often the consumer takes an address. */
  function Takes(steps: seq<Step>): nat {
    if steps == [] then 0 else (if steps[0].Consume? then 1 else 0) + Takes(steps[1..])
  }

  /** r has taken the first n of the addresses all: they are consumed, the others queued. */
  ghost predicate HasTaken(all: seq<string>, consumed: multiset<string>, n: nat, r: State) {
    && n <= |all|
    && r.queue == all[n..]
    && r.consumed == consumed + multiset(all[..n])
  }

  /** Whatever is interleaved, the consumer takes what was queued first and then what
      the puts add, in that order. */
  lemma {:induction false} FirstInFirstOut(arbs: seq<Arb>, s: State, steps: seq<Step>)
    requires AllEnabled(arbs, s, steps)
    ensures HasTaken(s.queue + Puts(steps), s.consumed, Takes(steps), Run(arbs, s, steps))
    decreases |steps|
  {
    if steps == [] {
      assert s.queue + [] == s.queue;
    } else {
      FirstInFirstOut(arbs, Apply(arbs, s, steps[0]), steps[1..]);
      StepTakes(arbs, s, steps[0], Puts(steps[1..]), Takes(steps[1..]), Run(arbs, s, steps));
    }
  }

  lemma StepTakes(arbs: seq<Arb>, s: State, step: Step, puts: seq<string>, n: nat, r: State)
    requires Enabled(s, step)
    requires var s' := Apply(arbs, s, step); HasTaken(s'.queue + puts, s'.consumed, n, r)
    ensures HasTaken(s.queue + ((if step.Put? then [step.pool] else []) + puts), s.consumed,
                     (if step.Consume? then 1 else 0) + n, r)
  {
    match step
    case Update(_) => assert [] + puts == puts;
    case HalfUpdate(_) => assert [] + puts == puts;
    case Put(p) => assert s.queue + ([p] + puts) == (s.queue + [p]) + puts;
    case Consume =>
      assert [] + puts == puts;
      ConsumeTakes(arbs, s, puts, n, r);
    case Calculate(_) => assert [] + puts == puts;
  }

  lemma ConsumeTakes(arbs: seq<Arb>, s: State, puts: seq<string>, n: nat, r: State)
    requires s.queue != []
    requires var s' := Apply(arbs, s, Consume); HasTaken(s'.queue + puts, s'.consumed, n, r)
    ensures HasTaken(s.queue + puts, s.consumed, n + 1, r)
  {
    var rest := s.queue[1..] + puts;
    assert s.queue + puts == [s.queue[0]] + rest;
    HeadFirst(s.queue[0], rest, n);
  }

  lemma HeadFirst(h: string, rest: seq<string>, n: nat)
    requires n <= |rest|
    ensures ([h] + rest)[n + 1..] == rest[n..]
    ensures multiset(([h] + rest)[..n + 1]) == multiset{h} + multiset(rest[..n])
  {
    assert ([h] + rest)[..n + 1] == [h] + rest[..n];
  }

  lemma {:induction false} RunSnoc(arbs: seq<Arb>, s: State, steps: seq<Step>, step: Step)
    requires AllEnabled(arbs, s, steps + [step])
    ensures AllEnabled(arbs, s, steps) && Enabled(Run(arbs, s, steps), step)
    ensures Run(arbs, s, steps + [step]) == Apply(arbs, Run(arbs, s, steps), step)
    decreases |steps|
  {
    var all := steps + [step];
    if steps == [] {
      assert all[1..] == [];
      assert Run(arbs, s, all) == Run(arbs, Apply(arbs, s, step), []);
    } else {
      assert all[0] == steps[0] && all[1..] == steps[1..] + [step];
      RunSnoc(arbs, Apply(arbs, s, steps[0]), steps[1..], step);
    }
  }

  /** So the address at position i is scanned by the consumer's step number i + 1 from
      there, at the version that the pool then has. */
  lemma ScannedInTurn(arbs: seq<Arb>, s: State, steps: seq<Step>, i: nat)
    requires AllEnabled(arbs, s, steps + [Consume]) && AllEnabled(arbs, s, steps)
    requires i < |s.queue| && Takes(steps) == i
    ensures var r := Run(arbs, s, steps + [Consume]);
            && Count(r.scanned, s.queue[i]) == Count(r.version, s.queue[i])
            && r.consumed == Run(arbs, s, steps).consumed + multiset{s.queue[i]}
  {
    RunSnoc(arbs, s, steps, Consume);
    FirstInFirstOut(arbs, s, steps);
    var all := s.queue + Puts(steps);
    assert all[i..][0] == all[i] == s.queue[i];
  }

  // ----- a task calculates its arbs in order

  /** In every reachable state the arbs that a task has still to calculate are the end
      of the list that one pool affects. */
  ghost predicate TasksInOrder(arbs: seq<Arb>, s: State) {
    forall i :: 0 <= i < |s.tasks| ==> EndOfAffected(arbs, s.tasks[i].todo)
  }

  ghost predicate EndOfAffected(arbs: seq<Arb>, todo: seq<Arb>) {
    exists p, n :: 0 <= n <= |Filter(AffectedBy(p), arbs)| && todo == Filter(AffectedBy(p), arbs)[n..]
  }

  lemma StepKeepsOrder(arbs: seq<Arb>, s: State, step: Step)
    requires Enabled(s, step) && TasksInOrder(arbs, s)
    ensures TasksInOrder(arbs, Apply(arbs, s, step))
  {
    match step
    case Update(_) =>
    case HalfUpdate(_) =>
    case Put(_) =>
    case Consume =>
      var affected := Filter(AffectedBy(s.queue[0]), arbs);
      assert affected == affected[0..];
      assert EndOfAffected(arbs, affected);
    case Calculate(i) =>
      var todo := s.tasks[i].todo;
      assert EndOfAffected(arbs, todo);
      var p, n :| 0 <= n <= |Filter(AffectedBy(p), arbs)| && todo == Filter(AffectedBy(p), arbs)[n..];
      assert todo[1..] == Filter(AffectedBy(p), arbs)[n + 1..];
      assert EndOfAffected(arbs, todo[1..]);
  }

  lemma {:induction false} RunKeepsOrder(arbs: seq<Arb>, s: State, steps: seq<Step>)
    requires AllEnabled(arbs, s, steps) && TasksInOrder(arbs, s)
    ensures TasksInOrder(arbs, Run(arbs, s, steps))
    decreases |steps|
  {
    if steps == [] {
    } else {
      StepKeepsOrder(arbs, s, steps[0]);
      RunKeepsOrder(arbs, Apply(arbs, s, steps[0]), steps[1..]);
    }
  }

  // ----- staleness, for all pools of an arb

  predicate Changes(step: Step, p: string) {
    step == Update(p) || step == HalfUpdate(p)
  }

  predicate Calculates(s: State, step: Step, a: Arb) {
    Enabled(s, step) && step.Calculate? && s.tasks[step.task].todo[0] == a
  }

  /** Some step calculates a. */
  ghost predicate EverCalculates(arbs: seq<Arb>, s: State, steps: seq<Step>, a: Arb)
    requires AllEnabled(arbs, s, steps)
    decreases |steps|
  {
    steps != [] && (Calculates(s, steps[0], a) || EverCalculates(arbs, Apply(arbs, s, steps[0]), steps[1..], a))
  }

  /** Some change of p is followed by no calculation of a. */
  ghost predicate ChangedSince(arbs: seq<Arb>, s: State, steps: seq<Step>, a: Arb, p: string)
    requires AllEnabled(arbs, s, steps)
    decreases |steps|
  {
    steps != [] && (
      (Changes(steps[0], p) && !EverCalculates(arbs, Apply(arbs, s, steps[0]), steps[1..], a)) ||
      ChangedSince(arbs, Apply(arbs, s, steps[0]), steps[1..], a, p))
  }

  predicate UpToDate(s: State, a: Arb, p: string) {
    Count(s.seen, (a, p)) == Count(s.version, p)
  }

  lemma VersionGrows(arbs: seq<Arb>, s: State, step: Step, q: string, a: Arb, p: string)
    requires Inv(s) && (step == Update(q) || step == HalfUpdate(q))
    ensures UpToDate(Apply(arbs, s, step), a, p) <==> UpToDate(s, a, p) && q != p
  {
    assert Count(s.seen, (a, p)) <= Count(s.version, p);
  }

  lemma StepDates(arbs: seq<Arb>, s: State, step: Step, a: Arb, p: string)
    requires Inv(s) && Enabled(s, step) && p in a.pools
    ensures UpToDate(Apply(arbs, s, step), a, p) <==> Calculates(s, step, a) || (UpToDate(s, a, p) && !Changes(step, p))
  {
    match step
    case Update(q) => VersionGrows(arbs, s, step, q, a, p);
    case HalfUpdate(q) => VersionGrows(arbs, s, step, q, a, p);
    case Put(_) =>
    case Consume =>
    case Calculate(i) => RecordedAt(s, s.tasks[i].todo[0], a, p);
  }

  lemma {:induction false} RunDates(arbs: seq<Arb>, s: State, steps: seq<Step>, a: Arb, p: string)
    requires Inv(s) && AllEnabled(arbs, s, steps) && p in a.pools
    ensures UpToDate(Run(arbs, s, steps), a, p) <==>
            !ChangedSince(arbs, s, steps, a, p) && (UpToDate(s, a, p) || EverCalculates(arbs, s, steps, a))
    decreases |steps|
  {
    if steps == [] {
    } else {
      StepKeepsInv(arbs, s, steps[0]);
      StepDates(arbs, s, steps[0], a, p);
      RunDates(arbs, Apply(arbs, s, steps[0]), steps[1..], a, p);
    }
  }

  /** In every reachable state an arb was calculated at the latest version of a pool of
      its path iff no change of that pool came after its last calculation. */
  lemma StaleIffChangedSince(arbs: seq<Arb>, steps: seq<Step>, a: Arb, p: string)
    requires AllEnabled(arbs, INITIAL, steps) && p in a.pools
    ensures UpToDate(Run(arbs, INITIAL, steps), a, p) <==> !ChangedSince(arbs, INITIAL, steps, a, p)
  {
    RunDates(arbs, INITIAL, steps, a, p);
  }

  /** No work for a is under way or announced. */
  ghost predicate NoWorkFor(s: State, a: Arb) {
    !InTodo(s.tasks, a) && forall q :: Announced(s, q) ==> !AffectedBy(q)(a)
  }

  lemma StepGivesNoWork(arbs: seq<Arb>, s: State, step: Step, a: Arb)
    requires Enabled(s, step) && NoWorkFor(s, a) && (step.Update? ==> !AffectedBy(step.pool)(a))
    ensures NoWorkFor(Apply(arbs, s, step), a) && !Calculates(s, step, a)
  {
    match step
    case Update(_) =>
    case HalfUpdate(_) =>
    case Put(p) => assert Announced(s, p);
    case Consume =>
      assert s.queue == [s.queue[0]] + s.queue[1..];
      assert Announced(s, s.queue[0]);
    case Calculate(i) =>
      CalculateGivesNoTodo(arbs, s, i, a);
  }

  lemma CalculateGivesNoTodo(arbs: seq<Arb>, s: State, i: nat, a: Arb)
    requires Enabled(s, Calculate(i)) && !InTodo(s.tasks, a)
    ensures !InTodo(Apply(arbs, s, Calculate(i)).tasks, a) && !Calculates(s, Calculate(i), a)
  {
    var s' := Apply(arbs, s, Calculate(i));
    assert a !in s.tasks[i].todo;
    forall k | 0 <= k < |s'.tasks| ensures a !in s'.tasks[k].todo {
      assert s'.tasks[k] == s.tasks[k] || (k + 1 < |s.tasks| && s'.tasks[k] == s.tasks[k + 1]) ||
             s'.tasks[k].todo == s.tasks[i].todo[1..];
    }
  }

  lemma {:induction false} NeverCalculated(arbs: seq<Arb>, s: State, steps: seq<Step>, a: Arb)
    requires AllEnabled(arbs, s, steps) && NoWorkFor(s, a)
    requires forall q :: Update(q) in steps ==> !AffectedBy(q)(a)
    ensures !EverCalculates(arbs, s, steps, a)
    decreases |steps|
  {
    if steps == [] {
    } else {
      assert steps[0] in steps;
      StepGivesNoWork(arbs, s, steps[0], a);
      NeverCalculated(arbs, Apply(arbs, s, steps[0]), steps[1..], a);
    }
  }

  lemma {:induction false} ChangedAtAll(arbs: seq<Arb>, s: State, steps: seq<Step>, a: Arb, p: string)
    requires AllEnabled(arbs, s, steps) && !EverCalculates(arbs, s, steps, a)
    requires Update(p) in steps || HalfUpdate(p) in steps
    ensures ChangedSince(arbs, s, steps, a, p)
    decreases |steps|
  {
    if Changes(steps[0], p) {
    } else {
      ChangedAtAll(arbs, Apply(arbs, s, steps[0]), steps[1..], a, p);
    }
  }

  /** From a quiet state on, as long as no pool that affects the arb is updated, every
      change of a pool of its path leaves it stale, however far the queue is worked
      off.  For a 3-pool arb that is every change of an outer pool. */
  lemma StaleUntilTriggered(arbs: seq<Arb>, s: State, steps: seq<Step>, a: Arb, p: string)
    requires Inv(s) && Quiet(s) && AllEnabled(arbs, s, steps) && p in a.pools
    requires Update(p) in steps || HalfUpdate(p) in steps
    requires forall q :: Update(q) in steps ==> !AffectedBy(q)(a)
    ensures !UpToDate(Run(arbs, s, steps), a, p)
  {
    NeverCalculated(arbs, s, steps, a);
    ChangedAtAll(arbs, s, steps, a, p);
    RunDates(arbs, s, steps, a, p);
  }

  // ----- and it does get quiet

  function TaskWork(tasks: seq<Task>): nat {
    if tasks == [] then 0 else |tasks[0].todo| + 1 + TaskWork(tasks[1..])
  }

  function Work(arbs: seq<Arb>, s: State): nat {
    (|arbs| + 3) * |s.pending| + (|arbs| + 2) * |s.queue| + TaskWork(s.tasks)
  }

  lemma {:induction false} TaskWorkAppend(a: seq<Task>, b: seq<Task>)
    ensures TaskWork(a + b) == TaskWork(a) + TaskWork(b)
  {
    if a == [] {
      assert a + b == b;
    } else {
      assert (a + b)[1..] == a[1..] + b;
      TaskWorkAppend(a[1..], b);
    }
  }

  lemma TaskWorkAt(tasks: seq<Task>, i: nat)
    requires i < |tasks|
    ensures TaskWork(tasks) == TaskWork(tasks[..i]) + |tasks[i].todo| + 1 + TaskWork(tasks[i + 1..])
  {
    assert tasks == tasks[..i] + ([tasks[i]] + tasks[i + 1..]);
    TaskWorkAppend(tasks[..i], [tasks[i]] + tasks[i + 1..]);
    TaskWorkAppend([tasks[i]], tasks[i + 1..]);
    assert [tasks[i]][1..] == [];
  }

  /** Without further updates every step uses up work. */
  lemma StepUsesWork(arbs: seq<Arb>, s: State, step: Step)
    requires Enabled(s, step) && !step.Update? && !step.HalfUpdate?
    ensures Work(arbs, Apply(arbs, s, step)) < Work(arbs, s)
  {
    match step
    case Put(p) =>
      assert |s.pending - multiset{p}| == |s.pending| - 1;
      OneLess(|arbs| + 3, |s.pending|);
      OneLess(|arbs| + 2, |s.queue| + 1);
    case Consume =>
      OneLess(|arbs| + 2, |s.queue|);
      TaskWorkAppend(s.tasks, Spawned(arbs, s.queue[0]));
      SpawnedWork(arbs, s.queue[0]);
    case Calculate(i) =>
      CalculateWork(s.tasks, i);
  }

  lemma OneLess(k: int, n: int)
    ensures k * (n - 1) == k * n - k
  {
  }

  lemma SpawnedWork(arbs: seq<Arb>, p: string)
    ensures TaskWork(Spawned(arbs, p)) <= |arbs| + 1
  {
    var t := Spawned(arbs, p);
    if t != [] { assert t[1..] == []; }
  }

  lemma CalculateWork(tasks: seq<Task>, i: nat)
    requires i < |tasks| && tasks[i].todo != []
    ensures var t := tasks[i].todo;
            TaskWork(if |t| == 1 then tasks[..i] + tasks[i + 1..] else tasks[i := Task(t[1..])]) < TaskWork(tasks)
  {
    TaskWorkAt(tasks, i);
    var t := tasks[i].todo;
    if |t| == 1 {
      TaskWorkAppend(tasks[..i], tasks[i + 1..]);
    } else {
      var r := tasks[i := Task(t[1..])];
      TaskWorkAt(r, i);
      assert r[..i] == tasks[..i] && r[i + 1..] == tasks[i + 1..];
    }
  }

  /** While not quiet, some step other than an update is enabled. */
  lemma SomethingToDo(arbs: seq<Arb>, s: State) returns (step: Step)
    requires Inv(s) && !Quiet(s)
    ensures Enabled(s, step) && !step.Update? && !step.HalfUpdate?
  {
    if s.queue != [] {
      step := Consume;
    } else if s.tasks != [] {
      step := Calculate(0);
    } else {
      var p :| p in s.pending;
      step := Put(p);
    }
  }

  /** So when events stop arriving, every schedule of at least Work steps ends quiet:
      no schedule without updates is longer. */
  lemma {:induction false} SchedulesEnd(arbs: seq<Arb>, s: State, steps: seq<Step>)
    requires AllEnabled(arbs, s, steps) && forall i :: 0 <= i < |steps| ==> !steps[i].Update? && !steps[i].HalfUpdate?
    ensures |steps| + Work(arbs, Run(arbs, s, steps)) <= Work(arbs, s)
    decreases |steps|
  {
    if steps == [] {
    } else {
      StepUsesWork(arbs, s, steps[0]);
      SchedulesEnd(arbs, Apply(arbs, s, steps[0]), steps[1..]);
    }
  }
}
