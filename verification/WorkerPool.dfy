/** The test runner's worker pool as a state machine: one step is one action of the main thread or of one worker. */
module WorkerPool {

  /** What waits in the input queue: a job, by its number, or the request to stop. */
  datatype Item = Work(id: nat) | Poison

  datatype Outcome = BROKEN | SKIPPED | RAN

  datatype Report = Report(id: nat, outcome: Outcome)

  datatype Worker =
    | Waiting
    | Holding(id: nat)
    | Busy(id: nat)
    | Reporting(report: Report)
    | Exited

  datatype Main = Dispatching(next: nat) | Poisoning(sent: nat) | Collecting | Joining(joined: nat) | Finished

  /** `skip[id]` says whether job `id` is to be skipped. */
  datatype State = State(skip: seq<bool>, input: seq<Item>, output: seq<Report>, collected: seq<Report>,
                         workers: seq<Worker>, main: Main, interrupted: bool)

  datatype Action = MainStep | WorkerStep(w: nat) | Interrupt

  function Initial(skip: seq<bool>, workers: nat): State {
    State(skip, [], [], [], seq(workers, _ => Waiting), Dispatching(0), false)
  }

  // -------------------------------------------------------------------------------- steps

  /** The main thread can act: queue reads wait for an item, joins wait for the worker. */
  predicate MainEnabled(s: State) {
    match s.main
    case Dispatching(_) => true
    case Poisoning(_) => true
    case Collecting => |s.collected| < |s.skip| ==> s.output != []
    case Joining(k) => k < |s.workers| ==> s.workers[k] == Exited
    case Finished => false
  }

  function MainNext(s: State): State
    requires MainEnabled(s)
  {
    match s.main
    case Dispatching(n) =>
      if n < |s.skip| then s.(input := s.input + [Work(n)], main := Dispatching(n + 1)) else s.(main := Poisoning(0))
    case Poisoning(n) =>
      if n < |s.workers| then s.(input := s.input + [Poison], main := Poisoning(n + 1)) else s.(main := Collecting)
    case Collecting =>
      if |s.collected| < |s.skip| then s.(output := s.output[1..], collected := s.collected + [s.output[0]])
      else s.(main := Joining(0))
    case Joining(k) => if k < |s.workers| then s.(main := Joining(k + 1)) else s.(main := Finished)
  }

  predicate WorkerEnabled(s: State, w: nat) {
    w < |s.workers| && s.workers[w] != Exited && (s.workers[w] == Waiting ==> s.input != [])
  }

  function WorkerNext(s: State, w: nat): State
    requires WorkerEnabled(s, w)
  {
    match s.workers[w]
    case Waiting =>
      var next := match s.input[0] case Work(id) => Holding(id) case Poison => Exited;
      s.(input := s.input[1..], workers := s.workers[w := next])
    case Holding(id) =>
      var next :=
        if s.interrupted then Reporting(Report(id, BROKEN))
        else if id < |s.skip| && s.skip[id] then Reporting(Report(id, SKIPPED))
        else Busy(id);
      s.(workers := s.workers[w := next])
    case Busy(id) => s.(workers := s.workers[w := Reporting(Report(id, RAN))])
    case Reporting(r) => s.(workers := s.workers[w := Waiting], output := s.output + [r])
  }

  predicate Enabled(s: State, a: Action) {
    match a
    case MainStep => MainEnabled(s)
    case WorkerStep(w) => WorkerEnabled(s, w)
    case Interrupt => !s.interrupted
  }

  function Next(s: State, a: Action): State
    requires Enabled(s, a)
  {
    match a
    case MainStep => MainNext(s)
    case WorkerStep(w) => WorkerNext(s, w)
    case Interrupt => s.(interrupted := true)
  }

  // ---------------------------------------------------------------------------- accounting

  function Queued(input: seq<Item>, id: nat): nat {
    if input == [] then 0 else Queued(input[..|input| - 1], id) + if input[|input| - 1] == Work(id) then 1 else 0
  }

  function Works(input: seq<Item>): nat {
    if input == [] then 0 else Works(input[..|input| - 1]) + if input[|input| - 1].Work? then 1 else 0
  }

  predicate Has(w: Worker, id: nat) {
    match w
    case Waiting => false
    case Holding(i) => i == id
    case Busy(i) => i == id
    case Reporting(r) => r.id == id
    case Exited => false
  }

  predicate Loaded(w: Worker) { w.Holding? || w.Busy? || w.Reporting? }

  function Held(workers: seq<Worker>, id: nat): nat {
    if workers == [] then 0 else Held(workers[..|workers| - 1], id) + if Has(workers[|workers| - 1], id) then 1 else 0
  }

  function LoadedCount(workers: seq<Worker>): nat {
    if workers == [] then 0 else LoadedCount(workers[..|workers| - 1]) + if Loaded(workers[|workers| - 1]) then 1 else 0
  }

  function Gone(workers: seq<Worker>): nat {
    if workers == [] then 0 else Gone(workers[..|workers| - 1]) + if workers[|workers| - 1].Exited? then 1 else 0
  }

  function Reported(reports: seq<Report>, id: nat): nat {
    if reports == [] then 0
    else Reported(reports[..|reports| - 1], id) + if reports[|reports| - 1].id == id then 1 else 0
  }

  /** In how many places the job is. */
  function Places(s: State, id: nat): nat {
    Queued(s.input, id) + Held(s.workers, id) + Reported(s.output, id) + Reported(s.collected, id)
  }

  function Dispatched(s: State): nat {
    if s.main.Dispatching? then s.main.next else |s.skip|
  }

  function Sent(s: State): nat {
    match s.main
    case Dispatching(_) => 0
    case Poisoning(n) => n
    case _ => |s.workers|
  }

  /** Every dispatched job is in exactly one place, every other in none. */
  ghost predicate Accounted(s: State) {
    forall id: nat :: Places(s, id) == if id < Dispatched(s) then 1 else 0
  }

  /** As many jobs underway or done as dispatched, as many workers gone or told to go as requests to stop were sent. */
  ghost predicate Balanced(s: State) {
    && Works(s.input) + LoadedCount(s.workers) + |s.output| + |s.collected| == Dispatched(s)
    && |s.input| - Works(s.input) + Gone(s.workers) == Sent(s)
  }

  /** No job is queued behind a request to stop, and none is queued once a worker has gone. */
  ghost predicate JobsFirst(s: State) {
    && (forall i, j | 0 <= i < j < |s.input| :: s.input[i].Poison? ==> s.input[j].Poison?)
    && (Gone(s.workers) > 0 ==> forall i | 0 <= i < |s.input| :: s.input[i].Poison?)
  }

  /** How far the main thread can have come. */
  ghost predicate InPhase(s: State) {
    && Dispatched(s) <= |s.skip| && Sent(s) <= |s.workers| && |s.collected| <= |s.skip|
    && (s.main.Joining? || s.main.Finished? ==> |s.collected| == |s.skip|)
    && (s.main.Joining? ==> s.main.joined <= |s.workers| && forall k | 0 <= k < s.main.joined :: s.workers[k] == Exited)
    && (s.main.Finished? ==> forall k | 0 <= k < |s.workers| :: s.workers[k] == Exited)
    && (s.workers == [] ==> s.output == [] && s.collected == [])
  }

  /** A report tells the truth: broken only after an interrupt, skipped and run as asked. */
  predicate Honest(skip: seq<bool>, interrupted: bool, r: Report) {
    match r.outcome
    case BROKEN => interrupted
    case SKIPPED => r.id < |skip| && skip[r.id]
    case RAN => r.id >= |skip| || !skip[r.id]
  }

  predicate HonestWorker(skip: seq<bool>, interrupted: bool, w: Worker) {
    && (w.Busy? ==> Honest(skip, interrupted, Report(w.id, RAN)))
    && (w.Reporting? ==> Honest(skip, interrupted, w.report))
  }

  ghost predicate AllHonest(s: State) {
    && (forall i | 0 <= i < |s.output| :: Honest(s.skip, s.interrupted, s.output[i]))
    && (forall i | 0 <= i < |s.collected| :: Honest(s.skip, s.interrupted, s.collected[i]))
    && (forall i | 0 <= i < |s.workers| :: HonestWorker(s.skip, s.interrupted, s.workers[i]))
  }

  ghost predicate Inv(s: State) {
    Accounted(s) && Balanced(s) && JobsFirst(s) && InPhase(s) && AllHonest(s)
  }

  // -------------------------------------------------------------------- counting lemmas

  lemma {:induction false} PopInput(input: seq<Item>, id: nat)
    requires input != []
    ensures Queued(input, id) == Queued(input[1..], id) + if input[0] == Work(id) then 1 else 0
    ensures Works(input) == Works(input[1..]) + if input[0].Work? then 1 else 0
  {
    var last := |input| - 1;
    if last == 0 {
      assert input[1..] == [] && input[..0] == [];
    } else {
      PopInput(input[..last], id);
      assert input[..last][1..] == input[1..][..last - 1];
    }
  }

  lemma {:induction false} PopReport(reports: seq<Report>, id: nat)
    requires reports != []
    ensures Reported(reports, id) == Reported(reports[1..], id) + if reports[0].id == id then 1 else 0
  {
    var last := |reports| - 1;
    if last == 0 {
      assert reports[1..] == [] && reports[..0] == [];
    } else {
      PopReport(reports[..last], id);
      assert reports[..last][1..] == reports[1..][..last - 1];
    }
  }

  lemma PushInput(input: seq<Item>, item: Item, id: nat)
    ensures Queued(input + [item], id) == Queued(input, id) + if item == Work(id) then 1 else 0
    ensures Works(input + [item]) == Works(input) + if item.Work? then 1 else 0
  {
    assert (input + [item])[..|input|] == input;
  }

  lemma PushReport(reports: seq<Report>, r: Report, id: nat)
    ensures Reported(reports + [r], id) == Reported(reports, id) + if r.id == id then 1 else 0
  {
    assert (reports + [r])[..|reports|] == reports;
  }

  lemma {:induction false} UpdateWorker(workers: seq<Worker>, w: nat, x: Worker, id: nat)
    requires w < |workers|
    ensures Held(workers[w := x], id) + (if Has(workers[w], id) then 1 else 0)
         == Held(workers, id) + if Has(x, id) then 1 else 0
    ensures LoadedCount(workers[w := x]) + (if Loaded(workers[w]) then 1 else 0)
         == LoadedCount(workers) + if Loaded(x) then 1 else 0
    ensures Gone(workers[w := x]) + (if workers[w].Exited? then 1 else 0) == Gone(workers) + if x.Exited? then 1 else 0
  {
    var last := |workers| - 1;
    if w == last {
      assert workers[w := x][..last] == workers[..last];
    } else {
      UpdateWorker(workers[..last], w, x, id);
      assert workers[w := x][..last] == workers[..last][w := x];
    }
  }

  lemma {:induction false} AllWaiting(workers: seq<Worker>, id: nat)
    requires forall k | 0 <= k < |workers| :: workers[k] == Waiting
    ensures Held(workers, id) == 0 && LoadedCount(workers) == 0 && Gone(workers) == 0
  {
    if workers != [] {
      AllWaiting(workers[..|workers| - 1], id);
    }
  }

  // ------------------------------------------------------------------------- preservation

  /** The main thread adds a job to the places when it dispatches it, and otherwise only moves one. */
  lemma MainMoves(s: State, id: nat)
    requires MainEnabled(s) && Dispatched(s) <= |s.skip|
    ensures Places(MainNext(s), id) == Places(s, id) + if Dispatched(s) <= id < Dispatched(MainNext(s)) then 1 else 0
  {
    hide Queued, Held, Reported;
    if s.main.Dispatching? {
      PushInput(s.input, Work(s.main.next), id);
    } else if s.main.Poisoning? {
      PushInput(s.input, Poison, id);
    } else if s.main.Collecting? && |s.collected| < |s.skip| {
      PopReport(s.output, id);
      PushReport(s.collected, s.output[0], id);
    }
  }

  lemma MainBalances(s: State)
    requires MainEnabled(s) && Balanced(s) && Dispatched(s) <= |s.skip| && Sent(s) <= |s.workers|
    ensures Balanced(MainNext(s))
  {
    hide Works, LoadedCount, Gone;
    if s.main.Dispatching? {
      PushInput(s.input, Work(s.main.next), 0);
    } else if s.main.Poisoning? {
      PushInput(s.input, Poison, 0);
    }
  }

  /** A worker only moves a job. */
  lemma WorkerMoves(s: State, w: nat, id: nat)
    requires WorkerEnabled(s, w)
    ensures var t := WorkerNext(s, w);
            Places(t, id) == Places(s, id)
            && Works(t.input) + LoadedCount(t.workers) + |t.output|
               == Works(s.input) + LoadedCount(s.workers) + |s.output|
            && |t.input| - Works(t.input) + Gone(t.workers) == |s.input| - Works(s.input) + Gone(s.workers)
  {
    var t := WorkerNext(s, w);
    UpdateWorker(s.workers, w, t.workers[w], id);
    if s.workers[w].Waiting? {
      PopInput(s.input, id);
    }
    if s.workers[w].Reporting? {
      PushReport(s.output, s.workers[w].report, id);
    }
  }

  lemma StepAccounted(s: State, a: Action)
    requires Accounted(s) && Balanced(s) && InPhase(s) && Enabled(s, a)
    ensures Accounted(Next(s, a)) && Balanced(Next(s, a))
  {
    hide Queued, Held, Reported, Works, LoadedCount, Gone;
    match a
    case MainStep =>
      forall id: nat ensures Places(Next(s, a), id) == if id < Dispatched(Next(s, a)) then 1 else 0 {
        MainMoves(s, id);
      }
      MainBalances(s);
    case WorkerStep(w) =>
      forall id: nat ensures Places(Next(s, a), id) == if id < Dispatched(Next(s, a)) then 1 else 0 {
        WorkerMoves(s, w, id);
      }
      WorkerMoves(s, w, 0);
    case Interrupt =>
      assert forall id: nat :: Places(Next(s, a), id) == Places(s, id);
  }

  lemma {:induction false} WorksMeansPoison(input: seq<Item>)
    ensures Works(input) == |input| <==> forall i | 0 <= i < |input| :: input[i].Work?
    ensures Works(input) == 0 <==> forall i | 0 <= i < |input| :: input[i].Poison?
    ensures Works(input) <= |input|
  {
    if input != [] {
      WorksMeansPoison(input[..|input| - 1]);
    }
  }

  lemma MainJobsFirst(s: State)
    requires JobsFirst(s) && Balanced(s) && InPhase(s) && MainEnabled(s)
    ensures JobsFirst(MainNext(s))
  {
    hide Works, LoadedCount, Gone;
    WorksMeansPoison(s.input);
  }

  lemma WorkerJobsFirst(s: State, w: nat)
    requires JobsFirst(s) && WorkerEnabled(s, w)
    ensures JobsFirst(WorkerNext(s, w))
  {
    hide Works, LoadedCount, Gone, Held;
    UpdateWorker(s.workers, w, WorkerNext(s, w).workers[w], 0);
  }

  lemma StepJobsFirst(s: State, a: Action)
    requires JobsFirst(s) && Balanced(s) && InPhase(s) && Enabled(s, a)
    ensures JobsFirst(Next(s, a))
  {
    hide Works, LoadedCount, Gone, Balanced, InPhase;
    match a
    case MainStep => MainJobsFirst(s);
    case WorkerStep(w) => WorkerJobsFirst(s, w);
    case Interrupt =>
  }

  lemma StepInPhase(s: State, a: Action)
    requires InPhase(s) && Balanced(s) && Enabled(s, a)
    ensures InPhase(Next(s, a))
  {
  }

  lemma StepHonest(s: State, a: Action)
    requires AllHonest(s) && Enabled(s, a)
    ensures AllHonest(Next(s, a))
  {
  }

  /** Every step keeps the accounting. */
  lemma StepKeeps(s: State, a: Action)
    requires Inv(s) && Enabled(s, a)
    ensures Inv(Next(s, a))
  {
    hide Accounted, Balanced, JobsFirst, AllHonest;
    StepAccounted(s, a);
    StepJobsFirst(s, a);
    StepInPhase(s, a);
    StepHonest(s, a);
  }

  lemma InitialInv(skip: seq<bool>, workers: nat)
    ensures Inv(Initial(skip, workers))
  {
    var s := Initial(skip, workers);
    forall id: nat ensures Places(s, id) == 0 {
      AllWaiting(s.workers, id);
    }
    AllWaiting(s.workers, 0);
  }

  // ------------------------------------------------------------------------------ liveness

  function Left(total: nat, done: nat): nat {
    if done <= total then total - done else 0
  }

  /** What the main thread has still to do, an undispatched job counting for its whole way. */
  function MainRank(s: State): nat {
    match s.main
    case Dispatching(n) => 6 * Left(|s.skip|, n) + 3 * |s.workers| + 4
    case Poisoning(n) => 2 * Left(|s.workers|, n) + |s.workers| + 3
    case Collecting => |s.workers| + 2
    case Joining(k) => Left(|s.workers|, k) + 1
    case Finished => 0
  }

  function InputRank(input: seq<Item>): nat { 4 * Works(input) + |input| }

  function WorkerRank(w: Worker): nat {
    match w
    case Waiting => 0
    case Holding(_) => 4
    case Busy(_) => 3
    case Reporting(_) => 2
    case Exited => 0
  }

  function WorkersRank(workers: seq<Worker>): nat {
    if workers == [] then 0 else WorkersRank(workers[..|workers| - 1]) + WorkerRank(workers[|workers| - 1])
  }

  /** A bound on the steps that can still follow. */
  function Rank(s: State): nat {
    MainRank(s) + InputRank(s.input) + WorkersRank(s.workers) + |s.output| + if s.interrupted then 0 else 1
  }

  lemma {:induction false} UpdateRank(workers: seq<Worker>, w: nat, x: Worker)
    requires w < |workers|
    ensures WorkersRank(workers[w := x]) + WorkerRank(workers[w]) == WorkersRank(workers) + WorkerRank(x)
  {
    var last := |workers| - 1;
    if w == last {
      assert workers[w := x][..last] == workers[..last];
    } else {
      UpdateRank(workers[..last], w, x);
      assert workers[w := x][..last] == workers[..last][w := x];
    }
  }

  lemma MainDescends(s: State)
    requires InPhase(s) && MainEnabled(s)
    ensures MainRank(MainNext(s)) + InputRank(MainNext(s).input) + |MainNext(s).output|
          < MainRank(s) + InputRank(s.input) + |s.output|
  {
    hide Works;
    if s.main.Dispatching? {
      PushInput(s.input, Work(s.main.next), 0);
    } else if s.main.Poisoning? {
      PushInput(s.input, Poison, 0);
    }
  }

  lemma WorkerDescends(s: State, w: nat)
    requires WorkerEnabled(s, w)
    ensures var t := WorkerNext(s, w);
            InputRank(t.input) + WorkersRank(t.workers) + |t.output|
            < InputRank(s.input) + WorkersRank(s.workers) + |s.output|
  {
    hide Works, WorkersRank;
    UpdateRank(s.workers, w, WorkerNext(s, w).workers[w]);
    if s.workers[w].Waiting? {
      PopInput(s.input, 0);
    }
  }

  /** Every step, an interrupt included, brings the run nearer its end. */
  lemma StepDescends(s: State, a: Action)
    requires InPhase(s) && Enabled(s, a)
    ensures Rank(Next(s, a)) < Rank(s)
  {
    hide InputRank, WorkersRank;
    match a
    case MainStep => MainDescends(s);
    case WorkerStep(w) => WorkerDescends(s, w);
    case Interrupt =>
  }

  lemma {:induction false} LoadedExists(workers: seq<Worker>)
    ensures LoadedCount(workers) > 0 <==> exists w :: 0 <= w < |workers| && Loaded(workers[w])
    ensures Gone(workers) > 0 <==> exists w :: 0 <= w < |workers| && workers[w].Exited?
    ensures Gone(workers) == |workers| <==> forall w | 0 <= w < |workers| :: workers[w].Exited?
    ensures Gone(workers) <= |workers|
  {
    if workers != [] {
      LoadedExists(workers[..|workers| - 1]);
      assert forall w | 0 <= w < |workers| - 1 :: workers[w] == workers[..|workers| - 1][w];
    }
  }

  /** Some worker can act while a job is underway. */
  lemma WorkerCanAct(s: State) returns (w: nat)
    requires Inv(s) && |s.workers| > 0 && Works(s.input) + LoadedCount(s.workers) > 0
    ensures WorkerEnabled(s, w)
  {
    LoadedExists(s.workers);
    WorksMeansPoison(s.input);
    if LoadedCount(s.workers) > 0 {
      w :| w < |s.workers| && Loaded(s.workers[w]);
    } else {
      w := 0;
    }
  }

  /** The collector never starves and no join waits forever: unless the main thread is done, the main thread or some
      worker can act, whatever the interleaving so far, as long as there are workers for the jobs. */
  lemma NeverStuck(s: State) returns (a: Action)
    requires Inv(s) && s.main != Finished && (|s.workers| > 0 || s.skip == [])
    ensures a != Interrupt && Enabled(s, a)
  {
    a := MainStep;
    if !MainEnabled(s) {
      if s.main.Collecting? {
        var w := WorkerCanAct(s);
        a := WorkerStep(w);
      } else {
        LoadedExists(s.workers);
        WorksMeansPoison(s.input);
        a := WorkerStep(s.main.joined);
      }
    }
  }

  // ----------------------------------------------------------------------------------- runs

  /** The actions can be taken one after the other. */
  predicate Runs(s: State, actions: seq<Action>)
    decreases |actions|
  {
    actions == [] || (Enabled(s, actions[0]) && Runs(Next(s, actions[0]), actions[1..]))
  }

  function After(s: State, actions: seq<Action>): State
    requires Runs(s, actions)
    decreases |actions|
  {
    if actions == [] then s else After(Next(s, actions[0]), actions[1..])
  }

  /** How often worker `w` takes a request to stop. */
  function Stops(s: State, actions: seq<Action>, w: nat): nat
    requires Runs(s, actions)
    decreases |actions|
  {
    if actions == [] then 0
    else
      Stops(Next(s, actions[0]), actions[1..], w)
      + if actions[0] == WorkerStep(w) && s.workers[w] == Waiting && s.input[0] == Poison then 1 else 0
  }

  lemma FirstAction(s: State, actions: seq<Action>)
    requires Runs(s, actions) && actions != []
    ensures Enabled(s, actions[0]) && Next(s, actions[0]).skip == s.skip
    ensures |Next(s, actions[0]).workers| == |s.workers|
  {
  }

  lemma {:induction false} RunKeeps(s: State, actions: seq<Action>)
    requires Inv(s) && Runs(s, actions)
    ensures Inv(After(s, actions)) && |actions| + Rank(After(s, actions)) <= Rank(s)
    ensures After(s, actions).skip == s.skip && |After(s, actions).workers| == |s.workers|
    decreases |actions|
  {
    hide Inv, Rank, Next, Enabled, InPhase;
    if actions != [] {
      FirstAction(s, actions);
      InPhaseHolds(s);
      StepKeeps(s, actions[0]);
      StepDescends(s, actions[0]);
      RunKeeps(Next(s, actions[0]), actions[1..]);
    }
  }

  lemma InPhaseHolds(s: State)
    requires Inv(s)
    ensures InPhase(s)
  {
  }

  lemma {:induction false} OneStopEach(s: State, actions: seq<Action>, w: nat)
    requires Runs(s, actions) && w < |s.workers|
    ensures w < |After(s, actions).workers|
    ensures Stops(s, actions, w) + (if s.workers[w] == Exited then 1 else 0)
         == if After(s, actions).workers[w] == Exited then 1 else 0
    decreases |actions|
  {
    if actions != [] {
      OneStopEach(Next(s, actions[0]), actions[1..], w);
    }
  }

  /** Every job reported exactly once, nothing left in a queue, every worker gone, every report true. */
  ghost predicate AllDone(s: State) {
    && (forall id: nat :: Reported(s.collected, id) == if id < |s.skip| then 1 else 0)
    && s.input == [] && s.output == [] && (forall w | 0 <= w < |s.workers| :: s.workers[w] == Exited)
    && forall i | 0 <= i < |s.collected| :: Honest(s.skip, s.interrupted, s.collected[i])
  }

  lemma {:induction false} NothingHeld(workers: seq<Worker>, id: nat)
    requires forall w | 0 <= w < |workers| :: workers[w] == Exited
    ensures Held(workers, id) == 0 && LoadedCount(workers) == 0
  {
    if workers != [] {
      NothingHeld(workers[..|workers| - 1], id);
    }
  }

  lemma FinishedMeansDone(s: State)
    requires Inv(s) && s.main.Finished?
    ensures AllDone(s)
  {
    LoadedExists(s.workers);
    NothingHeld(s.workers, 0);
    forall id: nat ensures Reported(s.collected, id) == if id < |s.skip| then 1 else 0 {
      NothingHeld(s.workers, id);
      assert Places(s, id) == if id < |s.skip| then 1 else 0;
    }
  }

  /** No worker or main step is possible any more. */
  ghost predicate Halted(s: State) {
    forall a: Action :: Enabled(s, a) ==> a == Interrupt
  }

  /** For every interleaving and an interrupt at any moment: the run is bounded; when nothing but an interrupt is left,
      the main thread has finished exactly if there were workers for the jobs; and once it has finished, each job was
      reported exactly once and each worker took exactly one request to stop. */
  lemma EveryRunCompletes(skip: seq<bool>, workers: nat, actions: seq<Action>)
    requires Runs(Initial(skip, workers), actions)
    ensures |actions| <= Rank(Initial(skip, workers))
    ensures var s := After(Initial(skip, workers), actions);
            && (Halted(s) ==> (s.main == Finished <==> workers > 0 || skip == []))
            && (s.main == Finished ==> AllDone(s) && Halted(s))
    ensures After(Initial(skip, workers), actions).main == Finished ==>
              forall w: nat | w < workers :: Stops(Initial(skip, workers), actions, w) == 1
  {
    var start := Initial(skip, workers);
    InitialInv(skip, workers);
    RunKeeps(start, actions);
    var s := After(start, actions);
    if s.main == Finished {
      FinishedMeansDone(s);
      forall w: nat | w < workers ensures Stops(start, actions, w) == 1 {
        OneStopEach(start, actions, w);
      }
    } else if workers > 0 || skip == [] {
      var a := NeverStuck(s);
    }
  }

  // ------------------------------------------------------------------ what an interrupt does

  /** After an interrupt no worker begins to run a job: one that is busy was busy before. */
  lemma {:induction false} NoNewWork(s: State, actions: seq<Action>, w: nat)
    requires s.interrupted && Runs(s, actions) && w < |s.workers|
    ensures |After(s, actions).workers| == |s.workers|
    ensures After(s, actions).workers[w].Busy? ==> s.workers[w] == After(s, actions).workers[w]
    decreases |actions|
  {
    if actions != [] {
      NoNewWork(Next(s, actions[0]), actions[1..], w);
    }
  }

  /** The job is being run, or its outcome was decided. */
  ghost predicate Settled(m: State, id: nat) {
    || (exists w :: 0 <= w < |m.workers| && (m.workers[w].Busy? || m.workers[w].Reporting?) && Has(m.workers[w], id))
    || (exists i :: 0 <= i < |m.output| && m.output[i].id == id)
    || (exists i :: 0 <= i < |m.collected| && m.collected[i].id == id)
  }

  /** What becomes of a job if an interrupt comes in this state: broken, unless it was settled; then as asked. */
  ghost function Fate(m: State, id: nat): Outcome {
    if !Settled(m, id) then BROKEN else AsAsked(m.skip, id)
  }

  function AsAsked(skip: seq<bool>, id: nat): Outcome {
    if id < |skip| && skip[id] then SKIPPED else RAN
  }

  /** The job was reported once, with its fate. */
  ghost predicate FateReported(s: State, m: State, id: nat) {
    Report(id, if Settled(m, id) then AsAsked(m.skip, id) else BROKEN) in s.collected && Reported(s.collected, id) == 1
  }

  ghost predicate WorkerFated(m: State, w: Worker) {
    match w
    case Holding(id) => !Settled(m, id)
    case Busy(id) => Fate(m, id) == RAN
    case Reporting(r) => r.outcome == Fate(m, r.id)
    case _ => true
  }

  /** Every job meets its fate. */
  ghost predicate Fated(s: State, m: State) {
    && s.interrupted && (forall w | 0 <= w < |s.workers| :: WorkerFated(m, s.workers[w]))
    && (forall i | 0 <= i < |s.output| :: s.output[i].outcome == Fate(m, s.output[i].id))
    && (forall i | 0 <= i < |s.collected| :: s.collected[i].outcome == Fate(m, s.collected[i].id))
    && (forall i | 0 <= i < |s.input| && s.input[i].Work? :: !Settled(m, s.input[i].id))
    && (forall id: nat | Dispatched(s) <= id < |s.skip| :: !Settled(m, id))
  }

  lemma StepFated(s: State, m: State, a: Action)
    requires Fated(s, m) && InPhase(s) && Enabled(s, a)
    ensures Fated(Next(s, a), m)
  {
    hide Settled, Fate;
    if a.WorkerStep? && s.workers[a.w].Holding? {
      Unsettled(m, s.workers[a.w].id);
    }
  }

  lemma Unsettled(m: State, id: nat)
    requires !Settled(m, id)
    ensures Fate(m, id) == BROKEN
  {
  }

  lemma {:induction false} RunFated(s: State, m: State, actions: seq<Action>)
    requires Inv(s) && Fated(s, m) && Runs(s, actions)
    ensures Fated(After(s, actions), m)
    decreases |actions|
  {
    if actions != [] {
      hide Inv, Fated;
      InPhaseHolds(s);
      StepKeeps(s, actions[0]);
      StepFated(s, m, actions[0]);
      RunFated(Next(s, actions[0]), m, actions[1..]);
    }
  }

  // A job is in one place only.

  lemma {:induction false} QueuedThere(input: seq<Item>, i: nat)
    requires i < |input| && input[i].Work?
    ensures Queued(input, input[i].id) >= 1
  {
    if i < |input| - 1 {
      QueuedThere(input[..|input| - 1], i);
    }
  }

  lemma {:induction false} ReportedThere(reports: seq<Report>, i: nat)
    requires i < |reports|
    ensures Reported(reports, reports[i].id) >= 1
  {
    if i < |reports| - 1 {
      ReportedThere(reports[..|reports| - 1], i);
    }
  }

  lemma {:induction false} HeldThere(workers: seq<Worker>, w: nat, id: nat)
    requires w < |workers| && Has(workers[w], id)
    ensures Held(workers, id) >= 1
  {
    if w < |workers| - 1 {
      HeldThere(workers[..|workers| - 1], w, id);
    }
  }

  lemma {:induction false} HeldTwice(workers: seq<Worker>, v: nat, w: nat, id: nat)
    requires v < w < |workers| && Has(workers[v], id) && Has(workers[w], id)
    ensures Held(workers, id) >= 2
  {
    if w < |workers| - 1 {
      HeldTwice(workers[..|workers| - 1], v, w, id);
    } else {
      HeldThere(workers[..w], v, id);
    }
  }

  /** In how many places a settled job is, queue and holding worker aside. */
  lemma SettledPlaces(m: State, id: nat)
    requires Settled(m, id)
    ensures Held(m.workers, id) + Reported(m.output, id) + Reported(m.collected, id) >= 1
    ensures forall w | 0 <= w < |m.workers| && m.workers[w] == Holding(id) ::
              Held(m.workers, id) + Reported(m.output, id) + Reported(m.collected, id) >= 2
  {
    hide Held, Reported;
    if i :| 0 <= i < |m.output| && m.output[i].id == id {
      ReportedThere(m.output, i);
    } else if i :| 0 <= i < |m.collected| && m.collected[i].id == id {
      ReportedThere(m.collected, i);
    } else {
      var v :| 0 <= v < |m.workers| && !m.workers[v].Holding? && Has(m.workers[v], id);
      HeldThere(m.workers, v, id);
      forall w | 0 <= w < |m.workers| && m.workers[w] == Holding(id) ensures Held(m.workers, id) >= 2 {
        HeldTwice(m.workers, if v < w then v else w, if v < w then w else v, id);
      }
    }
    forall w | 0 <= w < |m.workers| && m.workers[w] == Holding(id) ensures Held(m.workers, id) >= 1 {
      HeldThere(m.workers, w, id);
    }
  }

  /** A job that waits, is held, or was not dispatched is not settled. */
  lemma NotYetSettled(m: State, id: nat)
    requires Accounted(m)
    requires id >= Dispatched(m) || Queued(m.input, id) >= 1 || Holding(id) in m.workers
    ensures !Settled(m, id)
  {
    hide Held, Reported, Queued;
    assert Places(m, id) <= 1 && (id >= Dispatched(m) ==> Places(m, id) == 0);
    if Settled(m, id) {
      SettledPlaces(m, id);
      assert false;
    }
  }

  /** At the moment of the interrupt. */
  lemma InterruptFated(m: State)
    requires Inv(m) && !m.interrupted
    ensures Fated(Next(m, Interrupt), m)
  {
    hide Held, Reported, Queued, Settled;
    forall w | 0 <= w < |m.workers| ensures WorkerFated(m, m.workers[w]) {
      if m.workers[w].Holding? {
        NotYetSettled(m, m.workers[w].id);
      } else if m.workers[w].Busy? || m.workers[w].Reporting? {
        assert HonestWorker(m.skip, false, m.workers[w]);
        WorkerSettles(m, w);
      }
    }
    forall i | 0 <= i < |m.input| && m.input[i].Work? ensures !Settled(m, m.input[i].id) {
      QueuedThere(m.input, i);
      NotYetSettled(m, m.input[i].id);
    }
    forall id: nat | Dispatched(m) <= id < |m.skip| ensures !Settled(m, id) {
      NotYetSettled(m, id);
    }
    forall i | 0 <= i < |m.output| ensures m.output[i].outcome == Fate(m, m.output[i].id) {
      ReportSettles(m, m.output[i]);
    }
    forall i | 0 <= i < |m.collected| ensures m.collected[i].outcome == Fate(m, m.collected[i].id) {
      ReportSettles(m, m.collected[i]);
    }
  }

  lemma WorkerSettles(m: State, w: nat)
    requires w < |m.workers| && (m.workers[w].Busy? || m.workers[w].Reporting?)
    ensures forall id | Has(m.workers[w], id) :: Settled(m, id)
  {
  }

  lemma ReportSettles(m: State, r: Report)
    requires r in m.output || r in m.collected
    ensures Settled(m, r.id)
  {
  }

  lemma {:induction false} RunSplit(s: State, x: seq<Action>, y: seq<Action>)
    requires Runs(s, x + y)
    ensures Runs(s, x) && Runs(After(s, x), y) && After(s, x + y) == After(After(s, x), y)
    decreases |x|
  {
    if x == [] {
      assert x + y == y;
    } else {
      assert (x + y)[0] == x[0] && (x + y)[1..] == x[1..] + y;
      RunSplit(Next(s, x[0]), x[1..], y);
    }
  }

  lemma {:induction false} NotInterrupted(s: State, actions: seq<Action>)
    requires Runs(s, actions) && Interrupt !in actions
    ensures After(s, actions).interrupted == s.interrupted
    decreases |actions|
  {
    if actions != [] {
      NotInterrupted(Next(s, actions[0]), actions[1..]);
    }
  }

  /** In a finished run with an interrupt every job that was not being run, reported or collected when the interrupt
      came is reported broken, and any other as asked. */
  lemma InterruptDecides(skip: seq<bool>, workers: nat, actions: seq<Action>, k: nat)
    requires Runs(Initial(skip, workers), actions) && k < |actions| && actions[k] == Interrupt
    ensures Runs(Initial(skip, workers), actions[..k])
    ensures var m, s := After(Initial(skip, workers), actions[..k]), After(Initial(skip, workers), actions);
            m.skip == skip && (s.main == Finished ==> forall id: nat | id < |skip| :: FateReported(s, m, id))
  {
    hide Inv, Fated, Settled, FateReported;
    var start := Initial(skip, workers);
    InitialInv(skip, workers);
    assert actions == actions[..k] + actions[k..];
    RunSplit(start, actions[..k], actions[k..]);
    RunKeeps(start, actions[..k]);
    FromInterrupt(After(start, actions[..k]), actions[k..]);
    FatesCollected(After(start, actions), After(start, actions[..k]));
  }

  lemma FromInterrupt(m: State, actions: seq<Action>)
    requires Inv(m) && Runs(m, actions) && actions != [] && actions[0] == Interrupt
    ensures Inv(After(m, actions)) && Fated(After(m, actions), m) && After(m, actions).skip == m.skip
  {
    hide Inv, Fated;
    InterruptFated(m);
    StepKeeps(m, Interrupt);
    RunFated(Next(m, Interrupt), m, actions[1..]);
    RunKeeps(Next(m, Interrupt), actions[1..]);
  }

  lemma FatesCollected(s: State, m: State)
    requires Inv(s) && Fated(s, m)
    ensures s.main == Finished ==> forall id: nat | id < |s.skip| :: FateReported(s, m, id)
  {
    hide Settled;
    if s.main == Finished {
      FinishedMeansDone(s);
      forall id: nat | id < |s.skip| ensures FateReported(s, m, id) {
        var i := ReportOf(s.collected, id);
        assert s.collected[i] == Report(id, Fate(m, id));
      }
    }
  }

  lemma {:induction false} ReportOf(reports: seq<Report>, id: nat) returns (i: nat)
    requires Reported(reports, id) >= 1
    ensures i < |reports| && reports[i].id == id
  {
    i := |reports| - 1;
    if reports[i].id != id {
      i := ReportOf(reports[..|reports| - 1], id);
    }
  }

  /** Without an interrupt every job is reported as asked. */
  lemma AllAsAsked(skip: seq<bool>, workers: nat, actions: seq<Action>)
    requires Runs(Initial(skip, workers), actions) && Interrupt !in actions
    ensures var s := After(Initial(skip, workers), actions);
            s.main == Finished ==>
              forall id: nat | id < |skip| ::
                Report(id, AsAsked(skip, id)) in s.collected && Reported(s.collected, id) == 1
  {
    var start := Initial(skip, workers);
    InitialInv(skip, workers);
    RunKeeps(start, actions);
    NotInterrupted(start, actions);
    var s := After(start, actions);
    if s.main == Finished {
      FinishedMeansDone(s);
      forall id: nat | id < |skip| ensures Report(id, AsAsked(skip, id)) in s.collected {
        var i := ReportOf(s.collected, id);
        assert Honest(skip, false, s.collected[i]);
        assert s.collected[i] == Report(id, AsAsked(skip, id));
      }
    }
  }
}
