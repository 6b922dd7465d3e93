/** The drill runner of js/runner.js: a flag-and-counter state machine
    (`isRunning`, `isPaused`, `currentCount`, `targetCount`,
    `remainingTime`) driven by the start countdown, the robot's "done"
    notifications, the pause button and browser timers. Each iteration
    shuffles the steps (when the drill asks for it), picks one variant per
    step, counts the balls and sends one framed packet.

    Math.random is the fixed stream `roll`: the n-th call returns roll(n),
    and `draws` counts the calls made so far. Browser timers are the map
    `timers` from handle to what the timer will do when it fires; clearing
    a handle removes it. */
module Runner {
  import opened Optional
  import opened Bytes
  import opened Text
  import opened Drills
  import opened Codec
  import opened Ble
  import opened State

  /** What a pending browser timer does when it fires. */
  datatype TimerKind =
    | Countdown(count: int)  // the one-second "GET READY" interval and the count its closure holds
    | Go                     // the 800 ms timeout that calls beginDrillExecution
    | Clock                  // the one-second interval of a timed run
    | Rest                   // the pause between batches that handleDone schedules

  /** `parseInt` of the time and reps inputs' text when a run begins
      (`Text.ParseInt`; `None` is NaN). */
  datatype Inputs = Inputs(time: Option<int>, reps: Option<int>)

  /** The number the start countdown begins at. */
  const COUNTDOWN_START: int := 4

  // ---------------------------------------------------------------------
  // Math.random

  /** Every value of the stream lies in [0, 1), as Math.random promises. */
  ghost predicate Unit(roll: nat -> real)
  {
    forall n :: 0.0 <= roll(n) < 1.0
  }

  /** Math.floor(Math.random() * m): an index below m when m > 0. */
  function Pick(x: real, m: nat): (k: int)
    requires 0.0 <= x < 1.0
    ensures m > 0 ==> 0 <= k < m
    ensures m == 0 ==> k == 0
  {
    var y := x * m as real;
    assert m > 0 ==> y < m as real;
    y.Floor
  }

  // ---------------------------------------------------------------------
  // The Fisher–Yates shuffle

  function Swap<T>(s: seq<T>, i: nat, j: nat): (r: seq<T>)
    requires i < |s| && j < |s|
    ensures |r| == |s| && r[i] == s[j] && r[j] == s[i]
    ensures forall k :: 0 <= k < |s| && k != i && k != j ==> r[k] == s[k]
  {
    s[i := s[j]][j := s[i]]
  }

  lemma SwapPermutes<T>(s: seq<T>, i: nat, j: nat)
    requires i < |s| && j < |s|
    ensures multiset(Swap(s, i, j)) == multiset(s)
  {
    var t := s[i := s[j]];
    assert multiset(t) == multiset(s) - multiset{s[i]} + multiset{s[j]};
    assert multiset(t[j := s[i]]) == multiset(t) - multiset{t[j]} + multiset{s[i]};
  }

  /** The shuffle loop from position i down to 1, the swap at position i
      drawing roll(d), the next one roll(d + 1), and so on. */
  function ShuffleFrom<T>(s: seq<T>, i: int, roll: nat -> real, d: nat): (r: seq<T>)
    requires Unit(roll) && i < |s|
    ensures |r| == |s|
    decreases i
  {
    if i <= 0 then s
    else ShuffleFrom(Swap(s, i, Pick(roll(d), i + 1)), i - 1, roll, d + 1)
  }

  /** The whole shuffle of a copy of the steps. */
  function Shuffled<T>(s: seq<T>, roll: nat -> real, d: nat): (r: seq<T>)
    requires Unit(roll)
    ensures |r| == |s|
  {
    ShuffleFrom(s, |s| - 1, roll, d)
  }

  /** The number of Math.random calls the shuffle of n steps makes. */
  function ShuffleDraws(n: nat): nat
  {
    if n == 0 then 0 else n - 1
  }

  /** Every swap exchanges two cells, so the shuffle is a permutation. */
  lemma {:induction false} ShuffleFromPermutes<T>(s: seq<T>, i: int, roll: nat -> real, d: nat)
    requires Unit(roll) && i < |s|
    ensures multiset(ShuffleFrom(s, i, roll, d)) == multiset(s)
    decreases i
  {
    if i > 0 {
      var j := Pick(roll(d), i + 1);
      var t := Swap(s, i, j);
      assert ShuffleFrom(s, i, roll, d) == ShuffleFrom(t, i - 1, roll, d + 1);
      SwapPermutes(s, i, j);
      ShuffleFromPermutes(t, i - 1, roll, d + 1);
    }
  }

  lemma ShuffledPermutes<T>(s: seq<T>, roll: nat -> real, d: nat)
    requires Unit(roll)
    ensures multiset(Shuffled(s, roll, d)) == multiset(s)
  {
    ShuffleFromPermutes(s, |s| - 1, roll, d);
  }

  /** `[arr[i], arr[j]] = [arr[j], arr[i]]`. */
  method SwapCells<T>(a: array<T>, i: nat, j: nat)
    requires i < a.Length && j < a.Length
    modifies a
    ensures a[..] == Swap(old(a[..]), i, j)
  {
    a[i], a[j] := a[j], a[i];
  }

  /** The shuffle loop of runIteration, swapping the cells of the copy in
      place; returns the index of the next unused random value. */
  method Shuffle(a: array<Step>, roll: nat -> real, d0: nat) returns (d: nat)
    requires Unit(roll)
    modifies a
    ensures a[..] == Shuffled(old(a[..]), roll, d0)
    ensures d == d0 + ShuffleDraws(a.Length)
  {
    ghost var s0 := a[..];
    ghost var goal := Shuffled(s0, roll, d0);
    d := d0;
    var i := a.Length - 1;
    while i > 0
      invariant if a.Length == 0 then i == -1 else 0 <= i < a.Length
      invariant ShuffleFrom(a[..], i, roll, d) == goal
      invariant d == d0 + (a.Length - 1 - i)
      decreases i
    {
      var j := Pick(roll(d), i + 1);
      assert ShuffleFrom(a[..], i, roll, d) == ShuffleFrom(Swap(a[..], i, j), i - 1, roll, d + 1);
      SwapCells(a, i, j);
      d := d + 1;
      i := i - 1;
    }
    assert ShuffleFrom(a[..], i, roll, d) == a[..];
  }

  // ---------------------------------------------------------------------
  // Choosing one variant per step

  /** A step the variant choice can use: a list with at least one variant. */
  predicate PlayableStep(s: Step)
  {
    s.Options? && |s.variants| > 0
  }

  predicate Playable(steps: seq<Step>)
  {
    forall i :: 0 <= i < |steps| ==> PlayableStep(steps[i])
  }

  /** The forEach of runIteration: step i takes the variant that the
      (d + i)-th random value selects. */
  function Chosen(steps: seq<Step>, roll: nat -> real, d: nat): (balls: seq<Ball>)
    requires Unit(roll) && Playable(steps)
    ensures |balls| == |steps|
    ensures forall i :: 0 <= i < |steps| ==> balls[i] in steps[i].variants
  {
    seq(|steps|, i requires 0 <= i < |steps| =>
      steps[i].variants[Pick(roll(d + i), |steps[i].variants|)])
  }

  /** The first step the choice cannot use: a bare shot or an empty list
      (packBall is then called on a number or on undefined and throws). */
  function FirstUnplayable(steps: seq<Step>): (k: nat)
    requires !Playable(steps)
    ensures k < |steps| && !PlayableStep(steps[k]) && Playable(steps[..k])
  {
    if !PlayableStep(steps[0]) then 0
    else
      var k := 1 + FirstUnplayable(steps[1..]);
      assert forall i :: 1 <= i < k ==> steps[..k][i] == steps[1..][..k - 1][i - 1];
      k
  }

  /** A permutation of the steps is playable exactly when the steps are. */
  lemma PermutationPlayable(s: seq<Step>, t: seq<Step>)
    requires multiset(s) == multiset(t)
    ensures Playable(s) <==> Playable(t)
  {
    if Playable(t) {
      PlayableFrom(s, t);
    }
    if Playable(s) {
      PlayableFrom(t, s);
    }
  }

  lemma PlayableFrom(s: seq<Step>, t: seq<Step>)
    requires multiset(s) == multiset(t) && Playable(t)
    ensures Playable(s)
  {
    forall i | 0 <= i < |s| ensures PlayableStep(s[i]) {
      assert s[i] in multiset(s);
      assert s[i] in t;
    }
  }

  /** The ball is one of the step's variants. */
  predicate FromVariants(b: Ball, s: Step)
  {
    s.Options? && b in s.variants
  }

  // ---------------------------------------------------------------------
  // One iteration

  /** The counters a run changes: currentCount, the draws of Math.random,
      appStats.balls, appStats.drills and the outbound log. */
  datatype Tally = Tally(count: int, draws: nat, balls: int, runs: int, outbox: seq<seq<byte>>)

  /** How an iteration ends: one batch of balls sent, or a TypeError
      thrown before the statistics are touched. Either way, the draws
      made so far. */
  datatype Outcome = Sent(balls: seq<Ball>, draws: nat) | Thrown(draws: nat)

  /** The sequence building and variant choice of runIteration, for the
      active steps (`None` is a null activeDrillParams). */
  function Iteration(params: Option<seq<Step>>, random: bool, roll: nat -> real, d: nat): (o: Outcome)
    requires Unit(roll)
  {
    if params.None? then Thrown(d)
    else Choice(Ordered(params.value, random, roll, d), roll, OrderDraws(|params.value|, random, d))
  }

  /** The steps in the order runIteration visits them: shuffled when the
      drill is random. */
  function Ordered(steps: seq<Step>, random: bool, roll: nat -> real, d: nat): (r: seq<Step>)
    requires Unit(roll)
  {
    if random then Shuffled(steps, roll, d) else steps
  }

  /** The draw counter after ordering n steps. */
  function OrderDraws(n: nat, random: bool, d: nat): nat
  {
    if random then d + ShuffleDraws(n) else d
  }

  /** The forEach of runIteration over the ordered steps, drawing from `d1`:
      the chosen balls, or the throw at the first step without variants. */
  function Choice(order: seq<Step>, roll: nat -> real, d1: nat): (o: Outcome)
    requires Unit(roll)
  {
    if Playable(order) then Sent(Chosen(order, roll, d1), d1 + |order|)
    else Thrown(d1 + FirstUnplayable(order) + 1)
  }

  /** An iteration sends a batch exactly when every step has a variant.
      The batch has one ball per step, each taken from the variant list of
      the step at its position in some permutation of the steps; without
      the random flag that is the stored order. */
  lemma IterationBatch(steps: seq<Step>, random: bool, roll: nat -> real, d: nat)
    requires Unit(roll)
    ensures Iteration(Some(steps), random, roll, d).Sent? <==> Playable(steps)
    ensures Iteration(Some(steps), random, roll, d).Sent? ==>
              var balls := Iteration(Some(steps), random, roll, d).balls;
              |balls| == |steps|
              && (exists order: seq<Step> :: |order| == |steps| && multiset(order) == multiset(steps)
                    && forall i :: 0 <= i < |steps| ==> FromVariants(balls[i], order[i]))
              && (!random ==> forall i :: 0 <= i < |steps| ==> FromVariants(balls[i], steps[i]))
  {
    var order := if random then Shuffled(steps, roll, d) else steps;
    ShuffledPermutes(steps, roll, d);
    PermutationPlayable(order, steps);
    if Playable(order) {
      var d1 := if random then d + ShuffleDraws(|steps|) else d;
      var balls := Chosen(order, roll, d1);
      assert forall i :: 0 <= i < |steps| ==> FromVariants(balls[i], order[i]);
    }
  }

  /** Playable steps always give a batch of one ball per step. */
  lemma IterationSends(steps: seq<Step>, random: bool, roll: nat -> real, d: nat)
    requires Unit(roll) && Playable(steps)
    ensures Iteration(Some(steps), random, roll, d).Sent?
    ensures |Iteration(Some(steps), random, roll, d).balls| == |steps|
  {
    IterationBatch(steps, random, roll, d);
  }

  /** The byte record of a ball: `packBall(...chosenOption)`. */
  function Record(b: Ball, f32: real -> Quad): (r: seq<byte>)
    ensures |r| == 24
  {
    PackBall(b.top, b.bottom, b.height as real, b.drop, b.freq as real, b.reps, f32)
  }

  function Records(balls: seq<Ball>, f32: real -> Quad): (r: seq<seq<byte>>)
    ensures |r| == |balls| && AllRecords(r)
    ensures forall i :: 0 <= i < |balls| ==> r[i] == Record(balls[i], f32)
  {
    seq(|balls|, i requires 0 <= i < |balls| => Record(balls[i], f32))
  }

  /** appStats.balls, appStats.drills and the outbound log after an
      iteration's outcome. */
  function Emit(o: Outcome, balls: int, runs: int, outbox: seq<seq<byte>>, writeChar: bool,
                f32: real -> Quad): (r: (int, int, seq<seq<byte>>))
    ensures o.Thrown? ==> r == (balls, runs, outbox)
    ensures o.Sent? ==> r.0 == balls + |o.balls| && r.1 == runs + 1
  {
    match o
    case Thrown(_) => (balls, runs, outbox)
    case Sent(bs, _) =>
      (balls + |bs|, runs + 1, outbox + (if writeChar then [Frame(Records(bs, f32))] else []))
  }

  /** A sent batch adds one packet to the log when a write characteristic
      is bound: a frame of 7 + 24N octets starting with 0x81, N being the
      number of balls. */
  lemma EmitSends(o: Outcome, balls: int, runs: int, outbox: seq<seq<byte>>, writeChar: bool,
                  f32: real -> Quad)
    requires o.Sent?
    ensures var r := Emit(o, balls, runs, outbox, writeChar, f32);
            && (writeChar ==> |r.2| == |outbox| + 1 && r.2[..|outbox|] == outbox
                              && |r.2[|outbox|]| == 7 + 24 * |o.balls| && r.2[|outbox|][0] == 0x81)
            && (!writeChar ==> r.2 == outbox)
  {
    FrameLayout(Records(o.balls, f32));
  }

  // ---------------------------------------------------------------------
  // Counters and timers

  /** `parseInt(value) || 1`: NaN and 0 become 1, anything else is kept. */
  function TargetOf(p: Option<int>): (t: int)
    ensures t != 0
    ensures p.Some? && p.value != 0 ==> t == p.value
    ensures p.None? || p.value == 0 ==> t == 1
  {
    if p.None? || p.value == 0 then 1 else p.value
  }

  /** The number of batches a reps run sends: currentCount reaches the
      target after that many iterations, and at least one is always sent. */
  function Batches(target: int): (n: nat)
    ensures n >= 1 && n >= target
    ensures target >= 1 ==> n == target
  {
    if target < 1 then 1 else target
  }

  /** clearTimeout / clearInterval of a handle (null clears nothing). */
  function Cancel(timers: map<nat, TimerKind>, h: Option<nat>): (r: map<nat, TimerKind>)
    ensures h.Some? ==> h.value !in r
    ensures forall k :: k in r <==> k in timers && h != Some(k)
    ensures forall k :: k in r ==> r[k] == timers[k]
  {
    if h.Some? then timers - {h.value} else timers
  }

  /** The three clears of stopRun. */
  function CancelAll(timers: map<nat, TimerKind>, countdown: Option<nat>, clock: Option<nat>,
                     rest: Option<nat>): (r: map<nat, TimerKind>)
    ensures forall h :: h in [countdown, clock, rest] && h.Some? ==> h.value !in r
    ensures forall k :: k in r <==> k in timers && Some(k) !in [countdown, clock, rest]
    ensures forall k :: k in r ==> r[k] == timers[k]
  {
    Cancel(Cancel(Cancel(timers, countdown), clock), rest)
  }

  /** Clearing what is already cleared changes nothing. */
  lemma CancelAllIdempotent(timers: map<nat, TimerKind>, c: Option<nat>, k: Option<nat>, p: Option<nat>)
    ensures CancelAll(CancelAll(timers, c, k, p), c, k, p) == CancelAll(timers, c, k, p)
  {
    var once := CancelAll(timers, c, k, p);
    assert CancelAll(once, c, k, p).Keys == once.Keys;
  }

  /** `remainingTime--` (NaN stays NaN). */
  function Decrement(t: Option<int>): (r: Option<int>)
    ensures r.Some? <==> t.Some?
    ensures t.Some? ==> r.value == t.value - 1
  {
    if t.Some? then Some(t.value - 1) else None
  }

  // ---------------------------------------------------------------------
  // The sequence building of runIteration

  /** The first unusable step is the one the loop stops at. */
  lemma FirstUnplayableAt(steps: seq<Step>, i: nat)
    requires i < |steps| && Playable(steps[..i]) && !PlayableStep(steps[i])
    ensures !Playable(steps) && FirstUnplayable(steps) == i
  {
    var k := FirstUnplayable(steps);
    assert forall j :: 0 <= j < i ==> steps[..i][j] == steps[j];
    assert forall j :: 0 <= j < k ==> steps[..k][j] == steps[j];
  }

  /** One more step of the choice loop. */
  lemma ChosenStep(order: seq<Step>, i: nat, roll: nat -> real, d: nat)
    requires Unit(roll) && i < |order| && Playable(order[..i]) && PlayableStep(order[i])
    ensures Playable(order[..i + 1])
    ensures Chosen(order[..i + 1], roll, d)
            == Chosen(order[..i], roll, d) + [order[i].variants[Pick(roll(d + i), |order[i].variants|)]]
  {
    assert forall j :: 0 <= j < i ==> order[..i + 1][j] == order[..i][j];
  }

  lemma RecordsStep(balls: seq<Ball>, b: Ball, f32: real -> Quad)
    ensures Records(balls + [b], f32) == Records(balls, f32) + [Record(b, f32)]
  {
  }

  /** The sequence of runIteration: the stored steps, or with the random
      flag a shuffled array copy of them. */
  method Order(params: seq<Step>, random: bool, roll: nat -> real, d: nat)
    returns (order: seq<Step>, d1: nat)
    requires Unit(roll)
    ensures order == Ordered(params, random, roll, d)
    ensures d1 == OrderDraws(|params|, random, d)
  {
    order, d1 := params, d;
    if random {
      var a := new Step[|params|](i requires 0 <= i < |params| => params[i]);
      assert a[..] == params;
      d1 := Shuffle(a, roll, d);
      order := a[..];
    }
  }

  /** The forEach of runIteration: one draw per step, and the chosen
      variant packed, until a step without variants throws. */
  method ChooseAndPack(order: seq<Step>, roll: nat -> real, d1: nat, f32: real -> Quad)
    returns (o: Outcome, packed: seq<seq<byte>>)
    requires Unit(roll)
    ensures o == Choice(order, roll, d1)
    ensures o.Sent? ==> packed == Records(o.balls, f32)
  {
    var chosen: seq<Ball> := [];
    packed := [];
    for i := 0 to |order|
      invariant Playable(order[..i])
      invariant chosen == Chosen(order[..i], roll, d1)
      invariant packed == Records(chosen, f32)
    {
      var step := order[i];
      if !PlayableStep(step) {
        ThrownAt(order, i, roll, d1);
        return Thrown(d1 + i + 1), packed;
      }
      var b := step.variants[Pick(roll(d1 + i), |step.variants|)];
      ChosenStep(order, i, roll, d1);
      RecordsStep(chosen, b, f32);
      chosen := chosen + [b];
      packed := packed + [Record(b, f32)];
    }
    assert order[..|order|] == order;
    o := Sent(chosen, d1 + |order|);
  }

  /** The choice over steps whose i-th is the first without variants
      throws after i + 1 draws. */
  lemma ThrownAt(order: seq<Step>, i: nat, roll: nat -> real, d1: nat)
    requires Unit(roll)
    requires i < |order| && Playable(order[..i]) && !PlayableStep(order[i])
    ensures Choice(order, roll, d1) == Thrown(d1 + i + 1)
  {
    FirstUnplayableAt(order, i);
  }

  /** Sequence building, variant choice and packing of runIteration. */
  method Prepare(params: Option<seq<Step>>, random: bool, roll: nat -> real, d: nat, f32: real -> Quad)
    returns (o: Outcome, packed: seq<seq<byte>>)
    requires Unit(roll)
    ensures o == Iteration(params, random, roll, d)
    ensures o.Sent? ==> packed == Records(o.balls, f32)
  {
    if params.None? {
      return Thrown(d), [];
    }
    var order, d1 := Order(params.value, random, roll, d);
    o, packed := ChooseAndPack(order, roll, d1, f32);
  }

  /** `currentDrills[name][selectedLevel]` when both exist (a missing
      drill or level is the falsy `params` of startDrillSequence). */
  function SelectedSteps(drills: map<string, Drill>, name: string, level: int): (r: Option<seq<Step>>)
    ensures r.Some? <==> name in drills && level in drills[name].levels
    ensures r.Some? ==> r.value == drills[name].levels[level]
  {
    if name in drills && level in drills[name].levels then Some(drills[name].levels[level]) else None
  }

  // ---------------------------------------------------------------------
  // The runner state

  class Runner {
    /** Holds runMode, selectedLevel, currentDrills and appStats. */
    const store: Store
    /** The connection packets are sent through. */
    const link: Link
    /** The successive values of Math.random. */
    const roll: nat -> real
    /** The float32 rendering packBall uses. */
    const f32: real -> Quad
    /** How many Math.random values have been used. */
    var draws: nat
    var isRunning: bool
    var isPaused: bool
    var currentCount: int
    var targetCount: int
    /** `None` is NaN. */
    var remainingTime: Option<int>
    /** The last handles stored in pauseTimer, countdownTimer, runTimer. */
    var pauseTimer: Option<nat>
    var countdownTimer: Option<nat>
    var runTimer: Option<nat>
    /** The browser timers still pending. */
    var timers: map<nat, TimerKind>
    var nextHandle: nat
    var activeParams: Option<seq<Step>>
    var activeRandom: bool

    /** The random stream lies in [0, 1) and every pending timer has a
        handle below the next one handed out. */
    ghost predicate Valid()
      reads this
    {
      Unit(roll) && forall h :: h in timers ==> h < nextHandle
    }

    constructor(store0: Store, link0: Link, roll0: nat -> real, f320: real -> Quad)
      requires Unit(roll0)
      ensures Valid()
      ensures store == store0 && link == link0 && roll == roll0 && f32 == f320
      ensures draws == 0 && !isRunning && !isPaused && currentCount == 0 && targetCount == 0
      ensures remainingTime == Some(0) && pauseTimer.None? && countdownTimer.None? && runTimer.None?
      ensures timers == map[] && nextHandle == 0 && activeParams.None? && !activeRandom
    {
      store, link, roll, f32 := store0, link0, roll0, f320;
      draws := 0;
      isRunning, isPaused := false, false;
      currentCount, targetCount := 0, 0;
      remainingTime := Some(0);
      pauseTimer, countdownTimer, runTimer := None, None, None;
      timers := map[];
      nextHandle := 0;
      activeParams := None;
      activeRandom := false;
    }

    /** The counters, statistics and outbound log at one point of time. */
    function Now(): Tally
      reads this, store, link
    {
      Tally(currentCount, draws, store.balls, store.drillsRun, link.outbox)
    }

    /** One iteration ran from `t`: the count went up in reps mode, and the
        draws, statistics and outbound log are those of the iteration's
        outcome. */
    ghost predicate Iterated(t: Tally)
      requires Unit(roll)
      reads this, store, link
    {
      var o := Iteration(activeParams, activeRandom, roll, t.draws);
      && currentCount == t.count + (if store.mode == Reps then 1 else 0)
      && draws == o.draws
      && (store.balls, store.drillsRun, link.outbox) == Emit(o, t.balls, t.runs, t.outbox, link.writeChar, f32)
    }

    /** The state stopRun leaves. */
    twostate predicate Stopped()
      reads this, link
    {
      && !isRunning && !isPaused
      && timers == CancelAll(old(timers), countdownTimer, runTimer, pauseTimer)
      && link.outbox == old(link.outbox) + (if link.writeChar then [STOP] else [])
    }

    /** setTimeout / setInterval: a fresh handle for a new pending timer. */
    method Schedule(kind: TimerKind) returns (h: nat)
      requires Valid()
      modifies `timers, `nextHandle
      ensures Valid()
      ensures h == old(nextHandle) && h !in old(timers)
      ensures timers == old(timers)[h := kind] && nextHandle == h + 1
    {
      h := nextHandle;
      timers := timers[h := kind];
      nextHandle := nextHandle + 1;
    }

    /** startDrillSequence: without steps for the selected level nothing
        changes; otherwise the steps and the random flag become active and
        the countdown interval starts at 4. */
    method StartDrillSequence(drillName: string) returns (started: bool)
      requires Valid()
      modifies `activeParams, `activeRandom, `countdownTimer, `timers, `nextHandle
      ensures Valid()
      ensures started <==> SelectedSteps(store.drills, drillName, store.selectedLevel).Some?
      ensures !started ==> unchanged(this)
      ensures started ==> activeParams == SelectedSteps(store.drills, drillName, store.selectedLevel)
                          && activeRandom == store.drills[drillName].random
                          && countdownTimer == Some(old(nextHandle))
                          && timers == old(timers)[old(nextHandle) := Countdown(COUNTDOWN_START)]
                          && nextHandle == old(nextHandle) + 1
    {
      var params := SelectedSteps(store.drills, drillName, store.selectedLevel);
      if params.None? {
        return false;
      }
      activeParams := params;
      activeRandom := store.drills[drillName].random;
      var h := Schedule(Countdown(COUNTDOWN_START));
      countdownTimer := Some(h);
      started := true;
    }

    /** runIteration: nothing unless running and not paused; otherwise the
        count goes up in reps mode, then the batch is built, counted and
        sent. */
    method RunIteration()
      requires Valid()
      modifies `currentCount, `draws, store`balls, store`drillsRun, link`outbox
      ensures Valid()
      ensures isRunning && !isPaused ==> Iterated(old(Now()))
      ensures !(isRunning && !isPaused) ==> Now() == old(Now())
    {
      if !isRunning || isPaused {
        return;
      }
      if store.mode == Reps {
        currentCount := currentCount + 1;
      }
      var o, packed := Prepare(activeParams, activeRandom, roll, draws, f32);
      draws := o.draws;
      Transmit(o, packed);
    }

    /** The end of runIteration for a batch: the statistics, then the
        framed packet handed to sendPacket. */
    method Transmit(o: Outcome, packed: seq<seq<byte>>)
      requires o.Sent? ==> packed == Records(o.balls, f32)
      modifies store`balls, store`drillsRun, link`outbox
      ensures (store.balls, store.drillsRun, link.outbox)
              == Emit(o, old(store.balls), old(store.drillsRun), old(link.outbox), link.writeChar, f32)
    {
      if o.Sent? {
        store.balls := store.balls + |o.balls|;
        store.drillsRun := store.drillsRun + 1;
        var packet := BuildPacket(packed);
        var _ := link.SendPacket(packet);
      }
    }

    /** The effect of beginDrillExecution, `timers0` being the pending
        timers when it is called: running and not paused; a timed run reads
        the time and starts the clock interval, a reps run sets the target
        and counts from zero; then one iteration. */
    twostate predicate Began(inputs: Inputs, timers0: map<nat, TimerKind>)
      requires Unit(roll)
      reads this, store, link
    {
      && isRunning && !isPaused
      && (store.mode == Time ==>
            && Iterated(old(Now()))
            && remainingTime == inputs.time && runTimer == Some(old(nextHandle))
            && timers == timers0[old(nextHandle) := Clock] && nextHandle == old(nextHandle) + 1
            && targetCount == old(targetCount))
      && (store.mode == Reps ==>
            && Iterated(old(Now()).(count := 0))
            && targetCount == TargetOf(inputs.reps)
            && remainingTime == old(remainingTime) && runTimer == old(runTimer)
            && timers == timers0 && nextHandle == old(nextHandle))
    }

    method BeginDrillExecution(inputs: Inputs)
      requires Valid()
      modifies `isRunning, `isPaused, `remainingTime, `runTimer, `timers, `nextHandle, `targetCount
      modifies `currentCount, `draws, store`balls, store`drillsRun, link`outbox
      ensures Valid()
      ensures Began(inputs, old(timers))
    {
      isRunning := true;
      isPaused := false;
      if store.mode == Time {
        remainingTime := inputs.time;
        var h := Schedule(Clock);
        runTimer := Some(h);
      } else {
        targetCount := TargetOf(inputs.reps);
        currentCount := 0;
      }
      RunIteration();
    }

    /** handleDone: ignored unless running; a reps run that reached its
        target stops; otherwise, unless paused, the rest timer is set. */
    method HandleDone()
      requires Valid()
      modifies `isRunning, `isPaused, `timers, `pauseTimer, `nextHandle, link`outbox
      ensures Valid()
      ensures !old(isRunning) ==> unchanged(this) && link.outbox == old(link.outbox)
      ensures old(isRunning) && store.mode == Reps && currentCount >= targetCount ==> Stopped()
      ensures old(isRunning) && !(store.mode == Reps && currentCount >= targetCount) ==>
                && isRunning && isPaused == old(isPaused) && link.outbox == old(link.outbox)
                && (old(isPaused) ==> unchanged(this))
                && (!old(isPaused) ==> pauseTimer == Some(old(nextHandle))
                                       && timers == old(timers)[old(nextHandle) := Rest]
                                       && nextHandle == old(nextHandle) + 1)
    {
      if !isRunning {
        return;
      }
      if store.mode == Reps && currentCount >= targetCount {
        StopRun();
        return;
      }
      if !isPaused {
        var h := Schedule(Rest);
        pauseTimer := Some(h);
      }
    }

    /** The notification handler once the runner is wired to the link: one
        step of the handshake chain, then handleDone when the notification
        carries the completion marker. */
    method Notify(buf: seq<byte>, md5: string -> Digest)
      requires Valid()
      modifies link, `isRunning, `isPaused, `timers, `pauseTimer, `nextHandle
      ensures Valid()
      ensures var r := HandshakeStep(old(link.handshakeState), DecodeText(buf), md5);
              var stop := IsDone(buf) && old(isRunning) && store.mode == Reps && currentCount >= targetCount;
              && link.handshakeState == r.next
              && link.isConnected == (old(link.isConnected) || r.ready)
              && link.device == old(link.device) && link.writeChar == old(link.writeChar)
              && link.outbox == old(link.outbox) + (if r.packet.Some? && link.writeChar then [r.packet.value] else [])
                                                 + (if stop && link.writeChar then [STOP] else [])
      // without the marker, or with no run going, the run is left alone
      ensures !(IsDone(buf) && old(isRunning)) ==>
                && isRunning == old(isRunning) && isPaused == old(isPaused) && timers == old(timers)
                && pauseTimer == old(pauseTimer) && nextHandle == old(nextHandle)
      // a finished batch ends a repetitions run that reached its target
      ensures IsDone(buf) && old(isRunning) && store.mode == Reps && currentCount >= targetCount ==>
                && !isRunning && !isPaused
                && timers == CancelAll(old(timers), countdownTimer, runTimer, pauseTimer)
      // otherwise an unpaused run schedules its rest
      ensures IsDone(buf) && old(isRunning) && !(store.mode == Reps && currentCount >= targetCount) ==>
                && isRunning && isPaused == old(isPaused)
                && (!old(isPaused) ==> && pauseTimer == Some(old(nextHandle))
                                       && timers == old(timers)[old(nextHandle) := Rest])
    {
      var done := link.OnNotify(buf, md5);
      if done {
        HandleDone();
      }
    }

    /** togglePause: resuming clears the flag and runs an iteration at
        once; pausing sets it, clears the rest timer and sends the stop
        command. */
    method TogglePause()
      requires Valid()
      modifies `isPaused, `timers, `currentCount, `draws, store`balls, store`drillsRun, link`outbox
      ensures Valid()
      ensures old(isPaused) ==> !isPaused && timers == old(timers)
                                && (isRunning ==> Iterated(old(Now())))
                                && (!isRunning ==> Now() == old(Now()))
      ensures !old(isPaused) ==> isPaused && timers == Cancel(old(timers), pauseTimer)
                                 && currentCount == old(currentCount) && draws == old(draws)
                                 && store.balls == old(store.balls) && store.drillsRun == old(store.drillsRun)
                                 && link.outbox == old(link.outbox) + (if link.writeChar then [STOP] else [])
    {
      if isPaused {
        isPaused := false;
        RunIteration();
      } else {
        isPaused := true;
        timers := Cancel(timers, pauseTimer);
        var _ := link.SendPacket(STOP);
      }
    }

    /** stopRun: not running, not paused, the three stored timers cleared,
        the stop command sent. */
    method StopRun()
      requires Valid()
      modifies `isRunning, `isPaused, `timers, link`outbox
      ensures Valid()
      ensures Stopped()
    {
      isRunning := false;
      isPaused := false;
      timers := CancelAll(timers, countdownTimer, runTimer, pauseTimer);
      var _ := link.SendPacket(STOP);
    }

    /** The rest timer fires: it is gone, and it runs an iteration only if
        the run is still going and not paused. */
    method FireRest(h: nat)
      requires Valid() && h in timers && timers[h] == Rest
      modifies `timers, `currentCount, `draws, store`balls, store`drillsRun, link`outbox
      ensures Valid()
      ensures timers == old(timers) - {h}
      ensures isRunning && !isPaused ==> Iterated(old(Now()))
      ensures !(isRunning && !isPaused) ==> Now() == old(Now())
    {
      timers := timers - {h};
      if isRunning && !isPaused {
        RunIteration();
      } else {
        // the closure's own guard
      }
    }

    /** A tick of the countdown interval: the closure's count goes down;
        at zero the stored countdown interval is cleared and the go timeout
        set. */
    method TickCountdown(h: nat)
      requires Valid() && h in timers && timers[h].Countdown?
      modifies `timers, `nextHandle
      ensures Valid()
      ensures var c := old(timers)[h].count - 1;
              && (c > 0 ==> timers == old(timers)[h := Countdown(c)] && nextHandle == old(nextHandle))
              && (c <= 0 ==> timers == Cancel(old(timers)[h := Countdown(c)], countdownTimer)[old(nextHandle) := Go]
                             && nextHandle == old(nextHandle) + 1)
    {
      var c := timers[h].count - 1;
      timers := timers[h := Countdown(c)];
      if c <= 0 {
        timers := Cancel(timers, countdownTimer);
        var _ := Schedule(Go);
      }
    }

    /** The go timeout fires: it is gone, and the run begins. */
    method FireGo(h: nat, inputs: Inputs)
      requires Valid() && h in timers && timers[h] == Go
      modifies `isRunning, `isPaused, `remainingTime, `runTimer, `timers, `nextHandle, `targetCount
      modifies `currentCount, `draws, store`balls, store`drillsRun, link`outbox
      ensures Valid()
      ensures Began(inputs, old(timers) - {h})
    {
      timers := timers - {h};
      BeginDrillExecution(inputs);
    }

    /** A tick of the clock interval of a timed run: while not paused, one
        second less, and the run stops once the time is used up (NaN never
        is). */
    method TickClock(h: nat)
      requires Valid() && h in timers && timers[h] == Clock
      modifies `remainingTime, `isRunning, `isPaused, `timers, link`outbox
      ensures Valid()
      ensures old(isPaused) ==> unchanged(this) && link.outbox == old(link.outbox)
      ensures !old(isPaused) ==> remainingTime == Decrement(old(remainingTime))
      ensures !old(isPaused) && remainingTime.Some? && remainingTime.value <= 0 ==> Stopped()
      ensures !old(isPaused) && !(remainingTime.Some? && remainingTime.value <= 0) ==>
                isRunning == old(isRunning) && !isPaused && timers == old(timers) && link.outbox == old(link.outbox)
    {
      if !isPaused {
        remainingTime := Decrement(remainingTime);
        if remainingTime.Some? && remainingTime.value <= 0 {
          StopRun();
        }
      }
    }
  }

  /** A reps run the user never pauses, the robot answering every batch
      with the done marker and every rest timer firing: after the log it
      started with, it sends exactly `Batches(target)` batches of one record
      per step, then the stop command. A target that parses to NaN or 0 is
      1. */
  method UninterruptedRepsRun(r: Runner, inputs: Inputs, ghost steps: seq<Step>) returns (sent: nat)
    requires r.Valid() && r.store.mode == Reps && r.link.writeChar
    requires r.activeParams == Some(steps) && Playable(steps)
    modifies r, r.store`balls, r.store`drillsRun, r.link`outbox
    ensures sent == Batches(TargetOf(inputs.reps))
    ensures !r.isRunning && !r.isPaused
    ensures RunLog(r.link.outbox, old(r.link.outbox), sent, |steps|, true)
  {
    ghost var out0 := r.link.outbox;
    ghost var target := TargetOf(inputs.reps);
    StartReps(r, inputs, steps);
    RunLogBatch(out0, out0, 0, |steps|, r.link.outbox);
    sent := 1;
    while r.isRunning
      invariant RepsRun(r, steps, target)
      invariant 1 <= sent <= Batches(target)
      invariant r.isRunning ==> !r.isPaused && r.currentCount == sent
      invariant !r.isRunning ==> sent == Batches(target) && !r.isPaused
      invariant RunLog(r.link.outbox, out0, sent, |steps|, !r.isRunning)
      decreases Batches(target) - sent + (if r.isRunning then 1 else 0)
    {
      sent := NextRound(r, steps, sent, target, out0);
    }
  }

  /** The runner during an uninterrupted reps run of playable steps. */
  ghost predicate RepsRun(r: Runner, steps: seq<Step>, target: int)
    reads r, r.store, r.link
  {
    && r.Valid() && r.store.mode == Reps && r.link.writeChar
    && r.activeParams == Some(steps) && Playable(steps) && r.targetCount == target
  }

  /** The outbound log `out` is `out0` followed by `sent` frames of n
      records each, and then the stop command once the run stopped. */
  ghost predicate RunLog(out: seq<seq<byte>>, out0: seq<seq<byte>>, sent: nat, n: nat, stopped: bool)
  {
    && |out| == |out0| + sent + (if stopped then 1 else 0)
    && out[..|out0|] == out0
    && (forall k :: |out0| <= k < |out0| + sent ==> IsBatch(out[k], n))
    && (stopped ==> out[|out| - 1] == STOP)
  }

  lemma RunLogBatch(prev: seq<seq<byte>>, out0: seq<seq<byte>>, sent: nat, n: nat, out: seq<seq<byte>>)
    requires RunLog(prev, out0, sent, n, false)
    requires |out| == |prev| + 1 && out[..|prev|] == prev && IsBatch(out[|prev|], n)
    ensures RunLog(out, out0, sent + 1, n, false)
  {
    assert forall k :: 0 <= k < |prev| ==> out[k] == prev[k];
  }

  lemma RunLogStop(prev: seq<seq<byte>>, out0: seq<seq<byte>>, sent: nat, n: nat)
    requires RunLog(prev, out0, sent, n, false)
    ensures RunLog(prev + [STOP], out0, sent, n, true)
  {
    assert forall k :: 0 <= k < |prev| ==> (prev + [STOP])[k] == prev[k];
  }

  /** One done marker during an uninterrupted reps run: either the target
      is reached and the run stops, or the rest timer is set and, firing,
      sends the next batch. */
  method NextRound(r: Runner, ghost steps: seq<Step>, sent: nat, ghost target: int,
                   ghost out0: seq<seq<byte>>) returns (sent': nat)
    requires RepsRun(r, steps, target) && r.isRunning && !r.isPaused
    requires r.currentCount == sent && 1 <= sent <= Batches(target)
    requires RunLog(r.link.outbox, out0, sent, |steps|, false)
    modifies r, r.store`balls, r.store`drillsRun, r.link`outbox
    ensures RepsRun(r, steps, target) && !r.isPaused
    ensures r.isRunning ==> r.currentCount == sent' && sent' == sent + 1 <= Batches(target)
    ensures !r.isRunning ==> sent' == sent == Batches(target)
    ensures RunLog(r.link.outbox, out0, sent', |steps|, !r.isRunning)
  {
    ghost var prev := r.link.outbox;
    AnswerDone(r);
    sent' := sent;
    if r.isRunning {
      RestEnds(r, steps);
      RunLogBatch(prev, out0, sent, |steps|, r.link.outbox);
      sent' := sent + 1;
    } else {
      RunLogStop(prev, out0, sent, |steps|);
    }
  }

  /** beginDrillExecution of a reps run with playable steps. */
  method StartReps(r: Runner, inputs: Inputs, ghost steps: seq<Step>)
    requires r.Valid() && r.store.mode == Reps && r.link.writeChar
    requires r.activeParams == Some(steps) && Playable(steps)
    modifies r`isRunning, r`isPaused, r`remainingTime, r`runTimer, r`timers, r`nextHandle, r`targetCount
    modifies r`currentCount, r`draws, r.store`balls, r.store`drillsRun, r.link`outbox
    ensures r.Valid() && r.activeParams == Some(steps)
    ensures r.isRunning && !r.isPaused && r.currentCount == 1
    ensures r.targetCount == TargetOf(inputs.reps)
    ensures |r.link.outbox| == |old(r.link.outbox)| + 1
    ensures r.link.outbox[..|old(r.link.outbox)|] == old(r.link.outbox)
    ensures IsBatch(r.link.outbox[|old(r.link.outbox)|], |steps|)
  {
    ghost var before := r.Now();
    r.BeginDrillExecution(inputs);
    IteratedSends(r, before.(count := 0), steps);
  }

  /** After an iteration over playable steps on a writable link, exactly one
      frame of |steps| records was appended to the outbox. */
  lemma IteratedSends(r: Runner, t: Tally, steps: seq<Step>)
    requires Unit(r.roll) && r.link.writeChar && r.Iterated(t)
    requires r.activeParams == Some(steps) && Playable(steps)
    ensures |r.link.outbox| == |t.outbox| + 1 && r.link.outbox[..|t.outbox|] == t.outbox
    ensures IsBatch(r.link.outbox[|t.outbox|], |steps|)
  {
    IterationSends(steps, r.activeRandom, r.roll, t.draws);
    var o := Iteration(r.activeParams, r.activeRandom, r.roll, t.draws);
    EmitSends(o, t.balls, t.runs, t.outbox, true, r.f32);
  }

  /** A frame of n records. */
  predicate IsBatch(packet: seq<byte>, n: nat)
  {
    |packet| == 7 + 24 * n && packet[0] == 0x81
  }

  /** The done marker arrives during an uninterrupted reps run. */
  method AnswerDone(r: Runner)
    requires r.Valid() && r.store.mode == Reps && r.link.writeChar && r.isRunning && !r.isPaused
    modifies r`isRunning, r`isPaused, r`timers, r`pauseTimer, r`nextHandle, r.link`outbox
    ensures r.Valid() && !r.isPaused
    ensures !r.isRunning ==> r.currentCount >= r.targetCount && r.link.outbox == old(r.link.outbox) + [STOP]
    ensures r.isRunning ==> r.currentCount < r.targetCount && r.link.outbox == old(r.link.outbox)
                            && r.pauseTimer.Some? && r.pauseTimer.value in r.timers
                            && r.timers[r.pauseTimer.value] == Rest
  {
    r.HandleDone();
  }

  /** The rest timer fires during an uninterrupted run and sends a batch. */
  method RestEnds(r: Runner, ghost steps: seq<Step>)
    requires r.Valid() && r.link.writeChar && r.isRunning && !r.isPaused
    requires r.activeParams == Some(steps) && Playable(steps)
    requires r.pauseTimer.Some? && r.pauseTimer.value in r.timers && r.timers[r.pauseTimer.value] == Rest
    modifies r`timers, r`currentCount, r`draws, r.store`balls, r.store`drillsRun, r.link`outbox
    ensures r.Valid()
    ensures r.currentCount == old(r.currentCount) + (if r.store.mode == Reps then 1 else 0)
    ensures |r.link.outbox| == |old(r.link.outbox)| + 1
    ensures r.link.outbox[..|old(r.link.outbox)|] == old(r.link.outbox)
    ensures IsBatch(r.link.outbox[|old(r.link.outbox)|], |steps|)
  {
    ghost var before := r.Now();
    r.FireRest(r.pauseTimer.value);
    IteratedSends(r, before, steps);
  }

  /** A second stopRun leaves the state the first one left; only the stop
      command is sent again. */
  method RepeatedStop(r: Runner)
    requires r.Valid()
    modifies r`isRunning, r`isPaused, r`timers, r.link`outbox
    ensures !r.isRunning && !r.isPaused
    ensures r.timers == CancelAll(old(r.timers), r.countdownTimer, r.runTimer, r.pauseTimer)
    ensures r.link.outbox == old(r.link.outbox) + (if r.link.writeChar then [STOP, STOP] else [])
  {
    r.StopRun();
    r.StopRun();
    CancelAllIdempotent(old(r.timers), r.countdownTimer, r.runTimer, r.pauseTimer);
  }

  // ---------------------------------------------------------------------
  // formatTime

  /** The remainder of JavaScript's `%`: the sign follows the dividend. */
  function JsRem(a: int, b: int): (r: int)
    requires b > 0
    ensures a >= 0 ==> 0 <= r < b && r == a % b
    ensures a < 0 ==> -b < r <= 0 && r == -((-a) % b)
  {
    if a >= 0 then a % b else -((-a) % b)
  }

  /** formatTime: `Math.floor(s/60)`, a colon, then `s % 60` padded to two
      characters with zeros. NaN prints as "NaN:NaN". */
  function FormatTime(s: Option<int>): (r: string)
    ensures s.None? ==> r == "NaN:NaN"
    // minutes, a colon, then exactly two characters of seconds
    ensures s.Some? && s.value >= 0 ==> |r| >= 4 && r[|r| - 3] == ':'
  {
    if s.None? then "NaN:NaN"
    else
      SecondsWidth(s.value);
      IntToString(s.value / 60) + ":" + PadStart2(IntToString(JsRem(s.value, 60)))
  }

  lemma SecondsWidth(v: int)
    ensures v >= 0 ==> |PadStart2(IntToString(JsRem(v, 60)))| == 2
  {
    if v >= 0 {
      PaddedSecondsValue(v % 60);
    }
  }

  /** Seconds below 60 print as two digits that read back as their value. */
  lemma PaddedSecondsValue(n: nat)
    requires n < 60
    ensures |PadStart2(IntToString(n))| == 2
    ensures ParseInt(PadStart2(IntToString(n))) == Some(n)
  {
    if n < 10 {
      OneDigitPadded(n);
    } else {
      TwoDigits(n);
      IntToStringRoundTrip(n);
    }
  }

  /** A one-digit numeral gains a leading zero, which parseInt skips over. */
  lemma OneDigitPadded(n: nat)
    requires n < 10
    ensures PadStart2(IntToString(n)) == ['0', DigitChar(n)]
    ensures ParseInt(['0', DigitChar(n)]) == Some(n)
  {
    var p := ['0', DigitChar(n)];
    assert TrimStart(p) == p;
    assert Unsign(p) == (false, p);
    AllDigitsRun(p, 10);
    assert p[..2] == p;
    assert p[..1] == ['0'];
    assert DigitsValue(['0'], 10) == 0;
  }

  lemma TwoDigits(n: nat)
    requires 10 <= n < 60
    ensures |IntToString(n)| == 2
  {
    assert NatToString(n / 10) == [DigitChar(n / 10)];
  }

  /** For a non-negative number of seconds, the two parts around the colon
      read back as the minutes and the seconds below 60, the seconds always
      in two digits. */
  lemma FormatTimeReadsBack(s: nat)
    ensures var parts := Split(FormatTime(Some(s)), ':');
            |parts| == 2 && |parts[1]| == 2
            && ParseInt(parts[0]) == Some(s / 60) && ParseInt(parts[1]) == Some(s % 60)
            && s == 60 * (s / 60) + s % 60
  {
    FormatTimeParts(s);
    PaddedSecondsValue(s % 60);
    IntToStringRoundTrip(s / 60);
  }

  /** The colon is the only one in the formatted time. */
  lemma FormatTimeParts(s: nat)
    ensures Split(FormatTime(Some(s)), ':') == [IntToString(s / 60), PadStart2(IntToString(s % 60))]
  {
    var m := IntToString(s / 60);
    var sec := PadStart2(IntToString(s % 60));
    NumeralHasNoColon(s / 60);
    NumeralHasNoColon(s % 60);
    SplitNoSeparator(sec, ':');
    SplitAfterPiece(m, ':', sec);
    assert FormatTime(Some(s)) == m + [':'] + sec;
  }

  /** A numeral and its zero-padded form hold no colon. */
  lemma NumeralHasNoColon(n: nat)
    ensures forall j :: 0 <= j < |IntToString(n)| ==> IntToString(n)[j] != ':'
    ensures forall j :: 0 <= j < |PadStart2(IntToString(n))| ==> PadStart2(IntToString(n))[j] != ':'
  {
    var t := IntToString(n);
    assert t == NatToString(n);
    var p := PadStart2(t);
    assert forall j :: 0 <= j < |p| ==> p[j] == '0' || p[j] in t;
  }
}
