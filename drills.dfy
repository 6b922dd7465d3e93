/** The drill data of js/state.js: a shot (six numbers), a step (one shot,
    or a list of alternative shots one of which is picked at run time), a
    drill (up to three difficulty levels of steps plus the `random` flag),
    and the custom banks' {name, key} entries. The step normalisation of
    `normalizeDrills` lives here as functions. */
module Drills {

  /** [top, bottom, height, drop, freq, reps]: the two motor speeds in RPM,
      launch height, drop (the only fractional field), oscillation
      frequency and repeat count. */
  datatype Ball = Ball(top: int, bottom: int, height: int, drop: real, freq: int, reps: int)

  /** A step as stored: either an old-style bare shot (an array whose first
      element is a number) or a list of alternative shots. */
  datatype Step = Bare(ball: Ball) | Options(variants: seq<Ball>)

  /** A drill: the steps per level (a level may be missing) and the flag
      that asks the runner to shuffle the steps. */
  datatype Drill = Drill(levels: map<int, seq<Step>>, random: bool)

  /** One entry of a custom bank. */
  datatype Entry = Entry(name: string, key: string)

  /** The three custom banks `custom-a`, `custom-b`, `custom-c`. */
  datatype Bank = A | B | C

  const BANK_CAPACITY: int := 20

  /** The metadata key that normalizeDrills skips. */
  const RANDOM_KEY: string := "random"

  /** The upper-case letter of a bank, as used in keys and in the CSV. */
  function Letter(b: Bank): (c: char)
    ensures 'A' <= c <= 'C'
  {
    match b
    case A => 'A'
    case B => 'B'
    case C => 'C'
  }

  lemma LetterInjective(b1: Bank, b2: Bank)
    ensures Letter(b1) == Letter(b2) <==> b1 == b2
  {
  }

  // ---------------------------------------------------------------------
  // Step normalisation

  /** One step of normalizeDrills: a bare shot becomes a one-variant step,
      anything else is kept. */
  function NormalizeStep(s: Step): (r: Step)
    ensures r.Options?
    ensures s.Options? ==> r == s
    ensures s.Bare? ==> r.variants == [s.ball]
  {
    match s
    case Bare(b) => Options([b])
    case Options(_) => s
  }

  predicate NormalizedLevel(steps: seq<Step>)
  {
    forall i :: 0 <= i < |steps| ==> steps[i].Options?
  }

  /** `steps.map(...)` for one level. */
  function NormalizeLevel(steps: seq<Step>): (r: seq<Step>)
    ensures |r| == |steps|
    ensures NormalizedLevel(r)
    ensures forall i :: 0 <= i < |steps| ==> r[i] == NormalizeStep(steps[i])
  {
    seq(|steps|, i requires 0 <= i < |steps| => NormalizeStep(steps[i]))
  }

  predicate NormalizedDrill(d: Drill)
  {
    forall l :: l in d.levels && 1 <= l <= 3 ==> NormalizedLevel(d.levels[l])
  }

  /** The inner loop of normalizeDrills for one drill: levels 1 to 3, when
      present, are normalised; every other level and the flag are kept. */
  function NormalizeDrill(d: Drill): (r: Drill)
    ensures NormalizedDrill(r)
    ensures r.random == d.random
    ensures r.levels.Keys == d.levels.Keys
    ensures forall l :: l in d.levels && 1 <= l <= 3 ==> r.levels[l] == NormalizeLevel(d.levels[l])
    ensures forall l :: l in d.levels && !(1 <= l <= 3) ==> r.levels[l] == d.levels[l]
    ensures forall l :: l in d.levels ==> |r.levels[l]| == |d.levels[l]|
  {
    Drill(map l | l in d.levels :: if 1 <= l <= 3 then NormalizeLevel(d.levels[l]) else d.levels[l],
          d.random)
  }

  /** A level with no bare shot is left exactly as it is. */
  lemma {:induction false} NormalizeLevelFixes(steps: seq<Step>)
    requires NormalizedLevel(steps)
    ensures NormalizeLevel(steps) == steps
  {
    var r := NormalizeLevel(steps);
    forall i | 0 <= i < |steps| ensures r[i] == steps[i] {
      assert steps[i].Options?;
    }
  }

  /** Normalising a normalised drill changes nothing. */
  lemma {:induction false} NormalizeDrillFixes(d: Drill)
    requires NormalizedDrill(d)
    ensures NormalizeDrill(d) == d
  {
    var r := NormalizeDrill(d);
    forall l | l in d.levels ensures r.levels[l] == d.levels[l] {
      if 1 <= l <= 3 {
        NormalizeLevelFixes(d.levels[l]);
      }
    }
    assert r.levels == d.levels;
  }

  /** Applying normalizeDrills twice equals applying it once. */
  lemma NormalizeDrillIdempotent(d: Drill)
    ensures NormalizeDrill(NormalizeDrill(d)) == NormalizeDrill(d)
  {
    NormalizeDrillFixes(NormalizeDrill(d));
  }

  /** The whole of normalizeDrills: every drill except the one stored under
      `random` is normalised. */
  function NormalizeAll(drills: map<string, Drill>): (r: map<string, Drill>)
    ensures r.Keys == drills.Keys
    ensures RANDOM_KEY in drills ==> r[RANDOM_KEY] == drills[RANDOM_KEY]
    ensures forall k :: k in drills && k != RANDOM_KEY ==> r[k] == NormalizeDrill(drills[k])
    ensures forall k :: k in drills && k != RANDOM_KEY ==> NormalizedDrill(r[k])
    ensures forall k :: k in drills ==> r[k].random == drills[k].random
  {
    map k | k in drills :: if k == RANDOM_KEY then drills[k] else NormalizeDrill(drills[k])
  }

  /** The variant lists of a normalised level. */
  function VariantLists(steps: seq<Step>): (r: seq<seq<Ball>>)
    requires NormalizedLevel(steps)
    ensures |r| == |steps|
    ensures forall i :: 0 <= i < |steps| ==> steps[i] == Options(r[i])
  {
    seq(|steps|, i requires 0 <= i < |steps| => steps[i].variants)
  }

  /** Variant lists stored back as steps. */
  function AsSteps(lists: seq<seq<Ball>>): (r: seq<Step>)
    ensures |r| == |lists| && NormalizedLevel(r)
    ensures VariantLists(r) == lists
  {
    var r := seq(|lists|, i requires 0 <= i < |lists| => Options(lists[i]));
    assert VariantLists(r) == lists;
    r
  }

  /** Entry lookup by key (`findIndex(d => d.key === key)`): the first
      position holding the key, or -1. */
  function IndexOfKey(entries: seq<Entry>, key: string): (i: int)
    ensures -1 <= i < |entries|
    ensures i >= 0 ==> entries[i].key == key && forall j :: 0 <= j < i ==> entries[j].key != key
    ensures i == -1 ==> forall j :: 0 <= j < |entries| ==> entries[j].key != key
  {
    if entries == [] then -1
    else if entries[0].key == key then 0
    else
      var t := IndexOfKey(entries[1..], key);
      if t == -1 then -1 else t + 1
  }

  predicate HasKey(entries: seq<Entry>, key: string)
  {
    exists j :: 0 <= j < |entries| && entries[j].key == key
  }

  predicate DistinctKeys(entries: seq<Entry>)
  {
    forall i, j :: 0 <= i < j < |entries| ==> entries[i].key != entries[j].key
  }
}
