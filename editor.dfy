/** The drill editor of js/editor.js: a working copy of one level of one
    drill, the handlers that change the copy (typed input, clone, delete),
    the test shot, and the save that clamps every shot into the editor's
    ranges and writes the copy back into `currentDrills`. */
module Editor {
  import opened Optional
  import opened Bytes
  import opened Text
  import opened Drills
  import opened Codec
  import opened Ble
  import opened State

  /** The shot a level without data starts from. */
  const DEFAULT_BALL: Ball := Ball(1500, 3000, 50, 0.0, 50, 1)

  /** The ranges of RANGE_CONFIG in js/constants.js, one per field. */
  const TOP_MIN: int := 400
  const TOP_MAX: int := 7500
  const BOTTOM_MIN: int := 400
  const BOTTOM_MAX: int := 7500
  const HEIGHT_MIN: int := -50
  const HEIGHT_MAX: int := 100
  const DROP_MIN: real := -10.0
  const DROP_MAX: real := 10.0
  const FREQ_MIN: int := 0
  const FREQ_MAX: int := 100
  const REPS_MIN: int := 1
  const REPS_MAX: int := 200

  /** The index of the drop field, the only one that keeps a fraction. */
  const DROP_FIELD: int := 3

  /** The frequency and repeat count the test shot is packed with. */
  const TEST_FREQ: real := 50.0
  const TEST_REPS: int := 1

  /** The working copy: one list of alternative shots per step. */
  type Lists = seq<seq<Ball>>

  // ---------------------------------------------------------------------
  // Ranges and clamping

  predicate InRange(b: Ball)
  {
    && TOP_MIN <= b.top <= TOP_MAX
    && BOTTOM_MIN <= b.bottom <= BOTTOM_MAX
    && HEIGHT_MIN <= b.height <= HEIGHT_MAX
    && DROP_MIN <= b.drop <= DROP_MAX
    && FREQ_MIN <= b.freq <= FREQ_MAX
    && REPS_MIN <= b.reps <= REPS_MAX
  }

  predicate AllInRange(lists: Lists)
  {
    forall i, j :: 0 <= i < |lists| && 0 <= j < |lists[i]| ==> InRange(lists[i][j])
  }

  /** The six clamps applied to one shot. */
  function ClampBall(b: Ball): (r: Ball)
    ensures InRange(r)
    ensures InRange(b) ==> r == b
  {
    Ball(Clamp(b.top, TOP_MIN, TOP_MAX), Clamp(b.bottom, BOTTOM_MIN, BOTTOM_MAX),
         Clamp(b.height, HEIGHT_MIN, HEIGHT_MAX), ClampReal(b.drop, DROP_MIN, DROP_MAX),
         Clamp(b.freq, FREQ_MIN, FREQ_MAX), Clamp(b.reps, REPS_MIN, REPS_MAX))
  }

  /** Clamping a field moves it to the nearest end of its range and leaves
      a field inside the range alone; clamping twice is clamping once. */
  lemma ClampBallNearest(b: Ball)
    ensures ClampBall(ClampBall(b)) == ClampBall(b)
    ensures b.top < TOP_MIN ==> ClampBall(b).top == TOP_MIN
    ensures TOP_MAX < b.top ==> ClampBall(b).top == TOP_MAX
    ensures TOP_MIN <= b.top <= TOP_MAX ==> ClampBall(b).top == b.top
    ensures b.bottom < BOTTOM_MIN ==> ClampBall(b).bottom == BOTTOM_MIN
    ensures BOTTOM_MAX < b.bottom ==> ClampBall(b).bottom == BOTTOM_MAX
    ensures BOTTOM_MIN <= b.bottom <= BOTTOM_MAX ==> ClampBall(b).bottom == b.bottom
    ensures b.height < HEIGHT_MIN ==> ClampBall(b).height == HEIGHT_MIN
    ensures HEIGHT_MAX < b.height ==> ClampBall(b).height == HEIGHT_MAX
    ensures HEIGHT_MIN <= b.height <= HEIGHT_MAX ==> ClampBall(b).height == b.height
    ensures b.drop < DROP_MIN ==> ClampBall(b).drop == DROP_MIN
    ensures DROP_MAX < b.drop ==> ClampBall(b).drop == DROP_MAX
    ensures DROP_MIN <= b.drop <= DROP_MAX ==> ClampBall(b).drop == b.drop
    ensures b.freq < FREQ_MIN ==> ClampBall(b).freq == FREQ_MIN
    ensures FREQ_MAX < b.freq ==> ClampBall(b).freq == FREQ_MAX
    ensures FREQ_MIN <= b.freq <= FREQ_MAX ==> ClampBall(b).freq == b.freq
    ensures b.reps < REPS_MIN ==> ClampBall(b).reps == REPS_MIN
    ensures REPS_MAX < b.reps ==> ClampBall(b).reps == REPS_MAX
    ensures REPS_MIN <= b.reps <= REPS_MAX ==> ClampBall(b).reps == b.reps
  {
  }

  /** One step's shots, clamped. */
  function ClampStep(step: seq<Ball>): (r: seq<Ball>)
    ensures |r| == |step|
    ensures forall j :: 0 <= j < |step| ==> r[j] == ClampBall(step[j])
  {
    seq(|step|, j requires 0 <= j < |step| => ClampBall(step[j]))
  }

  /** The nested forEach of saveDrillChanges on values. */
  function ClampLists(lists: Lists): (r: Lists)
    ensures |r| == |lists|
    ensures forall i :: 0 <= i < |lists| ==> r[i] == ClampStep(lists[i])
  {
    seq(|lists|, i requires 0 <= i < |lists| => ClampStep(lists[i]))
  }

  /** After clamping every shot is inside the editor's ranges, the shape
      of the copy is kept, and a copy already inside is left as it is. */
  lemma {:induction false} ClampListsInRange(lists: Lists)
    ensures AllInRange(ClampLists(lists))
    ensures forall i :: 0 <= i < |lists| ==> |ClampLists(lists)[i]| == |lists[i]|
    ensures AllInRange(lists) ==> ClampLists(lists) == lists
  {
    var r := ClampLists(lists);
    forall i, j | 0 <= i < |r| && 0 <= j < |r[i]| ensures InRange(r[i][j]) {
      assert r[i][j] == ClampBall(lists[i][j]);
    }
    if AllInRange(lists) {
      forall i | 0 <= i < |lists| ensures r[i] == lists[i] {
        forall j | 0 <= j < |lists[i]| ensures r[i][j] == lists[i][j] {
          assert InRange(lists[i][j]);
        }
      }
    }
  }

  // ---------------------------------------------------------------------
  // Opening and saving

  /** The deep copy a level is edited as. */
  function Working(steps: seq<Step>): (r: Lists)
    ensures |r| == |steps|
  {
    VariantLists(NormalizeLevel(steps))
  }

  /** A normalised level stored back from its copy is the same level. */
  lemma WorkingRoundTrip(steps: seq<Step>)
    requires NormalizedLevel(steps)
    ensures Working(steps) == VariantLists(steps)
    ensures AsSteps(Working(steps)) == steps
  {
    NormalizeLevelFixes(steps);
    var r := Working(steps);
    var a := AsSteps(r);
    forall i | 0 <= i < |steps| ensures a[i] == steps[i] {
      assert steps[i] == Options(r[i]);
    }
  }

  /** What openEditor edits: the level's steps when the drill has the
      level, one default shot otherwise. */
  function Opened(drills: map<string, Drill>, key: string, level: int): (r: Lists)
    ensures |r| >= 1 || (key in drills && level in drills[key].levels && drills[key].levels[level] == [])
    ensures (key !in drills || level !in drills[key].levels) ==> r == [[DEFAULT_BALL]]
  {
    if key in drills && level in drills[key].levels then Working(drills[key].levels[level])
    else [[DEFAULT_BALL]]
  }

  /** The drill saveDrillChanges writes: the selected level replaced by
      the clamped copy, the flag taken from the checkbox when there is
      one. */
  function SavedDrill(d: Drill, level: int, lists: Lists, checkbox: Option<bool>): (r: Drill)
    ensures r.levels.Keys == d.levels.Keys + {level}
    ensures forall l :: l in d.levels && l != level ==> r.levels[l] == d.levels[l]
    ensures NormalizedLevel(r.levels[level]) && |r.levels[level]| == |lists|
    ensures r.random == (if checkbox.Some? then checkbox.value else d.random)
  {
    Drill(d.levels[level := AsSteps(ClampLists(lists))],
          if checkbox.Some? then checkbox.value else d.random)
  }

  /** Saving replaces exactly the selected level, with shots that are all
      inside the editor's ranges and in the copy's shape. */
  lemma SavedDrillLevels(d: Drill, level: int, lists: Lists, checkbox: Option<bool>)
    ensures SavedDrill(d, level, lists, checkbox).levels.Keys == d.levels.Keys + {level}
    ensures forall l :: l in d.levels && l != level ==> SavedDrill(d, level, lists, checkbox).levels[l] == d.levels[l]
    ensures NormalizedLevel(SavedDrill(d, level, lists, checkbox).levels[level])
    ensures AllInRange(VariantLists(SavedDrill(d, level, lists, checkbox).levels[level]))
    ensures |SavedDrill(d, level, lists, checkbox).levels[level]| == |lists|
    ensures checkbox.None? ==> SavedDrill(d, level, lists, checkbox).random == d.random
  {
    ClampListsInRange(lists);
  }

  /** Opening a level and saving it with no edit, the checkbox showing the
      drill's flag, gives back the same drill when its shots were already
      inside the ranges. */
  lemma OpenSaveRoundTrip(drills: map<string, Drill>, key: string, level: int)
    requires key in drills && level in drills[key].levels
    requires NormalizedLevel(drills[key].levels[level])
    requires AllInRange(VariantLists(drills[key].levels[level]))
    ensures SavedDrill(drills[key], level, Opened(drills, key, level), Some(drills[key].random)) == drills[key]
  {
    var d := drills[key];
    var steps := d.levels[level];
    var lists := Opened(drills, key, level);
    assert lists == Working(steps);
    WorkingRoundTrip(steps);
    ClampListsInRange(lists);
    assert AsSteps(ClampLists(lists)) == steps;
    assert d.levels[level := steps] == d.levels;
  }

  // ---------------------------------------------------------------------
  // Typed input

  /** Field `p` of a shot, in the order [top, bottom, height, drop, freq, reps]. */
  function Field(b: Ball, p: int): real
    requires 0 <= p < 6
  {
    if p == 0 then b.top as real
    else if p == 1 then b.bottom as real
    else if p == 2 then b.height as real
    else if p == 3 then b.drop
    else if p == 4 then b.freq as real
    else b.reps as real
  }

  /** The shot with the whole-number field `p` (not the drop) set to `n`. */
  function WithInt(b: Ball, p: int, n: int): Ball
    requires 0 <= p < 6 && p != DROP_FIELD
  {
    if p == 0 then b.(top := n)
    else if p == 1 then b.(bottom := n)
    else if p == 2 then b.(height := n)
    else if p == 4 then b.(freq := n)
    else b.(reps := n)
  }

  /** What handleEditorInput makes of typed text for field `p`: nothing when
      parseFloat gives NaN, the fractional value for the drop, and parseInt
      of the text for the other fields. */
  function Entered(b: Ball, p: int, value: string): Option<Ball>
    requires 0 <= p < 6
  {
    Typed(b, p, ParseFloat(value), ParseInt(value))
  }

  /** The input given the text's parseFloat `x` and parseInt `n`. */
  function Typed(b: Ball, p: int, x: Option<real>, n: Option<int>): Option<Ball>
    requires 0 <= p < 6
  {
    match x
    case None => None
    case Some(v) =>
      if p == DROP_FIELD then Some(b.(drop := v))
      else
        match n
        case None => None
        case Some(k) => Some(WithInt(b, p, k))
  }

  lemma TypedReadsBack(b: Ball, p: int, x: Option<real>, n: Option<int>)
    requires 0 <= p < 6
    ensures Typed(b, p, x, n).None? <==> x.None? || (p != DROP_FIELD && n.None?)
    ensures Typed(b, p, x, n).Some? && p == DROP_FIELD ==> Field(Typed(b, p, x, n).value, p) == x.value
    ensures Typed(b, p, x, n).Some? && p != DROP_FIELD ==> Field(Typed(b, p, x, n).value, p) == n.value as real
    ensures Typed(b, p, x, n).Some? ==>
              forall q :: 0 <= q < 6 && q != p ==> Field(Typed(b, p, x, n).value, q) == Field(b, q)
  {
  }

  /** Input is ignored exactly when the text does not read as a number for
      its field; otherwise the field reads back as the parsed number and the
      other five are kept. */
  lemma EnteredReadsBack(b: Ball, p: int, value: string)
    requires 0 <= p < 6
    ensures Entered(b, p, value).None? <==>
              ParseFloat(value).None? || (p != DROP_FIELD && ParseInt(value).None?)
    ensures Entered(b, p, value).Some? && p == DROP_FIELD ==>
              Field(Entered(b, p, value).value, p) == ParseFloat(value).value
    ensures Entered(b, p, value).Some? && p != DROP_FIELD ==>
              Field(Entered(b, p, value).value, p) == ParseInt(value).value as real
    ensures Entered(b, p, value).Some? ==>
              forall q :: 0 <= q < 6 && q != p ==> Field(Entered(b, p, value).value, q) == Field(b, q)
  {
    TypedReadsBack(b, p, ParseFloat(value), ParseInt(value));
  }

  /** The copy after an input into cell (s, o), field p. */
  function Edited(lists: Lists, s: nat, o: nat, p: int, value: string): (r: Lists)
    requires s < |lists| && o < |lists[s]| && 0 <= p < 6
    ensures |r| == |lists| && forall i :: 0 <= i < |lists| ==> |r[i]| == |lists[i]|
    ensures forall i, j :: 0 <= i < |lists| && 0 <= j < |lists[i]| && (i, j) != (s, o) ==> r[i][j] == lists[i][j]
  {
    match Entered(lists[s][o], p, value)
    case None => lists
    case Some(b) => lists[s := lists[s][o := b]]
  }

  /** An input changes the addressed shot and no other, and keeps the
      copy's shape. */
  lemma EditedOnlyCell(lists: Lists, s: nat, o: nat, p: int, value: string)
    requires s < |lists| && o < |lists[s]| && 0 <= p < 6
    ensures |Edited(lists, s, o, p, value)| == |lists|
    ensures forall i :: 0 <= i < |lists| ==> |Edited(lists, s, o, p, value)[i]| == |lists[i]|
    ensures forall i, j :: 0 <= i < |lists| && 0 <= j < |lists[i]| && (i, j) != (s, o) ==>
              Edited(lists, s, o, p, value)[i][j] == lists[i][j]
    ensures Entered(lists[s][o], p, value).Some? ==>
              Edited(lists, s, o, p, value)[s][o] == Entered(lists[s][o], p, value).value
    ensures Entered(lists[s][o], p, value).None? ==> Edited(lists, s, o, p, value) == lists
  {
  }

  // ---------------------------------------------------------------------
  // Clone and delete

  /** The number of shots in the copy. */
  function BallCount(lists: Lists): nat
  {
    if lists == [] then 0 else |lists[0]| + BallCount(lists[1..])
  }

  lemma {:induction false} BallCountAppend(a: Lists, b: Lists)
    ensures BallCount(a + b) == BallCount(a) + BallCount(b)
  {
    if a == [] {
      assert a + b == b;
    } else {
      assert (a + b)[1..] == a[1..] + b;
      BallCountAppend(a[1..], b);
    }
  }

  /** handleCloneBall on values: a one-shot step holding a copy of shot
      (s, o) inserted right after step s. */
  function Cloned(lists: Lists, s: nat, o: nat): (r: Lists)
    requires s < |lists| && o < |lists[s]|
    ensures |r| == |lists| + 1
    ensures r[s + 1] == [lists[s][o]]
    ensures forall i :: 0 <= i <= s ==> r[i] == lists[i]
    ensures forall i :: s + 1 < i < |r| ==> r[i] == lists[i - 1]
  {
    lists[..s + 1] + [[lists[s][o]]] + lists[s + 1..]
  }

  /** A clone adds exactly one shot. */
  lemma ClonedCount(lists: Lists, s: nat, o: nat)
    requires s < |lists| && o < |lists[s]|
    ensures BallCount(Cloned(lists, s, o)) == BallCount(lists) + 1
  {
    BallCountAppend(lists[..s + 1] + [[lists[s][o]]], lists[s + 1..]);
    BallCountAppend(lists[..s + 1], [[lists[s][o]]]);
    BallCountAppend(lists[..s + 1], lists[s + 1..]);
    assert lists[..s + 1] + lists[s + 1..] == lists;
    assert BallCount([[lists[s][o]]]) == 1 by {
      assert [[lists[s][o]]][1..] == [];
    }
  }

  /** The refusal of handleDeleteBall: one step holding at most one shot. */
  predicate LastBall(lists: Lists)
    requires |lists| >= 1
  {
    |lists| <= 1 && |lists[0]| <= 1
  }

  /** handleDeleteBall on values: shot (s, o) removed, and step s removed
      with it when it has no shot left. */
  function Deleted(lists: Lists, s: nat, o: nat): (r: Lists)
    requires s < |lists| && o < |lists[s]|
    ensures |lists[s]| > 1 ==> |r| == |lists| && |r[s]| == |lists[s]| - 1
    ensures |lists[s]| == 1 ==> |r| == |lists| - 1
    ensures forall i :: 0 <= i < s ==> r[i] == lists[i]
  {
    var step := lists[s][..o] + lists[s][o + 1..];
    if step == [] then lists[..s] + lists[s + 1..] else lists[s := step]
  }

  /** A delete that is not refused removes exactly one shot, never leaves
      the copy without a step, and keeps every other step in order. */
  lemma DeletedKeepsOne(lists: Lists, s: nat, o: nat)
    requires s < |lists| && o < |lists[s]| && !LastBall(lists)
    ensures |Deleted(lists, s, o)| >= 1
    ensures BallCount(Deleted(lists, s, o)) + 1 == BallCount(lists)
    ensures |lists[s]| > 1 ==>
              && |Deleted(lists, s, o)| == |lists|
              && forall i :: 0 <= i < |lists| && i != s ==> Deleted(lists, s, o)[i] == lists[i]
    ensures |lists[s]| == 1 ==> Deleted(lists, s, o) == lists[..s] + lists[s + 1..]
  {
    var step := lists[s][..o] + lists[s][o + 1..];
    assert |step| == |lists[s]| - 1;
    assert lists == lists[..s] + [lists[s]] + lists[s + 1..];
    BallCountAppend(lists[..s] + [lists[s]], lists[s + 1..]);
    BallCountAppend(lists[..s], [lists[s]]);
    assert BallCount([lists[s]]) == |lists[s]| by {
      assert [lists[s]][1..] == [];
    }
    if step == [] {
      BallCountAppend(lists[..s], lists[s + 1..]);
    } else {
      var r := lists[s := step];
      assert r == lists[..s] + [step] + lists[s + 1..];
      BallCountAppend(lists[..s] + [step], lists[s + 1..]);
      BallCountAppend(lists[..s], [step]);
      assert BallCount([step]) == |step| by {
        assert [step][1..] == [];
      }
    }
  }

  /** Deleting the shot a clone just inserted gives back the copy as it was. */
  lemma DeleteUndoesClone(lists: Lists, s: nat, o: nat)
    requires s < |lists| && o < |lists[s]|
    ensures Deleted(Cloned(lists, s, o), s + 1, 0) == lists
  {
    var c := Cloned(lists, s, o);
    assert c[s + 1][..0] + c[s + 1][1..] == [];
    assert c[..s + 1] == lists[..s + 1];
    assert c[s + 2..] == lists[s + 1..];
    assert lists[..s + 1] + lists[s + 1..] == lists;
  }

  // ---------------------------------------------------------------------
  // The test shot

  /** packBall(d[0], d[1], d[2], d[3], 50, 1) for a shot of the copy. */
  function TestRecord(b: Ball, f32: real -> Quad): (r: seq<byte>)
    ensures |r| == 24
    ensures DecodeLE32(r[0..4]) == Clamp(b.top, RPM_MIN, RPM_MAX)
    ensures DecodeLE32(r[4..8]) == Clamp(b.bottom, RPM_MIN, RPM_MAX)
    ensures DecodeLE32(r[20..24]) == TEST_REPS
  {
    PackBall(b.top, b.bottom, b.height as real, b.drop, TEST_FREQ, TEST_REPS, f32)
  }

  /** `new Uint8Array([record])`: a one-element array whose element, the
      record, is converted to a number through its text (the octets joined
      with commas). That text reads as a number only for a record of at
      most one octet; any longer record reads as NaN, stored as the octet 0. */
  function WrittenTestPacket(record: seq<byte>): (r: seq<byte>)
    ensures |r| == 1
    ensures |record| == 1 ==> r == record
    ensures |record| != 1 ==> r == [0]
  {
    if |record| == 1 then [record[0]] else [0]
  }

  /** The packet the test button sends, as written, is neither the
      24-octet record nor a framed one-shot packet. */
  lemma TestPacketLosesRecord(b: Ball, f32: real -> Quad)
    ensures WrittenTestPacket(TestRecord(b, f32)) != TestRecord(b, f32)
    ensures WrittenTestPacket(TestRecord(b, f32)) != Frame([TestRecord(b, f32)])
  {
    assert |Frame([TestRecord(b, f32)])| >= |Header(1)|;
  }

  /** The packet the test button evidently means to send: the shot framed
      as a one-shot sequence, as the runner frames its shots. */
  function IntendedTestPacket(b: Ball, f32: real -> Quad): seq<byte>
  {
    Frame([TestRecord(b, f32)])
  }

  /** A one-record frame: the 7-octet header for one shot, then the record. */
  lemma OneShotFrame(rec: seq<byte>)
    requires |rec| == 24
    ensures |Frame([rec])| == 31
    ensures Frame([rec])[0] == 0x81
    ensures DecodeLE16(Frame([rec])[1..3]) == 28
    ensures Frame([rec])[7..31] == rec
  {
    var none: seq<seq<byte>> := [];
    assert [rec][..0] == none;
    assert Flatten([rec]) == rec;
    LE16RoundTrip(28);
    assert Frame([rec])[1..3] == LE16(28);
  }

  /** The intended test packet carries the 0x81 command, a payload length
      of 28, and the shot with its clamped speeds and a repeat count of 1. */
  lemma IntendedTestPacketFields(b: Ball, f32: real -> Quad)
    ensures |IntendedTestPacket(b, f32)| == 31
    ensures IntendedTestPacket(b, f32)[0] == 0x81
    ensures DecodeLE16(IntendedTestPacket(b, f32)[1..3]) == 28
    ensures IntendedTestPacket(b, f32)[7..31] == TestRecord(b, f32)
    ensures DecodeLE32(IntendedTestPacket(b, f32)[7..11]) == Clamp(b.top, RPM_MIN, RPM_MAX)
    ensures DecodeLE32(IntendedTestPacket(b, f32)[27..31]) == TEST_REPS
  {
    var rec := TestRecord(b, f32);
    var p := IntendedTestPacket(b, f32);
    OneShotFrame(rec);
    assert p[7..11] == rec[0..4];
    assert p[27..31] == rec[20..24];
  }

  // ---------------------------------------------------------------------
  // The editor's module state

  /** Outcome of saveDrillChanges. */
  datatype SaveOutcome = Skipped | Saved | Thrown

  class Editor {
    /** currentDrills and selectedLevel. */
    const store: Store
    /** bleState and sendPacket. */
    const link: Link
    /** The float32 rendering packBall uses. */
    const f32: real -> Quad
    /** editingDrillKey; `None` is null. */
    var editingKey: Option<string>
    /** tempDrillData; `None` is null. */
    var temp: Option<Lists>

    constructor(store0: Store, link0: Link, f320: real -> Quad)
      ensures store == store0 && link == link0 && f32 == f320
      ensures editingKey.None? && temp.None?
    {
      store, link, f32 := store0, link0, f320;
      editingKey, temp := None, None;
    }

    /** openEditor: the key is recorded first; reading the drill's flag
        into the checkbox throws when the drill does not exist; otherwise
        the copy is taken. `checkbox` says whether the page has the
        checkbox. */
    method OpenEditor(key: string, checkbox: bool) returns (ok: bool)
      modifies `editingKey, `temp
      ensures editingKey == Some(key)
      ensures ok <==> !checkbox || key in store.drills
      ensures ok ==> temp == Some(Opened(store.drills, key, store.selectedLevel))
      ensures !ok ==> temp == old(temp)
    {
      editingKey := Some(key);
      if checkbox && key !in store.drills {
        return false;
      }
      temp := Some(Opened(store.drills, key, store.selectedLevel));
      ok := true;
    }

    /** closeEditor. */
    method CloseEditor()
      modifies `editingKey, `temp
      ensures editingKey.None? && temp.None?
    {
      editingKey, temp := None, None;
    }

    /** The nested forEach of saveDrillChanges, clamping the copy in
        place. */
    method ClampWorking()
      requires temp.Some?
      modifies `temp
      ensures temp == Some(ClampLists(old(temp).value))
    {
      var lists := temp.value;
      ghost var lists0 := lists;
      var i := 0;
      while i < |lists|
        invariant 0 <= i <= |lists| == |lists0|
        invariant forall k :: 0 <= k < i ==> lists[k] == ClampStep(lists0[k])
        invariant forall k :: i <= k < |lists| ==> lists[k] == lists0[k]
      {
        var step := lists[i];
        var j := 0;
        while j < |step|
          invariant 0 <= j <= |step| == |lists0[i]|
          invariant forall k :: 0 <= k < j ==> step[k] == ClampBall(lists0[i][k])
          invariant forall k :: j <= k < |step| ==> step[k] == lists0[i][k]
        {
          step := step[j := ClampBall(step[j])];
          j := j + 1;
        }
        assert step == ClampStep(lists0[i]);
        lists := lists[i := step];
        i := i + 1;
      }
      assert lists == ClampLists(lists0);
      temp := Some(lists);
    }

    /** The guard of saveDrillChanges: an edited key that is not empty and
        a working copy. */
    predicate Editing()
      reads this
    {
      editingKey.Some? && editingKey.value != "" && temp.Some?
    }

    /** saveDrillChanges: nothing without an edited key and a copy; the
        flag is taken from the checkbox (`None` when the page has none),
        every shot is clamped, the selected level is replaced by the copy
        and the editor closes. Writing into a drill that no longer exists
        throws, at the flag when there is a checkbox and at the level
        otherwise, after the clamping. */
    method SaveDrillChanges(checkbox: Option<bool>) returns (outcome: SaveOutcome)
      modifies `editingKey, `temp, store`drills
      ensures outcome == Skipped <==> !old(Editing())
      ensures outcome == Thrown <==> old(Editing()) && old(editingKey).value !in old(store.drills)
      ensures outcome != Saved ==> store.drills == old(store.drills) && editingKey == old(editingKey)
      ensures outcome == Skipped || (outcome == Thrown && checkbox.Some?) ==> temp == old(temp)
      ensures outcome == Thrown && checkbox.None? ==> temp == Some(ClampLists(old(temp).value))
      ensures outcome == Saved ==>
                var k := old(editingKey).value;
                store.drills == old(store.drills)[k := SavedDrill(old(store.drills)[k], store.selectedLevel, old(temp).value, checkbox)]
      ensures outcome == Saved ==> editingKey.None? && temp.None?
    {
      if !Editing() {
        return Skipped;
      }
      var key := editingKey.value;
      if checkbox.Some? {
        if key !in store.drills {
          return Thrown;
        }
        store.drills := store.drills[key := store.drills[key].(random := checkbox.value)];
      }
      ghost var lists0 := temp.value;
      ClampWorking();
      if key !in store.drills {
        return Thrown;
      }
      var d := store.drills[key];
      store.drills := store.drills[key := d.(levels := d.levels[store.selectedLevel := AsSteps(temp.value)])];
      CloseEditor();
      outcome := Saved;
    }

    /** Whether (s, o) names a shot of the copy. */
    predicate Addresses(s: nat, o: nat)
      reads this
    {
      temp.Some? && s < |temp.value| && o < |temp.value[s]|
    }

    /** handleEditorInput for the input of field `p` of shot (s, o). */
    method HandleEditorInput(s: nat, o: nat, p: int, value: string)
      requires 0 <= p < 6
      requires temp.Some? ==> Addresses(s, o)
      modifies `temp
      ensures old(temp).None? ==> temp.None?
      ensures old(temp).Some? ==> temp == Some(Edited(old(temp).value, s, o, p, value))
    {
      if temp.None? {
        return;
      }
      var val := ParseFloat(value);
      if val.None? {
        return;
      }
      var lists := temp.value;
      var b := lists[s][o];
      if p != DROP_FIELD {
        var n := ParseInt(value);
        if n.None? {
          return;
        }
        b := WithInt(b, p, n.value);
      } else {
        b := b.(drop := val.value);
      }
      temp := Some(lists[s := lists[s][o := b]]);
    }

    /** handleCloneBall. */
    method HandleCloneBall(s: nat, o: nat)
      requires Addresses(s, o)
      modifies `temp
      ensures temp == Some(Cloned(old(temp).value, s, o))
    {
      var lists := temp.value;
      var copy := lists[s][o];
      temp := Some(lists[..s + 1] + [[copy]] + lists[s + 1..]);
    }

    /** handleDeleteBall: refused for the last shot of a one-step copy. */
    method HandleDeleteBall(s: nat, o: nat) returns (refused: bool)
      requires Addresses(s, o)
      modifies `temp
      ensures refused == LastBall(old(temp).value)
      ensures temp == Some(if refused then old(temp).value else Deleted(old(temp).value, s, o))
    {
      var lists := temp.value;
      if |lists| <= 1 && |lists[0]| <= 1 {
        return true;
      }
      var step := lists[s][..o] + lists[s][o + 1..];
      if step == [] {
        temp := Some(lists[..s] + lists[s + 1..]);
      } else {
        temp := Some(lists[s := step]);
      }
      refused := false;
    }

    /** handleTestBall: nothing when not connected; otherwise the shot is
        packed with frequency 50 and one repeat and handed to sendPacket
        wrapped in an array, which writes the single octet 0. `sent` is
        false when sendPacket rejects. */
    method HandleTestBall(s: nat, o: nat) returns (sent: bool)
      requires link.isConnected ==> Addresses(s, o)
      modifies link`outbox
      ensures !link.isConnected ==> !sent && link.outbox == old(link.outbox)
      ensures link.isConnected ==> sent == link.writeChar
      ensures link.isConnected ==>
                link.outbox == old(link.outbox) +
                  (if sent then [WrittenTestPacket(TestRecord(temp.value[s][o], f32))] else [])
    {
      if !link.isConnected {
        return false;
      }
      var ballData := TestRecord(temp.value[s][o], f32);
      sent := link.SendPacket(WrittenTestPacket(ballData));
    }
  }
}
