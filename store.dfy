/** The module state of js/state.js (`currentDrills`, `userCustomDrills`,
    `selectedLevel`, `runMode`, `appStats`) as one object, with the
    operations that rewrite it: step normalisation, the statistics reset,
    and CSV import and export. */
module State {
  import opened Optional
  import opened Text
  import opened Drills
  import opened Csv

  datatype Mode = Reps | Time

  /** The inner loop of normalizeDrills for one drill: levels 1 to 3, when
      present, have their steps normalised. */
  method NormalizeLevels(drill: Drill) returns (r: Drill)
    ensures r == NormalizeDrill(drill)
  {
    r := drill;
    var lvl := 1;
    while lvl <= 3
      invariant 1 <= lvl <= 4
      invariant r.random == drill.random && r.levels.Keys == drill.levels.Keys
      invariant forall l :: l in drill.levels ==>
                  r.levels[l] == if 1 <= l < lvl then NormalizeLevel(drill.levels[l]) else drill.levels[l]
    {
      if lvl in r.levels {
        r := r.(levels := r.levels[lvl := NormalizeLevel(r.levels[lvl])]);
      }
      lvl := lvl + 1;
    }
    assert r.levels == NormalizeDrill(drill).levels;
  }

  /** The outer loop of normalizeDrills: every key but `random`, one at a
      time, has its drill's levels rewritten. */
  method NormalizeEvery(drills: map<string, Drill>) returns (r: map<string, Drill>)
    ensures r == NormalizeAll(drills)
  {
    var target := NormalizeAll(drills);
    r := drills;
    var pending := drills.Keys;
    while pending != {}
      invariant pending <= drills.Keys
      invariant r.Keys == drills.Keys
      invariant forall k :: k in r ==> r[k] == if k in pending then drills[k] else target[k]
      decreases |pending|
    {
      NonEmptyHasElement(pending);
      var key :| key in pending;
      if key != RANDOM_KEY {
        var d := NormalizeLevels(r[key]);
        r := r[key := d];
      }
      pending := pending - {key};
    }
    assert r == target;
  }

  class Store {
    /** currentDrills: every drill by key. */
    var drills: map<string, Drill>
    /** userCustomDrills: the three custom banks. */
    var banks: map<Bank, seq<Entry>>
    /** drillOrder: per category, the order of its drill keys. It is
        imported from js/state.js but not defined there, so it is plain
        state here. */
    var order: map<string, seq<string>>
    var selectedLevel: int
    var mode: Mode
    /** appStats.balls and appStats.drills. */
    var balls: int
    var drillsRun: int

    /** The state after initData has read `drills0` and `banks0`. */
    constructor(drills0: map<string, Drill>, banks0: map<Bank, seq<Entry>>)
      ensures drills == drills0 && banks == banks0 && order == map[]
      ensures selectedLevel == 1 && mode == Reps && balls == 0 && drillsRun == 0
    {
      drills := drills0;
      banks := banks0;
      order := map[];
      selectedLevel := 1;
      mode := Reps;
      balls := 0;
      drillsRun := 0;
    }

    /** normalizeDrills: every drill but the `random` entry gets its steps
        wrapped; nothing else changes. */
    method NormalizeDrills()
      modifies `drills
      ensures drills == NormalizeAll(old(drills))
      ensures banks == old(banks) && order == old(order) && selectedLevel == old(selectedLevel)
      ensures mode == old(mode) && balls == old(balls) && drillsRun == old(drillsRun)
    {
      drills := NormalizeEvery(drills);
    }

    /** resetStats, after the user answered the confirmation. */
    method ResetStats(confirmed: bool)
      modifies `balls, `drillsRun
      ensures confirmed ==> balls == 0 && drillsRun == 0
      ensures !confirmed ==> balls == old(balls) && drillsRun == old(drillsRun)
      ensures drills == old(drills) && banks == old(banks) && order == old(order)
      ensures selectedLevel == old(selectedLevel) && mode == old(mode)
    {
      if confirmed {
        balls := 0;
        drillsRun := 0;
      }
    }

    /** importCustomDrills: drop the drills the banks list, read the lines,
        then store the collected drills and banks. */
    method ImportCustomDrills(text: string) returns (ok: bool)
      modifies `drills, `banks
      ensures ok
      ensures (drills, banks) == ImportResult(old(drills), old(banks), text)
      ensures order == old(order) && selectedLevel == old(selectedLevel)
      ensures mode == old(mode) && balls == old(balls) && drillsRun == old(drillsRun)
    {
      var d, b := ImportText(drills, banks, text);
      Replace(d, b);
      ok := true;
    }

    /** Replaces the stored drills and banks, and nothing else. */
    method Replace(d: map<string, Drill>, b: map<Bank, seq<Entry>>)
      modifies `drills, `banks
      ensures drills == d && banks == b
      ensures order == old(order) && selectedLevel == old(selectedLevel)
      ensures mode == old(mode) && balls == old(balls) && drillsRun == old(drillsRun)
    {
      drills, banks := d, b;
    }

    /** exportCustomDrills: the text of the downloaded file. */
    method ExportCustomDrills(fmt: real -> string) returns (text: string)
      ensures text == ExportText(banks, drills, fmt)
    {
      text := HEADER;
      for c := 0 to |CATEGORIES|
        invariant text == HEADER + CategoriesRows(CATEGORIES[..c], banks, drills, fmt)
      {
        var cat := CATEGORIES[c];
        if cat in banks && |banks[cat]| > 0 {
          text := AppendBank(text, cat, banks[cat], drills, fmt);
        }
        assert CATEGORIES[..c + 1][..c] == CATEGORIES[..c];
        ConcatAssoc(HEADER, CategoriesRows(CATEGORIES[..c], banks, drills, fmt),
                    if cat in banks then BankRows(cat, banks[cat], drills, fmt) else "");
      }
      assert CATEGORIES[..|CATEGORIES|] == CATEGORIES;
    }
  }

  /** The body of importCustomDrills on the values of `currentDrills` and
      `userCustomDrills`: delete the listed drills, read the lines, store
      the collected drills. */
  method ImportText(drills: map<string, Drill>, banks: map<Bank, seq<Entry>>, text: string)
    returns (drills': map<string, Drill>, banks': map<Bank, seq<Entry>>)
    ensures (drills', banks') == ImportResult(drills, banks, text)
  {
    var lines := SplitLines(text);
    var kept := RemoveBankDrills(drills, banks);
    var b := CollectLines(lines);
    drills' := Finalize(kept, b.groups);
    banks' := b.banks;
    ImportIntoUnique(drills, banks, b, drills');
  }

  /** Deletes every key one bank lists. */
  method RemoveKeys(drills: map<string, Drill>, list: seq<Entry>) returns (r: map<string, Drill>)
    ensures r == drills - set i | 0 <= i < |list| :: list[i].key
  {
    r := drills;
    for j := 0 to |list|
      invariant r == drills - set i | 0 <= i < j :: list[i].key
    {
      if list[j].key in r {
        r := r - {list[j].key};
      }
      assert (set i | 0 <= i < j + 1 :: list[i].key) == (set i | 0 <= i < j :: list[i].key) + {list[j].key};
    }
  }

  /** The first loop of importCustomDrills: every drill listed in a bank is
      deleted. */
  method RemoveBankDrills(drills: map<string, Drill>, banks: map<Bank, seq<Entry>>) returns (r: map<string, Drill>)
    ensures r == drills - BankKeys(banks)
  {
    r := drills;
    var cats := banks.Keys;
    ghost var removed: set<string> := {};
    while cats != {}
      invariant cats <= banks.Keys
      invariant r == drills - removed
      invariant removed == set b, i | b in banks && b !in cats && 0 <= i < |banks[b]| :: banks[b][i].key
      decreases |cats|
    {
      NonEmptyHasElement(cats);
      var cat :| cat in cats;
      var list := banks[cat];
      r := RemoveKeys(r, list);
      removed := removed + set i | 0 <= i < |list| :: list[i].key;
      cats := cats - {cat};
    }
  }

  /** The forEach over the lines. */
  method CollectLines(lines: seq<string>) returns (b: Builder)
    ensures b == Collect(lines)
  {
    NoEntriesComplete();
    var entries := NO_ENTRIES;
    var groups: map<string, map<real, seq<Ball>>> := map[];
    for i := 0 to |lines|
      invariant Builder(entries, groups) == Collect(lines[..i])
    {
      CollectStep(lines, i);
      match ParseRow(lines[i]) {
        case None =>
        case Some(row) => entries, groups := AddLine(entries, groups, row);
      }
    }
    assert lines[..|lines|] == lines;
    b := Builder(entries, groups);
  }

  /** The body of that forEach for an accepted line: the first line of a
      key adds its entry to the bank unless the bank is full or already
      lists the key; the shot is appended to its Ball number's group. */
  method AddLine(entries: map<Bank, seq<Entry>>, groups: map<string, map<real, seq<Ball>>>, row: Row)
    returns (entries': map<Bank, seq<Entry>>, groups': map<string, map<real, seq<Ball>>>)
    requires Complete(entries)
    ensures Builder(entries', groups') == AddRow(Builder(entries, groups), row)
  {
    entries', groups' := entries, groups;
    var key := Key(row);
    if key !in groups' {
      var listed := HasKey(entries'[row.bank], key);
      if !listed && |entries'[row.bank]| < BANK_CAPACITY {
        entries' := entries'[row.bank := entries'[row.bank] + [Entry(row.name, key)]];
      }
      groups' := groups'[key := map[]];
    }
    var prev := if row.ballNum in groups'[key] then groups'[key][row.ballNum] else [];
    groups' := groups'[key := groups'[key][row.ballNum := prev + [row.params]]];
  }

  /** The finalising loop: each collected key becomes a drill whose three
      levels hold its groups in ascending Ball order. */
  method Finalize(kept: map<string, Drill>, groups: map<string, map<real, seq<Ball>>>) returns (r: map<string, Drill>)
    ensures forall k :: k in r <==> k in kept || k in groups
    ensures forall k :: k in r ==> r[k] == if k in groups then ImportedDrill(groups[k]) else kept[k]
  {
    r := kept;
    var pending := groups.Keys;
    while pending != {}
      invariant pending <= groups.Keys
      invariant forall k :: k in r <==> k in kept || (k in groups && k !in pending)
      invariant forall k :: k in r ==> r[k] == if k in groups && k !in pending then ImportedDrill(groups[k]) else kept[k]
      decreases |pending|
    {
      NonEmptyHasElement(pending);
      var key :| key in pending;
      var d := BuildDrill(groups[key]);
      r := r[key := d];
      pending := pending - {key};
    }
  }



  /** The inner loop of the finalising step: levels 1 to 3 each get the
      groups in ascending Ball order. */
  method BuildDrill(g: map<real, seq<Ball>>) returns (d: Drill)
    ensures d == ImportedDrill(g)
  {
    var levels: map<int, seq<Step>> := map[];
    for lvl := 1 to 4
      invariant levels == LevelsUpTo(lvl, g)
    {
      levels := levels[lvl := LevelOf(g)];
    }
    ghost var level := LevelOf(g);
    assert LevelsUpTo(2, g) == map[1 := level];
    assert LevelsUpTo(3, g) == map[1 := level, 2 := level];
    assert levels == map[1 := level, 2 := level, 3 := level];
    d := Drill(levels, false);
  }

  /** Levels 1 up to `lvl - 1` of an imported drill. */
  function LevelsUpTo(lvl: int, g: map<real, seq<Ball>>): map<int, seq<Step>>
    requires 1 <= lvl <= 4
  {
    if lvl == 1 then map[]
    else LevelsUpTo(lvl - 1, g)[lvl - 1 := LevelOf(g)]
  }

  /** The rows of one bank appended to `text`. */
  method AppendBank(text: string, cat: Bank, list: seq<Entry>, drills: map<string, Drill>, fmt: real -> string)
    returns (out: string)
    ensures out == text + BankRows(cat, list, drills, fmt)
  {
    out := text;
    for e := 0 to |list|
      invariant out == text + BankRows(cat, list[..e], drills, fmt)
    {
      out := AppendEntry(out, Letter(cat), list[e], drills, fmt);
      assert list[..e + 1][..e] == list[..e];
      ConcatAssoc(text, BankRows(cat, list[..e], drills, fmt), EntryRows(Letter(cat), list[e], drills, fmt));
    }
    assert list[..|list|] == list;
  }

  /** The rows of one entry: level 1 of its drill, step by step, with
      1-based Ball numbers. */
  method AppendEntry(text: string, letter: char, entry: Entry, drills: map<string, Drill>, fmt: real -> string)
    returns (out: string)
    ensures out == text + EntryRows(letter, entry, drills, fmt)
  {
    out := text;
    if entry.key in drills && 1 in drills[entry.key].levels {
      out := AppendLevel(text, letter, entry.name, drills[entry.key].levels[1], fmt);
    }
  }

  /** The steps of a level in order, step s with Ball number s + 1. */
  method AppendLevel(text: string, letter: char, name: string, sequence: seq<Step>, fmt: real -> string)
    returns (out: string)
    ensures out == text + LevelRows(letter, name, sequence, fmt)
  {
    out := text;
    for s := 0 to |sequence|
      invariant out == text + LevelRows(letter, name, sequence[..s], fmt)
    {
      out := AppendStep(out, letter, s + 1, name, sequence[s], fmt);
      assert sequence[..s + 1][..s] == sequence[..s];
      ConcatAssoc(text, LevelRows(letter, name, sequence[..s], fmt),
                  StepRows(letter, s + 1, name, sequence[s], fmt));
    }
    assert sequence[..|sequence|] == sequence;
  }

  /** The rows of one step appended to `text`: one per element of the
      step's array. */
  method AppendStep(text: string, letter: char, ballNum: int, name: string, step: Step, fmt: real -> string)
    returns (out: string)
    ensures out == text + StepRows(letter, ballNum, name, step, fmt)
  {
    match step
    case Options(vs) => out := AppendVariants(text, letter, ballNum, name, vs, fmt);
    case Bare(_) => out := AppendBlanks(text, letter, ballNum, name);
  }

  /** One row per variant, in order. */
  method AppendVariants(text: string, letter: char, ballNum: int, name: string, vs: seq<Ball>, fmt: real -> string)
    returns (out: string)
    ensures out == text + VariantRows(letter, ballNum, name, vs, fmt)
  {
    out := text;
    for v := 0 to |vs|
      invariant out == text + VariantRows(letter, ballNum, name, vs[..v], fmt)
    {
      var row := RowLine(letter, ballNum, name, vs[v], fmt(vs[v].drop)) + "\n";
      VariantRowsStep(text, letter, ballNum, name, vs, v, fmt);
      out := out + row;
    }
    assert vs[..|vs|] == vs;
  }


  /** One blank row per number of a bare step. */
  method AppendBlanks(text: string, letter: char, ballNum: int, name: string)
    returns (out: string)
    ensures out == text + BlankRows(letter, ballNum, name, BARE_LENGTH)
  {
    out := text;
    for v := 0 to BARE_LENGTH
      invariant out == text + BlankRows(letter, ballNum, name, v)
    {
      out := out + BlankLine(letter, ballNum, name) + "\n";
    }
  }

}
