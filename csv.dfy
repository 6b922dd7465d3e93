/** The CSV side of js/state.js: reading one line of an imported file
    (`importCustomDrills`), grouping the accepted lines into custom drills
    and bank entries, and the rows `exportCustomDrills` writes. */
module Csv {
  import opened Optional
  import opened Text
  import opened Drills

  const HEADER: string := "Set;Ball;Name;Top;Bottom;Height;Drop;Freq;Reps\n"

  /** Names are cut to this many characters on import. */
  const NAME_LIMIT: nat := 32

  function LowerLetter(b: Bank): char
  {
    match b
    case A => 'a'
    case B => 'b'
    case C => 'c'
  }

  /** getCat: the Set field, trimmed and upper-cased, must be A, B or C.
      (`a`, `b` and `c` are the only characters that upper-case to those
      letters.) */
  function CategoryOf(val: string): Option<Bank>
  {
    BankOfLetter(Trim(val))
  }

  function BankOfLetter(t: string): Option<Bank>
  {
    if t == "A" || t == "a" then Some(A)
    else if t == "B" || t == "b" then Some(B)
    else if t == "C" || t == "c" then Some(C)
    else None
  }

  /** Exactly the letters A, B and C, in either case and with white space
      around them, name a bank, and each names its own. */
  lemma CategoryOfSpec(val: string)
    ensures forall b: Bank :: CategoryOf(val) == Some(b) <==> (Trim(val) == [Letter(b)] || Trim(val) == [LowerLetter(b)])
  {
    BankOfLetterSpec(Trim(val));
  }

  lemma BankOfLetterSpec(t: string)
    ensures forall b: Bank :: BankOfLetter(t) == Some(b) <==> (t == [Letter(b)] || t == [LowerLetter(b)])
  {
  }

  // ---------------------------------------------------------------------
  // One line of an imported file

  /** An accepted line: the Set field as written (trimmed), its bank, the
      Ball number, the cut name and the six shot parameters. */
  datatype Row = Row(catCode: string, bank: Bank, ballNum: real, name: string, params: Ball)

  /** A line is split on `;` when it holds one, otherwise on `,`. */
  function Separator(line: string): (c: char)
    ensures c == ';' <==> ';' in line
    ensures c == ';' || c == ','
  {
    if ';' in line then ';' else ','
  }

  function Fields(line: string): seq<string>
  {
    Split(line, Separator(line))
  }

  /** The six parameters: parseInt for the integer fields, parseFloat for
      the drop. */
  function ParseParams(parts: seq<string>): (r: Option<Ball>)
    requires |parts| >= 9
    ensures r.Some? ==> ParseInt(parts[3]) == Some(r.value.top) && ParseInt(parts[4]) == Some(r.value.bottom)
                        && ParseInt(parts[5]) == Some(r.value.height) && ParseFloat(parts[6]) == Some(r.value.drop)
                        && ParseInt(parts[7]) == Some(r.value.freq) && ParseInt(parts[8]) == Some(r.value.reps)
  {
    var t, b, h, d, f, n := ParseInt(parts[3]), ParseInt(parts[4]), ParseInt(parts[5]),
                            ParseFloat(parts[6]), ParseInt(parts[7]), ParseInt(parts[8]);
    if t.Some? && b.Some? && h.Some? && d.Some? && f.Some? && n.Some? then
      Some(Ball(t.value, b.value, h.value, d.value, f.value, n.value))
    else None
  }

  /** The parameters read exactly when all six fields read as numbers. */
  lemma ParseParamsNone(parts: seq<string>)
    requires |parts| >= 9
    ensures ParseParams(parts).None? <==>
              || ParseInt(parts[3]).None? || ParseInt(parts[4]).None? || ParseInt(parts[5]).None?
              || ParseFloat(parts[6]).None? || ParseInt(parts[7]).None? || ParseInt(parts[8]).None?
  {
  }

  /** The body of the forEach over lines; `None` is a line the import
      ignores. */
  function ParseRow(line: string): (r: Option<Row>)
    ensures r.Some? ==> Trim(line) != [] && r == RowOf(Fields(line))
  {
    if Trim(line) == [] then None else RowOf(Fields(line))
  }

  /** The fields of a non-blank line read as a row. */
  function RowOf(parts: seq<string>): Option<Row>
  {
    if |parts| < 9 then None
    else MakeRow(Trim(parts[0]), CategoryOf(Trim(parts[0])), ParseFloat(parts[1]), parts[2], ParseParams(parts))
  }

  /** A row from its parsed fields: any field that failed rejects the
      line; the name is trimmed and cut to 32 characters. */
  function MakeRow(code: string, bank: Option<Bank>, num: Option<real>, rawName: string, params: Option<Ball>): (r: Option<Row>)
    ensures r.Some? <==> num.Some? && bank.Some? && params.Some?
    ensures r.Some? ==> && r.value.catCode == code && Some(r.value.bank) == bank
                        && Some(r.value.ballNum) == num && Some(r.value.params) == params
                        && r.value.name == RowName(rawName)
  {
    if num.None? || bank.None? || params.None? then None
    else Some(Row(code, bank.value, num.value, RowName(rawName), params.value))
  }

  /** `name.trim().substring(0, 32)`. */
  function RowName(rawName: string): (name: string)
    ensures |name| <= NAME_LIMIT && |name| <= |Trim(rawName)| && name == Trim(rawName)[..|name|]
    ensures |Trim(rawName)| <= NAME_LIMIT ==> name == Trim(rawName)
  {
    var t := Trim(rawName);
    if |t| <= NAME_LIMIT then t else t[..NAME_LIMIT]
  }

  /** The kinds of line the import skips: blank lines, lines with fewer
      than nine fields, lines whose Ball field is not a number, lines whose
      Set field is not A, B or C, and (in this model only) lines with a shot
      parameter that is not a number; a line none of these rejects is read. */
  lemma IgnoredLines(line: string)
    ensures Trim(line) == [] ==> ParseRow(line) == None
    ensures |Fields(line)| < 9 ==> ParseRow(line) == None
    ensures |Fields(line)| >= 9 && ParseFloat(Fields(line)[1]).None? ==> ParseRow(line) == None
    ensures |Fields(line)| >= 9 && CategoryOf(Fields(line)[0]).None? ==> ParseRow(line) == None
    ensures |Fields(line)| >= 9 && ParseParams(Fields(line)).None? ==> ParseRow(line) == None
    ensures (&& Trim(line) != [] && |Fields(line)| >= 9 && ParseFloat(Fields(line)[1]).Some?
             && CategoryOf(Fields(line)[0]).Some? && ParseParams(Fields(line)).Some?)
            ==> ParseRow(line).Some?
  {
    if Trim(line) != [] {
      var parts := Fields(line);
      RowOfRejects(parts);
      if |parts| >= 9 {
        CategoryOfTrim(parts[0]);
      }
    }
  }

  lemma CategoryOfTrim(p: string)
    ensures CategoryOf(Trim(p)) == CategoryOf(p)
  {
    TrimTwice(p);
  }

  lemma RowOfRejects(parts: seq<string>)
    ensures |parts| < 9 ==> RowOf(parts) == None
    ensures |parts| >= 9 && ParseFloat(parts[1]).None? ==> RowOf(parts) == None
    ensures |parts| >= 9 && CategoryOf(Trim(parts[0])).None? ==> RowOf(parts) == None
    ensures |parts| >= 9 && ParseParams(parts).None? ==> RowOf(parts) == None
    ensures (&& |parts| >= 9 && CategoryOf(Trim(parts[0])).Some? && ParseFloat(parts[1]).Some?
             && ParseParams(parts).Some?) ==> RowOf(parts).Some?
  {
  }

  /** What an accepted line yields: the Ball number and parameters as
      parsed, the Set field trimmed, and the name trimmed and cut to 32
      characters. */
  lemma AcceptedLine(line: string)
    requires ParseRow(line).Some?
    ensures var parts := Fields(line);
            var r := ParseRow(line).value;
            && |parts| >= 9
            && ParseFloat(parts[1]) == Some(r.ballNum)
            && r.catCode == Trim(parts[0])
            && CategoryOf(parts[0]) == Some(r.bank)
            && ParseParams(parts) == Some(r.params)
            && (|Trim(parts[2])| <= NAME_LIMIT ==> r.name == Trim(parts[2]))
            && (|Trim(parts[2])| > NAME_LIMIT ==> r.name == Trim(parts[2])[..NAME_LIMIT])
  {
    CategoryOfTrim(Fields(line)[0]);
  }

  /** Trimming is idempotent. */
  lemma TrimTwice(s: string)
    ensures Trim(Trim(s)) == Trim(s)
  {
    var t := Trim(s);
    if t != [] {
      assert TrimStart(t) == t;
      assert TrimEnd(t) == t;
    }
  }

  /** `cust_<Set field as written>_<name with white-space runs as _>`. */
  function Key(r: Row): string
  {
    "cust_" + r.catCode + "_" + UnderscoreSpaces(r.name)
  }

  /** The key of an accepted line is `cust_`, one letter naming its bank
      (in the case the file used), `_`, then the name without any white
      space. */
  lemma KeyShape(line: string)
    requires ParseRow(line).Some?
    ensures var r := ParseRow(line).value;
            && |r.catCode| == 1
            && (r.catCode[0] == Letter(r.bank) || r.catCode[0] == LowerLetter(r.bank))
            && Key(r)[..5] == "cust_" && Key(r)[6] == '_'
            && forall i :: 6 <= i < |Key(r)| ==> !IsSpace(Key(r)[i])
  {
    var r := ParseRow(line).value;
    CatCodeLetter(line);
    KeyChars(r);
  }

  lemma CatCodeLetter(line: string)
    requires ParseRow(line).Some?
    ensures var r := ParseRow(line).value;
            r.catCode == [Letter(r.bank)] || r.catCode == [LowerLetter(r.bank)]
  {
    var r := ParseRow(line).value;
    AcceptedLine(line);
    TrimTwice(Fields(line)[0]);
    assert Trim(r.catCode) == r.catCode;
    assert CategoryOf(r.catCode) == Some(r.bank);
    CategoryOfSpec(r.catCode);
  }

  lemma KeyChars(r: Row)
    requires |r.catCode| == 1
    ensures Key(r)[..5] == "cust_" && Key(r)[6] == '_'
    ensures forall i :: 6 <= i < |Key(r)| ==> !IsSpace(Key(r)[i])
  {
    var u := UnderscoreSpaces(r.name);
    var k := Key(r);
    assert k == "cust_" + r.catCode + "_" + u;
    forall i | 6 <= i < |k| ensures !IsSpace(k[i]) {
      if i > 6 {
        assert k[i] == u[i - 7];
      }
    }
  }

  // ---------------------------------------------------------------------
  // Grouping: the `builder` and `newCustomData` of importCustomDrills

  /** Bank entries collected so far, and per key the shots per Ball number
      (identical for the three levels, so kept once). */
  datatype Builder = Builder(banks: map<Bank, seq<Entry>>, groups: map<string, map<real, seq<Ball>>>)

  predicate Complete(banks: map<Bank, seq<Entry>>)
  {
    forall b: Bank :: b in banks
  }

  const NO_ENTRIES: map<Bank, seq<Entry>> := map[A := [], B := [], C := []]

  lemma NoEntriesComplete()
    ensures Complete(NO_ENTRIES)
  {
    forall b: Bank ensures b in NO_ENTRIES {
      match b
      case A =>
      case B =>
      case C =>
    }
  }

  /** One accepted line: the first line of a key adds a {name, key} entry to
      its bank unless the bank is full or already holds the key; the line's
      shot is appended to its Ball number's group either way. */
  function AddRow(b: Builder, r: Row): (c: Builder)
    requires Complete(b.banks)
    ensures Complete(c.banks)
  {
    var k := Key(r);
    var entries := b.banks[r.bank];
    var banks := if k !in b.groups && !HasKey(entries, k) && |entries| < BANK_CAPACITY
                 then b.banks[r.bank := entries + [Entry(r.name, k)]] else b.banks;
    var g := if k in b.groups then b.groups[k] else map[];
    var prev := if r.ballNum in g then g[r.ballNum] else [];
    Builder(banks, b.groups[k := g[r.ballNum := prev + [r.params]]])
  }

  /** The forEach over the lines, as a fold. */
  function Collect(lines: seq<string>): (b: Builder)
    ensures Complete(b.banks)
  {
    if lines == [] then
      NoEntriesComplete();
      Builder(NO_ENTRIES, map[])
    else
      var b := Collect(lines[..|lines| - 1]);
      match ParseRow(lines[|lines| - 1])
      case None => b
      case Some(r) => AddRow(b, r)
  }

  /** One more line read. */
  lemma CollectStep(lines: seq<string>, i: int)
    requires 0 <= i < |lines|
    ensures Collect(lines[..i + 1]) == match ParseRow(lines[i])
                                        case None => Collect(lines[..i])
                                        case Some(r) => AddRow(Collect(lines[..i]), r)
  {
    assert lines[..i + 1][..i] == lines[..i];
  }

  /** The shots of the lines that carry the given key and Ball number, in
      file order. */
  function Matching(lines: seq<string>, key: string, num: real): seq<Ball>
  {
    if lines == [] then []
    else
      var m := Matching(lines[..|lines| - 1], key, num);
      match ParseRow(lines[|lines| - 1])
      case Some(r) => if Key(r) == key && r.ballNum == num then m + [r.params] else m
      case None => m
  }

  function GroupOf(b: Builder, key: string, num: real): seq<Ball>
  {
    if key in b.groups && num in b.groups[key] then b.groups[key][num] else []
  }

  predicate NonEmptyGroups(b: Builder)
  {
    forall k, n :: k in b.groups && n in b.groups[k] ==> b.groups[k][n] != []
  }

  /** One accepted line appends its shot to its own group only. */
  lemma AddRowGroup(b: Builder, r: Row, key: string, num: real)
    requires Complete(b.banks)
    ensures GroupOf(AddRow(b, r), key, num) ==
            if Key(r) == key && r.ballNum == num then GroupOf(b, key, num) + [r.params]
            else GroupOf(b, key, num)
  {
    var c := AddRow(b, r);
    if Key(r) != key {
      assert key in c.groups <==> key in b.groups;
      if key in b.groups {
        assert c.groups[key] == b.groups[key];
      }
    }
  }

  lemma AddRowNonEmpty(b: Builder, r: Row)
    requires Complete(b.banks) && NonEmptyGroups(b)
    ensures NonEmptyGroups(AddRow(b, r))
  {
    var c := AddRow(b, r);
    forall k, n | k in c.groups && n in c.groups[k] ensures c.groups[k][n] != [] {
      if k != Key(r) {
        assert c.groups[k] == b.groups[k];
      }
    }
  }

  /** Each group holds exactly the shots of the lines with that key and
      Ball number, in file order. */
  lemma {:induction false} CollectGroups(lines: seq<string>, key: string, num: real)
    ensures GroupOf(Collect(lines), key, num) == Matching(lines, key, num)
  {
    if lines != [] {
      var init := lines[..|lines| - 1];
      CollectGroups(init, key, num);
      match ParseRow(lines[|lines| - 1])
      case None =>
      case Some(r) => AddRowGroup(Collect(init), r, key, num);
    }
  }

  /** No group is empty. */
  lemma {:induction false} CollectNonEmpty(lines: seq<string>)
    ensures NonEmptyGroups(Collect(lines))
  {
    if lines != [] {
      var init := lines[..|lines| - 1];
      CollectNonEmpty(init);
      match ParseRow(lines[|lines| - 1])
      case None =>
      case Some(r) => AddRowNonEmpty(Collect(init), r);
    }
  }

  predicate BanksBounded(b: Builder)
  {
    && Complete(b.banks)
    && (forall bank :: |b.banks[bank]| <= BANK_CAPACITY && DistinctKeys(b.banks[bank]))
    && (forall bank, i :: 0 <= i < |b.banks[bank]| ==> b.banks[bank][i].key in b.groups)
  }

  lemma AddRowBanks(b: Builder, r: Row)
    requires BanksBounded(b)
    ensures BanksBounded(AddRow(b, r))
  {
    var c := AddRow(b, r);
    var k := Key(r);
    var entries := b.banks[r.bank];
    assert c.groups.Keys == b.groups.Keys + {k};
    if k !in b.groups && !HasKey(entries, k) && |entries| < BANK_CAPACITY {
      assert c.banks == b.banks[r.bank := entries + [Entry(r.name, k)]];
      forall bank ensures |c.banks[bank]| <= BANK_CAPACITY && DistinctKeys(c.banks[bank]) {
        if bank == r.bank {
          forall i, j | 0 <= i < j < |c.banks[bank]| ensures c.banks[bank][i].key != c.banks[bank][j].key {
            if j == |entries| {
              assert c.banks[bank][i] == entries[i];
            }
          }
        }
      }
    } else {
      assert c.banks == b.banks;
    }
  }

  /** After the import each bank holds at most 20 entries, no key twice,
      and every entry names an imported drill. */
  lemma {:induction false} CollectBanks(lines: seq<string>)
    ensures BanksBounded(Collect(lines))
  {
    if lines == [] {
      NoEntriesComplete();
    } else {
      var init := lines[..|lines| - 1];
      CollectBanks(init);
      match ParseRow(lines[|lines| - 1])
      case None =>
      case Some(r) => AddRowBanks(Collect(init), r);
    }
  }

  // ---------------------------------------------------------------------
  // Finalising: steps ordered by numeric Ball value

  predicate StrictlyIncreasing(s: seq<real>)
  {
    forall i, j :: 0 <= i < j < |s| ==> s[i] < s[j]
  }

  lemma NonEmptyHasElement<T>(s: set<T>)
    requires s != {}
    ensures exists x :: x in s
  {
    if forall x :: x !in s {
      assert false;
    }
  }

  lemma AnElement<T>(s: set<T>) returns (x: T)
    requires s != {}
    ensures x in s
  {
    NonEmptyHasElement(s);
    x :| x in s;
  }

  /** Every non-empty finite set of numbers has a least element. */
  lemma {:induction false} MinExists(s: set<real>)
    requires s != {}
    ensures exists m :: m in s && forall x :: x in s ==> m <= x
    decreases |s|
  {
    var x := AnElement(s);
    if s != {x} {
      MinExists(s - {x});
      var y :| y in s - {x} && forall z :: z in s - {x} ==> y <= z;
      assert forall z :: z in s ==> z == x || z in s - {x};
      if x <= y {
        assert forall z :: z in s ==> x <= z;
      } else {
        assert forall z :: z in s ==> y <= z;
      }
    } else {
      assert forall z :: z in s ==> x <= z;
    }
  }

  /** The least element of a non-empty set. */
  function MinOf(s: set<real>): (m: real)
    requires s != {}
    ensures m in s && forall x :: x in s ==> m <= x
  {
    MinExists(s);
    var m :| m in s && forall x :: x in s ==> m <= x;
    m
  }


  /** `Object.keys(...).sort((a, b) => parseFloat(a) - parseFloat(b))`:
      the smallest key first, then the rest sorted. */
  function SortedReals(s: set<real>): seq<real>
    decreases |s|
  {
    if s == {} then []
    else
      var m := MinOf(s);
      [m] + SortedReals(s - {m})
  }

  /** The sorted keys are exactly the keys, each once, in strictly
      ascending order. */
  lemma {:induction false} SortedRealsSpec(s: set<real>)
    ensures |SortedReals(s)| == |s|
    ensures forall x :: x in s <==> x in SortedReals(s)
    ensures StrictlyIncreasing(SortedReals(s))
    decreases |s|
  {
    if s != {} {
      var m := MinOf(s);
      var rest := SortedReals(s - {m});
      SortedRealsSpec(s - {m});
      assert SortedReals(s) == [m] + rest;
      PrependMin(s, m, rest);
    }
  }

  /** The step of SortedRealsSpec: the least element put before the sorted
      rest. */
  lemma PrependMin(s: set<real>, m: real, rest: seq<real>)
    requires m in s && forall x :: x in s ==> m <= x
    requires |rest| == |s - {m}|
    requires forall x :: x in s - {m} <==> x in rest
    requires StrictlyIncreasing(rest)
    ensures |[m] + rest| == |s|
    ensures forall x :: x in s <==> x in [m] + rest
    ensures StrictlyIncreasing([m] + rest)
  {
    var r := [m] + rest;
    forall x ensures x in s <==> x in r {
      if x != m {
        assert x in s <==> x in s - {m};
        assert x in r <==> x in rest;
      }
    }
    forall k | 0 <= k < |rest| ensures m < rest[k] {
      assert rest[k] in s - {m};
    }
    PrependSmaller(m, rest);
  }


  lemma PrependSmaller(m: real, rest: seq<real>)
    requires StrictlyIncreasing(rest)
    requires forall k :: 0 <= k < |rest| ==> m < rest[k]
    ensures StrictlyIncreasing([m] + rest)
  {
    var r := [m] + rest;
    forall i, j | 0 <= i < j < |r| ensures r[i] < r[j] {
      assert r[j] == rest[j - 1];
      if i > 0 {
        assert r[i] == rest[i - 1];
      }
    }
  }

  /** The steps of one imported level: one step per Ball number, in
      ascending order, holding that number's group as its variants. */
  function LevelOf(g: map<real, seq<Ball>>): (steps: seq<Step>)
    ensures |steps| == |SortedReals(g.Keys)| == |g.Keys|
    ensures NormalizedLevel(steps)
    ensures forall i :: 0 <= i < |steps| ==>
              SortedReals(g.Keys)[i] in g && steps[i] == Options(g[SortedReals(g.Keys)[i]])
  {
    var nums := SortedReals(g.Keys);
    SortedRealsSpec(g.Keys);
    seq(|nums|, i requires 0 <= i < |nums| => Options(g[nums[i]]))
  }

  /** `currentDrills[key] = {}` then levels 1 to 3 filled: no `random`. */
  function ImportedDrill(g: map<real, seq<Ball>>): Drill
  {
    var level := LevelOf(g);
    Drill(map[1 := level, 2 := level, 3 := level], false)
  }

  /** The keys of every entry of every bank. */
  function BankKeys(banks: map<Bank, seq<Entry>>): set<string>
  {
    set b, i | b in banks && 0 <= i < |banks[b]| :: banks[b][i].key
  }

  /** importCustomDrills as a whole: the drills of the old entries are
      deleted, every grouped key gets its imported drill, and the banks are
      replaced by the collected entries. */
  /** Drills of `incoming` replace or add to those of `kept`. */
  function Override(kept: map<string, Drill>, incoming: map<string, Drill>): (r: map<string, Drill>)
    ensures r.Keys == kept.Keys + incoming.Keys
    ensures forall k :: k in incoming ==> r[k] == incoming[k]
    ensures forall k :: k in kept && k !in incoming ==> r[k] == kept[k]
  {
    map k | k in kept.Keys + incoming.Keys :: if k in incoming then incoming[k] else kept[k]
  }

  /** The end of importCustomDrills for the collected builder `b`: the
      drills the banks listed before the import are dropped, the builder's
      groups become drills (replacing any drill of the same key), every
      other drill is kept, and the banks are the builder's. */
  function ImportInto(drills: map<string, Drill>, banks: map<Bank, seq<Entry>>, b: Builder)
    : (r: (map<string, Drill>, map<Bank, seq<Entry>>))
    ensures r.1 == b.banks
    ensures r.0.Keys == (drills.Keys - BankKeys(banks)) + b.groups.Keys
    ensures forall k :: k in b.groups ==> r.0[k] == ImportedDrill(b.groups[k])
    ensures forall k :: k in drills && k !in BankKeys(banks) && k !in b.groups ==> r.0[k] == drills[k]
  {
    var kept := drills - BankKeys(banks);
    var incoming := map k | k in b.groups :: ImportedDrill(b.groups[k]);
    assert kept.Keys == drills.Keys - BankKeys(banks);
    assert incoming.Keys == b.groups.Keys;
    (Override(kept, incoming), b.banks)
  }

  /** ImportInto's contract fixes its drills completely. */
  lemma ImportIntoUnique(drills: map<string, Drill>, banks: map<Bank, seq<Entry>>, b: Builder, r: map<string, Drill>)
    requires forall k :: k in r <==> k in drills - BankKeys(banks) || k in b.groups
    requires forall k :: k in r ==> r[k] == if k in b.groups then ImportedDrill(b.groups[k]) else (drills - BankKeys(banks))[k]
    ensures r == ImportInto(drills, banks, b).0
  {
    var s := ImportInto(drills, banks, b).0;
    assert r.Keys == s.Keys;
    forall k | k in r ensures r[k] == s[k] {
    }
  }


  /** importCustomDrills on the text of a file. */
  function ImportResult(drills: map<string, Drill>, banks: map<Bank, seq<Entry>>, text: string)
    : (map<string, Drill>, map<Bank, seq<Entry>>)
  {
    ImportInto(drills, banks, Collect(SplitLines(text)))
  }

  /** Every imported drill has the same three levels; level steps follow
      the ascending Ball numbers, and each step holds, in file order, the
      shots of the lines with that key and number. */
  lemma ImportedSteps(lines: seq<string>, key: string)
    requires key in Collect(lines).groups
    ensures var d := ImportedDrill(Collect(lines).groups[key]);
            var nums := SortedReals(Collect(lines).groups[key].Keys);
            && StrictlyIncreasing(nums)
            && d.levels.Keys == {1, 2, 3} && !d.random
            && d.levels[1] == d.levels[2] == d.levels[3]
            && |d.levels[1]| == |nums|
            && forall i :: 0 <= i < |nums| ==>
                 d.levels[1][i] == Options(Matching(lines, key, nums[i])) && Matching(lines, key, nums[i]) != []
  {
    var g := Collect(lines).groups[key];
    var nums := SortedReals(g.Keys);
    SortedRealsSpec(g.Keys);
    var level := LevelOf(g);
    var d := ImportedDrill(g);
    assert d.levels == map[1 := level, 2 := level, 3 := level];
    assert d.levels.Keys == {1, 2, 3};
    forall i | 0 <= i < |nums|
      ensures level[i] == Options(Matching(lines, key, nums[i])) && Matching(lines, key, nums[i]) != []
    {
      GroupIsMatching(lines, key, nums[i]);
    }
  }

  /** A group the import collected holds the shots of its matching lines,
      and at least one. */
  lemma GroupIsMatching(lines: seq<string>, key: string, num: real)
    requires key in Collect(lines).groups && num in Collect(lines).groups[key]
    ensures Collect(lines).groups[key][num] == Matching(lines, key, num) != []
  {
    CollectGroups(lines, key, num);
    CollectNonEmpty(lines);
  }

  // ---------------------------------------------------------------------
  // Export rows

  /** Empty, or ending with a line feed: every row is written with its own. */
  predicate Terminated(s: string)
  {
    s == [] || s[|s| - 1] == '\n'
  }

  /** The nine fields of an exported row: Set letter, 1-based Ball index,
      name, then the six parameters (the drop printed by `dropText`). */
  function RowFields(letter: char, ballNum: int, name: string, ball: Ball, dropText: string): seq<string>
  {
    [[letter], IntToString(ballNum), name, IntToString(ball.top), IntToString(ball.bottom),
     IntToString(ball.height), dropText, IntToString(ball.freq), IntToString(ball.reps)]
  }

  function RowLine(letter: char, ballNum: int, name: string, ball: Ball, dropText: string): string
  {
    Join(RowFields(letter, ballNum, name, ball, dropText), ';')
  }

  /** The row written for an element of a bare step: the element is a
      number, so each of its six indexed fields is `undefined`, which
      `join` writes as nothing. */
  function BlankLine(letter: char, ballNum: int, name: string): string
  {
    Join([[letter], IntToString(ballNum), name, "", "", "", "", "", ""], ';')
  }

  /** Rows for the variants of one step, in order. */
  function VariantRows(letter: char, ballNum: int, name: string, vs: seq<Ball>, fmt: real -> string): (r: string)
    ensures Terminated(r) && (r == [] <==> vs == [])
  {
    if vs == [] then ""
    else
      var last := vs[|vs| - 1];
      VariantRows(letter, ballNum, name, vs[..|vs| - 1], fmt)
        + RowLine(letter, ballNum, name, last, fmt(last.drop)) + "\n"
  }

  /** One more variant written after the text so far. */
  lemma VariantRowsStep(text: string, letter: char, ballNum: int, name: string, vs: seq<Ball>, v: int,
                        fmt: real -> string)
    requires 0 <= v < |vs|
    ensures text + VariantRows(letter, ballNum, name, vs[..v + 1], fmt)
            == text + VariantRows(letter, ballNum, name, vs[..v], fmt)
               + (RowLine(letter, ballNum, name, vs[v], fmt(vs[v].drop)) + "\n")
  {
    assert vs[..v + 1][..v] == vs[..v];
  }

  function StepRows(letter: char, ballNum: int, name: string, s: Step, fmt: real -> string): (r: string)
    ensures Terminated(r)
  {
    match s
    case Options(vs) => VariantRows(letter, ballNum, name, vs, fmt)
    case Bare(_) => BlankRows(letter, ballNum, name, BARE_LENGTH)
  }

  /** A bare step is an array of six numbers. */
  const BARE_LENGTH: nat := 6

  /** `count` blank rows. */
  function BlankRows(letter: char, ballNum: int, name: string, count: nat): (r: string)
    ensures Terminated(r) && (r == [] <==> count == 0)
  {
    if count == 0 then "" else BlankRows(letter, ballNum, name, count - 1) + BlankLine(letter, ballNum, name) + "\n"
  }

  /** Rows for a level: step i is written with Ball number i + 1. */
  function LevelRows(letter: char, name: string, steps: seq<Step>, fmt: real -> string): (r: string)
    ensures Terminated(r)
  {
    if steps == [] then ""
    else LevelRows(letter, name, steps[..|steps| - 1], fmt)
         + StepRows(letter, |steps|, name, steps[|steps| - 1], fmt)
  }

  /** Rows for one entry: its drill's level 1, if the drill has one. */
  function EntryRows(letter: char, e: Entry, drills: map<string, Drill>, fmt: real -> string): (r: string)
    ensures Terminated(r)
  {
    if e.key in drills && 1 in drills[e.key].levels
    then LevelRows(letter, e.name, drills[e.key].levels[1], fmt) else ""
  }

  function BankRows(b: Bank, entries: seq<Entry>, drills: map<string, Drill>, fmt: real -> string): (r: string)
    ensures Terminated(r)
  {
    if entries == [] then ""
    else BankRows(b, entries[..|entries| - 1], drills, fmt)
         + EntryRows(Letter(b), entries[|entries| - 1], drills, fmt)
  }

  /** The order in which export visits the banks. */
  const CATEGORIES: seq<Bank> := [A, B, C]

  /** Rows for the listed banks, in order; a bank missing from the map
      writes nothing. */
  function CategoriesRows(cats: seq<Bank>, banks: map<Bank, seq<Entry>>, drills: map<string, Drill>, fmt: real -> string): (r: string)
    ensures Terminated(r)
    ensures (forall i :: 0 <= i < |cats| ==> cats[i] !in banks) ==> r == []
  {
    if cats == [] then ""
    else
      var c := cats[|cats| - 1];
      CategoriesRows(cats[..|cats| - 1], banks, drills, fmt)
        + (if c in banks then BankRows(c, banks[c], drills, fmt) else "")
  }

  /** The whole file: the header, then banks A, B and C in that order. */
  function ExportText(banks: map<Bank, seq<Entry>>, drills: map<string, Drill>, fmt: real -> string): (r: string)
    ensures |HEADER| <= |r| && r[..|HEADER|] == HEADER
    ensures r[|r| - 1] == '\n'
    ensures banks == map[] ==> r == HEADER
  {
    HEADER + CategoriesRows(CATEGORIES, banks, drills, fmt)
  }


  // ---------------------------------------------------------------------
  // An exported row reads back as the shot it was written from

  lemma ParseFloatOfDigits(s: string)
    requires s != [] && forall i :: 0 <= i < |s| ==> IsDigitIn(s[i], 10)
    ensures ParseFloat(s) == Some(DigitsValue(s, 10) as real)
  {
    assert !IsSpace(s[0]) && s[0] != '-' && s[0] != '+';
    assert TrimStart(s) == s;
    assert Unsign(s) == (false, s);
    UnsignedDecimalOfDigits(s);
  }

  lemma UnsignedDecimalOfDigits(s: string)
    requires s != [] && forall i :: 0 <= i < |s| ==> IsDigitIn(s[i], 10)
    ensures UnsignedDecimal(s) == Some(DigitsValue(s, 10) as real)
  {
    AllDigitsRun(s, 10);
    UnsignedDecimalWhole(s);
    WholeMantissa(s);
  }

  /** A literal made only of digits has no fraction and no exponent. */
  lemma UnsignedDecimalWhole(s: string)
    requires s != [] && forall i :: 0 <= i < |s| ==> IsDigitIn(s[i], 10)
    requires DigitRun(s, 10) == |s|
    ensures UnsignedDecimal(s) == Some(Scale(Mantissa(s, []), 0))
  {
    var empty: string := [];
    assert s[|s|..] == empty && s[..|s|] == s;
    assert DigitRun(empty, 10) == 0;
    assert ExponentPart(empty) == (0, 0);
  }

  lemma WholeMantissa(s: string)
    requires forall i :: 0 <= i < |s| ==> IsDigitIn(s[i], 10)
    ensures Scale(Mantissa(s, []), 0) == DigitsValue(s, 10) as real
  {
    assert Fraction([]) == 0.0;
  }

  /** Printed integers hold no separator. */
  lemma IntToStringNoSeparator(n: int)
    ensures ';' !in IntToString(n) && ',' !in IntToString(n)
  {
    var s := IntToString(n);
    var d := NatToString(if n < 0 then -n else n);
    assert forall i :: 0 <= i < |d| ==> IsDecimalDigit(d[i]);
    assert forall i :: 0 <= i < |s| ==> s[i] == '-' || IsDecimalDigit(s[i]);
  }

  /** The fields of an exported row are found again by splitting it. */
  lemma RowLineFields(letter: char, n: int, name: string, ball: Ball, dropText: string)
    requires letter != ';' && ';' !in name && ';' !in dropText
    ensures Fields(RowLine(letter, n, name, ball, dropText)) == RowFields(letter, n, name, ball, dropText)
  {
    var parts := RowFields(letter, n, name, ball, dropText);
    IntToStringNoSeparator(n);
    IntToStringNoSeparator(ball.top);
    IntToStringNoSeparator(ball.bottom);
    IntToStringNoSeparator(ball.height);
    IntToStringNoSeparator(ball.freq);
    IntToStringNoSeparator(ball.reps);
    forall i, j | 0 <= i < |parts| && 0 <= j < |parts[i]| ensures parts[i][j] != ';' {
      assert parts[i][j] in parts[i];
    }
    SplitJoin(parts, ';');
    JoinHasSeparator(parts, ';');
  }

  /** An exported row starting with a letter is not blank. */
  lemma RowLineNotBlank(b: Bank, n: int, name: string, ball: Ball, dropText: string)
    ensures Trim(RowLine(Letter(b), n, name, ball, dropText)) != []
  {
    var line := RowLine(Letter(b), n, name, ball, dropText);
    assert line[0] == Letter(b);
    assert !IsSpace(line[0]);
    TrimEmptyIffBlank(line);
  }

  /** A printed positive Ball number reads back as itself. */
  lemma BallNumberReads(n: int)
    requires n >= 1
    ensures ParseFloat(IntToString(n)) == Some(n as real)
  {
    var m: nat := n;
    NatToStringValue(m);
    ParseFloatOfDigits(NatToString(m));
  }

  /** The six printed parameters read back as the shot. */
  lemma RowFieldsParams(letter: char, n: int, name: string, ball: Ball, dropText: string)
    requires ParseFloat(dropText) == Some(ball.drop)
    ensures ParseParams(RowFields(letter, n, name, ball, dropText)) == Some(ball)
  {
    IntToStringRoundTrip(ball.top);
    IntToStringRoundTrip(ball.bottom);
    IntToStringRoundTrip(ball.height);
    IntToStringRoundTrip(ball.freq);
    IntToStringRoundTrip(ball.reps);
  }

  /** Importing a row that export wrote gives back its bank, its Ball
      number, its name and all six parameters, provided the name is
      already trimmed, short enough and free of `;`, and the printed drop
      reads back as the drop. */
  lemma ExportRowRoundTrip(b: Bank, n: int, name: string, ball: Ball, dropText: string)
    requires n >= 1
    requires ';' !in name && ';' !in dropText
    requires Trim(name) == name && |name| <= NAME_LIMIT
    requires ParseFloat(dropText) == Some(ball.drop)
    ensures ParseRow(RowLine(Letter(b), n, name, ball, dropText))
            == Some(Row([Letter(b)], b, n as real, name, ball))
  {
    ExportedLineFields(b, n, name, ball, dropText);
    ExportedFieldsRow(b, n, name, ball, dropText);
  }

  lemma ExportedLineFields(b: Bank, n: int, name: string, ball: Ball, dropText: string)
    requires ';' !in name && ';' !in dropText
    ensures ParseRow(RowLine(Letter(b), n, name, ball, dropText)) == RowOf(RowFields(Letter(b), n, name, ball, dropText))
  {
    RowLineFields(Letter(b), n, name, ball, dropText);
    RowLineNotBlank(b, n, name, ball, dropText);
    ParseRowOf(RowLine(Letter(b), n, name, ball, dropText), RowFields(Letter(b), n, name, ball, dropText));
  }

  lemma ExportedFieldsRow(b: Bank, n: int, name: string, ball: Ball, dropText: string)
    requires n >= 1
    requires Trim(name) == name && |name| <= NAME_LIMIT
    requires ParseFloat(dropText) == Some(ball.drop)
    ensures RowOf(RowFields(Letter(b), n, name, ball, dropText)) == Some(Row([Letter(b)], b, n as real, name, ball))
  {
    BallNumberReads(n);
    RowFieldsParams(Letter(b), n, name, ball, dropText);
    LetterField(b);
    RowFieldsRow(Letter(b), b, n, name, ball, dropText);
  }

  lemma RowFieldsRow(letter: char, b: Bank, n: int, name: string, ball: Ball, dropText: string)
    requires Trim([letter]) == [letter] && CategoryOf([letter]) == Some(b)
    requires ParseFloat(IntToString(n)) == Some(n as real)
    requires ParseParams(RowFields(letter, n, name, ball, dropText)) == Some(ball)
    requires Trim(name) == name && |name| <= NAME_LIMIT
    ensures RowOf(RowFields(letter, n, name, ball, dropText)) == Some(Row([letter], b, n as real, name, ball))
  {
    RowFieldsAt(letter, n, name, ball, dropText);
    RowNameKeeps(name);
    PartsRow(RowFields(letter, n, name, ball, dropText), b, n as real, ball);
  }

  /** The row of fields whose category, number and parameters all parse. */
  lemma PartsRow(parts: seq<string>, b: Bank, num: real, ball: Ball)
    requires |parts| >= 9
    requires CategoryOf(Trim(parts[0])) == Some(b)
    requires ParseFloat(parts[1]) == Some(num)
    requires ParseParams(parts) == Some(ball)
    ensures RowOf(parts) == Some(Row(Trim(parts[0]), b, num, RowName(parts[2]), ball))
  {
    RowOfUnfold(parts);
    MakeRowSome(Trim(parts[0]), CategoryOf(Trim(parts[0])), ParseFloat(parts[1]), parts[2], ParseParams(parts));
  }

  lemma RowOfUnfold(parts: seq<string>)
    requires |parts| >= 9
    ensures RowOf(parts) == MakeRow(Trim(parts[0]), CategoryOf(Trim(parts[0])), ParseFloat(parts[1]), parts[2], ParseParams(parts))
  {
  }

  lemma MakeRowSome(code: string, bank: Option<Bank>, num: Option<real>, raw: string, params: Option<Ball>)
    requires bank.Some? && num.Some? && params.Some?
    ensures MakeRow(code, bank, num, raw, params) == Some(Row(code, bank.value, num.value, RowName(raw), params.value))
  {
  }

  lemma RowFieldsAt(letter: char, n: int, name: string, ball: Ball, dropText: string)
    ensures |RowFields(letter, n, name, ball, dropText)| == 9
    ensures RowFields(letter, n, name, ball, dropText)[0] == [letter]
    ensures RowFields(letter, n, name, ball, dropText)[1] == IntToString(n)
    ensures RowFields(letter, n, name, ball, dropText)[2] == name
  {
  }

  lemma LetterField(b: Bank)
    ensures Trim([Letter(b)]) == [Letter(b)] && CategoryOf([Letter(b)]) == Some(b)
  {
    assert TrimStart([Letter(b)]) == [Letter(b)];
  }

  /** A name that is already trimmed and short enough is kept as it is. */
  lemma RowNameKeeps(name: string)
    requires Trim(name) == name && |name| <= NAME_LIMIT
    ensures RowName(name) == name
  {
  }

  lemma ParseRowOf(line: string, parts: seq<string>)
    requires Trim(line) != [] && Fields(line) == parts
    ensures ParseRow(line) == RowOf(parts)
  {
  }
}
