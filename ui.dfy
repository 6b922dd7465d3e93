/** The state-changing handlers of js/ui.js: creating a custom drill,
    moving a custom drill to another bank by drag and drop, storing a new
    button order, and the display name of a drill key. A custom bank is
    named by its `Bank`; the page's category strings `custom-a`,
    `custom-b`, `custom-c` stand for A, B and C. */
module Ui {
  import opened Optional
  import opened Text
  import opened Drills
  import opened State
  import opened Editor

  const NAME_MAX: nat := 25
  const CUSTOM_PREFIX: string := "cust_"

  /** The shot a new drill starts with, at level 1. */
  const NEW_BALL: Ball := Ball(4123, 2233, 50, 0.0, 50, 1)

  /** The drill handleCreateNewDrill stores. */
  const NEW_DRILL: Drill := Drill(map[1 := [Options([NEW_BALL])], 2 := [], 3 := []], false)

  /** The three banks, in the order handleTabDrop visits them. */
  const BANKS: seq<Bank> := [A, B, C]

  /** The built-in categories whose order lives in drillOrder. */
  const BUILTIN: seq<string> := ["basic", "combined", "complex"]

  predicate HasBanks(banks: map<Bank, seq<Entry>>)
  {
    A in banks && B in banks && C in banks
  }

  /** The number of entries in the three banks together. */
  function BankTotal(banks: map<Bank, seq<Entry>>): nat
    requires HasBanks(banks)
  {
    |banks[A]| + |banks[B]| + |banks[C]|
  }

  // ---------------------------------------------------------------------
  // Creating a drill

  /** A character the name pattern accepts: a letter, a digit, a space or
      one of `. - # [ ] > < + ( )`. */
  predicate NameChar(c: char)
  {
    || 'a' <= c <= 'z' || 'A' <= c <= 'Z' || '0' <= c <= '9'
    || c == '.' || c == '-' || c == '#' || c == '[' || c == ']'
    || c == '>' || c == '<' || c == '+' || c == ')' || c == '(' || c == ' '
  }

  /** The whole name matches the pattern (one or more accepted characters). */
  predicate NamePattern(name: string)
  {
    |name| >= 1 && forall i :: 0 <= i < |name| ==> NameChar(name[i])
  }

  /** `cust_<bank letter>_`. */
  function BankPrefix(bank: Bank): (p: string)
    ensures |p| == 7
  {
    CUSTOM_PREFIX + [Letter(bank)] + "_"
  }

  /** `cust_<bank letter>_<name, runs of white space as _>_<time>`. */
  function NewKey(bank: Bank, name: string, now: nat): (r: string)
    ensures |r| > 7 && r[..7] == BankPrefix(bank)
  {
    BankPrefix(bank) + (UnderscoreSpaces(name) + "_" + IntToString(now))
  }

  /** A key behind a bank's prefix names that bank. */
  lemma PrefixNamesBank(bank: Bank, rest: string)
    ensures StartsWith(BankPrefix(bank) + rest, BankPrefix(bank))
    ensures BankOfKey(BankPrefix(bank) + rest) == Some(bank)
  {
    var k := BankPrefix(bank) + rest;
    assert k[..7] == BankPrefix(bank);
    assert k[0] == 'c' && k[1] == 'u' && k[2] == 's' && k[3] == 't' && k[4] == '_';
    assert k[5] == Letter(bank) && k[6] == '_';
  }

  /** The part of a new key after the prefix holds no white space. */
  lemma KeyTailNoSpace(name: string, now: nat)
    ensures forall i :: 0 <= i < |UnderscoreSpaces(name) + "_" + IntToString(now)| ==>
              !IsSpace((UnderscoreSpaces(name) + "_" + IntToString(now))[i])
  {
    var u := UnderscoreSpaces(name);
    var d := IntToString(now);
    assert d == NatToString(now);
    var t := u + "_" + d;
    forall i | 0 <= i < |t| ensures !IsSpace(t[i]) {
      if i < |u| {
        assert t[i] == u[i];
      } else if i > |u| {
        assert t[i] == d[i - |u| - 1];
      }
    }
  }

  /** A new key starts with the bank's prefix, names that bank and holds
      no white space. */
  lemma NewKeyShape(bank: Bank, name: string, now: nat)
    ensures StartsWith(NewKey(bank, name, now), BankPrefix(bank))
    ensures BankOfKey(NewKey(bank, name, now)) == Some(bank)
    ensures forall i :: 0 <= i < |NewKey(bank, name, now)| ==> !IsSpace(NewKey(bank, name, now)[i])
  {
    var t := UnderscoreSpaces(name) + "_" + IntToString(now);
    PrefixNamesBank(bank, t);
    KeyTailNoSpace(name, now);
    var k := NewKey(bank, name, now);
    forall i | 0 <= i < |k| ensures !IsSpace(k[i]) {
      if i >= 7 {
        assert k[i] == t[i - 7];
      }
    }
  }

  /** The outcome of handleCreateNewDrill. */
  datatype CreateOutcome = Full | Cancelled | TooLong | BadChars | Created(key: string)

  /** The checks of handleCreateNewDrill, in order, for a bank holding
      `size` drills and the answer to the name prompt (`None` when the
      prompt was dismissed). */
  function Admit(size: int, answer: Option<string>, bank: Bank, now: nat): (r: CreateOutcome)
    // the capacity check comes first, then the dismissed or empty answer
    ensures r == Full <==> size >= BANK_CAPACITY
    ensures r == Cancelled <==> size < BANK_CAPACITY && (answer.None? || answer.value == "")
    ensures r == TooLong ==> answer.Some? && |answer.value| > NAME_MAX
    ensures r == BadChars ==> answer.Some? && !NamePattern(answer.value)
  {
    if size >= BANK_CAPACITY then Full
    else if answer.None? || answer.value == "" then Cancelled
    else if |answer.value| > NAME_MAX then TooLong
    else if !NamePattern(answer.value) then BadChars
    else Created(NewKey(bank, answer.value, now))
  }

  /** A drill is created exactly when the bank has room and the name has
      1 to 25 characters, all accepted by the pattern. */
  lemma AdmitSpec(size: int, answer: Option<string>, bank: Bank, now: nat)
    ensures Admit(size, answer, bank, now).Created? <==>
              size < BANK_CAPACITY && answer.Some? && 1 <= |answer.value| <= NAME_MAX && NamePattern(answer.value)
    ensures Admit(size, answer, bank, now).Created? ==>
              Admit(size, answer, bank, now).key == NewKey(bank, answer.value, now)
  {
  }

  /** handleCreateNewDrill: after the checks, one entry is appended to the
      bank, the new drill is stored under the new key, and the editor is
      opened on it. `answer` is the prompt's answer, `now` the clock and
      `checkbox` whether the page has the editor's checkbox. */
  method HandleCreateNewDrill(store: Store, editor: Editor, bank: Bank, answer: Option<string>,
                              now: nat, checkbox: bool)
    returns (outcome: CreateOutcome)
    requires bank in store.banks && editor.store == store
    modifies store`banks, store`drills, editor`editingKey, editor`temp
    ensures outcome == Admit(|old(store.banks[bank])|, answer, bank, now)
    ensures !outcome.Created? ==>
              && store.banks == old(store.banks) && store.drills == old(store.drills)
              && editor.editingKey == old(editor.editingKey) && editor.temp == old(editor.temp)
    ensures outcome.Created? ==>
              && store.banks == old(store.banks)[bank := old(store.banks[bank]) + [Entry(answer.value, outcome.key)]]
              && store.drills == old(store.drills)[outcome.key := NEW_DRILL]
              && editor.editingKey == Some(outcome.key)
              && editor.temp == Some(Opened(store.drills, outcome.key, store.selectedLevel))
  {
    outcome := Admit(|store.banks[bank]|, answer, bank, now);
    if |store.banks[bank]| >= BANK_CAPACITY {
      return;
    }
    if answer.None? || answer.value == "" {
      return;
    }
    var name := answer.value;
    if |name| > NAME_MAX || !NamePattern(name) {
      return;
    }
    var key := NewKey(bank, name, now);
    store.banks := store.banks[bank := store.banks[bank] + [Entry(name, key)]];
    store.drills := store.drills[key := NEW_DRILL];
    var _ := editor.OpenEditor(key, checkbox);
  }

  /** The editor opened on a new drill at level 1 holds its one shot; at
      levels 2 and 3 it holds no step. */
  lemma NewDrillOpens(drills: map<string, Drill>, key: string, level: int)
    requires key in drills && drills[key] == NEW_DRILL
    ensures level == 1 ==> Opened(drills, key, level) == [[NEW_BALL]]
    ensures (level == 2 || level == 3) ==> Opened(drills, key, level) == []
    ensures !(1 <= level <= 3) ==> Opened(drills, key, level) == [[DEFAULT_BALL]]
  {
    if level == 1 {
      var w := Working(NEW_DRILL.levels[1]);
      assert NormalizeLevel(NEW_DRILL.levels[1])[0] == Options([NEW_BALL]);
      assert w[0] == [NEW_BALL];
    }
  }

  // ---------------------------------------------------------------------
  // Moving a drill to another bank

  /** ASCII lower-casing, which is what the `i` flag folds for these
      letters. */
  function LowerAscii(c: char): (r: char)
    ensures 'A' <= c <= 'Z' ==> 'a' <= r <= 'z'
    ensures !('A' <= c <= 'Z') ==> r == c
  {
    if 'A' <= c <= 'Z' then (c as int + 32) as char else c
  }

  /** The key starts with `cust_`, a bank letter and `_`, in either case
      (`/^cust_[ABC]_/i`). */
  predicate CustomPrefix(key: string)
  {
    && |key| >= 7
    && LowerAscii(key[0]) == 'c' && LowerAscii(key[1]) == 'u' && LowerAscii(key[2]) == 's'
    && LowerAscii(key[3]) == 't' && key[4] == '_'
    && (LowerAscii(key[5]) == 'a' || LowerAscii(key[5]) == 'b' || LowerAscii(key[5]) == 'c')
    && key[6] == '_'
  }

  /** The bank a key's prefix names, when it has one. */
  function BankOfKey(key: string): Option<Bank>
  {
    if !CustomPrefix(key) then None
    else if LowerAscii(key[5]) == 'a' then Some(A)
    else if LowerAscii(key[5]) == 'b' then Some(B)
    else Some(C)
  }

  /** The key with its prefix rewritten to name bank `target`. */
  function Rekey(key: string, target: Bank): (r: string)
    ensures |r| == |key|
    ensures CustomPrefix(key) ==> r[..7] == BankPrefix(target) && r[7..] == key[7..]
    ensures !CustomPrefix(key) ==> r == key
  {
    if CustomPrefix(key) then BankPrefix(target) + key[7..] else key
  }

  /** A rewritten key names the target bank and keeps the rest of the key;
      a key without the prefix is kept as it is. */
  lemma RekeyNamesTarget(key: string, target: Bank)
    ensures CustomPrefix(key) ==> BankOfKey(Rekey(key, target)) == Some(target) && Rekey(key, target)[7..] == key[7..]
    ensures !CustomPrefix(key) ==> Rekey(key, target) == key
  {
    if CustomPrefix(key) {
      PrefixNamesBank(target, key[7..]);
    }
  }

  /** The key a dropped drill is stored under: the rewritten key, with the
      time appended when the rewritten key is taken. */
  function DroppedKey(drills: map<string, Drill>, key: string, target: Bank, now: nat): (r: string)
    ensures |r| >= |key| && r[..|key|] == Rekey(key, target)
    ensures Rekey(key, target) !in drills ==> r == Rekey(key, target)
  {
    var k := Rekey(key, target);
    if k in drills then k + "_" + IntToString(now) else k
  }

  /** A drill that exists never lands on its own key, so deleting the old
      key keeps the copy. */
  lemma DroppedKeyFresh(drills: map<string, Drill>, key: string, target: Bank, now: nat)
    requires key in drills
    ensures DroppedKey(drills, key, target, now) != key
  {
    var k := Rekey(key, target);
    if k in drills {
      assert |k + "_" + IntToString(now)| > |key|;
    }
  }

  /** Where the dragged key was found: the last of the banks A, B, C (the
      first `n` of them) holding it, with its position. */
  function Located(banks: map<Bank, seq<Entry>>, key: string, n: nat): (r: Option<(Bank, nat)>)
    requires HasBanks(banks) && n <= 3
    ensures r.Some? ==> r.value.0 in banks && r.value.1 < |banks[r.value.0]|
    ensures r.Some? ==> banks[r.value.0][r.value.1].key == key
    ensures r.None? ==> forall m :: 0 <= m < n ==> IndexOfKey(banks[BANKS[m]], key) == -1
  {
    if n == 0 then None
    else
      var i := IndexOfKey(banks[BANKS[n - 1]], key);
      if i >= 0 then Some((BANKS[n - 1], i)) else Located(banks, key, n - 1)
  }

  /** The forEach over the three banks; a later match overwrites an earlier
      one. */
  method FindSource(banks: map<Bank, seq<Entry>>, key: string) returns (src: Option<(Bank, nat)>)
    requires HasBanks(banks)
    ensures src == Located(banks, key, 3)
  {
    src := None;
    for c := 0 to 3
      invariant src == Located(banks, key, c)
    {
      var idx := IndexOfKey(banks[BANKS[c]], key);
      if idx != -1 {
        src := Some((BANKS[c], idx));
      }
    }
  }

  /** The list without position i. */
  function RemoveAt(list: seq<Entry>, i: nat): (r: seq<Entry>)
    requires i < |list|
    ensures |r| == |list| - 1
    ensures forall j :: 0 <= j < i ==> r[j] == list[j]
    ensures forall j :: i <= j < |r| ==> r[j] == list[j + 1]
  {
    list[..i] + list[i + 1..]
  }

  /** The banks after a move of entry `idx` of bank `src` to `target`
      under `newKey`. */
  function MovedBanks(banks: map<Bank, seq<Entry>>, src: Bank, idx: nat, target: Bank, newKey: string)
    : map<Bank, seq<Entry>>
    requires src in banks && target in banks && idx < |banks[src]|
  {
    banks[target := banks[target] + [Entry(banks[src][idx].name, newKey)]][src := RemoveAt(banks[src], idx)]
  }

  /** A move between two different banks keeps the number of custom
      entries, and the moved entry keeps its name. */
  lemma MovedBanksCount(banks: map<Bank, seq<Entry>>, src: Bank, idx: nat, target: Bank, newKey: string)
    requires HasBanks(banks) && idx < |banks[src]| && src != target
    ensures HasBanks(MovedBanks(banks, src, idx, target, newKey))
    ensures BankTotal(MovedBanks(banks, src, idx, target, newKey)) == BankTotal(banks)
    ensures |MovedBanks(banks, src, idx, target, newKey)[target]| == |banks[target]| + 1
    ensures MovedBanks(banks, src, idx, target, newKey)[target][|banks[target]|] == Entry(banks[src][idx].name, newKey)
  {
    var r := MovedBanks(banks, src, idx, target, newKey);
    assert r[src] == RemoveAt(banks[src], idx);
    assert r[target] == banks[target] + [Entry(banks[src][idx].name, newKey)];
  }

  /** The outcome of handleTabDrop. */
  datatype DropOutcome = NoKey | NotFound | SameBank | TargetFull | MissingData | Moved(newKey: string)

  /** The writes of a successful drop: the drill copied to the new key,
      the entry appended to the target bank and removed from its source,
      the old key deleted. */
  method MoveEntry(store: Store, key: string, src: Bank, idx: nat, target: Bank, newKey: string)
    requires src in store.banks && target in store.banks && src != target
    requires idx < |store.banks[src]| && key in store.drills
    modifies store`banks, store`drills
    ensures store.banks == MovedBanks(old(store.banks), src, idx, target, newKey)
    ensures store.drills == old(store.drills)[newKey := old(store.drills)[key]] - {key}
  {
    store.drills := store.drills[newKey := store.drills[key]];
    var name := store.banks[src][idx].name;
    store.banks := store.banks[target := store.banks[target] + [Entry(name, newKey)]];
    store.banks := store.banks[src := RemoveAt(store.banks[src], idx)];
    store.drills := store.drills - {key};
  }

  /** handleTabDrop: the dragged key is looked up in the banks; a drill
      found in another bank that has room moves there under its rewritten
      key. Copying a drill whose data is missing throws before anything
      changes. `now` is the clock. */
  method HandleTabDrop(store: Store, key: string, target: Bank, now: nat) returns (outcome: DropOutcome)
    requires HasBanks(store.banks)
    modifies store`banks, store`drills
    ensures !outcome.Moved? ==> store.banks == old(store.banks) && store.drills == old(store.drills)
    ensures outcome == NoKey <==> key == ""
    ensures outcome == NotFound <==> key != "" && Located(old(store.banks), key, 3).None?
    ensures outcome.Moved? <==>
              && key != "" && Located(old(store.banks), key, 3).Some?
              && Located(old(store.banks), key, 3).value.0 != target
              && |old(store.banks)[target]| < BANK_CAPACITY
              && key in old(store.drills)
    ensures outcome.Moved? ==>
              var (src, idx) := Located(old(store.banks), key, 3).value;
              && outcome.newKey == DroppedKey(old(store.drills), key, target, now)
              && store.banks == MovedBanks(old(store.banks), src, idx, target, outcome.newKey)
              && store.drills == old(store.drills)[outcome.newKey := old(store.drills)[key]] - {key}
  {
    if key == "" {
      return NoKey;
    }
    var found := FindSource(store.banks, key);
    if found.None? {
      return NotFound;
    }
    var (src, idx) := found.value;
    if src == target {
      return SameBank;
    }
    if |store.banks[target]| >= BANK_CAPACITY {
      return TargetFull;
    }
    var newKey := Rekey(key, target);
    if newKey in store.drills {
      newKey := newKey + "_" + IntToString(now);
    }
    if key !in store.drills {
      return MissingData;
    }
    MoveEntry(store, key, src, idx, target, newKey);
    outcome := Moved(newKey);
  }

  /** After a move the drill's data sits under the new key only, every
      other drill is untouched, and the banks hold as many entries as
      before. */
  lemma DropMoves(drills: map<string, Drill>, banks: map<Bank, seq<Entry>>, key: string, target: Bank, now: nat)
    requires HasBanks(banks) && key in drills
    requires Located(banks, key, 3).Some? && Located(banks, key, 3).value.0 != target
    ensures var k := DroppedKey(drills, key, target, now);
            var d := drills[k := drills[key]] - {key};
            && k in d && d[k] == drills[key] && key !in d
            && (forall other :: other in drills && other != key && other != k ==> other in d && d[other] == drills[other])
    ensures var (src, idx) := Located(banks, key, 3).value;
            BankTotal(MovedBanks(banks, src, idx, target, DroppedKey(drills, key, target, now))) == BankTotal(banks)
  {
    DroppedKeyFresh(drills, key, target, now);
    var (src, idx) := Located(banks, key, 3).value;
    MovedBanksCount(banks, src, idx, target, DroppedKey(drills, key, target, now));
  }

  // ---------------------------------------------------------------------
  // Reordering

  /** The custom list rebuilt from the keys in their new order: each key's
      first entry, keys with no entry skipped. */
  function Rebuilt(list: seq<Entry>, keys: seq<string>): (r: seq<Entry>)
    ensures |r| <= |keys|
    ensures forall j :: 0 <= j < |r| ==> r[j] in list
    decreases |keys|
  {
    if keys == [] then []
    else
      var r := Rebuilt(list, keys[..|keys| - 1]);
      var i := IndexOfKey(list, keys[|keys| - 1]);
      if i >= 0 then r + [list[i]] else r
  }

  predicate AllListed(list: seq<Entry>, keys: seq<string>)
  {
    forall j :: 0 <= j < |keys| ==> HasKey(list, keys[j])
  }

  /** When every key has an entry, the rebuilt list has one entry per key,
      in the keys' order. */
  lemma {:induction false} RebuiltFollowsKeys(list: seq<Entry>, keys: seq<string>)
    requires AllListed(list, keys)
    ensures |Rebuilt(list, keys)| == |keys|
    ensures forall j :: 0 <= j < |keys| ==> Rebuilt(list, keys)[j].key == keys[j]
    decreases |keys|
  {
    if keys != [] {
      var init := keys[..|keys| - 1];
      assert AllListed(list, init) by {
        forall j | 0 <= j < |init| ensures HasKey(list, init[j]) {
          assert init[j] == keys[j];
        }
      }
      RebuiltFollowsKeys(list, init);
      var last := keys[|keys| - 1];
      assert HasKey(list, last);
      var i := IndexOfKey(list, last);
      assert i >= 0;
      var r0 := Rebuilt(list, init);
      assert Rebuilt(list, keys) == r0 + [list[i]];
      forall j | 0 <= j < |keys| ensures Rebuilt(list, keys)[j].key == keys[j] {
        if j < |init| {
          assert keys[j] == init[j];
        }
      }
    }
  }

  /** The forEach of handleReorder over the new keys. */
  method RebuildList(list: seq<Entry>, keys: seq<string>) returns (r: seq<Entry>)
    ensures r == Rebuilt(list, keys)
  {
    r := [];
    for j := 0 to |keys|
      invariant r == Rebuilt(list, keys[..j])
    {
      var i := IndexOfKey(list, keys[j]);
      assert keys[..j + 1][..j] == keys[..j];
      if i != -1 {
        r := r + [list[i]];
      }
    }
    assert keys[..|keys|] == keys;
  }

  predicate Distinct<T(==)>(s: seq<T>)
  {
    forall i, j :: 0 <= i < j < |s| ==> s[i] != s[j]
  }

  function KeysOf(list: seq<Entry>): (r: seq<string>)
    ensures |r| == |list|
    ensures forall i :: 0 <= i < |list| ==> r[i] == list[i].key
  {
    seq(|list|, i requires 0 <= i < |list| => list[i].key)
  }

  /** A sequence without repeats has as many elements as positions. */
  lemma {:induction false} DistinctCard<T>(s: seq<T>)
    requires Distinct(s)
    ensures |set x | x in s| == |s|
  {
    if s != [] {
      var t := s[1..];
      assert Distinct(t) by {
        forall i, j | 0 <= i < j < |t| ensures t[i] != t[j] {
          assert t[i] == s[i + 1] && t[j] == s[j + 1];
        }
      }
      DistinctCard(t);
      assert (set x | x in s) == {s[0]} + (set x | x in t);
      assert s[0] !in t by {
        forall i | 0 <= i < |t| ensures t[i] != s[0] {
          assert t[i] == s[i + 1];
        }
      }
    }
  }

  /** In a sequence without repeats each element occurs once. */
  lemma {:induction false} DistinctMultiset<T>(s: seq<T>)
    requires Distinct(s)
    ensures forall x :: multiset(s)[x] == if x in s then 1 else 0
  {
    if s != [] {
      var t := s[1..];
      assert Distinct(t) by {
        forall i, j | 0 <= i < j < |t| ensures t[i] != t[j] {
          assert t[i] == s[i + 1] && t[j] == s[j + 1];
        }
      }
      DistinctMultiset(t);
      assert s == [s[0]] + t;
      assert s[0] !in t by {
        forall i | 0 <= i < |t| ensures t[i] != s[0] {
          assert t[i] == s[i + 1];
        }
      }
    }
  }

  /** Entries with different keys are different entries. */
  lemma DistinctKeysDistinct(list: seq<Entry>)
    requires DistinctKeys(list)
    ensures Distinct(list)
  {
  }

  /** Keys without repeats, as many as the list's entries and each naming
      one of them, name every entry. */
  lemma KeysCoverList(list: seq<Entry>, keys: seq<string>)
    requires DistinctKeys(list) && Distinct(keys) && |keys| == |list| && AllListed(list, keys)
    ensures forall m :: 0 <= m < |list| ==> list[m].key in keys
  {
    var lk := KeysOf(list);
    assert Distinct(lk);
    DistinctCard(lk);
    DistinctCard(keys);
    var ks := set x | x in keys;
    var ls := set x | x in lk;
    assert ks <= ls by {
      forall x | x in keys ensures x in ls {
        var j :| 0 <= j < |keys| && keys[j] == x;
        var m :| 0 <= m < |list| && list[m].key == keys[j];
        assert lk[m] == x;
      }
    }
    assert |ls - ks| == |ls| - |ks|;
    assert ks == ls;
    forall m | 0 <= m < |list| ensures list[m].key in keys {
      assert lk[m] in ls;
    }
  }

  /** The rebuilt list holds every entry of the old one, and no entry
      twice. */
  lemma RebuiltCoversList(list: seq<Entry>, keys: seq<string>)
    requires DistinctKeys(list) && Distinct(keys) && |keys| == |list| && AllListed(list, keys)
    ensures Distinct(Rebuilt(list, keys))
    ensures forall e :: e in list ==> e in Rebuilt(list, keys)
  {
    var r := Rebuilt(list, keys);
    RebuiltFollowsKeys(list, keys);
    KeysCoverList(list, keys);
    assert Distinct(r) by {
      forall i, j | 0 <= i < j < |r| ensures r[i] != r[j] {
        assert r[i].key == keys[i] && r[j].key == keys[j];
      }
    }
    forall e | e in list ensures e in r {
      var m :| 0 <= m < |list| && list[m] == e;
      var j :| 0 <= j < |keys| && keys[j] == e.key;
      assert r[j] in list && r[j].key == e.key;
      var m2 :| 0 <= m2 < |list| && list[m2] == r[j];
      assert list[m2].key == list[m].key;
    }
  }

  /** When the new order lists every key of a list without repeats once,
      the rebuilt list is a permutation of the old one. */
  lemma RebuiltPermutes(list: seq<Entry>, keys: seq<string>)
    requires DistinctKeys(list) && Distinct(keys) && |keys| == |list| && AllListed(list, keys)
    ensures multiset(Rebuilt(list, keys)) == multiset(list)
  {
    var r := Rebuilt(list, keys);
    RebuiltCoversList(list, keys);
    DistinctKeysDistinct(list);
    DistinctMultiset(r);
    DistinctMultiset(list);
    forall x ensures multiset(r)[x] == multiset(list)[x] {
      assert x in r <==> x in list;
    }
  }

  /** The category strings of the custom banks. */
  function BankOfCategory(category: string): Option<Bank>
  {
    if category == "custom-a" then Some(A)
    else if category == "custom-b" then Some(B)
    else if category == "custom-c" then Some(C)
    else None
  }

  datatype ReorderOutcome = Reordered | Kept | NoList

  /** handleReorder: the keys of the buttons in their new order replace a
      built-in order, or rebuild a custom list, when there are as many of
      them as before. A category with no stored list throws. */
  method HandleReorder(store: Store, category: string, newKeys: seq<string>) returns (outcome: ReorderOutcome)
    modifies store`order, store`banks
    ensures outcome == NoList <==>
              if category in BUILTIN then category !in old(store.order)
              else BankOfCategory(category).None? || BankOfCategory(category).value !in old(store.banks)
    ensures outcome != Reordered ==> store.order == old(store.order) && store.banks == old(store.banks)
    ensures outcome == Reordered && category in BUILTIN ==>
              && |newKeys| == |old(store.order)[category]|
              && store.order == old(store.order)[category := newKeys] && store.banks == old(store.banks)
    ensures outcome == Reordered && category !in BUILTIN ==>
              var b := BankOfCategory(category).value;
              && |newKeys| == |old(store.banks)[b]|
              && store.banks == old(store.banks)[b := Rebuilt(old(store.banks)[b], newKeys)]
              && store.order == old(store.order)
    ensures outcome == Kept ==>
              if category in BUILTIN then |newKeys| != |old(store.order)[category]|
              else |newKeys| != |old(store.banks)[BankOfCategory(category).value]|
  {
    if category in BUILTIN {
      if category !in store.order {
        return NoList;
      }
      if |newKeys| == |store.order[category]| {
        store.order := store.order[category := newKeys];
        return Reordered;
      }
      return Kept;
    }
    var bank := BankOfCategory(category);
    if bank.None? || bank.value !in store.banks {
      return NoList;
    }
    var b := bank.value;
    if |newKeys| == |store.banks[b]| {
      var list := RebuildList(store.banks[b], newKeys);
      store.banks := store.banks[b := list];
      return Reordered;
    }
    outcome := Kept;
  }

  // ---------------------------------------------------------------------
  // Display names

  /** A character `\w` matches. */
  predicate WordChar(c: char)
  {
    'a' <= c <= 'z' || 'A' <= c <= 'Z' || '0' <= c <= '9' || c == '_'
  }

  function UpperAscii(c: char): (r: char)
    ensures 'a' <= c <= 'z' ==> 'A' <= r <= 'Z'
    ensures !('a' <= c <= 'z') ==> r == c
  {
    if 'a' <= c <= 'z' then (c as int - 32) as char else c
  }

  /** Position i of s is where `\b\w` matches: a word character with no
      word character before it. */
  predicate WordStart(s: string, i: int)
    requires 0 <= i < |s|
  {
    WordChar(s[i]) && (i == 0 || !WordChar(s[i - 1]))
  }

  /** `replace(/-/g, ' ')`. */
  function Spaced(s: string): (r: string)
    ensures |r| == |s|
  {
    seq(|s|, i requires 0 <= i < |s| => if s[i] == '-' then ' ' else s[i])
  }

  /** `replace(/\b\w/g, l => l.toUpperCase())`. */
  function Capitalized(s: string): (r: string)
    ensures |r| == |s|
  {
    seq(|s|, i requires 0 <= i < |s| => if WordStart(s, i) then UpperAscii(s[i]) else s[i])
  }

  /** formatDrillName. */
  function FormatDrillName(key: string): (r: string)
    ensures |r| == |key|
    ensures StartsWith(key, CUSTOM_PREFIX) ==> r == key
  {
    if StartsWith(key, CUSTOM_PREFIX) then key else Capitalized(Spaced(key))
  }

  /** Upper-casing keeps a character a word character or not. */
  lemma UpperKeepsWord(c: char)
    ensures WordChar(UpperAscii(c)) == WordChar(c)
  {
  }

  /** A built-in key's display name has no dash; each dash became a
      space, every word starts with no lower-case letter, and every other
      character is kept. */
  lemma FormatDrillNameSpec(key: string)
    requires !StartsWith(key, CUSTOM_PREFIX)
    ensures forall i :: 0 <= i < |key| ==> FormatDrillName(key)[i] != '-'
    ensures forall i :: 0 <= i < |key| ==> (FormatDrillName(key)[i] == ' ' <==> key[i] == '-' || key[i] == ' ')
    ensures forall i :: 0 <= i < |key| && WordStart(FormatDrillName(key), i) ==>
              !('a' <= FormatDrillName(key)[i] <= 'z')
    ensures forall i :: 0 <= i < |key| && key[i] != '-' && !WordStart(Spaced(key), i) ==>
              FormatDrillName(key)[i] == key[i]
  {
    var s := Spaced(key);
    var r := FormatDrillName(key);
    forall i | 0 <= i < |key| && WordStart(r, i) ensures !('a' <= r[i] <= 'z') {
      UpperKeepsWord(s[i]);
      if i > 0 {
        UpperKeepsWord(s[i - 1]);
      }
      assert WordStart(s, i);
    }
  }

  /** Formatting a display name again changes nothing. */
  lemma FormatDrillNameIdempotent(key: string)
    ensures FormatDrillName(FormatDrillName(key)) == FormatDrillName(key)
  {
    if !StartsWith(key, CUSTOM_PREFIX) {
      var s := Spaced(key);
      var r := FormatDrillName(key);
      FormatDrillNameSpec(key);
      if |key| >= 1 && WordChar(s[0]) {
        assert WordStart(s, 0);
      }
      assert !StartsWith(r, CUSTOM_PREFIX) by {
        if |r| >= 5 && key[0] == 'c' {
          assert r[0] == 'C';
        }
      }
      assert Spaced(r) == r;
      forall i | 0 <= i < |r| ensures Capitalized(r)[i] == r[i] {
        UpperKeepsWord(s[i]);
        if i > 0 {
          UpperKeepsWord(s[i - 1]);
        }
      }
    }
  }

  /** A built-in combination key as the buttons show it. */
  lemma FormatDrillNameExample()
    ensures FormatDrillName("push(b)-loop(f)") == "Push(B) Loop(F)"
  {
    var s := Spaced("push(b)-loop(f)");
    assert s == "push(b) loop(f)";
    assert !StartsWith("push(b)-loop(f)", CUSTOM_PREFIX) by {
      assert "push(b)-loop(f)"[0] != CUSTOM_PREFIX[0];
    }
    var r := Capitalized(s);
    forall i | 0 <= i < 15 ensures r[i] == "Push(B) Loop(F)"[i] {
      assert s[i] == "push(b) loop(f)"[i];
    }
  }
}
