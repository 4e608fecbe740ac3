/**
 * scripts/make-layout.py: recording a keyboard layout from key events.
 * The user first releases Return, then, for each combination of shift and
 * altgr, holds the modifiers, presses every key of the four described rows
 * in order, and lets the modifiers go. Each released key is stored under
 * its key id (`AE00`, `AD01`, ...) in the slot of the current modifiers.
 * The events, which the script reads from `xev`, are a sequence here; one
 * the script asks for past its end raises StopIteration.
 */
module MakeLayout {
  import opened Wrappers
  import Keyboard

  /** A key event as `keyboard_events` yields it; `name` is already `''` where `xev` gave none. */
  datatype Event = Event(pressed: bool, code: int, keysym: int, symbol: string, name: string)

  /** `is_shift(symbol)` */
  predicate IsShift(symbol: string)
  {
    symbol == "Shift_L" || symbol == "Shift_R"
  }

  /** `is_altgr(symbol)` */
  predicate IsAltGr(symbol: string)
  {
    symbol == "ISO_Level3_Shift"
  }

  /** Whether an event concerns shift or altgr. */
  predicate IsModifier(e: Event)
  {
    IsShift(e.symbol) || IsAltGr(e.symbol)
  }

  /** The two shift keys are shift and not altgr; the level 3 shift is altgr and not shift; nothing is both. */
  lemma ModifierSymbols(symbol: string)
    ensures IsShift("Shift_L") && IsShift("Shift_R") && !IsAltGr("Shift_L") && !IsAltGr("Shift_R")
    ensures IsAltGr("ISO_Level3_Shift") && !IsShift("ISO_Level3_Shift")
    ensures !(IsShift(symbol) && IsAltGr(symbol))
  {
  }

  /** `name or ''` of `keyboard_events`: a missing display name becomes empty. */
  function DisplayName(name: Option<string>): (r: string)
    ensures name.Some? ==> r == name.value
    ensures name.None? ==> r == ""
  {
    if name.Some? then name.value else ""
  }

  /** `sep.join(parts)` */
  function Join(sep: string, parts: seq<string>): (r: string)
    ensures parts == [] ==> r == ""
    ensures |parts| == 1 ==> r == parts[0]
  {
    if parts == [] then ""
    else if |parts| == 1 then parts[0]
    else parts[0] + sep + Join(sep, parts[1..])
  }

  /** `describe_modifiers(shift, altgr)`: empty exactly without modifiers, a single modifier by its own name. */
  function Describe(shift: bool, altgr: bool): (r: string)
    ensures r == "" <==> !shift && !altgr
    ensures shift != altgr ==> r == (if shift then "shift" else "altgr")
  {
    Join(" and ", (if shift then ["shift"] else []) + (if altgr then ["altgr"] else []))
  }

  /**
   * The four descriptions, so that no instruction is printed for the
   * round without modifiers and the other rounds are told apart.
   */
  lemma DescribeCases(shift: bool, altgr: bool)
    ensures Describe(false, false) == ""
    ensures Describe(true, false) == "shift"
    ensures Describe(false, true) == "altgr"
    ensures Describe(true, true) == "shift and altgr"
    ensures Describe(shift, altgr) == "" <==> !shift && !altgr
  {
    assert ["shift"] + ["altgr"] == ["shift", "altgr"];
    assert (["shift", "altgr"])[1..] == ["altgr"];
  }

  /**
   * The modifier flags `wait_for_modifiers` holds after these events: each
   * shift or altgr event sets its flag to `pressed != release`, and other
   * events change nothing. A flag is set only after an event of its own
   * modifier.
   */
  function Flags(events: seq<Event>, release: bool): (r: (bool, bool))
    ensures r.0 ==> exists i :: 0 <= i < |events| && IsShift(events[i].symbol)
    ensures r.1 ==> exists i :: 0 <= i < |events| && IsAltGr(events[i].symbol)
  {
    if events == [] then (false, false)
    else
      var (shift, altgr) := Flags(events[..|events| - 1], release);
      var e := events[|events| - 1];
      if IsShift(e.symbol) then (e.pressed != release, altgr)
      else if IsAltGr(e.symbol) then (shift, e.pressed != release)
      else (shift, altgr)
  }

  /** Events other than shift and altgr leave the flags as they are. */
  lemma {:induction false} FlagsIgnoreOthers(events: seq<Event>, others: seq<Event>, release: bool)
    requires forall i :: 0 <= i < |others| ==> !IsModifier(others[i])
    ensures Flags(events + others, release) == Flags(events, release)
    decreases |others|
  {
    if others == [] {
      assert events + others == events;
    } else {
      var front := others[..|others| - 1];
      assert (events + others)[..|events + others| - 1] == events + front;
      var last := others[|others| - 1];
      assert (events + others)[|events + others| - 1] == last;
      assert !IsModifier(last);
      assert forall i :: 0 <= i < |front| ==> front[i] == others[i];
      FlagsIgnoreOthers(events, front, release);
      assert Flags(events + others, release) == Flags(events + front, release);
    }
  }

  /** The flags are decided by the last shift event and the last altgr event. */
  lemma FlagsLast(events: seq<Event>, e: Event, release: bool)
    ensures IsShift(e.symbol) ==> Flags(events + [e], release).0 == (e.pressed != release)
    ensures IsAltGr(e.symbol) ==> Flags(events + [e], release).1 == (e.pressed != release)
  {
    assert (events + [e])[..|events|] == events;
  }

  /**
   * `wait_for_modifiers(events, shift_value, altgr_value, release)` from
   * position `pos`: it returns the position after the first prefix whose
   * flags are the targets, taking no event when the targets are both
   * false; ok is false where it runs out of events first.
   */
  method WaitForModifiers(events: seq<Event>, pos: nat, shiftValue: bool, altgrValue: bool, release: bool)
    returns (next: nat, ok: bool)
    requires pos <= |events|
    ensures pos <= next <= |events|
    ensures ok <==> Flags(events[pos..next], release) == (shiftValue, altgrValue)
    ensures !ok ==> next == |events|
    ensures forall k :: pos <= k < next ==> Flags(events[pos..k], release) != (shiftValue, altgrValue)
  {
    var shift := false;
    var altgr := false;
    next := pos;
    while (shift, altgr) != (shiftValue, altgrValue) && next < |events|
      invariant pos <= next <= |events|
      invariant (shift, altgr) == Flags(events[pos..next], release)
      invariant forall k :: pos <= k < next ==> Flags(events[pos..k], release) != (shiftValue, altgrValue)
    {
      var e := events[next];
      if IsShift(e.symbol) {
        shift := e.pressed != release;
      } else if IsAltGr(e.symbol) {
        altgr := e.pressed != release;
      }
      assert events[pos..next + 1][..next - pos] == events[pos..next];
      next := next + 1;
    }
    ok := (shift, altgr) == (shiftValue, altgrValue);
  }

  /** The rounds, as `product(*tee((False, True)))` gives them. */
  const Combinations: seq<(bool, bool)> := [(false, false), (false, true), (true, false), (true, true)]

  /**
   * The rounds fill the four slots once each. A round's slot,
   * `shift << 0 | altgr << 1`, is the one the on-screen keyboard reads for
   * the same modifiers, so it is `Keyboard.Index`.
   */
  lemma SlotsCovered(i: nat)
    requires i < 4
    ensures exists m :: 0 <= m < 4 && Keyboard.Index(Combinations[m].0, Combinations[m].1) == i
    ensures forall m, n :: 0 <= m < n < 4 ==>
      Keyboard.Index(Combinations[m].0, Combinations[m].1) != Keyboard.Index(Combinations[n].0, Combinations[n].1)
  {
    if i == 0 { assert Keyboard.Index(Combinations[0].0, Combinations[0].1) == 0; }
    if i == 1 { assert Keyboard.Index(Combinations[2].0, Combinations[2].1) == 1; }
    if i == 2 { assert Keyboard.Index(Combinations[1].0, Combinations[1].1) == 2; }
    if i == 3 { assert Keyboard.Index(Combinations[3].0, Combinations[3].1) == 3; }
  }

  /** The number of keys described in each row of `LAYOUT_DESCRIPTION`. */
  const RowLengths: seq<nat> := [13, 12, 12, 11]

  /** A decimal digit. */
  function Digit(d: nat): (r: char)
    requires d < 10
    ensures '0' <= r <= '9'
  {
    ('0' as int + d) as char
  }

  /** `'%d' % n` */
  function Decimal(n: nat): (r: string)
    ensures |r| >= 1
    decreases n
  {
    if n < 10 then [Digit(n)] else Decimal(n / 10) + [Digit(n % 10)]
  }

  /** `'%02d' % n` */
  function Pad2(n: nat): (r: string)
    ensures n < 100 ==> r == [Digit(n / 10), Digit(n % 10)]
  {
    if n < 10 then ['0', Digit(n)]
    else
      assert n < 100 ==> Decimal(n / 10) == [Digit(n / 10)];
      Decimal(n)
  }

  /** `'EDCB'[row]` */
  function RowLetter(row: nat): (r: char)
    requires row < 4
    ensures 'B' <= r <= 'E'
  {
    ('E' as int - row) as char
  }

  /** `'A%c%02d' % ('EDCB'[row], col + int(row > 0))`: `A`, the row's letter, then two digits for a column below 99. */
  function KeyId(row: nat, col: nat): (r: string)
    requires row < 4
    ensures |r| >= 4 && r[0] == 'A' && r[1] == RowLetter(row)
    ensures col < 99 ==> |r| == 4 && '0' <= r[2] <= '9' && '0' <= r[3] <= '9'
  {
    ['A', RowLetter(row)] + Pad2(col + (if row > 0 then 1 else 0))
  }

  /** Two keys of the description never share a key id. */
  lemma KeyIdInjective(row1: nat, col1: nat, row2: nat, col2: nat)
    requires row1 < 4 && row2 < 4 && col1 < 99 && col2 < 99
    ensures KeyId(row1, col1) == KeyId(row2, col2) <==> row1 == row2 && col1 == col2
  {
    if KeyId(row1, col1) == KeyId(row2, col2) {
      assert KeyId(row1, col1)[1] == KeyId(row2, col2)[1];
      var n1 := col1 + (if row1 > 0 then 1 else 0);
      var n2 := col2 + (if row2 > 0 then 1 else 0);
      assert KeyId(row1, col1)[2] == Digit(n1 / 10) && KeyId(row1, col1)[3] == Digit(n1 % 10);
      assert KeyId(row2, col2)[2] == Digit(n2 / 10) && KeyId(row2, col2)[3] == Digit(n2 % 10);
    }
  }

  /** The first keys of the rows: `AE00`, `AD01`, `AC01` and `AB01`. */
  lemma FirstKeyIds()
    ensures KeyId(0, 0) == "AE00" && KeyId(1, 0) == "AD01" && KeyId(2, 0) == "AC01" && KeyId(3, 0) == "AB01"
    ensures KeyId(0, 12) == "AE12"
  {
  }

  /** One slot of a recorded key: `''` until it holds `[name, keysym, symbol]`. */
  datatype Slot = Unset | Captured(name: string, keysym: int, symbol: string)

  /** How waiting for a key of a row ends. */
  datatype Outcome = Found | ModifierChanged | Exhausted

  /** An event the row capture passes over: a press, or a key already recorded in this round. */
  predicate Skipped(e: Event, codes: set<int>)
  {
    !IsModifier(e) && (e.pressed || e.code in codes)
  }

  /**
   * The inner loop of `make_layout` from position `pos`: the outcome and
   * the position after the last event taken. A shift or altgr event raises
   * RuntimeError; the first release of a key not recorded in this round is
   * the key.
   */
  function Scan(events: seq<Event>, pos: nat, codes: set<int>): (r: (Outcome, nat))
    requires pos <= |events|
    ensures pos <= r.1 <= |events|
    ensures r.0 == Exhausted <==> r.1 == |events| && forall k :: pos <= k < |events| ==> Skipped(events[k], codes)
    ensures r.0 != Exhausted ==> pos < r.1 && forall k :: pos <= k < r.1 - 1 ==> Skipped(events[k], codes)
    ensures r.0 == ModifierChanged ==> IsModifier(events[r.1 - 1])
    ensures r.0 == Found ==> var e := events[r.1 - 1]; !IsModifier(e) && !e.pressed && e.code !in codes
    decreases |events| - pos
  {
    if pos == |events| then (Exhausted, pos)
    else if IsModifier(events[pos]) then (ModifierChanged, pos + 1)
    else if events[pos].pressed || events[pos].code in codes then Scan(events, pos + 1, codes)
    else (Found, pos + 1)
  }

  /** A recorded layout: every key id holds four slots. */
  predicate WellFormed(layout: map<string, seq<Slot>>)
  {
    forall id :: id in layout ==> |layout[id]| == 4
  }

  /** `data[index] = [name, keysym, symbol]`, creating `[''] * 4` for a new key id. */
  function Store(layout: map<string, seq<Slot>>, id: string, index: nat, e: Event): (r: map<string, seq<Slot>>)
    requires WellFormed(layout) && index < 4
    ensures WellFormed(r) && id in r && r[id][index] == Captured(e.name, e.keysym, e.symbol)
    ensures forall i :: 0 <= i < 4 && i != index ==> r[id][i] == (if id in layout then layout[id][i] else Unset)
    ensures forall other :: other != id ==> (other in r <==> other in layout) && (other in layout ==> r[other] == layout[other])
  {
    var data := if id in layout then layout[id] else [Unset, Unset, Unset, Unset];
    layout[id := data[index := Captured(e.name, e.keysym, e.symbol)]]
  }

  /** Nothing recorded is lost: key ids stay and captured slots stay captured. */
  predicate Grows(before: map<string, seq<Slot>>, after: map<string, seq<Slot>>)
    requires WellFormed(before) && WellFormed(after)
  {
    forall id :: id in before ==> id in after && forall i :: 0 <= i < 4 && before[id][i].Captured? ==> after[id][i].Captured?
  }

  /**
   * Waiting for one key of a row: the events the capture takes, the key
   * codes recorded, and the layout after it.
   */
  method CaptureKey(events: seq<Event>, pos: nat, codes: set<int>, layout: map<string, seq<Slot>>, id: string, index: nat)
    returns (outcome: Outcome, next: nat, codes': set<int>, layout': map<string, seq<Slot>>)
    requires pos <= |events| && WellFormed(layout) && index < 4
    ensures (outcome, next) == Scan(events, pos, codes)
    ensures outcome == Found ==> codes' == codes + {events[next - 1].code} && layout' == Store(layout, id, index, events[next - 1])
    ensures outcome != Found ==> codes' == codes && layout' == layout
  {
    next := pos;
    while next < |events| && Skipped(events[next], codes)
      invariant pos <= next <= |events|
      invariant Scan(events, pos, codes) == Scan(events, next, codes)
    {
      next := next + 1;
    }
    codes', layout' := codes, layout;
    if next == |events| {
      return Exhausted, next, codes', layout';
    }
    var e := events[next];
    next := next + 1;
    if IsModifier(e) {
      return ModifierChanged, next, codes', layout';
    }
    codes' := codes + {e.code};
    var data := if id in layout then layout[id] else [Unset, Unset, Unset, Unset];
    data := data[index := Captured(e.name, e.keysym, e.symbol)];
    layout' := layout[id := data];
    outcome := Found;
  }

  /** Whether every key of the first `row` rows, and the first `col` keys of row `row`, holds a captured slot `index`. */
  predicate RowsDone(layout: map<string, seq<Slot>>, index: nat, row: nat, col: nat)
    requires WellFormed(layout) && index < 4
  {
    forall r: nat, c: nat :: r < 4 && c < RowLengths[r] && (r < row || (r == row && c < col)) ==>
      KeyId(r, c) in layout && layout[KeyId(r, c)][index].Captured?
  }

  /** Recording the key at (row, col) extends the keys done by one and loses nothing. */
  lemma StoreAdvances(layout: map<string, seq<Slot>>, index: nat, row: nat, col: nat, e: Event)
    requires WellFormed(layout) && index < 4 && row < 4 && col < RowLengths[row]
    requires RowsDone(layout, index, row, col)
    ensures RowsDone(Store(layout, KeyId(row, col), index, e), index, row, col + 1)
    ensures Grows(layout, Store(layout, KeyId(row, col), index, e))
  {
    var after: map<string, seq<Slot>> := Store(layout, KeyId(row, col), index, e);
    forall id: string | id in layout
      ensures id in after && forall i :: 0 <= i < 4 && layout[id][i].Captured? ==> after[id][i].Captured?
    {
      if id == KeyId(row, col) {
        assert forall i :: 0 <= i < 4 && i != index ==> after[id][i] == layout[id][i];
      }
    }
  }

  /** A finished row moves the capture to the start of the next one. */
  lemma RowFinished(layout: map<string, seq<Slot>>, index: nat, row: nat)
    requires WellFormed(layout) && index < 4 && row < 4
    requires RowsDone(layout, index, row, RowLengths[row])
    ensures RowsDone(layout, index, row + 1, 0)
  {
  }

  /** Growing is transitive. */
  lemma GrowsTransitive(a: map<string, seq<Slot>>, b: map<string, seq<Slot>>, c: map<string, seq<Slot>>)
    requires WellFormed(a) && WellFormed(b) && WellFormed(c)
    requires Grows(a, b) && Grows(b, c)
    ensures Grows(a, c)
  {
  }

  /**
   * One round of `make_layout` after the modifiers are held: every key of
   * every row is recorded in slot `index`; ok is false where a modifier
   * changes or the events run out.
   */
  method CaptureRound(events: seq<Event>, pos: nat, layout: map<string, seq<Slot>>, index: nat)
    returns (next: nat, layout': map<string, seq<Slot>>, ok: bool)
    requires pos <= |events| && WellFormed(layout) && index < 4
    ensures pos <= next <= |events| && WellFormed(layout') && Grows(layout, layout')
    ensures ok ==> RowsDone(layout', index, 4, 0)
  {
    var codes: set<int> := {};
    next, layout' := pos, layout;
    var row := 0;
    while row < 4
      invariant row <= 4 && pos <= next <= |events| && WellFormed(layout') && Grows(layout, layout')
      invariant RowsDone(layout', index, row, 0)
    {
      var col := 0;
      while col < RowLengths[row]
        invariant col <= RowLengths[row] && pos <= next <= |events| && WellFormed(layout') && Grows(layout, layout')
        invariant RowsDone(layout', index, row, col)
      {
        var outcome;
        var before := layout';
        outcome, next, codes, layout' := CaptureKey(events, next, codes, layout', KeyId(row, col), index);
        if outcome != Found {
          return next, layout', false;
        }
        StoreAdvances(before, index, row, col, events[next - 1]);
        GrowsTransitive(layout, before, layout');
        col := col + 1;
      }
      RowFinished(layout', index, row);
      row := row + 1;
    }
    ok := true;
  }

  /** Whether a layout holds all four slots of every described key. */
  predicate Complete(layout: map<string, seq<Slot>>)
    requires WellFormed(layout)
  {
    forall r: nat, c: nat :: r < 4 && c < RowLengths[r] ==>
      KeyId(r, c) in layout && forall i :: 0 <= i < 4 ==> layout[KeyId(r, c)][i].Captured?
  }

  /** Whether the first `m` rounds have filled their slots for every described key. */
  predicate RoundsDone(layout: map<string, seq<Slot>>, m: nat)
    requires WellFormed(layout) && m <= 4
  {
    forall n :: 0 <= n < m ==> RowsDone(layout, Keyboard.Index(Combinations[n].0, Combinations[n].1), 4, 0)
  }

  /** Once all four rounds are done, every described key has all four slots. */
  lemma AllRoundsComplete(layout: map<string, seq<Slot>>)
    requires WellFormed(layout) && RoundsDone(layout, 4)
    ensures Complete(layout)
  {
    forall r: nat, c: nat | r < 4 && c < RowLengths[r]
      ensures KeyId(r, c) in layout && forall i :: 0 <= i < 4 ==> layout[KeyId(r, c)][i].Captured?
    {
      assert RowsDone(layout, Keyboard.Index(Combinations[0].0, Combinations[0].1), 4, 0);
      forall i | 0 <= i < 4
        ensures layout[KeyId(r, c)][i].Captured?
      {
        SlotsCovered(i);
        var m :| 0 <= m < 4 && Keyboard.Index(Combinations[m].0, Combinations[m].1) == i;
        assert RowsDone(layout, i, 4, 0);
      }
    }
  }

  /** A slot of every described key filled in an earlier round stays filled. */
  lemma RoundsKept(before: map<string, seq<Slot>>, after: map<string, seq<Slot>>, m: nat)
    requires WellFormed(before) && WellFormed(after) && m <= 4
    requires RoundsDone(before, m) && Grows(before, after)
    ensures RoundsDone(after, m)
  {
    forall n | 0 <= n < m
      ensures RowsDone(after, Keyboard.Index(Combinations[n].0, Combinations[n].1), 4, 0)
    {
      var index := Keyboard.Index(Combinations[n].0, Combinations[n].1);
      assert RowsDone(before, index, 4, 0);
    }
  }

  /**
   * `make_layout`: skip to the release of Return, then run the four
   * rounds, each waiting for its modifiers to be held, capturing all rows
   * and waiting for the modifiers to be let go. When it finishes, every
   * described key has all four slots recorded.
   */
  method MakeLayout(events: seq<Event>) returns (layout: map<string, seq<Slot>>, ok: bool)
    ensures WellFormed(layout)
    ensures ok ==> Complete(layout)
  {
    var pos := 0;
    while pos < |events| && !(!events[pos].pressed && events[pos].symbol == "Return")
      invariant pos <= |events|
    {
      pos := pos + 1;
    }
    if pos < |events| {
      pos := pos + 1;
    }
    layout := map[];
    var m := 0;
    while m < 4
      invariant m <= 4 && pos <= |events| && WellFormed(layout) && RoundsDone(layout, m)
    {
      var (shift, altgr) := Combinations[m];
      var index := Keyboard.Index(shift, altgr);
      var held;
      pos, held := WaitForModifiers(events, pos, shift, altgr, false);
      if !held {
        return layout, false;
      }
      var before := layout;
      var captured;
      pos, layout, captured := CaptureRound(events, pos, layout, index);
      RoundsKept(before, layout, m);
      if !captured {
        return layout, false;
      }
      var released;
      pos, released := WaitForModifiers(events, pos, shift, altgr, true);
      if !released {
        return layout, false;
      }
      m := m + 1;
    }
    AllRoundsComplete(layout);
    ok := true;
  }
}
