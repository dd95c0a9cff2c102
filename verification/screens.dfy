/** The menu, game-over, exit and finish screens (src/screens.rs): the
    scroll window over the level list, the selection keys, the yes/no
    toggles and the name typed on the finish screen. Drawing, sleeping and
    the keyboard device are left out: a screen reads a sequence of polls,
    each poll the set of keys held at that moment. A Rust panic (u16
    underflow or overflow, an index out of range) ends the screen with
    nothing. */
module Screens {
  import opened Wrappers

  /** Rust's `u16`. */
  type U16 = x: int | 0 <= x < 0x1_0000

  /** The keys the screens look at. */
  datatype Keycode = Letter(c: char) | Digit(d: int) | Space | LShift | Backspace | Up | Down | Enter

  /** The keys held at one poll. */
  type Keys = set<Keycode>

  // ---------------------------------------------------------------------
  // The level menu
  // ---------------------------------------------------------------------

  /** The number of lines in the level box: seven, or one per level when
      there are fewer. */
  function BoxHeight(count: nat): (r: U16)
    ensures r <= 7 && r <= count
    ensures r == 7 || r == count
  {
    if count < 7 then count else 7
  }

  /** The first line shown: the window of `BoxHeight` lines is centred on
      the chosen level as far as the list allows. */
  function Low(count: nat, chosen: nat): int
  {
    var bh := BoxHeight(count);
    var want := chosen - bh / 2;
    if want < 0 then 0 else if want > count - bh then count - bh else want
  }

  /** The window shows the chosen level, is exactly `BoxHeight` lines and
      stays inside the list, so every level name it prints exists. */
  lemma WindowHoldsChoice(count: nat, chosen: nat)
    requires chosen < count
    ensures var lo := Low(count, chosen);
            var hi := lo + BoxHeight(count);
            0 <= lo <= chosen < hi <= count && hi - lo == BoxHeight(count)
  {
  }

  /** The lines `menu` prints, from `lowest` up to `highest` exclusive,
      computed in u16 arithmetic; None where a subtraction underflows. An
      empty level list always panics; otherwise the lines are the window
      of `Low`. */
  method MenuWindow(count: nat, chosen: U16) returns (w: Option<(U16, U16)>)
    ensures count == 0 ==> w == None
    ensures 0 < count < 0x1_0000 && chosen < count ==>
              w == Some((Low(count, chosen), Low(count, chosen) + BoxHeight(count)))
  {
    var boxHeight: U16 := BoxHeight(count);
    var len: U16 := count % 0x1_0000;
    var lowest: U16 := 0;
    var highest: U16 := 0;
    if chosen < (boxHeight + 1) / 2 {
      highest := boxHeight;
    } else {
      if len < 1 || len - 1 < chosen {
        return None;
      }
      if len - 1 - chosen < boxHeight / 2 {
        highest := len;
        if highest < boxHeight {
          return None;
        }
        lowest := highest - boxHeight;
      } else {
        if chosen + boxHeight / 2 + 1 >= 0x1_0000 || chosen < boxHeight / 2 {
          return None;
        }
        highest := chosen + boxHeight / 2 + 1;
        lowest := chosen - boxHeight / 2;
      }
    }
    return Some((lowest, highest));
  }

  /** Down: the next level, held at the last one; None where `+= 1`
      overflows or `len - 1` underflows. */
  function SelectDown(count: nat, chosen: U16): Option<U16>
  {
    var len := count % 0x1_0000;
    if chosen + 1 >= 0x1_0000 || len == 0 then None
    else if chosen + 1 <= len - 1 then Some(chosen + 1)
    else Some(len - 1)
  }

  /** Up: the previous level, held at the first one. */
  function SelectUp(chosen: U16): U16
  {
    if chosen >= 1 then chosen - 1 else 0
  }

  /** On a list of levels a u16 can count, Down and Up keep the selection
      on a level: Down moves one further unless it is on the last level,
      Up one back unless it is on the first. */
  lemma SelectionStaysInList(count: nat, chosen: U16)
    requires 0 < count < 0x1_0000 && chosen < count
    ensures SelectDown(count, chosen).Some?
    ensures var d := SelectDown(count, chosen).value;
            d < count && (d == chosen + 1 || d == chosen == count - 1)
    ensures var u := SelectUp(chosen);
            u < count && (u == chosen - 1 || u == chosen == 0)
  {
  }

  /** What one poll of the keys does in the menu; the first of Down, Up,
      Enter and E that is held decides. */
  datatype MenuPress = MoveDown | MoveUp | Pick | AskExit | Stay

  function MenuPressOf(keys: Keys): MenuPress
  {
    if Down in keys then MoveDown
    else if Up in keys then MoveUp
    else if Enter in keys then Pick
    else if Letter('E') in keys then AskExit
    else Stay
  }

  /** How the menu ends: a level picked, the game closed from the exit
      screen, a panic, or still waiting when the polls run out. */
  datatype MenuEnd = Picked(level: nat) | Closed | Panicked | Polling

  /** `menu` on a terminal of `width` by `height` cells: the box, 30
      cells wide, is centred, which panics in u16 arithmetic on a
      terminal narrower than 30 cells or lower than the box; then the box
      is drawn for the current selection and the keys are polled until one
      of them moves the selection, picks it, or opens the exit screen
      (which either closes the game or comes back to polling; centring its
      box of 5 lines panics on a terminal lower than 4 cells). An empty
      level list panics at the first drawing; otherwise, on a terminal
      both boxes fit and a list a u16 can count, the window and selection
      arithmetic never panics, and a picked level always exists. */
  method Menu(count: nat, width: U16, height: U16, polls: seq<Keys>) returns (r: MenuEnd)
    ensures width / 2 < 15 || height / 2 < BoxHeight(count) / 2 ==> r == Panicked
    ensures count == 0 ==> r == Panicked
    ensures (0 < count < 0x1_0000 && width / 2 >= 15 && height / 2 >= BoxHeight(count) / 2
             && height / 2 >= 5 / 2) ==> r != Panicked
    ensures r.Picked? ==> r.level < count
  {
    if width / 2 < 30 / 2 || height / 2 < BoxHeight(count) / 2 {
      return Panicked;
    }
    var chosen: U16 := 0;
    var w := MenuWindow(count, chosen);
    if count > 0 && count < 0x1_0000 {
      WindowHoldsChoice(count, chosen);
    }
    if w.None? || w.value.1 > count {
      return Panicked;
    }
    var i := 0;
    while i < |polls|
      invariant i <= |polls|
      invariant 0 < count
      invariant chosen == 0 || chosen < count % 0x1_0000
      decreases |polls| - i
    {
      match MenuPressOf(polls[i]) {
        case Pick =>
          return Picked(chosen);
        case AskExit =>
          if height / 2 < 5 / 2 {
            return Panicked;
          }
          var answer, used := YesNo(polls[i + 1..]);
          if answer == Some(true) {
            return Closed;
          }
          i := i + 1 + used;
        case Stay =>
          i := i + 1;
        case MoveDown =>
          var d := SelectDown(count, chosen);
          if count < 0x1_0000 {
            SelectionStaysInList(count, chosen);
          }
          if d.None? {
            return Panicked;
          }
          chosen := d.value;
          w := MenuWindow(count, chosen);
          if count < 0x1_0000 {
            WindowHoldsChoice(count, chosen);
          }
          if w.None? || w.value.1 > count {
            return Panicked;
          }
          i := i + 1;
        case MoveUp =>
          chosen := SelectUp(chosen);
          w := MenuWindow(count, chosen);
          if count < 0x1_0000 {
            WindowHoldsChoice(count, chosen);
          }
          if w.None? || w.value.1 > count {
            return Panicked;
          }
          i := i + 1;
      }
    }
    return Polling;
  }

  // ---------------------------------------------------------------------
  // The yes/no screens: game over and exit
  // ---------------------------------------------------------------------

  /** What one poll of the keys does on a yes/no screen: Down and Up both
      flip the answer, Enter gives it. */
  datatype YesNoPress = Flip | Decide | Wait

  function YesNoPressOf(keys: Keys): YesNoPress
  {
    if Down in keys then Flip
    else if Up in keys then Flip
    else if Enter in keys then Decide
    else Wait
  }

  /** The number of polls that flip the answer. */
  function Flips(polls: seq<Keys>): (r: nat)
    ensures r <= |polls|
    decreases |polls|
  {
    if |polls| == 0 then 0
    else Flips(polls[..|polls| - 1]) + (if YesNoPressOf(polls[|polls| - 1]) == Flip then 1 else 0)
  }

  /** The answer to a yes/no screen, which starts on yes: the polls are read
      up to the first that gives the answer (`used` of them), and the answer
      is yes exactly when the polls before it flipped it an even number of
      times; with no such poll there is no answer yet. */
  method YesNo(polls: seq<Keys>) returns (answer: Option<bool>, used: nat)
    ensures used <= |polls|
    ensures answer.None? <==> forall k :: 0 <= k < |polls| ==> YesNoPressOf(polls[k]) != Decide
    ensures answer.None? ==> used == |polls|
    ensures answer.Some? ==> 0 < used && YesNoPressOf(polls[used - 1]) == Decide
                             && (forall k :: 0 <= k < used - 1 ==> YesNoPressOf(polls[k]) != Decide)
                             && answer.value == (Flips(polls[..used - 1]) % 2 == 0)
  {
    var flag := true;
    var i := 0;
    while i < |polls|
      invariant i <= |polls|
      invariant forall k :: 0 <= k < i ==> YesNoPressOf(polls[k]) != Decide
      invariant flag == (Flips(polls[..i]) % 2 == 0)
    {
      assert polls[..i + 1][..i] == polls[..i];
      match YesNoPressOf(polls[i]) {
        case Decide =>
          return Some(flag), i + 1;
        case Flip =>
          flag := !flag;
        case Wait =>
      }
      i := i + 1;
    }
    assert polls[..|polls|] == polls;
    return None, |polls|;
  }

  /** `game_over`: whether the player tries again, once answered. */
  method GameOver(polls: seq<Keys>) returns (tryAgain: Option<bool>)
    ensures tryAgain.None? <==> forall k :: 0 <= k < |polls| ==> YesNoPressOf(polls[k]) != Decide
    ensures tryAgain.Some? ==>
              exists k :: (0 <= k < |polls| && YesNoPressOf(polls[k]) == Decide
                           && (forall j :: 0 <= j < k ==> YesNoPressOf(polls[j]) != Decide)
                           && tryAgain.value == (Flips(polls[..k]) % 2 == 0))
  {
    var used;
    tryAgain, used := YesNo(polls);
  }

  /** How the exit screen ends: the game closes, or the screen returns to
      its caller. */
  datatype ExitEnd = Close | Return

  /** `exit`: the answer starts on yes; yes closes the game, no returns. */
  method Exit(polls: seq<Keys>) returns (r: Option<ExitEnd>)
    ensures r.None? <==> forall k :: 0 <= k < |polls| ==> YesNoPressOf(polls[k]) != Decide
    ensures r == Some(Close) ==>
              exists k :: (0 <= k < |polls| && YesNoPressOf(polls[k]) == Decide
                           && (forall j :: 0 <= j < k ==> YesNoPressOf(polls[j]) != Decide)
                           && Flips(polls[..k]) % 2 == 0)
    ensures r == Some(Return) ==>
              exists k :: (0 <= k < |polls| && YesNoPressOf(polls[k]) == Decide
                           && (forall j :: 0 <= j < k ==> YesNoPressOf(polls[j]) != Decide)
                           && Flips(polls[..k]) % 2 == 1)
  {
    var answer, used := YesNo(polls);
    if answer == Some(true) {
      r := Some(Close);
    } else if answer == Some(false) {
      r := Some(Return);
    } else {
      r := None;
    }
  }

  /** An answer flipped twice is the answer it was. */
  lemma FlipTwice(polls: seq<Keys>, a: Keys, b: Keys)
    requires YesNoPressOf(a) == Flip && YesNoPressOf(b) == Flip
    ensures Flips(polls + [a, b]) == Flips(polls) + 2
  {
    var p := polls + [a, b];
    assert p[..|p| - 1] == polls + [a];
    assert (polls + [a])[..|polls|] == polls;
  }

  // ---------------------------------------------------------------------
  // The finish screen
  // ---------------------------------------------------------------------

  /** The typing table of `finish`, letters, digits and space, each with
      the text it types and the text it types with left shift; `shift4` is
      what shift and 4 type. */
  function Table(shift4: string): (t: seq<(Keycode, string, string)>)
    ensures |t| == 37
  {
    [ (Letter('A'), "a", "A"), (Letter('B'), "b", "B"), (Letter('C'), "c", "C"),
      (Letter('D'), "d", "D"), (Letter('E'), "e", "E"), (Letter('F'), "f", "F"),
      (Letter('G'), "g", "G"), (Letter('H'), "h", "H"), (Letter('I'), "i", "I"),
      (Letter('J'), "j", "J"), (Letter('K'), "k", "K"), (Letter('L'), "l", "L"),
      (Letter('M'), "m", "M"), (Letter('N'), "n", "N"), (Letter('O'), "o", "O"),
      (Letter('P'), "p", "P"), (Letter('Q'), "q", "Q"), (Letter('R'), "r", "R"),
      (Letter('S'), "s", "S"), (Letter('T'), "t", "T"), (Letter('U'), "u", "U"),
      (Letter('V'), "v", "V"), (Letter('W'), "w", "W"), (Letter('X'), "x", "X"),
      (Letter('Y'), "y", "Y"), (Letter('Z'), "z", "Z"),
      (Digit(1), "1", "!"), (Digit(2), "2", "\""), (Digit(3), "3", "#"),
      (Digit(4), "4", shift4), (Digit(5), "5", "%"), (Digit(6), "6", "&"),
      (Digit(7), "7", "/"), (Digit(8), "8", "("), (Digit(9), "9", ")"),
      (Digit(0), "0", "="), (Space, " ", " ") ]
  }

  /** The table as written: shift and 4 type the two characters "Â¤". */
  const KeyTableAsWritten: seq<(Keycode, string, string)> := Table("\U{00C2}\U{00A4}")

  /** The table with shift and 4 typing the one character "¤". */
  const KeyTable: seq<(Keycode, string, string)> := Table("\U{00A4}")

  /** The first entry of the table from i on whose key is held. */
  function FirstHeld(table: seq<(Keycode, string, string)>, keys: Keys, i: nat): (r: Option<nat>)
    requires i <= |table|
    ensures r.Some? ==> i <= r.value < |table| && table[r.value].0 in keys
                        && forall j :: i <= j < r.value ==> table[j].0 !in keys
    ensures r.None? ==> forall j :: i <= j < |table| ==> table[j].0 !in keys
    decreases |table| - i
  {
    if i == |table| then None
    else if table[i].0 in keys then Some(i)
    else FirstHeld(table, keys, i + 1)
  }

  /** The text one poll types: that of the first held table key, shifted
      when left shift is held too. */
  function Typed(table: seq<(Keycode, string, string)>, keys: Keys): Option<string>
  {
    match FirstHeld(table, keys, 0)
    case None => None
    case Some(k) => Some(if LShift in keys then table[k].2 else table[k].1)
  }

  /** Only the first held key of the table types, in its shifted form
      exactly when left shift is held. */
  lemma TypedIsFirstHeld(table: seq<(Keycode, string, string)>, keys: Keys, i: nat)
    requires i < |table| && table[i].0 in keys
    requires forall j :: 0 <= j < i ==> table[j].0 !in keys
    ensures Typed(table, keys) == Some(if LShift in keys then table[i].2 else table[i].1)
  {
    var k := FirstHeld(table, keys, 0).value;
    assert k == i;
  }

  /** The loop over the table in the key handling of `finish`. */
  method TypeKey(table: seq<(Keycode, string, string)>, keys: Keys) returns (typed: Option<string>)
    ensures typed == Typed(table, keys)
  {
    for i := 0 to |table|
      invariant forall j :: 0 <= j < i ==> table[j].0 !in keys
    {
      var key := table[i];
      if key.0 in keys {
        TypedIsFirstHeld(table, keys, i);
        if LShift in keys {
          return Some(key.2);
        } else {
          return Some(key.1);
        }
      }
    }
    return None;
  }

  /** What one poll of the keys does on the finish screen: a table key
      types, else the first of Backspace, Down or Up, Enter that is held
      decides. */
  datatype FinishPress = Type(text: string) | Erase | Toggle | Save | Ignore

  function FinishPressOf(table: seq<(Keycode, string, string)>, keys: Keys): FinishPress
  {
    match Typed(table, keys)
    case Some(s) => Type(s)
    case None =>
      if Backspace in keys then Erase
      else if Down in keys then Toggle
      else if Up in keys then Toggle
      else if Enter in keys then Save
      else Ignore
  }

  /** The name after one poll: typed text is appended, Backspace drops the
      last character of a name that has one. */
  function Edit(name: string, p: FinishPress): string
  {
    match p
    case Type(s) => name + s
    case Erase => if |name| > 0 then name[..|name| - 1] else name
    case _ => name
  }

  /** The name after a sequence of polls, starting empty. */
  function NameAfter(table: seq<(Keycode, string, string)>, polls: seq<Keys>): string
    decreases |polls|
  {
    if |polls| == 0 then ""
    else Edit(NameAfter(table, polls[..|polls| - 1]), FinishPressOf(table, polls[|polls| - 1]))
  }

  /** The number of polls that flip the finish screen's answer. */
  function Toggles(table: seq<(Keycode, string, string)>, polls: seq<Keys>): (r: nat)
    ensures r <= |polls|
    decreases |polls|
  {
    if |polls| == 0 then 0
    else Toggles(table, polls[..|polls| - 1]) + (if FinishPressOf(table, polls[|polls| - 1]) == Toggle then 1 else 0)
  }

  /** Backspace removes the last character, and leaves an empty name empty. */
  lemma EraseDropsLast(name: string)
    ensures |name| > 0 ==> Edit(name, Erase) + [name[|name| - 1]] == name
    ensures |name| == 0 ==> Edit(name, Erase) == ""
  {
  }

  /** Every key of the table types one character, shifted or not. */
  lemma OneCharEach()
    ensures forall i :: 0 <= i < |KeyTable| ==> |KeyTable[i].1| == 1 && |KeyTable[i].2| == 1
  {
  }

  /** Typing a key and then Backspace gives the name back. */
  lemma TypeThenErase(name: string, keys: Keys)
    requires Typed(KeyTable, keys).Some?
    ensures Edit(Edit(name, Type(Typed(KeyTable, keys).value)), Erase) == name
  {
    OneCharEach();
    var k := FirstHeld(KeyTable, keys, 0).value;
    var s := Typed(KeyTable, keys).value;
    assert |s| == 1;
    assert (name + s)[..|name|] == name;
  }

  /** No key of a table is Backspace, so a poll of Backspace alone
      erases. */
  lemma BackspaceErases(shift4: string)
    ensures FinishPressOf(Table(shift4), {Backspace}) == Erase
  {
    var t := Table(shift4);
    assert forall i :: 0 <= i < |t| ==> t[i].0 != Backspace;
  }

  /** On the finish screen with the table as written, shift and 4 type
      "Â¤", and a Backspace after it leaves "Â" in the name. */
  lemma ShiftFourAsWritten()
    ensures Typed(KeyTableAsWritten, {Digit(4), LShift}) == Some("\U{00C2}\U{00A4}")
    ensures NameAfter(KeyTableAsWritten, [{Digit(4), LShift}]) == "\U{00C2}\U{00A4}"
    ensures NameAfter(KeyTableAsWritten, [{Digit(4), LShift}, {Backspace}]) == "\U{00C2}"
  {
    var polls: seq<Keys> := [{Digit(4), LShift}, {Backspace}];
    TypedIsFirstHeld(KeyTableAsWritten, {Digit(4), LShift}, 29);
    BackspaceErases("\U{00C2}\U{00A4}");
    assert polls[..1] == [{Digit(4), LShift}];
    assert [{Digit(4), LShift}][..0] == [];
  }

  /** With the corrected table, shift and 4 type "¤", and a Backspace
      after it leaves the name empty. */
  lemma ShiftFourThenErase()
    ensures NameAfter(KeyTable, [{Digit(4), LShift}]) == "\U{00A4}"
    ensures NameAfter(KeyTable, [{Digit(4), LShift}, {Backspace}]) == ""
  {
    var polls: seq<Keys> := [{Digit(4), LShift}, {Backspace}];
    TypedIsFirstHeld(KeyTable, {Digit(4), LShift}, 29);
    BackspaceErases("\U{00A4}");
    assert polls[..1] == [{Digit(4), LShift}];
    assert [{Digit(4), LShift}][..0] == [];
  }

  /** A leaderboard entry. */
  datatype Entry = Entry(name: string, time: real)

  /** The leaderboard after Enter: the name and time are added when the
      name is not empty. */
  function Saved(board: seq<Entry>, name: string, time: real): (r: seq<Entry>)
    ensures name == "" ==> r == board
    ensures name != "" ==> |r| == |board| + 1 && r[..|board|] == board && r[|board|] == Entry(name, time)
  {
    if name == "" then board else board + [Entry(name, time)]
  }

  /** The entries the finish screen lists: the first five of the board, or
      all of it when it is shorter. */
  function Listed(board: seq<Entry>): (r: seq<Entry>)
    ensures |r| <= 5 && r <= board
    ensures |r| == 5 || r == board
  {
    if |board| < 5 then board else board[..5]
  }

  /** What the finish loop keeps after a poll that is not Enter. */
  predicate FinishKept(table: seq<(Keycode, string, string)>, polls: seq<Keys>, i: nat, name: string, flag: bool)
    requires i <= |polls|
  {
    name == NameAfter(table, polls[..i])
    && flag == (Toggles(table, polls[..i]) % 2 == 0)
    && forall k :: 0 <= k < i ==> FinishPressOf(table, polls[k]) != Save
  }

  lemma FinishStepKeeps(table: seq<(Keycode, string, string)>, polls: seq<Keys>, i: nat, name: string, flag: bool)
    requires i < |polls| && FinishKept(table, polls, i, name, flag)
    requires !FinishPressOf(table, polls[i]).Save?
    ensures FinishKept(table, polls, i + 1, Edit(name, FinishPressOf(table, polls[i])),
                       if FinishPressOf(table, polls[i]).Toggle? then !flag else flag)
  {
    assert polls[..i + 1][..i] == polls[..i];
  }

  /** The key handling of `finish` for one poll: the table loop, then
      Backspace, Down, Up and Enter in that order. */
  method FinishPoll(table: seq<(Keycode, string, string)>, keys: Keys) returns (press: FinishPress)
    ensures press == FinishPressOf(table, keys)
  {
    var typed := TypeKey(table, keys);
    if typed.Some? {
      press := Type(typed.value);
    } else if Backspace in keys {
      press := Erase;
    } else if Down in keys {
      press := Toggle;
    } else if Up in keys {
      press := Toggle;
    } else if Enter in keys {
      press := Save;
    } else {
      press := Ignore;
    }
  }

  /** `finish`, typing with the table as written: the name starts empty
      and the answer on yes; the polls are read up to the first Enter that
      no table key, Backspace, Down or Up overrides (at index `at`); then
      the typed name, if any, is added to the board, and the answer is yes
      exactly when the polls before it flipped it an even number of
      times. */
  method Finish(polls: seq<Keys>, board: seq<Entry>, time: real)
    returns (tryAgain: Option<bool>, saved: seq<Entry>, at: nat)
    ensures tryAgain.None? ==>
              saved == board && forall k :: 0 <= k < |polls| ==> FinishPressOf(KeyTableAsWritten, polls[k]) != Save
    ensures tryAgain.Some? ==>
              (at < |polls| && FinishPressOf(KeyTableAsWritten, polls[at]) == Save
               && (forall k :: 0 <= k < at ==> FinishPressOf(KeyTableAsWritten, polls[k]) != Save)
               && tryAgain.value == (Toggles(KeyTableAsWritten, polls[..at]) % 2 == 0)
               && saved == Saved(board, NameAfter(KeyTableAsWritten, polls[..at]), time))
  {
    var name := "";
    var flag := true;
    var i := 0;
    while i < |polls|
      invariant i <= |polls|
      invariant FinishKept(KeyTableAsWritten, polls, i, name, flag)
    {
      var press := FinishPoll(KeyTableAsWritten, polls[i]);
      if press.Save? {
        return Some(flag), Saved(board, name, time), i;
      }
      FinishStepKeeps(KeyTableAsWritten, polls, i, name, flag);
      name := Edit(name, press);
      flag := if press.Toggle? then !flag else flag;
      i := i + 1;
    }
    return None, board, |polls|;
  }
}
