/** The inline keyboards and the coloured progress bar shown above every survey prompt. */
module Keyboards {
  import opened PyText
  import opened I18n

  datatype Button = Button(text: string, callbackData: string)

  /** `InlineKeyboardMarkup`: rows of buttons. */
  datatype Markup = Markup(rows: seq<seq<Button>>)

  /** One row: the "find a tour" button that starts the survey. */
  function MainMenuKb(t: Translator): Markup
  {
    Markup([[Button(Template(t, "find_tour"), "start_survey")]])
  }

  /** One row: the "back" button. */
  function BackKb(t: Translator): Markup
  {
    Markup([[Button(Template(t, "back"), "back")]])
  }

  /** Two rows: "skip" above "back". */
  function SkipKb(t: Translator): Markup
  {
    Markup([[Button(Template(t, "skip"), "skip")], [Button(Template(t, "back"), "back")]])
  }

  /** The callback data of every button, row by row. */
  function Callbacks(m: Markup): seq<string>
  {
    RowsCallbacks(m.rows)
  }

  function RowsCallbacks(rows: seq<seq<Button>>): seq<string>
  {
    if rows == [] then [] else RowCallbacks(rows[0]) + RowsCallbacks(rows[1..])
  }

  function RowCallbacks(row: seq<Button>): seq<string>
  {
    if row == [] then [] else [row[0].callbackData] + RowCallbacks(row[1..])
  }

  /** What each keyboard can send back: the main menu only `start_survey`, the back keyboard only
      `back`, the skip keyboard `skip` then `back`, one button per row. */
  lemma KeyboardCallbacks(t: Translator)
    ensures Callbacks(MainMenuKb(t)) == ["start_survey"] && |MainMenuKb(t).rows| == 1
    ensures Callbacks(BackKb(t)) == ["back"] && |BackKb(t).rows| == 1
    ensures Callbacks(SkipKb(t)) == ["skip", "back"] && |SkipKb(t).rows| == 2
    ensures forall r :: r in SkipKb(t).rows ==> |r| == 1
  {
    var back := Button(Template(t, "back"), "back");
    var skip := Button(Template(t, "skip"), "skip");
    var menu := Button(Template(t, "find_tour"), "start_survey");
    assert [back][1..] == [] && [skip][1..] == [] && [menu][1..] == [];
    assert RowCallbacks([back]) == ["back"] && RowCallbacks([skip]) == ["skip"];
    assert RowCallbacks([menu]) == ["start_survey"];
    assert [[back]][1..] == [] && [[menu]][1..] == [];
    assert [[skip], [back]][1..] == [[back]];
    assert RowsCallbacks([[menu]]) == RowCallbacks([menu]) + RowsCallbacks([]);
    assert RowsCallbacks([[back]]) == RowCallbacks([back]) + RowsCallbacks([]);
  }

  /** `emoji_list`: red, orange, yellow, green, blue, purple, black. */
  const Palette: seq<char> := ['\U{1F534}', '\U{1F7E0}', '\U{1F7E1}', '\U{1F7E2}', '\U{1F535}', '\U{1F7E3}', '\U{26AB}']
  const Green: char := '\U{1F7E2}'
  /** The white circle of a step not yet reached. */
  const Blank: char := '\U{26AA}'

  /** `emoji_list[current - 1]` with Python's indexing from the end for non-positive indices,
      or green beyond the palette. Indices below -7 raise `IndexError`, hence the precondition. */
  function FilledSymbol(current: int): (c: char)
    requires current >= 1 - |Palette|
    ensures c != Blank
    ensures 1 <= current <= |Palette| ==> c == Palette[current - 1]
  {
    if current > |Palette| then Green
    else if current >= 1 then Palette[current - 1]
    else Palette[current - 1 + |Palette|]
  }

  /** The first `count` cells: cell i (1-based) is `filled` if i < current, blank otherwise. */
  function Cells(current: int, count: nat, filled: char): (cells: seq<char>)
    ensures |cells| == count
    ensures forall i :: 0 <= i < count ==> cells[i] == if i + 1 < current then filled else Blank
  {
    if count == 0 then [] else Cells(current, count - 1, filled) + [if count < current then filled else Blank]
  }

  /** `progress_bar(current, total)`: `total` cells, then a space and `current/total`. */
  function ProgressBar(current: int, total: int): (bar: string)
    requires current >= 1 - |Palette|
    ensures var n := if total > 0 then total else 0;
      |bar| > n && bar[n..] == " " + Show(current) + "/" + Show(total)
      && forall i :: 0 <= i < n ==> bar[i] == if i + 1 < current then FilledSymbol(current) else Blank
  {
    var n := if total > 0 then total else 0;
    var cells := Cells(current, n, FilledSymbol(current));
    var caption := " " + Show(current) + "/" + Show(total);
    assert (cells + caption)[n..] == caption;
    assert forall i :: 0 <= i < n ==> (cells + caption)[i] == cells[i];
    cells + caption
  }

  /** The number of cells that are not blank. */
  function FilledCount(cells: seq<char>): nat
  {
    if cells == [] then 0 else FilledCount(cells[..|cells| - 1]) + (if cells[|cells| - 1] != Blank then 1 else 0)
  }

  /** Step k of the survey (1 <= k <= total + 1) shows exactly k - 1 filled cells. */
  lemma {:induction false} CellsFilledCount(current: int, count: nat, filled: char)
    requires filled != Blank && 1 <= current
    ensures FilledCount(Cells(current, count, filled)) == if current - 1 < count then current - 1 else count
  {
    if count > 0 {
      var c := Cells(current, count, filled);
      assert c[..count - 1] == Cells(current, count - 1, filled);
      CellsFilledCount(current, count - 1, filled);
    }
  }

  /** The bar of the first prompt has no filled cell, that of the last prompt six, all black. */
  lemma FirstAndLastBars()
    ensures FilledCount(ProgressBar(1, 7)[..7]) == 0
    ensures FilledCount(ProgressBar(7, 7)[..7]) == 6
    ensures forall i :: 0 <= i < 6 ==> ProgressBar(7, 7)[i] == '\U{26AB}'
    ensures ProgressBar(7, 7)[6] == Blank
  {
    assert ProgressBar(1, 7)[..7] == Cells(1, 7, FilledSymbol(1));
    assert ProgressBar(7, 7)[..7] == Cells(7, 7, FilledSymbol(7));
    CellsFilledCount(1, 7, FilledSymbol(1));
    CellsFilledCount(7, 7, FilledSymbol(7));
  }
}
