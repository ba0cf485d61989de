/**
 * The result list of the renderer process: the results on screen, the
 * highlighted index (-1 for none), and what the keyboard does to them. Arrow
 * keys move the highlight and stop at the ends; Tab moves it and wraps round;
 * Enter runs the highlighted result, or the first when none is highlighted;
 * Ctrl or Meta with a digit 1-9 runs that result; Escape clears the input, or
 * hides the window when the input is already empty.
 *
 * Running a result sends one message to the main process: apps and files are
 * launched, commands run, calculator and clipboard results copied. Web,
 * system-action, alias and weather results send nothing.
 */
module Renderer {
  import opened Wrappers
  import opened Items

  /** The keys the renderer tells apart (`e.key`). */
  datatype Key = Escape | Enter | ArrowDown | ArrowUp | Tab | Character(c: char) | OtherKey

  /** A `keydown` event with its modifier flags. */
  datatype KeyEvent = KeyEvent(key: Key, shift: bool, ctrl: bool, meta: bool)

  /**
   * What the renderer sends to the main process: `app-launch`, `command-run`,
   * `clipboard-copy` (of a text, or of a calculator result's number) and
   * `window-hide`.
   */
  datatype Message = AppLaunch(path: string) | CommandRun(command: string) | ClipboardCopy(text: string) | CopyNumber(value: real) | WindowHide

  /** `executeItem(item)`: the message a result sends when it is run, if any. */
  function ExecuteItem(item: Item): (r: Option<Message>)
    ensures r.Some? <==> item.AppItem? || item.FileItem? || item.CommandItem? || item.CalcItem? || item.ClipboardItem?
    ensures item.AppItem? || item.FileItem? ==> r == Some(AppLaunch(item.path))
    ensures item.CommandItem? ==> r == Some(CommandRun(item.command))
    ensures item.CalcItem? ==> r == Some(CopyNumber(item.result))
    ensures item.ClipboardItem? ==> r == Some(ClipboardCopy(if item.value != [] then item.value else item.name))
  {
    match item
    case AppItem(_, path, _, _) => Some(AppLaunch(path))
    case FileItem(_, path, _) => Some(AppLaunch(path))
    case CommandItem(command) => Some(CommandRun(command))
    case CalcItem(_, result) => Some(CopyNumber(result))
    case ClipboardItem(name, value) => Some(ClipboardCopy(if value != [] then value else name))
    case _ => None
  }

  // ---------------------------------------------------------------------------
  // Moving the highlight over `n` results (the source moves it only when n > 0)

  /** ArrowDown: one down, stopping at the last result. */
  function ArrowDownIndex(sel: int, n: nat): (r: int)
    requires n > 0
    ensures -1 <= sel < n ==> 0 <= r < n
    ensures sel < n - 1 ==> r == sel + 1
    ensures sel >= n - 1 ==> r == n - 1
  {
    if sel + 1 < n - 1 then sel + 1 else n - 1
  }

  /** ArrowUp: one up, stopping at the first result. */
  function ArrowUpIndex(sel: int, n: nat): (r: int)
    requires n > 0
    ensures -1 <= sel < n ==> 0 <= r < n
    ensures sel > 0 ==> r == sel - 1
    ensures sel <= 0 ==> r == 0
  {
    if sel - 1 > 0 then sel - 1 else 0
  }

  /** Tab: one down, from the last result back to the first. */
  function TabIndex(sel: int, n: nat): (r: int)
    requires n > 0
    ensures -1 <= sel < n ==> 0 <= r < n
    ensures sel < n - 1 ==> r == sel + 1
    ensures sel >= n - 1 ==> r == 0
  {
    if sel < n - 1 then sel + 1 else 0
  }

  /** Shift+Tab: one up, from the first result (or from none) to the last. */
  function ShiftTabIndex(sel: int, n: nat): (r: int)
    requires n > 0
    ensures -1 <= sel < n ==> 0 <= r < n
    ensures sel > 0 ==> r == sel - 1
    ensures sel <= 0 ==> r == n - 1
  {
    if sel > 0 then sel - 1 else n - 1
  }

  /** Tab and Shift+Tab undo each other on a highlighted result. */
  lemma TabRoundTrip(sel: int, n: nat)
    requires 0 <= sel < n
    ensures ShiftTabIndex(TabIndex(sel, n), n) == sel
    ensures TabIndex(ShiftTabIndex(sel, n), n) == sel
  {
  }

  /** The arrows stop at the ends, and ArrowUp undoes ArrowDown away from the last result. */
  lemma ArrowsStopAtEnds(sel: int, n: nat)
    requires n > 0 && 0 <= sel < n
    ensures ArrowDownIndex(n - 1, n) == n - 1 && ArrowUpIndex(0, n) == 0
    ensures sel < n - 1 ==> ArrowUpIndex(ArrowDownIndex(sel, n), n) == sel
  {
  }

  /** The highlight after pressing Tab `k` times. */
  function TabTimes(sel: int, k: nat, n: nat): int
    requires n > 0
  {
    if k == 0 then sel else TabIndex(TabTimes(sel, k - 1, n), n)
  }

  /** Tab walks the results round in a cycle: `k` presses advance `k` places modulo `n`. */
  lemma {:induction false} TabCycles(sel: int, k: nat, n: nat)
    requires 0 <= sel < n
    ensures TabTimes(sel, k, n) == (sel + k) % n
  {
    if k > 0 {
      TabCycles(sel, k - 1, n);
      var prev := (sel + k - 1) % n;
      if prev < n - 1 {
        assert (sel + k) % n == prev + 1 by { ModStep(sel + k - 1, n); }
      } else {
        assert (sel + k) % n == 0 by { ModStep(sel + k - 1, n); }
      }
    }
  }

  /** Adding one to `x` adds one to its remainder, or wraps it to 0. */
  lemma ModStep(x: int, n: nat)
    requires x >= 0 && n > 0
    ensures (x + 1) % n == if x % n < n - 1 then x % n + 1 else 0
  {
    var q, m := x / n, x % n;
    if m < n - 1 {
      DivModUnique(x + 1, n, q, m + 1);
    } else {
      DivModUnique(x + 1, n, q + 1, 0);
    }
  }

  /** Quotient and remainder are the only ones: `y == q * n + m` with `0 <= m < n` fixes both. */
  lemma DivModUnique(y: int, n: nat, q: int, m: int)
    requires n > 0 && 0 <= m < n && y == q * n + m
    ensures y % n == m
  {
    var q', m' := y / n, y % n;
    assert (q - q') * n == m' - m;
    if q > q' {
      MulAtLeast(q - q', n);
    } else if q < q' {
      MulAtLeast(q' - q, n);
    }
  }

  lemma MulAtLeast(a: int, n: nat)
    requires a >= 1
    ensures a * n >= n
  {
  }

  // ---------------------------------------------------------------------------
  // One key press

  /** The result that Enter runs: the highlighted one, else the first, else none. */
  function EnterTarget(results: seq<Item>, sel: int): (r: Option<nat>)
    ensures r.Some? <==> results != []
    ensures r.Some? ==> r.value < |results|
    ensures 0 <= sel < |results| ==> r == Some(sel)
    ensures sel < 0 && results != [] ==> r == Some(0)
  {
    if 0 <= sel < |results| then Some(sel)
    else if |results| > 0 then Some(0)
    else None
  }

  /** Ctrl or Meta with a digit `d` from 1 to 9: the result at `d - 1`, when there is one. */
  function DigitTarget(ev: KeyEvent, results: seq<Item>): (r: Option<nat>)
    ensures r.Some? <==>
      && (ev.ctrl || ev.meta) && ev.key.Character? && '1' <= ev.key.c <= '9'
      && (ev.key.c as int - '1' as int) < |results|
    ensures r.Some? ==> r.value == ev.key.c as int - '1' as int && r.value < |results|
  {
    if (ev.ctrl || ev.meta) && ev.key.Character? && '1' <= ev.key.c <= '9' then
      var index := ev.key.c as int - '1' as int;
      if index < |results| then Some(index) else None
    else None
  }

  /** The message of the result at `target`, as a list of what was sent. */
  function Run(results: seq<Item>, target: Option<nat>): (r: seq<Message>)
    requires target.Some? ==> target.value < |results|
    ensures |r| <= 1
    ensures r != [] <==> target.Some? && ExecuteItem(results[target.value]).Some?
    ensures r != [] ==> r == [ExecuteItem(results[target.value]).value]
  {
    if target.Some? && ExecuteItem(results[target.value]).Some? then [ExecuteItem(results[target.value]).value] else []
  }

  /** The renderer's state as far as the keyboard can change it. */
  datatype View = View(input: string, results: seq<Item>, selected: int)

  /** The highlight points at a result, or is -1. */
  predicate InRange(v: View) {
    -1 <= v.selected < |v.results|
  }

  /** `handleKeyPress(e)`: the view after the key and the messages it sent. */
  function KeyStep(v: View, ev: KeyEvent): (r: (View, seq<Message>))
    ensures InRange(v) ==> InRange(r.0)
    ensures |r.1| <= 1
    ensures ev.key != Escape ==> r.0.input == v.input && r.0.results == v.results
    ensures ev.key == Escape && v.input != [] ==> r == (View([], [], -1), [])
    ensures ev.key == Escape && v.input == [] ==> r == (v, [WindowHide])
    ensures ev.key == Enter ==> r == (v, Run(v.results, EnterTarget(v.results, v.selected)))
    ensures ev.key.Character? ==> r == (v, Run(v.results, DigitTarget(ev, v.results)))
    ensures ev.key in {ArrowDown, ArrowUp, Tab} && v.results != [] && InRange(v) ==> 0 <= r.0.selected < |v.results|
    ensures ev.key in {ArrowDown, ArrowUp, Tab} && v.results == [] ==> r == (v, [])
    ensures ev.key == ArrowDown && v.results != [] ==> r == (v.(selected := ArrowDownIndex(v.selected, |v.results|)), [])
    ensures ev.key == ArrowUp && v.results != [] ==> r == (v.(selected := ArrowUpIndex(v.selected, |v.results|)), [])
    ensures ev.key == Tab && !ev.shift && v.results != [] ==> r == (v.(selected := TabIndex(v.selected, |v.results|)), [])
    ensures ev.key == Tab && ev.shift && v.results != [] ==> r == (v.(selected := ShiftTabIndex(v.selected, |v.results|)), [])
  {
    var n := |v.results|;
    match ev.key
    case Escape => if v.input != [] then (View([], [], -1), []) else (v, [WindowHide])
    case Enter => (v, Run(v.results, EnterTarget(v.results, v.selected)))
    case ArrowDown => if n > 0 then (v.(selected := ArrowDownIndex(v.selected, n)), []) else (v, [])
    case ArrowUp => if n > 0 then (v.(selected := ArrowUpIndex(v.selected, n)), []) else (v, [])
    case Tab =>
      if n == 0 then (v, [])
      else if ev.shift then (v.(selected := ShiftTabIndex(v.selected, n)), [])
      else (v.(selected := TabIndex(v.selected, n)), [])
    case Character(_) => (v, Run(v.results, DigitTarget(ev, v.results)))
    case OtherKey => (v, [])
  }

  /** A digit shortcut with an empty list, or past its end, sends nothing. */
  lemma DigitPastEndIgnored(v: View, ev: KeyEvent)
    requires ev.key.Character? && '1' <= ev.key.c <= '9'
    requires |v.results| <= ev.key.c as int - '1' as int
    ensures KeyStep(v, ev) == (v, [])
  {
  }

  // ---------------------------------------------------------------------------
  // The renderer's module state

  class ResultView {
    var inputValue: string
    var currentResults: seq<Item>
    var selectedIndex: int

    function Current(): View
      reads this
    {
      View(inputValue, currentResults, selectedIndex)
    }

    ghost predicate Valid()
      reads this
    {
      InRange(Current())
    }

    constructor ()
      ensures Valid() && Current() == View([], [], -1)
    {
      inputValue := [];
      currentResults := [];
      selectedIndex := -1;
    }

    /** `selectItem(index)`: highlight the result under the mouse or chosen by a key. */
    method SelectItem(index: int)
      requires 0 <= index < |currentResults|
      modifies this
      ensures Valid()
      ensures Current() == old(Current()).(selected := index)
    {
      selectedIndex := index;
    }

    /** `clearResults()`: no results and no highlight. */
    method ClearResults()
      modifies this
      ensures Valid()
      ensures Current() == View(old(inputValue), [], -1)
    {
      currentResults := [];
      selectedIndex := -1;
    }

    /** `renderResults`: the highlight goes back to none whenever a list is drawn. */
    method RenderResults()
      modifies this
      ensures Valid()
      ensures Current() == old(Current()).(selected := -1)
    {
      selectedIndex := -1;
    }

    /** `clearSearch()`: empty input, no results, no highlight. */
    method ClearSearch()
      modifies this
      ensures Valid()
      ensures Current() == View([], [], -1)
    {
      inputValue := [];
      ClearResults();
    }

    /**
     * `handleSearchInput`: the input now holds `value`; an empty value clears
     * the results at once, any other schedules a search for it after the delay.
     */
    method HandleSearchInput(value: string) returns (scheduled: Option<string>)
      modifies this
      ensures old(Valid()) ==> Valid()
      ensures value == [] ==> scheduled == None && Current() == View([], [], -1)
      ensures value != [] ==> scheduled == Some(value) && Current() == old(Current()).(input := value)
    {
      inputValue := value;
      if value == [] {
        ClearResults();
        return None;
      }
      return Some(value);
    }

    /** `performSearch`: the main process's answer, None when it failed or gave nothing, replaces the list. */
    method PerformSearch(response: Option<seq<Item>>)
      modifies this
      ensures Valid()
      ensures Current() == View(old(inputValue), if response.Some? then response.value else [], -1)
    {
      currentResults := if response.Some? then response.value else [];
      RenderResults();
    }

    /** `handleKeyPress(e)`, returning the messages sent to the main process. */
    method HandleKeyPress(ev: KeyEvent) returns (sent: seq<Message>)
      requires Valid()
      modifies this
      ensures Valid()
      ensures (Current(), sent) == KeyStep(old(Current()), ev)
    {
      sent := [];
      var n := |currentResults|;
      match ev.key {
        case Escape =>
          if inputValue != [] {
            ClearSearch();
          } else {
            sent := [WindowHide];
          }
        case Enter =>
          var target := EnterTarget(currentResults, selectedIndex);
          sent := Run(currentResults, target);
        case ArrowDown =>
          if n > 0 {
            SelectItem(ArrowDownIndex(selectedIndex, n));
          }
        case ArrowUp =>
          if n > 0 {
            SelectItem(ArrowUpIndex(selectedIndex, n));
          }
        case Tab =>
          if n > 0 {
            if ev.shift {
              SelectItem(ShiftTabIndex(selectedIndex, n));
            } else {
              SelectItem(TabIndex(selectedIndex, n));
            }
          }
        case Character(_) =>
        case OtherKey =>
      }
      var digit := DigitTarget(ev, currentResults);
      if digit.Some? {
        assert sent == [] && [] + Run(currentResults, digit) == Run(currentResults, digit);
        sent := sent + Run(currentResults, digit);
      }
    }
  }
}
