/**
 * The keyboard-shortcut dispatcher (src/hooks/useKeyboardShortcuts.ts).
 *
 * On every key press the hook searches its list of shortcuts for the first
 * one whose key equals the event's key ignoring case and whose four modifier
 * flags equal the event's; an absent flag reads as `false`.  On a match it
 * prevents the browser's default action and calls that shortcut's handler.
 * Handlers are code the model cannot see, so a shortcut is identified by its
 * position in the list and "calling the handler" is reporting that position.
 */
module KeyboardShortcuts {
  import opened Wrappers

  /** A registered shortcut; each modifier flag is optional. */
  datatype Shortcut = Shortcut(
    key: string,
    ctrlKey: Option<bool>,
    metaKey: Option<bool>,
    shiftKey: Option<bool>,
    altKey: Option<bool>)

  /** The fields of a `keydown` event that the matcher reads. */
  datatype KeyEvent = KeyEvent(
    key: string,
    ctrlKey: bool,
    metaKey: bool,
    shiftKey: bool,
    altKey: bool)

  /** What one key press does: whether the default was prevented, and the handlers called, in order. */
  datatype Dispatch = Dispatch(defaultPrevented: bool, handlersCalled: seq<nat>)

  /** `!!flag`: an absent flag counts as `false`. */
  function Flag(flag: Option<bool>): bool {
    flag == Some(true)
  }

  /** Lower-casing of one character, on the ASCII letters only. */
  function LowerChar(c: char): char {
    if 'A' <= c <= 'Z' then (c as int - 'A' as int + 'a' as int) as char else c
  }

  /** `toLowerCase`, character by character. */
  function Lower(s: string): string {
    seq(|s|, i requires 0 <= i < |s| => LowerChar(s[i]))
  }

  /** The `find` predicate: same key ignoring case, and all four modifiers exactly equal. */
  predicate Matches(shortcut: Shortcut, e: KeyEvent)
    ensures Matches(shortcut, e) ==> |shortcut.key| == |e.key|
    ensures Matches(shortcut, e) ==>
      (e.ctrlKey <==> shortcut.ctrlKey == Some(true)) &&
      (e.metaKey <==> shortcut.metaKey == Some(true)) &&
      (e.shiftKey <==> shortcut.shiftKey == Some(true)) &&
      (e.altKey <==> shortcut.altKey == Some(true))
  {
    Lower(shortcut.key) == Lower(e.key) &&
    Flag(shortcut.ctrlKey) == e.ctrlKey &&
    Flag(shortcut.metaKey) == e.metaKey &&
    Flag(shortcut.shiftKey) == e.shiftKey &&
    Flag(shortcut.altKey) == e.altKey
  }

  /** `shortcuts.find(...)`: the position of the first matching shortcut, if any. */
  function Match(shortcuts: seq<Shortcut>, e: KeyEvent): (r: Option<nat>)
    ensures r.Some? ==>
      r.value < |shortcuts| && Matches(shortcuts[r.value], e) &&
      forall j :: 0 <= j < r.value ==> !Matches(shortcuts[j], e)
    ensures r.None? <==> forall j :: 0 <= j < |shortcuts| ==> !Matches(shortcuts[j], e)
  {
    if shortcuts == [] then None
    else if Matches(shortcuts[0], e) then Some(0)
    else match Match(shortcuts[1..], e)
      case None => None
      case Some(i) => Some(i + 1)
  }

  /**
   * `handleKeyDown`: with a match, the default is prevented and exactly the
   * first matching shortcut's handler runs, once; without one, nothing happens.
   */
  function HandleKeyDown(shortcuts: seq<Shortcut>, e: KeyEvent): (d: Dispatch)
    ensures d.defaultPrevented <==> exists j :: 0 <= j < |shortcuts| && Matches(shortcuts[j], e)
    ensures d.defaultPrevented <==> |d.handlersCalled| == 1
    ensures !d.defaultPrevented ==> d.handlersCalled == []
    ensures d.defaultPrevented ==>
      var k := d.handlersCalled[0];
      k < |shortcuts| && Matches(shortcuts[k], e) &&
      forall j :: 0 <= j < k ==> !Matches(shortcuts[j], e)
  {
    match Match(shortcuts, e)
    case Some(k) => Dispatch(true, [k])
    case None => Dispatch(false, [])
  }

  /**
   * Only the first match counts: shortcuts appended after a matching prefix
   * are never consulted, and past a non-matching prefix the search goes on
   * in the appended part.
   */
  lemma {:induction false} MatchAppend(xs: seq<Shortcut>, ys: seq<Shortcut>, e: KeyEvent)
    ensures Match(xs, e).Some? ==> Match(xs + ys, e) == Match(xs, e)
    ensures Match(xs, e).None? ==>
      Match(xs + ys, e) == match Match(ys, e)
        case None => None
        case Some(i) => Some(|xs| + i)
  {
    if xs != [] {
      assert (xs + ys)[0] == xs[0];
      assert (xs + ys)[1..] == xs[1..] + ys;
      MatchAppend(xs[1..], ys, e);
    } else {
      assert xs + ys == ys;
    }
  }

  /** Two key presses that differ only in the case of their key dispatch to the same shortcut. */
  lemma {:induction false} MatchIgnoresKeyCase(shortcuts: seq<Shortcut>, e: KeyEvent, f: KeyEvent)
    requires Lower(e.key) == Lower(f.key)
    requires e.(key := f.key) == f
    ensures Match(shortcuts, e) == Match(shortcuts, f)
  {
    if shortcuts != [] {
      assert Matches(shortcuts[0], e) == Matches(shortcuts[0], f);
      MatchIgnoresKeyCase(shortcuts[1..], e, f);
    }
  }

  /**
   * A pressed modifier that a shortcut leaves absent or sets to `false`
   * rules that shortcut out: a list in which no shortcut asks for Shift
   * never reacts to a key press with Shift held.
   */
  lemma ExtraShiftNeverMatches(shortcuts: seq<Shortcut>, e: KeyEvent)
    requires e.shiftKey
    requires forall j :: 0 <= j < |shortcuts| ==> shortcuts[j].shiftKey != Some(true)
    ensures Match(shortcuts, e) == None
    ensures HandleKeyDown(shortcuts, e) == Dispatch(false, [])
  {
  }

  /** `{key: 'n', ctrlKey: true}` fires on Ctrl+N and Ctrl+n, not on a plain n. */
  lemma CtrlNExample()
    ensures var shortcuts := [Shortcut("n", Some(true), None, None, None)];
      HandleKeyDown(shortcuts, KeyEvent("N", true, false, false, false)) == Dispatch(true, [0]) &&
      HandleKeyDown(shortcuts, KeyEvent("n", true, false, false, false)) == Dispatch(true, [0]) &&
      HandleKeyDown(shortcuts, KeyEvent("n", false, false, false, false)) == Dispatch(false, [])
  {
    var sc := Shortcut("n", Some(true), None, None, None);
    assert Lower("N") == "n" && Lower("n") == "n";
    assert Matches(sc, KeyEvent("N", true, false, false, false));
  }
}
