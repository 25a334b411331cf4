/**
 * `handleKeyControls` (modules/keyboard.js) as a decision: the key event,
 * the tag name of the focused element and which buttons exist determine
 * the list of effects, in the order the handler performs them.
 */
module Keyboard {
  datatype KeyEvent = KeyEvent(key: string, code: string, keyCode: int)

  datatype Effect = PreventDefault | ClickReset | ClickStartPause

  predicate IsEscape(e: KeyEvent) {
    e.key == "Escape" || e.key == "Esc" || e.code == "Escape" || e.keyCode == 27
  }

  predicate IsSpaceKey(e: KeyEvent) {
    e.key == " " || e.key == "Spacebar" || e.code == "Space" || e.keyCode == 32
  }

  /** Focus in a text field: the tag is INPUT or TEXTAREA ("" when nothing has focus). */
  predicate IsTyping(tag: string) {
    tag in ["INPUT", "TEXTAREA"]
  }

  /** The effects of one keydown; a missing button is simply not clicked. */
  function HandleKey(e: KeyEvent, tag: string, hasReset: bool, hasStartPause: bool): (r: seq<Effect>)
    ensures PreventDefault in r <==> IsEscape(e) || (IsSpaceKey(e) && !IsTyping(tag))
    ensures ClickReset in r <==> IsEscape(e) && hasReset
    ensures ClickStartPause in r <==> IsSpaceKey(e) && !IsTyping(tag) && hasStartPause
    ensures IsEscape(e) ==> r[0] == PreventDefault
    ensures !IsEscape(e) && !IsSpaceKey(e) ==> r == []
  {
    var escape := if IsEscape(e) then [PreventDefault] + (if hasReset then [ClickReset] else []) else [];
    var space := if IsSpaceKey(e) && !IsTyping(tag) then [PreventDefault] + (if hasStartPause then [ClickStartPause] else []) else [];
    escape + space
  }

  /** Escape resets whatever has focus, even a text field. */
  lemma EscapeWhileTyping(e: KeyEvent, tag: string)
    requires IsEscape(e) && !IsSpaceKey(e) && IsTyping(tag)
    ensures HandleKey(e, tag, true, true) == [PreventDefault, ClickReset]
  {
  }

  /** Space while typing has no effect at all: no preventDefault and no click. */
  lemma SpaceWhileTyping(e: KeyEvent, tag: string, hasReset: bool, hasStartPause: bool)
    requires IsSpaceKey(e) && !IsEscape(e) && IsTyping(tag)
    ensures HandleKey(e, tag, hasReset, hasStartPause) == []
  {
  }

  /** preventDefault is called once for every action that fires. */
  lemma PreventDefaultPerAction(e: KeyEvent, tag: string, hasReset: bool, hasStartPause: bool)
    ensures multiset(HandleKey(e, tag, hasReset, hasStartPause))[PreventDefault] ==
      (if IsEscape(e) then 1 else 0) + (if IsSpaceKey(e) && !IsTyping(tag) then 1 else 0)
  {
  }
}
