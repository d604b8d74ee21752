/** main/src/selection_list.c: the rotary-encoder menu. `getMenuEvent` maps
    an encoder event to a menu message; `userInterfaceSelectionList` sets up
    the cursor window of a `u8sl_t` (whose fields are `uint8_t`) and reads
    messages until one of them ends the menu. Drawing is not modelled;
    moving the cursor (`u8sl_Next`, `u8sl_Prev`) belongs to the u8g2
    library and is a parameter. */
module SelectionList {
  import opened Common

  /** `uint8_t`. */
  type Byte = x: int | 0 <= x < 256

  /** `MENU_EVENT_TIMEOUT` of selection_list.h. */
  const MenuEventTimeout: Byte := 127

  /** The menu messages of u8x8; `NoMessage` is the 0 returned for a button
      event that names no press kind. */
  datatype MenuMsg = Select | Next | Prev | Home | Up | Down | Timeout | NoMessage

  datatype Press = ShortPress | MediumPress | LongPress | OtherPress(code: int)

  /** A rotary encoder event: a button press or a turn of the knob. */
  datatype EncoderEvent = Button(press: Press) | Rotation(clockwise: bool)

  /** `getMenuEvent`; `None` is a queue receive that timed out. */
  function GetMenuEvent(e: Option<EncoderEvent>): (m: MenuMsg)
    ensures m == Timeout <==> e.None?
    ensures m == Select <==> e == Some(Button(ShortPress))
    ensures m == Home <==> e == Some(Button(MediumPress)) || e == Some(Button(LongPress))
    ensures m == Next <==> e == Some(Rotation(true))
    ensures m == Prev <==> e == Some(Rotation(false))
    ensures m == NoMessage <==> e.Some? && e.value.Button? && e.value.press.OtherPress?
    ensures m != Up && m != Down
  {
    match e
    case None => Timeout
    case Some(Button(ShortPress)) => Select
    case Some(Button(MediumPress)) => Home
    case Some(Button(LongPress)) => Home
    case Some(Button(OtherPress(_))) => NoMessage
    case Some(Rotation(cw)) => if cw then Next else Prev
  }

  /** The `u8sl_t` fields the menu uses. */
  datatype Cursor = Cursor(visible: Byte, total: Byte, firstPos: Byte, currentPos: Byte)

  /** The lines left for the list: `display_lines`, less the title lines
      when there is a title, in `uint8_t` arithmetic. */
  function Visible(displayLines: Byte, titleLines: Byte): (r: Byte)
    ensures titleLines == 0 ==> r == displayLines
    ensures 0 < titleLines <= displayLines ==> r == displayLines - titleLines
    ensures displayLines < titleLines ==> r == 256 + displayLines - titleLines
  {
    if titleLines > 0 then (displayLines - titleLines) % 256 else displayLines
  }

  /** The set-up of `userInterfaceSelectionList` (selection_list.c:98-117):
      the 1-based `start_pos` becomes 0-based, is clamped to the last line,
      and the window starts where it shows the cursor. */
  function InitCursor(startPos: Byte, visible: Byte, total: Byte): (c: Cursor)
    ensures c.visible == visible && c.total == total
    ensures total > 0 ==> c.currentPos < total
    ensures total > 0 && startPos == 0 ==> c.currentPos == 0
    ensures total > 0 && startPos > 0 && startPos <= total ==> c.currentPos == startPos - 1
    ensures total > 0 && startPos > total ==> c.currentPos == total - 1
    ensures total == 0 ==> c.currentPos == 255
    ensures 0 < visible ==> c.firstPos <= c.currentPos < c.firstPos + visible
    ensures c.firstPos == 0 || c.firstPos + visible == c.currentPos + 1
  {
    var start := if startPos > 0 then startPos - 1 else startPos;
    var cur := if start >= total then (total - 1) % 256 else start;
    var first := if visible <= cur then (cur - visible + 1) % 256 else 0;
    Cursor(visible, total, first, cur)
  }

  /** How a menu session ends: the value returned, or still reading when
      the given messages run out. */
  datatype Exit = Returned(code: Byte) | Reading

  /** A message that ends the menu. */
  predicate Stops(m: MenuMsg)
  {
    m == Select || m == Home || m == Timeout
  }

  /** The code a stopping message returns with the cursor at `c`. */
  function StopCode(c: Cursor, m: MenuMsg): (r: Byte)
    requires Stops(m)
    ensures r == MenuEventTimeout <==> m == Timeout || (m == Select && c.currentPos == 126)
    ensures r == 0 <==> m == Home || (m == Select && c.currentPos == 255)
  {
    match m
    case Select => (c.currentPos + 1) % 256
    case Home => 0
    case Timeout => MenuEventTimeout
  }

  /** The cursor after the moves among `msgs`; `move(c, true)` is
      `u8sl_Next`, `move(c, false)` is `u8sl_Prev`. */
  function Moved(c: Cursor, msgs: seq<MenuMsg>, move: (Cursor, bool) -> Cursor): (r: Cursor)
    ensures (forall j :: 0 <= j < |msgs| ==> msgs[j] !in {Next, Prev, Up, Down}) ==> r == c
    decreases |msgs|
  {
    if msgs == [] then c
    else
      var m := msgs[|msgs| - 1];
      var c1 := Moved(c, msgs[..|msgs| - 1], move);
      if m == Next || m == Down then move(c1, true)
      else if m == Prev || m == Up then move(c1, false)
      else c1
  }

  /** The index of the first message that ends the menu. */
  function FirstStop(msgs: seq<MenuMsg>): (k: Option<nat>)
    ensures k.Some? ==> (k.value < |msgs| && Stops(msgs[k.value])
                         && forall j :: 0 <= j < k.value ==> !Stops(msgs[j]))
    ensures k.None? ==> forall j :: 0 <= j < |msgs| ==> !Stops(msgs[j])
  {
    if msgs == [] then None
    else if Stops(msgs[0]) then Some(0)
    else match FirstStop(msgs[1..])
      case None => None
      case Some(k) => Some(k + 1)
  }

  /** The event loop of `userInterfaceSelectionList` (selection_list.c:139-154)
      over the messages `getMenuEvent` delivers. */
  method ReadMenu(c0: Cursor, msgs: seq<MenuMsg>, move: (Cursor, bool) -> Cursor)
    returns (exit: Exit, c: Cursor)
    ensures FirstStop(msgs).None? ==> exit == Reading && c == Moved(c0, msgs, move)
    ensures FirstStop(msgs).Some? ==>
      var k := FirstStop(msgs).value;
      && c == Moved(c0, msgs[..k], move)
      && exit == Returned(StopCode(c, msgs[k]))
  {
    c := c0;
    var i := 0;
    while i < |msgs|
      invariant 0 <= i <= |msgs|
      invariant forall j :: 0 <= j < i ==> !Stops(msgs[j])
      invariant c == Moved(c0, msgs[..i], move)
    {
      var m := msgs[i];
      assert msgs[..i + 1][..i] == msgs[..i];
      if m == Select {
        StopIsFirst(msgs, i);
        return Returned((c.currentPos + 1) % 256), c;
      } else if m == Home {
        StopIsFirst(msgs, i);
        return Returned(0), c;
      } else if m == Next || m == Down {
        c := move(c, true);
      } else if m == Prev || m == Up {
        c := move(c, false);
      } else if m == Timeout {
        StopIsFirst(msgs, i);
        return Returned(MenuEventTimeout), c;
      }
      i := i + 1;
    }
    assert msgs[..i] == msgs;
    exit := Reading;
  }

  lemma StopIsFirst(msgs: seq<MenuMsg>, i: nat)
    requires i < |msgs| && Stops(msgs[i]) && forall j :: 0 <= j < i ==> !Stops(msgs[j])
    ensures FirstStop(msgs) == Some(i)
  {
  }

  /** Messages that name no event leave the menu as it was. */
  lemma {:induction false} NoMessageIgnored(c: Cursor, a: seq<MenuMsg>, b: seq<MenuMsg>, move: (Cursor, bool) -> Cursor)
    ensures Moved(c, a + [NoMessage] + b, move) == Moved(c, a + b, move)
    decreases |b|
  {
    if b == [] {
      assert a + [NoMessage] + b == a + [NoMessage];
      assert (a + [NoMessage])[..|a|] == a;
      assert a + b == a;
    } else {
      var b' := b[..|b| - 1];
      assert (a + [NoMessage] + b)[..|a + [NoMessage] + b| - 1] == a + [NoMessage] + b';
      assert (a + b)[..|a + b| - 1] == a + b';
      NoMessageIgnored(c, a, b', move);
    }
  }

  /** Selecting the 127th line returns 127, the timeout code, and selecting
      in an empty list (cursor clamped to 255) returns 0, the home code. */
  lemma SelectCodeCollisions(visible: Byte)
    ensures StopCode(InitCursor(127, visible, 200), Select) == StopCode(InitCursor(127, visible, 200), Timeout)
    ensures StopCode(InitCursor(1, visible, 0), Select) == StopCode(InitCursor(1, visible, 0), Home)
  {
  }

  /** `userInterfaceSelectionList` with the window size derived by the
      caller's font metrics as `displayLines` and the list and title line
      counts given. */
  method UserInterfaceSelectionList(titleLines: Byte, displayLines: Byte, startPos: Byte, total: Byte,
                                    msgs: seq<MenuMsg>, move: (Cursor, bool) -> Cursor)
    returns (exit: Exit)
    ensures exit.Returned? <==> FirstStop(msgs).Some?
    ensures exit.Returned? ==>
      var c0 := InitCursor(startPos, Visible(displayLines, titleLines), total);
      var k := FirstStop(msgs).value;
      exit.code == StopCode(Moved(c0, msgs[..k], move), msgs[k])
  {
    var c0 := InitCursor(startPos, Visible(displayLines, titleLines), total);
    var c;
    exit, c := ReadMenu(c0, msgs, move);
  }
}
