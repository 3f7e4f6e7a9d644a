/** The keyboard handler of the web controller's browser script: keydown
    events become the direction words it posts to /api/move. */
module KeyMap {
  import opened Motors

  /** ASCII part of JavaScript's toLowerCase. */
  function LowerChar(c: char): (l: char)
    ensures !('A' <= l <= 'Z')
    ensures !('A' <= c <= 'Z') ==> l == c
  {
    if 'A' <= c <= 'Z' then (c as int - 'A' as int + 'a' as int) as char else c
  }

  function Lower(s: string): string
  {
    seq(|s|, i requires 0 <= i < |s| => LowerChar(s[i]))
  }

  /** Lowering twice lowers once. */
  lemma LowerIdempotent(s: string)
    ensures Lower(Lower(s)) == Lower(s)
  {
  }

  /** The keydown switch on event.key.toLowerCase(). */
  function KeyAction(key: string): (r: Option<Direction>)
    ensures r.Some? ==> Lower(key) in BoundKeys(r.value)
    ensures (exists d :: Lower(key) in BoundKeys(d)) ==> r.Some?
  {
    match Lower(key)
    case "w" => Some(Forward)
    case "arrowup" => Some(Forward)
    case "s" => Some(Backward)
    case "arrowdown" => Some(Backward)
    case "a" => Some(Left)
    case "arrowleft" => Some(Left)
    case "d" => Some(Right)
    case "arrowright" => Some(Right)
    case " " => Some(Stop)
    case _ => None
  }

  /** The keys the switch binds to each direction, lower-case. */
  function BoundKeys(d: Direction): set<string>
  {
    match d
    case Forward => {"w", "arrowup"}
    case Backward => {"s", "arrowdown"}
    case Left => {"a", "arrowleft"}
    case Right => {"d", "arrowright"}
    case Stop => {" "}
  }

  /** The keydown listener: nothing while the page believes it is not
      connected, otherwise the key's direction, if any. */
  function KeyDown(connected: bool, key: string): (r: Option<Direction>)
    ensures !connected ==> r.None?
    ensures r.Some? ==> Lower(key) in BoundKeys(r.value)
    ensures connected && (exists d :: Lower(key) in BoundKeys(d)) ==> r.Some?
  {
    if !connected then None else KeyAction(key)
  }

  /** Keys are matched regardless of case. */
  lemma KeyCaseInsensitive(key: string)
    ensures KeyAction(Lower(key)) == KeyAction(key)
  {
    LowerIdempotent(key);
  }

  /** The up and down arrows, as browsers name them in event.key, drive
      forward and backward. */
  lemma VerticalArrowKeys()
    ensures KeyDown(true, "ArrowUp") == Some(Forward)
    ensures KeyDown(true, "ArrowDown") == Some(Backward)
  {
    assert Lower("ArrowUp") == "arrowup";
    assert Lower("ArrowDown") == "arrowdown";
  }

  /** The left and right arrows turn left and right. */
  lemma HorizontalArrowKeys()
    ensures KeyDown(true, "ArrowLeft") == Some(Left)
    ensures KeyDown(true, "ArrowRight") == Some(Right)
  {
    assert Lower("ArrowLeft") == "arrowleft";
    assert Lower("ArrowRight") == "arrowright";
  }

  /** W, A, S and D work with Caps Lock or Shift held, and space stops. */
  lemma LetterKeyNames()
    ensures KeyDown(true, "W") == Some(Forward) && KeyDown(true, "S") == Some(Backward)
    ensures KeyDown(true, "A") == Some(Left) && KeyDown(true, "D") == Some(Right)
    ensures KeyDown(true, " ") == Some(Stop)
  {
    assert Lower("W") == "w";
    assert Lower("S") == "s";
    assert Lower("A") == "a";
    assert Lower("D") == "d";
    assert Lower(" ") == " ";
  }

  /** Every direction the listener produces is posted under a name that
      /api/move recognises as that same direction. */
  lemma ListenerPostsKnownAction(connected: bool, key: string)
    requires KeyDown(connected, key).Some?
    ensures ParseDirection(Some(Name(KeyDown(connected, key).value))) == KeyDown(connected, key)
  {
    ParseName(KeyDown(connected, key).value);
  }
}
