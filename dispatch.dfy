/** The main window's key handler: which command a key press selects. */
module KeyDispatch {
  import opened Wrappers
  import opened Settings

  /** What a key press does: one of the six engine commands, toggling the
      pause, closing the menus, or nothing. */
  datatype Command =
    | MoveDown | MoveLeft | MoveRight | DropBlock | RotateCW | RotateCCW
    | TogglePause | CloseMenus | Ignore

  /** The engine commands in the order the handler tests their bindings. */
  const BoundCommands: seq<Command> := [MoveDown, MoveLeft, MoveRight, DropBlock, RotateCW, RotateCCW]

  /** While the game is over or paused, only P and Escape get past the gate. */
  predicate Gated(key: Key, gameOver: bool, paused: bool) {
    (gameOver || paused) && key != P && key != Escape
  }

  /** The command `Window_KeyDown` carries out for `key`. */
  function Dispatch(key: Key, gameOver: bool, paused: bool, b: Bindings): (c: Command)
    ensures Gated(key, gameOver, paused) ==> c == Ignore
    ensures c == TogglePause ==> key == P && key !in b.AsSeq()
    ensures c == CloseMenus ==> key == Escape && key !in b.AsSeq()
    ensures c == Ignore ==> Gated(key, gameOver, paused) || (key !in b.AsSeq() && key != P && key != Escape)
  {
    if Gated(key, gameOver, paused) then Ignore
    else if key == b.moveDown then MoveDown
    else if key == b.moveLeft then MoveLeft
    else if key == b.moveRight then MoveRight
    else if key == b.dropBlock then DropBlock
    else if key == b.rotateCW then RotateCW
    else if key == b.rotateCCW then RotateCCW
    else if key == P then TogglePause
    else if key == Escape then CloseMenus
    else Ignore
  }

  /** The position of the first key in `keys` equal to `key`, if any. */
  function FirstMatch(keys: seq<Key>, key: Key): (r: Option<nat>)
    ensures r.Some? ==> r.value < |keys| && keys[r.value] == key &&
                        forall j :: 0 <= j < r.value ==> keys[j] != key
    ensures r.None? <==> key !in keys
  {
    if keys == [] then None
    else if keys[0] == key then Some(0)
    else match FirstMatch(keys[1..], key)
      case Some(i) => Some(i + 1)
      case None => None
  }

  /** Reference reading of the handler: past the gate, the first binding (in
      the fixed order) equal to the key wins; then P, then Escape; any other
      key is ignored. */
  function ReferenceCommand(key: Key, gameOver: bool, paused: bool, b: Bindings): Command {
    if Gated(key, gameOver, paused) then Ignore
    else match FirstMatch(b.AsSeq(), key)
      case Some(i) => BoundCommands[i]
      case None => if key == P then TogglePause else if key == Escape then CloseMenus else Ignore
  }

  lemma DispatchIsFirstMatch(key: Key, gameOver: bool, paused: bool, b: Bindings)
    ensures Dispatch(key, gameOver, paused, b) == ReferenceCommand(key, gameOver, paused, b)
  {
    var s := b.AsSeq();
    if !Gated(key, gameOver, paused) {
      var m := FirstMatch(s, key);
      assert s[0] == b.moveDown && s[1] == b.moveLeft && s[2] == b.moveRight;
      assert s[3] == b.dropBlock && s[4] == b.rotateCW && s[5] == b.rotateCCW;
      if m.Some? {
        forall j | 0 <= j < m.value ensures s[j] != key {}
      }
    }
  }

  /** A key selects the command of binding slot `i` (0-based) exactly when it
      gets past the gate, equals that binding, and equals none before it. */
  lemma DispatchSelectsSlot(key: Key, gameOver: bool, paused: bool, b: Bindings, i: int)
    requires 0 <= i < 6
    ensures Dispatch(key, gameOver, paused, b) == BoundCommands[i] <==>
            !Gated(key, gameOver, paused) && b.AsSeq()[i] == key &&
            forall j :: 0 <= j < i ==> b.AsSeq()[j] != key
  {
    DispatchIsFirstMatch(key, gameOver, paused, b);
    var s := b.AsSeq();
    var m := FirstMatch(s, key);
    if !Gated(key, gameOver, paused) && s[i] == key && (forall j :: 0 <= j < i ==> s[j] != key) {
      assert key in s;
    }
  }
}
