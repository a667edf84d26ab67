/** Key bindings: the keyboard keys and the six rebindable game actions. */
module Settings {

  /** `System.Windows.Input.Key`, as the integer value of the enumeration. */
  newtype Key = int

  const KeyNone: Key := 0
  const Escape: Key := 13
  const Space: Key := 18
  const Left: Key := 23
  const Up: Key := 24
  const Right: Key := 25
  const Down: Key := 26
  const A: Key := 44
  const C: Key := 46
  const P: Key := 59
  const Z: Key := 69

  /** The six bindings as a value; slots are numbered 1..6 in this order, as
      the rebinding buttons number them. */
  datatype Bindings = Bindings(moveDown: Key, moveLeft: Key, moveRight: Key,
                               dropBlock: Key, rotateCW: Key, rotateCCW: Key)
  {
    function AsSeq(): (s: seq<Key>)
      ensures |s| == 6
    {
      [moveDown, moveLeft, moveRight, dropBlock, rotateCW, rotateCCW]
    }
  }

  /** The bindings restored by a reset and written when no settings file loads. */
  const DefaultBindings := Bindings(Down, Left, Right, Space, Up, C)

  /** Every binding of a settings object built without arguments. */
  const Unbound := Bindings(KeyNone, KeyNone, KeyNone, KeyNone, KeyNone, KeyNone)

  /** The bindings after slot `active` is set to `key`: exactly that slot
      changes when `active` is in 1..6, nothing changes otherwise. */
  function Rebind(b: Bindings, active: int, key: Key): (r: Bindings)
    ensures 1 <= active <= 6 ==> r.AsSeq() == b.AsSeq()[active - 1 := key]
    ensures !(1 <= active <= 6) ==> r == b
  {
    match active
    case 1 => b.(moveDown := key)
    case 2 => b.(moveLeft := key)
    case 3 => b.(moveRight := key)
    case 4 => b.(dropBlock := key)
    case 5 => b.(rotateCW := key)
    case 6 => b.(rotateCCW := key)
    case _ => b
  }

  /** The keys the key-scan handler accepts for a binding: a letter other than P. */
  predicate Bindable(key: Key) {
    A <= key <= Z && key != P
  }

  /** The persisted binding record: six keys that the settings menu edits in place. */
  class TetrisSettings {
    var moveDownKey: Key
    var moveLeftKey: Key
    var moveRightKey: Key
    var dropBlockKey: Key
    var rotateCWKey: Key
    var rotateCCWKey: Key

    function Value(): Bindings
      reads this
    {
      Bindings(moveDownKey, moveLeftKey, moveRightKey, dropBlockKey, rotateCWKey, rotateCCWKey)
    }

    constructor (moveDownKey: Key, moveLeftKey: Key, moveRightKey: Key,
                 dropBlockKey: Key, rotateCWKey: Key, rotateCCWKey: Key)
      ensures Value() == Bindings(moveDownKey, moveLeftKey, moveRightKey,
                                  dropBlockKey, rotateCWKey, rotateCCWKey)
    {
      this.moveDownKey := moveDownKey;
      this.moveLeftKey := moveLeftKey;
      this.moveRightKey := moveRightKey;
      this.dropBlockKey := dropBlockKey;
      this.rotateCWKey := rotateCWKey;
      this.rotateCCWKey := rotateCCWKey;
    }

    /** The parameterless constructor: every key keeps its default, `Key.None`. */
    constructor Empty()
      ensures Value() == Unbound
    {
      moveDownKey, moveLeftKey, moveRightKey := KeyNone, KeyNone, KeyNone;
      dropBlockKey, rotateCWKey, rotateCCWKey := KeyNone, KeyNone, KeyNone;
    }
  }
}
