/** The main window's control state: pacing parameters, pause flag, the
    key-rebinding state machine and the two settings references. */
module Window {
  import opened Settings
  import opened Pacing
  import opened KeyDispatch

  class MainWindow {
    /** The live bindings the key handler reads. */
    var settings: TetrisSettings
    /** The bindings the settings menu edits; the menu makes it an alias of `settings`. */
    var tempSettings: TetrisSettings
    var maxDelay: int
    var minDelay: int
    var delayDecrease: int
    var gamePaused: bool
    /** 0 while no binding awaits a key; 1..6 while the button of that slot does. */
    var activeSetting: int

    ghost predicate Valid()
      reads this
    {
      0 <= activeSetting <= 6
    }

    constructor ()
      ensures Valid()
      ensures fresh(settings) && fresh(tempSettings) && settings != tempSettings
      ensures settings.Value() == Unbound && tempSettings.Value() == Unbound
      ensures maxDelay == 0 && minDelay == 0 && delayDecrease == 0
      ensures !gamePaused && activeSetting == 0
    {
      settings := new TetrisSettings.Empty();
      tempSettings := new TetrisSettings.Empty();
      maxDelay, minDelay, delayDecrease := 0, 0, 0;
      gamePaused := false;
      activeSetting := 0;
    }

    method PauseGame()
      modifies this`gamePaused
      ensures gamePaused == !old(gamePaused)
    {
      if gamePaused {
        gamePaused := false;
      } else {
        gamePaused := true;
      }
    }

    /** A difficulty button: sets the pacing parameters, then starts a game,
        which clears the pause flag. */
    method ChooseDifficulty(d: Difficulty)
      modifies this`maxDelay, this`minDelay, this`delayDecrease, this`gamePaused
      ensures Pace(maxDelay, minDelay, delayDecrease) == Preset(d)
      ensures !gamePaused
    {
      match d {
        case Easy =>
          maxDelay, minDelay, delayDecrease := 1500, 300, 12;
        case Medium =>
          maxDelay, minDelay, delayDecrease := 1300, 200, 15;
        case Hard =>
          maxDelay, minDelay, delayDecrease := 1000, 100, 17;
      }
      gamePaused := false;
    }

    /** The window's key handler. Returns the command it selected; engine
        commands are carried out by the game state, and the pause toggle and
        menu closing act on this window's state. */
    method WindowKeyDown(key: Key, gameOver: bool) returns (c: Command)
      requires Valid()
      modifies this`gamePaused, this`activeSetting
      ensures Valid()
      ensures c == Dispatch(key, gameOver, old(gamePaused), settings.Value())
      ensures gamePaused == (if c == TogglePause then !old(gamePaused) else old(gamePaused))
      ensures activeSetting == (if c == CloseMenus then 0 else old(activeSetting))
    {
      c := Dispatch(key, gameOver, gamePaused, settings.Value());
      if c == TogglePause {
        PauseGame();
      } else if c == CloseMenus {
        activeSetting := 0;
      }
    }

    /** The "set key" button of binding slot `slot`: arms the key scan only
        when no other slot is waiting. */
    method KeyClick(slot: int)
      requires Valid() && 1 <= slot <= 6
      modifies this`activeSetting
      ensures Valid()
      ensures activeSetting == (if old(activeSetting) == 0 then slot else old(activeSetting))
    {
      if activeSetting == 0 {
        activeSetting := slot;
      }
    }

    /** Writes `selectedKey` into the slot that awaits a key, through
        `tempSettings`; when that aliases `settings`, the live bindings change. */
    method UpdateKeySetting(selectedKey: Key)
      modifies tempSettings
      ensures tempSettings.Value() == Rebind(old(tempSettings.Value()), activeSetting, selectedKey)
      ensures settings != tempSettings ==> settings.Value() == old(settings.Value())
    {
      match activeSetting
      case 1 => tempSettings.moveDownKey := selectedKey;
      case 2 => tempSettings.moveLeftKey := selectedKey;
      case 3 => tempSettings.moveRightKey := selectedKey;
      case 4 => tempSettings.dropBlockKey := selectedKey;
      case 5 => tempSettings.rotateCWKey := selectedKey;
      case 6 => tempSettings.rotateCCWKey := selectedKey;
      case _ =>
    }

    /** The key-scan handler: a letter other than P becomes the awaited
        binding; any key ends the scan. */
    method KeyScanWindowKeyDown(key: Key)
      requires Valid()
      modifies this`activeSetting, tempSettings
      ensures Valid() && activeSetting == 0
      ensures tempSettings.Value() ==
        if Bindable(key) then Rebind(old(tempSettings.Value()), old(activeSetting), key)
        else old(tempSettings.Value())
      ensures settings != tempSettings ==> settings.Value() == old(settings.Value())
    {
      if A <= key <= Z && key != P {
        UpdateKeySetting(key);
      }
      activeSetting := 0;
    }

    /** The settings button: closing the menu cancels a scan; opening it also
        makes `tempSettings` the very object `settings` refers to. */
    method SettingsClick(menuVisible: bool)
      modifies this`activeSetting, this`tempSettings
      ensures Valid() && activeSetting == 0
      ensures tempSettings == if menuVisible then old(tempSettings) else settings
    {
      activeSetting := 0;
      if !menuVisible {
        tempSettings := settings;
      }
    }

    /** Save: the edited bindings become the live ones. */
    method SaveSettingsClick()
      modifies this`settings, this`activeSetting
      ensures Valid() && activeSetting == 0
      ensures settings == tempSettings
    {
      settings := tempSettings;
      activeSetting := 0;
    }

    /** Reset: a fresh default record replaces the edited one, ending any alias. */
    method ResetSettingsClick()
      modifies this`tempSettings, this`activeSetting
      ensures Valid() && activeSetting == 0
      ensures fresh(tempSettings) && tempSettings.Value() == DefaultBindings
    {
      tempSettings := new TetrisSettings(Down, Left, Right, Space, Up, C);
      activeSetting := 0;
    }
  }
}
