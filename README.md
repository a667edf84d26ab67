# Tetris shell and next-piece queue, modelled in Dafny

This project models the two parts of the tetris game that hold checkable logic.

**The next-piece queue.** `BlockQueue` keeps a buffered `NextBlock`. `GetAndUpdate`
hands that block out and refills the buffer from a fixed catalogue of seven blocks.
It redraws until the new block's `Id` differs from the one just handed out, so two
consecutive blocks never repeat.

**The main window's control logic.** This covers:
- the gravity delay formula and the three difficulty presets;
- the key handler, which passes keys through a game-over/pause gate and then tests the bindings in a fixed order;
- the pause toggle;
- the key-rebinding state machine, driven by `activeSetting`;
- the two references `settings` and `tempSettings`. The settings menu makes them aliases, so a rebinding changes the live bindings before any save.

Modules, leaf first:
- `Wrappers` (`wrappers.dfy`): `Option` (`None` stands for C#'s `null`), `Result`, and the `NullReference` error.
- `Blocks` (`blocks.dfy`): a block reduced to its `Id`, and the catalogue. Ids 1..7 (I, J, L, O, S, T, Z) are the indices that `block.Id` selects in the tile and preview image tables.
- `Queue` (`queue.dfy`): the class `Random`, the class `BlockQueue`, and the specification functions `Pick`, `FirstDifferent` and `Deal`. `Random` is an oracle: the samples it will produce, and how many are used up.
- `Settings` (`settings.dfy`): `Key` (the integer values of WPF's `Key` enumeration), the `Bindings` value, `Rebind`, and the class `TetrisSettings`.
- `Pacing` (`pacing.dfy`): C#'s truncating division, the delay formula, the presets and their lemmas.
- `KeyDispatch` (`dispatch.dfy`): the key-to-command function, and a reference definition by first match over the bindings.
- `Window` (`window.dfy`): the class `MainWindow`. It holds the pacing fields, `gamePaused`, `activeSetting`, `settings` and `tempSettings`, and its event handlers as methods.

## Model

| member | source | states |
|---|---|---|
| `Blocks.OtherIdInCatalogue` | BlockQueue.cs:8-17 | for every block, the catalogue holds an entry with another id, so the redraw loop can end |
| `Queue.Pick` | BlockQueue.cs:28-31 | a sample always selects one of the seven catalogue entries |
| `Queue.FirstDifferent` | BlockQueue.cs:37-41 | the sample that ends the redraw loop: at or after the current position, its block's id differs from the handed-out one, and every sample before it picked the same id |
| `Queue.Deal` | BlockQueue.cs:33-44 | `n` successive calls hand out `n` blocks, starting with the buffered one; every later block is from the catalogue; consecutive blocks always have different ids |
| `Queue.Random.constructor` | BlockQueue.cs:19 | the random source starts at its first sample |
| `Queue.Random.Next` | BlockQueue.cs:30 | `Next(maxValue)` uses up one sample and returns a value in `[0, maxValue)` (0 when `maxValue` is 0) |
| `Queue.BlockQueue.constructor` | BlockQueue.cs:8-26 | as written: a fresh catalogue equal to the seven blocks, with `NextBlock` left unset |
| `Queue.BlockQueue.Seeded` | BlockQueue.cs:23-26 | corrected constructor: `NextBlock` is seeded with one draw from the catalogue |
| `Queue.BlockQueue.RandomBlock` | BlockQueue.cs:28-31 | uses up one sample and returns the catalogue entry at that sample's index |
| `Queue.BlockQueue.GetAndUpdate` | BlockQueue.cs:33-44 | returns exactly the block buffered before the call; the new buffer is the block of the first later sample whose id differs, so `next.id != returned.id`; the catalogue stays intact and only the buffer and the random position change; with the buffer unset, one draw happens and then the call fails with `NullReference` |
| `Queue.FreshQueueFirstDraw` | BlockQueue.cs:23-41 | the first call on a queue built by the as-written constructor fails with `NullReference` |
| `Queue.SeededQueueTwoDraws` | BlockQueue.cs:33-44 | two calls on a seeded queue return the first two blocks `Deal` predicts, and their ids differ |
| `Settings.Rebind` | MainWindow.xaml.cs:365-377 | with `activeSetting` in 1..6, exactly that binding becomes the key and the other five keep their values; any other value changes nothing |
| `Settings.TetrisSettings.constructor` | TetrisSettings.cs:23-31 | the six bindings are the six arguments, in order |
| `Settings.TetrisSettings.Empty` | TetrisSettings.cs:33 | all six bindings are `Key.None` |
| `Pacing.Max` | MainWindow.xaml.cs:139 | `Math.Max` is at least each argument and equal to one of them |
| `Pacing.DivTrunc` | MainWindow.xaml.cs:139 | C#'s `/` rounds toward zero: for a non-negative dividend the quotient times the divisor brackets it from below, for a negative one from above |
| `Pacing.Delay` | MainWindow.xaml.cs:139 | the tick delay is never below `minDelay`; when the score is under 100 in magnitude and `minDelay <= maxDelay`, it equals `maxDelay` |
| `Pacing.DivTruncMonotone` | MainWindow.xaml.cs:139 | truncating division by a positive divisor is monotone in the dividend |
| `Pacing.DelayMonotone` | MainWindow.xaml.cs:139 | with a non-negative decrement, the delay does not grow as the score grows |
| `Pacing.Preset` | MainWindow.xaml.cs:278-299 | Easy is 1500/300/12, Medium 1300/200/15 and Hard 1000/100/17 (ceiling/floor/decrement); each has `0 < floor < ceiling` and a positive decrement |
| `Pacing.PresetDelayInRange` | MainWindow.xaml.cs:278-299 | under every preset, the line-139 delay for any non-negative score lies between the floor and the ceiling |
| `Pacing.PresetFloorReached` | MainWindow.xaml.cs:278-299 | for a non-negative score, a preset's delay is at its floor if and only if the score is at least 10000 (Easy), 7400 (Medium) or 5300 (Hard) |
| `Pacing.PresetDelayFitsInt32` | MainWindow.xaml.cs:139 | for every 32-bit score and every preset, the product and the difference at line 139 stay within 32-bit range, so C#'s `int` arithmetic never wraps there |
| `KeyDispatch.Dispatch` | MainWindow.xaml.cs:153-188 | when the game is over or paused, every key other than P and Escape is ignored; P toggles the pause and Escape closes the menus only when no binding holds that key; a key is ignored only if it is gated or matches no binding, P or Escape |
| `KeyDispatch.FirstMatch` | MainWindow.xaml.cs:161-172 | returns the first position in the bindings whose key equals the pressed key, or nothing if and only if no binding equals it |
| `KeyDispatch.DispatchIsFirstMatch` | MainWindow.xaml.cs:155-185 | the handler equals the reference reading: past the gate, the first matching binding in the order MoveDown, Left, Right, Drop, RotateCW, RotateCCW wins; then P; then Escape; otherwise nothing happens |
| `KeyDispatch.DispatchSelectsSlot` | MainWindow.xaml.cs:155-172 | a key selects binding slot `i`'s command if and only if it passes the gate, equals that binding, and equals no earlier binding |
| `Window.MainWindow.constructor` | MainWindow.xaml.cs:43-50 | two distinct, unbound settings records; all pacing fields 0; not paused; no binding awaits a key |
| `Window.MainWindow.PauseGame` | MainWindow.xaml.cs:243-260 | flips `gamePaused` and changes nothing else, so two calls restore it |
| `Window.MainWindow.ChooseDifficulty` | MainWindow.xaml.cs:278-300 | sets the three pacing fields to the chosen preset and starts a game, which clears `gamePaused` |
| `Window.MainWindow.WindowKeyDown` | MainWindow.xaml.cs:153-188 | selects `Dispatch`'s command under the live bindings; only a pause toggle changes `gamePaused`, and only Escape resets `activeSetting` |
| `Window.MainWindow.KeyClick` | MainWindow.xaml.cs:417-475 | a "set key" button arms scanning for its slot only when `activeSetting` is 0; otherwise nothing changes |
| `Window.MainWindow.UpdateKeySetting` | MainWindow.xaml.cs:365-377 | `tempSettings` becomes `Rebind` of its old bindings; the live bindings change only when `tempSettings` aliases `settings` |
| `Window.MainWindow.KeyScanWindowKeyDown` | MainWindow.xaml.cs:325-363 | only a letter A..Z other than P is stored into the awaited slot; `activeSetting` is always reset to 0 |
| `Window.MainWindow.SettingsClick` | MainWindow.xaml.cs:307-323 | `activeSetting` is reset; opening the menu makes `tempSettings` the same object as `settings` (an alias, not a copy) |
| `Window.MainWindow.SaveSettingsClick` | MainWindow.xaml.cs:398-409 | the edited record becomes the live one, and `activeSetting` is reset |
| `Window.MainWindow.ResetSettingsClick` | MainWindow.xaml.cs:411-415 | a fresh record with the defaults Down, Left, Right, Space, Up, C replaces `tempSettings`, which ends any alias; `activeSetting` is reset |

`Window.MainWindow.Valid`, which keeps `activeSetting` in 0..6, is preserved by every handler that changes `activeSetting`. `Queue.BlockQueue.Valid`, which says the catalogue is intact and the buffer comes from it, is preserved by every queue operation.

## Left out

- The game engine (`GameState`, `GameGrid`, `Position`) is not part of this model. `WindowKeyDown` receives `GameOver` as a parameter and returns the engine command it selected; it does not carry the command out.
- `Blocks.cs`: `RotateCW`, `RotateCCW`, `Move` and `Reset` have empty bodies, and no subclass defines tiles, offsets or an `Id`. A block is only its `Id`. Block objects are modelled as values, so the identity of the catalogue entries is not modelled. In the source, the same catalogue object is handed out again each time it is drawn.
- Block ids 1..7 are inferred from the image tables, which `block.Id` indexes (MainWindow.xaml.cs:18-40, 103, 110).
- `Key` values are those of WPF's `System.Windows.Input.Key` enumeration (Escape 13, Space 18, Left 23, Up 24, Right 25, Down 26, A 44, C 46, P 59, Z 69). They are not defined in the repository.
- WPF work is left out: image tables, canvas setup and drawing, label texts, button contents, `Visibility` and `IsEnabled`, and focus.
- Event subscription (`KeyDown +=` / `-=`) is left out. In the source, `Window_KeyDown` also runs for each key pressed while a scan is armed; the model treats the two handlers separately.
- XML settings I/O is left out: loading at start-up with the fallback to defaults (MainWindow.xaml.cs:190-210), and writing on save.
- The asynchronous game loop and `Task.Delay` are left out; only the delay expression at line 139 is modelled. `StartGame`'s new `GameState` and its menu changes are left out too; only its reset of `gamePaused` is modelled.
- The three difficulty handlers are one method with a `Difficulty` argument. The six `*Key_Click` handlers are one method with a slot argument (1..6). `Play_Click` and `Pause_Click` only call `PauseGame`.
- `System.Random` is replaced by an oracle: a finite sequence of samples, with `Next(n)` taken as a sample modulo `n`. Neither the distribution nor uniformity is modelled.
- `Queue.BlockQueue.GetAndUpdate` requires the oracle to hold a later sample whose block has a different id. In the source, termination rests on the randomness of `System.Random`.
- `Pacing.Delay` is computed over unbounded integers. For arbitrary parameters, 32-bit wrap-around is not modelled; for the three presets, `Pacing.PresetDelayFitsInt32` shows that it cannot occur. The score is taken to be the `int` it is cast to at line 139.

## Findings

| source | as written | input that shows it | evidently intended | confidence | as-written member | corrected member |
|---|---|---|---|---|---|---|
| BlockQueue.cs:23-26 | the constructor never sets `NextBlock` (the setter is private), so the first `GetAndUpdate` draws once and then reads `Id` of the `null` handed out at line 41 | the first `GetAndUpdate` on any freshly constructed `BlockQueue` | seed `NextBlock` with one `RandomBlock()` in the constructor, so the first block handed out is itself a drawn catalogue entry | not executed; medium, because the caller (`GameState`) is not part of this model | `Queue.FreshQueueFirstDraw` | `Queue.BlockQueue.Seeded` |
