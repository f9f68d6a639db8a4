# Keypad emulator: a Dafny model

This project models the control logic of a desktop keypad emulator. The emulator drives a vending-machine controller over a serial link.

Modules, one per source class:

- `LinkTypes`: shared values. These are bytes, an option type, the signals a transport emits (`portStatusChanged`, `dataReceived`), log lines, and the UTF-8 encoding of the display text.
- `SerialLink`: the real link (`SerialCommunication`).
  - The operating-system port is an abstract `SerialPort` class. Whether an open succeeds, and how many bytes a write reports, are inputs.
  - The persistent settings are a key-value store.
- `MockLink`: the simulated link (`MockSerialCommunication`). It has an open flag, a hard-coded port list and default port, and a receive timer modelled as an "armed" flag.
- `Keypress`: the twelve constant 5-byte key frames, and the dispatcher (`KeypressCommands`). The dispatcher forwards a frame to the transport chosen at construction and logs the outcome.
- `AutoSequence`: the auto-keypress sequencer (`AutoKeypress`).
  - Its phase (index, running flag, timer) is specified by pure functions `Start`, `Press`, `Fire` and `Stop`.
  - The class methods are proved to follow those functions.
  - A whole run is proved to press the eight keys `1 2 3 4 5 * 0 #` in order, then report completion once.
- `PriceDialog`: the price dialog (`SetPriceDialog`). It accepts a parsed price only when it lies in 0..999, and stores it only then.
- `Keypad`: the main window's logic, widgets excluded.
  - The display buffer and the log list.
  - The connect/disconnect toggle and its status indicator.
  - The keypad grid and its button wiring.
  - The `$D.CC` price text.

The transports emit signals that the window reacts to. These are recorded as ordinary `seq<Event>` fields. The commands written to a port and the dispatcher's log are ghost records.

## Model

| member | source | states |
|---|---|---|
| LinkTypes.Utf8Char | src/MainWindow.cpp:280 | the UTF-8 form of one character is 1 to 4 bytes, and is the single byte of its code exactly when the code is below 0x80 |
| LinkTypes.Utf8OfAscii | src/MainWindow.cpp:291 | an ASCII display text (the keypad's digits, `*`, `#`) encodes to one byte per character, each byte its character's code |
| SerialLink.StoredDefaultPortRoundTrip | src/SerialCommunication.cpp:68-79 | storing a default port and reading it back yields it, and no other settings entry changes |
| SerialLink.SerialCommunication.constructor | src/SerialCommunication.cpp:6-11 | a fresh link has a closed, unconfigured port, has emitted nothing, and has loaded its default port from the settings ("" when none is stored) |
| SerialLink.SerialCommunication.Destroy | src/SerialCommunication.cpp:13-16 | the destructor leaves the port closed, signalling false only if it was open |
| SerialLink.SerialCommunication.OpenPort | src/SerialCommunication.cpp:18-38 | closes any open port first (one false signal), configures 9600-8-N-1 without flow control, opens, then signals the outcome; the result and the final state both equal the device's answer |
| SerialLink.SerialCommunication.ClosePort | src/SerialCommunication.cpp:40-47 | the port ends closed, and false is signalled exactly when it was open |
| SerialLink.SerialCommunication.SendCommand | src/SerialCommunication.cpp:49-56 | true iff the port is open and the reported byte count equals the command's length; a closed port is not written to, and the open state never changes |
| SerialLink.SerialCommunication.GetAvailablePorts | src/SerialCommunication.cpp:58-66 | the port names, one per listed device, in the system's order |
| SerialLink.SerialCommunication.GetDefaultPort | src/SerialCommunication.cpp:68-72 | the stored default port, or "" when none is stored |
| SerialLink.SerialCommunication.SetDefaultPort | src/SerialCommunication.cpp:74-79 | the settings store maps the default-port key to the name, and the remembered default port is the name |
| SerialLink.SerialCommunication.IsPortOpen | src/SerialCommunication.cpp:81-84 | whether the port handle is open; every open, close and send above is stated in terms of this flag |
| SerialLink.SerialCommunication.HandleReadyRead | src/SerialCommunication.cpp:86-90 | signals exactly the bytes that were pending, and leaves none pending |
| SerialLink.CloseTwice | src/SerialCommunication.cpp:40-47 | two closePort calls in a row signal at most one false |
| SerialLink.SetThenGetDefaultPort | src/SerialCommunication.cpp:68-79 | setDefaultPort(p) followed by getDefaultPort() returns p |
| MockLink.MockSerialCommunication.constructor | src/MockSerialCommunication.cpp:4-9 | a fresh mock is closed with its timer idle, has emitted nothing, and remembers MOCK_PORT1 |
| MockLink.MockSerialCommunication.Destroy | src/MockSerialCommunication.cpp:11-14 | the destructor leaves the mock closed, signalling false only if it was open |
| MockLink.MockSerialCommunication.OpenPort | src/MockSerialCommunication.cpp:16-23 | always succeeds, ends open with the receive timer armed, and signals true once, even when already open |
| MockLink.MockSerialCommunication.ClosePort | src/MockSerialCommunication.cpp:25-33 | ends closed; only an open mock signals false and disarms its timer; the timer stays armed exactly while open |
| MockLink.MockSerialCommunication.SendCommand | src/MockSerialCommunication.cpp:35-42 | returns exactly the open flag and changes nothing |
| MockLink.MockSerialCommunication.GetAvailablePorts | src/MockSerialCommunication.cpp:44-47 | three distinct port names, the first of them the default port |
| MockLink.MockSerialCommunication.GetDefaultPort | src/MockSerialCommunication.cpp:49-52 | a fixed, non-empty default port (MOCK_PORT1), whatever was stored, unlike the real link's "" when none is stored |
| MockLink.MockSerialCommunication.SetDefaultPort | src/MockSerialCommunication.cpp:54-57 | the remembered default port becomes the name |
| MockLink.MockSerialCommunication.IsPortOpen | src/MockSerialCommunication.cpp:59-62 | the open flag, which on a valid mock is true exactly while the receive timer is armed |
| MockLink.MockSerialCommunication.SimulateDataReceived | src/MockSerialCommunication.cpp:64-68 | signals exactly the bytes 0A 01 02 03 04 05 |
| MockLink.MockSerialCommunication.ReceiveTimerTimeout | src/MockSerialCommunication.cpp:8 | a receive-timer timeout signals the mock data only while the timer is armed (started by openPort at line 21, stopped by closePort at line 31), so a closed mock receives nothing |
| MockLink.SetThenGetDefaultPort | src/MockSerialCommunication.cpp:49-57 | whatever setDefaultPort stored, getDefaultPort returns MOCK_PORT1 |
| MockLink.CloseTwice | src/MockSerialCommunication.cpp:25-33 | two closePort calls in a row signal at most one false, and keep the timer armed exactly while open |
| Keypress.KeyOfLabel | src/AutoKeypress.cpp:37-48 | the label comparison chain picks the key whose label is the text, and finds one whenever such a key exists |
| Keypress.Frame | src/KeypressCommands.cpp:26-136 | every key frame is 5 bytes long and starts with 0x0B |
| Keypress.FrameDecodes | src/KeypressCommands.cpp:26-136 | each frame's bytes 1 to 3 identify its key |
| Keypress.FrameInjective | src/KeypressCommands.cpp:26-136 | no two keys share a frame |
| Keypress.ChecksumExceptKeyTwo | src/KeypressCommands.cpp:36 | the last byte is the low byte of the sum of the first four in every frame except that of key 2 |
| Keypress.KeypressCommands.constructor | src/KeypressCommands.cpp:4-13 | the dispatcher uses the mock exactly when constructed with one |
| Keypress.KeypressCommands.SendCommand | src/KeypressCommands.cpp:15-22 | forwards the command to the chosen transport and returns that transport's result unchanged |
| Keypress.KeypressCommands.SendKeypress | src/KeypressCommands.cpp:24-142 | sends exactly the key's constant frame, and logs success or failure by the send's result |
| AutoSequence.Stop | src/AutoKeypress.cpp:20-24 | the phase after stopSequence: not running, timer disarmed, index kept (properties in `StopIdempotent`) |
| AutoSequence.Press | src/AutoKeypress.cpp:31-55 | the phase and signals of pressNextKey: the next key and an advanced index while keys remain, else a stop and one completion (properties in `PressKeepsIndexInRange`, `RunFromIndex`) |
| AutoSequence.Start | src/AutoKeypress.cpp:10-18 | the phase and signals of startSequence: nothing while running, else a press from index 0 with running set and the timer armed (properties in `CompleteRun`) |
| AutoSequence.Fire | src/AutoKeypress.cpp:6 | one timer timeout: a press while the timer is armed, else nothing (properties in `DisarmedRunIsQuiet`, `RunThenRun`) |
| AutoSequence.FramesAppend | src/AutoKeypress.cpp:37-48 | the frames dispatched for two runs of signals are those of the first run followed by those of the second |
| AutoSequence.PressKeepsIndexInRange | src/AutoKeypress.cpp:31-55 | pressNextKey keeps the index within 0..size, advancing it by exactly one while keys remain |
| AutoSequence.StopIdempotent | src/AutoKeypress.cpp:20-24 | stopSequence clears running and the timer, keeps the index, and a second call changes nothing |
| AutoSequence.RunFromIndex | src/AutoKeypress.cpp:31-55 | from index i with the timer armed, the remaining keys are emitted in order, then completion, and the sequencer ends stopped at the end |
| AutoSequence.DisarmedRunIsQuiet | src/AutoKeypress.cpp:6 | once the timer is disarmed, timeouts emit nothing and change nothing |
| AutoSequence.RunThenRun | src/AutoKeypress.cpp:6 | n + m timeouts act as n timeouts followed by m more |
| AutoSequence.CompleteRun | src/AutoKeypress.cpp:10-55 | a start from stopped, followed by at least as many timeouts as keys, emits every key in order and then one completion, and ends stopped and disarmed |
| AutoSequence.LabelRunFrames | src/AutoKeypress.cpp:37-48 | pressing the labels of a run of keys dispatches exactly those keys' frames, in order |
| AutoSequence.FixedSequenceFrames | src/AutoKeypress.cpp:60 | the fixed sequence dispatches the frames of 1, 2, 3, 4, 5, *, 0, # in that order |
| AutoSequence.AutoKeypress.constructor | src/AutoKeypress.cpp:3-8 | index 0, not running, timer idle, and the sequence is 1 2 3 4 5 * 0 # |
| AutoSequence.AutoKeypress.InitializeSequence | src/AutoKeypress.cpp:57-61 | the sequence becomes 1 2 3 4 5 * 0 # |
| AutoSequence.AutoKeypress.StartSequence | src/AutoKeypress.cpp:10-18 | a no-op while running; otherwise restarts at index 0, sets running, arms the timer and presses the first key at once; the dispatcher sends, logs and (on an open real port) writes exactly the frames of the keys pressed |
| AutoSequence.AutoKeypress.StopSequence | src/AutoKeypress.cpp:20-24 | clears running and disarms the timer without touching the index |
| AutoSequence.AutoKeypress.IsRunning | src/AutoKeypress.cpp:26-29 | whether a run is in progress, which on a valid sequencer is exactly when its timer is armed |
| AutoSequence.AutoKeypress.PressNextKey | src/AutoKeypress.cpp:31-55 | while keys remain, emits the next one, dispatches the frame of the key with that label and advances by one; otherwise stops and emits completion once; the index stays within 0..size; the dispatcher's log gains the key's success or failure line, and an open real port is written exactly that frame |
| AutoSequence.AutoKeypress.TimerTimeout | src/AutoKeypress.cpp:6 | a timeout runs pressNextKey only while the timer is armed, with the same sends, log lines and port writes; a disarmed timeout dispatches, logs and writes nothing |
| PriceDialog.SetPriceDialog.constructor | src/SetPriceDialog.cpp:8-30 | the price starts at 0 and the dialog is pending |
| PriceDialog.SetPriceDialog.GetPrice | src/SetPriceDialog.cpp:32-35 | the stored price, which on a valid dialog lies in 0..999 |
| PriceDialog.SetPriceDialog.OnOkClicked | src/SetPriceDialog.cpp:37-47 | an accepted input is stored and accepts the dialog; any other input shows a warning and leaves the price and the dialog unchanged; the price stays in 0..999 |
| PriceDialog.SetPriceDialog.OnCancelClicked | src/SetPriceDialog.cpp:29 | Cancel rejects the dialog |
| PriceDialog.OkOnFreshDialog | src/SetPriceDialog.cpp:32-47 | on a fresh dialog, OK accepts iff the input is a price in 0..999; getPrice then returns that input, and otherwise 0 |
| Keypad.GridPosition | src/MainWindow.cpp:102 | button i sits at row i / 3 and column i % 3 of a 4-by-3 grid |
| Keypad.GridPositionInjective | src/MainWindow.cpp:99-104 | no two buttons share a grid cell |
| Keypad.ButtonKey | src/MainWindow.cpp:98 | the key whose label each button carries |
| Keypad.ButtonKeyBijective | src/MainWindow.cpp:98 | every key has exactly one button labelled with it |
| Keypad.WiredStarAndZeroSwapped | src/MainWindow.cpp:420-431 | as wired, a button sends its own label's frame iff it is neither `*` nor `0`; those two send each other's frames |
| Keypad.DuplicateDeliveryHarmless | src/MainWindow.cpp:130-134 | delivering each status signal twice, over the two connections, shows what delivering it once shows |
| Keypad.DeliverShowsLastStatus | src/MainWindow.cpp:331-335 | after a run of signals the indicator shows the last status signalled, or is untouched if there was none |
| Keypad.Decimal | src/MainWindow.cpp:405 | the decimal text of a number is digits denoting that number, with no leading zero |
| Keypad.CentsText | src/MainWindow.cpp:405 | cents below 100 print as exactly two digits, zero-padded |
| Keypad.PriceText | src/MainWindow.cpp:405 | the logged price text starts with "$" and has at least five characters (its full shape and round trip are the lemmas below) |
| Keypad.PriceTextShape | src/MainWindow.cpp:405 | the price text is "$", the whole dollars, ".", then the two cents digits |
| Keypad.PriceTextRoundTrip | src/MainWindow.cpp:405 | the price text reads back as the price, so distinct prices log distinct texts |
| Keypad.PriceTextOfValidPrice | src/MainWindow.cpp:405 | a price in 0..999 logs as a 5-character "$D.CC" |
| Keypad.PriceTextExamples | src/MainWindow.cpp:405 | 5 logs as "$0.05", 999 as "$9.99", 120 as "$1.20" |
| Keypad.MainWindow.constructor | src/MainWindow.cpp:13-36 | builds the chosen transport, the dispatcher and the sequencer over it; the selector lists the available ports; the link is closed and shown as "Not Connected" / "Connect" |
| Keypad.MainWindow.OnDigitClicked | src/MainWindow.cpp:259-266 | appends exactly the button's label to the display and logs it |
| Keypad.MainWindow.ClickButton | src/MainWindow.cpp:101 | a button click appends its label and sends the frame of that same label (the corrected wiring) |
| Keypad.MainWindow.OnClearClicked | src/MainWindow.cpp:268-272 | the display becomes empty |
| Keypad.MainWindow.OnEnterClicked | src/MainWindow.cpp:274-302 | sends the display's UTF-8 bytes only when the port is open, logs the outcome, and always leaves the display empty |
| Keypad.MainWindow.OnPortStatusChanged | src/MainWindow.cpp:331-335 | shows "Connected" / "Disconnect" for an open port and "Not Connected" / "Connect" otherwise |
| Keypad.MainWindow.OnConnectClicked | src/MainWindow.cpp:304-329 | closes an open port, or else tries to open the selected one, never both; exactly one status signal carries the new state; the indicator always shows the actual state; a real port's settings are 9600-8-N-1 for the selected port after an open attempt and untouched by a close |
| Keypad.MainWindow.OnChangeDefaultPortClicked | src/MainWindow.cpp:343-352 | stores the selected port as the transport's default port and logs it |
| Keypad.MainWindow.OnAutoKeypressKeyPressed | src/MainWindow.cpp:240-245 | appends the sequencer's key to the display and logs it |
| Keypad.MainWindow.ShowSetPriceDialog | src/MainWindow.cpp:399-410 | an accepted price is logged as "Price set to $D.CC" when its command is sent, or as an error otherwise; a rejected dialog logs nothing |
| Keypad.ConnectThenDisconnect | src/MainWindow.cpp:304-335 | two Connect clicks from closed, with a device that accepts, signal true then false and end "Not Connected" |

## Left out

- Widget construction, styling, menus, the About box and the Exit action (src/MainWindow.cpp:43-218, 354-362). The log list and display are plain strings.
- `onClearLogClicked`, `onClearVMCErrorClicked`, `onAutoKeypressToggled`, `onAutoKeypressCompleted` and `onAutoKeypressClicked`. These are not part of the keypad logic modelled here.
- `KeypressCommands::sendSetPriceCommand`. It is declared but has no definition in the source, so its frame is unknown. Its boolean result is the `priceSent` input of `ShowSetPriceDialog`.
- `KeypressCommands`' own `logAction`/`errorLog` only print to the debug console. The model keeps the chosen line in a ghost log.
- `qDebug` output in every file.
- The real `QSerialPort` and `QSerialPortInfo`. Whether an open succeeds, the byte count a write reports, the received bytes and the device list are inputs.
- `QSettings` persistence. It is a key-value map shared by the links, not a file or registry.
- `QTimer` wall-clock behaviour. A timer is an "armed" flag, and each timeout is an explicit call (`AutoKeypress.TimerTimeout`, `MockSerialCommunication.ReceiveTimerTimeout`). The periods (1000 ms at src/AutoKeypress.cpp:15, 5000 ms at src/MockSerialCommunication.cpp:21) play no part.
- `QString::toInt`. Its result is an `Option<int>` input to `OnOkClicked`.
- The modal `exec()` loop of the price dialog. `ShowSetPriceDialog` receives the dialog after it has ended.
- `m_useMockSerial` is hard-coded to false in the constructor's initialiser list (src/MainWindow.cpp:15, declared at src/MainWindow.h:59). It is a constructor parameter here, so both transports are covered.
- Keep-alive traffic, a response waiter, a liveness watchdog and a single-flight open guard. src/MainWindow.h:37-39 and 72 declare keep-alive slots and a flag. None of them is implemented in the source files, so the model follows the code and leaves them out.
- Qt's signal dispatch is not modelled generically. `OnConnectClicked` calls `OnPortStatusChanged` twice in place of the two connections; `DuplicateDeliveryHarmless` shows this equals one delivery.
- Keypad.MainWindow.ClickButton: it sends the frame of the button's own label, not the as-written wiring. The as-written wiring is `Keypad.WiredKeys` (see Findings).

## Findings

| source | as written | input that shows it | evidently intended | confidence | as-written member | corrected member |
|---|---|---|---|---|---|---|
| src/MainWindow.cpp:429-430 | the button at index 9, labelled `*` (line 98), is connected to `sendKeypress0`; the button at index 10, labelled `0`, is connected to `sendKeypressStar` | clicking the `*` button (index 9) appends `*` to the display but sends frame `0B 04 03 50 62` (key 0) | every button sends the frame of the key printed on it | high (not executed) | Keypad.WiredStarAndZeroSwapped | Keypad.ButtonKey |
