/**
 * The keypad window's controller logic (MainWindow), widgets excluded: the
 * display text, the connect/disconnect toggle and its status indicator, the
 * log list, the keypad's grid and its button-to-keypress wiring, and the
 * price text logged after the price dialog.
 */
module Keypad {
  import opened LinkTypes
  import opened SerialLink
  import opened MockLink
  import opened Keypress
  import opened AutoSequence
  import opened PriceDialog

  // ---------------------------------------------------------------------
  // The keypad grid and its wiring

  /** The labels of the twelve keypad buttons, by button index. */
  const ButtonLabels: seq<string> := ["1", "2", "3", "4", "5", "6", "7", "8", "9", "*", "0", "#"]

  /** Button i sits at row i / 3, column i % 3 of a four-row, three-column grid. */
  function GridPosition(i: nat): (cell: (nat, nat))
    requires i < 12
    ensures cell.0 < 4 && cell.1 < 3
    ensures cell.0 * 3 + cell.1 == i
  {
    (i / 3, i % 3)
  }

  /** No two buttons share a grid cell. */
  lemma GridPositionInjective(i: nat, j: nat)
    requires i < 12 && j < 12
    ensures GridPosition(i) == GridPosition(j) ==> i == j
  {
  }

  /**
   * The keypress slot each button is connected to, exactly as
   * connectSignalsAndSlots wires them: button 9 (labelled "*") to key 0 and
   * button 10 (labelled "0") to key *.
   */
  const WiredKeys: seq<Key> := [One, Two, Three, Four, Five, Six, Seven, Eight, Nine, Zero, Star, Hash]

  /** The key a button is labelled with: the slot it should be connected to. */
  function ButtonKey(i: nat): (k: Key)
    requires i < 12
    ensures Label(k) == ButtonLabels[i]
  {
    if i == 0 then One
    else if i == 1 then Two
    else if i == 2 then Three
    else if i == 3 then Four
    else if i == 4 then Five
    else if i == 5 then Six
    else if i == 6 then Seven
    else if i == 7 then Eight
    else if i == 8 then Nine
    else if i == 9 then Star
    else if i == 10 then Zero
    else Hash
  }

  /** Every key has exactly one button labelled with it. */
  lemma ButtonKeyBijective(k: Key)
    ensures exists i :: 0 <= i < 12 && ButtonKey(i) == k
    ensures forall i, j :: 0 <= i < 12 && 0 <= j < 12 && ButtonKey(i) == ButtonKey(j) ==> i == j
  {
    var i := match k
      case One => 0 case Two => 1 case Three => 2 case Four => 3 case Five => 4 case Six => 5
      case Seven => 6 case Eight => 7 case Nine => 8 case Star => 9 case Zero => 10 case Hash => 11;
    assert ButtonKey(i) == k;
  }

  /**
   * As wired, a button sends the frame of its own label exactly when it is
   * neither "*" nor "0"; those two send each other's frames.
   */
  lemma WiredStarAndZeroSwapped(i: nat)
    requires i < 12
    ensures Label(WiredKeys[i]) == ButtonLabels[i] <==> i != 9 && i != 10
    ensures WiredKeys[9] == ButtonKey(10) && WiredKeys[10] == ButtonKey(9)
    ensures Frame(WiredKeys[9]) != Frame(ButtonKey(9))
  {
    FrameInjective(Zero, Star);
  }

  // ---------------------------------------------------------------------
  // The port status indicator

  /** The status label's text and the connect button's text. */
  datatype Indicator = Indicator(status: string, button: string)

  /** What onPortStatusChanged shows for a port state. */
  function ShowStatus(isOpen: bool): Indicator
  {
    if isOpen then Indicator("Connected", "Disconnect") else Indicator("Not Connected", "Connect")
  }

  /** The indicator after the window's slot receives one signal; data signals do not reach it. */
  function Receive(ind: Indicator, e: Event): Indicator
  {
    match e
    case PortStatusChanged(isOpen) => ShowStatus(isOpen)
    case DataReceived(_) => ind
  }

  /** The indicator after the slot receives each signal of `events` once, in order. */
  function DeliverOnce(ind: Indicator, events: seq<Event>): Indicator
  {
    if events == [] then ind
    else Receive(DeliverOnce(ind, events[..|events| - 1]), events[|events| - 1])
  }

  /**
   * The indicator after the slot receives each signal twice, as the two
   * connections of portStatusChanged to onPortStatusChanged deliver it.
   */
  function DeliverTwice(ind: Indicator, events: seq<Event>): Indicator
  {
    if events == [] then ind
    else
      var e := events[|events| - 1];
      Receive(Receive(DeliverTwice(ind, events[..|events| - 1]), e), e)
  }

  /** The state carried by the last status signal of `events`, if any. */
  function LastStatus(events: seq<Event>): Option<bool>
  {
    if events == [] then None
    else match events[|events| - 1]
      case PortStatusChanged(isOpen) => Some(isOpen)
      case DataReceived(_) => LastStatus(events[..|events| - 1])
  }

  /** The duplicate connection is harmless: receiving each signal twice shows what receiving it once shows. */
  lemma {:induction false} DuplicateDeliveryHarmless(ind: Indicator, events: seq<Event>)
    ensures DeliverTwice(ind, events) == DeliverOnce(ind, events)
  {
    if events != [] {
      DuplicateDeliveryHarmless(ind, events[..|events| - 1]);
    }
  }

  /** After a run of signals the indicator shows the last status signalled, or is untouched if there was none. */
  lemma {:induction false} DeliverShowsLastStatus(ind: Indicator, events: seq<Event>)
    ensures DeliverOnce(ind, events) == (match LastStatus(events) case Some(b) => ShowStatus(b) case None => ind)
  {
    if events != [] {
      DeliverShowsLastStatus(ind, events[..|events| - 1]);
    }
  }

  // ---------------------------------------------------------------------
  // Decimal text and the price text

  predicate IsDigits(s: string)
  {
    forall i :: 0 <= i < |s| ==> '0' <= s[i] <= '9'
  }

  function DigitChar(d: nat): (c: char)
    requires d < 10
    ensures '0' <= c <= '9' && c as int - '0' as int == d
  {
    ('0' as int + d) as char
  }

  /** The number a string of decimal digits denotes. */
  function DigitsValue(s: string): nat
    requires IsDigits(s)
  {
    if s == [] then 0 else DigitsValue(s[..|s| - 1]) * 10 + (s[|s| - 1] as int - '0' as int)
  }

  /** The decimal text of a non-negative number, as QString::arg writes it. */
  function Decimal(n: nat): (s: string)
    ensures IsDigits(s) && DigitsValue(s) == n
    ensures |s| >= 1 && (|s| == 1 <==> n < 10)
    ensures s[0] == '0' <==> n == 0
    decreases n
  {
    if n < 10 then [DigitChar(n)]
    else
      var s := Decimal(n / 10) + [DigitChar(n % 10)];
      assert s[..|s| - 1] == Decimal(n / 10);
      s
  }

  /** Pads `s` on the left with `fill` up to `width` characters. */
  function PadLeft(s: string, width: nat, fill: char): string
  {
    if |s| >= width then s else seq(width - |s|, _ => fill) + s
  }

  /** The two-digit, zero-padded cents text. */
  lemma CentsText(c: nat)
    requires c < 100
    ensures PadLeft(Decimal(c), 2, '0') == [DigitChar(c / 10), DigitChar(c % 10)]
  {
    if c < 10 {
      assert Decimal(c) == [DigitChar(c)];
      assert DigitChar(c / 10) == '0';
    } else {
      assert Decimal(c / 10) == [DigitChar(c / 10)];
      assert Decimal(c) == [DigitChar(c / 10), DigitChar(c % 10)];
    }
  }

  /** "$D.CC": the whole dollars, then the cents as two zero-padded digits. */
  function PriceText(price: nat): (t: string)
    ensures |t| >= 5 && t[0] == '$'
  {
    "$" + Decimal(price / 100) + "." + PadLeft(Decimal(price % 100), 2, '0')
  }

  /** Reads a "$D.CC" text back as cents. */
  function PriceOfText(t: string): Option<nat>
  {
    if |t| < 5 || t[0] != '$' || t[|t| - 3] != '.' then None
    else
      var dollars := t[1..|t| - 3];
      var cents := t[|t| - 2..];
      if IsDigits(dollars) && IsDigits(cents) then Some(DigitsValue(dollars) * 100 + DigitsValue(cents)) else None
  }

  /** The price text is "$", the dollars, ".", then the cents' two digits. */
  lemma PriceTextShape(price: nat)
    ensures PriceText(price) == "$" + Decimal(price / 100) + "." + [DigitChar(price % 100 / 10), DigitChar(price % 100 % 10)]
  {
    CentsText(price % 100);
  }

  /** The parts of a "$D.CC" text are found where PriceOfText looks for them. */
  lemma PriceParts(dollars: string, cents: string)
    requires |dollars| >= 1 && |cents| == 2
    ensures var t := "$" + dollars + "." + cents;
      |t| >= 5 && t[0] == '$' && t[|t| - 3] == '.' && t[1..|t| - 3] == dollars && t[|t| - 2..] == cents
  {
  }

  /** Reading "$D.CC" back yields D * 100 + CC. */
  lemma PriceOfParts(dollars: string, cents: string)
    requires |dollars| >= 1 && |cents| == 2 && IsDigits(dollars) && IsDigits(cents)
    ensures PriceOfText("$" + dollars + "." + cents) == Some(DigitsValue(dollars) * 100 + DigitsValue(cents))
  {
    PriceParts(dollars, cents);
    var t := "$" + dollars + "." + cents;
    assert t[1..|t| - 3] == dollars && t[|t| - 2..] == cents;
    assert !(|t| < 5 || t[0] != '$' || t[|t| - 3] != '.');
  }

  lemma TwoDigitsValue(c: nat)
    requires c < 100
    ensures IsDigits([DigitChar(c / 10), DigitChar(c % 10)])
    ensures DigitsValue([DigitChar(c / 10), DigitChar(c % 10)]) == c
  {
    var s := [DigitChar(c / 10), DigitChar(c % 10)];
    var first := [DigitChar(c / 10)];
    assert s[..1] == first && first[..0] == [];
    assert DigitsValue(first) == c / 10;
    assert DigitsValue(s) == DigitsValue(first) * 10 + c % 10;
  }

  /** The price text reads back as the price, so distinct prices log distinct texts. */
  lemma PriceTextRoundTrip(price: nat)
    ensures PriceOfText(PriceText(price)) == Some(price)
  {
    var c := price % 100;
    var dollars := Decimal(price / 100);
    var cents := [DigitChar(c / 10), DigitChar(c % 10)];
    var t := "$" + dollars + "." + cents;
    PriceTextShape(price);
    assert PriceText(price) == t;
    TwoDigitsValue(c);
    PriceOfParts(dollars, cents);
    assert PriceOfText(t) == Some(DigitsValue(dollars) * 100 + DigitsValue(cents));
    assert DigitsValue(dollars) * 100 + DigitsValue(cents) == price;
  }

  /** A valid price logs as "$D.CC" with a single dollar digit. */
  lemma PriceTextOfValidPrice(price: nat)
    requires IsValidPrice(price)
    ensures |PriceText(price)| == 5
    ensures PriceText(price)[0] == '$' && PriceText(price)[2] == '.'
  {
    var c := price % 100;
    var dollars := Decimal(price / 100);
    var t := "$" + dollars + "." + [DigitChar(c / 10), DigitChar(c % 10)];
    PriceTextShape(price);
    assert PriceText(price) == t;
    assert |dollars| == 1;
    assert t[0] == '$' && t[2] == '.';
  }

  lemma PriceTextExamples()
    ensures PriceText(5) == "$0.05"
    ensures PriceText(999) == "$9.99"
    ensures PriceText(120) == "$1.20"
  {
    CentsText(5);
    CentsText(99);
    CentsText(20);
  }

  // ---------------------------------------------------------------------
  // The window

  /** The transport's signals emitted so far. */
  function Events(t: Transport): seq<Event>
    reads Objects(t)
  {
    match t
    case Real(s) => s.events
    case Mock(m) => m.events
  }

  function SerialLinks(t: Transport): set<SerialCommunication>
  {
    match t
    case Real(s) => {s}
    case Mock(_) => {}
  }

  function MockLinks(t: Transport): set<MockSerialCommunication>
  {
    match t
    case Real(_) => {}
    case Mock(m) => {m}
  }

  function SettingsStores(t: Transport): set<SettingsStore>
  {
    match t
    case Real(s) => {s.settings}
    case Mock(_) => {}
  }

  /** What onEnterClicked logs for the display text, the port state and whether the send succeeded. */
  function EnterLog(useMockSerial: bool, text: string, isOpen: bool, delivered: bool): seq<LogLine>
  {
    [Action("Enter clicked, value: " + text)]
    + if !isOpen then [Error(if useMockSerial then "Mock serial port is not open" else "Serial port is not open")]
      else if delivered then [Action("Command sent: " + text)]
      else [Error("Failed to send command")]
  }

  /** What onConnectClicked logs after an open attempt. */
  function ConnectLog(useMockSerial: bool, portName: string, connected: bool): LogLine
  {
    if useMockSerial then
      (if connected then Action("Connected to mock port: " + portName) else Error("Failed to connect to mock port: " + portName))
    else
      (if connected then Action("Connected to port: " + portName) else Error("Failed to connect to port: " + portName))
  }

  class MainWindow {
    const useMockSerial: bool
    const transport: Transport
    const keypressCommands: KeypressCommands
    const autoKeypress: AutoKeypress
    /** The port selector's entries and its current text. */
    var portChoices: seq<string>
    var selectedPort: string
    /** The display's text. */
    var display: string
    var indicator: Indicator
    /** The log list: logAction adds Action(text), errorLog adds Error(text). */
    var log: seq<LogLine>

    /**
     * The dispatcher and the sequencer use the window's transport, and the
     * indicator shows the transport's actual state.
     */
    predicate Valid()
      reads this, Objects(transport), autoKeypress
    {
      && useMockSerial == transport.Mock?
      && keypressCommands.transport == transport && keypressCommands.Valid()
      && autoKeypress.keypressCommands == keypressCommands && autoKeypress.Valid()
      && (transport.Mock? ==> transport.mock.Valid())
      && indicator == ShowStatus(IsOpen(transport))
    }

    /**
     * Builds the chosen transport, the dispatcher over it and the sequencer,
     * and fills the port selector with the available ports.  `infos` is what
     * the operating system lists for the real link.
     */
    constructor (useMock: bool, settings: SettingsStore, infos: seq<PortInfo>)
      ensures Valid() && fresh(Objects(transport)) && fresh(keypressCommands) && fresh(autoKeypress)
      ensures useMockSerial == useMock
      ensures transport.Real? ==> transport.serial.settings == settings
      ensures !IsOpen(transport) && Events(transport) == []
      ensures keypressCommands.sent == [] && autoKeypress.State() == Phase(0, false, false)
      ensures portChoices == if useMock then ["MOCK_PORT1", "MOCK_PORT2", "MOCK_PORT3"]
                             else seq(|infos|, i requires 0 <= i < |infos| => infos[i].portName)
      ensures selectedPort == if portChoices == [] then "" else portChoices[0]
      ensures display == "" && log == [] && indicator == Indicator("Not Connected", "Connect")
    {
      var t: Transport;
      var ports: seq<string>;
      if useMock {
        var m := new MockSerialCommunication();
        t := Mock(m);
        ports := m.GetAvailablePorts();
      } else {
        var s := new SerialCommunication(settings);
        t := Real(s);
        ports := s.GetAvailablePorts(infos);
      }
      var commands := new KeypressCommands(t);
      var sequencer := new AutoKeypress(commands);
      useMockSerial := useMock;
      transport := t;
      keypressCommands := commands;
      autoKeypress := sequencer;
      portChoices := ports;
      selectedPort := if ports == [] then "" else ports[0];
      display := "";
      indicator := Indicator("Not Connected", "Connect");
      log := [];
    }

    /** The user picks an entry of the port selector. */
    method SelectPort(i: nat)
      requires i < |portChoices|
      modifies this`selectedPort
      ensures selectedPort == portChoices[i]
    {
      selectedPort := portChoices[i];
    }

    /** onDigitClicked: appends the clicked button's label to the display and logs it. */
    method OnDigitClicked(i: nat)
      requires i < 12
      modifies this`display, this`log
      ensures display == old(display) + ButtonLabels[i]
      ensures log == old(log) + [Action("Digit clicked: " + ButtonLabels[i])]
    {
      display := display + ButtonLabels[i];
      log := log + [Action("Digit clicked: " + ButtonLabels[i])];
    }

    /**
     * A click on keypad button i: onDigitClicked, then the keypress slot of
     * the button's own label (the corrected wiring, see WiredStarAndZeroSwapped).
     */
    method ClickButton(i: nat, reported: int)
      requires Valid() && i < 12
      modifies this`display, this`log, keypressCommands`sent, keypressCommands`log, WritablePorts(transport)`written
      ensures Valid()
      ensures display == old(display) + ButtonLabels[i]
      ensures log == old(log) + [Action("Digit clicked: " + ButtonLabels[i])]
      ensures keypressCommands.sent == old(keypressCommands.sent) + [Frame(ButtonKey(i))]
      ensures keypressCommands.log == old(keypressCommands.log) + [KeypressLog(ButtonKey(i), Delivers(transport, Frame(ButtonKey(i)), reported))]
      ensures transport.Real? ==>
        transport.serial.port.written == old(transport.serial.port.written) + (if IsOpen(transport) then [Frame(ButtonKey(i))] else [])
    {
      OnDigitClicked(i);
      keypressCommands.SendKeypress(ButtonKey(i), reported);
    }

    /** onClearClicked: empties the display. */
    method OnClearClicked()
      modifies this`display, this`log
      ensures display == ""
      ensures log == old(log) + [Action("Display cleared")]
    {
      display := "";
      log := log + [Action("Display cleared")];
    }

    /**
     * onEnterClicked: sends the display's UTF-8 bytes straight to the
     * transport only when the port is open, logs the outcome, and always
     * empties the display.
     */
    method OnEnterClicked(reported: int)
      requires Valid()
      modifies this`display, this`log, WritablePorts(transport)`written
      ensures Valid()
      ensures display == ""
      ensures log == old(log) + EnterLog(useMockSerial, old(display), IsOpen(transport), Delivers(transport, Utf8(old(display)), reported))
      ensures transport.Real? ==>
        transport.serial.port.written == old(transport.serial.port.written) + (if IsOpen(transport) then [Utf8(old(display))] else [])
    {
      var text := display;
      log := log + [Action("Enter clicked, value: " + text)];
      if useMockSerial {
        if transport.mock.IsPortOpen() {
          var ok := transport.mock.SendCommand(Utf8(text));
          log := log + [if ok then Action("Command sent: " + text) else Error("Failed to send command")];
        } else {
          log := log + [Error("Mock serial port is not open")];
        }
      } else {
        if transport.serial.IsPortOpen() {
          var ok := transport.serial.SendCommand(Utf8(text), reported);
          if ok {
            log := log + [Action("Command sent: " + text)];
          } else {
            log := log + [Error("Failed to send command")];
          }
        } else {
          log := log + [Error("Serial port is not open")];
        }
      }
      display := "";
    }

    /** onPortStatusChanged: shows the signalled state on the label and the connect button. */
    method OnPortStatusChanged(isOpen: bool)
      modifies this`indicator
      ensures indicator == ShowStatus(isOpen)
    {
      indicator := Indicator(if isOpen then "Connected" else "Not Connected", if isOpen then "Disconnect" else "Connect");
    }

    /**
     * onConnectClicked: closes an open port, otherwise tries to open the
     * selected one (never both).  Either way exactly one portStatusChanged
     * signal carries the new state, and the doubly connected slot shows it.
     * `openSucceeds` is whether the device accepts an open.
     */
    method OnConnectClicked(openSucceeds: bool)
      requires Valid()
      modifies this`indicator, this`log
      modifies SerialLinks(transport)`events, WritablePorts(transport)`settings, WritablePorts(transport)`isOpen, WritablePorts(transport)`attempts
      modifies MockLinks(transport)`isOpen, MockLinks(transport)`events, MockLinks(transport)`receiveTimerArmed
      ensures Valid()
      ensures IsOpen(transport) == (!old(IsOpen(transport)) && (useMockSerial || openSucceeds))
      ensures Events(transport) == old(Events(transport)) + [PortStatusChanged(IsOpen(transport))]
      ensures indicator == ShowStatus(IsOpen(transport))
      ensures transport.Real? ==>
        transport.serial.port.attempts == old(transport.serial.port.attempts) + (if old(IsOpen(transport)) then [] else [LinkSettings(selectedPort)])
      ensures transport.Real? ==>
        transport.serial.port.settings == (if old(IsOpen(transport)) then old(transport.serial.port.settings) else LinkSettings(selectedPort))
      ensures log == old(log) + (if old(IsOpen(transport)) then [] else [ConnectLog(useMockSerial, selectedPort, IsOpen(transport))])
    {
      if useMockSerial {
        var m := transport.mock;
        if m.IsPortOpen() {
          m.ClosePort();
          OnPortStatusChanged(false);
          OnPortStatusChanged(false);
        } else {
          var ok := m.OpenPort(selectedPort);
          OnPortStatusChanged(true);
          OnPortStatusChanged(true);
          log := log + [if ok then Action("Connected to mock port: " + selectedPort) else Error("Failed to connect to mock port: " + selectedPort)];
        }
      } else {
        var s := transport.serial;
        if s.IsPortOpen() {
          s.ClosePort();
          OnPortStatusChanged(false);
          OnPortStatusChanged(false);
        } else {
          var ok := s.OpenPort(selectedPort, openSucceeds);
          OnPortStatusChanged(ok);
          OnPortStatusChanged(ok);
          if ok {
            log := log + [Action("Connected to port: " + selectedPort)];
          } else {
            log := log + [Error("Failed to connect to port: " + selectedPort)];
          }
        }
      }
    }

    /** onChangeDefaultPortClicked: stores the selected port as the transport's default and logs it. */
    method OnChangeDefaultPortClicked()
      requires Valid()
      modifies this`log, SerialLinks(transport)`defaultPort, SettingsStores(transport), MockLinks(transport)`defaultPort
      ensures Valid()
      ensures transport.Real? ==>
        transport.serial.settings.entries == old(transport.serial.settings.entries)[DefaultPortKey := selectedPort]
      ensures transport.Real? ==> transport.serial.defaultPort == selectedPort
      ensures transport.Mock? ==> transport.mock.defaultPort == selectedPort
      ensures log == old(log) + [Action("Default port changed to: " + selectedPort)]
    {
      if useMockSerial {
        transport.mock.SetDefaultPort(selectedPort);
      } else {
        transport.serial.SetDefaultPort(selectedPort);
      }
      log := log + [Action("Default port changed to: " + selectedPort)];
    }

    /** onAutoKeypressKeyPressed: appends the sequencer's key to the display and logs it. */
    method OnAutoKeypressKeyPressed(key: string)
      modifies this`display, this`log
      ensures display == old(display) + key
      ensures log == old(log) + [Action("Auto Keypress: " + key)]
    {
      display := display + key;
      log := log + [Action("Auto Keypress: " + key)];
    }

    /**
     * showSetPriceDialog after the modal dialog has ended: an accepted price
     * is handed to the price command (whose outcome is `priceSent`) and
     * logged as "$D.CC"; a rejected dialog logs nothing.
     */
    method ShowSetPriceDialog(dialog: SetPriceDialog, priceSent: bool)
      requires dialog.Valid()
      modifies this`log
      ensures dialog.result != Accepted ==> log == old(log)
      ensures dialog.result == Accepted && priceSent ==> log == old(log) + [Action("Price set to " + PriceText(dialog.price))]
      ensures dialog.result == Accepted && !priceSent ==> log == old(log) + [Error("Failed to set price")]
    {
      if dialog.result == Accepted {
        var price := dialog.GetPrice();
        if priceSent {
          log := log + [Action("Price set to " + PriceText(price))];
        } else {
          log := log + [Error("Failed to set price")];
        }
      }
    }
  }

  /** Clicking Connect twice from a closed link with a device that accepts: open, then closed again. */
  method ConnectThenDisconnect(w: MainWindow)
    requires w.Valid() && !IsOpen(w.transport)
    modifies w`indicator, w`log
    modifies SerialLinks(w.transport)`events, WritablePorts(w.transport)`settings, WritablePorts(w.transport)`isOpen, WritablePorts(w.transport)`attempts
    modifies MockLinks(w.transport)`isOpen, MockLinks(w.transport)`events, MockLinks(w.transport)`receiveTimerArmed
    ensures w.Valid() && !IsOpen(w.transport)
    ensures Events(w.transport) == old(Events(w.transport)) + [PortStatusChanged(true), PortStatusChanged(false)]
    ensures w.indicator == Indicator("Not Connected", "Connect")
  {
    w.OnConnectClicked(true);
    w.OnConnectClicked(true);
  }
}
