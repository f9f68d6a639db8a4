/**
 * The real serial link (SerialCommunication) over an abstract serial port.
 *
 * The operating-system port (QSerialPort) is modelled by the class SerialPort:
 * whether opening succeeds and how many bytes a write reports are inputs
 * chosen by the environment.  The persistent settings (QSettings) are a
 * key-value store shared by every SerialCommunication of the process.
 */
module SerialLink {
  import opened LinkTypes

  datatype Parity = NoParity | EvenParity | OddParity | SpaceParity | MarkParity
  datatype StopBits = OneStop | OneAndHalfStop | TwoStop
  datatype FlowControl = NoFlowControl | HardwareControl | SoftwareControl

  /** Name and line settings of a serial port. */
  datatype PortSettings = PortSettings(
    portName: string,
    baudRate: int,
    dataBits: int,
    parity: Parity,
    stopBits: StopBits,
    flowControl: FlowControl)

  /** The settings a freshly constructed port carries: no name, 9600-8-N-1, no flow control. */
  const InitialPortSettings := PortSettings("", 9600, 8, NoParity, OneStop, NoFlowControl)

  /** What openPort configures: the given name, 9600 baud, 8 data bits, no parity, one stop bit, no flow control. */
  function LinkSettings(portName: string): PortSettings
  {
    PortSettings(portName, 9600, 8, NoParity, OneStop, NoFlowControl)
  }

  /** What the operating system reports about one serial device. */
  datatype PortInfo = PortInfo(portName: string, description: string)

  /**
   * The serial port handle.  `written` records every buffer handed to write
   * while the port was open; `attempts` records the settings in force at each
   * open attempt; `pending` holds received bytes not yet read.
   */
  class SerialPort {
    var settings: PortSettings
    var isOpen: bool
    var pending: seq<byte>
    ghost var written: seq<seq<byte>>
    ghost var attempts: seq<PortSettings>

    constructor ()
      ensures settings == InitialPortSettings
      ensures !isOpen && pending == [] && written == [] && attempts == []
    {
      settings := InitialPortSettings;
      isOpen := false;
      pending := [];
      written := [];
      attempts := [];
    }

    method SetPortName(name: string)
      modifies this`settings
      ensures settings == old(settings).(portName := name)
    {
      settings := settings.(portName := name);
    }

    method SetBaudRate(rate: int)
      modifies this`settings
      ensures settings == old(settings).(baudRate := rate)
    {
      settings := settings.(baudRate := rate);
    }

    method SetDataBits(bits: int)
      modifies this`settings
      ensures settings == old(settings).(dataBits := bits)
    {
      settings := settings.(dataBits := bits);
    }

    method SetParity(parity: Parity)
      modifies this`settings
      ensures settings == old(settings).(parity := parity)
    {
      settings := settings.(parity := parity);
    }

    method SetStopBits(stopBits: StopBits)
      modifies this`settings
      ensures settings == old(settings).(stopBits := stopBits)
    {
      settings := settings.(stopBits := stopBits);
    }

    method SetFlowControl(flowControl: FlowControl)
      modifies this`settings
      ensures settings == old(settings).(flowControl := flowControl)
    {
      settings := settings.(flowControl := flowControl);
    }

    /**
     * Opens the device for reading and writing.  `succeeds` is whether the
     * device accepts; a port that is already open refuses a second open.
     */
    method Open(succeeds: bool) returns (ok: bool)
      modifies this`isOpen, this`attempts
      ensures ok == (!old(isOpen) && succeeds)
      ensures isOpen == (old(isOpen) || succeeds)
      ensures attempts == old(attempts) + [settings]
    {
      attempts := attempts + [settings];
      ok := !isOpen && succeeds;
      isOpen := isOpen || succeeds;
    }

    method Close()
      modifies this`isOpen
      ensures !isOpen
    {
      isOpen := false;
    }

    /**
     * Hands `data` to the device.  On an open port the result is the byte
     * count the device reports (`reported`); on a closed port it is -1.
     */
    method Write(data: seq<byte>, reported: int) returns (n: int)
      modifies this`written
      ensures n == (if isOpen then reported else -1)
      ensures written == old(written) + (if isOpen then [data] else [])
    {
      if isOpen {
        written := written + [data];
        n := reported;
      } else {
        n := -1;
      }
    }

    /** Returns and removes every received byte. */
    method ReadAll() returns (data: seq<byte>)
      modifies this`pending
      ensures data == old(pending) && pending == []
    {
      data := pending;
      pending := [];
    }

    /** The device delivers bytes (the environment's side of the link). */
    method Receive(data: seq<byte>)
      modifies this`pending
      ensures pending == old(pending) + data
    {
      pending := pending + data;
    }
  }

  /** A key in the persistent settings: organisation, application and entry name. */
  datatype SettingKey = SettingKey(organization: string, application: string, name: string)

  const DefaultPortKey := SettingKey("YourCompany", "asdKeypad", "DefaultPort")

  /** The persistent settings store, as a key-value map. */
  class SettingsStore {
    var entries: map<SettingKey, string>

    constructor (initial: map<SettingKey, string>)
      ensures entries == initial
    {
      entries := initial;
    }

    method SetValue(key: SettingKey, value: string)
      modifies this
      ensures entries == old(entries)[key := value]
    {
      entries := entries[key := value];
    }
  }

  /** The stored default port, or "" when none was ever stored. */
  function StoredDefaultPort(entries: map<SettingKey, string>): string
  {
    if DefaultPortKey in entries then entries[DefaultPortKey] else ""
  }

  /** Storing a default port and reading it back yields it, and touches no other entry. */
  lemma StoredDefaultPortRoundTrip(entries: map<SettingKey, string>, name: string)
    ensures StoredDefaultPort(entries[DefaultPortKey := name]) == name
    ensures forall k :: k in entries && k != DefaultPortKey ==> entries[DefaultPortKey := name][k] == entries[k]
  {
  }

  class SerialCommunication {
    const port: SerialPort
    const settings: SettingsStore
    var defaultPort: string
    /** The portStatusChanged and dataReceived signals emitted so far, in order. */
    var events: seq<Event>

    constructor (settings: SettingsStore)
      ensures this.settings == settings && fresh(port)
      ensures port.settings == InitialPortSettings
      ensures !port.isOpen && port.pending == [] && port.written == [] && port.attempts == []
      ensures defaultPort == StoredDefaultPort(settings.entries)
      ensures events == []
    {
      port := new SerialPort();
      this.settings := settings;
      events := [];
      new;
      defaultPort := GetDefaultPort();
    }

    /** The destructor closes the port. */
    method Destroy()
      modifies this`events, port`isOpen
      ensures !port.isOpen
      ensures events == old(events) + CloseSignals(old(port.isOpen))
    {
      ClosePort();
    }

    /**
     * Closes any open port, configures 9600-8-N-1 without flow control under
     * the given name, then tries to open it; the outcome is signalled.
     */
    method OpenPort(portName: string, succeeds: bool) returns (ok: bool)
      modifies this`events, port`settings, port`isOpen, port`attempts
      ensures ok == succeeds && port.isOpen == succeeds
      ensures port.settings == LinkSettings(portName)
      ensures port.attempts == old(port.attempts) + [LinkSettings(portName)]
      ensures events == old(events) + CloseSignals(old(port.isOpen)) + [PortStatusChanged(succeeds)]
    {
      ClosePort();
      port.SetPortName(portName);
      port.SetBaudRate(9600);
      port.SetDataBits(8);
      port.SetParity(NoParity);
      port.SetStopBits(OneStop);
      port.SetFlowControl(NoFlowControl);
      var accepted := port.Open(succeeds);
      if accepted {
        events := events + [PortStatusChanged(true)];
        ok := true;
      } else {
        events := events + [PortStatusChanged(false)];
        ok := false;
      }
    }

    /** Closes the port and signals it, only if it is open. */
    method ClosePort()
      modifies this`events, port`isOpen
      ensures !port.isOpen
      ensures events == old(events) + CloseSignals(old(port.isOpen))
    {
      if port.isOpen {
        port.Close();
        events := events + [PortStatusChanged(false)];
      }
    }

    /**
     * Writes `command` when the port is open; succeeds exactly when the
     * reported byte count equals the command's length.
     */
    method SendCommand(command: seq<byte>, reported: int) returns (ok: bool)
      modifies port`written
      ensures ok == (port.isOpen && reported == |command|)
      ensures port.written == old(port.written) + (if port.isOpen then [command] else [])
    {
      if port.isOpen {
        var n := port.Write(command, reported);
        return n == |command|;
      }
      return false;
    }

    /** The names of the devices the operating system lists, in its order. */
    method GetAvailablePorts(infos: seq<PortInfo>) returns (ports: seq<string>)
      ensures |ports| == |infos|
      ensures forall i :: 0 <= i < |infos| ==> ports[i] == infos[i].portName
    {
      ports := [];
      var i := 0;
      while i < |infos|
        invariant 0 <= i <= |infos|
        invariant |ports| == i
        invariant forall j :: 0 <= j < i ==> ports[j] == infos[j].portName
      {
        ports := ports + [infos[i].portName];
        i := i + 1;
      }
    }

    method GetDefaultPort() returns (name: string)
      ensures DefaultPortKey in settings.entries ==> name == settings.entries[DefaultPortKey]
      ensures DefaultPortKey !in settings.entries ==> name == ""
    {
      name := StoredDefaultPort(settings.entries);
    }

    method SetDefaultPort(name: string)
      modifies this`defaultPort, settings
      ensures settings.entries == old(settings.entries)[DefaultPortKey := name]
      ensures defaultPort == name
    {
      settings.SetValue(DefaultPortKey, name);
      defaultPort := name;
    }

    predicate IsPortOpen()
      reads port
    {
      port.isOpen
    }

    /** Reads every pending byte and signals it as received data. */
    method HandleReadyRead()
      modifies this`events, port`pending
      ensures port.pending == []
      ensures events == old(events) + [DataReceived(old(port.pending))]
    {
      var data := port.ReadAll();
      events := events + [DataReceived(data)];
    }
  }

  /** Two consecutive closePort calls signal at most one portStatusChanged(false). */
  method CloseTwice(c: SerialCommunication)
    modifies c`events, c.port`isOpen
    ensures !c.port.isOpen
    ensures c.events == old(c.events) + CloseSignals(old(c.port.isOpen))
  {
    c.ClosePort();
    c.ClosePort();
  }

  /** Storing a default port and reading it back yields what was stored. */
  method SetThenGetDefaultPort(c: SerialCommunication, name: string) returns (got: string)
    modifies c`defaultPort, c.settings
    ensures got == name
  {
    c.SetDefaultPort(name);
    got := c.GetDefaultPort();
  }
}
