/**
 * The simulated serial link (MockSerialCommunication): an open flag, a
 * remembered default port and a receive timer that, while armed, delivers a
 * fixed block of bytes on each timeout.
 */
module MockLink {
  import opened LinkTypes

  /** The bytes every receive-timer timeout delivers: 0A 01 02 03 04 05. */
  const MockData: seq<byte> := [0x0A, 0x01, 0x02, 0x03, 0x04, 0x05]

  class MockSerialCommunication {
    var isOpen: bool
    var defaultPort: string
    var receiveTimerArmed: bool
    /** The portStatusChanged and dataReceived signals emitted so far, in order. */
    var events: seq<Event>

    /** The receive timer runs exactly while the port is open. */
    predicate Valid()
      reads this
    {
      receiveTimerArmed == isOpen
    }

    constructor ()
      ensures Valid()
      ensures !isOpen && !receiveTimerArmed && events == []
      ensures defaultPort == GetDefaultPort()
    {
      isOpen := false;
      receiveTimerArmed := false;
      events := [];
      new;
      defaultPort := GetDefaultPort();
    }

    /** The destructor closes the port. */
    method Destroy()
      requires Valid()
      modifies this`isOpen, this`events, this`receiveTimerArmed
      ensures Valid() && !isOpen
      ensures events == old(events) + CloseSignals(old(isOpen))
    {
      ClosePort();
    }

    /**
     * Always succeeds: sets the port open, signals it and arms the receive
     * timer.  It does not close first, so opening an open port signals
     * portStatusChanged(true) again.
     */
    method OpenPort(portName: string) returns (ok: bool)
      modifies this`isOpen, this`events, this`receiveTimerArmed
      ensures ok && isOpen && receiveTimerArmed && Valid()
      ensures events == old(events) + [PortStatusChanged(true)]
    {
      isOpen := true;
      events := events + [PortStatusChanged(true)];
      receiveTimerArmed := true;
      return true;
    }

    /** Only an open port is closed, signalled and has its timer stopped. */
    method ClosePort()
      modifies this`isOpen, this`events, this`receiveTimerArmed
      ensures !isOpen
      ensures receiveTimerArmed == (old(receiveTimerArmed) && !old(isOpen))
      ensures events == old(events) + CloseSignals(old(isOpen))
      ensures old(Valid()) ==> Valid()
    {
      if isOpen {
        isOpen := false;
        events := events + [PortStatusChanged(false)];
        receiveTimerArmed := false;
      }
    }

    /** Succeeds exactly when the port is open; nothing changes. */
    method SendCommand(command: seq<byte>) returns (ok: bool)
      ensures ok <==> isOpen
    {
      if isOpen {
        return true;
      }
      return false;
    }

    /** A fixed list of three distinct simulated ports, the default one among them. */
    function GetAvailablePorts(): (ports: seq<string>)
      ensures |ports| == 3
      ensures forall i, j :: 0 <= i < j < |ports| ==> ports[i] != ports[j]
      ensures GetDefaultPort() == ports[0]
    {
      ["MOCK_PORT1", "MOCK_PORT2", "MOCK_PORT3"]
    }

    /** The default port is fixed, whatever SetDefaultPort stored, and never empty (the real link answers "" when none is stored). */
    function GetDefaultPort(): (name: string)
      ensures name != ""
    {
      "MOCK_PORT1"
    }

    method SetDefaultPort(name: string)
      modifies this`defaultPort
      ensures defaultPort == name
    {
      defaultPort := name;
    }

    /** Whether the simulated port is open; on a valid mock, exactly when data is being simulated. */
    predicate IsPortOpen()
      reads this
      ensures Valid() ==> (IsPortOpen() <==> receiveTimerArmed)
    {
      isOpen
    }

    /** The receive timer's slot: signals the fixed mock data. */
    method SimulateDataReceived()
      modifies this`events
      ensures events == old(events) + [DataReceived(MockData)]
    {
      var data: seq<byte> := [0x0A, 0x01, 0x02, 0x03, 0x04, 0x05];
      events := events + [DataReceived(data)];
    }

    /**
     * One timeout of the receive timer.  The timer is the only route to
     * simulateDataReceived, so data arrives only while the timer is armed,
     * that is, while the port is open.
     */
    method ReceiveTimerTimeout()
      modifies this`events
      ensures events == old(events) + (if receiveTimerArmed then [DataReceived(MockData)] else [])
      ensures Valid() ==> (receiveTimerArmed <==> isOpen)
    {
      if receiveTimerArmed {
        SimulateDataReceived();
      }
    }
  }

  /** Whatever SetDefaultPort stored, GetDefaultPort reports MOCK_PORT1. */
  method SetThenGetDefaultPort(m: MockSerialCommunication, name: string) returns (got: string)
    modifies m`defaultPort
    ensures m.defaultPort == name
    ensures got == "MOCK_PORT1"
  {
    m.SetDefaultPort(name);
    got := m.GetDefaultPort();
  }

  /** Two consecutive closePort calls signal at most one portStatusChanged(false). */
  method CloseTwice(m: MockSerialCommunication)
    requires m.Valid()
    modifies m`isOpen, m`events, m`receiveTimerArmed
    ensures m.Valid() && !m.isOpen
    ensures m.events == old(m.events) + CloseSignals(old(m.isOpen))
  {
    m.ClosePort();
    m.ClosePort();
  }
}
