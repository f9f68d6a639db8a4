/**
 * The auto-keypress sequencer (AutoKeypress): on every timeout of a
 * one-second timer it presses the next key of a fixed sequence, and when the
 * sequence is exhausted it stops and reports completion.
 *
 * The timer is an "armed" flag; its timeouts are explicit calls.  The phase
 * of the sequencer is specified by pure functions (Press, Start, Stop, Fire)
 * and the class is proved to follow them.
 */
module AutoSequence {
  import opened LinkTypes
  import opened SerialLink
  import opened Keypress

  /** The keys the sequencer presses, in order. */
  const KeySequence: seq<string> := ["1", "2", "3", "4", "5", "*", "0", "#"]

  /** The signals the sequencer emits: keyPressed(key) and sequenceCompleted. */
  datatype Signal = KeyPressed(key: string) | SequenceCompleted

  /** Index of the next key, the running flag and whether the timer is armed. */
  datatype Phase = Phase(index: nat, running: bool, timerArmed: bool)

  /** stopSequence: clears the running flag and disarms the timer, keeping the index. */
  function Stop(p: Phase): Phase
  {
    p.(running := false, timerArmed := false)
  }

  /**
   * pressNextKey: while keys remain, emits the next one and advances the
   * index by one; otherwise stops and emits sequenceCompleted.
   */
  function Press(keys: seq<string>, p: Phase): (Phase, seq<Signal>)
  {
    if p.index < |keys| then (p.(index := p.index + 1), [KeyPressed(keys[p.index])])
    else (Stop(p), [SequenceCompleted])
  }

  /** startSequence: a no-op while running; otherwise restarts at index 0 and presses at once. */
  function Start(keys: seq<string>, p: Phase): (Phase, seq<Signal>)
  {
    if p.running then (p, []) else Press(keys, Phase(0, true, true))
  }

  /** One timeout of the timer: pressNextKey runs only while the timer is armed. */
  function Fire(keys: seq<string>, p: Phase): (Phase, seq<Signal>)
  {
    if p.timerArmed then Press(keys, p) else (p, [])
  }

  /** `n` consecutive timeouts: the final phase and every signal emitted. */
  function Run(keys: seq<string>, p: Phase, n: nat): (Phase, seq<Signal>)
    decreases n
  {
    if n == 0 then (p, [])
    else
      var first := Fire(keys, p);
      var rest := Run(keys, first.0, n - 1);
      (rest.0, first.1 + rest.1)
  }

  /** One keyPressed signal per key, in order. */
  function KeySignals(keys: seq<string>): seq<Signal>
  {
    if keys == [] then [] else [KeyPressed(keys[0])] + KeySignals(keys[1..])
  }

  /** The frames one signal dispatches: a pressed key with a known label sends its frame. */
  function SignalFrames(signal: Signal): seq<seq<byte>>
  {
    match signal
    case KeyPressed(key) => (match KeyOfLabel(key) case Some(k) => [Frame(k)] case None => [])
    case SequenceCompleted => []
  }

  /** The frames dispatched for a run of signals, in order. */
  function Frames(signals: seq<Signal>): seq<seq<byte>>
  {
    if signals == [] then [] else SignalFrames(signals[0]) + Frames(signals[1..])
  }

  /** The log lines the dispatcher leaves for a run of signals: one per pressed key with a known label. */
  function SignalLogs(t: Transport, signals: seq<Signal>, reported: int): seq<LogLine>
    reads Objects(t)
  {
    if signals == [] then []
    else
      var first := match signals[0]
        case KeyPressed(key) => (match KeyOfLabel(key) case Some(k) => [KeypressLog(k, Delivers(t, Frame(k), reported))] case None => [])
        case SequenceCompleted => [];
      first + SignalLogs(t, signals[1..], reported)
  }

  lemma {:induction false} FramesAppend(s: seq<Signal>, t: seq<Signal>)
    ensures Frames(s + t) == Frames(s) + Frames(t)
  {
    if s == [] {
      assert s + t == t;
    } else {
      assert (s + t)[0] == s[0];
      assert (s + t)[1..] == s[1..] + t;
      FramesAppend(s[1..], t);
    }
  }

  /** The index never passes the end of the sequence. */
  lemma PressKeepsIndexInRange(keys: seq<string>, p: Phase)
    requires p.index <= |keys|
    ensures Press(keys, p).0.index <= |keys|
    ensures Press(keys, p).0.index == (if p.index < |keys| then p.index + 1 else p.index)
  {
  }

  /** stopSequence is idempotent. */
  lemma StopIdempotent(p: Phase)
    ensures Stop(Stop(p)) == Stop(p)
    ensures Stop(p).index == p.index && !Stop(p).running && !Stop(p).timerArmed
  {
  }

  /**
   * From index i with the timer armed, |keys| - i + 1 timeouts emit the
   * remaining keys in order, then sequenceCompleted, and leave the
   * sequencer stopped at the end of the sequence.
   */
  lemma {:induction false} RunFromIndex(keys: seq<string>, i: nat)
    requires i <= |keys|
    ensures Run(keys, Phase(i, true, true), |keys| - i + 1).0 == Phase(|keys|, false, false)
    ensures Run(keys, Phase(i, true, true), |keys| - i + 1).1 == KeySignals(keys[i..]) + [SequenceCompleted]
    decreases |keys| - i
  {
    var p := Phase(i, true, true);
    var n := |keys| - i + 1;
    if i == |keys| {
      assert keys[i..] == [];
      assert Run(keys, Stop(p), 0) == (Stop(p), []);
    } else {
      RunFromIndex(keys, i + 1);
      var rest := Run(keys, Phase(i + 1, true, true), n - 1);
      assert Fire(keys, p) == (Phase(i + 1, true, true), [KeyPressed(keys[i])]);
      assert Run(keys, p, n).1 == [KeyPressed(keys[i])] + rest.1;
      assert keys[i..][0] == keys[i] && keys[i..][1..] == keys[i + 1..];
      assert KeySignals(keys[i..]) == [KeyPressed(keys[i])] + KeySignals(keys[i + 1..]);
    }
  }

  /** A stopped timer never fires again. */
  lemma {:induction false} DisarmedRunIsQuiet(keys: seq<string>, p: Phase, n: nat)
    requires !p.timerArmed
    ensures Run(keys, p, n).0 == p && Run(keys, p, n).1 == []
  {
    if n > 0 {
      DisarmedRunIsQuiet(keys, p, n - 1);
      var rest := Run(keys, p, n - 1);
      assert Run(keys, p, n).1 == Fire(keys, p).1 + rest.1;
    }
  }

  /** Running n + m timeouts is running n, then m more. */
  lemma {:induction false} RunThenRun(keys: seq<string>, p: Phase, n: nat, m: nat)
    ensures Run(keys, p, n + m).0 == Run(keys, Run(keys, p, n).0, m).0
    ensures Run(keys, p, n + m).1 == Run(keys, p, n).1 + Run(keys, Run(keys, p, n).0, m).1
    decreases n
  {
    if n > 0 {
      var first := Fire(keys, p);
      RunThenRun(keys, first.0, n - 1, m);
      assert n + m - 1 == (n - 1) + m;
      var mid := Run(keys, first.0, n - 1);
      var last := Run(keys, mid.0, m);
      assert Run(keys, p, n).1 == first.1 + mid.1;
      assert Run(keys, p, n + m).1 == first.1 + (mid.1 + last.1);
    }
  }

  /**
   * A run started while stopped, followed by |keys| (or more) timeouts,
   * emits every key of the sequence in order and then sequenceCompleted
   * once; afterwards the sequencer is stopped and its timer disarmed.
   */
  lemma CompleteRun(keys: seq<string>, p: Phase, extra: nat)
    requires !p.running
    ensures Run(keys, Start(keys, p).0, |keys| + extra).0 == Phase(|keys|, false, false)
    ensures Start(keys, p).1 + Run(keys, Start(keys, p).0, |keys| + extra).1 == KeySignals(keys) + [SequenceCompleted]
  {
    var first := Start(keys, p);
    if keys == [] {
      DisarmedRunIsQuiet(keys, first.0, extra);
    } else {
      assert first == (Phase(1, true, true), [KeyPressed(keys[0])]);
      RunFromIndex(keys, 1);
      RunThenRun(keys, first.0, |keys|, extra);
      DisarmedRunIsQuiet(keys, Phase(|keys|, false, false), extra);
      assert KeySignals(keys) == [KeyPressed(keys[0])] + KeySignals(keys[1..]);
    }
  }

  /** The labels of a run of keys. */
  function Labels(ks: seq<Key>): seq<string>
  {
    if ks == [] then [] else [Label(ks[0])] + Labels(ks[1..])
  }

  /** The frames of a run of keys. */
  function KeyFrames(ks: seq<Key>): seq<seq<byte>>
  {
    if ks == [] then [] else [Frame(ks[0])] + KeyFrames(ks[1..])
  }

  /** Pressing the labels of a run of keys dispatches exactly those keys' frames, in order. */
  lemma {:induction false} LabelRunFrames(ks: seq<Key>)
    ensures Frames(KeySignals(Labels(ks))) == KeyFrames(ks)
  {
    if ks != [] {
      LabelRunFrames(ks[1..]);
      var signals := KeySignals(Labels(ks));
      assert Labels(ks)[0] == Label(ks[0]) && Labels(ks)[1..] == Labels(ks[1..]);
      assert signals == [KeyPressed(Label(ks[0]))] + KeySignals(Labels(ks[1..]));
      assert signals[1..] == KeySignals(Labels(ks[1..]));
      assert SignalFrames(signals[0]) == [Frame(ks[0])];
    }
  }

  /**
   * The fixed sequence presses 1 2 3 4 5 * 0 # and sends exactly those
   * eight frames, in that order.
   */
  lemma FixedSequenceFrames()
    ensures Frames(KeySignals(KeySequence))
         == [Frame(One), Frame(Two), Frame(Three), Frame(Four), Frame(Five), Frame(Star), Frame(Zero), Frame(Hash)]
  {
    var ks := [One, Two, Three, Four, Five, Star, Zero, Hash];
    assert ks[1..][1..][1..][1..][1..][1..][1..][1..] == [];
    assert Labels(ks) == KeySequence;
    assert KeyFrames(ks) == [Frame(One), Frame(Two), Frame(Three), Frame(Four), Frame(Five), Frame(Star), Frame(Zero), Frame(Hash)];
    LabelRunFrames(ks);
  }

  class AutoKeypress {
    const keypressCommands: KeypressCommands
    var sequence: seq<string>
    var currentIndex: nat
    var isRunning: bool
    var timerArmed: bool
    /** The keyPressed and sequenceCompleted signals emitted so far, in order. */
    var signals: seq<Signal>

    function State(): Phase
      reads this
    {
      Phase(currentIndex, isRunning, timerArmed)
    }

    /**
     * 0 <= index <= size of the sequence, the timer runs exactly while the
     * sequence does, and the dispatcher is well formed.
     */
    predicate Valid()
      reads this
    {
      keypressCommands.Valid() && currentIndex <= |sequence| && isRunning == timerArmed
    }

    constructor (keypressCommands: KeypressCommands)
      requires keypressCommands.Valid()
      ensures Valid() && this.keypressCommands == keypressCommands
      ensures sequence == KeySequence
      ensures State() == Phase(0, false, false) && signals == []
    {
      this.keypressCommands := keypressCommands;
      currentIndex := 0;
      isRunning := false;
      timerArmed := false;
      signals := [];
      new;
      InitializeSequence();
    }

    method InitializeSequence()
      modifies this`sequence
      ensures sequence == KeySequence
    {
      sequence := ["1", "2", "3", "4", "5", "*", "0", "#"];
    }

    method StartSequence(reported: int)
      requires Valid()
      modifies this`currentIndex, this`isRunning, this`timerArmed, this`signals
      modifies keypressCommands`sent, keypressCommands`log, WritablePorts(keypressCommands.transport)`written
      ensures Valid()
      ensures State() == Start(sequence, old(State())).0
      ensures signals == old(signals) + Start(sequence, old(State())).1
      ensures keypressCommands.sent == old(keypressCommands.sent) + Frames(Start(sequence, old(State())).1)
      ensures keypressCommands.log
           == old(keypressCommands.log) + SignalLogs(keypressCommands.transport, Start(sequence, old(State())).1, reported)
      ensures keypressCommands.transport.Real? ==>
        keypressCommands.transport.serial.port.written
        == old(keypressCommands.transport.serial.port.written)
           + (if IsOpen(keypressCommands.transport) then Frames(Start(sequence, old(State())).1) else [])
    {
      if !isRunning {
        currentIndex := 0;
        isRunning := true;
        timerArmed := true;
        PressNextKey(reported);
      }
    }

    method StopSequence()
      modifies this`isRunning, this`timerArmed
      ensures State() == Stop(old(State()))
    {
      isRunning := false;
      timerArmed := false;
    }

    /** Whether a run is in progress; on a valid sequencer, exactly when its timer is armed. */
    predicate IsRunning()
      reads this
      ensures Valid() ==> (IsRunning() <==> timerArmed)
    {
      isRunning
    }

    /**
     * Emits and dispatches the next key and advances, or stops and reports
     * completion; the key is dispatched to the keypress whose label it is.
     */
    method PressNextKey(reported: int)
      requires Valid()
      modifies this`currentIndex, this`isRunning, this`timerArmed, this`signals
      modifies keypressCommands`sent, keypressCommands`log, WritablePorts(keypressCommands.transport)`written
      ensures Valid()
      ensures State() == Press(sequence, old(State())).0
      ensures signals == old(signals) + Press(sequence, old(State())).1
      ensures keypressCommands.sent == old(keypressCommands.sent) + Frames(Press(sequence, old(State())).1)
      ensures keypressCommands.log
           == old(keypressCommands.log) + SignalLogs(keypressCommands.transport, Press(sequence, old(State())).1, reported)
      ensures keypressCommands.transport.Real? ==>
        keypressCommands.transport.serial.port.written
        == old(keypressCommands.transport.serial.port.written)
           + (if IsOpen(keypressCommands.transport) then Frames(Press(sequence, old(State())).1) else [])
    {
      if currentIndex < |sequence| {
        var key := sequence[currentIndex];
        signals := signals + [KeyPressed(key)];
        match KeyOfLabel(key) {
          case Some(k) => keypressCommands.SendKeypress(k, reported);
          case None =>
        }
        currentIndex := currentIndex + 1;
      } else {
        StopSequence();
        signals := signals + [SequenceCompleted];
      }
    }

    /** A timeout of the timer: pressNextKey runs only while the timer is armed. */
    method TimerTimeout(reported: int)
      requires Valid()
      modifies this`currentIndex, this`isRunning, this`timerArmed, this`signals
      modifies keypressCommands`sent, keypressCommands`log, WritablePorts(keypressCommands.transport)`written
      ensures Valid()
      ensures State() == Fire(sequence, old(State())).0
      ensures signals == old(signals) + Fire(sequence, old(State())).1
      ensures keypressCommands.sent == old(keypressCommands.sent) + Frames(Fire(sequence, old(State())).1)
      ensures keypressCommands.log
           == old(keypressCommands.log) + SignalLogs(keypressCommands.transport, Fire(sequence, old(State())).1, reported)
      ensures keypressCommands.transport.Real? ==>
        keypressCommands.transport.serial.port.written
        == old(keypressCommands.transport.serial.port.written)
           + (if IsOpen(keypressCommands.transport) then Frames(Fire(sequence, old(State())).1) else [])
    {
      if timerArmed {
        PressNextKey(reported);
      }
    }
  }
}
