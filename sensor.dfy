/** The serial EEG reader (eeg_collect.py, SensorReader).

    The serial port is abstract. `ser` is the port object the reader holds
    (Python's `None` before the first connect), `written` is what has been
    written to it, and `incoming` is the stream of what the device offers, one
    element per poll: `None` when nothing is waiting, otherwise the stripped
    text of the next line. */
module Sensor {
  import opened Common

  /** The stripped, decoded text of one serial line: empty, or an integer
      literal. */
  datatype Line = Blank | Number(value: int)

  /** A `serial.Serial` object; only whether it is open matters here. */
  datatype Port = Port(isOpen: bool)

  const START_READING: string := "start_reading"
  const STOP_READING: string := "stop_reading"

  /** `__init__`'s default arguments. */
  const DEFAULT_BAUD_RATE: int := 115200
  const DEFAULT_TIMEOUT: int := 1

  /** read_sensor_data on one polled element: a non-empty line is parsed to
      an integer; an empty line or nothing waiting gives None. */
  function SampleOf(e: Option<Line>): Option<int> {
    match e
    case Some(Number(v)) => Some(v)
    case _ => None
  }

  /** The samples n polls produce: a closed port yields nothing; an open one
      yields the stream's elements until it runs dry. */
  function SeenSamples(open: bool, feed: seq<Option<Line>>, n: nat): (r: seq<Option<int>>)
    ensures |r| == n
  {
    seq(n, i requires 0 <= i < n => if open && i < |feed| then SampleOf(feed[i]) else None)
  }

  /** A sample read_one_second_data keeps: present and truthy (non-zero). */
  predicate Kept(x: Option<int>) {
    x.Some? && x.value != 0
  }

  /** The kept samples, in order. */
  function Accepted(s: seq<Option<int>>): (r: seq<int>)
    ensures |r| <= |s|
    decreases |s|
  {
    if s == [] then []
    else
      var last := s[|s| - 1];
      Accepted(s[..|s| - 1]) + (if Kept(last) then [last.value] else [])
  }

  /** What read_one_second_data returns after polling `s`: the window when
      `freq` samples were kept, otherwise None. */
  function WindowOf(s: seq<Option<int>>, freq: nat): Option<seq<int>> {
    if |Accepted(s)| == freq then Some(Accepted(s)) else None
  }

  class SensorReader {
    const port: string
    const baudRate: int
    const timeout: int
    const FREQ: nat := 512
    var ser: Option<Port>
    var written: seq<string>
    var incoming: seq<Option<Line>>

    /** `__init__`: no port object yet, 512 samples per window; the baud
        rate and timeout default to DEFAULT_BAUD_RATE and DEFAULT_TIMEOUT. */
    constructor(port: string, baudRate: int, timeout: int, feed: seq<Option<Line>>)
      ensures this.port == port && this.baudRate == baudRate && this.timeout == timeout
      ensures ser == None && written == [] && incoming == feed
    {
      this.port := port;
      this.baudRate := baudRate;
      this.timeout := timeout;
      ser := None;
      written := [];
      incoming := feed;
    }

    /** `self.ser and self.ser.is_open`. */
    predicate IsOpen()
      reads this
    {
      ser.Some? && ser.value.isOpen
    }

    /** connect: a new port object replaces the old one; `opens` is whether
        its open() succeeds. A failure is reported as False, not raised. */
    method Connect(opens: bool) returns (ok: bool)
      modifies this
      ensures ser == Some(Port(opens)) && ok == opens && IsOpen() == ok
      ensures written == old(written) && incoming == old(incoming)
    {
      ser := Some(Port(opens));
      ok := opens;
    }

    /** disconnect: closes the port only when it is open; always True. */
    method Disconnect() returns (ok: bool)
      modifies this
      ensures ok && !IsOpen()
      ensures ser == (if old(IsOpen()) then Some(Port(false)) else old(ser))
      ensures written == old(written) && incoming == old(incoming)
    {
      if IsOpen() {
        ser := Some(Port(false));
      }
      ok := true;
    }

    /** send_command: writes the command and a newline only on an open port. */
    method SendCommand(command: string) returns (ok: bool)
      modifies this
      ensures ok == old(IsOpen())
      ensures written == old(written) + (if ok then [command + "\n"] else [])
      ensures ser == old(ser) && incoming == old(incoming)
    {
      if IsOpen() {
        written := written + [command + "\n"];
        ok := true;
      } else {
        ok := false;
      }
    }

    method StartReading() returns (ok: bool)
      modifies this
      ensures ok == old(IsOpen())
      ensures written == old(written) + (if ok then [START_READING + "\n"] else [])
      ensures ser == old(ser) && incoming == old(incoming)
    {
      ok := SendCommand(START_READING);
    }

    method StopReading() returns (ok: bool)
      modifies this
      ensures ok == old(IsOpen())
      ensures written == old(written) + (if ok then [STOP_READING + "\n"] else [])
      ensures ser == old(ser) && incoming == old(incoming)
    {
      ok := SendCommand(STOP_READING);
    }

    /** read_data: one poll. Nothing is read from a closed port or an
        exhausted stream. */
    method ReadData() returns (data: Option<Line>)
      modifies this
      ensures old(IsOpen()) && old(incoming) != [] ==> data == old(incoming)[0] && incoming == old(incoming)[1..]
      ensures !(old(IsOpen()) && old(incoming) != []) ==> data == None && incoming == old(incoming)
      ensures ser == old(ser) && written == old(written)
    {
      if IsOpen() && incoming != [] {
        data := incoming[0];
        incoming := incoming[1..];
      } else {
        data := None;
      }
    }

    /** read_sensor_data: its loop returns on the first pass, so it is one
        poll whose text, when non-empty, is parsed. */
    method ReadSensorData() returns (sample: Option<int>)
      modifies this
      ensures old(IsOpen()) && old(incoming) != [] ==> sample == SampleOf(old(incoming)[0]) && incoming == old(incoming)[1..]
      ensures !(old(IsOpen()) && old(incoming) != []) ==> sample == None && incoming == old(incoming)
      ensures ser == old(ser) && written == old(written)
    {
      var data := ReadData();
      match data
      case Some(Number(v)) => sample := Some(v);
      case _ => sample := None;
    }

    /** read_one_second_data: FREQ polls, keeping the truthy samples; the
        window is returned once it holds FREQ samples, otherwise None. */
    method ReadOneSecondData() returns (window: Option<seq<int>>)
      modifies this
      ensures window == WindowOf(SeenSamples(old(IsOpen()), old(incoming), FREQ), FREQ)
      ensures incoming == (if old(IsOpen()) then old(incoming)[Min(FREQ, |old(incoming)|)..] else old(incoming))
      ensures ser == old(ser) && written == old(written)
    {
      ghost var open := IsOpen();
      ghost var feed := incoming;
      var data: seq<int> := [];
      for i := 0 to FREQ
        invariant ser == old(ser) && written == old(written) && open == IsOpen()
        invariant incoming == (if open then feed[Min(i, |feed|)..] else feed)
        invariant data == Accepted(SeenSamples(open, feed, i)) && |data| < FREQ
      {
        var sample := ReadSensorData();
        SeenSamplesStep(open, feed, i);
        assert sample == (if open && i < |feed| then SampleOf(feed[i]) else None);
        assert incoming == (if open then feed[Min(i + 1, |feed|)..] else feed);
        if sample.Some? && sample.value != 0 {
          data := data + [sample.value];
        }
        assert data == Accepted(SeenSamples(open, feed, i + 1));
        if |data| == FREQ {
          assert i + 1 == FREQ;
          window := Some(data);
          return;
        }
      }
      window := None;
    }
  }

  /** One more poll appends its sample to what was seen. */
  lemma SeenSamplesStep(open: bool, feed: seq<Option<Line>>, i: nat)
    ensures SeenSamples(open, feed, i + 1)[..i] == SeenSamples(open, feed, i)
    ensures SeenSamples(open, feed, i + 1)[i] == (if open && i < |feed| then SampleOf(feed[i]) else None)
    ensures Accepted(SeenSamples(open, feed, i + 1)) == Accepted(SeenSamples(open, feed, i))
      + (if open && i < |feed| && Kept(SampleOf(feed[i])) then [SampleOf(feed[i]).value] else [])
  {
    var s := SeenSamples(open, feed, i + 1);
    assert s[..i] == SeenSamples(open, feed, i);
  }

  /** The values of samples that are all kept. */
  function ValuesOf(s: seq<Option<int>>): seq<int>
    requires forall i :: 0 <= i < |s| ==> Kept(s[i])
  {
    seq(|s|, i requires 0 <= i < |s| && Kept(s[i]) => s[i].value)
  }

  /** When nothing was dropped, the accepted sequence is the samples'
      values, in order. */
  lemma {:induction false} AcceptedAllKept(s: seq<Option<int>>)
    requires forall i :: 0 <= i < |s| ==> Kept(s[i])
    ensures Accepted(s) == ValuesOf(s)
    decreases |s|
  {
    if s != [] {
      AcceptedAllKept(s[..|s| - 1]);
    }
  }

  /** A dropped sample makes the accepted sequence shorter than the polls. */
  lemma {:induction false} AcceptedDropShortens(s: seq<Option<int>>, j: int)
    requires 0 <= j < |s| && !Kept(s[j])
    ensures |Accepted(s)| < |s|
    decreases |s|
  {
    if j < |s| - 1 {
      AcceptedDropShortens(s[..|s| - 1], j);
    }
  }

  /** A window is either None or exactly `n` samples long, never partial. */
  lemma WindowFullOrNone(s: seq<Option<int>>, n: nat)
    ensures WindowOf(s, n).None? || |WindowOf(s, n).value| == n
  {
  }

  /** The window over `n` polls is present exactly when every poll produced a
      non-zero sample, and then it lists those samples in order; a single
      miss (nothing waiting, an empty line or a 0) gives None. */
  lemma WindowIffAllKept(s: seq<Option<int>>)
    ensures WindowOf(s, |s|).Some? <==> forall i :: 0 <= i < |s| ==> Kept(s[i])
    ensures WindowOf(s, |s|).Some? ==> WindowOf(s, |s|).value == ValuesOf(s)
  {
    if forall i :: 0 <= i < |s| ==> Kept(s[i]) {
      AcceptedAllKept(s);
    } else {
      var j :| 0 <= j < |s| && !Kept(s[j]);
      AcceptedDropShortens(s, j);
    }
  }

  /** A closed port, or a stream that runs dry before FREQ polls, gives no
      window. */
  lemma NoWindowWithoutEnoughLines(open: bool, feed: seq<Option<Line>>, n: nat)
    requires n > 0 && (!open || |feed| < n)
    ensures WindowOf(SeenSamples(open, feed, n), n) == None
  {
    var s := SeenSamples(open, feed, n);
    if !open {
      AcceptedDropShortens(s, 0);
    } else {
      AcceptedDropShortens(s, n - 1);
    }
  }

  /** A line that read_one_second_data keeps: a non-zero integer. */
  predicate GoodLine(e: Option<Line>) {
    e.Some? && e.value.Number? && e.value.value != 0
  }

  /** On the stream itself: n > 0 polls give a window exactly when the port
      is open and each of the next n elements is a non-zero integer line. */
  lemma WindowIffGoodLines(open: bool, feed: seq<Option<Line>>, n: nat)
    requires n > 0
    ensures WindowOf(SeenSamples(open, feed, n), n).Some?
      <==> open && |feed| >= n && forall i :: 0 <= i < n ==> GoodLine(feed[i])
  {
    var s := SeenSamples(open, feed, n);
    WindowIffAllKept(s);
    if forall i :: 0 <= i < n ==> Kept(s[i]) {
      assert Kept(s[n - 1]);
      forall i | 0 <= i < n
        ensures GoodLine(feed[i])
      {
        assert Kept(s[i]);
      }
    }
    if open && |feed| >= n && forall i :: 0 <= i < n ==> GoodLine(feed[i]) {
      forall i | 0 <= i < n
        ensures Kept(s[i])
      {
        assert GoodLine(feed[i]);
      }
    }
  }
}
