/** Live prediction (routes/model_prediction.py).

    The worker thread and the websocket run one after the other here. Each
    window the worker processes (read, preprocess, extract, predict) is an
    input `WindowOutcome`: the classifier's label, or an exception. The
    worker's `while is_predicting` loop runs `rounds` times before the flag
    is cleared from outside; the websocket sends the first `delivered`
    queued texts before its own loop sees the flag down. */
module Prediction {
  import opened Common
  import opened Store
  import opened Sensor

  const BATCH_SIZE: nat := 5

  /** `predictions.count(v)`. */
  function Count(s: seq<int>, v: int): (n: nat)
    ensures n <= |s|
    decreases |s|
  {
    if s == [] then 0 else Count(s[..|s| - 1], v) + (if s[|s| - 1] == v then 1 else 0)
  }

  /** The smoothed label: 0 only when 0 outnumbers 1; ties go to 1. */
  function MajorityVote(batch: seq<int>): int {
    if Count(batch, 0) > Count(batch, 1) then 0 else 1
  }

  function LabelText(p: int): string {
    if p == 0 then RELAXING else FOCUSED
  }

  /** What one window gives the worker. */
  datatype WindowOutcome = Predicted(classLabel: int) | Raised

  predicate AllPredicted(batch: seq<WindowOutcome>) {
    forall j :: 0 <= j < |batch| ==> batch[j].Predicted?
  }

  function Labels(batch: seq<WindowOutcome>): (r: seq<int>)
    requires AllPredicted(batch)
    ensures |r| == |batch|
  {
    seq(|batch|, j requires 0 <= j < |batch| => batch[j].classLabel)
  }

  /** The texts the worker has queued after `rounds` passes of its loop, and
      whether an exception ended it. */
  datatype Run = Run(texts: seq<string>, failed: bool)

  function WorkerRun(outs: seq<WindowOutcome>, rounds: nat): (r: Run)
    requires |outs| >= BATCH_SIZE * rounds
    ensures |r.texts| <= rounds
    decreases rounds
  {
    if rounds == 0 then Run([], false)
    else
      var p := WorkerRun(outs, rounds - 1);
      var batch := outs[BATCH_SIZE * (rounds - 1)..BATCH_SIZE * rounds];
      if p.failed then p
      else if AllPredicted(batch) then Run(p.texts + [LabelText(MajorityVote(Labels(batch)))], false)
      else Run(p.texts, true)
  }

  // ---------------------------------------------------------------------
  // The vote

  lemma {:induction false} CountBinary(s: seq<int>)
    requires forall j :: 0 <= j < |s| ==> s[j] == 0 || s[j] == 1
    ensures Count(s, 0) + Count(s, 1) == |s|
    decreases |s|
  {
    if s != [] {
      CountBinary(s[..|s| - 1]);
    }
  }

  /** On a batch of five binary labels the vote is a strict majority: the
      chosen label occurs at least three times, and 0 is chosen exactly when
      it occurs at least three times. */
  lemma VoteOfFiveIsMajority(batch: seq<int>)
    requires |batch| == BATCH_SIZE
    requires forall j :: 0 <= j < |batch| ==> batch[j] == 0 || batch[j] == 1
    ensures Count(batch, MajorityVote(batch)) >= 3
    ensures MajorityVote(batch) == 0 <==> Count(batch, 0) >= 3
  {
    CountBinary(batch);
  }

  /** A tie goes to 1, "Focused". */
  lemma TieGoesToFocused(batch: seq<int>)
    requires Count(batch, 0) == Count(batch, 1)
    ensures MajorityVote(batch) == 1 && LabelText(MajorityVote(batch)) == FOCUSED
  {
  }

  /** Concrete batches. */
  lemma VoteExamples()
    ensures LabelText(MajorityVote([0, 0, 1, 1, 1])) == FOCUSED
    ensures LabelText(MajorityVote([0, 0, 0, 1, 1])) == RELAXING
    ensures LabelText(MajorityVote([0, 0, 1, 1])) == FOCUSED
  {
    assert [0, 0, 1, 1, 1][..4] == [0, 0, 1, 1] && [0, 0, 1, 1][..3] == [0, 0, 1];
    assert [0, 0, 1][..2] == [0, 0] && [0, 0][..1] == [0] && [0][..0] == [];
    assert [0, 0, 0, 1, 1][..4] == [0, 0, 0, 1] && [0, 0, 0, 1][..3] == [0, 0, 0];
    assert [0, 0, 0][..2] == [0, 0];
  }

  // ---------------------------------------------------------------------
  // The worker's output

  /** Every queued text is "Relaxing" or "Focused". */
  lemma {:induction false} WorkerTextsAreLabels(outs: seq<WindowOutcome>, rounds: nat)
    requires |outs| >= BATCH_SIZE * rounds
    ensures forall k :: 0 <= k < |WorkerRun(outs, rounds).texts| ==>
      WorkerRun(outs, rounds).texts[k] in {RELAXING, FOCUSED}
    decreases rounds
  {
    if rounds > 0 {
      WorkerTextsAreLabels(outs, rounds - 1);
    }
  }

  /** Without an exception every pass queues one text; the k-th text is the
      vote over windows 5k to 5k + 4, so outputs come in computation order. */
  lemma {:induction false} WorkerTextsFromBatches(outs: seq<WindowOutcome>, rounds: nat)
    requires |outs| >= BATCH_SIZE * rounds
    ensures !WorkerRun(outs, rounds).failed ==> |WorkerRun(outs, rounds).texts| == rounds
    ensures forall k :: 0 <= k < |WorkerRun(outs, rounds).texts| ==>
      AllPredicted(outs[BATCH_SIZE * k..BATCH_SIZE * (k + 1)])
      && WorkerRun(outs, rounds).texts[k] == LabelText(MajorityVote(Labels(outs[BATCH_SIZE * k..BATCH_SIZE * (k + 1)])))
    decreases rounds
  {
    if rounds > 0 {
      WorkerTextsFromBatches(outs, rounds - 1);
    }
  }

  /** One pass after a pass without exception. */
  lemma WorkerRunStep(outs: seq<WindowOutcome>, r: nat)
    requires |outs| >= BATCH_SIZE * (r + 1) && !WorkerRun(outs, r).failed
    ensures var batch := outs[BATCH_SIZE * r..BATCH_SIZE * r + BATCH_SIZE];
      WorkerRun(outs, r + 1) == (if AllPredicted(batch)
        then Run(WorkerRun(outs, r).texts + [LabelText(MajorityVote(Labels(batch)))], false)
        else Run(WorkerRun(outs, r).texts, true))
  {
  }

  /** What one pass of the worker's loop leaves: after an exception the
      queued texts are final; otherwise the vote's text is added. */
  lemma WorkerAfterBatch(outs: seq<WindowOutcome>, r: nat, rounds: nat, predictions: seq<int>, raised: bool)
    requires r < rounds && |outs| >= BATCH_SIZE * rounds && !WorkerRun(outs, r).failed
    requires raised <==> !AllPredicted(outs[BATCH_SIZE * r..BATCH_SIZE * r + BATCH_SIZE])
    requires !raised ==> predictions == Labels(outs[BATCH_SIZE * r..BATCH_SIZE * r + BATCH_SIZE])
    ensures raised ==> WorkerRun(outs, rounds).texts == WorkerRun(outs, r).texts
    ensures !raised ==> (!WorkerRun(outs, r + 1).failed
      && WorkerRun(outs, r + 1).texts == WorkerRun(outs, r).texts + [LabelText(MajorityVote(predictions))])
  {
    WorkerRunStep(outs, r);
    if raised {
      WorkerStopsAfterFailure(outs, r + 1, rounds);
    }
  }

  /** An exception stops the worker: from then on nothing more is queued. */
  lemma {:induction false} WorkerStopsAfterFailure(outs: seq<WindowOutcome>, m: nat, n: nat)
    requires m <= n && |outs| >= BATCH_SIZE * n
    requires WorkerRun(outs, m).failed
    ensures WorkerRun(outs, n) == WorkerRun(outs, m)
    decreases n - m
  {
    if m < n {
      WorkerStopsAfterFailure(outs, m, n - 1);
    }
  }

  /** An exception in a window of pass r loses that pass's batch and all
      later ones. */
  lemma RaisedWindowEndsRun(outs: seq<WindowOutcome>, rounds: nat, r: nat, j: nat)
    requires r < rounds && |outs| >= BATCH_SIZE * rounds
    requires BATCH_SIZE * r <= j < BATCH_SIZE * (r + 1) && outs[j].Raised?
    ensures |WorkerRun(outs, rounds).texts| <= r && WorkerRun(outs, rounds).failed
  {
    var batch := outs[BATCH_SIZE * r..BATCH_SIZE * (r + 1)];
    assert batch[j - BATCH_SIZE * r] == outs[j];
    assert !AllPredicted(batch);
    assert WorkerRun(outs, r + 1).failed;
    WorkerStopsAfterFailure(outs, r + 1, rounds);
  }

  // ---------------------------------------------------------------------
  // The route's state

  const CONNECT_FAILED: string := "Failed to connect to EEG"
  const CONNECTED: string := "Connected to EEG"
  const DISCONNECTED: string := "Disconnected from EEG"

  /** The module's globals: the shared sensor reader, the loaded model's
      owner, `prediction_queue`, `is_predicting` and `stop_event`. */
  class PredictionRoute {
    const sensor: SensorReader
    var modelOwner: Option<string>
    var queue: seq<string>
    var isPredicting: bool
    var stopEvent: bool

    constructor(sensor: SensorReader)
      ensures this.sensor == sensor && modelOwner == None && queue == [] && !isPredicting && !stopEvent
    {
      this.sensor := sensor;
      modelOwner := None;
      queue := [];
      isPredicting := false;
      stopEvent := false;
    }

    /** connect_eeg: token, user, training and sensor are checked in that
        order; only then is the model loaded (a missing saved model raises)
        and reading started. `opens` is whether the port opens. */
    method ConnectEeg(db: Database, token: TokenStatus, opens: bool) returns (reply: Reply)
      modifies this, sensor
      ensures !token.Valid? ==> reply == Error(INVALID_TOKEN) && unchanged(sensor) && modelOwner == old(modelOwner)
      ensures token.Valid? && token.email !in db.users ==>
        reply == Error(USER_NOT_FOUND) && unchanged(sensor) && modelOwner == old(modelOwner)
      ensures token.Valid? && token.email in db.users && !db.users[token.email].modelTrained ==>
        reply == Error(MODEL_NOT_TRAINED) && unchanged(sensor) && modelOwner == old(modelOwner)
      ensures token.Valid? && token.email in db.users && db.users[token.email].modelTrained ==>
        sensor.ser == Some(Port(opens)) && sensor.incoming == old(sensor.incoming)
      ensures token.Valid? && token.email in db.users && db.users[token.email].modelTrained && !opens ==>
        reply == Error(CONNECT_FAILED) && sensor.written == old(sensor.written) && modelOwner == old(modelOwner)
      ensures (token.Valid? && token.email in db.users && db.users[token.email].modelTrained && opens
        && token.email !in db.savedModels) ==>
        reply == InternalError && sensor.written == old(sensor.written) && modelOwner == old(modelOwner)
      ensures (token.Valid? && token.email in db.users && db.users[token.email].modelTrained && opens
        && token.email in db.savedModels) ==>
        reply == Success(CONNECTED) && modelOwner == Some(token.email)
        && sensor.written == old(sensor.written) + [START_READING + "\n"]
      ensures queue == old(queue) && isPredicting == old(isPredicting) && stopEvent == old(stopEvent)
    {
      if !token.Valid? {
        return Error(INVALID_TOKEN);
      }
      if token.email !in db.users {
        return Error(USER_NOT_FOUND);
      }
      if !db.users[token.email].modelTrained {
        return Error(MODEL_NOT_TRAINED);
      }
      var connected := sensor.Connect(opens);
      if !connected {
        return Error(CONNECT_FAILED);
      }
      if token.email !in db.savedModels {
        return InternalError;
      }
      modelOwner := Some(token.email);
      var _ := sensor.StartReading();
      reply := Success(CONNECTED);
    }

    /** disconnect_eeg: after the token and user checks, stop reading and
        close the port. */
    method DisconnectEeg(db: Database, token: TokenStatus) returns (reply: Reply)
      modifies sensor
      ensures !token.Valid? ==> reply == Error(INVALID_TOKEN) && unchanged(sensor)
      ensures token.Valid? && token.email !in db.users ==> reply == Error(USER_NOT_FOUND) && unchanged(sensor)
      ensures token.Valid? && token.email in db.users ==> (reply == Success(DISCONNECTED) && !sensor.IsOpen()
        && sensor.written == old(sensor.written) + (if old(sensor.IsOpen()) then [STOP_READING + "\n"] else []))
      ensures sensor.incoming == old(sensor.incoming)
    {
      if !token.Valid? {
        return Error(INVALID_TOKEN);
      }
      if token.email !in db.users {
        return Error(USER_NOT_FOUND);
      }
      var _ := sensor.StopReading();
      var _ := sensor.Disconnect();
      reply := Success(DISCONNECTED);
    }

    /** prediction_worker: batches of five windows, each reduced by the vote
        and queued as text; an exception ends the loop. The flag is down
        when it returns. */
    method PredictionWorker(outcomes: seq<WindowOutcome>, rounds: nat)
      requires |outcomes| >= BATCH_SIZE * rounds
      modifies this
      ensures queue == old(queue) + WorkerRun(outcomes, rounds).texts
      ensures !isPredicting
      ensures modelOwner == old(modelOwner) && stopEvent == old(stopEvent)
    {
      var r := 0;
      while r < rounds
        invariant 0 <= r <= rounds
        invariant queue == old(queue) + WorkerRun(outcomes, r).texts
        invariant !WorkerRun(outcomes, r).failed
        invariant modelOwner == old(modelOwner) && stopEvent == old(stopEvent)
      {
        var predictions, raised := CollectBatch(outcomes, BATCH_SIZE * r);
        WorkerAfterBatch(outcomes, r, rounds, predictions, raised);
        if raised {
          break;
        }
        var prediction := if Count(predictions, 0) > Count(predictions, 1) then 0 else 1;
        queue := queue + [LabelText(prediction)];
        r := r + 1;
      }
      isPredicting := false;
    }

    /** The websocket's sending loop: the first `n` queued texts, in FIFO
        order. */
    method Deliver(n: nat) returns (sent: seq<string>)
      modifies this
      ensures sent == old(queue)[..Min(n, |old(queue)|)] && queue == old(queue)[Min(n, |old(queue)|)..]
      ensures modelOwner == old(modelOwner) && isPredicting == old(isPredicting) && stopEvent == old(stopEvent)
    {
      sent := [];
      var i := 0;
      var m := Min(n, |queue|);
      while i < m
        invariant 0 <= i <= m && sent == old(queue)[..i] && queue == old(queue)[i..]
        invariant modelOwner == old(modelOwner) && isPredicting == old(isPredicting) && stopEvent == old(stopEvent)
      {
        sent := sent + [queue[0]];
        queue := queue[1..];
        i := i + 1;
      }
    }

    /** websocket_endpoint: start the worker, forward its texts, and on any
        exit stop reading and then close the port. */
    method WebsocketEndpoint(outcomes: seq<WindowOutcome>, rounds: nat, delivered: nat) returns (sent: seq<string>)
      requires |outcomes| >= BATCH_SIZE * rounds
      modifies this, sensor
      ensures var all := old(queue) + WorkerRun(outcomes, rounds).texts;
        sent == all[..Min(delivered, |all|)] && queue == all[Min(delivered, |all|)..]
      ensures !isPredicting && stopEvent && modelOwner == old(modelOwner)
      ensures !sensor.IsOpen()
      ensures sensor.written == old(sensor.written) + (if old(sensor.IsOpen()) then [STOP_READING + "\n"] else [])
    {
      stopEvent := false;
      isPredicting := true;
      PredictionWorker(outcomes, rounds);
      sent := Deliver(delivered);
      stopEvent := true;
      var _ := sensor.StopReading();
      var _ := sensor.Disconnect();
    }
  }

  /** The worker's inner loop: up to five windows from `start`, stopping at
      the first exception. */
  method CollectBatch(outcomes: seq<WindowOutcome>, start: nat) returns (predictions: seq<int>, raised: bool)
    requires start + BATCH_SIZE <= |outcomes|
    ensures raised <==> !AllPredicted(outcomes[start..start + BATCH_SIZE])
    ensures !raised ==> predictions == Labels(outcomes[start..start + BATCH_SIZE])
  {
    predictions := [];
    raised := false;
    var k := 0;
    while k < BATCH_SIZE
      invariant 0 <= k <= BATCH_SIZE
      invariant AllPredicted(outcomes[start..start + k])
      invariant predictions == Labels(outcomes[start..start + k])
    {
      if outcomes[start + k].Raised? {
        assert outcomes[start..start + BATCH_SIZE][k].Raised?;
        raised := true;
        return;
      }
      predictions := predictions + [outcomes[start + k].classLabel];
      assert outcomes[start..start + k + 1] == outcomes[start..start + k] + [outcomes[start + k]];
      k := k + 1;
    }
  }
}
