/** Training and data collection (routes/model_training.py).

    The module's global `current_data_state` and `stop_event` are the fields
    of a `TrainingRoute`. Threads run one after the other: start-collection
    only records the state, and the collection thread's work is
    `StartEegPipeline`, run over the reads it makes before `isRunning` is
    seen cleared; the reader behind them (services/eeg_collect.py) is not
    part of this model, so each read is an input. The classifier is uninterpreted: `trains` says whether
    training, evaluation and saving succeed. */
module Training {
  import opened Common
  import opened Store
  import Sensor
  import Preprocess

  /** A scalar of a JSON request body. */
  datatype Value = Null | Int(i: int) | Str(s: string) | Bool(b: bool)

  /** Python truthiness of a JSON scalar. */
  predicate Truthy(v: Value) {
    match v
    case Null => false
    case Int(i) => i != 0
    case Str(s) => s != ""
    case Bool(b) => b
  }

  /** `data.get(key)` is truthy: present and not null, 0, "" or false. */
  predicate Given(body: map<string, Value>, key: string) {
    key in body && Truthy(body[key])
  }

  const ALREADY_TRAINED: string := "Model already trained"
  const DATA_NOT_COLLECTED: string := "Data not collected"
  const DATA_COLLECTED: string := "Data collected"
  const MODEL_TRAINED_OK: string := "Model trained successfully"
  const MODEL_TRAINED: string := "Model trained"
  const INVALID_REQUEST: string := "Invalid request"
  const INVALID_STATE: string := "Invalid state"
  const COLLECTION_STARTED: string := "Data collection started"
  const COLLECTION_NOT_STARTED: string := "Data collection not started"
  const COLLECTION_STOPPED: string := "Data collection stopped"
  const PIPELINE_STOPPED: string := "Data collection Stopped"
  const COLLECTED_OK: string := "Data collected successfully"

  // ---------------------------------------------------------------------
  // Training

  /** model_training_pipeline's checks, in order: the first that fails. */
  function TrainingGate(users: map<string, UserRecord>, email: string): Option<string> {
    if email !in users then Some(USER_NOT_FOUND)
    else if users[email].modelTrained then Some(ALREADY_TRAINED)
    else if !users[email].focusedDataCollected || !users[email].relaxedDataCollected then Some(DATA_NOT_COLLECTED)
    else None
  }

  /** Each message comes back exactly in its case; training goes ahead
      exactly for a known, untrained user with both kinds of data. */
  lemma TrainingGateOrder(users: map<string, UserRecord>, email: string)
    ensures TrainingGate(users, email) == Some(USER_NOT_FOUND) <==> email !in users
    ensures TrainingGate(users, email) == Some(ALREADY_TRAINED) <==> email in users && users[email].modelTrained
    ensures TrainingGate(users, email) == Some(DATA_NOT_COLLECTED)
      <==> (email in users && !users[email].modelTrained
        && !(users[email].focusedDataCollected && users[email].relaxedDataCollected))
    ensures TrainingGate(users, email) == None
      <==> (email in users && !users[email].modelTrained
        && users[email].focusedDataCollected && users[email].relaxedDataCollected)
  {
    assert |USER_NOT_FOUND| == 14 && |ALREADY_TRAINED| == 21 && |DATA_NOT_COLLECTED| == 18;
  }

  /** The loop that builds the training set: one feature row and one label
      per record, in record order. */
  method BuildTrainingSet(records: seq<EegRecord>) returns (X: seq<seq<real>>, y: seq<int>)
    ensures |X| == |y| == |records|
    ensures forall i :: 0 <= i < |records| ==> X[i] == records[i].features && y[i] == records[i].classLabel
  {
    X := [];
    y := [];
    for i := 0 to |records|
      invariant |X| == |y| == i
      invariant forall k :: 0 <= k < i ==> X[k] == records[k].features && y[k] == records[k].classLabel
    {
      X := X + [records[i].features];
      y := y + [records[i].classLabel];
    }
  }

  /** model_training_pipeline: the gate, then training on the user's
      records; only after the model is saved is `model_trained` set. */
  method ModelTrainingPipeline(db: Database, email: string, trains: bool) returns (reply: Reply)
    modifies db
    ensures TrainingGate(old(db.users), email).Some? ==>
      reply == Error(TrainingGate(old(db.users), email).value)
      && db.users == old(db.users) && db.savedModels == old(db.savedModels)
    ensures TrainingGate(old(db.users), email).None? && !trains ==>
      reply == InternalError && db.users == old(db.users) && db.savedModels == old(db.savedModels)
    ensures TrainingGate(old(db.users), email).None? && trains ==>
      reply == Success(MODEL_TRAINED_OK) && db.savedModels == old(db.savedModels) + {email}
      && db.users == old(db.users)[email := SetFlag(old(db.users)[email], ModelTrained)]
    ensures db.eegData == old(db.eegData)
  {
    var failure := TrainingGate(db.users, email);
    if failure.Some? {
      return Error(failure.value);
    }
    var data := RecordsOf(db.eegData, email);
    var X, y := BuildTrainingSet(data);
    if !trains {
      return InternalError;
    }
    db.savedModels := db.savedModels + {email};
    db.users := db.users[email := SetFlag(db.users[email], ModelTrained)];
    reply := Success(MODEL_TRAINED_OK);
  }

  /** Once the pipeline has succeeded for a user, running it again is
      refused and changes nothing. */
  lemma TrainingOnlyOnce(users: map<string, UserRecord>, email: string)
    requires TrainingGate(users, email).None?
    ensures TrainingGate(users[email := SetFlag(users[email], ModelTrained)], email) == Some(ALREADY_TRAINED)
  {
  }

  // ---------------------------------------------------------------------
  // Status lookups

  /** check_model_status. */
  function CheckModelStatus(users: map<string, UserRecord>, token: TokenStatus): Reply {
    if !token.Valid? then Error(INVALID_TOKEN)
    else if token.email !in users then Error(USER_NOT_FOUND)
    else if users[token.email].modelTrained then Success(MODEL_TRAINED)
    else Error(MODEL_NOT_TRAINED)
  }

  /** The status succeeds exactly when the token names a known user whose
      model is trained; the errors come in order. */
  lemma CheckModelStatusCases(users: map<string, UserRecord>, token: TokenStatus)
    ensures CheckModelStatus(users, token).Success?
      <==> token.Valid? && token.email in users && users[token.email].modelTrained
    ensures CheckModelStatus(users, token) == Error(INVALID_TOKEN) <==> !token.Valid?
    ensures CheckModelStatus(users, token) == Error(USER_NOT_FOUND) <==> token.Valid? && token.email !in users
  {
    assert |INVALID_TOKEN| == 13 && |USER_NOT_FOUND| == 14 && |MODEL_NOT_TRAINED| == 17;
  }

  /** check_data_status: the body's "state" is read before the token is
      checked, and the flag is looked up through `stateToDatabase`; a
      missing key raises. */
  function CheckDataStatus(users: map<string, UserRecord>, token: TokenStatus, body: map<string, Value>,
      stateToDatabase: map<Value, Flag>): Reply {
    if "state" !in body then InternalError
    else if !token.Valid? then Error(INVALID_TOKEN)
    else if token.email !in users then Error(USER_NOT_FOUND)
    else if body["state"] !in stateToDatabase then InternalError
    else if GetFlag(users[token.email], stateToDatabase[body["state"]]) then Success(DATA_COLLECTED)
    else Error(DATA_NOT_COLLECTED)
  }

  /** A body without "state" fails even with a bad token; otherwise the
      reply is a success exactly when the mapped flag is set. */
  lemma CheckDataStatusCases(users: map<string, UserRecord>, token: TokenStatus, body: map<string, Value>,
      stateToDatabase: map<Value, Flag>)
    ensures "state" !in body ==> CheckDataStatus(users, token, body, stateToDatabase) == InternalError
    ensures CheckDataStatus(users, token, body, stateToDatabase).Success?
      <==> ("state" in body && token.Valid? && token.email in users && body["state"] in stateToDatabase
        && GetFlag(users[token.email], stateToDatabase[body["state"]]))
  {
  }

  // ---------------------------------------------------------------------
  // The collection loop

  /** One read of the collection loop, `list(next(generator_data, []))`:
      the window the reader yields (`[]` once it is exhausted), or an
      exception raised while reading (a line `int()` rejects, or a reader
      result that is not an iterator). */
  datatype WindowRead = Yielded(samples: seq<int>) | ReadRaised

  /** What the collection loop does with the windows it reads: the records
      it inserts, and whether an exception ended the thread. A read that
      raises ends it; an empty window is skipped; a window with no valid sample makes clean_data
      raise, a window of at most 27 samples makes filtfilt raise, and so
      does a state that `stateToLabel` does not map. `extract` gives the
      feature row of the filtered window. */
  datatype Collection = Collection(records: seq<EegRecord>, raised: bool)

  function Collect(email: string, state: Value, windows: seq<WindowRead>,
      extract: seq<real> -> seq<real>, stateToLabel: map<Value, int>): (c: Collection)
    ensures |c.records| <= |windows|
    decreases |windows|
  {
    if windows == [] then Collection([], false)
    else
      var p := Collect(email, state, windows[..|windows| - 1], extract, stateToLabel);
      var read := windows[|windows| - 1];
      if p.raised then p
      else if read.ReadRaised? then Collection(p.records, true)
      else if read.samples == [] then p
      else match Preprocess.PreprocessOutcome(read.samples)
        case Err(_) => Collection(p.records, true)
        case Ok(clean) =>
          if state !in stateToLabel then Collection(p.records, true)
          else Collection(p.records + [EegRecord(email, extract(clean), stateToLabel[state])], false)
  }

  /** One more window, read while nothing has raised. */
  lemma CollectStep(email: string, state: Value, ws: seq<WindowRead>, i: nat,
      extract: seq<real> -> seq<real>, stateToLabel: map<Value, int>)
    requires i < |ws| && !Collect(email, state, ws[..i], extract, stateToLabel).raised
    ensures ws[i] == Yielded([]) ==>
      Collect(email, state, ws[..i + 1], extract, stateToLabel) == Collect(email, state, ws[..i], extract, stateToLabel)
    ensures (ws[i].ReadRaised? || (ws[i].samples != []
      && (Preprocess.PreprocessOutcome(ws[i].samples).Err? || state !in stateToLabel))) ==>
      (Collect(email, state, ws[..i + 1], extract, stateToLabel).raised
      && Collect(email, state, ws[..i + 1], extract, stateToLabel).records
        == Collect(email, state, ws[..i], extract, stateToLabel).records)
    ensures (ws[i].Yielded? && ws[i].samples != [] && Preprocess.PreprocessOutcome(ws[i].samples).Ok?
      && state in stateToLabel) ==>
      Collect(email, state, ws[..i + 1], extract, stateToLabel) == Collection(
        Collect(email, state, ws[..i], extract, stateToLabel).records
          + [EegRecord(email, extract(Preprocess.PreprocessOutcome(ws[i].samples).value), stateToLabel[state])], false)
  {
    assert ws[..i + 1][..i] == ws[..i];
    assert ws[..i + 1][i] == ws[i];
  }

  /** A record of `email` labelled by what `stateToLabel` maps `state` to. */
  predicate Labelled(r: EegRecord, email: string, state: Value, stateToLabel: map<Value, int>) {
    r.email == email && state in stateToLabel && r.classLabel == stateToLabel[state]
  }

  /** Every stored record carries the caller's email and the label the
      active state maps to. */
  lemma {:induction false} CollectedRecordsLabelled(email: string, state: Value, windows: seq<WindowRead>,
      extract: seq<real> -> seq<real>, stateToLabel: map<Value, int>)
    ensures forall k :: 0 <= k < |Collect(email, state, windows, extract, stateToLabel).records| ==>
      Labelled(Collect(email, state, windows, extract, stateToLabel).records[k], email, state, stateToLabel)
    decreases |windows|
  {
    if windows != [] {
      var p := Collect(email, state, windows[..|windows| - 1], extract, stateToLabel);
      CollectedRecordsLabelled(email, state, windows[..|windows| - 1], extract, stateToLabel);
      var c := Collect(email, state, windows, extract, stateToLabel);
      forall k | 0 <= k < |c.records|
        ensures Labelled(c.records[k], email, state, stateToLabel)
      {
        if k < |p.records| {
          assert c.records[k] == p.records[k];
        }
      }
    }
  }

  /** An empty window inserts nothing. */
  lemma CollectSkipsEmpty(email: string, state: Value, windows: seq<WindowRead>,
      extract: seq<real> -> seq<real>, stateToLabel: map<Value, int>)
    ensures Collect(email, state, windows + [Yielded([])], extract, stateToLabel)
      == Collect(email, state, windows, extract, stateToLabel)
  {
    assert (windows + [Yielded([])])[..|windows|] == windows;
  }

  /** A window read after the thread raised changes nothing. */
  lemma {:induction false} CollectStopsAfterRaise(email: string, state: Value, windows: seq<WindowRead>,
      more: seq<WindowRead>, extract: seq<real> -> seq<real>, stateToLabel: map<Value, int>)
    requires Collect(email, state, windows, extract, stateToLabel).raised
    ensures Collect(email, state, windows + more, extract, stateToLabel)
      == Collect(email, state, windows, extract, stateToLabel)
    decreases |more|
  {
    if more == [] {
      assert windows + more == windows;
    } else {
      var shorter := more[..|more| - 1];
      CollectStopsAfterRaise(email, state, windows, shorter, extract, stateToLabel);
      assert (windows + more)[..|windows + more| - 1] == windows + shorter;
    }
  }

  /** A read that raises ends the thread and stores nothing. */
  lemma CollectRaisesOnReadError(email: string, state: Value, windows: seq<WindowRead>,
      extract: seq<real> -> seq<real>, stateToLabel: map<Value, int>)
    ensures Collect(email, state, windows + [ReadRaised], extract, stateToLabel)
      == Collection(Collect(email, state, windows, extract, stateToLabel).records, true)
  {
    assert (windows + [ReadRaised])[..|windows|] == windows;
  }

  /** `next(x, [])` on what eeg_collect.py's read_one_second_data returns,
      a list or None: neither is an iterator, so next raises TypeError
      (the `[]` default only stands in for StopIteration). */
  function NextOnReadResult(x: Option<seq<int>>): WindowRead {
    ReadRaised
  }

  /** The loop's reads when every call returned a list or None. */
  function NextOnEach(returned: seq<Option<seq<int>>>): (r: seq<WindowRead>)
    ensures |r| == |returned| && forall k :: 0 <= k < |r| ==> r[k] == ReadRaised
  {
    if returned == [] then [] else [NextOnReadResult(returned[0])] + NextOnEach(returned[1..])
  }

  /** When the first read raises, nothing is stored, whatever follows. */
  lemma CollectFirstReadRaises(email: string, state: Value, windows: seq<WindowRead>,
      extract: seq<real> -> seq<real>, stateToLabel: map<Value, int>)
    requires |windows| > 0 && windows[0].ReadRaised?
    ensures Collect(email, state, windows, extract, stateToLabel) == Collection([], true)
  {
    CollectRaisesOnReadError(email, state, [], extract, stateToLabel);
    assert [] + [ReadRaised] == windows[..1];
    CollectStopsAfterRaise(email, state, windows[..1], windows[1..], extract, stateToLabel);
    assert windows[..1] + windows[1..] == windows;
  }

  /** Driven by eeg_collect.py's SensorReader, the loop raises on its
      first read and stores nothing, whatever read_one_second_data returned
      (`returned`, one list or None per call; `WindowOf` the polls, by
      `Sensor.SensorReader.ReadOneSecondData`). */
  lemma ListReaderStoresNothing(email: string, state: Value, returned: seq<Option<seq<int>>>,
      extract: seq<real> -> seq<real>, stateToLabel: map<Value, int>)
    requires |returned| > 0
    ensures Collect(email, state, NextOnEach(returned), extract, stateToLabel) == Collection([], true)
  {
    CollectFirstReadRaises(email, state, NextOnEach(returned), extract, stateToLabel);
  }

  /** A non-empty window whose samples are all missing ends the thread. */
  lemma CollectRaisesOnAllMissing(email: string, state: Value, windows: seq<WindowRead>, w: seq<int>,
      extract: seq<real> -> seq<real>, stateToLabel: map<Value, int>)
    requires |w| > 0 && forall i :: 0 <= i < |w| ==> Preprocess.Missing(w[i])
    ensures Collect(email, state, windows + [Yielded(w)], extract, stateToLabel).raised
  {
    Preprocess.CleanFailsIffAllMissing(w);
    Preprocess.PreprocessOutcomeCases(w);
    assert (windows + [Yielded(w)])[..|windows|] == windows;
  }

  /** A window of 1 to 27 samples ends the thread in the filters and
      stores nothing, whatever its samples. */
  lemma CollectRaisesOnShortWindow(email: string, state: Value, windows: seq<WindowRead>, w: seq<int>,
      extract: seq<real> -> seq<real>, stateToLabel: map<Value, int>)
    requires 0 < |w| <= 27
    ensures Collect(email, state, windows + [Yielded(w)], extract, stateToLabel).raised
    ensures Collect(email, state, windows + [Yielded(w)], extract, stateToLabel).records
      == Collect(email, state, windows, extract, stateToLabel).records
  {
    Preprocess.PreprocessOutcomeCases(w);
    assert (windows + [Yielded(w)])[..|windows|] == windows;
  }

  /** A yielded window of the size the reader assembles never trips the
      filters' length check, so it is stored exactly when it cleans and the
      state is mapped. */
  lemma CollectStoresReaderWindow(email: string, state: Value, windows: seq<WindowRead>,
      polls: seq<Option<int>>, w: seq<int>, extract: seq<real> -> seq<real>, stateToLabel: map<Value, int>)
    requires !Collect(email, state, windows, extract, stateToLabel).raised
    requires Sensor.WindowOf(polls, 512) == Some(w)
    ensures Preprocess.PreprocessOutcome(w) == Preprocess.CleanSpec(w)
    ensures !Collect(email, state, windows + [Yielded(w)], extract, stateToLabel).raised
      <==> Preprocess.CleanSpec(w).Ok? && state in stateToLabel
  {
    Sensor.WindowFullOrNone(polls, 512);
    Preprocess.PreprocessOutcomeCases(w);
    assert (windows + [Yielded(w)])[..|windows|] == windows;
  }

  /** A window that cleans is stored, labelled, at the end when it is
      longer than the band-pass padding, provided the state is mapped and
      nothing raised before; a shorter one raises in the filters. */
  lemma CollectStoresCleanWindow(email: string, state: Value, windows: seq<WindowRead>, w: seq<int>,
      extract: seq<real> -> seq<real>, stateToLabel: map<Value, int>)
    requires !Collect(email, state, windows, extract, stateToLabel).raised
    requires |w| > 0 && (exists i :: 0 <= i < |w| && !Preprocess.Missing(w[i])) && state in stateToLabel
    ensures Preprocess.CleanSpec(w).Ok?
    ensures |w| > 27 ==> (Collect(email, state, windows + [Yielded(w)], extract, stateToLabel).records
      == Collect(email, state, windows, extract, stateToLabel).records
        + [EegRecord(email, extract(Preprocess.CleanSpec(w).value), stateToLabel[state])])
    ensures |w| <= 27 ==> (Collect(email, state, windows + [Yielded(w)], extract, stateToLabel).raised
      && Collect(email, state, windows + [Yielded(w)], extract, stateToLabel).records
        == Collect(email, state, windows, extract, stateToLabel).records)
  {
    Preprocess.CleanFailsIffAllMissing(w);
    Preprocess.PreprocessOutcomeCases(w);
    assert (windows + [Yielded(w)])[..|windows|] == windows;
  }

  // ---------------------------------------------------------------------
  // The route's state

  /** `current_data_state` and `stop_event`. */
  class TrainingRoute {
    var state: Value
    var time: Value
    var isRunning: bool
    var stopEvent: bool

    constructor()
      ensures state == Str("") && time == Int(0) && !isRunning && !stopEvent
    {
      state := Str("");
      time := Int(0);
      isRunning := false;
      stopEvent := false;
    }

    /** start_eeg_collection: token, then a truthy "time" and "state"; then
        the state is recorded, the flag raised and the stop event cleared
        for the new thread. A second start is not refused. */
    method StartEegCollection(token: TokenStatus, body: map<string, Value>) returns (reply: Reply)
      modifies this
      ensures !token.Valid? ==> reply == Error(INVALID_TOKEN) && unchanged(this)
      ensures token.Valid? && !(Given(body, "time") && Given(body, "state")) ==>
        reply == Error(INVALID_REQUEST) && unchanged(this)
      ensures token.Valid? && Given(body, "time") && Given(body, "state") ==>
        reply == Success(COLLECTION_STARTED) && state == body["state"] && time == body["time"]
        && isRunning && !stopEvent
    {
      if !token.Valid? {
        return Error(INVALID_TOKEN);
      }
      if !Given(body, "time") || !Given(body, "state") {
        return Error(INVALID_REQUEST);
      }
      state := body["state"];
      time := body["time"];
      isRunning := true;
      stopEvent := false;
      reply := Success(COLLECTION_STARTED);
    }

    /** stop_eeg_collection: token, then whether collection is running; then
        the stop event is set and the flag cleared. */
    method StopEegCollection(token: TokenStatus) returns (reply: Reply)
      modifies this
      ensures !token.Valid? ==> reply == Error(INVALID_TOKEN) && unchanged(this)
      ensures token.Valid? && !old(isRunning) ==> reply == Error(COLLECTION_NOT_STARTED) && unchanged(this)
      ensures token.Valid? && old(isRunning) ==>
        reply == Success(COLLECTION_STOPPED) && !isRunning && stopEvent
      ensures state == old(state) && time == old(time)
    {
      if !token.Valid? {
        return Error(INVALID_TOKEN);
      }
      if !isRunning {
        return Error(COLLECTION_NOT_STARTED);
      }
      stopEvent := true;
      isRunning := false;
      reply := Success(COLLECTION_STOPPED);
    }

    /** data_collected: token, a truthy "state", one of the two states;
        then the mapped flag is set on the user. An unknown user is left
        alone (update_one matches nothing); a state missing from
        `stateToDatabase` raises. */
    method DataCollected(db: Database, token: TokenStatus, body: map<string, Value>,
        stateToDatabase: map<Value, Flag>) returns (reply: Reply)
      modifies db
      ensures !token.Valid? ==> reply == Error(INVALID_TOKEN) && db.users == old(db.users)
      ensures token.Valid? && !Given(body, "state") ==> reply == Error(INVALID_REQUEST) && db.users == old(db.users)
      ensures token.Valid? && Given(body, "state") && body["state"] !in {Str(RELAXING), Str(FOCUSED)} ==>
        reply == Error(INVALID_STATE) && db.users == old(db.users)
      ensures (token.Valid? && Given(body, "state") && body["state"] in {Str(RELAXING), Str(FOCUSED)}
        && body["state"] !in stateToDatabase) ==>
        reply == InternalError && db.users == old(db.users)
      ensures (token.Valid? && Given(body, "state") && body["state"] in {Str(RELAXING), Str(FOCUSED)}
        && body["state"] in stateToDatabase) ==>
        reply == Success(COLLECTED_OK)
        && db.users == (if token.email in old(db.users)
          then old(db.users)[token.email := SetFlag(old(db.users)[token.email], stateToDatabase[body["state"]])]
          else old(db.users))
      ensures db.eegData == old(db.eegData) && db.savedModels == old(db.savedModels)
    {
      if !token.Valid? {
        return Error(INVALID_TOKEN);
      }
      if !Given(body, "state") {
        return Error(INVALID_REQUEST);
      }
      var current := body["state"];
      if current != Str(RELAXING) && current != Str(FOCUSED) {
        return Error(INVALID_STATE);
      }
      if current !in stateToDatabase {
        return InternalError;
      }
      if token.email in db.users {
        db.users := db.users[token.email := SetFlag(db.users[token.email], stateToDatabase[current])];
      }
      reply := Success(COLLECTED_OK);
    }

    /** train_model: after the token check the stop event is cleared and the
        pipeline runs; the reply does not depend on its outcome. */
    method TrainModel(db: Database, token: TokenStatus, trains: bool) returns (reply: Reply)
      modifies this, db
      ensures !token.Valid? ==> reply == Error(INVALID_TOKEN) && unchanged(this) && unchanged(db)
      ensures token.Valid? ==> reply == Success(MODEL_TRAINED_OK) && !stopEvent
      ensures (token.Valid? && TrainingGate(old(db.users), token.email).None? && trains) ==>
        (db.savedModels == old(db.savedModels) + {token.email}
        && db.users == old(db.users)[token.email := SetFlag(old(db.users)[token.email], ModelTrained)])
      ensures (token.Valid? && !(TrainingGate(old(db.users), token.email).None? && trains)) ==>
        (db.users == old(db.users) && db.savedModels == old(db.savedModels))
      ensures state == old(state) && time == old(time) && isRunning == old(isRunning)
      ensures db.eegData == old(db.eegData)
    {
      if !token.Valid? {
        return Error(INVALID_TOKEN);
      }
      stopEvent := false;
      var _ := ModelTrainingPipeline(db, token.email, trains);
      reply := Success(MODEL_TRAINED_OK);
    }

    /** start_eeg_pipeline: a new reader is connected (the outcome is not
        checked) and told to start; while collection runs, each window read
        is cleaned, filtered, turned into features and stored with the
        state's label.
        Only a loop that ends normally sends stop_reading and closes the
        port; an exception leaves the port as it was. `windows` are the
        reads made before the flag is seen cleared, each a yielded window or
        an exception. */
    method StartEegPipeline(db: Database, email: string, port: string, opens: bool, windows: seq<WindowRead>,
        extract: seq<real> -> seq<real>, stateToLabel: map<Value, int>)
        returns (reply: Reply, sensor: Sensor.SensorReader)
      modifies db
      ensures fresh(sensor)
      ensures var c := Collect(email, state, if isRunning then windows else [], extract, stateToLabel);
        && db.eegData == old(db.eegData) + c.records
        && (c.raised ==> (reply == InternalError && sensor.IsOpen() == opens
          && sensor.written == (if opens then [Sensor.START_READING + "\n"] else [])))
        && (!c.raised ==> (reply == Success(PIPELINE_STOPPED) && !sensor.IsOpen()
          && sensor.written == (if opens then [Sensor.START_READING + "\n", Sensor.STOP_READING + "\n"] else [])))
      ensures db.users == old(db.users) && db.savedModels == old(db.savedModels)
    {
      sensor := new Sensor.SensorReader(port, Sensor.DEFAULT_BAUD_RATE, Sensor.DEFAULT_TIMEOUT, []);
      var _ := sensor.Connect(opens);
      var _ := sensor.StartReading();
      var raised := StoreWindows(db, email, state, if isRunning then windows else [], extract, stateToLabel);
      if raised {
        return InternalError, sensor;
      }
      var _ := sensor.StopReading();
      var _ := sensor.Disconnect();
      reply := Success(PIPELINE_STOPPED);
    }
  }

  /** start_eeg_pipeline's `while` loop over the windows read: each
      non-empty window is cleaned, filtered, turned into features and inserted with
      the state's label; `raised` is whether an exception left the loop. */
  method StoreWindows(db: Database, email: string, state: Value, ws: seq<WindowRead>,
      extract: seq<real> -> seq<real>, stateToLabel: map<Value, int>) returns (raised: bool)
    modifies db
    ensures raised == Collect(email, state, ws, extract, stateToLabel).raised
    ensures db.eegData == old(db.eegData) + Collect(email, state, ws, extract, stateToLabel).records
    ensures db.users == old(db.users) && db.savedModels == old(db.savedModels)
  {
    var i := 0;
    while i < |ws|
      invariant 0 <= i <= |ws|
      invariant !Collect(email, state, ws[..i], extract, stateToLabel).raised
      invariant db.eegData == old(db.eegData) + Collect(email, state, ws[..i], extract, stateToLabel).records
      invariant db.users == old(db.users) && db.savedModels == old(db.savedModels)
    {
      CollectStep(email, state, ws, i, extract, stateToLabel);
      if ws[i].ReadRaised? {
        assert ws[..i + 1] + ws[i + 1..] == ws;
        CollectStopsAfterRaise(email, state, ws[..i + 1], ws[i + 1..], extract, stateToLabel);
        return true;
      }
      var data := ws[i].samples;
      if data == [] {
        i := i + 1;
        continue;
      }
      var cleaned := Preprocess.CleanData(data);
      if cleaned.Err? || Preprocess.FilterRaises(|cleaned.value|) || state !in stateToLabel {
        assert ws[..i + 1] + ws[i + 1..] == ws;
        CollectStopsAfterRaise(email, state, ws[..i + 1], ws[i + 1..], extract, stateToLabel);
        return true;
      }
      var features := extract(cleaned.value);
      db.eegData := db.eegData + [EegRecord(email, features, stateToLabel[state])];
      i := i + 1;
    }
    assert ws[..|ws|] == ws;
    raised := false;
  }
}
