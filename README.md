# BCI backend: a verified model

This project is a Dafny model of the logic inside a FastAPI backend for an EEG brain-computer interface.
The backend reads 512-sample windows from a serial EEG headset. It repairs artefacts in each window and computes a 14-column feature row.
It stores labelled rows for the two mental states, "Relaxing" and "Focused", and trains a classifier per user.
During live prediction it smooths the classifier's output over batches of five windows.
Around this sit user accounts: signup, login, token validation, and password reset by a one-time code (OTP).

One module per source file:

- `Preprocess` covers `clean_data`, and the length check of the filters in `preprocess`.
- `Features` covers the 14-feature extractor.
- `LegacyFeatures` covers the older 8-feature extractor.
- `Sensor` covers the `SensorReader` class.
- `Prediction` covers the live-prediction routes.
- `Training` covers the collection and training routes.
- `Users` covers the account routes.
- `Validators` covers the form validators.
- `Otp` covers OTP generation.
- `Store` holds the shared document store.
- `Common` holds `Option`, `Result` and the `{"status", "message"}` reply.

Code that updates state in place is modelled imperatively:

- `clean_data` is a method over arrays.
- The sensor reader and the two route modules' globals are classes with `modifies` clauses.
- The window loop, the batch loop, the row-assembly loop, the training-set loop and the OTP loop are `while`/`for` loops with invariants.

Each such method is proved against a specification function (for example `CleanSpec`, `WindowOf`, `WorkerRun`, `Collect`), and the lemmas state what the source promises about that function.

Everything outside the program is an input to the model:

| outside thing | stands for it in the model |
|---|---|
| the serial device | a stream of optional lines |
| whether a port opens | a boolean |
| the JWT decoder | a `TokenStatus` |
| bcrypt | a salted `Hash` that verifies exactly its own password (the 72-byte limit is listed under "Left out") |
| `random.random()` | a sequence of draws in [0, 1) |
| whether sending e-mail raises | a boolean |
| the classifier's output per window | a `WindowOutcome` |
| the filtered window's feature row during collection | a function `extract` |
| each read of the collection loop, `list(next(generator_data, []))` | a `WindowRead`: the yielded window, or an exception |
| whether training succeeds | a boolean |
| `utils/constants.py` maps (`state_to_label`, `state_to_database`) | given maps |

Threads run one after the other:

- The prediction worker runs `rounds` passes before its flag is cleared, and the websocket forwards the first `delivered` queued texts.
- The collection thread processes the reads it makes before `isRunning` is seen cleared.

Where the code and its documentation differ, the model follows the code:

- `zero_crossings` counts sign changes of the signal itself (`np.diff(np.sign(data))`), not of its derivative.
- `alpha_beta_ratio` is 0 when beta energy is 0, but also whenever alpha energy is 0 (`AlphaBetaRatioZeroIff`).
- Nothing stops a second `start-collection` while collection is running, or a second connect.
- `train-model` replies "Model trained successfully" regardless of the pipeline's outcome.
- The `eeg_data` records store the features as the 14-value row, not as a named map.
- `connect_eeg` loads the model only after the sensor connects. A missing saved model then raises, so the endpoint fails with the port already open.
- `check-data-status` reads `data["state"]` before it checks the token. A body without "state" therefore fails with an exception even when the token is bad.
- `start_eeg_pipeline` sends stop_reading and closes the port only when its loop ends normally. An exception in the thread leaves the port open and the device streaming.
- The collection loop stores a window only if it has more than 27 samples. The filters' `filtfilt` raises on anything shorter (`CollectRaisesOnShortWindow`), which ends the thread.

## Model

| member | source | states |
|---|---|---|
| Preprocess.IndicesWhere | services/data_preprocessor.py:15-17 | the listed indices are increasing and are exactly the missing (or the valid) samples |
| Preprocess.IndicesWhereComplete | services/data_preprocessor.py:15-17 | every missing (valid) sample's index is listed among the invalid (valid) indices |
| Preprocess.MarkMissing | services/data_preprocessor.py:12-14 | the float buffer holds the samples and the NaN mask marks exactly the samples equal to 0 or above 4096 |
| Preprocess.SplitIndices | services/data_preprocessor.py:15-17 | the valid and invalid index lists and the valid values are what the mask selects |
| Preprocess.FillMissing | services/data_preprocessor.py:18-19 | each invalid slot gets np.interp at its index over the valid points; valid slots are untouched |
| Preprocess.CleanData | services/data_preprocessor.py:11-20 | the in-place repair returns exactly the specification `CleanSpec`, including its error case |
| Preprocess.InterpOnSegment | services/data_preprocessor.py:19 | between two consecutive reference points np.interp is the linear interpolation between them |
| Preprocess.InterpRightOfLast | services/data_preprocessor.py:19 | right of the last reference point np.interp gives the last value |
| Preprocess.CleanKeepsValidSamples | services/data_preprocessor.py:12-20 | output length equals input length and every valid sample (non-zero, at most 4096, negatives included) is returned unchanged |
| Preprocess.CleanFailsIffAllMissing | services/data_preprocessor.py:16-19 | the call fails exactly when the window is non-empty and every sample is missing |
| Preprocess.CleanWithoutMissingIsIdentity | services/data_preprocessor.py:18-20 | with no missing sample the output is the input |
| Preprocess.CleanInterpolatesBetweenNeighbours | services/data_preprocessor.py:15-19 | a missing sample between two valid neighbours gets the linear interpolation between them at its index |
| Preprocess.CleanInterpolationWithinNeighbours | services/data_preprocessor.py:15-19 | that interpolated value lies between the two neighbours' values |
| Preprocess.CleanClampsBeforeFirstValid | services/data_preprocessor.py:19 | missing samples before the first valid one take its value |
| Preprocess.CleanClampsAfterLastValid | services/data_preprocessor.py:19 | missing samples after the last valid one take its value |
| Preprocess.CleanExampleWindow | services/data_preprocessor.py:45-47 | on the example window index 3 becomes 2295.0 and indices 13-15 become 1031.25, 2052.5, 3073.75 |
| Preprocess.FilterRaisesIffShort | services/data_preprocessor.py:23-35 | the notch (padding 9) and band-pass (padding 27) passes of filtfilt raise exactly on inputs of at most 27 samples |
| Preprocess.PreprocessOutcomeCases | services/data_preprocessor.py:38-42 | preprocess fails with clean_data's error first; otherwise it succeeds exactly when the window has more than 27 samples, and hands on the cleaned window |
| Features.AlphaBetaRatio | services/feature_selection.py:21 | the ratio times beta is alpha when beta is non-zero; it is 0 when beta is 0 |
| Features.AlphaBetaRatioZeroIff | services/feature_selection.py:21 | the ratio is 0 exactly when beta is 0 or alpha is 0 |
| Features.BandEnergyOfEmptyBand | services/feature_selection.py:16-19 | a band with no bin in its closed interval has energy 0 |
| Features.BandEnergyNonNegative | services/feature_selection.py:16-19 | band energy of a non-negative PSD is non-negative |
| Features.BandEnergySplits | services/feature_selection.py:16-19 | band energy is additive over a split of the bins |
| Features.BandEdgesCount | services/feature_selection.py:16-19 | both interval edges are inside the band; a bin past the top edge is not |
| Features.ArgMax | services/feature_selection.py:35 | the index holds the maximum and every earlier bin is strictly smaller (first maximum) |
| Features.ArgMaxUnique | services/feature_selection.py:35 | the first maximal index is unique, so argmax is fully determined |
| Features.MaxFreqIsFirstPeak | services/feature_selection.py:35 | max_freq is the frequency of the first bin with maximal PSD |
| Features.SlopeIgnoresZeroBin | services/feature_selection.py:37-39 | spectra that agree from bin 1 onward have the same slope, so bin 0 plays no part |
| Features.ZeroCrossings | services/feature_selection.py:56 | the count is at most n - 1 |
| Features.ZeroCrossingsCountSignChanges | services/feature_selection.py:56 | the count equals the number of adjacent index pairs whose signs differ |
| Features.VarianceNonNegative | services/feature_selection.py:53 | the population variance is non-negative |
| Features.SumSquaredDeviationsNonNegative | services/feature_selection.py:53 | the sum of squared deviations is non-negative |
| Features.MeanWithinBounds | services/feature_selection.py:52 | the mean lies within any bounds of the samples |
| Features.ConstantWindow | services/feature_selection.py:52-56 | a constant signal has itself as mean, variance 0 and no zero crossing |
| Features.FeatureHasGroup | services/feature_selection.py:8-10 | every column belongs to one of the three feature groups |
| Features.MergedKeepsPsd | services/feature_selection.py:76 | the merged dict keeps the PSD group's values |
| Features.MergedKeepsSpectral | services/feature_selection.py:76 | the merged dict keeps the spectral group's values |
| Features.MergedKeepsTemporal | services/feature_selection.py:76 | the merged dict keeps the temporal group's values |
| Features.MergedFeaturesKeys | services/feature_selection.py:76-80 | the merged dict holds every column, so the row lookup never fails |
| Features.PsdFeaturesByName | services/feature_selection.py:13-31 | the four band energies over [8,12], [14,30], [4,7], [0.5,3] and the guarded ratio, by name |
| Features.SpectralFeaturesByName | services/feature_selection.py:33-47 | max_freq, centroid and slope, by name |
| Features.TemporalFeaturesByName | services/feature_selection.py:51-68 | mean, population variance and zero crossings, by name |
| Features.LibraryFeaturesByName | services/feature_selection.py:55-65 | rms and the two Hjorth terms are the library's values, by name |
| Features.CalculateFeatures | services/feature_selection.py:71-81 | row and columns have 14 entries, columns are the COLUMNS names and row[i] is the feature named COLUMNS[i] |
| LegacyFeatures.LegacyKeysAreColumns | feature_selection.py:43-48 | the merged dict's keys are exactly the 8 names of `self.columns`, which are COLUMNS' first 8 |
| LegacyFeatures.LegacyAgreesWithCurrent | feature_selection.py:11-41 | every value of the older extractor equals the current extractor's value under the same name |
| LegacyFeatures.LegacyColumnsAreGroups | feature_selection.py:8 | the eight declared columns are exactly the PSD and the spectral groups |
| LegacyFeatures.LegacyKeysAreGroups | feature_selection.py:43-48 | the merged dict has exactly the PSD and the spectral keys |
| Sensor.SeenSamples | eeg_collect.py:52-66 | n polls yield n samples; a closed port or an exhausted stream yields None |
| Sensor.Accepted | eeg_collect.py:70-73 | the kept samples are no more than the polls |
| Sensor.SensorReader.constructor | eeg_collect.py:7-12 | no port object yet, the given baud rate and timeout (the collection route uses the defaults 115200 and 1), nothing written |
| Sensor.SensorReader.Connect | eeg_collect.py:14-28 | a new port object replaces the old one; failure is reported as False, and the reader is open exactly on True |
| Sensor.SensorReader.Disconnect | eeg_collect.py:30-35 | always True, the port ends closed, and only an open port is touched |
| Sensor.SensorReader.SendCommand | eeg_collect.py:37-44 | the command and a newline are written, and True returned, exactly when the port is open |
| Sensor.SensorReader.StartReading | eeg_collect.py:46-47 | sends exactly "start_reading" |
| Sensor.SensorReader.StopReading | eeg_collect.py:49-50 | sends exactly "stop_reading" |
| Sensor.SensorReader.ReadData | eeg_collect.py:52-57 | None when the port is closed or nothing is waiting; otherwise the next line, consumed |
| Sensor.SensorReader.ReadSensorData | eeg_collect.py:59-66 | a non-empty line parsed to its integer, otherwise None |
| Sensor.SensorReader.ReadOneSecondData | eeg_collect.py:68-78 | the result is `WindowOf` the 512 polls it made, and exactly those polls are consumed |
| Sensor.AcceptedAllKept | eeg_collect.py:70-73 | with no miss the window is the samples in order |
| Sensor.AcceptedDropShortens | eeg_collect.py:70-78 | one missed poll leaves fewer kept samples than polls |
| Sensor.WindowFullOrNone | eeg_collect.py:74-78 | the result is None or exactly FREQ samples, never partial |
| Sensor.WindowIffAllKept | eeg_collect.py:68-78 | a window comes back exactly when every poll gave a non-zero sample, and it lists them in order |
| Sensor.NoWindowWithoutEnoughLines | eeg_collect.py:68-78 | a closed port, or fewer lines than polls, gives None |
| Sensor.WindowIffGoodLines | eeg_collect.py:59-78 | on the raw stream: a window exactly when the port is open and the next FREQ lines are non-zero integers |
| Store.HashPassword | utils/hash_helper.py:24-25 | the stored hash verifies the password it was made from |
| Store.VerifyOnlyOwnPassword | utils/hash_helper.py:24-28 | a hash verifies exactly its own password, whatever the salt |
| Store.SetFlag | routes/model_training.py:57 | `$set` makes the flag true and leaves the other flags and fields unchanged |
| Store.SetFlagIdempotent | routes/model_training.py:177 | setting a flag twice equals setting it once |
| Store.RecordsOf | routes/model_training.py:43 | only records with the user's email are found |
| Store.RecordsOfAppend | routes/model_training.py:43 | a new record is found after the earlier ones exactly when it is the user's |
| Store.RecordsOfComplete | routes/model_training.py:43 | no record of the user is missed |
| Store.Database.constructor | database.py:4-10 | the model starts from an empty store; the persistent MongoDB database it stands for may already hold documents |
| Otp.DigitIndex | utils/util_func.py:8 | floor(r * 10) of a draw in [0, 1) is a valid index into the ten digits |
| Otp.GenerateOtp | utils/util_func.py:4-9 | exactly `length` characters (none for length 0 or less), character i selected by draw i, every one a digit |
| Validators.NextAt | utils/validators.py:11 | the position of the first '@' from a point, or the end, with no '@' before it |
| Validators.EmailMatchesIffPattern | utils/validators.py:11 | the computed check holds exactly when a prefix matches `[^@]+@[^@]+\.[^@]+` |
| Validators.EmailExamples | utils/validators.py:11 | "a@b.c" and "a@b.c@d" match; "@b.c", "a@b" and "a@.c" do not |
| Validators.SignupFirstFailureWins | utils/validators.py:3-23 | each of the six messages comes back exactly when the earlier checks pass and its own fails; None exactly when all pass |
| Validators.LoginFirstFailureWins | utils/validators.py:25-36 | the login chain: empty field, email format, length; None exactly when all pass |
| Validators.AgeBoundary | signup.py:17-18 | age 17 is rejected and 18 accepted (the same check as utils/validators.py:8-9) |
| Validators.ShortPasswordBeforeCharacterChecks | signup.py:23-30 | a password under 8 characters gets the length message before the digit and uppercase checks |
| Validators.SignupStricterThanLogin | utils/validators.py:3-36 | a form signup accepts is accepted at login |
| Validators.ValidatorExamples | utils/validators.py:25-36 | an 8-character lowercase password passes login but fails signup with the digit message |
| Users.NewUser | routes/users.py:24-26 | the inserted document keeps the email, has no OTP yet and holds a hash that verifies the password |
| Users.Signup | routes/users.py:13-42 | a validation error, then an existing email, each leave the store unchanged; otherwise the hashed user is inserted and the token returned |
| Users.SendOtp | routes/users.py:84-103 | unknown user is refused; otherwise the 6-digit code is stored before delivery, and the reply depends only on whether delivery raised |
| Users.ResetPassword | routes/users.py:118-129 | unknown user changes nothing; otherwise the hash is replaced and the OTP removed |
| Users.SignupThenLogin | routes/users.py:24-53 | after signup the same password logs in and gets the token; another password is refused with an empty token |
| Users.LoginIssuesTokenOnlyOnSuccess | routes/users.py:48-53 | login succeeds exactly when the user exists and the password verifies; failures carry an empty token |
| Users.StoredOtpValidates | routes/users.py:105-116 | a stored code validates and any other code is refused |
| Users.ValidateOtpOrder | routes/users.py:108-116 | each of the four replies comes back exactly in its case, in order |
| Users.ResetThenValidateAndLogin | routes/users.py:126-128 | after a reset the OTP is gone and only the new password logs in |
| Users.ValidateTokenCases | routes/users.py:67-77 | no cookie gives "Token not found"; success exactly for a present cookie with a valid token, returning its email |
| Prediction.Count | routes/model_prediction.py:79 | a count never exceeds the batch size |
| Prediction.VoteOfFiveIsMajority | routes/model_prediction.py:68-82 | on five binary labels the chosen label occurs at least three times, and 0 is chosen exactly when it occurs three times or more |
| Prediction.TieGoesToFocused | routes/model_prediction.py:78-84 | a tie gives 1, "Focused" |
| Prediction.VoteExamples | routes/model_prediction.py:78-84 | two zeros and three ones give "Focused", three zeros "Relaxing" |
| Prediction.WorkerRun | routes/model_prediction.py:66-92 | the worker queues at most one text per pass |
| Prediction.WorkerTextsAreLabels | routes/model_prediction.py:84-87 | every queued text is "Relaxing" or "Focused" |
| Prediction.WorkerTextsFromBatches | routes/model_prediction.py:66-87 | without an exception every pass queues one text, and the k-th is the vote over windows 5k to 5k+4, in order |
| Prediction.WorkerStopsAfterFailure | routes/model_prediction.py:88-92 | after an exception nothing more is queued |
| Prediction.RaisedWindowEndsRun | routes/model_prediction.py:88-92 | an exception in pass r keeps at most r texts and ends the run |
| Prediction.WorkerAfterBatch | routes/model_prediction.py:66-90 | after a pass that raised the queued texts are final; otherwise the pass adds the vote's text |
| Prediction.CollectBatch | routes/model_prediction.py:68-76 | an exception exactly when some window of the five raises; otherwise the five labels in order |
| Prediction.PredictionRoute.constructor | routes/model_prediction.py:14-24 | empty queue, flags down, no model loaded |
| Prediction.PredictionRoute.ConnectEeg | routes/model_prediction.py:28-44 | token, user, trained model and connect are checked in order; only then is the model loaded and "start_reading" sent |
| Prediction.PredictionRoute.DisconnectEeg | routes/model_prediction.py:46-57 | after the token and user checks, stop_reading is sent to an open port and the port ends closed |
| Prediction.PredictionRoute.PredictionWorker | routes/model_prediction.py:60-93 | the queue gains exactly `WorkerRun`'s texts and the flag ends down |
| Prediction.PredictionRoute.Deliver | routes/model_prediction.py:105-109 | texts are sent in FIFO order and removed from the queue |
| Prediction.PredictionRoute.WebsocketEndpoint | routes/model_prediction.py:96-121 | the sent texts are a prefix of the worker's output; at the end stop_reading then disconnect close the port |
| Training.TrainingGateOrder | routes/model_training.py:35-41 | "User not found", then "Model already trained", then "Data not collected" unless both flags are set, each exactly in its case |
| Training.BuildTrainingSet | routes/model_training.py:43-49 | X and y have one entry per record, in record order |
| Training.ModelTrainingPipeline | routes/model_training.py:31-58 | a failed check or a failed training leaves the store unchanged; on success the model is saved and then model_trained set |
| Training.TrainingOnlyOnce | routes/model_training.py:38-57 | after a successful run a second one is refused with "Model already trained" |
| Training.CheckModelStatusCases | routes/model_training.py:105-116 | success exactly when the token's user exists and model_trained is set; the errors come in order |
| Training.CheckDataStatusCases | routes/model_training.py:118-131 | a body without "state" raises whatever the token; success exactly when the mapped flag is set |
| Training.Collect | routes/model_training.py:69-85 | the loop inserts at most one record per read |
| Training.CollectStep | routes/model_training.py:69-85 | one more read: an empty window adds nothing; a read that raises, a failed clean or filter, or an unmapped state ends the thread with the records unchanged; otherwise the window's labelled record is appended |
| Training.CollectRaisesOnReadError | routes/model_training.py:70-71 | a read that raises ends the thread and stores nothing |
| Training.CollectFirstReadRaises | routes/model_training.py:69-71 | when the first read raises, the thread ends with nothing stored, whatever the later reads |
| Training.ListReaderStoresNothing | routes/model_training.py:70-71 | with eeg_collect.py's reader, whose read_one_second_data returns a list or None, `next()` raises TypeError on the first read, so nothing is stored |
| Training.CollectedRecordsLabelled | routes/model_training.py:79-85 | every stored record carries the caller's email and the label mapped from the active state |
| Training.CollectSkipsEmpty | routes/model_training.py:73-74 | an empty window inserts nothing |
| Training.CollectStopsAfterRaise | routes/model_training.py:69-85 | after an exception no later window changes anything |
| Training.CollectRaisesOnAllMissing | routes/model_training.py:75 | a non-empty window with no valid sample makes the loop raise |
| Training.CollectStoresCleanWindow | routes/model_training.py:75-85 | a window that cleans is stored at the end with its features and the state's label when it has more than 27 samples; a shorter one raises and stores nothing |
| Training.CollectRaisesOnShortWindow | routes/model_training.py:75 | a window of 1 to 27 samples ends the thread in the filters and stores nothing |
| Training.CollectStoresReaderWindow | routes/model_training.py:70-85 | a yielded window of 512 samples, as the reader assembles, passes the filters' length check, so it is stored exactly when it cleans and the state is mapped |
| Training.TrainingRoute.constructor | routes/model_training.py:15-21 | state "", time 0, not running |
| Training.TrainingRoute.StartEegCollection | routes/model_training.py:133-149 | bad token, or a missing or falsy time or state, changes nothing; otherwise state and time are recorded and isRunning set |
| Training.TrainingRoute.StopEegCollection | routes/model_training.py:151-161 | an error when not running; otherwise the stop event is set and isRunning cleared |
| Training.TrainingRoute.DataCollected | routes/model_training.py:163-178 | only "Relaxing" and "Focused" are accepted, and only the mapped flag is set |
| Training.TrainingRoute.TrainModel | routes/model_training.py:180-188 | after the token check the reply is success whatever the pipeline did; the store changes only as the pipeline says |
| Training.TrainingRoute.StartEegPipeline | routes/model_training.py:60-92 | the store gains exactly `Collect`'s records; a normal exit sends stop_reading and then closes the port, and an exception does neither |
| Training.StoreWindows | routes/model_training.py:69-87 | the loop stores exactly `Collect`'s records and raises exactly when `Collect` does |

## Left out

- The filtered values of `initialize_filter` and `apply_filter` (the notch and band-pass filters of `preprocess`) are scipy numerics. Only filtfilt's length check is modelled; the collection loop takes the filtered window's feature row as the function `extract`.
- Samples, sums and features are exact `real` numbers. float64 rounding, NaN and infinities are not modelled.
- Welch's PSD, `np.log`, `np.polyfit`, `np.sqrt` and `np.std` are library numerics. The model takes the spectrum as given `(freqs, psd)` sequences, and the centroid, log-log slope, RMS and Hjorth terms as given values.
- The classifier (`Model`, `ModelPredict`, pickle and joblib) is not modelled. `services/model_trainer.py`, which the training route imports, is not part of this model, and the top-level model_trainer.py shown does not define `train_with_split`. The classifier's output per window is an input.
- Threads, `Event`, `Queue`, asyncio polling and the websocket transport are not modelled. Worker loops run sequentially, bounded by `rounds`, `delivered` or the windows read.
- Serial hardware, pyserial and `time.sleep` are not modelled.
  - The port is a stream of optional lines.
  - services/eeg_collect.py, which the routes import, is not part of this model. Each read of the collection loop (`next(...)` on its result) is an input: a yielded window or an exception.
- MongoDB is not modelled. The collections are a map, a sequence and a set of saved model owners.
- JWT and SMTP internals are not modelled; their outcomes are inputs. bcrypt is modelled as a salted hash that verifies exactly its own password.
- `logout`, and the exception branches of signup's insert and of reset-password's update, are not modelled.
- The test route and the `__main__` blocks (other than the clean_data example) are left out, as is the `ali.py` script.
- JSON bodies hold scalars only (null, integers, strings, booleans). Floats, lists and objects, and a body that is not an object, are not modelled.
- Missing request fields are not modelled in the account routes. `User(**data)` at routes/users.py:16 runs outside any try, so a missing field or a non-integer age raises pydantic's ValidationError (a 500). login, send-otp, validate-otp and reset-password index `data["email"]` (and `data["password"]`, `data["otp"]`) directly, and raise KeyError when it is absent. The model takes these fields as given.
- Sensor.SensorReader.ReadSensorData: a line that is not an integer literal (where `int()` raises) is not modelled. Lines are either blank or an integer. In the collection loop such an exception is a `ReadRaised` read.
- Training.Collect: the loop's reads are taken from a reader whose `next()` yields one window per second, as services/eeg_collect.py presumably provides. With eeg_collect.py's reader, whose read_one_second_data returns a list or None, line 71 raises TypeError on every read (`ListReaderStoresNothing`).
- Training.CollectStoresReaderWindow: it assumes such a yielding reader. With eeg_collect.py's list-or-None return the window is never handed over, and the loop raises instead.
- Sensor.SensorReader.ReadSensorData: its `while True` loop is modelled as a single poll, because every path returns on the first pass.
- Validators.SignupFirstFailureWins: `isdigit` and `isupper` are taken over ASCII only. Other Unicode digits and capitals are not recognised.
- Users.Signup: the route validates `User(**data).model_dump()`, a dict, with utils/validators.py. The model applies the same checks to the parsed fields. signup.py's copy of the validator is called by no route.
- Users.Signup: a client may send the three progress flags, and they are stored as sent.
- Store.VerifyOnlyOwnPassword: bcrypt reads only the first 72 bytes of a password. Depending on the bcrypt version, two passwords that agree on those bytes verify alike, or a longer password raises. The model's hash is injective on the whole password, so "exactly its own password" is stronger than bcrypt gives.
- Users.SignupThenLogin: "another password is refused" rests on that injective hash. Under bcrypt it holds only for passwords that differ within their first 72 bytes.
- Users.ResetThenValidateAndLogin: "the old password no longer logs in" has the same 72-byte proviso.
- Users.ValidateOtp: the submitted code is a string. A JSON number in the body never equals a stored string code, so once a code is stored the route answers "Invalid OTP"; the model does not admit non-string codes.
- Training.TrainingRoute.StartEegPipeline: the label is looked up after the features are computed. Both failures end the thread in the same way, so the model does not order them.
- Training.TrainingRoute.StartEegPipeline: the stop event and the reading of `time` play no part in the loop, and the state is taken as fixed while the loop runs.
