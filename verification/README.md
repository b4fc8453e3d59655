# Klereo pool integration — a Dafny model

This project models the Klereo Home Assistant integration. The integration talks to the Klereo Connect cloud service for pool-monitoring hardware. The model covers:

- **The API client** (`api.dfy`, module `Api`). It logs in with the user name and the SHA-1 of the password. It accepts the token under `jwt` or `token` and logs in lazily before the first request. On a 401 it logs in again and repeats the request exactly once. The client is a class: the token and the log of requests it made are fields that its methods update. The server is a class whose answers are a function of the call's position in its log. The client's methods are proved equal to pure specifications (`Authorize`, `Attempt`, `Retry`). Lemmas about those specifications show the retry policy: at most one retry, only on a 401, and a failed re-login propagates.
- **The coordinator's refresh** (`coordinator.dfy`, module `Coordinator`). It reads the system list (`list_systems`, a bare list, or nothing). For every record with a truthy `id`, in order, it fetches the pool details and stores `{info, details}` under that id. The data is a dict with insertion order, modelled as a map plus a key order. `UpdateData` is proved equal to a left fold `Fold`, and lemmas about the fold give:
  - which keys the data holds;
  - that the last record with a given id wins;
  - that the first exception aborts the whole refresh;
  - exactly which requests were made.
- **The three entity platforms**: probe and parameter sensors (`sensor.dfy`), output switches (`switch.dfy`) and binary sensors (`binary_sensor.dfy`). Each covers:
  - how setup builds entities from the coordinator's data, including which exception aborts setup;
  - the unique ids and names;
  - how a refresh finds the entity's record again;
  - the commands a switch sends.
- **The configuration flow** (`config_flow.dfy`). A single login decides between creating the entry and showing the form with `cannot_connect`, `invalid_auth` or `unknown`.
- **The constants** (`const.dfy`): endpoints, scan interval, output modes and states, and the sensor-type and output-name tables.

Python's dynamic behaviour matters to this code, so `py_json.dfy` models the parts of it the integration relies on:

- JSON values and Python truthiness;
- `==` across `bool`/`int`/`float`, and hashing of dict keys, so that `1`, `1.0` and `True` find the same table entry;
- `dict.get` on a non-dict (AttributeError), `in` on dicts, lists and strings, and subscripts;
- f-string rendering of ids.

`entity_ids.dfy` proves that unique ids built from integer keys never collide.

Behaviour worth noting:

- The refresh is all-or-nothing. Any exception, including a failed detail fetch, becomes `UpdateFailed`; no partial snapshot is kept.
- Systems are read from `list_systems` or a bare list only; there is no `response` wrapper and no `idSystem` field.
- The id filter is Python truthiness of `id`.
- The token is whatever JSON value the login reply holds (it need not be a string).

I/O is a parameter: the server's answers are a function `respond(n, call)` of the call's position `n` in the server's log. The SHA-1 digest is a function parameter `sha1hex`.

## Model

| member | source | states |
|---|---|---|
| Const.OutputNamesCoverChannels | custom_components/klereo/const.py:41-58 | the output-name table has exactly the channels 0 to 15 |
| Const.SensorTypesDomain | custom_components/klereo/const.py:26-39 | the sensor-type table has exactly the codes 0-6 and 10-14 |
| Const.ModeAndStateCodes | custom_components/klereo/const.py:16-23 | the four output modes are 0-3; off is 0 and on is 1 |
| Const.EndpointsDistinct | custom_components/klereo/const.py:5-10 | each endpoint is the base URL plus its PHP script, and the five endpoints are pairwise different |
| PyJson.PyEqReflexive | custom_components/klereo/sensor.py:86-89 | Python `==` is reflexive on JSON values (no NaN), so a record always matches its own id |
| PyJson.FindFirst | custom_components/klereo/sensor.py:81-89 | the `_find_my_data` loop: None iff every element is passed over; a found dict is the first element whose key equals the wanted value; an exception comes from the first element whose `get` or `==` raises |
| PyJson.FindFirstAt | custom_components/klereo/sensor.py:86-89 | if every earlier element is passed over and element i matches, the loop returns element i |
| PyJson.IntKey | custom_components/klereo/sensor.py:44 | an int-keyed table lookup: raises iff the key is unhashable; a hit is a key Python finds equal; a miss means no int key is equal |
| PyJson.Natural | custom_components/klereo/sensor.py:46 | the decimal text of a natural number is non-empty and all digits |
| PyJson.NaturalInjective | custom_components/klereo/sensor.py:46 | distinct naturals have distinct decimal texts |
| PyJson.DecimalSign | custom_components/klereo/sensor.py:46 | `str(n)` starts with '-' exactly when n is negative |
| PyJson.DecimalInjective | custom_components/klereo/sensor.py:46 | `str` on ints is injective |
| PyJson.Render | custom_components/klereo/sensor.py:46-47 | an f-string renders unless one of its values is a kind whose text is not modelled |
| EntityIds.RenderUniqueId | custom_components/klereo/sensor.py:46 | `f"{system_id}_{kind}_{key}"` renders as the three texts joined by underscores |
| EntityIds.DecimalNoUnderscore | custom_components/klereo/switch.py:38 | an integer's text holds no underscore |
| EntityIds.SplitAtSeparator | custom_components/klereo/switch.py:38 | a text joined at an underscore-free prefix splits back uniquely |
| EntityIds.IdTextDeterminesParts | custom_components/klereo/switch.py:38 | equal unique ids with underscore-free system and kind parts have equal parts |
| EntityIds.UniqueIdDeterminesParts | custom_components/klereo/switch.py:38 | for integer system ids, the rendered unique id determines system, kind and key text |
| EntityIds.IntKeysGiveDistinctIds | custom_components/klereo/switch.py:38 | two outputs of one system with different integer indexes get different unique ids |
| Api.UnauthorizedIsStatus401 | custom_components/klereo/api.py:87-88 | the retry branch is taken exactly for an HTTP 401 reply |
| Api.LoginFormContents | custom_components/klereo/api.py:39-48 | the login form has exactly `login`, the SHA-1 of the password as `password`, and `version` 393-J |
| Api.SetOutRequestFaithful | custom_components/klereo/api.py:110-131 | the SetOut form carries `comMode` 1 and determines system, output, mode and state; it differs from every other request |
| Api.SetParamRequestFaithful | custom_components/klereo/api.py:133-150 | the SetParam form carries `comMode` 1 and determines system, parameter and value; it differs from the detail and login requests |
| Api.TokenFrom | custom_components/klereo/api.py:60-66 | the token is `jwt` if present, else `token`; neither is KlereoApiError; a non-dict reply raises TypeError or KlereoApiError |
| Api.TokenShapes | custom_components/klereo/api.py:60-66 | both reply shapes give the token, and `jwt` wins over `token` |
| Api.AuthorizationOfStringToken | custom_components/klereo/api.py:72-75 | a string token gives the header `Bearer <token>` |
| Api.AttemptsAppend | custom_components/klereo/api.py:77-98 | counting the sends of one request distributes over concatenated logs |
| Api.LazyLogin | custom_components/klereo/api.py:70-71 | with a truthy cached token the first call is the request itself; otherwise it is a login |
| Api.AuthorizeShape | custom_components/klereo/api.py:68-75 | no call with a truthy cached token, exactly one login otherwise; a successful login caches the token it returns |
| Api.AttemptBounded | custom_components/klereo/api.py:79-97 | the `try` block and its 401 branch send the request at most twice, log in at most once, and send nothing else |
| Api.AtMostOneRetry | custom_components/klereo/api.py:77-98 | whatever the server answers, a request is sent at most twice with at most two logins, and nothing else is sent |
| Api.OtherOutcomesNotRetried | custom_components/klereo/api.py:80-98 | once authorization gives a token (cached or from a lazy login), any outcome other than a 401 is the result of the first attempt, unchanged, after one send |
| Api.UnauthorizedRetriedOnce | custom_components/klereo/api.py:87-97 | with a cached or lazily obtained token, after a 401 the token is cleared, a login follows, the request is repeated once with the new token, and a second 401 propagates |
| Api.ReloginFailurePropagates | custom_components/klereo/api.py:88-91 | a failed re-login after a 401 is the result, and the request is not repeated |
| Api.RecoveryNeedsOneLogin | custom_components/klereo/api.py:87-97 | a 401 followed by a good login and a good reply succeeds with exactly one login |
| Api.KlereoApi.constructor | custom_components/klereo/api.py:29-34 | the client starts with no token and no history |
| Api.KlereoApi.Login | custom_components/klereo/api.py:36-66 | one login call; on success the token is stored; on failure the exception propagates |
| Api.KlereoApi.AuthHeader | custom_components/klereo/api.py:68-75 | equals the `Authorize` specification: the calls made, the new token and the header |
| Api.KlereoApi.RequestWithRetry | custom_components/klereo/api.py:77-98 | equals the `Retry` specification: its result, calls and final token, and the history gains the request with its result |
| Api.KlereoApi.SendWithToken | custom_components/klereo/api.py:79-86 | one attempt equals the `Attempt` specification |
| Api.KlereoApi.RetryAfterUnauthorized | custom_components/klereo/api.py:87-97 | the 401 branch equals the `SecondAttempt` specification |
| Api.KlereoApi.GetSystems | custom_components/klereo/api.py:100-102 | a retried GET to GetIndex with no form |
| Api.KlereoApi.GetPoolDetails | custom_components/klereo/api.py:104-108 | a retried POST to GetPoolDetails carrying the system id |
| Api.KlereoApi.SetOutput | custom_components/klereo/api.py:110-131 | a retried POST to SetOut with the output's form |
| Api.KlereoApi.SetParam | custom_components/klereo/api.py:133-150 | a retried POST to SetParam with the parameter's form |
| Api.Server.Send | custom_components/klereo/api.py:82-84 | the server answers each call by its position and logs it |
| Coordinator.Empty | custom_components/klereo/__init__.py:40 | the refresh starts from an empty, well-formed dict |
| Coordinator.Items | custom_components/klereo/sensor.py:19 | `data.items()` lists every key once, in insertion order, with its value |
| Coordinator.InsertPreservesWellFormed | custom_components/klereo/__init__.py:60-63 | storing under a key keeps the dict well-formed, adds the key, and keeps the order of an existing key |
| Coordinator.SystemList | custom_components/klereo/__init__.py:46-50 | `list_systems` of a dict, the body itself if it is a list, otherwise empty; the `in` test raises TypeError on non-containers |
| Coordinator.Step | custom_components/klereo/__init__.py:54-63 | one iteration: a failed refresh stays failed; it keeps running iff the record's `get` and fetch succeed; a truthy id stores `{info, details}` |
| Coordinator.FoldLast | custom_components/klereo/__init__.py:54-63 | the fold over records extends one record at a time |
| Coordinator.FailureIsSticky | custom_components/klereo/__init__.py:67-68 | after the first exception, later records change nothing |
| Coordinator.FoldRunning | custom_components/klereo/__init__.py:54-63 | the refresh succeeds iff every record is accepted |
| Coordinator.FoldFailure | custom_components/klereo/__init__.py:67-68 | a failed refresh carries the exception of the first record that is not accepted |
| Coordinator.FoldVerdict | custom_components/klereo/__init__.py:54-68 | both directions of success, and the first failing record on failure |
| Coordinator.FoldWellFormed | custom_components/klereo/__init__.py:40-63 | the data built is always a well-formed dict |
| Coordinator.FoldKeys | custom_components/klereo/__init__.py:56-63 | the keys are exactly the truthy ids of the records |
| Coordinator.FoldLastWins | custom_components/klereo/__init__.py:60-63 | each key holds the record that came last with that id, and its fetched details |
| Coordinator.FoldContents | custom_components/klereo/__init__.py:54-63 | well-formedness, keys and last-wins contents together |
| Coordinator.FetchLogLast | custom_components/klereo/__init__.py:56-58 | the expected request log extends one record at a time |
| Coordinator.SuccessFetchesEveryTruthyId | custom_components/klereo/__init__.py:56-58 | a successful refresh fetches the details of every truthy id, in order, once per record |
| Coordinator.NoTruthyIdsGiveEmptyData | custom_components/klereo/__init__.py:56-65 | without truthy ids no fetch is made and the data is empty |
| Coordinator.FetchAll | custom_components/klereo/__init__.py:54-65 | the loop equals the fold, and the client's history gains exactly the fold's requests |
| Coordinator.PadFailure | custom_components/klereo/__init__.py:67-68 | an early exit equals a full fold with unused outcomes |
| Coordinator.Visit | custom_components/klereo/__init__.py:55-63 | one loop iteration equals `Step` |
| Coordinator.UpdateData | custom_components/klereo/__init__.py:31-68 | a failed system-list fetch or list shape fails the refresh; otherwise the refresh equals the fold over the records |
| Sensor.SensorDefOf | custom_components/klereo/sensor.py:44 | the sensor-type lookup raises TypeError iff the type is unhashable |
| Sensor.SensorDefMatchesTable | custom_components/klereo/sensor.py:44 | a hit is the table entry of a code Python finds equal; a miss means no code is equal |
| Sensor.ReadingPrecedence | custom_components/klereo/sensor.py:75-79 | the reading is `filteredValue` if present, else `directValue`; the attributes are the raw values and the status |
| Sensor.InitSensor | custom_components/klereo/sensor.py:37-51 | the constructor raises AttributeError for a non-dict probe and TypeError for an unhashable type, and nothing else |
| Sensor.KnownTypeNaming | custom_components/klereo/sensor.py:44-49 | a known type gives its name, unit and device class, and the id `{system}_sensor_{index}` |
| Sensor.UnknownTypeNaming | custom_components/klereo/sensor.py:44-49 | an unknown type is named `Sensor {index}` with no unit or class |
| Sensor.TypeCodesCompareAsPythonNumbers | custom_components/klereo/sensor.py:44 | a type given as 5.0 finds the entry of code 5, and True the entry of code 1 |
| Sensor.TypeCodeFallbacks | custom_components/klereo/sensor.py:44 | code 7 and the string "5" find no entry; a list raises TypeError |
| Sensor.FindProbe | custom_components/klereo/sensor.py:81-89 | None when the system is gone; AttributeError when its details are not a dict |
| Sensor.FindProbeIsFirstMatch | custom_components/klereo/sensor.py:81-89 | None iff every probe is passed over; a found probe carries the wanted `index`, and every probe before it is a dict with another index |
| Sensor.ParamLookup | custom_components/klereo/sensor.py:122-127 | the parameter's value is taken only when the key is in `RegulModes` |
| Sensor.KlereoSensor.constructor | custom_components/klereo/sensor.py:37-51 | the built sensor's view equals `InitSensor` |
| Sensor.KlereoSensor.UpdateFromData | custom_components/klereo/sensor.py:73-79 | the value and attributes are those of the probe record |
| Sensor.KlereoSensor.HandleCoordinatorUpdate | custom_components/klereo/sensor.py:65-71 | a found probe updates the reading; otherwise nothing changes; exceptions propagate |
| Sensor.KlereoParamSensor.constructor | custom_components/klereo/sensor.py:97-105 | the id is `{system}_param_{key}`, the name the key, the value the initial one |
| Sensor.KlereoParamSensor.HandleCoordinatorUpdate | custom_components/klereo/sensor.py:119-128 | the value follows `RegulModes[key]` when present and is otherwise kept |
| Sensor.ProbeFailureIsFirst | custom_components/klereo/sensor.py:22-23 | probe setup fails with the exception of the first probe whose constructor raises |
| Sensor.SetupPlanSticky | custom_components/klereo/sensor.py:19-28 | once a system fails, setup fails with that exception |
| Sensor.SetupPlanContents | custom_components/klereo/sensor.py:19-26 | setup succeeds iff every system's entities can be built; it then holds each system's entities in order; otherwise it fails with the first failing system's exception |
| Sensor.BuildProbeSensors | custom_components/klereo/sensor.py:22-23 | one sensor per probe, in order, each equal to `InitSensor`, or the first probe's exception |
| Sensor.BuildParamSensors | custom_components/klereo/sensor.py:25-26 | one parameter sensor per `RegulModes` key, with its value, the id `{system}_param_{key}` and the key as name |
| Sensor.SetupSystem | custom_components/klereo/sensor.py:20-26 | one system's probe sensors (each equal to `InitSensor`) and parameter sensors (value, id and name), or the exception of `get` or a probe |
| Sensor.SetupStep | custom_components/klereo/sensor.py:19-26 | adding one system's entities keeps the setup invariant |
| Sensor.SetupStart | custom_components/klereo/sensor.py:17 | setup starts with no entities |
| Sensor.SetupEntry | custom_components/klereo/sensor.py:13-28 | fails with the setup plan's exception, adding nothing, or adds exactly the planned sensors |
| Sensor.SetupNext | custom_components/klereo/sensor.py:19-26 | one turn of the loop over systems keeps the invariant or ends with the plan's exception |
| Sensor.RefreshFindsOwnProbe | custom_components/klereo/sensor.py:81-89 | a sensor built from a probe finds that probe on refresh |
| Sensor.RefreshKeepsParamValue | custom_components/klereo/sensor.py:124-127 | a refresh of unchanged data keeps a parameter's value |
| Switch.OutputName | custom_components/klereo/switch.py:39-41 | the output's table name, else `Output {index}`; an unhashable index raises TypeError |
| Switch.StatusTruthiness | custom_components/klereo/switch.py:67 | the switch is on iff `status` is truthy: missing, null, false, 0, 0.0 and "" are off; any non-zero int, any non-empty string ("0" too) and True are on |
| Switch.InitSwitch | custom_components/klereo/switch.py:32-43 | the constructor raises AttributeError for a non-dict output and TypeError for an unhashable index, and nothing else |
| Switch.KnownOutputNaming | custom_components/klereo/switch.py:38-41 | a known index is named from the table with id `{system}_output_{index}` |
| Switch.UnknownOutputNaming | custom_components/klereo/switch.py:39-41 | any other index is named `Output {index}` |
| Switch.OutputIndexesCompareAsPythonNumbers | custom_components/klereo/switch.py:39-41 | an index given as 1, 1.0 or True is named Filtration |
| Switch.OutputNameFallbacks | custom_components/klereo/switch.py:39-41 | index 16, the string "1" and null fall back to `Output {index}`; a dict raises TypeError |
| Switch.FindOutput | custom_components/klereo/switch.py:73-81 | None when the system is gone; AttributeError when its details are not a dict |
| Switch.FindOutputIsFirstMatch | custom_components/klereo/switch.py:73-81 | None iff every output is passed over; a found output carries the wanted `index`, and every output before it is a dict with another index |
| Switch.TurnOnOffDifferOnlyInState | custom_components/klereo/switch.py:83-95 | on and off send the same manual-mode request except for the state |
| Switch.KlereoSwitch.constructor | custom_components/klereo/switch.py:32-43 | the built switch's view equals `InitSwitch` |
| Switch.KlereoSwitch.UpdateFromData | custom_components/klereo/switch.py:65-71 | on iff `status` is truthy; the attributes are the output's mode and type |
| Switch.KlereoSwitch.HandleCoordinatorUpdate | custom_components/klereo/switch.py:57-63 | a found output updates the state; otherwise nothing changes |
| Switch.KlereoSwitch.TurnOn | custom_components/klereo/switch.py:83-88 | one retried SetOut in manual mode with state on; a refresh is requested only when it returned; the switch's own state is unchanged |
| Switch.KlereoSwitch.TurnOff | custom_components/klereo/switch.py:90-95 | one retried SetOut in manual mode with state off; a refresh is requested only when it returned; the switch's own state is unchanged |
| Switch.OutputFailureIsFirst | custom_components/klereo/switch.py:21-22 | switch setup fails with the exception of the first output whose constructor raises |
| Switch.SetupPlanSticky | custom_components/klereo/switch.py:19-24 | once a system fails, setup fails with that exception |
| Switch.SetupPlanContents | custom_components/klereo/switch.py:19-22 | setup succeeds iff every system's switches can be built, and then holds every system's outputs concatenated in snapshot order; otherwise it fails with the first failing system's exception |
| Switch.BuildSwitches | custom_components/klereo/switch.py:21-22 | one switch per output, in order, each equal to `InitSwitch`, or the first output's exception |
| Switch.SetupSystem | custom_components/klereo/switch.py:20-22 | one system's switches, or the exception of `get` or an output |
| Switch.SetupEntry | custom_components/klereo/switch.py:13-24 | fails with the setup plan's exception, adding nothing, or adds exactly the planned switches |
| Switch.SetupNext | custom_components/klereo/switch.py:19-22 | one turn of the loop over systems keeps the invariant or ends with the plan's exception |
| Switch.RefreshFindsOwnOutput | custom_components/klereo/switch.py:73-81 | a switch built from an output finds that output on refresh |
| BinarySensor.LowerIdempotent | custom_components/klereo/binary_sensor.py:55 | lower-casing twice is lower-casing once |
| BinarySensor.ActiveIgnoresCase | custom_components/klereo/binary_sensor.py:54-55 | a string value and its lower-case form give the same state |
| BinarySensor.ActiveStringIsTruthy | custom_components/klereo/binary_sensor.py:53-60 | a string value that is on is truthy |
| BinarySensor.ActivityExamples | custom_components/klereo/binary_sensor.py:53-60 | the string "2" is off while the number 2 is on; null is off, True is on |
| BinarySensor.WordExamples | custom_components/klereo/binary_sensor.py:54-55 | the on-words in any case are on; other words and "" are off |
| BinarySensor.InitBinarySensor | custom_components/klereo/binary_sensor.py:29-38 | the constructor raises AttributeError iff the record is not a dict |
| BinarySensor.BinarySensorNaming | custom_components/klereo/binary_sensor.py:33-36 | named `Klereo <label>`, `Klereo Unknown` without a label; id `{system}_binary_{id}` |
| BinarySensor.FindRecord | custom_components/klereo/binary_sensor.py:62-71 | the first `list_sensors` record with the sensor's id; None when missing; TypeError on details that are not containers |
| BinarySensor.ListDetailsRaise | custom_components/klereo/binary_sensor.py:66-68 | list-shaped details containing the string "list_sensors" raise on the subscript |
| BinarySensor.KlereoBinarySensor.constructor | custom_components/klereo/binary_sensor.py:29-38 | the built sensor's view equals `InitBinarySensor` |
| BinarySensor.KlereoBinarySensor.UpdateFromData | custom_components/klereo/binary_sensor.py:51-60 | the state is the on-word rule for strings and truthiness otherwise |
| BinarySensor.KlereoBinarySensor.Update | custom_components/klereo/binary_sensor.py:73-76 | a found non-empty record updates the state; otherwise nothing changes; exceptions propagate |
| BinarySensor.SetupEntry | custom_components/klereo/binary_sensor.py:9-23 | setup adds no entity |
| BinarySensor.RefreshFindsOwnRecord | custom_components/klereo/binary_sensor.py:62-71 | a sensor built from a record finds that record on refresh |
| ConfigFlow.Classify | custom_components/klereo/config_flow.py:30-39 | KlereoApiError, 401 and 403 are InvalidAuth; other response errors, connection errors and timeouts are CannotConnect; any other exception escapes |
| ConfigFlow.ResponseErrorsTakeTheirOwnClause | custom_components/klereo/config_flow.py:34-39 | a response error is a client error, yet it never reaches the generic clause |
| ConfigFlow.ValidateInput | custom_components/klereo/config_flow.py:25-41 | exactly one login call, classified by its reply |
| ConfigFlow.StepUserOutcomes | custom_components/klereo/config_flow.py:49-70 | for the corrected step: no input shows the form; each validation failure maps to its error code; a created entry is titled and identified by the user name |
| ConfigFlow.DuplicateAccountShowsUnknown | custom_components/klereo/config_flow.py:53-66 | as written the step never aborts: an account that is already configured gets "unknown" |
| ConfigFlow.DuplicateAccountAborts | custom_components/klereo/config_flow.py:56-59 | with the aborts let through, a duplicate aborts as already configured; all other outcomes agree with the code as written |
| ConfigFlow.LoginReplyToErrorCode | custom_components/klereo/config_flow.py:25-41 | from each kind of login reply to the code the user sees |
| ConfigFlow.StepUserAsWrittenOutcomes | custom_components/klereo/config_flow.py:49-70 | the step as written: no input shows the form; a validation failure shows its error code; after input the form comes back only for a failed validation or a duplicate user name; a created entry is titled and identified by a new user name; it never aborts |
| ConfigFlow.AsyncStepUser | custom_components/klereo/config_flow.py:49-70 | no input makes no call; otherwise one login call, and the result is the step as written applied to its answer |

## Left out

- Home Assistant itself is not modelled: scheduling of the refresh, `async_request_refresh`, `device_info`, `available`, the entity base classes and `async_write_ha_state`. A state write is the point where an entity method returns.
- Logging is left out, and so are `debug_logger.py`, `async_setup_entry`/`async_unload_entry` in `__init__.py`, and the HTTP headers (User-Agent, Content-Type).
- The request timeout value is left out. A timeout is one of the response kinds the server can give.
- Concurrency is not modelled: every coroutine runs to completion before the next starts.
- The URL encoding of form bodies is not modelled: requests carry the dict the code builds, so `Api.SetOutRequestFaithful` and `Api.SetParamRequestFaithful` speak of that dict, where on the wire `1` and `"1"` are the same text.
- SHA-1 is a function parameter. Its bit-level definition is not modelled.
- JSON object key order is not modelled, since objects are maps. `Sensor.BuildParamSensors` therefore states the set of parameter sensors, not their order.
- Setup gathers all of a system's probe sensors and then its parameter sensors in one list. `Sensor.SetupEntry` keeps the two kinds in two lists: probe sensors in order, parameter sensors as a set per system.
- Snapshot keys are JSON values compared structurally. Python would merge the keys `1`, `1.0` and `True`; the model keeps them apart.
- `lower()` is modelled for ASCII letters only.
- The text of floats, lists and dicts inside f-strings is not modelled. `PyJson.Render` gives None for them, and the lemmas about ids are stated for ints and strings.
- Floats are reals, so NaN is not modelled.
- The entity constructors require a dict record, and for probes and outputs a hashable type or index. Setup checks exactly these first and raises as Python does, so the exceptions live in `InitSensor`, `InitSwitch` and `InitBinarySensor`.
- The coordinator's data after a failed refresh is not modelled: Home Assistant keeps the previous data, and `UpdateData` only reports the failure.
- Sensor.SetupEntry: states what each built entity shows (probe sensors in full, parameter sensors by system, key, value, id and name), not that the entities are fresh objects.
- Switch.SetupEntry: states what each built entity shows, not that the entities are fresh objects.

## Findings

| source | as written | input that shows it | evidently intended | confidence | as-written member | corrected member |
|---|---|---|---|---|---|---|
| custom_components/klereo/config_flow.py:56-66 | `async_set_unique_id` and `_abort_if_unique_id_configured` run inside the `try`, and the final `except Exception` catches their AbortFlow. The user sees the form with "unknown". | a login that succeeds for a user name already configured, or already in a flow in progress | abort with "already_configured" or "already_in_progress" | not executed | ConfigFlow.DuplicateAccountShowsUnknown | ConfigFlow.DuplicateAccountAborts |
