# Monitor recovery, digest tasks and environment serializers

A Dafny model of three pieces of decision logic in Sentry:

- **Monitor check-in recovery** (`mark_ok`). A check-in arrives for a
  monitor environment. If the monitor has a recovery threshold, the newest
  check-ins must all be OK (the debounce gate). Then the environment row's
  `last_checkin` and next-check-in columns are recomputed. Its `status` and
  `last_state_change` may be set too. The write is conditional: it is
  skipped when the row already holds a newer check-in.
  The row is the class `MarkOk.MonitorEnvironment`.
  The pure function `MarkOk.MarkOkResult` says what the row becomes.
  `MarkOk.MarkOk` performs the update and is proved to agree with it.
- **Digest tasks** (`schedule_digests`, `deliver_digest`). The sweep runs
  store maintenance 300 seconds back, then enqueues one delivery per ready
  schedule entry. Delivery splits the key. If the project is gone, it deletes
  the key. Otherwise it opens the digest with the project's mail minimum
  delay, builds it, and notifies the target if it is non-empty.
  The store, `split_key`, `build_digest`, the option lookup and the mail
  adapter are collaborators. Their answers are inputs (`Digests.Collaborators`).
  The calls the two digest tasks make on them are appended to a log (`Digests.SideEffects`).
  Each task method is proved to produce exactly the calls of a specification
  function (`ScheduleEffects`, `DeliverEffects`). The properties are proved
  about those functions.
- **Environment serializers**. These are the plain and per-project
  environment dictionaries, and the per-environment frequency stats of an
  issue group over the "24h" and "30d" periods (`get_attrs`, `serialize`).

Times are integer seconds. The monitor's schedule functions, the
time-series backend and the clock are inputs: functions the caller supplies,
about which nothing is assumed.

Two details of the code shape the model:

- In `mark_ok`, `last_state_change` is put into the update whenever the
  check-in is OK and the environment's status is not OK, even when the
  monitor is DISABLED and `status` is therefore not written. Like every
  other column, it is only written when the recovery gate passes and the
  row does not already hold a newer `last_checkin`.
- `deliver_digest` deletes the key only when its project no longer exists.
  Opening and closing the digest are entry and exit of one context manager,
  and InvalidState raised by either is logged, after which `deliver_digest`
  makes no further calls.

## Model

| member | source | states |
|---|---|---|
| `MarkOk.RecoveryThreshold` | src/sentry/monitors/logic/mark_ok.py:10 | a missing recovery_threshold reads as 0, a present one as its value |
| `MarkOk.RecoveryWindow` | src/sentry/monitors/logic/mark_ok.py:12-14 | the gate's window is a prefix of the newest-first history of length min(threshold, history length) |
| `MarkOk.RecoveryConfirmedIff` | src/sentry/monitors/logic/mark_ok.py:10-20 | the gate passes iff the threshold is 0 or every one of the newest `threshold` check-ins is OK |
| `MarkOk.ShortHistoryGate` | src/sentry/monitors/logic/mark_ok.py:12-17 | with fewer check-ins than the threshold the gate passes iff all existing ones are OK, and vacuously on an empty history |
| `MarkOk.RecoveryParams` | src/sentry/monitors/logic/mark_ok.py:22-35 | params always hold last_checkin = ts and both schedule values at ts; status (OK) is present iff the check-in is OK and the monitor is not DISABLED; last_state_change (= ts) is present iff the check-in is OK and the environment was not OK |
| `MarkOk.Apply` | src/sentry/monitors/logic/mark_ok.py:37-39 | the filtered update leaves the row unchanged when its last_checkin is strictly newer than ts (NULL is not newer), and otherwise overwrites exactly the columns present in params |
| `MarkOk.MarkOkResult` | src/sentry/monitors/logic/mark_ok.py:7-39 | an unconfirmed recovery or a newer stored check-in leaves the row unchanged; when the write happens last_checkin = ts and the next-check-in columns are the schedule at ts; status becomes OK exactly when written with an OK check-in on a non-DISABLED monitor; last_state_change becomes ts exactly when written with an OK check-in on a non-OK environment; a non-OK check-in never changes status or last_state_change |
| `MarkOk.MonitorEnvironment.ConditionalUpdate` | src/sentry/monitors/logic/mark_ok.py:37-39 | the row's new columns are `Apply` of its old ones; it reports a match iff the stored last_checkin is not newer than ts; nothing but this row changes |
| `MarkOk.MarkOk` | src/sentry/monitors/logic/mark_ok.py:7-39 | after the call the row equals `MarkOkResult` of its old value; only this row is modified |
| `MarkOk.MarkOkIdempotent` | src/sentry/monitors/logic/mark_ok.py:22-39 | processing the same check-in a second time changes nothing |
| `MarkOk.LastCheckinMonotone` | src/sentry/monitors/logic/mark_ok.py:37-39 | last_checkin never decreases and only ever takes the check-in's timestamp |
| `MarkOk.OutOfOrderScheduleConverges` | src/sentry/monitors/logic/mark_ok.py:22-39 | two check-ins processed in either order leave the same last_checkin, next_checkin and next_checkin_latest |
| `MarkOk.ScenarioFlappingSuppressed` | src/sentry/monitors/logic/mark_ok.py:10-20 | threshold 2 with newest-first history [OK, ERROR]: an OK check-in changes nothing |
| `MarkOk.ScenarioConfirmedRecovery` | src/sentry/monitors/logic/mark_ok.py:10-35 | threshold 2 with history [OK, OK] on an active monitor in ERROR: status becomes OK and last_state_change and last_checkin become ts |
| `MarkOk.ScenarioStaleCheckInIgnored` | src/sentry/monitors/logic/mark_ok.py:37-39 | a stored last_checkin of 10 and a check-in stamped 5: nothing changes |
| `Digests.EnqueueAll` | src/sentry/tasks/digests.py:36-37 | one enqueued delivery per entry, in yield order, carrying that entry's key and timestamp |
| `Digests.ScheduleEffects` | src/sentry/tasks/digests.py:23-37 | a sweep at `deadline` first calls maintenance with deadline - 300, then enqueues exactly one delivery per yielded entry, in order |
| `Digests.ScheduleEffectsPrefix` | src/sentry/tasks/digests.py:36-37 | enqueueing entry i extends the calls for the first i entries by exactly that entry's delivery |
| `Digests.ScheduleDigests` | src/sentry/tasks/digests.py:20-37 | the calls made are exactly `ScheduleEffects(now, schedule(now))` |
| `Digests.OneDeliveryPerEntry` | src/sentry/tasks/digests.py:33-37 | for every key, a sweep enqueues exactly as many deliveries as the schedule yielded entries for that key: none dropped, none duplicated |
| `Digests.DeliverEffects` | src/sentry/tasks/digests.py:45-86 | a missing project leads to a delete of the key and nothing else, and no other path deletes anything; otherwise the digest is first opened with the project's mail minimum_delay; InvalidState on opening or closing ends delivery right after the opening; when the digest opens and closes cleanly the calls are exactly the opening followed by the notification if the built digest is non-empty, and nothing else; at most one notification, sent exactly when the project exists, the digest opens and closes and the built digest is non-empty; a notification carries the built digest and the project, target type, target identifier and fallthrough choice split from the key |
| `Digests.DeliverDigest` | src/sentry/tasks/digests.py:45-86 | the calls made are exactly `DeliverEffects(key)` |
| `Digests.EmptyDigestNotSent` | src/sentry/tasks/digests.py:68-86 | an empty built digest produces no notification |
| `EnvironmentSerializers.IntDecimal` | src/sentry/api/serializers/models/environment.py:17 | `str(id)` is an optional minus sign followed by digits with no leading zero |
| `EnvironmentSerializers.DecimalRoundTrip` | src/sentry/api/serializers/models/environment.py:17 | parsing `str(id)` gives back `id` |
| `EnvironmentSerializers.SerializeEnvironment` | src/sentry/api/serializers/models/environment.py:16-17 | the dictionary has exactly the keys id and name; id is the decimal string `str(obj.id)` (minus sign iff negative, no leading zero) and parses back to obj.id; name is obj.name |
| `EnvironmentSerializers.SerializeEnvironmentProject` | src/sentry/api/serializers/models/environment.py:22-27 | the dictionary has exactly id, name and isHidden; id is the decimal string `str(obj.id)` and parses back to obj.id; name is the environment's name; isHidden is true iff is_hidden is exactly True (None and False give false) |
| `EnvironmentSerializers.PeriodQuery` | src/sentry/api/serializers/models/environment.py:47-58 | the query asks for the group's item ids; end is `until` or else the clock; without `since` the window is segments * interval long; the rollup is the interval in seconds |
| `EnvironmentSerializers.DefaultWindows` | src/sentry/api/serializers/models/environment.py:31-34 | with no window given, "24h" queries the last 86400 seconds at rollup 3600 and "30d" the last 2592000 seconds at rollup 86400 |
| `EnvironmentSerializers.GroupSeries` | src/sentry/api/serializers/models/environment.py:59-66 | an unsupported backend gives an empty series |
| `EnvironmentSerializers.ItemSeries` | src/sentry/api/serializers/models/environment.py:65-67 | an item's list exists iff every point has a count for the item (otherwise KeyError); it keeps the series' length and order and pairs each timestamp with the count at the item's id |
| `EnvironmentSerializers.NotImplementedGivesEmptyStats` | src/sentry/api/serializers/models/environment.py:59-67 | with NotImplementedError from the backend every item's list for that period is empty |
| `EnvironmentSerializers.AttrsStep` | src/sentry/api/serializers/models/environment.py:64-67 | filling period k into the stats of the first k periods gives the stats of the first k + 1 periods |
| `EnvironmentSerializers.AttrsComplete` | src/sentry/api/serializers/models/environment.py:42-67 | after both periods every item has a stats map whose keys are exactly "24h" and "30d", each holding the item's projection of that period's series |
| `EnvironmentSerializers.GroupEnvironmentWithStatsSerializer.constructor` | src/sentry/api/serializers/models/environment.py:36-39 | stores the group and the optional window bounds |
| `EnvironmentSerializers.GroupEnvironmentWithStatsSerializer.AllPeriodSeries` | src/sentry/api/serializers/models/environment.py:47-62 | one backend series per stats period, in period order: entry m is the group's part of the backend's answer to period m's query (`PeriodSeries`) |
| `EnvironmentSerializers.GroupEnvironmentWithStatsSerializer.CollectIds` | src/sentry/api/serializers/models/environment.py:42-44 | the group's item list holds the ids of the items, one per item, in list order |
| `EnvironmentSerializers.GroupEnvironmentWithStatsSerializer.FetchPeriod` | src/sentry/api/serializers/models/environment.py:47-62 | the series used for period k is the group's part of the backend's answer to that period's query, as `PeriodSeries` |
| `EnvironmentSerializers.GroupEnvironmentWithStatsSerializer.FillPeriod` | src/sentry/api/serializers/models/environment.py:64-67 | succeeds iff every item's projection exists, then sets each item's entry for the period to its projection; on failure it names an item whose projection is missing |
| `EnvironmentSerializers.GroupEnvironmentWithStatsSerializer.GetAttrs` | src/sentry/api/serializers/models/environment.py:41-68 | succeeds iff every item has a projection in every period; the result is keyed by exactly the item ids, and each item's stats equal `AttrsUpTo` of the two periods' backend series; a KeyError names an item missing from some period's series |
| `EnvironmentSerializers.GroupEnvironmentWithStatsSerializer.Serialize` | src/sentry/api/serializers/models/environment.py:70-73 | the plain environment dictionary plus a stats entry equal to the item's attrs stats, and no other key |

## Left out

- Monitor schedule computation (`get_next_expected_checkin`, `get_next_expected_checkin_latest`) is not part of this model. Both are arbitrary functions of `ts`.
- The check-in query of the gate is an input: the newest-first history the store returns. Ordering by `date_added` is not modelled.
- A negative `recovery_threshold` is not modelled: the threshold is a `nat`. The store rejects negative slicing.
- `mark_ok` reads `monitor_env.status` from the object it loaded, while the update acts on the stored row. The model treats both as the same snapshot: the filtered update is one atomic step, and concurrency between workers is not modelled.
- `Digests.DeliverEffects`: the digest store's own behaviour (claims, leases, commit and abort of records) is not modelled. Its answers to `schedule`, `digest` entry and exit are inputs, so nothing is proved about what maintenance or deletion does to the store.
- Exceptions that propagate out of `deliver_digest` are not modelled: those of `split_key` other than Project.DoesNotExist, any failure of `ProjectOption.objects.get_value` (digests.py line 56), failures other than InvalidState raised by the `digests.digest` context manager or by `build_digest` inside it (line 62), and failures of the mail adapter.
- Logging (`logger.info`), `snuba.options_override`, the Celery decorators, queue names and silo mode are not modelled. The logs `build_digest` returns are only logged.
- `time.time()` returns a float. The model uses integer seconds, so the deadline arithmetic is exact integer subtraction.
- `schedule_timestamp` is accepted by `Digests.DeliverDigest` and unused, as in the source.
- `timezone.now()` is read once per stats period. It is the input `now(key)`, so the two periods may see different times. The backend's `TSDBModel` argument is fixed in the source and not represented.
- Datetime and timedelta values become integer seconds; `str(obj.id)` is modelled for integer ids.
