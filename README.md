# Tracker reader, modelled in Dafny

`Tracker\Reader` is the read side of an event tracker that keeps its
counters in Redis. The class does two things:

- It renders Redis keys. Every key is `trk_{appId}` followed by
  `:`-separated segments. When an event id is given, it is the segment
  right after the app id.
- It resolves a counter query (event id, interval, date, user, oid, env)
  to one Redis read. Counter keys have the layout
  `trk_{appId}:{eventId}:{interval}[:{date}][:user:{user}][:oid:{oid}]:env:{env|all}:counts`.
  A user filter of exactly `"unique"` selects a BITCOUNT of that key.
  Any other user, or none, selects a GET whose value is cast to an integer.

Around these sit three collection getters (the captured events set, and
the objects and envs hashes of an event) and twelve per-granularity
facades that forward to the resolver.

Files:

- `keys.dfy` (module `Keys`): PHP's `join` with the inverse `Split`. It
  proves the round trip in both directions. So keys whose segments hold no
  `:` are unambiguous.
- `reader.dfy` (module `Tracker`): the reader.
  - `Reader` is a datatype, because its fields are set once in the
    constructor and never change.
  - `BuildKeyName`, `CounterSegments` and `GetCounts` are methods that
    follow the source's in-place array edits.
  - `BuildKeyName` is proved against the function `KeyName`, and
    `GetCounts` against the function `CounterRead`.
  - `CounterSegments` states the segment layout position by position.
    `LayoutDeterminesSegments` proves that this layout fixes the explicit
    segment list.
  - `CounterRead` is defined on `CounterKey`, the wire-format key written
    out as a string.
  - The getters and facades are functions. Each returns the `Read` it
    performs: `SMembers`, `HGetAll`, `Get` or `BitCount`, with its key.
- `redis.dfy` (module `Redis`): an in-memory keyspace that answers those
  reads.
- `optional.dfy`: `Option`, for PHP's nullable arguments.

`getCounts` is one PHP method. It is modelled by two Dafny methods, split
where the source puts its separator comment (line 158):
- `CounterSegments` builds the segment list and the bit-count flag.
- `GetCounts` renders the key and picks the read.

Four behaviours of the code worth knowing:

- `getCounts` keeps any date it is given, also after `total`. Only
  `getEventTotalCounts` leaves the date out, by passing `null`
  (`TotalIntervalKeepsGivenDate`).
- The envs hash key carries the event id: `trk_{appId}:{eventId}:hashed:env`
  (`EventEnvs`).
- The event id cannot be told from a key alone: `buildKeyName(['x','y'])`
  and `buildKeyName(['y'], 'x')` both give `trk_{appId}:x:y`
  (`EventIdCollision`).
- A non-numeric stored value is cast, not rejected, and an empty app id is
  accepted. The model does the same.

## Model

| member | source | states |
|---|---|---|
| `Keys.SplitJoin` | src/Reader.php:76 | splitting a `:`-join at `:` gives back the parts, when no part holds `:` |
| `Keys.JoinSplit` | src/Reader.php:76 | joining the pieces of any split gives back the string, so every string is the join of some `:`-free parts |
| `Keys.JoinInjective` | src/Reader.php:76 | two non-empty lists of `:`-free parts with the same join are equal |
| `Keys.Join` | src/Reader.php:76 | PHP's `join`; `SplitJoin` and `JoinSplit` prove it inverse to splitting at `:`, and `JoinInjective` that it is one-to-one on `:`-free parts |
| `Keys.JoinAppend` | src/Reader.php:76 | for non-empty halves, joining a concatenation is joining each half with one separator between |
| `Tracker.Reader.KeyName` | src/Reader.php:67-77 | the key `buildKeyName` returns; `BuildKeyName` is proved equal to it, and `KeyNameRoundTrip` parses it back into app id, event id and segments |
| `Tracker.Reader.BuildKeyName` | src/Reader.php:67-77 | the key is `trk_` then the join of app id, event id (when given) and the segments; it always starts with `trk_{appId}` |
| `Tracker.Reader.KeyNameRoundTrip` | src/Reader.php:67-77 | parsing a key gives back app id, event id and segments when none holds `:`, so the event id is the second segment |
| `Tracker.Reader.ParsedKeyRebuilds` | src/Reader.php:67-77 | any key whose first `:`-segment after `trk_` is the app id is the key of the remaining segments it parses into |
| `Tracker.Reader.KeyNameInjective` | src/Reader.php:67-77 | keys built from `:`-free segments differ whenever the event id followed by the segments differs |
| `Tracker.EventIdCollision` | src/Reader.php:67-77 | with app id `a`, segments `x`, `y` without an event id and segment `y` under event id `x` give the same key |
| `Tracker.Reader.CapturedEvents` | src/Reader.php:82-87 | reads the set at `trk_{appId}:events` |
| `Tracker.Reader.EventObjects` | src/Reader.php:94-99 | reads the hash at `trk_{appId}:{eventId}:hashed:oid` |
| `Tracker.Reader.EventEnvs` | src/Reader.php:106-111 | reads the hash at `trk_{appId}:{eventId}:hashed:env` |
| `Tracker.Reader.Members` | src/Reader.php:82-87 | the set a `getCapturedEvents` read returns: the stored set, empty for an absent key |
| `Tracker.Reader.Fields` | src/Reader.php:94-111 | the hash a `getEventObjects` or `getEventEnvs` read returns: the stored hash, empty for an absent key |
| `Tracker.CounterSegments` | src/Reader.php:125-153 | the first segment is the interval, or `interval:date`; when a user is given, `user:{user}` is second; the list has three segments plus one per given user or oid; when an oid is given, `oid:{oid}` is third from last; then `env:` with the env or `all`; last is `counts`; the flag is set iff the user is exactly `"unique"` |
| `Tracker.LayoutDeterminesSegments` | src/Reader.php:127-153 | the layout above fixes the segment list completely, with nothing defaulted for user or oid |
| `Tracker.Reader.CounterKey` | src/Reader.php:127-156 | the wire-format counter key; `CounterKeyRendered` proves it is the joined segment list, `CounterKeyTokens` gives its exact token list |
| `Tracker.Reader.CounterRead` | src/Reader.php:156-167 | the read of `getCounts`; `CounterReadDispatch` proves it a BITCOUNT iff the user is `"unique"`, a GET otherwise, of `CounterKey` |
| `Tracker.Reader.GetCounts` | src/Reader.php:123-168 | the read is a BITCOUNT of the wire-format key when the user is `"unique"`, a GET of that key otherwise |
| `Tracker.Reader.CounterKeyRendered` | src/Reader.php:127-156 | the segment list joined under app id and event id is exactly the wire-format key |
| `Tracker.Reader.CounterKeyTokens` | src/Reader.php:127-156 | with `:`-free arguments, the key splits into app id, event id, interval, the date when given, `user`/user and `oid`/oid when given, `env`, env or `all`, `counts` |
| `Tracker.Reader.CounterReadDispatch` | src/Reader.php:137-167 | bit count iff the user is exactly `"unique"`, plain get for any other user or none |
| `Tracker.Reader.Count` | src/Reader.php:160-167 | an absent key counts 0 for both reads; a bit count is between 0 and 8 per stored byte; a present GET value goes through the integer cast |
| `Tracker.Reader.EventHourCounts` | src/Reader.php:179-182 | `EventFacadeLayout`: `hour` after the event id, then the date and the filters; the user picks the read |
| `Tracker.Reader.AppHourCounts` | src/Reader.php:192-195 | `AppFacadesUseAllEvents`: the hour facade for event `"all"` |
| `Tracker.Reader.EventDayCounts` | src/Reader.php:206-209 | `EventFacadeLayout`: `day` after the event id, then the date and the filters; the user picks the read |
| `Tracker.Reader.AppDayCounts` | src/Reader.php:219-222 | `AppFacadesUseAllEvents`: the day facade for event `"all"` |
| `Tracker.Reader.EventWeekCounts` | src/Reader.php:233-236 | `EventFacadeLayout`: `week` after the event id, then the date and the filters; the user picks the read |
| `Tracker.Reader.AppWeekCounts` | src/Reader.php:246-249 | `AppFacadesUseAllEvents`: the week facade for event `"all"` |
| `Tracker.Reader.EventMonthCounts` | src/Reader.php:260-263 | `EventFacadeLayout`: `month` after the event id, then the date and the filters; the user picks the read |
| `Tracker.Reader.AppMonthCounts` | src/Reader.php:273-276 | `AppMonthCountsShifted`: the arguments land one place left, and `AppMonthCountsMisreads`: never the month counter of `"all"` |
| `Tracker.Reader.AppMonthCountsIntended` | src/Reader.php:260-263 | `AppMonthCountsIntendedLayout`: the month counter of event `"all"`, as the sibling app facades are |
| `Tracker.Reader.EventYearCounts` | src/Reader.php:287-290 | `EventFacadeLayout`: `year` after the event id, then the date and the filters; the user picks the read |
| `Tracker.Reader.AppYearCounts` | src/Reader.php:300-303 | `AppFacadesUseAllEvents`: the year facade for event `"all"` |
| `Tracker.Reader.EventTotalCounts` | src/Reader.php:313-316 | `EventTotalLayout`: no date; right after `total` come the filters; the user picks the read |
| `Tracker.Reader.AppTotalCounts` | src/Reader.php:325-328 | `AppFacadesUseAllEvents`: the total facade for event `"all"` |
| `Tracker.Reader.EventFacadeLayout` | src/Reader.php:179-290 | the hour, day, week, month and year event facades put their own interval literal right after the event id, then the date and the filters; the user alone picks the read |
| `Tracker.Reader.EventTotalLayout` | src/Reader.php:313-316 | the total facade key has no date: right after `total` comes `user`, `oid` or `env` |
| `Tracker.Reader.TotalIntervalKeepsGivenDate` | src/Reader.php:130 | `getCounts` itself keeps a given date after the `total` interval |
| `Tracker.Reader.AppFacadesUseAllEvents` | src/Reader.php:192-328 | the app hour, day, week, year and total facades equal the event facades for event id `"all"` |
| `Tracker.Reader.AppMonthCountsShifted` | src/Reader.php:273-276 | the app month facade as written: the date takes the interval's place, the user the date's, the oid is read as the user filter and alone picks a bit count, the env is read as the oid, and the env segment is always `all` |
| `Tracker.Reader.AppMonthCountsMisreads` | src/Reader.php:260-276 | for any `:`-free arguments, the app month facade reads a different key than the month counter of event `"all"` |
| `Tracker.Reader.AppMonthCountsIntendedLayout` | src/Reader.php:260-263 | the corrected app month facade has the month layout of its siblings and dispatches on the user |
| `Tracker.DayKeyFor42` | src/Reader.php:206-209 | event `signup`, app `42`, day `20240115`, no filters: GET of `trk_42:signup:day:20240115:env:all:counts` |
| `Tracker.UniqueDayKeyFor42` | src/Reader.php:137-140 | the same query with user `unique`: BITCOUNT of `trk_42:signup:day:20240115:user:unique:env:all:counts` |
| `Tracker.TotalKeyFor42` | src/Reader.php:313-316 | total counter with every filter: GET of `trk_42:signup:total:user:bob:oid:7:env:prod:counts` |
| `Tracker.AppMonthCountsCounterexample` | src/Reader.php:273-276 | app month counts for `202401`, no filters: GET of `trk_42:all:202401:env:all:counts`, with no `month` segment |
| `Tracker.AppMonthCountsIntendedFor42` | src/Reader.php:260-263 | the corrected facade on the same query: GET of `trk_42:all:month:202401:env:all:counts` |
| `Redis.SMembers` | src/Reader.php:86 | SMEMBERS: the stored set, empty for an absent key |
| `Redis.HGetAll` | src/Reader.php:98 | HGETALL: the stored hash, empty for an absent key |
| `Redis.Get` | src/Reader.php:167 | GET: the stored value, nothing (the client's `false`) for an absent key |
| `Redis.BitCount` | src/Reader.php:163 | BITCOUNT of an absent key is 0, of a present value at most 8 per byte |

## Findings

| source | as written | input that shows it | evidently intended | confidence | as-written member | corrected member |
|---|---|---|---|---|---|---|
| src/Reader.php:275 | `getAppMonthCounts` calls the resolver with no `'month'` argument, so every argument shifts one place left | app id `42`, date `202401`, no filters: key `trk_42:all:202401:env:all:counts`; an oid of `unique` makes it a bit count | the month counter of event `"all"`, as the other five app facades do: `trk_42:all:month:202401:env:all:counts` | high (not executed) | `Tracker.Reader.AppMonthCountsShifted` | `Tracker.Reader.AppMonthCountsIntendedLayout` |

`AppMonthCounts` keeps the behaviour as written, because that is what
callers of the PHP class get. The corrected facade is
`AppMonthCountsIntended`.

## Left out

- Redis itself is an external service: connection setup, the `getRedis`
  accessor, network and protocol failures, and retries are not modelled.
  The reader's reads are `Read` values. `Redis.Store` answers them from
  in-memory maps.
- Redis type errors (WRONGTYPE) are not modelled. The store keeps strings,
  sets and hashes in separate maps.
- `Tracker.Reader.Count`: PHP's `(int)` cast of a stored string is the
  parameter `intCast`. The only fact modelled is that an absent value
  (the client's `false`) gives 0. PHP's numeric-prefix parsing is not modelled.
- PHP `null` passed for a required parameter is not modelled. This covers
  the event id of the facades and getters, and the date of the dated
  facades; they are typed `string`. The optional parameters are `Option`,
  and so is the event id of `buildKeyName`.
- Non-string arguments (integers for the app id, event id or date) and
  PHP's string coercion of them are not modelled. The app id is taken as
  the string `getAppId` would return.
- `getNamespace` only returns the constant `trk`, which is `Tracker.Namespace`.
- The worked examples write their expected keys as concatenations of
  literals, because the solver cannot cheaply merge long string literals.
  The text is the same.
