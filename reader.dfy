/** The tracker reader: renders the Redis key of a counter or collection and
    names the Redis read that answers a query.

    Every key is `trk_{appId}` followed by `:`-separated segments. Counter
    keys follow the layout
      trk_{appId}:{eventId}:{interval}[:{date}][:user:{user}][:oid:{oid}]:env:{env|all}:counts
    and are answered by BITCOUNT when the user filter is exactly "unique",
    by GET (cast to an integer) otherwise.
 */
module Tracker {
  import opened Optional
  import opened Keys
  import Redis

  /** The reader's namespace, the first part of every key. */
  const Namespace: string := "trk"
  const Delimiter: char := ':'
  /** The user filter that selects a unique (bit-set) count. */
  const UniqueUser: string := "unique"
  /** The event id of the app-wide facades and the env of an unfiltered count. */
  const All: string := "all"

  /** The Redis read the reader performs, by command and key. */
  datatype Read =
    | SMembers(key: string)
    | HGetAll(key: string)
    | Get(key: string)
    | BitCount(key: string)

  /** The event id as a list of at most one leading segment. */
  function EventSegments(eventId: Option<string>): seq<string>
  {
    if eventId.Some? then [eventId.value] else []
  }

  /** The time segment of a counter: the interval, then `:date` when a date is given. */
  function TimeSegment(interval: string, date: Option<string>): string
  {
    interval + (if date.Some? then [Delimiter] + date.value else "")
  }

  /** The env filter, "all" when none is given. */
  function EnvValue(env: Option<string>): string
  {
    if env.Some? then env.value else All
  }

  /** A dimension segment `tag:value`, present only when the filter is given. */
  function Dimension(tag: string, value: Option<string>): seq<string>
  {
    if value.Some? then [tag + [Delimiter] + value.value] else []
  }

  predicate IsUniqueUser(user: Option<string>)
  {
    user == Some(UniqueUser)
  }

  /** `:tag:value` when the filter is given, nothing otherwise. */
  function Infix(tag: string, value: Option<string>): string
  {
    if value.Some? then ":" + tag + ":" + value.value else ""
  }

  /** The joined dimension segment is the `:tag:value` infix of the wire format. */
  lemma DimensionJoined(tag: string, value: Option<string>)
    ensures (if Dimension(tag, value) == [] then "" else [Delimiter] + Join([Delimiter], Dimension(tag, value)))
         == Infix(tag, value)
  {
  }

  /** The string identity behind the wire format: only regrouping of concatenations. */
  lemma Reassociate(p: string, a: string, ev: string, i: string, ds: string, us: string, os: string, e: string)
    ensures p + ((a + ":" + ev + ":" + (i + ds)) + us + os + ":" + ("env:" + e + ":" + "counts"))
         == p + a + ":" + ev + ":" + i + ds + us + os + ":env:" + e + ":counts"
  {
    assert ":env:" == ":" + "env:";
    assert ":counts" == ":" + "counts";
  }

  /** A string that can stand as one key segment: it holds no `:`. */
  predicate Plain(s: string)
  {
    Delimiter !in s
  }

  predicate PlainOption(o: Option<string>)
  {
    o.Some? ==> Plain(o.value)
  }

  /** The date as a token of its own, when given. */
  function DateTokens(date: Option<string>): seq<string>
  {
    if date.Some? then [date.value] else []
  }

  /** A dimension as the two tokens `tag`, `value`, when the filter is given. */
  function TagTokens(tag: string, value: Option<string>): seq<string>
  {
    if value.Some? then [tag, value.value] else []
  }

  /** The tokens of a counter key after the interval and date: user, oid, env, "counts". */
  function FilterTokens(user: Option<string>, oid: Option<string>, env: Option<string>): seq<string>
  {
    TagTokens("user", user) + TagTokens("oid", oid) + ["env", EnvValue(env), "counts"]
  }

  /** The same regrouping, for the key written as its fine-grained tokens. */
  lemma RegroupTokens(p: string, a: string, ev: string, i: string, ds: string, us: string, os: string, e: string)
    ensures p + ((a + ":" + ev + ":" + i) + ds + us + os + ":" + ("env" + ":" + e + ":" + "counts"))
         == p + a + ":" + ev + ":" + i + ds + us + os + ":env:" + e + ":counts"
  {
    assert ":env:" == ":" + "env" + ":";
    assert ":counts" == ":" + "counts";
  }

  /** Joining the fine-grained tokens of a counter key, written with the optional infixes. */
  lemma TokensJoined(appId: string, eventId: string, interval: string, date: Option<string>,
                     user: Option<string>, oid: Option<string>, env: Option<string>)
    ensures Join([Delimiter], [appId, eventId, interval] + DateTokens(date) + FilterTokens(user, oid, env))
         == (appId + ":" + eventId + ":" + interval) + (if date.Some? then ":" + date.value else "")
            + Infix("user", user) + Infix("oid", oid) + ":" + ("env" + ":" + EnvValue(env) + ":" + "counts")
  {
    var sep := [Delimiter];
    var h := [appId, eventId, interval];
    var d := DateTokens(date);
    var u := TagTokens("user", user);
    var o := TagTokens("oid", oid);
    var t := ["env", EnvValue(env), "counts"];
    assert h + d + FilterTokens(user, oid, env) == h + d + u + o + t;
    var ds := if date.Some? then ":" + date.value else "";
    JoinOfThree(sep, appId, eventId, interval);
    JoinMaybeTail(sep, h, d);
    assert (if d == [] then "" else sep + Join(sep, d)) == ds;
    var j2 := Join(sep, h + d);
    assert j2 == (appId + ":" + eventId + ":" + interval) + ds;
    JoinMaybeTail(sep, h + d, u);
    if user.Some? { JoinCons(sep, "user", [user.value]); }
    assert (if u == [] then "" else sep + Join(sep, u)) == Infix("user", user);
    var j3 := Join(sep, h + d + u);
    assert j3 == j2 + Infix("user", user);
    JoinMaybeMiddle(sep, h + d + u, o, t);
    if oid.Some? { JoinCons(sep, "oid", [oid.value]); }
    assert (if o == [] then "" else sep + Join(sep, o)) == Infix("oid", oid);
    JoinOfThree(sep, "env", EnvValue(env), "counts");
    assert Join(sep, h + d + u + o + t) == j3 + Infix("oid", oid) + sep + Join(sep, t);
  }

  /** The segments a key splits into after `trk_`, if it starts with `trk_`. */
  function ParseKey(key: string): Option<seq<string>>
  {
    var head := Namespace + "_";
    if head <= key then Some(Split(Delimiter, key[|head|..])) else None
  }

  /** The segment list of a counter key, as `getCounts` builds it, in order:
      time, optional user, optional oid, env, "counts"; and whether the read is
      a bit count. */
  method CounterSegments(interval: string, date: Option<string>, user: Option<string>,
                         oid: Option<string>, env: Option<string>)
    returns (params: seq<string>, isBit: bool)
    ensures |params| == 3 + |Dimension("user", user)| + |Dimension("oid", oid)|
    ensures params[0] == TimeSegment(interval, date)
    ensures user.Some? ==> params[1] == "user:" + user.value
    ensures oid.Some? ==> params[|params| - 3] == "oid:" + oid.value
    ensures params[|params| - 2] == "env:" + EnvValue(env)
    ensures params[|params| - 1] == "counts"
    ensures isBit <==> IsUniqueUser(user)
  {
    isBit := false;
    params := [];
    params := params + [TimeSegment(interval, date)];
    if user.Some? {
      params := params + ["user:" + user.value];
      if user.value == UniqueUser {
        isBit := true;
      }
    }
    if oid.Some? {
      params := params + ["oid:" + oid.value];
    }
    params := params + ["env:" + EnvValue(env)];
    params := params + ["counts"];
  }

  /** The layout `CounterSegments` promises fixes the segment list completely. */
  lemma LayoutDeterminesSegments(params: seq<string>, interval: string, date: Option<string>,
                                 user: Option<string>, oid: Option<string>, env: Option<string>)
    requires |params| == 3 + |Dimension("user", user)| + |Dimension("oid", oid)|
    requires params[0] == TimeSegment(interval, date)
    requires user.Some? ==> params[1] == "user:" + user.value
    requires oid.Some? ==> params[|params| - 3] == "oid:" + oid.value
    requires params[|params| - 2] == "env:" + EnvValue(env)
    requires params[|params| - 1] == "counts"
    ensures params == [TimeSegment(interval, date)] + Dimension("user", user) + Dimension("oid", oid)
                      + ["env:" + EnvValue(env), "counts"]
  {
    var expected := [TimeSegment(interval, date)] + Dimension("user", user) + Dimension("oid", oid)
                    + ["env:" + EnvValue(env), "counts"];
    assert |expected| == |params|;
    forall i | 0 <= i < |params|
      ensures params[i] == expected[i]
    {
      if user.Some? && i == 1 {
        assert expected[1] == "user:" + user.value;
      }
    }
  }

  /** A reader bound to one Redis connection and one app id. Nothing in it
      changes after construction. */
  datatype Reader = Reader(redis: Redis.Store, appId: string) {

    /** `trk_{appId}`: how every key of this app starts. */
    function AppPrefix(): string
    {
      Namespace + "_" + appId
    }

    /** The key for segments `name` under the app id and, when given, the event id. */
    function KeyName(name: seq<string>, eventId: Option<string>): string
    {
      Namespace + "_" + Join([Delimiter], [appId] + EventSegments(eventId) + name)
    }

    /** buildKeyName: put the event id, then the app id, in front of the
        segments, join them with `:` and prefix the namespace. */
    method BuildKeyName(name: seq<string>, eventId: Option<string>) returns (key: string)
      ensures key == KeyName(name, eventId)
      ensures AppPrefix() <= key
    {
      var parts := name;
      if eventId.Some? {
        parts := [eventId.value] + parts;
      }
      parts := [appId] + parts;
      assert parts == [appId] + EventSegments(eventId) + name;
      key := Namespace + "_" + Join([Delimiter], parts);
      JoinStartsWithHead([Delimiter], parts);
    }

    /** Parsing a key gives back the app id, the event id and the segments
        it was built from, when none of them holds a `:`. */
    lemma KeyNameRoundTrip(name: seq<string>, eventId: Option<string>)
      requires Avoids(Delimiter, [appId] + EventSegments(eventId) + name)
      ensures ParseKey(KeyName(name, eventId)) == Some([appId] + EventSegments(eventId) + name)
    {
      var parts := [appId] + EventSegments(eventId) + name;
      SplitJoin(Delimiter, parts);
      var key := KeyName(name, eventId);
      assert key[|Namespace + "_"|..] == Join([Delimiter], parts);
    }

    /** Every key of this app is the key of the segments it parses into. */
    lemma ParsedKeyRebuilds(key: string, segments: seq<string>)
      requires ParseKey(key) == Some(segments)
      requires segments[0] == appId
      ensures KeyName(segments[1..], None) == key
    {
      var head := Namespace + "_";
      JoinSplit(Delimiter, key[|head|..]);
      assert [appId] + EventSegments(None) + segments[1..] == segments;
    }

    /** Keys built from `:`-free segments are distinct when the segment lists are. */
    lemma KeyNameInjective(name1: seq<string>, eventId1: Option<string>,
                           name2: seq<string>, eventId2: Option<string>)
      requires Avoids(Delimiter, [appId] + EventSegments(eventId1) + name1)
      requires Avoids(Delimiter, [appId] + EventSegments(eventId2) + name2)
      requires KeyName(name1, eventId1) == KeyName(name2, eventId2)
      ensures EventSegments(eventId1) + name1 == EventSegments(eventId2) + name2
    {
      KeyNameRoundTrip(name1, eventId1);
      KeyNameRoundTrip(name2, eventId2);
      var p1 := [appId] + EventSegments(eventId1) + name1;
      var p2 := [appId] + EventSegments(eventId2) + name2;
      assert p1[1..] == EventSegments(eventId1) + name1;
      assert p2[1..] == EventSegments(eventId2) + name2;
    }

    /** getCapturedEvents: the set at `trk_{appId}:events`. */
    function CapturedEvents(): (r: Read)
      ensures r == SMembers(AppPrefix() + ":events")
    {
      assert [appId] + EventSegments(None) + ["events"] == [appId] + ["events"];
      JoinCons([Delimiter], appId, ["events"]);
      assert Join([Delimiter], ["events"]) == "events";
      assert AppPrefix() + ":events" == Namespace + "_" + (appId + [Delimiter] + "events");
      SMembers(KeyName(["events"], None))
    }

    /** getEventObjects: the hash at `trk_{appId}:{eventId}:hashed:oid`. */
    function EventObjects(eventId: string): (r: Read)
      ensures r == HGetAll(AppPrefix() + ":" + eventId + ":hashed:oid")
    {
      assert [appId] + EventSegments(Some(eventId)) + ["hashed", "oid"] == [appId] + [eventId, "hashed", "oid"];
      assert [eventId, "hashed", "oid"] == [eventId] + ["hashed", "oid"];
      assert ["hashed", "oid"] == ["hashed"] + ["oid"];
      assert Join([Delimiter], ["oid"]) == "oid";
      JoinCons([Delimiter], "hashed", ["oid"]);
      JoinCons([Delimiter], eventId, ["hashed", "oid"]);
      JoinCons([Delimiter], appId, [eventId, "hashed", "oid"]);
      assert AppPrefix() + ":" + eventId + ":hashed:oid"
          == Namespace + "_" + (appId + [Delimiter] + (eventId + [Delimiter] + ("hashed" + [Delimiter] + "oid")));
      HGetAll(KeyName(["hashed", "oid"], Some(eventId)))
    }

    /** getEventEnvs: the hash at `trk_{appId}:{eventId}:hashed:env`. */
    function EventEnvs(eventId: string): (r: Read)
      ensures r == HGetAll(AppPrefix() + ":" + eventId + ":hashed:env")
    {
      assert [appId] + EventSegments(Some(eventId)) + ["hashed", "env"] == [appId] + [eventId, "hashed", "env"];
      assert [eventId, "hashed", "env"] == [eventId] + ["hashed", "env"];
      assert ["hashed", "env"] == ["hashed"] + ["env"];
      assert Join([Delimiter], ["env"]) == "env";
      JoinCons([Delimiter], "hashed", ["env"]);
      JoinCons([Delimiter], eventId, ["hashed", "env"]);
      JoinCons([Delimiter], appId, [eventId, "hashed", "env"]);
      assert AppPrefix() + ":" + eventId + ":hashed:env"
          == Namespace + "_" + (appId + [Delimiter] + (eventId + [Delimiter] + ("hashed" + [Delimiter] + "env")));
      HGetAll(KeyName(["hashed", "env"], Some(eventId)))
    }

    /** The counter key in its wire format:
        `trk_{appId}:{eventId}:{interval}[:{date}][:user:{user}][:oid:{oid}]:env:{env|all}:counts`. */
    function CounterKey(eventId: string, interval: string, date: Option<string>,
                        user: Option<string>, oid: Option<string>, env: Option<string>): string
    {
      AppPrefix() + ":" + eventId + ":" + interval
        + (if date.Some? then ":" + date.value else "")
        + (if user.Some? then ":user:" + user.value else "")
        + (if oid.Some? then ":oid:" + oid.value else "")
        + ":env:" + EnvValue(env) + ":counts"
    }

    /** The read getCounts performs: a bit count of the counter key when the
        user filter is "unique", a plain get otherwise. */
    function CounterRead(eventId: string, interval: string, date: Option<string>,
                         user: Option<string>, oid: Option<string>, env: Option<string>): Read
    {
      var key := CounterKey(eventId, interval, date, user, oid, env);
      if IsUniqueUser(user) then BitCount(key) else Get(key)
    }

    /** The counter segments joined under app id and event id give the wire-format key. */
    lemma CounterKeyRendered(params: seq<string>, eventId: string, interval: string, date: Option<string>,
                             user: Option<string>, oid: Option<string>, env: Option<string>)
      requires params == [TimeSegment(interval, date)] + Dimension("user", user) + Dimension("oid", oid)
                         + ["env:" + EnvValue(env), "counts"]
      ensures KeyName(params, Some(eventId)) == CounterKey(eventId, interval, date, user, oid, env)
    {
      var ds := if date.Some? then ":" + date.value else "";
      var us := if user.Some? then ":user:" + user.value else "";
      var os := if oid.Some? then ":oid:" + oid.value else "";
      var e := EnvValue(env);
      assert TimeSegment(interval, date) == interval + ds;
      assert Infix("user", user) == us;
      assert Infix("oid", oid) == os;
      CounterSegmentsJoined(params, eventId, interval, date, user, oid, env);
      var joined := Join([Delimiter], [appId] + EventSegments(Some(eventId)) + params);
      assert joined == (appId + ":" + eventId + ":" + (interval + ds)) + us + os + ":" + ("env:" + e + ":" + "counts");
      Reassociate(Namespace + "_", appId, eventId, interval, ds, us, os, e);
      assert CounterKey(eventId, interval, date, user, oid, env)
          == Namespace + "_" + appId + ":" + eventId + ":" + interval + ds + us + os + ":env:" + e + ":counts";
    }

    lemma CounterSegmentsJoined(params: seq<string>, eventId: string, interval: string, date: Option<string>,
                                user: Option<string>, oid: Option<string>, env: Option<string>)
      requires params == [TimeSegment(interval, date)] + Dimension("user", user) + Dimension("oid", oid)
                         + ["env:" + EnvValue(env), "counts"]
      ensures Join([Delimiter], [appId] + EventSegments(Some(eventId)) + params)
           == (appId + ":" + eventId + ":" + TimeSegment(interval, date)) + Infix("user", user) + Infix("oid", oid)
              + ":" + ("env:" + EnvValue(env) + ":" + "counts")
    {
      var sep := [Delimiter];
      var time := TimeSegment(interval, date);
      var head := [appId, eventId, time];
      var u := Dimension("user", user);
      var o := Dimension("oid", oid);
      var tail := ["env:" + EnvValue(env), "counts"];
      assert [appId] + EventSegments(Some(eventId)) + params == head + u + o + tail;
      JoinMaybeMiddle(sep, head + u, o, tail);
      JoinMaybeTail(sep, head, u);
      JoinOfThree(sep, appId, eventId, time);
      JoinCons(sep, "env:" + EnvValue(env), ["counts"]);
      DimensionJoined("user", user);
      DimensionJoined("oid", oid);
    }

    /** The counter key splits into app id, event id, interval, the date when
        given, `user`/user and `oid`/oid when given, then `env`, the env or
        "all", and `counts` -- provided no argument holds a `:`. */
    lemma {:induction false} CounterKeyTokens(eventId: string, interval: string, date: Option<string>,
                                              user: Option<string>, oid: Option<string>, env: Option<string>)
      requires Plain(appId) && Plain(eventId) && Plain(interval)
      requires PlainOption(date) && PlainOption(user) && PlainOption(oid) && PlainOption(env)
      ensures ParseKey(CounterKey(eventId, interval, date, user, oid, env))
           == Some([appId, eventId, interval] + DateTokens(date) + FilterTokens(user, oid, env))
    {
      var tokens := [appId, eventId, interval] + DateTokens(date) + FilterTokens(user, oid, env);
      var head := [appId, eventId, interval] + DateTokens(date) + TagTokens("user", user);
      assert tokens == head + TagTokens("oid", oid) + ["env", EnvValue(env), "counts"];
      CounterTokensJoined(eventId, interval, date, user, oid, env);
      assert Avoids(Delimiter, tokens) by {
        forall i | 0 <= i < |tokens| ensures Delimiter !in tokens[i] {
          var prefix := [appId, eventId, interval] + DateTokens(date);
          if i >= |prefix| + |TagTokens("user", user)| + |TagTokens("oid", oid)| {
          } else if i >= |prefix| {
          }
        }
      }
      SplitJoin(Delimiter, tokens);
      var key := CounterKey(eventId, interval, date, user, oid, env);
      assert key[|Namespace + "_"|..] == Join([Delimiter], tokens);
    }

    /** The fine-grained tokens of a counter key joined with `:` give the key after `trk_`. */
    lemma CounterTokensJoined(eventId: string, interval: string, date: Option<string>,
                              user: Option<string>, oid: Option<string>, env: Option<string>)
      ensures Namespace + "_" + Join([Delimiter], [appId, eventId, interval] + DateTokens(date) + FilterTokens(user, oid, env))
           == CounterKey(eventId, interval, date, user, oid, env)
    {
      var ds := if date.Some? then ":" + date.value else "";
      var us := if user.Some? then ":user:" + user.value else "";
      var os := if oid.Some? then ":oid:" + oid.value else "";
      var e := EnvValue(env);
      assert Infix("user", user) == us;
      assert Infix("oid", oid) == os;
      TokensJoined(appId, eventId, interval, date, user, oid, env);
      RegroupTokens(Namespace + "_", appId, eventId, interval, ds, us, os, e);
    }

    /** getCounts: builds the counter segments, renders the key under the
        event id and picks BITCOUNT or GET. */
    method GetCounts(eventId: string, interval: string, date: Option<string>,
                     user: Option<string>, oid: Option<string>, env: Option<string>)
      returns (read: Read)
      ensures read == CounterRead(eventId, interval, date, user, oid, env)
    {
      var params, isBit := CounterSegments(interval, date, user, oid, env);
      var key := BuildKeyName(params, Some(eventId));
      LayoutDeterminesSegments(params, interval, date, user, oid, env);
      CounterKeyRendered(params, eventId, interval, date, user, oid, env);
      if isBit {
        read := BitCount(key);
      } else {
        read := Get(key);
      }
    }

    // The per-granularity facades. Each forwards to getCounts with a fixed
    // interval literal; the app-wide ones use the event id "all".

    /** getEventHourCounts: `date` is the hour bucket (YYYYMMDDHH). */
    function EventHourCounts(eventId: string, date: string, user: Option<string>, oid: Option<string>,
                             env: Option<string>): Read
    {
      CounterRead(eventId, "hour", Some(date), user, oid, env)
    }

    /** getAppHourCounts */
    function AppHourCounts(date: string, user: Option<string>, oid: Option<string>, env: Option<string>): Read
    {
      EventHourCounts(All, date, user, oid, env)
    }

    /** getEventDayCounts: `date` is the day bucket (YYYYMMDD). */
    function EventDayCounts(eventId: string, date: string, user: Option<string>, oid: Option<string>,
                            env: Option<string>): Read
    {
      CounterRead(eventId, "day", Some(date), user, oid, env)
    }

    /** getAppDayCounts */
    function AppDayCounts(date: string, user: Option<string>, oid: Option<string>, env: Option<string>): Read
    {
      EventDayCounts(All, date, user, oid, env)
    }

    /** getEventWeekCounts: `date` is the week bucket (YYYYWW). */
    function EventWeekCounts(eventId: string, date: string, user: Option<string>, oid: Option<string>,
                             env: Option<string>): Read
    {
      CounterRead(eventId, "week", Some(date), user, oid, env)
    }

    /** getAppWeekCounts */
    function AppWeekCounts(date: string, user: Option<string>, oid: Option<string>, env: Option<string>): Read
    {
      EventWeekCounts(All, date, user, oid, env)
    }

    /** getEventMonthCounts: `date` is the month bucket (YYYYMM). */
    function EventMonthCounts(eventId: string, date: string, user: Option<string>, oid: Option<string>,
                              env: Option<string>): Read
    {
      CounterRead(eventId, "month", Some(date), user, oid, env)
    }

    /** getAppMonthCounts as written: the interval literal is missing, so every
        argument lands one parameter to the left -- the date becomes the
        interval, the user the date, the oid the user, the env the oid, and
        the env is left unset. */
    function AppMonthCounts(date: string, user: Option<string>, oid: Option<string>, env: Option<string>): Read
    {
      CounterRead(All, date, user, oid, env, None)
    }

    /** getAppMonthCounts as its siblings are written: the month counter of event "all". */
    function AppMonthCountsIntended(date: string, user: Option<string>, oid: Option<string>,
                                    env: Option<string>): Read
    {
      EventMonthCounts(All, date, user, oid, env)
    }

    /** getEventYearCounts: `date` is the year bucket (YYYY). */
    function EventYearCounts(eventId: string, date: string, user: Option<string>, oid: Option<string>,
                             env: Option<string>): Read
    {
      CounterRead(eventId, "year", Some(date), user, oid, env)
    }

    /** getAppYearCounts */
    function AppYearCounts(date: string, user: Option<string>, oid: Option<string>, env: Option<string>): Read
    {
      EventYearCounts(All, date, user, oid, env)
    }

    /** getEventTotalCounts: the all-time counter, never date-bucketed. */
    function EventTotalCounts(eventId: string, user: Option<string>, oid: Option<string>, env: Option<string>): Read
    {
      CounterRead(eventId, "total", None, user, oid, env)
    }

    /** getAppTotalCounts */
    function AppTotalCounts(user: Option<string>, oid: Option<string>, env: Option<string>): Read
    {
      EventTotalCounts(All, user, oid, env)
    }

    /** getCounts reads a bit count exactly when the user filter is "unique",
        and a plain get for any other user or none; either way of the
        wire-format counter key. */
    lemma CounterReadDispatch(eventId: string, interval: string, date: Option<string>,
                              user: Option<string>, oid: Option<string>, env: Option<string>)
      ensures CounterRead(eventId, interval, date, user, oid, env).BitCount? <==> user == Some("unique")
      ensures CounterRead(eventId, interval, date, user, oid, env).Get? <==> user != Some("unique")
      ensures CounterRead(eventId, interval, date, user, oid, env).key == CounterKey(eventId, interval, date, user, oid, env)
    {
    }

    /** Each dated event facade puts its own interval literal right after the
        event id, then the date, then the filters; the user filter alone picks
        the read. */
    lemma EventFacadeLayout(eventId: string, date: string, user: Option<string>, oid: Option<string>,
                            env: Option<string>)
      requires Plain(appId) && Plain(eventId) && Plain(date)
      requires PlainOption(user) && PlainOption(oid) && PlainOption(env)
      ensures ParseKey(EventHourCounts(eventId, date, user, oid, env).key)
           == Some([appId, eventId, "hour", date] + FilterTokens(user, oid, env))
      ensures ParseKey(EventDayCounts(eventId, date, user, oid, env).key)
           == Some([appId, eventId, "day", date] + FilterTokens(user, oid, env))
      ensures ParseKey(EventWeekCounts(eventId, date, user, oid, env).key)
           == Some([appId, eventId, "week", date] + FilterTokens(user, oid, env))
      ensures ParseKey(EventMonthCounts(eventId, date, user, oid, env).key)
           == Some([appId, eventId, "month", date] + FilterTokens(user, oid, env))
      ensures ParseKey(EventYearCounts(eventId, date, user, oid, env).key)
           == Some([appId, eventId, "year", date] + FilterTokens(user, oid, env))
      ensures EventHourCounts(eventId, date, user, oid, env).BitCount? <==> IsUniqueUser(user)
      ensures EventDayCounts(eventId, date, user, oid, env).BitCount? <==> IsUniqueUser(user)
      ensures EventWeekCounts(eventId, date, user, oid, env).BitCount? <==> IsUniqueUser(user)
      ensures EventMonthCounts(eventId, date, user, oid, env).BitCount? <==> IsUniqueUser(user)
      ensures EventYearCounts(eventId, date, user, oid, env).BitCount? <==> IsUniqueUser(user)
    {
      assert [appId, eventId, "hour"] + DateTokens(Some(date)) == [appId, eventId, "hour", date];
      assert [appId, eventId, "day"] + DateTokens(Some(date)) == [appId, eventId, "day", date];
      assert [appId, eventId, "week"] + DateTokens(Some(date)) == [appId, eventId, "week", date];
      assert [appId, eventId, "month"] + DateTokens(Some(date)) == [appId, eventId, "month", date];
      assert [appId, eventId, "year"] + DateTokens(Some(date)) == [appId, eventId, "year", date];
      CounterKeyTokens(eventId, "hour", Some(date), user, oid, env);
      CounterKeyTokens(eventId, "day", Some(date), user, oid, env);
      CounterKeyTokens(eventId, "week", Some(date), user, oid, env);
      CounterKeyTokens(eventId, "month", Some(date), user, oid, env);
      CounterKeyTokens(eventId, "year", Some(date), user, oid, env);
    }

    /** The total facade has no date: right after `total` come the filters. */
    lemma EventTotalLayout(eventId: string, user: Option<string>, oid: Option<string>, env: Option<string>)
      requires Plain(appId) && Plain(eventId)
      requires PlainOption(user) && PlainOption(oid) && PlainOption(env)
      ensures ParseKey(EventTotalCounts(eventId, user, oid, env).key)
           == Some([appId, eventId, "total"] + FilterTokens(user, oid, env))
      ensures ParseKey(EventTotalCounts(eventId, user, oid, env).key).value[3]
           == if user.Some? then "user" else if oid.Some? then "oid" else "env"
      ensures EventTotalCounts(eventId, user, oid, env).BitCount? <==> IsUniqueUser(user)
    {
      assert [appId, eventId, "total"] + DateTokens(None) == [appId, eventId, "total"];
      CounterKeyTokens(eventId, "total", None, user, oid, env);
    }

    /** Only the total facade drops the date: getCounts itself keeps a given
        date after the interval, "total" included. */
    lemma TotalIntervalKeepsGivenDate(eventId: string, date: string, user: Option<string>, oid: Option<string>,
                                      env: Option<string>)
      requires Plain(appId) && Plain(eventId) && Plain(date)
      requires PlainOption(user) && PlainOption(oid) && PlainOption(env)
      ensures ParseKey(CounterKey(eventId, "total", Some(date), user, oid, env))
           == Some([appId, eventId, "total", date] + FilterTokens(user, oid, env))
    {
      assert [appId, eventId, "total"] + DateTokens(Some(date)) == [appId, eventId, "total", date];
      CounterKeyTokens(eventId, "total", Some(date), user, oid, env);
    }

    /** The app-wide hour, day, week, year and total facades are the event
        facades for the event id "all". */
    lemma AppFacadesUseAllEvents(date: string, user: Option<string>, oid: Option<string>, env: Option<string>)
      ensures AppHourCounts(date, user, oid, env) == EventHourCounts("all", date, user, oid, env)
      ensures AppDayCounts(date, user, oid, env) == EventDayCounts("all", date, user, oid, env)
      ensures AppWeekCounts(date, user, oid, env) == EventWeekCounts("all", date, user, oid, env)
      ensures AppYearCounts(date, user, oid, env) == EventYearCounts("all", date, user, oid, env)
      ensures AppTotalCounts(user, oid, env) == EventTotalCounts("all", user, oid, env)
    {
    }

    /** getAppMonthCounts as written: the date stands where the interval
        belongs, the user where the date belongs, the oid is read as the user
        filter (so it alone picks a bit count), the env as the oid, and the
        env segment is always "all". */
    lemma AppMonthCountsShifted(date: string, user: Option<string>, oid: Option<string>, env: Option<string>)
      requires Plain(appId) && Plain(date)
      requires PlainOption(user) && PlainOption(oid) && PlainOption(env)
      ensures ParseKey(AppMonthCounts(date, user, oid, env).key)
           == Some([appId, "all", date] + DateTokens(user) + FilterTokens(oid, env, None))
      ensures AppMonthCounts(date, user, oid, env).BitCount? <==> oid == Some("unique")
    {
      CounterKeyTokens(All, date, user, oid, env, None);
    }

    /** The intended app month facade has the layout of its siblings. */
    lemma AppMonthCountsIntendedLayout(date: string, user: Option<string>, oid: Option<string>,
                                       env: Option<string>)
      requires Plain(appId) && Plain(date)
      requires PlainOption(user) && PlainOption(oid) && PlainOption(env)
      ensures ParseKey(AppMonthCountsIntended(date, user, oid, env).key)
           == Some([appId, "all", "month", date] + FilterTokens(user, oid, env))
      ensures AppMonthCountsIntended(date, user, oid, env).BitCount? <==> user == Some("unique")
    {
      EventFacadeLayout(All, date, user, oid, env);
    }

    /** The app month facade as written never reads the key the intended one
        reads. When the date is not "month", the token after "all" differs.
        When it is, the shifted filters would have to make the user "month"
        and, further along, also "all". */
    lemma AppMonthCountsMisreads(date: string, user: Option<string>, oid: Option<string>, env: Option<string>)
      requires Plain(appId) && Plain(date)
      requires PlainOption(user) && PlainOption(oid) && PlainOption(env)
      ensures AppMonthCounts(date, user, oid, env).key != AppMonthCountsIntended(date, user, oid, env).key
    {
      AppMonthCountsShifted(date, user, oid, env);
      AppMonthCountsIntendedLayout(date, user, oid, env);
      var written := [appId, "all", date] + DateTokens(user) + FilterTokens(oid, env, None);
      var intended := [appId, "all", "month", date] + FilterTokens(user, oid, env);
      if date != "month" {
        assert written[2] != intended[2];
      } else if |written| == |intended| {
        assert user.Some? && env.Some?;
        var u, e := user.value, env.value;
        if oid.None? {
          assert written[4] == "oid" && intended[4] == "user";
        } else {
          var o := oid.value;
          assert written[3] == u && intended[3] == "month";
          assert written[5] == o && intended[5] == u;
          assert written[7] == e && intended[7] == o;
          assert written[9] == "all" && intended[9] == e;
        }
      }
      assert written != intended;
    }

    /** The members a set read yields: the stored set, none when the key is absent. */
    function Members(read: Read): (members: set<string>)
      requires read.SMembers?
      ensures read.key in redis.sets ==> members == redis.sets[read.key]
      ensures read.key !in redis.sets ==> members == {}
    {
      Redis.SMembers(redis, read.key)
    }

    /** The field/value pairs a hash read yields: the stored hash, none when the key is absent. */
    function Fields(read: Read): (fields: map<string, string>)
      requires read.HGetAll?
      ensures read.key in redis.hashes ==> fields == redis.hashes[read.key]
      ensures read.key !in redis.hashes ==> fields == map[]
    {
      Redis.HGetAll(redis, read.key)
    }

    /** The integer a counter read yields: BITCOUNT as is, GET cast to an
        integer by PHP's `(int)`, which is given as `intCast`. */
    function Count(read: Read, intCast: seq<Redis.byte> -> int): (n: int)
      requires read.Get? || read.BitCount?
      ensures read.key !in redis.strings ==> n == 0
      ensures read.BitCount? ==> 0 <= n
      ensures read.BitCount? && read.key in redis.strings ==> n <= 8 * |redis.strings[read.key]|
      ensures read.Get? && read.key in redis.strings ==> n == intCast(redis.strings[read.key])
    {
      match read
      case BitCount(key) => Redis.BitCount(redis, key)
      case Get(key) =>
        match Redis.Get(redis, key)
        case None => 0
        case Some(v) => intCast(v)
    }
  }

  // Worked keys for app id 42, each written as the pieces it is built from.

  /** The event id is not recoverable from a key alone: segments `x`, `y`
      without an event id and segment `y` under event id `x` give one key. */
  lemma EventIdCollision(redis: Redis.Store)
    ensures Reader(redis, "a").KeyName(["x", "y"], None) == Reader(redis, "a").KeyName(["y"], Some("x"))
  {
    assert [Reader(redis, "a").appId] + EventSegments(None) + ["x", "y"]
        == [Reader(redis, "a").appId] + EventSegments(Some("x")) + ["y"];
  }

  /** App id 42: a day counter with no filters is a plain get. */
  lemma DayKeyFor42(redis: Redis.Store)
    ensures Reader(redis, "42").EventDayCounts("signup", "20240115", None, None, None)
         == Get("trk" + "_" + "42" + ":" + "signup" + ":" + "day" + ":20240115" + ":env:" + "all" + ":counts")
  {
  }

  /** App id 42: the "unique" user filter turns the same query into a bit count. */
  lemma UniqueDayKeyFor42(redis: Redis.Store)
    ensures Reader(redis, "42").EventDayCounts("signup", "20240115", Some("unique"), None, None)
         == BitCount("trk" + "_" + "42" + ":" + "signup" + ":" + "day" + ":20240115" + ":user:unique"
                     + ":env:" + "all" + ":counts")
  {
  }

  /** App id 42: a total counter with every filter has no date segment. */
  lemma TotalKeyFor42(redis: Redis.Store)
    ensures Reader(redis, "42").EventTotalCounts("signup", Some("bob"), Some("7"), Some("prod"))
         == Get("trk" + "_" + "42" + ":" + "signup" + ":" + "total" + ":user:bob" + ":oid:7"
                + ":env:" + "prod" + ":counts")
  {
  }

  /** App id 42: getAppMonthCounts as written: the month literal is missing from the key. */
  lemma AppMonthCountsCounterexample(redis: Redis.Store)
    ensures Reader(redis, "42").AppMonthCounts("202401", None, None, None)
         == Get("trk" + "_" + "42" + ":" + "all" + ":" + "202401" + ":env:" + "all" + ":counts")
  {
  }

  /** App id 42: the intended app month facade keeps the month literal. */
  lemma AppMonthCountsIntendedFor42(redis: Redis.Store)
    ensures Reader(redis, "42").AppMonthCountsIntended("202401", None, None, None)
         == Get("trk" + "_" + "42" + ":" + "all" + ":" + "month" + ":202401" + ":env:" + "all" + ":counts")
  {
  }
}
