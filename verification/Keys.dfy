/** Derived idempotency keys, and the MQTT topic they are derived from. */
module Keys {
  import opened Prelude
  import opened Jobs
  import opened Store
  import opened Broker
  import opened Text
  import Serial
  import Protocol
  import Idempotency

  // ----- the topic -----

  /** The pieces of `s` between slashes. */
  function Split(s: string): (parts: seq<string>)
    ensures |parts| > 0
  {
    if s == "" then [""] else Prepend(s[0], Split(s[1..]))
  }

  /** A slash starts a new piece, any other character extends the first. */
  function Prepend(c: char, parts: seq<string>): (r: seq<string>)
    requires |parts| > 0
    ensures |r| > 0
  {
    if c == '/' then [""] + parts else [[c] + parts[0]] + parts[1..]
  }

  /** The device a telemetry topic names. */
  function TopicDevice(topic: string): Option<string> {
    var parts := Split(topic);
    if |parts| != 3 || parts[0] != "devices" || parts[2] != "telemetry" then None else Some(parts[1])
  }

  function Join(parts: seq<string>): string {
    if parts == [] then "" else if |parts| == 1 then parts[0] else parts[0] + "/" + Join(parts[1..])
  }

  lemma JoinCons(piece: string, rest: seq<string>)
    requires |rest| > 0
    ensures Join([piece] + rest) == piece + "/" + Join(rest)
  {
    assert ([piece] + rest)[1..] == rest;
  }

  lemma JoinExtend(c: char, piece: string, rest: seq<string>)
    ensures Join([[c] + piece] + rest) == [c] + Join([piece] + rest)
  {
    if |rest| > 0 {
      JoinCons([c] + piece, rest);
      JoinCons(piece, rest);
      Regroup([c], piece, "/" + Join(rest));
      Regroup(piece, "/", Join(rest));
      Regroup([c] + piece, "/", Join(rest));
    }
  }

  lemma Blank(text: string)
    ensures "" + "/" + text == ['/'] + text
  {
  }

  lemma JoinSlash(parts: seq<string>)
    requires |parts| > 0
    ensures Join([""] + parts) == ['/'] + Join(parts)
  {
    JoinCons("", parts);
    Blank(Join(parts));
  }

  lemma JoinLetter(c: char, parts: seq<string>)
    requires |parts| > 0
    ensures Join([[c] + parts[0]] + parts[1..]) == [c] + Join(parts)
  {
    JoinExtend(c, parts[0], parts[1..]);
    assert [parts[0]] + parts[1..] == parts;
  }

  lemma JoinPrepend(c: char, parts: seq<string>)
    requires |parts| > 0
    ensures Join(Prepend(c, parts)) == [c] + Join(parts)
  {
    if c == '/' {
      JoinSlash(parts);
    } else {
      JoinLetter(c, parts);
    }
  }

  predicate NoSlashes(parts: seq<string>) {
    forall i :: 0 <= i < |parts| ==> '/' !in parts[i]
  }

  lemma {:induction false} JoinSplit(s: string)
    ensures Join(Split(s)) == s && NoSlashes(Split(s))
  {
    if s != "" {
      JoinSplit(s[1..]);
      JoinPrepend(s[0], Split(s[1..]));
      assert [s[0]] + s[1..] == s;
    }
  }

  lemma PrependFirst(c: char, piece: string, rest: seq<string>)
    requires c != '/'
    ensures Prepend(c, [piece] + rest) == [[c] + piece] + rest
  {
  }

  lemma SplitSlash(tail: string)
    ensures Split("/" + tail) == [""] + Split(tail)
  {
    assert ("/" + tail)[1..] == tail;
  }

  lemma {:induction false} SplitJoin(piece: string, tail: string)
    requires '/' !in piece
    ensures Split(piece) == [piece] && Split(piece + "/" + tail) == [piece] + Split(tail)
  {
    if piece == "" {
      SplitSlash(tail);
      assert piece + "/" + tail == "/" + tail;
    } else {
      var c, rest := piece[0], piece[1..];
      SplitJoin(rest, tail);
      assert piece == [c] + rest;
      assert (piece + "/" + tail)[1..] == rest + "/" + tail;
      PrependFirst(c, rest, Split(tail));
      PrependFirst(c, rest, []);
    }
  }

  function Slashed(a: string, b: string, c: string): string {
    a + "/" + (b + "/" + c)
  }

  lemma ThreePieces(s: string, a: string, b: string, c: string)
    requires '/' !in a && '/' !in c
    ensures Split(s) == [a, b, c] <==> s == Slashed(a, b, c) && '/' !in b
  {
    if s == Slashed(a, b, c) && '/' !in b {
      SplitJoin(a, b + "/" + c);
      SplitJoin(b, c);
      SplitJoin(c, "");
    }
    if Split(s) == [a, b, c] {
      JoinSplit(s);
      assert Split(s)[1] == b;
      assert [a, b, c][1..] == [b, c] && [b, c][1..] == [c];
      assert Join([b, c]) == b + "/" + Join([c]);
    }
  }

  /** A topic is accepted, with device `d`, exactly when it is devices/d/telemetry and `d` is one topic level. */
  lemma TopicNamesDevice(topic: string, d: string)
    ensures TopicDevice(topic) == Some(d) <==> topic == Slashed("devices", d, "telemetry") && '/' !in d
  {
    ThreePieces(topic, "devices", d, "telemetry");
    assert TopicDevice(topic) == Some(d) ==> Split(topic) == ["devices", d, "telemetry"];
  }

  // ----- the keys -----

  /** The key of a device's telemetry in one minute; a negative minute prints with its sign. */
  function MinuteKey(d: string, minute: int): string {
    "mqtt-" + (d + "-" + FormatInt(minute))
  }

  /** The key of a device's telemetry that arrives at `now`. */
  function TelemetryKey(d: string, now: int): string {
    MinuteKey(d, Minute(now))
  }

  /** Unix seconds to minutes: division truncates toward zero. */
  function Minute(now: int): int {
    var s := now / SECOND;
    if s >= 0 then s / 60 else -(-s / 60)
  }

  /**
   `m` is the minute of the instant `now`: from 1970 on, the 60 seconds that hold it; before, whole seconds are cut
   toward zero.
   */
  predicate InMinute(m: int, now: int) {
    if now >= 0 then 60_000_000_000 * m <= now < 60_000_000_000 * (m + 1)
    else 60 * (m - 1) < now / 1_000_000_000 <= 60 * m
  }

  lemma MinuteIsInMinute(m: int, now: int)
    ensures InMinute(m, now) <==> m == Minute(now)
  {
  }

  /** The two instants fall in one minute. */
  ghost predicate SameMinute(a: int, b: int) {
    exists m :: InMinute(m, a) && InMinute(m, b)
  }

  lemma SameMinuteIff(a: int, b: int)
    ensures SameMinute(a, b) <==> Minute(a) == Minute(b)
    ensures a >= 0 && b >= 0 ==> (SameMinute(a, b) <==> a / 60_000_000_000 == b / 60_000_000_000)
  {
    MinuteIsInMinute(Minute(a), a);
    MinuteIsInMinute(Minute(b), b);
    forall m | InMinute(m, a) && InMinute(m, b) ensures m == Minute(a) == Minute(b) {
      MinuteIsInMinute(m, a);
      MinuteIsInMinute(m, b);
    }
    if Minute(a) == Minute(b) { assert InMinute(Minute(a), a) && InMinute(Minute(a), b); }
    BucketIs(a);
    BucketIs(b);
  }

  lemma BucketIs(now: int)
    ensures now >= 0 ==> Minute(now) == now / 60_000_000_000
  {
    if now >= 0 { MinuteIsInMinute(now / 60_000_000_000, now); }
  }

  lemma {:induction false} DigitsPlain(n: nat)
    ensures '-' !in Digits(n)
  {
    DigitsValue(n);
    assert forall i :: 0 <= i < |Digits(n)| ==> IsDigit(Digits(n)[i]);
  }

  lemma DashBound(a: string, x: string, b: string, y: string)
    requires a + "-" + x == b + "-" + y && '-' !in x
    ensures |b| <= |a|
  {
    var s := a + "-" + x;
    assert s[|b|] == (b + "-" + y)[|b|] == '-';
    assert forall i :: |a| < i < |s| ==> s[i] == x[i - |a| - 1] && s[i] in x;
  }

  /** The last dash splits a text in one way only. */
  lemma LastDash(a: string, b: string, x: string, y: string)
    requires a + "-" + x == b + "-" + y && '-' !in x && '-' !in y
    ensures a == b && x == y
  {
    DashBound(a, x, b, y);
    DashBound(b, y, a, x);
    var s := a + "-" + x;
    assert s[..|a|] == a && (b + "-" + y)[..|b|] == b;
    assert s[|a| + 1..] == x && (b + "-" + y)[|b| + 1..] == y;
  }

  function Dashes(d: string, minute: int): string {
    if minute < 0 then d + "-" else d
  }

  function Abs(n: int): nat {
    if n < 0 then -n else n
  }

  lemma Suffix(a: string, b: string)
    ensures (a + b)[|a|..] == b
  {
  }

  lemma MinuteKeyForm(d: string, minute: int)
    ensures MinuteKey(d, minute)[5..] == Dashes(d, minute) + "-" + Digits(Abs(minute))
  {
    var tail := d + "-" + FormatInt(minute);
    assert |"mqtt-"| == 5 && MinuteKey(d, minute) == "mqtt-" + tail;
    Suffix("mqtt-", tail);
    if minute < 0 { Regroup(d + "-", "-", Digits(-minute)); }
  }

  /**
   Two keys are the same exactly when device and minute are, or when one minute is before 1970 and its sign is
   taken for a dash of the other device's name.
   */
  lemma MinuteKeysCollide(d: string, m: int, e: string, n: int)
    ensures MinuteKey(d, m) == MinuteKey(e, n) <==>
            (d == e && m == n) || (m == -n && ((m < 0 && e == d + "-") || (n < 0 && d == e + "-")))
  {
    MinuteKeyForm(d, m);
    MinuteKeyForm(e, n);
    if MinuteKey(d, m) == MinuteKey(e, n) {
      DigitsPlain(Abs(m));
      DigitsPlain(Abs(n));
      LastDash(Dashes(d, m), Dashes(e, n), Digits(Abs(m)), Digits(Abs(n)));
      DigitsInjective(Abs(m), Abs(n));
      if m < 0 && n < 0 {
        assert (d + "-")[..|d|] == d && (e + "-")[..|e|] == e;
      }
    } else if m == -n {
      assert MinuteKey(d, m)[..5] == MinuteKey(e, n)[..5];
      assert MinuteKey(d, m) == MinuteKey(d, m)[..5] + MinuteKey(d, m)[5..];
      assert MinuteKey(e, n) == MinuteKey(e, n)[..5] + MinuteKey(e, n)[5..];
    }
  }

  lemma AlertKeyInjective(a: JobId, b: JobId)
    ensures Serial.AlertKey(a) == Serial.AlertKey(b) <==> a == b
  {
    assert Serial.AlertKey(a)[11..] == a && Serial.AlertKey(b)[11..] == b;
  }

  // ----- what the keys give on every run -----

  /**
   Over any run, crashes and redeliveries included: two telemetry rows under the keys of device `d` at time `x` and of
   device `e` at time `y` are one row exactly when the devices are one and the times fall in one 60-second bucket, and
   that row is published by the submit path at most once.
   */
  lemma OneTelemetryRowPerMinute(cfg: Protocol.Config, s: Protocol.Sys, es: seq<Protocol.Event>, t: Protocol.Sys,
                                 a: JobId, d: string, x: nat, b: JobId, e: string, y: nat)
    requires Protocol.Init(s) && Protocol.Run(cfg, s, es, t) && a in t.rows && b in t.rows
    requires t.rows[a].typ == t.rows[b].typ == TelemetryProcessing
    requires t.rows[a].key == TelemetryKey(d, x) && t.rows[b].key == TelemetryKey(e, y)
    ensures a == b <==> d == e && x / 60_000_000_000 == y / 60_000_000_000
    ensures t.subm.subPubs[a] <= 1
  {
    var m, n := Minute(x), Minute(y);
    SameMinuteIff(x, y);
    MinuteKeysCollide(d, m, e, n);
    Idempotency.OneRowOnePublish(cfg, s, es, t, a, a);
    if d == e && m == n {
      Idempotency.OneRowOnePublish(cfg, s, es, t, a, b);
    }
  }

  /** Over any run: one alert row per health check that raised one, published by the submit path at most once. */
  lemma OneAlertPerHealthCheck(cfg: Protocol.Config, s: Protocol.Sys, es: seq<Protocol.Event>, t: Protocol.Sys,
                               a: JobId, h: JobId, b: JobId, g: JobId)
    requires Protocol.Init(s) && Protocol.Run(cfg, s, es, t) && a in t.rows && b in t.rows
    requires t.rows[a].typ == t.rows[b].typ == AlertGeneration
    requires t.rows[a].key == Serial.AlertKey(h) && t.rows[b].key == Serial.AlertKey(g)
    ensures a == b <==> h == g
    ensures t.subm.subPubs[a] <= 1
  {
    AlertKeyInjective(h, g);
    Idempotency.OneRowOnePublish(cfg, s, es, t, a, a);
    if h == g {
      Idempotency.OneRowOnePublish(cfg, s, es, t, a, b);
    }
  }

  // ----- ingestion -----

  /** One MQTT message: `body` is its payload as JSON. */
  function Ingest(u: Serial.Setup, pl: Serial.Plant, topic: string, body: string, id: JobId, trace: seq<Header>):
    (Serial.Plant, Option<string>)
  {
    var d := TopicDevice(topic);
    if d.None? then (pl, Some("unexpected topic")) else
    Serial.Submit(u, pl, Request(TelemetryProcessing, d.value, TelemetryKey(d.value, pl.now), body), id, trace)
  }

  /**
   A redelivered MQTT message within the same minute changes nothing and is refused, however the rows have grown
   in between.
   */
  lemma RedeliveryChangesNothing(u: Serial.Setup, pl: Serial.Plant, topic: string, body: string, id: JobId,
    trace: seq<Header>,
                                 later: Serial.Plant, body2: string, id2: JobId, trace2: seq<Header>)
    requires Ingest(u, pl, topic, body, id, trace).1.None?
    requires Grows(Ingest(u, pl, topic, body, id, trace).0.rows, later.rows) && SameMinute(later.now, pl.now)
    ensures Ingest(u, later, topic, body2, id2, trace2) == (later, Some("create job"))
  {
    SameMinuteIff(later.now, pl.now);
    var key := TelemetryKey(TopicDevice(topic).value, pl.now);
    assert later.rows[id].key == key && later.rows[id].typ == TelemetryProcessing;
    assert Taken(later.rows, key, TelemetryProcessing);
  }

  /**
   A health check that already raised its alert raises no second one, but its handler then reports a failure as
   long as the device stays unhealthy.
   */
  lemma SecondAlertIsRefused(u: Serial.Setup, pl: Serial.Plant, m: Message, env: Serial.Env, later: Serial.Plant,
    env2: Serial.Env)
    requires m.typ == HealthCheck && !env.healthy && Serial.Handle(u, pl, m, env).1.None?
    requires Grows(Serial.Handle(u, pl, m, env).0.rows, later.rows) && env2.err.None? && !env2.healthy
    ensures var (after, err, _) := Serial.Handle(u, later, m, env2);
            err.Some? && after.rows == later.rows && after.parts == later.parts
  {
    assert later.rows[env.alertId].key == Serial.AlertKey(m.id) && later.rows[env.alertId].typ == AlertGeneration;
    assert Taken(later.rows, Serial.AlertKey(m.id), AlertGeneration);
  }
}
