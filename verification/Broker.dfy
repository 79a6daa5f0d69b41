/** Kafka as the platform uses it: partitioned append-only logs with a fetch position and a committed offset. */
module Broker {
  import opened Prelude
  import opened Jobs
  import opened Store
  import opened Text

  datatype Topic = Main(tier: Tier) | RetryOf(tier: Tier) | Dlq

  datatype Header = Header(key: string, value: string)

  /** A job message; `key` chooses the partition. */
  datatype Message = Message(
    key: string, id: JobId, typ: Type, tier: Tier, device: string, payload: string, headers: seq<Header>)

  /** A partition, the committed offset of its consumer group, and the position of the group member that owns it. */
  datatype Part = Part(topic: Topic, log: seq<Message>, committed: nat, pos: nat, owner: nat)

  /** The balancer: a deterministic choice of partition for a topic and key. */
  type Route = (Topic, string) -> nat

  predicate Routed(route: Route, parts: seq<Part>, t: Topic, key: string) {
    route(t, key) < |parts| && parts[route(t, key)].topic == t
  }

  /** Every topic exists for every key, so no publish fails. */
  ghost predicate Wired(route: Route, parts: seq<Part>) {
    forall t, key :: Routed(route, parts, t, key)
  }

  function Append(route: Route, parts: seq<Part>, t: Topic, m: Message): seq<Part>
    requires Routed(route, parts, t, m.key)
  {
    var i := route(t, m.key);
    parts[i := parts[i].(log := parts[i].log + [m])]
  }

  /** The message a row is published as. */
  function MessageFor(id: JobId, r: Row, headers: seq<Header>): Message {
    Message(r.device, id, r.typ, r.tier, r.device, r.payload, headers)
  }

  /** The message names an existing row and repeats its content. */
  predicate Faithful(rows: Table, m: Message) {
    m.id in rows && m.typ == rows[m.id].typ && m.tier == rows[m.id].tier &&
    m.device == rows[m.id].device && m.payload == rows[m.id].payload
  }

  /** The topic a message may lie on. */
  predicate Belongs(t: Topic, m: Message) {
    t == Main(m.tier) || t == RetryOf(m.tier) || t == Dlq
  }

  const RETRY_AT: string := "retry-at"

  /** The header the worker appends after the trace headers: the retry instant in Unix seconds. */
  function RetryHeaders(trace: seq<Header>, at: int): seq<Header> {
    trace + [Header(RETRY_AT, FormatInt(at / SECOND))]
  }

  /** What the router reads back: the last parseable retry-at header, or the time of the fetch. */
  function RetryAt(headers: seq<Header>, now: int): int {
    if headers == [] then now else
    var h := headers[|headers| - 1];
    if h.key == RETRY_AT && ParseInt(h.value).Some? then ParseInt(h.value).value * SECOND
    else RetryAt(headers[..|headers| - 1], now)
  }

  /** The router waits for the instant the worker asked for, cut to whole seconds, whatever trace headers came first. */
  lemma RetryAtRoundTrip(trace: seq<Header>, at: int, now: int)
    requires Int64(at / SECOND)
    ensures at - SECOND < RetryAt(RetryHeaders(trace, at), now) <= at
    ensures RetryAt(RetryHeaders(trace, at), now) % SECOND == 0
  {
    FormatParse(at / SECOND);
  }

  // ----- counting messages; `f` says how much each one weighs -----

  function For(j: JobId): Message -> nat {
    (m: Message) => if m.id == j then 1 else 0
  }

  /** The weight of what the consumer group has not fetched. */
  function Unread(q: Part, f: Message -> nat): nat {
    if q.pos <= |q.log| then Count(q.log[q.pos..], f) else 0
  }

  /** All of a partition that still counts: unfetched messages, and everything on the dead-letter topic. */
  function InLogs(f: Message -> nat): Part -> nat {
    (q: Part) => if q.topic.Dlq? then Count(q.log, f) else Unread(q, f)
  }

  predicate Positioned(parts: seq<Part>) {
    forall p :: 0 <= p < |parts| ==> parts[p].pos <= |parts[p].log|
  }

  lemma UnreadAfterAppend(q: Part, m: Message, f: Message -> nat)
    requires q.pos <= |q.log|
    ensures Unread(q.(log := q.log + [m]), f) == Unread(q, f) + f(m)
  {
    assert (q.log + [m])[q.pos..] == q.log[q.pos..] + [m];
    CountSnoc(q.log[q.pos..], m, f);
  }

  lemma UnreadAfterFetch(q: Part, f: Message -> nat)
    requires q.pos < |q.log|
    ensures Unread(q.(pos := q.pos + 1), f) + f(q.log[q.pos]) == Unread(q, f)
  {
    assert q.log[q.pos..][1..] == q.log[q.pos + 1..];
  }

  /** An append adds the message's weight, wherever it lands. */
  lemma AppendCounts(route: Route, parts: seq<Part>, t: Topic, m: Message, f: Message -> nat)
    requires Positioned(parts) && Routed(route, parts, t, m.key)
    ensures Positioned(Append(route, parts, t, m))
    ensures Count(Append(route, parts, t, m), InLogs(f)) == Count(parts, InLogs(f)) + f(m)
  {
    var i := route(t, m.key);
    var q := parts[i];
    CountUpdate(parts, i, q.(log := q.log + [m]), InLogs(f));
    UnreadAfterAppend(q, m, f);
    CountSnoc(q.log, m, f);
  }

  /** A fetch takes the fetched message's weight out. */
  lemma FetchCounts(parts: seq<Part>, p: nat, f: Message -> nat)
    requires Positioned(parts) && p < |parts| && !parts[p].topic.Dlq? && parts[p].pos < |parts[p].log|
    ensures var after := parts[p := parts[p].(pos := parts[p].pos + 1)];
            Positioned(after) && Count(after, InLogs(f)) + f(parts[p].log[parts[p].pos]) == Count(parts, InLogs(f))
  {
    UnreadAfterFetch(parts[p], f);
    CountUpdate(parts, p, parts[p].(pos := parts[p].pos + 1), InLogs(f));
  }

  // ----- the same, topic by topic -----

  function OnMain(f: Message -> nat): Part -> nat {
    (q: Part) => if q.topic.Main? then Unread(q, f) else 0
  }

  function OnRetry(f: Message -> nat): Part -> nat {
    (q: Part) => if q.topic.RetryOf? then Unread(q, f) else 0
  }

  function OnDlq(f: Message -> nat): Part -> nat {
    (q: Part) => if q.topic.Dlq? then Count(q.log, f) else 0
  }

  lemma AppendKinds(route: Route, parts: seq<Part>, t: Topic, m: Message, f: Message -> nat)
    requires Positioned(parts) && Routed(route, parts, t, m.key)
    ensures var b := Append(route, parts, t, m);
            Count(b, OnMain(f)) == Count(parts, OnMain(f)) + (if t.Main? then f(m) else 0) &&
            Count(b, OnRetry(f)) == Count(parts, OnRetry(f)) + (if t.RetryOf? then f(m) else 0) &&
            Count(b, OnDlq(f)) == Count(parts, OnDlq(f)) + (if t.Dlq? then f(m) else 0)
  {
    var i := route(t, m.key);
    var q := parts[i].(log := parts[i].log + [m]);
    UnreadAfterAppend(parts[i], m, f);
    CountSnoc(parts[i].log, m, f);
    CountUpdate(parts, i, q, OnMain(f));
    CountUpdate(parts, i, q, OnRetry(f));
    CountUpdate(parts, i, q, OnDlq(f));
  }

  lemma FetchKinds(parts: seq<Part>, p: nat, f: Message -> nat)
    requires Positioned(parts) && p < |parts| && !parts[p].topic.Dlq? && parts[p].pos < |parts[p].log|
    ensures var b := parts[p := parts[p].(pos := parts[p].pos + 1)];
            var m := parts[p].log[parts[p].pos];
            Count(b, OnMain(f)) + (if parts[p].topic.Main? then f(m) else 0) == Count(parts, OnMain(f)) &&
            Count(b, OnRetry(f)) + (if parts[p].topic.RetryOf? then f(m) else 0) == Count(parts, OnRetry(f)) &&
            Count(b, OnDlq(f)) == Count(parts, OnDlq(f))
  {
    var q := parts[p].(pos := parts[p].pos + 1);
    UnreadAfterFetch(parts[p], f);
    CountUpdate(parts, p, q, OnMain(f));
    CountUpdate(parts, p, q, OnRetry(f));
    CountUpdate(parts, p, q, OnDlq(f));
  }

  /** Commits and reassignments of the same position leave every count alone. */
  lemma SameReads(a: seq<Part>, b: seq<Part>, f: Message -> nat)
    requires |a| == |b|
    requires forall p :: 0 <= p < |a| ==> a[p].topic == b[p].topic && a[p].log == b[p].log && a[p].pos == b[p].pos
    ensures Count(a, OnMain(f)) == Count(b, OnMain(f)) && Count(a, OnRetry(f)) == Count(b, OnRetry(f)) &&
            Count(a, OnDlq(f)) == Count(b, OnDlq(f))
  {
    CountMono(a, b, OnMain(f), OnMain(f));
    CountMono(b, a, OnMain(f), OnMain(f));
    CountMono(a, b, OnRetry(f), OnRetry(f));
    CountMono(b, a, OnRetry(f), OnRetry(f));
    CountMono(a, b, OnDlq(f), OnDlq(f));
    CountMono(b, a, OnDlq(f), OnDlq(f));
  }

  lemma SplitLogs(parts: seq<Part>, f: Message -> nat)
    ensures Count(parts, InLogs(f)) == Count(parts, OnMain(f)) + Count(parts, OnRetry(f)) + Count(parts, OnDlq(f))
  {
    var waiting: Part -> nat := (q: Part) => if q.topic.Dlq? then 0 else Unread(q, f);
    CountSplit(parts, waiting, OnDlq(f), InLogs(f));
    CountSplit(parts, OnMain(f), OnRetry(f), waiting);
  }
}
