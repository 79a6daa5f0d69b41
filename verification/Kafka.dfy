/** Producer and consumer over partition logs that change in place. */
module Kafka {
  import opened Prelude
  import opened Broker

  /** The logs of a cluster, and the balancer that places messages in them. */
  class Cluster {
    const route: Route
    var parts: seq<Part>

    constructor (route: Route, parts: seq<Part>)
      ensures this.route == route && this.parts == parts
    {
      this.route := route;
      this.parts := parts;
    }

    /** Appends to the partition of the message's key, or fails if the topic is not there. */
    method Write(t: Topic, m: Message) returns (ok: bool)
      modifies this`parts
      ensures ok <==> Routed(route, old(parts), t, m.key)
      ensures parts == if ok then Append(route, old(parts), t, m) else old(parts)
    {
      var i := route(t, m.key);
      ok := i < |parts| && parts[i].topic == t;
      if ok {
        parts := parts[i := parts[i].(log := parts[i].log + [m])];
      }
    }

    /** Publishes `m` under `key` with the trace context as headers. */
    method Publish(t: Topic, key: string, m: Message, trace: seq<Header>) returns (ok: bool)
      modifies this`parts
      ensures ok <==> Routed(route, old(parts), t, key)
      ensures parts == if ok then Append(route, old(parts), t, m.(key := key, headers := trace)) else old(parts)
    {
      ok := Write(t, m.(key := key, headers := trace));
    }

    /** As Publish, with one header of the caller's after the trace context. */
    method PublishWithHeader(t: Topic, key: string, m: Message, trace: seq<Header>, header: Header) returns (ok: bool)
      modifies this`parts
      ensures ok <==> Routed(route, old(parts), t, key)
      ensures parts == if ok then Append(route, old(parts), t, m.(key := key, headers := trace + [header]))
                       else old(parts)
    {
      var headers := trace;
      headers := headers + [header];
      ok := Write(t, m.(key := key, headers := headers));
    }

    /** The next unread message of a partition of `t`, if there is one, and its offset; the read position moves on. */
    method FetchMessage(t: Topic, p: nat) returns (msg: Option<Message>, off: nat)
      modifies this`parts
      ensures msg.Some? <==> p < |old(parts)| && old(parts)[p].topic == t && old(parts)[p].pos < |old(parts)[p].log|
      ensures msg.Some? ==>
        off == old(parts)[p].pos && msg.value == old(parts)[p].log[off] &&
        parts == old(parts)[p := old(parts)[p].(pos := off + 1)]
      ensures msg.None? ==> parts == old(parts)
    {
      if p >= |parts| || parts[p].topic != t || parts[p].pos >= |parts[p].log| {
        return None, 0;
      }
      off := parts[p].pos;
      msg := Some(parts[p].log[off]);
      parts := parts[p := parts[p].(pos := off + 1)];
    }

    /** Marks everything up to `off` as processed. */
    method CommitMessage(p: nat, off: nat)
      modifies this`parts
      ensures parts == if p < |old(parts)| then old(parts)[p := old(parts)[p].(committed := off + 1)] else old(parts)
    {
      if p < |parts| {
        parts := parts[p := parts[p].(committed := off + 1)];
      }
    }
  }
}
