/**
 The statements of internal/store/db on tables that change in place. Each is specified by what it does to the
 whole table, in the terms of Store.
 */
module Postgres {
  import opened Prelude
  import opened Jobs
  import opened Store
  import opened Serial
  import Reaping

  /** The time every process and the database agree on. */
  class Clock {
    var now: int

    constructor (start: int)
      ensures now == start
    {
      now := start;
    }

    /** Sleeps until `until`, which may already be past. */
    method SleepUntil(until: int)
      modifies this
      ensures now == if old(now) < until then until else old(now)
    {
      var delay := until - now;
      if delay > 0 {
        now := now + delay;
      }
    }
  }

  class JobStore {
    const clock: Clock
    var rows: Table
    var devices: map<string, Device>
    var firmware: seq<FirmwareEntry>

    constructor (clock: Clock, devices: map<string, Device>)
      ensures this.clock == clock && this.devices == devices && rows == map[] && firmware == []
    {
      this.clock := clock;
      this.devices := devices;
      rows := map[];
      firmware := [];
    }

    /** INSERT of a row in ACCEPTED; the primary key, the unique index and the foreign key may refuse it. */
    method CreateJob(q: Request, tier: Tier, id: JobId) returns (job: Option<Row>)
      modifies this`rows
      ensures job.Some? <==> CanInsert(old(rows), devices.Keys, q, id)
      ensures job.Some? ==> Asked(q, tier, job.value) && rows == old(rows)[id := job.value]
      ensures job.Some? ==> job.value == NewRow(q, tier)
      ensures job.None? ==> rows == old(rows)
    {
      if id in rows || q.device !in devices {
        return None;
      }
      var taken := FindByKey(q.key, q.typ);
      if taken.Some? {
        return None;
      }
      var r := Row(q.typ, tier, q.device, q.payload, q.key, Accepted, 0, MAX_ATTEMPTS, None, None, None, None);
      if |q.payload| == 0 {
        r := r.(payload := "{}");
      }
      rows := rows[id := r];
      return Some(r);
    }

    method GetJob(id: JobId) returns (job: Option<Row>)
      ensures job == if id in rows then Some(rows[id]) else None
    {
      if id in rows {
        job := Some(rows[id]);
      } else {
        job := None;
      }
    }

    /** The lookup behind GetJobByIdempotencyKey: it finds a row exactly when the pair is taken. */
    method FindByKey(key: string, typ: Type) returns (found: Option<JobId>)
      ensures found.Some? ==> found.value in rows && rows[found.value].key == key && rows[found.value].typ == typ
      ensures found.None? ==> !Taken(rows, key, typ)
    {
      var rest := rows.Keys;
      while rest != {}
        invariant rest <= rows.Keys
        invariant forall id :: id in rows && id !in rest ==> !(rows[id].key == key && rows[id].typ == typ)
      {
        var id :| id in rest;
        if rows[id].key == key && rows[id].typ == typ {
          return Some(id);
        }
        rest := rest - {id};
      }
      return None;
    }

    /** started_at keeps its first value, finished_at the last terminal one, last_error the last message given. */
    method UpdateJobState(id: JobId, st: State, err: Option<string>) returns (job: Option<Row>)
      modifies this`rows
      ensures job.Some? <==> id in old(rows)
      ensures job.Some? ==> job.value == WithState(old(rows)[id], st, err, clock.now)
      ensures job.Some? ==> rows == old(rows)[id := job.value]
      ensures job.None? ==> rows == old(rows)
    {
      if id !in rows {
        return None;
      }
      var r := rows[id].(state := st);
      if r.startedAt.None? && st == State.Running {
        r := r.(startedAt := Some(clock.now));
      }
      if IsTerminal(st) {
        r := r.(finishedAt := Some(clock.now));
      }
      if err.Some? {
        r := r.(lastError := err);
      }
      rows := rows[id := r];
      return Some(r);
    }

    method IncrementJobAttempts(id: JobId) returns (job: Option<Row>)
      modifies this`rows
      ensures job.Some? <==> id in old(rows)
      ensures job.Some? ==> job.value == WithAttempt(old(rows)[id]) && rows == old(rows)[id := job.value]
      ensures job.None? ==> rows == old(rows)
    {
      if id !in rows {
        return None;
      }
      rows := rows[id := rows[id].(attempts := rows[id].attempts + 1)];
      return Some(rows[id]);
    }

    /** No state guard: any row is put back to QUEUED and charged an attempt. */
    method RequeueJob(id: JobId) returns (job: Option<Row>)
      modifies this`rows
      ensures rows == Reaping.RequeueOne(old(rows), id)
      ensures job == if id in old(rows) then Some(rows[id]) else None
    {
      if id !in rows {
        return None;
      }
      var r := rows[id].(state := State.Queued, attempts := rows[id].attempts + 1);
      r := r.(heartbeat := None, startedAt := None);
      rows := rows[id := r];
      return Some(r);
    }

    method WriteHeartbeat(id: JobId)
      modifies this`rows
      ensures rows == if id in old(rows) then old(rows)[id := WithHeartbeat(old(rows)[id], clock.now)] else old(rows)
    {
      if id in rows {
        rows := rows[id := rows[id].(heartbeat := Some(clock.now))];
      }
    }

    /** The oldest of a set of rows with a heartbeat. */
    method Oldest(ids: set<JobId>) returns (oldest: JobId)
      requires ids != {} && forall id :: id in ids ==> id in rows && rows[id].heartbeat.Some?
      ensures oldest in ids && forall id :: id in ids ==> Reaping.Beat(rows, oldest) <= Reaping.Beat(rows, id)
    {
      oldest :| oldest in ids;
      var rest := ids - {oldest};
      while rest != {}
        invariant rest <= ids && oldest in ids
        invariant forall id :: id in ids && id !in rest ==> Reaping.Beat(rows, oldest) <= Reaping.Beat(rows, id)
      {
        var id :| id in rest;
        if rows[id].heartbeat.value < rows[oldest].heartbeat.value {
          oldest := id;
        }
        rest := rest - {id};
      }
    }

    /** RUNNING, and its last heartbeat more than 60 seconds ago. */
    predicate SilentForAMinute(r: Row)
      reads this, clock
    {
      r.state == State.Running && r.heartbeat.Some? && clock.now - r.heartbeat.value > 60_000_000_000
    }

    /** SELECT ... WHERE RUNNING and stale ORDER BY heartbeat_at LIMIT, with the loop that collects the answer. */
    method ReapStaleJobs(limit: nat) returns (batch: seq<JobId>)
      ensures Reaping.IsBatch(rows, clock.now, limit, batch)
      ensures forall id :: id in batch ==> id in rows && SilentForAMinute(rows[id])
      ensures forall id :: id in rows && id !in batch && SilentForAMinute(rows[id]) ==> |batch| == limit
    {
      var rest := Reaping.Backlog(rows, clock.now);
      batch := [];
      while rest != {} && |batch| < limit
        invariant |batch| <= limit && Reaping.NoDup(batch) && Reaping.OldestFirst(rows, batch)
        invariant forall id :: id in rest ==> Reaping.StaleIn(rows, clock.now, id) && id !in batch
        invariant forall i :: 0 <= i < |batch| ==> Reaping.StaleIn(rows, clock.now, batch[i])
        invariant forall id :: Reaping.StaleIn(rows, clock.now, id) && id !in batch ==> id in rest
        invariant forall id, i :: id in rest && 0 <= i < |batch| ==>
          Reaping.Beat(rows, batch[i]) <= Reaping.Beat(rows, id)
      {
        assert forall id :: id in rest ==> Reaping.StaleIn(rows, clock.now, id);
        var id := Oldest(rest);
        rest := rest - {id};
        batch := batch + [id];
      }
      assert forall id :: Reaping.StaleIn(rows, clock.now, id) <==> id in rows && SilentForAMinute(rows[id]);
    }

    // ----- devices and firmware history -----

    method TouchDevice(d: string)
      modifies this`devices
      ensures devices == Touch(old(devices), d, clock.now)
    {
      if d in devices {
        devices := devices[d := Device(devices[d].version, Some(clock.now))];
      }
    }

    method UpdateDeviceFirmware(d: string, v: string)
      modifies this`devices
      ensures devices == SetVersion(old(devices), d, v)
    {
      if d in devices {
        devices := devices[d := Device(Some(v), devices[d].lastSeen)];
      }
    }

    method InsertFirmwareAttempt(entry: FirmwareEntry)
      modifies this`firmware
      ensures firmware == old(firmware) + [entry]
    {
      firmware := firmware + [entry];
    }
  }
}
