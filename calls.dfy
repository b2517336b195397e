/**
 * The server's call records (backend/routes/calls.py over the Call table of
 * backend/models.py): initiating, answering, ending and rejecting a call,
 * and the caller's or receiver's call history.
 *
 * The table is a sequence of rows whose ids are their positions counted from
 * 1, as an autoincrement key hands them out when nothing is deleted.
 * Timestamps are integers counting microseconds, the resolution of Python's
 * datetime. `commitOk` says whether the database commit succeeded; when it
 * fails the session is rolled back and the table is as before.
 */
module Calls {
  import opened Wrappers
  import opened Ordering

  type UserId = int

  datatype CallStatus = Initiated | Answered | Ended | Missed

  /** A string field of a JSON body: absent, null, or a string. */
  datatype StringField = AbsentField | NullField | StringValue(s: string)

  datatype CallRecord = CallRecord(
    id: nat,
    callerId: UserId,
    receiverId: UserId,
    callType: string,
    status: CallStatus,
    startedAt: int,
    endedAt: Option<int>,
    duration: int)

  const MicrosPerSecond: nat := 1000000

  /** The most rows the history returns. */
  const HistoryLimit: nat := 50

  /**
   * int(delta.total_seconds()) for a difference of `delta` microseconds:
   * whole seconds, truncated toward zero.
   */
  function WholeSeconds(delta: int): (s: int)
    ensures delta >= 0 ==> 0 <= s && s * MicrosPerSecond <= delta < (s + 1) * MicrosPerSecond
    ensures delta < 0 ==> s <= 0 && -s * MicrosPerSecond <= -delta < (-s + 1) * MicrosPerSecond
  {
    if delta >= 0 then delta / MicrosPerSecond else -((-delta) / MicrosPerSecond)
  }

  /** The caller and the receiver are the two parties of a call. */
  predicate IsParty(c: CallRecord, user: UserId)
  {
    user == c.callerId || user == c.receiverId
  }

  /**
   * What the lifecycle keeps true of a row: a call still `initiated` has not
   * ended and has no duration; a call that is over records when it ended; an
   * ended call's duration is the whole seconds from its start to its end.
   */
  predicate Consistent(c: CallRecord)
  {
    && (c.status == Initiated ==> c.endedAt.None? && c.duration == 0)
    && (c.status == Ended || c.status == Missed ==> c.endedAt.Some?)
    && (c.status == Ended ==> c.duration == WholeSeconds(c.endedAt.value - c.startedAt))
  }

  /**
   * end_call's update as written: `initiated` becomes `missed`, every other
   * status `ended`; the call ends now, and an ended call's duration is the
   * whole seconds since it started.
   */
  function EndedAsWritten(c: CallRecord, now: int): (r: CallRecord)
    ensures r.status == Missed <==> c.status == Initiated
    ensures r.status == Ended <==> c.status != Initiated
    ensures r.endedAt == Some(now)
    ensures r.status == Ended ==> r.duration == WholeSeconds(now - c.startedAt)
    ensures r.status == Missed ==> r.duration == c.duration
    ensures r.(status := c.status, endedAt := c.endedAt, duration := c.duration) == c
  {
    var status := if c.status == Initiated then Missed else Ended;
    c.(status := status, endedAt := Some(now),
       duration := if status == Ended then WholeSeconds(now - c.startedAt) else c.duration)
  }

  /**
   * As written, a call that was never answered still ends up `ended`: the
   * caller's hang-up marks the ringing call `missed`, and a second end
   * request for the same call, from either party, turns it into an `ended`
   * call with a duration.
   */
  lemma EndedAsWrittenEndsMissedCall()
    ensures var ringing := CallRecord(1, 10, 20, "audio", Initiated, 0, None, 0);
      var hungUp := EndedAsWritten(ringing, 5 * MicrosPerSecond);
      var again := EndedAsWritten(hungUp, 7 * MicrosPerSecond);
      hungUp.status == Missed && again.status == Ended && again.duration == 7
  {
  }

  /**
   * end_call's update as intended: a call that was never answered is
   * `missed`, an answered one `ended` with its duration, and a call that is
   * already over stays as it is.
   */
  function EndedRecord(c: CallRecord, now: int): (r: CallRecord)
    ensures c.status == Initiated ==> r == c.(status := Missed, endedAt := Some(now))
    ensures c.status == Answered ==>
      r == c.(status := Ended, endedAt := Some(now), duration := WholeSeconds(now - c.startedAt))
    ensures c.status == Ended || c.status == Missed ==> r == c
  {
    match c.status
    case Initiated => c.(status := Missed, endedAt := Some(now))
    case Answered => c.(status := Ended, endedAt := Some(now), duration := WholeSeconds(now - c.startedAt))
    case _ => c
  }

  /** Ending twice is ending once, whoever ends it second and whenever. */
  lemma EndedRecordIdempotent(c: CallRecord, first: int, second: int)
    ensures EndedRecord(EndedRecord(c, first), second) == EndedRecord(c, first)
  {
  }

  /** Only an answered call becomes `ended`; a call that was never answered cannot. */
  lemma EndedOnlyIfAnswered(c: CallRecord, now: int)
    ensures EndedRecord(c, now).status == Ended <==> c.status == Answered || c.status == Ended
    ensures EndedRecord(c, now).status == Missed <==> c.status == Initiated || c.status == Missed
  {
  }

  /** Answering, ending (as written and as intended) and rejecting keep a row consistent. */
  lemma TransitionsKeepConsistent(c: CallRecord, now: int)
    requires Consistent(c)
    ensures Consistent(c.(status := Answered))
    ensures Consistent(EndedAsWritten(c, now))
    ensures Consistent(EndedRecord(c, now))
    ensures Consistent(c.(status := Missed, endedAt := Some(now)))
  {
  }

  /**
   * On a call that is still ringing or in progress, end_call as written does
   * what was intended; the two part only on a call that is already over.
   */
  lemma EndedAsWrittenOnLiveCall(c: CallRecord, now: int)
    ensures c.status == Initiated || c.status == Answered ==> EndedAsWritten(c, now) == EndedRecord(c, now)
    ensures c.status == Missed ==> EndedAsWritten(c, now).status != EndedRecord(c, now).status
  {
  }

  // ------------------------------------------------------------- history

  /** The rows the user took part in, in table order. */
  function Involving(rows: seq<CallRecord>, user: UserId): (r: seq<CallRecord>)
    ensures |r| <= |rows|
    ensures forall c :: c in r <==> c in rows && IsParty(c, user)
  {
    if rows == [] then []
    else
      var rest := Involving(rows[1..], user);
      assert forall c :: c in rows <==> c == rows[0] || c in rows[1..];
      if IsParty(rows[0], user) then [rows[0]] + rest else rest
  }

  function StartedAt(c: CallRecord): int { c.startedAt }

  /** call_history: the user's calls, latest start first, at most fifty. */
  function History(rows: seq<CallRecord>, user: UserId): (h: seq<CallRecord>)
    ensures |h| <= HistoryLimit
    ensures SortedDesc(h, StartedAt)
    ensures forall c :: c in h ==> c in rows && IsParty(c, user)
  {
    var sorted := SortDesc(Involving(rows, user), StartedAt);
    SortDescPermutes(Involving(rows, user), StartedAt);
    Window(sorted, 0, HistoryLimit)
  }

  /** The call_history route: History, or 500 when the query fails (`queryFails`). */
  function HistoryRoute(rows: seq<CallRecord>, user: UserId, queryFails: bool): (r: Result<seq<CallRecord>, HttpError>)
    ensures queryFails <==> r == Failure(HttpError(500, "Failed to load call history"))
    ensures r.Success? ==> |r.value| <= HistoryLimit && forall c :: c in r.value ==> c in rows && IsParty(c, user)
    ensures r.Success? ==> multiset(r.value) <= multiset(Involving(rows, user))
  {
    var involved := Involving(rows, user);
    var sorted := SortDesc(involved, StartedAt);
    SortDescPermutes(involved, StartedAt);
    assert History(rows, user) == sorted[..|History(rows, user)|];
    assert sorted == sorted[..|History(rows, user)|] + sorted[|History(rows, user)|..];
    if queryFails then Failure(HttpError(500, "Failed to load call history")) else Success(History(rows, user))
  }

  /**
   * The history leaves out no call of the user's unless it already holds
   * fifty calls, every one of which started no earlier than the one left out.
   */
  lemma {:induction false} HistoryIsLatest(rows: seq<CallRecord>, user: UserId, c: CallRecord)
    requires c in rows && IsParty(c, user) && c !in History(rows, user)
    ensures |History(rows, user)| == HistoryLimit
    ensures forall d :: d in History(rows, user) ==> d.startedAt >= c.startedAt
  {
    var sorted := SortDesc(Involving(rows, user), StartedAt);
    SortDescPermutes(Involving(rows, user), StartedAt);
    var k :| 0 <= k < |sorted| && sorted[k] == c;
    assert k >= HistoryLimit;
    forall d | d in History(rows, user) ensures d.startedAt >= c.startedAt {
      var i :| 0 <= i < HistoryLimit && sorted[i] == d;
    }
  }

  /** Every call of the user's is in the history when there are at most fifty of them. */
  lemma HistoryComplete(rows: seq<CallRecord>, user: UserId)
    requires |Involving(rows, user)| <= HistoryLimit
    ensures multiset(History(rows, user)) == multiset(Involving(rows, user))
  {
    var sorted := SortDesc(Involving(rows, user), StartedAt);
    SortDescPermutes(Involving(rows, user), StartedAt);
    assert History(rows, user) == sorted;
  }

  // --------------------------------------------------------------- table

  class CallTable {
    var rows: seq<CallRecord>

    ghost predicate Valid()
      reads this
    {
      forall i :: 0 <= i < |rows| ==> rows[i].id == i + 1 && Consistent(rows[i])
    }

    constructor()
      ensures Valid() && rows == []
    {
      rows := [];
    }

    /** Call.query.get(id): the row with that id, if any. */
    function Get(callId: nat): (r: Option<CallRecord>)
      reads this
      requires Valid()
      ensures r.Some? <==> exists i :: 0 <= i < |rows| && rows[i].id == callId
      ensures r.Some? ==> r.value in rows && r.value.id == callId
    {
      if 0 < callId <= |rows| then Some(rows[callId - 1]) else None
    }

    /**
     * initiate_call. `receiverId` is the JSON field (None: absent or null),
     * `callType` the call_type field, `users` the ids in the user table.
     * The default "audio" applies only to an absent call_type; a null one
     * reaches the NOT NULL column, so the commit fails with the route's 500.
     */
    method Initiate(user: UserId, receiverId: Option<int>, callType: StringField,
                    users: set<UserId>, now: int, commitOk: bool)
      returns (r: Result<CallRecord, HttpError>)
      requires Valid()
      modifies this
      ensures Valid()
      ensures !Truthy(receiverId) ==> r == Failure(HttpError(400, "Receiver ID required"))
      ensures Truthy(receiverId) && receiverId.value !in users ==> r == Failure(HttpError(404, "User not found"))
      ensures Truthy(receiverId) && receiverId.value in users && (callType.NullField? || !commitOk) ==>
        r == Failure(HttpError(500, "Failed to initiate call"))
      ensures r.Failure? ==> rows == old(rows)
      ensures r.Success? <==> Truthy(receiverId) && receiverId.value in users && !callType.NullField? && commitOk
      ensures r.Success? ==>
        && r.value == CallRecord(|old(rows)| + 1, user, receiverId.value,
                                 if callType.StringValue? then callType.s else "audio", Initiated, now, None, 0)
        && rows == old(rows) + [r.value]
    {
      if !Truthy(receiverId) {
        return Failure(HttpError(400, "Receiver ID required"));
      }
      if receiverId.value !in users {
        return Failure(HttpError(404, "User not found"));
      }
      if callType.NullField? || !commitOk {
        return Failure(HttpError(500, "Failed to initiate call"));
      }
      var kind := if callType.StringValue? then callType.s else "audio";
      var call := CallRecord(|rows| + 1, user, receiverId.value, kind, Initiated, now, None, 0);
      rows := rows + [call];
      r := Success(call);
    }

    /** answer_call: only the receiver may answer; any prior status becomes `answered`. */
    method Answer(user: UserId, callId: nat, commitOk: bool) returns (r: Result<CallRecord, HttpError>)
      requires Valid()
      modifies this
      ensures Valid()
      ensures old(Get(callId)).None? ==> r == Failure(HttpError(404, "Not Found"))
      ensures old(Get(callId)).Some? && old(Get(callId)).value.receiverId != user ==> r == Failure(HttpError(403, "Unauthorized"))
      ensures old(Get(callId)).Some? && old(Get(callId)).value.receiverId == user && !commitOk ==>
        r == Failure(HttpError(500, "Failed to answer call"))
      ensures r.Failure? ==> rows == old(rows)
      ensures r.Success? <==> old(Get(callId)).Some? && old(Get(callId)).value.receiverId == user && commitOk
      ensures r.Success? ==>
        && r.value == old(Get(callId)).value.(status := Answered)
        && rows == old(rows)[callId - 1 := r.value]
    {
      var found := Get(callId);
      if found.None? {
        return Failure(HttpError(404, "Not Found"));
      }
      if found.value.receiverId != user {
        return Failure(HttpError(403, "Unauthorized"));
      }
      if !commitOk {
        return Failure(HttpError(500, "Failed to answer call"));
      }
      var call := found.value.(status := Answered);
      TransitionsKeepConsistent(found.value, 0);
      rows := rows[callId - 1 := call];
      r := Success(call);
    }

    /**
     * end_call: either party may end a call. An unanswered call becomes
     * `missed`; any other, including one already missed or ended, becomes
     * `ended` now with the whole seconds since it started (EndedAsWritten).
     */
    method End(user: UserId, callId: nat, now: int, commitOk: bool) returns (r: Result<CallRecord, HttpError>)
      requires Valid()
      modifies this
      ensures Valid()
      ensures old(Get(callId)).None? ==> r == Failure(HttpError(404, "Not Found"))
      ensures old(Get(callId)).Some? && !IsParty(old(Get(callId)).value, user) ==> r == Failure(HttpError(403, "Unauthorized"))
      ensures old(Get(callId)).Some? && IsParty(old(Get(callId)).value, user) && !commitOk ==>
        r == Failure(HttpError(500, "Failed to end call"))
      ensures r.Failure? ==> rows == old(rows)
      ensures r.Success? <==> old(Get(callId)).Some? && IsParty(old(Get(callId)).value, user) && commitOk
      ensures r.Success? ==>
        && r.value == EndedAsWritten(old(Get(callId)).value, now)
        && rows == old(rows)[callId - 1 := r.value]
    {
      var found := Get(callId);
      if found.None? {
        return Failure(HttpError(404, "Not Found"));
      }
      if !IsParty(found.value, user) {
        return Failure(HttpError(403, "Unauthorized"));
      }
      if !commitOk {
        return Failure(HttpError(500, "Failed to end call"));
      }
      var call := EndedAsWritten(found.value, now);
      TransitionsKeepConsistent(found.value, now);
      rows := rows[callId - 1 := call];
      r := Success(call);
    }

    /** reject_call: only the receiver may reject; the call becomes `missed` and ends now. */
    method Reject(user: UserId, callId: nat, now: int, commitOk: bool) returns (r: Result<CallRecord, HttpError>)
      requires Valid()
      modifies this
      ensures Valid()
      ensures old(Get(callId)).None? ==> r == Failure(HttpError(404, "Not Found"))
      ensures old(Get(callId)).Some? && old(Get(callId)).value.receiverId != user ==> r == Failure(HttpError(403, "Unauthorized"))
      ensures old(Get(callId)).Some? && old(Get(callId)).value.receiverId == user && !commitOk ==>
        r == Failure(HttpError(500, "Failed to reject call"))
      ensures r.Failure? ==> rows == old(rows)
      ensures r.Success? <==> old(Get(callId)).Some? && old(Get(callId)).value.receiverId == user && commitOk
      ensures r.Success? ==>
        && r.value == old(Get(callId)).value.(status := Missed, endedAt := Some(now))
        && rows == old(rows)[callId - 1 := r.value]
    {
      var found := Get(callId);
      if found.None? {
        return Failure(HttpError(404, "Not Found"));
      }
      if found.value.receiverId != user {
        return Failure(HttpError(403, "Unauthorized"));
      }
      if !commitOk {
        return Failure(HttpError(500, "Failed to reject call"));
      }
      var call := found.value.(status := Missed, endedAt := Some(now));
      TransitionsKeepConsistent(found.value, now);
      rows := rows[callId - 1 := call];
      r := Success(call);
    }
  }
}
