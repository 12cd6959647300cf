/**
 * The `process-email-queue` edge function: it answers CORS preflight requests, checks the
 * caller's bearer token, and marks every pending row of `email_logs` as sent. The auth
 * server's verdict on a token (`isUser`), the errors of the two table requests and the
 * current time are parameters; the rows are the `email_logs` table.
 */
module EmailQueue {
  import opened Wrappers
  import opened Effects
  import opened Text
  import opened Lists

  /** A row of `email_logs`, with the columns the function reads and writes. */
  datatype LogRow = LogRow(id: string, status: string, createdAt: int, sentAt: Option<int>)

  /** The request's method and its `Authorization` header, if any. */
  datatype Request = Request(httpMethod: string, authorization: Option<string>)

  /** The requests the function makes, in order. */
  datatype Query = GetUser(token: string) | SelectPending | UpdateToSent(ids: seq<string>, sentAt: int)

  datatype Body = NoBody | Processed(processed: nat) | ErrorBody(message: string)

  /**
   * Every response carries the CORS headers; `json` says whether it also carries
   * `Content-Type: application/json` and a JSON body.
   */
  datatype Response = Response(status: int, body: Body, json: bool)

  const BearerPrefix := "Bearer "
  const MissingHeaderMessage := "Missing authorization header"
  const UnauthorizedMessage := "Unauthorized"

  predicate IsPending(r: LogRow) {
    r.status == "pending"
  }

  /** The row as the update leaves it. */
  function Sent(r: LogRow, now: int): LogRow {
    r.(status := "sent", sentAt := Some(now))
  }

  /** `rows.map(email => email.id)`. */
  function Ids(rows: seq<LogRow>): (ids: seq<string>)
    ensures |ids| == |rows|
    ensures forall i :: 0 <= i < |rows| ==> ids[i] == rows[i].id
  {
    if |rows| == 0 then [] else [rows[0].id] + Ids(rows[1..])
  }

  /** `.update({ status: 'sent', sent_at }).in('id', ids)` applied to the table. */
  function MarkSent(rows: seq<LogRow>, ids: seq<string>, now: int): (r: seq<LogRow>)
    ensures |r| == |rows|
    ensures forall i :: 0 <= i < |rows| ==> r[i] == if rows[i].id in ids then Sent(rows[i], now) else rows[i]
  {
    if |rows| == 0 then []
    else [if rows[0].id in ids then Sent(rows[0], now) else rows[0]] + MarkSent(rows[1..], ids, now)
  }

  /** The `catch` block: 401 for the message 'Unauthorized', 500 for any other. */
  function ErrorResponse(message: string): Response {
    Response(if message == UnauthorizedMessage then 401 else 500, ErrorBody(message), true)
  }

  /** The table after the request, the response, and the requests made. */
  datatype Outcome = Outcome(rows: seq<LogRow>, response: Response, queries: seq<Query>)

  /** `handler(req)`. A failed update is taken to leave the table as it was. */
  function Handle(rows: seq<LogRow>, req: Request, isUser: string -> bool,
                  fetchError: Option<Failure>, updateError: Option<Failure>, now: int): Outcome
  {
    if req.httpMethod == "OPTIONS" then Outcome(rows, Response(200, NoBody, false), [])
    else if req.authorization.None? || !Truthy(req.authorization.value) then
      Outcome(rows, ErrorResponse(MissingHeaderMessage), [])
    else
      var token := ReplaceFirst(req.authorization.value, BearerPrefix, "");
      if !isUser(token) then Outcome(rows, ErrorResponse(UnauthorizedMessage), [GetUser(token)])
      else if fetchError.Some? then
        Outcome(rows, ErrorResponse(fetchError.value.message), [GetUser(token), SelectPending])
      else
        var pending := Filter(rows, IsPending);
        if |pending| == 0 then Outcome(rows, Response(200, Processed(0), true), [GetUser(token), SelectPending])
        else
          var queries := [GetUser(token), SelectPending, UpdateToSent(Ids(pending), now)];
          if updateError.Some? then Outcome(rows, ErrorResponse(updateError.value.message), queries)
          else Outcome(MarkSent(rows, Ids(pending), now), Response(200, Processed(|pending|), true), queries)
  }

  /** A preflight request is answered with the CORS headers alone, before any check or request. */
  lemma PreflightTouchesNothing(rows: seq<LogRow>, req: Request, isUser: string -> bool,
                                fetchError: Option<Failure>, updateError: Option<Failure>, now: int)
    requires req.httpMethod == "OPTIONS"
    ensures Handle(rows, req, isUser, fetchError, updateError, now) == Outcome(rows, Response(200, NoBody, false), [])
  {
  }

  /**
   * A missing or empty header is an error whose message is not 'Unauthorized', so it is
   * answered with 500, and the auth server is never asked.
   */
  lemma MissingHeaderIsServerError(rows: seq<LogRow>, req: Request, isUser: string -> bool,
                                   fetchError: Option<Failure>, updateError: Option<Failure>, now: int)
    requires req.httpMethod != "OPTIONS"
    requires req.authorization.None? || req.authorization.value == ""
    ensures var o := Handle(rows, req, isUser, fetchError, updateError, now);
      o.response == Response(500, ErrorBody(MissingHeaderMessage), true) && o.queries == [] && o.rows == rows
  {
    assert MissingHeaderMessage != UnauthorizedMessage by { assert MissingHeaderMessage[0] != UnauthorizedMessage[0]; }
  }

  /**
   * The token checked is the header with its first "Bearer " removed: a header of the form
   * "Bearer t" gives `t`, and a header without "Bearer " anywhere is used as it is.
   */
  lemma TokenIsHeaderWithoutBearer(rows: seq<LogRow>, req: Request, isUser: string -> bool,
                                   fetchError: Option<Failure>, updateError: Option<Failure>, now: int, t: string)
    requires req.httpMethod != "OPTIONS" && req.authorization.Some? && req.authorization.value != ""
    ensures var o := Handle(rows, req, isUser, fetchError, updateError, now);
      && |o.queries| >= 1
      && o.queries[0] == GetUser(ReplaceFirst(req.authorization.value, BearerPrefix, ""))
      && (req.authorization.value == BearerPrefix + t ==> o.queries[0] == GetUser(t))
      && (!Contains(req.authorization.value, BearerPrefix) ==> o.queries[0] == GetUser(req.authorization.value))
  {
    if req.authorization.value == BearerPrefix + t {
      BearerStripped(t);
    }
  }

  lemma BearerStripped(t: string)
    ensures ReplaceFirst(BearerPrefix + t, BearerPrefix, "") == t
  {
    var h := BearerPrefix + t;
    assert h[0..|BearerPrefix|] == BearerPrefix;
    assert OccursAt(h, BearerPrefix, 0);
    assert FirstOccurrence(h, BearerPrefix, 0) == Some(0);
    assert h[|BearerPrefix|..] == t;
  }

  /**
   * The status is 200, 401 or 500; it is 401 exactly when the error's message is
   * 'Unauthorized' (a rejected token, or a table error that happens to carry that message),
   * and 200 exactly for a preflight or a run that completed.
   */
  lemma StatusRule(rows: seq<LogRow>, req: Request, isUser: string -> bool,
                   fetchError: Option<Failure>, updateError: Option<Failure>, now: int)
    ensures var r := Handle(rows, req, isUser, fetchError, updateError, now).response;
      && (r.status == 200 || r.status == 401 || r.status == 500)
      && (r.status == 401 <==> r.body == ErrorBody(UnauthorizedMessage))
      && (r.status == 200 <==> !r.body.ErrorBody?)
  {
  }

  /** Identifiers are unique, as the table's primary key makes them. */
  predicate UniqueIds(rows: seq<LogRow>) {
    forall i, j :: 0 <= i < j < |rows| ==> rows[i].id != rows[j].id
  }

  /** A row's id is among the pending ids exactly when the row is pending. */
  lemma PendingIds(rows: seq<LogRow>, i: int)
    requires UniqueIds(rows) && 0 <= i < |rows|
    ensures rows[i].id in Ids(Filter(rows, IsPending)) <==> IsPending(rows[i])
  {
    var pending := Filter(rows, IsPending);
    FilterSelects(rows, IsPending);
    if rows[i].id in Ids(pending) {
      var k :| 0 <= k < |pending| && Ids(pending)[k] == rows[i].id;
      assert pending[k] in rows;
      var j :| 0 <= j < |rows| && rows[j] == pending[k];
      assert j == i;
    }
    if IsPending(rows[i]) {
      assert rows[i] in pending;
      var k :| 0 <= k < |pending| && pending[k] == rows[i];
      assert Ids(pending)[k] == rows[i].id;
    }
  }

  /**
   * A completed run turns every row that was pending into a sent row stamped with the
   * current time, changes no other row, reports how many rows it found pending, and
   * leaves no row pending. A run that fails changes nothing.
   */
  lemma CompletedRunSendsPending(rows: seq<LogRow>, req: Request, isUser: string -> bool,
                                 fetchError: Option<Failure>, updateError: Option<Failure>, now: int)
    requires UniqueIds(rows)
    requires req.httpMethod != "OPTIONS"
    ensures var o := Handle(rows, req, isUser, fetchError, updateError, now);
      && |o.rows| == |rows|
      && (o.response.status != 200 ==> o.rows == rows)
      && (o.response.status == 200 ==>
            && o.response.body == Processed(Count(rows, IsPending))
            && (forall i :: 0 <= i < |rows| ==> o.rows[i] == if IsPending(rows[i]) then Sent(rows[i], now) else rows[i])
            && Count(o.rows, IsPending) == 0)
  {
    var o := Handle(rows, req, isUser, fetchError, updateError, now);
    if o.response.status == 200 {
      forall i | 0 <= i < |rows|
        ensures o.rows[i] == if IsPending(rows[i]) then Sent(rows[i], now) else rows[i]
      {
        PendingIds(rows, i);
      }
      assert forall r :: r in o.rows ==> !IsPending(r);
      FilterNone(o.rows, IsPending);
    }
  }

  /** With nothing pending, no update is sent and the response reports zero. */
  lemma NothingPendingNoUpdate(rows: seq<LogRow>, req: Request, isUser: string -> bool,
                               fetchError: Option<Failure>, updateError: Option<Failure>, now: int)
    requires forall r :: r in rows ==> !IsPending(r)
    ensures var o := Handle(rows, req, isUser, fetchError, updateError, now);
      && o.rows == rows
      && (forall q :: q in o.queries ==> !q.UpdateToSent?)
      && (o.response.status == 200 && req.httpMethod != "OPTIONS" ==> o.response.body == Processed(0))
  {
    FilterNone(rows, IsPending);
  }

  /** The `email_logs` table, updated in place by the handler. */
  class EmailLogs {
    var rows: seq<LogRow>

    constructor (initial: seq<LogRow>)
      ensures rows == initial
    {
      rows := initial;
    }

    /** Serves one request; `queries` are the requests it made, in order. */
    method Serve(req: Request, isUser: string -> bool, fetchError: Option<Failure>, updateError: Option<Failure>, now: int)
      returns (response: Response, queries: seq<Query>)
      modifies this
      ensures Outcome(rows, response, queries) == Handle(old(rows), req, isUser, fetchError, updateError, now)
    {
      if req.httpMethod == "OPTIONS" {
        return Response(200, NoBody, false), [];
      }
      var header := req.authorization;
      if header.None? || !Truthy(header.value) {
        return ErrorResponse(MissingHeaderMessage), [];
      }
      var token := ReplaceFirst(header.value, BearerPrefix, "");
      if !isUser(token) {
        return ErrorResponse(UnauthorizedMessage), [GetUser(token)];
      }
      if fetchError.Some? {
        return ErrorResponse(fetchError.value.message), [GetUser(token), SelectPending];
      }
      var pending := Filter(rows, IsPending);
      queries := [GetUser(token), SelectPending];
      if |pending| > 0 {
        var ids := Ids(pending);
        queries := [GetUser(token), SelectPending, UpdateToSent(ids, now)];
        if updateError.Some? {
          return ErrorResponse(updateError.value.message), queries;
        }
        var before := rows;
        var i := 0;
        while i < |rows|
          invariant |rows| == |before| && 0 <= i <= |rows|
          invariant forall j :: 0 <= j < i ==> rows[j] == if before[j].id in ids then Sent(before[j], now) else before[j]
          invariant forall j :: i <= j < |rows| ==> rows[j] == before[j]
        {
          if rows[i].id in ids {
            rows := rows[i := Sent(rows[i], now)];
          }
          i := i + 1;
        }
        assert rows == MarkSent(before, ids, now);
      }
      response := Response(200, Processed(|pending|), true);
    }
  }
}
