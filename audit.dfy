/**
 * Audit logging: the client information taken from a request's headers, and
 * the audit-log write that never lets a database failure reach the caller.
 * The database is an in-memory table of rows; whether the write succeeds is
 * a parameter.
 */
module Audit {
  import opened Wrappers
  import Strings
  import BackendAdapter

  /** What `getClientInfo` reports; `None` is `undefined`. */
  datatype ClientInfo = ClientInfo(ip: Option<string>, userAgent: Option<string>)

  /**
   * The `ip` of `getClientInfo`: the trimmed first comma-separated entry of a
   * non-empty `x-forwarded-for` when that is non-empty, else a non-empty
   * `x-real-ip`, else none.
   */
  function ClientIp(forwardedFor: Option<string>, realIp: Option<string>): (r: Option<string>)
    ensures r.Some? ==> r.value != ""
    ensures r.None? <==> (forwardedFor.None? || Strings.Trim(Strings.FirstField(forwardedFor.value, {','})) == "")
                         && (realIp.None? || realIp.value == "")
    ensures forwardedFor.Some? && Strings.Trim(Strings.FirstField(forwardedFor.value, {','})) != "" ==>
      r == Some(Strings.Trim(Strings.FirstField(forwardedFor.value, {','})))
  {
    var forwarded := if forwardedFor.Some? && forwardedFor.value != ""
                     then Strings.Trim(Strings.FirstField(forwardedFor.value, {','})) else "";
    if forwarded != "" then Some(forwarded)
    else if realIp.Some? && realIp.value != "" then Some(realIp.value)
    else None
  }

  /** `getClientInfo`: the header values, with empty ones reported as absent. */
  function GetClientInfo(forwardedFor: Option<string>, realIp: Option<string>, userAgent: Option<string>): (r: ClientInfo)
    ensures r.ip == ClientIp(forwardedFor, realIp)
    ensures r.userAgent.Some? <==> userAgent.Some? && userAgent.value != ""
    ensures r.userAgent.Some? ==> r.userAgent == userAgent
  {
    ClientInfo(ClientIp(forwardedFor, realIp),
               if userAgent.Some? && userAgent.value != "" then userAgent else None)
  }

  /** The audit ip and the Express adapter's `req.ip` agree, except that the adapter says "unknown" where the audit says nothing. */
  lemma {:induction false} ClientIpMatchesAdapter(forwardedFor: Option<string>, realIp: Option<string>)
    ensures ClientIp(forwardedFor, realIp).GetOr("unknown") == BackendAdapter.RemoteAddress(forwardedFor, realIp)
  {
    if forwardedFor.Some? && forwardedFor.value == "" {
      Strings.SplitNoSeparator("", {','});
      Strings.SplitFirstIsFirstField("", {','});
    }
  }

  /** An audit-log row; the action is one of the database's audit action names. */
  datatype AuditRow = AuditRow(actorUserId: string, action: string, entityType: string,
                               entityId: Option<string>, metadata: map<string, string>,
                               ip: Option<string>, userAgent: Option<string>)

  /** The parameters of `logAuditEvent`. */
  datatype AuditEvent = AuditEvent(actorUserId: string, action: string, entityType: string,
                                   entityId: Option<string>, metadata: Option<map<string, string>>,
                                   ip: Option<string>, userAgent: Option<string>)

  /** The row written for an event: everything as given, missing metadata stored as `{}`. */
  function RowOf(e: AuditEvent): (r: AuditRow)
    ensures r.metadata == (if e.metadata.Some? then e.metadata.value else map[])
    ensures r.actorUserId == e.actorUserId && r.action == e.action && r.entityType == e.entityType
    ensures r.entityId == e.entityId && r.ip == e.ip && r.userAgent == e.userAgent
  {
    AuditRow(e.actorUserId, e.action, e.entityType, e.entityId, e.metadata.GetOr(map[]), e.ip, e.userAgent)
  }

  /** The audit-log table. */
  class AuditLog {
    var rows: seq<AuditRow>

    constructor ()
      ensures rows == []
    {
      rows := [];
    }

    /**
     * `logAuditEvent`: appends the event's row when the database write
     * succeeds; a failed write leaves the table as it was and is not
     * reported to the caller.
     */
    method LogAuditEvent(e: AuditEvent, writeSucceeds: bool)
      modifies this
      ensures writeSucceeds ==> rows == old(rows) + [RowOf(e)]
      ensures !writeSucceeds ==> rows == old(rows)
      ensures |rows| >= |old(rows)| && rows[..|old(rows)|] == old(rows)
    {
      if writeSucceeds {
        rows := rows + [RowOf(e)];
      }
    }
  }

}
