/**
 * The e-mail sender's log (email_service.py): every `send_email` call
 * writes one row to the `email_logs` table as "pending" and then settles it
 * as "sent" or "failed"; `get_email_logs` reads the newest rows back.
 *
 * The SMTP session is not modelled: how it ended enters `SendEmail` as an
 * `SmtpOutcome`. Timestamps are integers supplied by the caller in place of
 * the clock. The row's id is the next SQLite rowid, as for tasks.
 */
module Email {
  import opened Common
  import opened Ranking
  import opened Tasks

  /** The values the `status` column takes. */
  datatype LogStatus = PendingLog | SentLog | FailedLog

  function LogStatusValue(s: LogStatus): string
  {
    match s
    case PendingLog => "pending"
    case SentLog => "sent"
    case FailedLog => "failed"
  }

  /** A row of the `email_logs` table. */
  datatype EmailLog = EmailLog(
    id: nat,
    toEmail: string,
    toAlias: Option<string>,
    subject: string,
    body: string,
    status: LogStatus,
    errorMessage: Option<string>,
    sentAt: Option<int>,
    createdAt: int)

  /** How the SMTP exchange ended: delivered, refused the login, failed
      with another SMTP error, or failed with some other exception. */
  datatype SmtpOutcome = Delivered | AuthFailed | SmtpError(message: string) | OtherError(message: string)

  /** The dictionary `send_email` returns: `success` is `Sent?`. */
  datatype SendReply = Sent(message: string, logId: nat) | NotSent(error: string)

  const AuthError := "Authentication failed. Check SENDER_PASSWORD in .env (use Gmail App Password)"

  /** The error recorded for a failed exchange. */
  function FailureText(outcome: SmtpOutcome): string
    requires outcome != Delivered
  {
    match outcome
    case AuthFailed => AuthError
    case SmtpError(m) => "SMTP error: " + m
    case OtherError(m) => "Failed to send email: " + m
  }

  /** The row as the exchange leaves it: sent with its sending time, or
      failed with the error. */
  function Settled(log: EmailLog, outcome: SmtpOutcome, sentAt: int): EmailLog
  {
    if outcome == Delivered then log.(status := SentLog, sentAt := Some(sentAt))
    else log.(status := FailedLog, errorMessage := Some(FailureText(outcome)))
  }

  /** What `get_email_logs` shows of a row. */
  datatype LogView = LogView(id: nat, to: string, alias: Option<string>, subject: string, status: string, sentAt: Option<int>)

  function ViewOf(log: EmailLog): LogView
  {
    LogView(log.id, log.toEmail, log.toAlias, log.subject, LogStatusValue(log.status), log.sentAt)
  }

  /** `vs` is what `ORDER BY created_at DESC LIMIT` returns: `n` distinct
      rows, newest first, and no row left out is newer than one listed. */
  ghost predicate NewestLogsFirst(logs: map<nat, EmailLog>, vs: seq<LogView>, n: nat)
  {
    && |vs| == n
    && (forall i :: 0 <= i < |vs| ==> vs[i].id in logs && ViewOf(logs[vs[i].id]) == vs[i])
    && (forall i, j :: 0 <= i < j < |vs| ==> vs[i].id != vs[j].id)
    && (forall i, j :: 0 <= i < j < |vs| ==> logs[vs[i].id].createdAt >= logs[vs[j].id].createdAt)
    && (forall k, i :: (k in logs && 0 <= i < |vs| && (forall j :: 0 <= j < |vs| ==> vs[j].id != k)) ==>
          logs[k].createdAt <= logs[vs[i].id].createdAt)
  }

  class EmailService {
    var logs: map<nat, EmailLog>

    /** Every row sits under its own id. */
    ghost predicate Valid()
      reads this
    {
      forall k :: k in logs ==> logs[k].id == k
    }

    constructor ()
      ensures Valid() && logs == map[]
    {
      logs := map[];
    }

    /** `db.add(email_log)` and `db.commit()`: a new pending row. */
    method Record(toEmail: string, toAlias: Option<string>, subject: string, body: string, now: int)
      returns (id: nat)
      requires Valid()
      modifies this
      ensures Valid()
      ensures id !in old(logs)
      ensures logs == old(logs)[id := EmailLog(id, toEmail, toAlias, subject, body, PendingLog, None, None, now)]
    {
      id := NextId(logs.Keys);
      logs := logs[id := EmailLog(id, toEmail, toAlias, subject, body, PendingLog, None, None, now)];
    }

    /** A pending row becomes sent, stamped with the sending time. */
    method MarkSent(id: nat, sentAt: int)
      requires Valid() && id in logs && logs[id].status == PendingLog
      modifies this
      ensures Valid()
      ensures logs == old(logs)[id := old(logs)[id].(status := SentLog, sentAt := Some(sentAt))]
    {
      logs := logs[id := logs[id].(status := SentLog, sentAt := Some(sentAt))];
    }

    /** A pending row becomes failed, with the error that ended it. */
    method MarkFailed(id: nat, error: string)
      requires Valid() && id in logs && logs[id].status == PendingLog
      modifies this
      ensures Valid()
      ensures logs == old(logs)[id := old(logs)[id].(status := FailedLog, errorMessage := Some(error))]
    {
      logs := logs[id := logs[id].(status := FailedLog, errorMessage := Some(error))];
    }

    /** `send_email`: one new row, recorded pending and settled by the
        outcome; the call succeeds exactly when the row ends up sent. */
    method SendEmail(toEmail: string, subject: string, body: string, toAlias: Option<string>,
                     outcome: SmtpOutcome, now: int, sentAt: int) returns (r: SendReply, logId: nat)
      requires Valid()
      modifies this
      ensures Valid()
      ensures logId !in old(logs)
      ensures logs == old(logs)[logId := Settled(EmailLog(logId, toEmail, toAlias, subject, body, PendingLog, None, None, now),
                                                 outcome, sentAt)]
      ensures outcome == Delivered ==> r == Sent("Email sent successfully to " + toEmail, logId)
      ensures outcome != Delivered ==> r == NotSent(FailureText(outcome))
      ensures logs[logId].status != PendingLog && (r.Sent? <==> logs[logId].status == SentLog)
    {
      logId := Record(toEmail, toAlias, subject, body, now);
      if outcome == Delivered {
        MarkSent(logId, sentAt);
        return Sent("Email sent successfully to " + toEmail, logId), logId;
      }
      var error := FailureText(outcome);
      MarkFailed(logId, error);
      r := NotSent(error);
    }

    /** `get_email_logs`: the newest `limit` rows. */
    method GetEmailLogs(limit: int) returns (vs: seq<LogView>)
      requires Valid()
      ensures NewestLogsFirst(logs, vs, Cap(limit, |logs|))
    {
      var table := logs;
      var ranks := map k | k in table :: table[k].createdAt;
      assert ranks.Keys == table.Keys;
      var ids := TopByRank(ranks, Cap(limit, |ranks|));
      vs := seq(|ids|, i requires 0 <= i < |ids| => ViewOf(table[ids[i]]));
      NewestLogsOf(table, ranks, ids, vs);
    }
  }

  // ---------------------------------------------------------------------
  // Properties

  /** The rows stored under a newest-first selection of ids, as shown. */
  lemma NewestLogsOf(logs: map<nat, EmailLog>, ranks: map<nat, int>, ids: seq<nat>, vs: seq<LogView>)
    requires forall k :: k in logs ==> logs[k].id == k
    requires ranks == map k | k in logs :: logs[k].createdAt
    requires NoDuplicates(ids)
    requires forall i :: 0 <= i < |ids| ==> ids[i] in ranks
    requires forall i, j :: 0 <= i < j < |ids| ==> ranks[ids[i]] >= ranks[ids[j]]
    requires forall k, i :: k in ranks && k !in ids && 0 <= i < |ids| ==> ranks[k] <= ranks[ids[i]]
    requires |vs| == |ids| && forall i :: 0 <= i < |vs| ==> vs[i] == ViewOf(logs[ids[i]])
    ensures NewestLogsFirst(logs, vs, |ids|)
  {
    forall i | 0 <= i < |vs|
      ensures vs[i].id == ids[i]
    {
      assert ids[i] in logs;
    }
    forall k, i | k in logs && 0 <= i < |vs| && (forall j :: 0 <= j < |vs| ==> vs[j].id != k)
      ensures logs[k].createdAt <= logs[vs[i].id].createdAt
    {
      forall j | 0 <= j < |ids|
        ensures ids[j] != k
      {
        assert vs[j].id != k;
      }
      assert k in ranks && k !in ids;
    }
  }

  /** A settled row is never left pending; it is sent exactly when the
      exchange succeeded, and then it has a sending time and no error,
      while a failed row has an error and no sending time. */
  lemma SettledState(log: EmailLog, outcome: SmtpOutcome, sentAt: int)
    requires log.status == PendingLog && log.errorMessage.None? && log.sentAt.None?
    ensures var s := Settled(log, outcome, sentAt);
      && s.status != PendingLog
      && (s.status == SentLog <==> outcome == Delivered)
      && (s.status == SentLog ==> s.sentAt == Some(sentAt) && s.errorMessage.None?)
      && (s.status == FailedLog ==> s.sentAt.None? && s.errorMessage == Some(FailureText(outcome)))
      && s.id == log.id && s.toEmail == log.toEmail && s.toAlias == log.toAlias
      && s.subject == log.subject && s.body == log.body && s.createdAt == log.createdAt
  {
  }
}
