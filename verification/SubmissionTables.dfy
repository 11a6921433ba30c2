/** The submission table, and the site's own guarded updates of it. */
module SubmissionTables {
  import opened Options
  import opened Tokens
  import opened DispatchTokens

  class SubmissionTable {
    var rows: Rows

    constructor (rows: Rows)
      ensures this.rows == rows
    {
      this.rows := rows;
    }

    /** Takes a request to judge the submission, under a fresh token. */
    method QueueSubmission(id: Id, request: Request, minted: Token) returns (accepted: bool)
      modifies this
      ensures rows == Requested(old(rows), id, request, minted)
      ensures accepted == (id in old(rows) && Accepts(old(rows)[id], request))
      ensures !accepted ==> rows == old(rows)
      ensures accepted ==>
        && id in rows && rows[id].status == (if request.storageClaimed then P else QU) && rows[id].token == Some(minted)
        && rows[id].points.None? && rows[id].cases == [] && rows[id].error.None?
    {
      var current := Lookup(rows, id);
      if current.Some? && current.value.status.AB? && !request.rejudge {
        return false;
      }
      if !request.storageClaimed && current.Some? && current.value.status.QU? && current.value.token.Some? {
        return false;
      }
      if current.None? {
        return false;
      }
      var row := current.value;
      if request.storageClaimed {
        if !row.status.P? {
          return false;
        }
      } else if row.status.P? || row.status.G? {
        return false;
      }
      rows := rows[id := row.(status := if request.storageClaimed then P else QU, token := Some(minted), points := None,
                              error := None)];
      rows := rows[id := rows[id].(cases := [])];
      return true;
    }

    // The bridge could not be reached, or answered something else.
    method MarkSendFailed(id: Id, token: Token)
      modifies this
      ensures rows == SendFailed(old(rows), id, token)
    {
      if id in rows && InProgress(rows[id].status) && rows[id].token == Some(token) {
        rows := rows[id := rows[id].(status := IE)];
      }
    }

    // What the site does before a request, when the problem's files have to be restored first.
    method PrepareJudging(id: Id, what: Preparation) returns (changed: bool)
      modifies this
      ensures rows == Prepared(old(rows), id, what)
      ensures changed == (id in old(rows) && MayPrepare(old(rows)[id].status, what))
    {
      if id !in rows || !MayPrepare(rows[id].status, what) {
        return false;
      }
      var row := rows[id];
      changed := true;
      match what
      case Claim(_) => rows := rows[id := row.(status := P)];
      case PutOff => rows := rows[id := row.(status := QU)];
      case Refuse(message) => rows := rows[id := row.(status := IE, error := Some(message))];
    }

    // The site gives up on a submission it saw as `seen`; `atJudge` is the bridge's answer. What it saw may be stale.
    method AbortSubmission(id: Id, seen: Status, atJudge: bool)
      modifies this
      ensures rows == SiteAborted(old(rows), id, seen, atJudge)
      ensures seen.D? || atJudge || id !in rows ==> rows == old(rows)
      ensures rows != old(rows) ==> rows[id].status.AB? && !seen.D? && !atJudge
    {
      if seen.D? {
        return;
      }
      if !atJudge && id in rows {
        rows := rows[id := rows[id].(status := AB, points := Some(0.0))];
      }
    }
  }
}
