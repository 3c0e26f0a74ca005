/**
 Refresh sessions: a login starts a session, each rotation replaces it by a new one. Sessions are identified by the
 order in which they were inserted, tokens by their hashes, which a unique index keeps distinct.
 */
module RefreshSessions {
  import opened Common

  type Token = nat

  datatype Session = Session(user: Uuid, token: Token, expires: nat, revoked: bool, replacedBy: Option<nat>)

  type Table = seq<Session>

  datatype Result = Rotated(user: Uuid) | InvalidRefresh | RefreshReuse | ConstraintError

  predicate Known(t: Table, token: Token) { exists i | 0 <= i < |t| :: t[i].token == token }

  /** The place of a token, or the length of the table. */
  function Find(t: Table, token: Token): (i: nat)
    ensures i <= |t| && (i < |t| ==> t[i].token == token) && (i < |t| <==> Known(t, token))
  {
    if t == [] then 0
    else
      var front := t[..|t| - 1];
      var i := Find(front, token);
      assert Known(t, token) <==> Known(front, token) || t[|t| - 1].token == token by {
        if k :| 0 <= k < |front| && front[k].token == token { assert t[k].token == token; }
        assert forall k | 0 <= k < |front| :: t[k] == front[k];
        if t[|t| - 1].token == token { assert t[|t| - 1].token == token; }
      }
      if i < |front| then i else if t[|t| - 1].token == token then |t| - 1 else |t|
  }

  function CreateTx(t: Table, user: Uuid, token: Token, expires: nat): (Table, bool)
  {
    if Known(t, token) then (t, false) else (t + [Session(user, token, expires, false, None)], true)
  }

  predicate Usable(s: Session, now: nat) { !s.revoked && s.expires > now }

  /** The one statement that rotates; `None` when it inserted no replacement. */
  function RotateTx(t: Table, token: Token, replacement: Token, expires: nat, now: nat): (Table, Option<Result>)
  {
    var i := Find(t, token);
    if i == |t| || !Usable(t[i], now) then (t, None)
    else if Known(t, replacement) then (t, Some(ConstraintError))
    else
      (t[i := t[i].(revoked := true, replacedBy := Some(|t|))] + [Session(t[i].user, replacement, expires, false, None)],
       Some(Rotated(t[i].user)))
  }

  /** What is still to be done after looking at a token that did not rotate. */
  datatype Response = Nothing | RevokeUser(user: Uuid) | RevokeOne(session: nat)

  function InspectTx(t: Table, token: Token, now: nat): Response
  {
    var i := Find(t, token);
    if i == |t| then Nothing
    else if t[i].revoked then RevokeUser(t[i].user)
    else if t[i].expires <= now then RevokeOne(i)
    else Nothing
  }

  function RevokeAll(t: Table, user: Uuid): Table
  {
    seq(|t|, i requires 0 <= i < |t| => if t[i].user == user then t[i].(revoked := true) else t[i])
  }

  function RespondTx(t: Table, r: Response): Table
  {
    match r
    case Nothing => t
    case RevokeUser(user) => RevokeAll(t, user)
    case RevokeOne(session) => if session < |t| then t[session := t[session].(revoked := true)] else t
  }

  function RevokeTx(t: Table, token: Token): (Table, bool)
  {
    var i := Find(t, token);
    if i == |t| then (t, false) else (t[i := t[i].(revoked := true)], true)
  }

  class Repository {
    var sessions: Table

    constructor ()
      ensures sessions == []
    {
      sessions := [];
    }

    method Lookup(token: Token) returns (i: nat)
      ensures i == Find(sessions, token)
    {
      i := Find(sessions, token);
    }

    method CreateSession(user: Uuid, token: Token, expires: nat) returns (ok: bool)
      modifies this
      ensures (sessions, ok) == CreateTx(old(sessions), user, token, expires)
    {
      if Known(sessions, token) { return false; }
      sessions := sessions + [Session(user, token, expires, false, None)];
      return true;
    }

    /** A rotation nobody interferes with. */
    method RotateSession(token: Token, replacement: Token, expires: nat, now: nat) returns (r: Result)
      modifies this
      ensures var (t, done) := RotateTx(old(sessions), token, replacement, expires, now);
              if done.Some? then sessions == t && r == done.value
              else var response := InspectTx(t, token, now);
                   sessions == RespondTx(t, response) && r == if response.RevokeUser? then RefreshReuse else InvalidRefresh
    {
      var i := Lookup(token);
      if i < |sessions| && !sessions[i].revoked && sessions[i].expires > now {
        if Known(sessions, replacement) { return ConstraintError; }
        var user := sessions[i].user;
        var id := |sessions|;
        sessions := sessions[i := sessions[i].(revoked := true, replacedBy := Some(id))];
        sessions := sessions + [Session(user, replacement, expires, false, None)];
        return Rotated(user);
      }
      r := RotateSessionFailure(token, now);
    }

    method RotateSessionFailure(token: Token, now: nat) returns (r: Result)
      modifies this
      ensures var response := InspectTx(old(sessions), token, now);
              sessions == RespondTx(old(sessions), response) && r == if response.RevokeUser? then RefreshReuse else InvalidRefresh
    {
      var i := Lookup(token);
      if i == |sessions| { return InvalidRefresh; }
      if sessions[i].revoked {
        var user := sessions[i].user;
        for k := 0 to |sessions|
          invariant |sessions| == |old(sessions)|
          invariant forall j | 0 <= j < |sessions| ::
                      sessions[j] == if j < k then RevokeAll(old(sessions), user)[j] else old(sessions)[j]
        {
          if sessions[k].user == user && !sessions[k].revoked {
            sessions := sessions[k := sessions[k].(revoked := true)];
          }
        }
        return RefreshReuse;
      }
      if sessions[i].expires <= now { sessions := sessions[i := sessions[i].(revoked := true)]; }
      return InvalidRefresh;
    }

    method RevokeSession(token: Token) returns (ok: bool)
      modifies this
      ensures (sessions, ok) == RevokeTx(old(sessions), token)
    {
      var i := Lookup(token);
      if i == |sessions| { return false; }
      sessions := sessions[i := sessions[i].(revoked := true)];
      return true;
    }
  }
}
