/**
 The plugin side of the handshake: a server that accepts one bootstrap token once and lets nothing
 else through before that.
 */
module PluginServer {

  type Token = string

  /** Who sent a request: the supervisor over its own connection, or anybody else who can connect. */
  datatype Caller = Kernel | Stranger

  /** What happened at the server, in the order in which requests took its lock. */
  datatype Entry =
    | AuthAccepted(caller: Caller, token: Token)
    | AuthRefused(caller: Caller)
    | CoreReached
    | GateRefused

  datatype Server = Server(token: Token, authUsed: bool, log: seq<Entry>)

  function Boot(token: Token): Server {
    Server(token, false, [])
  }

  /** The Auth method; an optional hook of the plugin may refuse before the token is looked at. */
  function HandleAuth(s: Server, caller: Caller, token: Token, hookAllows: bool): (r: (Server, bool)) {
    if !hookAllows || s.authUsed || token != s.token then
      (s.(log := s.log + [AuthRefused(caller)]), false)
    else
      (s.(authUsed := true, log := s.log + [AuthAccepted(caller, token)]), true)
  }

  /** Every other method: pass the gate first, then reach the plugin core. */
  function HandleGated(s: Server): (r: (Server, bool)) {
    if s.authUsed then (s.(log := s.log + [CoreReached]), true)
    else (s.(log := s.log + [GateRefused]), false)
  }

  /** Over its whole life a server accepts at most one token, its own, and nothing reaches the core before. */
  ghost predicate Disciplined(s: Server) {
    && (s.authUsed <==> exists i :: 0 <= i < |s.log| && s.log[i].AuthAccepted?)
    && (forall i, j ::
          0 <= i < |s.log| && 0 <= j < |s.log| && s.log[i].AuthAccepted? && s.log[j].AuthAccepted? ==> i == j)
    && (forall i :: 0 <= i < |s.log| && s.log[i].AuthAccepted? ==> s.log[i].token == s.token)
    && (forall i :: 0 <= i < |s.log| && s.log[i].CoreReached? ==> exists j :: 0 <= j < i && s.log[j].AuthAccepted?)
  }

  lemma AuthKeepsDiscipline(s: Server, caller: Caller, token: Token, hookAllows: bool)
    requires Disciplined(s)
    ensures Disciplined(HandleAuth(s, caller, token, hookAllows).0)
    ensures HandleAuth(s, caller, token, hookAllows).1 <==> hookAllows && !s.authUsed && token == s.token
    ensures
      var (t, ok) := HandleAuth(s, caller, token, hookAllows);
      && t.log == s.log + [if ok then AuthAccepted(caller, token) else AuthRefused(caller)]
      && t.token == s.token && (t.authUsed <==> s.authUsed || ok)
  {
    var t := HandleAuth(s, caller, token, hookAllows).0;
    assert t.log[|s.log|] == t.log[|t.log| - 1];
    assert forall i :: 0 <= i < |s.log| ==> t.log[i] == s.log[i];
  }

  /** The gate is open exactly after an accepted Auth, and what comes through it is on record. */
  lemma GateKeepsDiscipline(s: Server)
    requires Disciplined(s)
    ensures Disciplined(HandleGated(s).0)
    ensures
      var (t, reached) := HandleGated(s);
      && (reached <==> exists i :: 0 <= i < |s.log| && s.log[i].AuthAccepted?)
      && t.log == s.log + [if reached then CoreReached else GateRefused]
      && t.token == s.token && t.authUsed == s.authUsed
  {
    var t := HandleGated(s).0;
    assert t.log[|s.log|] == t.log[|t.log| - 1];
    assert forall i :: 0 <= i < |s.log| ==> t.log[i] == s.log[i];
  }

  /** The server object: `authUsed` is the only field that requests change. */
  class PluginService {
    const token: Token
    var authUsed: bool
    ghost var log: seq<Entry>

    ghost function View(): Server
      reads this
    {
      Server(token, authUsed, log)
    }

    constructor (token: Token)
      ensures View() == Boot(token) && Disciplined(View())
    {
      this.token := token;
      authUsed := false;
      log := [];
    }

    method Auth(caller: Caller, offered: Token, hookAllows: bool) returns (ok: bool)
      requires Disciplined(View())
      modifies this
      ensures (View(), ok) == HandleAuth(old(View()), caller, offered, hookAllows)
      ensures Disciplined(View())
    {
      AuthKeepsDiscipline(View(), caller, offered, hookAllows);
      if !hookAllows {
        log := log + [AuthRefused(caller)];
        return false;
      }
      if authUsed || offered != token {
        log := log + [AuthRefused(caller)];
        return false;
      }
      authUsed := true;
      log := log + [AuthAccepted(caller, offered)];
      return true;
    }

    method Gated() returns (reached: bool)
      requires Disciplined(View())
      modifies this
      ensures (View(), reached) == HandleGated(old(View()))
      ensures Disciplined(View())
      ensures reached <==> exists i :: 0 <= i < |old(log)| && old(log)[i].AuthAccepted?
    {
      GateKeepsDiscipline(View());
      if !authUsed {
        log := log + [GateRefused];
        return false;
      }
      log := log + [CoreReached];
      return true;
    }
  }
}
