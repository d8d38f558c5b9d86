/**
 * The Socket.IO event handlers of app/main.py: the `token=` query parameter is
 * taken from the connection's query string, the authenticated user is recorded
 * under the session id, and each message is either refused, ignored or passed
 * on to the chat assistant. Token decoding and the user lookup are one function
 * parameter, `authenticate`.
 */
module SocketServer {
  import opened Wrappers
  import opened Sequences
  import opened NoteService

  type Sid = int

  // ---------------------------------------------------------------- str.split

  /** Python's `s.split(c)` for a one-character separator. */
  function Split(s: string, c: char): (r: seq<string>)
    ensures |r| >= 1
    ensures forall k :: 0 <= k < |r| ==> c !in r[k]
    ensures r[0] == s[..IndexOf(s, c)]
    ensures c in s ==> |r| >= 2 && r[1..] == Split(s[IndexOf(s, c) + 1..], c)
    decreases |s|
  {
    var i := IndexOf(s, c);
    if i == |s| then [s]
    else [s[..i]] + Split(s[i + 1..], c)
  }

  /** Splitting and joining again gives back the string. */
  lemma {:induction false} JoinSplit(s: string, c: char)
    ensures Join(Split(s, c), c) == s
    decreases |s|
  {
    var i := IndexOf(s, c);
    if i < |s| {
      JoinSplit(s[i + 1..], c);
      assert s == s[..i] + [c] + s[i + 1..];
    }
  }

  /** `s.startswith(p)`. */
  predicate StartsWith(s: string, p: string)
  {
    |p| <= |s| && s[..|p|] == p
  }

  // ---------------------------------------------------------------- the token

  const TOKEN_PREFIX: string := "token="

  /** The token of the first parameter that starts with `token=`: the text between its
      first and its second `=`. */
  function FirstToken(params: seq<string>): (r: Option<string>)
    ensures r.None? <==> forall k :: 0 <= k < |params| ==> !StartsWith(params[k], TOKEN_PREFIX)
  {
    if params == [] then None
    else if StartsWith(params[0], TOKEN_PREFIX) then Some(TokenValue(params[0]))
    else FirstToken(params[1..])
  }

  /** A found token comes from the first parameter that starts with `token=`. */
  lemma {:induction false} FirstTokenIsFirstMatch(params: seq<string>)
    requires FirstToken(params).Some?
    ensures exists k ::
      && 0 <= k < |params| && StartsWith(params[k], TOKEN_PREFIX)
      && (forall j :: 0 <= j < k ==> !StartsWith(params[j], TOKEN_PREFIX))
      && FirstToken(params).value == TokenValue(params[k])
  {
    if !StartsWith(params[0], TOKEN_PREFIX) {
      FirstTokenIsFirstMatch(params[1..]);
      var k :|
        && 0 <= k < |params[1..]| && StartsWith(params[1..][k], TOKEN_PREFIX)
        && (forall j :: 0 <= j < k ==> !StartsWith(params[1..][j], TOKEN_PREFIX))
        && FirstToken(params[1..]).value == TokenValue(params[1..][k]);
      assert forall j :: 0 <= j < k + 1 ==> !StartsWith(params[j], TOKEN_PREFIX) by {
        forall j | 0 <= j < k + 1
          ensures !StartsWith(params[j], TOKEN_PREFIX)
        {
          if j > 0 {
            assert params[j] == params[1..][j - 1];
          }
        }
      }
      assert params[k + 1] == params[1..][k];
    }
  }

  /** A connection without a query string carries no token. */
  lemma EmptyQueryHasNoToken()
    ensures FirstToken(Split("", '&')) == None
  {
    assert Split("", '&') == [""];
  }

  /** `param.split('=')[1]` for a parameter that starts with `token=`. */
  function TokenValue(param: string): (r: string)
    requires StartsWith(param, TOKEN_PREFIX)
    ensures var v := param[|TOKEN_PREFIX|..]; r == v[..IndexOf(v, '=')]
  {
    assert IndexOf(param, '=') == 5 by {
      assert param[..6] == TOKEN_PREFIX;
      assert param[5] == '=';
      assert '=' !in param[..5];
    }
    Split(param, '=')[1]
  }

  /** The value ends at the next `=`: a token containing `=` is cut short there, and a
      value without one is kept whole (in particular `token=` gives the empty string). */
  lemma TokenValueTruncates(v: string)
    ensures TokenValue(TOKEN_PREFIX + v) == v[..IndexOf(v, '=')]
  {
    assert (TOKEN_PREFIX + v)[|TOKEN_PREFIX|..] == v;
  }

  lemma EmptyTokenIsEmptyString()
    ensures TokenValue(TOKEN_PREFIX) == ""
  {
    TokenValueTruncates("");
    assert TOKEN_PREFIX + "" == TOKEN_PREFIX;
  }

  /** The loop of `connect`: split the query string at `&` and stop at the first
      parameter that starts with `token=`. */
  method ExtractToken(queryString: string) returns (token: Option<string>)
    ensures token == FirstToken(Split(queryString, '&'))
  {
    var params := Split(queryString, '&');
    token := None;
    var i := 0;
    while i < |params|
      invariant 0 <= i <= |params|
      invariant token.None?
      invariant FirstToken(params) == FirstToken(params[i..])
    {
      var param := params[i];
      if StartsWith(param, TOKEN_PREFIX) {
        token := Some(TokenValue(param));
        break;
      }
      assert params[i..][1..] == params[i + 1..];
      i := i + 1;
    }
  }

  /** What the `message` handler does. */
  datatype Reply =
    | Refuse                                       // unknown sid: disconnect it
    | Ignore                                       // no message text: do nothing
    | AskAssistant(userId: UserId, message: string) // answer through the chat assistant

  class Server {
    /** `connected_users`: the session ids of authenticated sockets and their users. */
    var connectedUsers: map<Sid, UserId>

    constructor ()
      ensures connectedUsers == map[]
    {
      connectedUsers := map[];
    }

    /** `connect`: without a token, or with one that does not authenticate, the socket
        is disconnected and nothing is recorded. */
    method Connect(sid: Sid, queryString: string, authenticate: string -> Option<UserId>)
      returns (user: Option<UserId>)
      modifies this
      ensures var token := FirstToken(Split(queryString, '&'));
        user == (if token.None? then None else authenticate(token.value))
      ensures user.None? ==> connectedUsers == old(connectedUsers)
      ensures user.Some? ==> connectedUsers == old(connectedUsers)[sid := user.value]
    {
      var token := ExtractToken(queryString);
      if token.None? {
        return None;
      }
      user := authenticate(token.value);
      if user.None? {
        return None;
      }
      connectedUsers := connectedUsers[sid := user.value];
    }

    /** `message`: the text is passed on only for a known sid and only when it is
        present and non-empty. */
    method Message(sid: Sid, message: Option<string>) returns (reply: Reply)
      ensures sid !in connectedUsers <==> reply == Refuse
      ensures sid in connectedUsers && (message.None? || message.value == "") ==> reply == Ignore
      ensures sid in connectedUsers && message.Some? && message.value != "" ==>
        reply == AskAssistant(connectedUsers[sid], message.value)
    {
      if sid !in connectedUsers {
        return Refuse;
      }
      var user := connectedUsers[sid];
      if message.Some? && message.value != "" {
        reply := AskAssistant(user, message.value);
      } else {
        reply := Ignore;
      }
    }

    /** `disconnect`: `pop(sid, None)`, which tolerates an unknown sid. */
    method Disconnect(sid: Sid) returns (user: Option<UserId>)
      modifies this
      ensures user == if sid in old(connectedUsers) then Some(old(connectedUsers)[sid]) else None
      ensures connectedUsers == old(connectedUsers) - {sid}
    {
      if sid in connectedUsers {
        user := Some(connectedUsers[sid]);
        connectedUsers := connectedUsers - {sid};
      } else {
        user := None;
      }
    }
  }
}
