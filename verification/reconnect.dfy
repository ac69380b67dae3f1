/**
 * The `connection.update` handler: a closed connection starts a fresh bot
 * unless the close reason is the library's logged-out status code.
 */
module Reconnect {
  import opened Wrappers

  /** `DisconnectReason.loggedOut` of the messaging library. */
  const LoggedOut: int := 401

  datatype Connection = Connecting | Open | Close

  /** The fields of the update the handler reads: `connection` and
      `lastDisconnect?.error?.output?.statusCode`, either of which may be absent. */
  datatype ConnectionUpdate = ConnectionUpdate(connection: Option<Connection>, statusCode: Option<int>)

  datatype Reaction =
    | Restart          // `startBot()` is called again
    | StayLoggedOut    // the "run the bot again" notice, and no restart
    | Announce         // the "connected" notice
    | NoReaction

  function OnConnectionUpdate(u: ConnectionUpdate): (r: Reaction)
    ensures r == Restart <==> u.connection == Some(Close) && u.statusCode != Some(LoggedOut)
    ensures r == StayLoggedOut <==> u.connection == Some(Close) && u.statusCode == Some(LoggedOut)
    ensures r == Announce <==> u.connection == Some(Open)
  {
    match u.connection
    case Some(Close) => if u.statusCode == Some(LoggedOut) then StayLoggedOut else Restart
    case Some(Open) => Announce
    case _ => NoReaction
  }

  /** The number of bots started when the first one is started at load time
      and bot `k` later sees one close with reason `closes[k]`: starts go on
      until the first logged-out close. */
  function BotsStarted(closes: seq<Option<int>>): (n: nat)
    ensures 1 <= n <= |closes| + 1
    ensures forall k :: 0 <= k < n - 1 ==> OnConnectionUpdate(ConnectionUpdate(Some(Close), closes[k])) == Restart
    ensures n <= |closes| ==> OnConnectionUpdate(ConnectionUpdate(Some(Close), closes[n - 1])) == StayLoggedOut
  {
    if closes == [] then 1
    else if OnConnectionUpdate(ConnectionUpdate(Some(Close), closes[0])) == Restart then 1 + BotsStarted(closes[1..])
    else 1
  }

  /** Nothing after a logged-out close starts a bot. */
  lemma {:induction false} LoggedOutIsFinal(closes: seq<Option<int>>, later: seq<Option<int>>)
    requires closes != [] && closes[|closes| - 1] == Some(LoggedOut)
    ensures BotsStarted(closes + later) == BotsStarted(closes)
  {
    if closes[0] == Some(LoggedOut) {
      assert (closes + later)[0] == closes[0];
    } else {
      assert |closes| > 1;
      assert (closes + later)[0] == closes[0];
      assert (closes + later)[1..] == closes[1..] + later;
      LoggedOutIsFinal(closes[1..], later);
    }
  }
}
