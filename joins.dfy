/** The join-event handler, `joinshandler`: acts only on notifications about
    clients of server group 8, fetches their address with `clientinfo` and
    runs the blacklist check on it. */
module Joins {
  import opened Common
  import Blacklist
  import Actuator

  /** The server group whose members the bot checks. */
  const NEW_CLIENT_GROUP := "8"

  /** A server notification: the rows of its parsed payload. */
  datatype Event = Event(parsed: seq<map<string, string>>)

  /** What `clientinfo` answers about a client: the two fields the handler
      reads. */
  datatype ClientRecord = ClientRecord(nickname: string, ip: string)

  /** The server's answer to `clientinfo`: the clients it knows. */
  type Directory = map<ClientId, ClientRecord>

  /** The DNS blacklist lookup: the searcher's `listed` mapping per address. */
  type Lookup = string -> Blacklist.Listing

  /** The filter at the head of `joinshandler`: the client id to check, no
      client when `client_servergroups` is missing or is not `'8'`, IndexError
      for a payload without rows and KeyError when a matching row has no
      `clid`. */
  function JoinFilter(e: Event): (r: Result<Option<ClientId>>)
    ensures r == Ok(None) <==>
      |e.parsed| > 0
      && ("client_servergroups" !in e.parsed[0] || e.parsed[0]["client_servergroups"] != NEW_CLIENT_GROUP)
    ensures r.Ok? && r.value.Some? <==>
      |e.parsed| > 0 && "clid" in e.parsed[0]
      && "client_servergroups" in e.parsed[0] && e.parsed[0]["client_servergroups"] == NEW_CLIENT_GROUP
    ensures r.Ok? && r.value.Some? ==> r.value.value == e.parsed[0]["clid"]
    ensures r == Err(IndexError) <==> e.parsed == []
    ensures r == Err(KeyError("clid")) <==>
      |e.parsed| > 0 && Get(e.parsed[0], "client_servergroups") == Some(NEW_CLIENT_GROUP)
      && "clid" !in e.parsed[0]
  {
    if |e.parsed| == 0 then Err(IndexError)
    else
      var row := e.parsed[0];
      if Get(row, "client_servergroups") == Some(NEW_CLIENT_GROUP) then
        if "clid" in row then Ok(Some(row["clid"])) else Err(KeyError("clid"))
      else Ok(None)
  }

  /** `joinshandler(event)`: the filter; for a client to check, `clientinfo`
      (QueryError when the server does not know the id), then `rbl` on the
      client's address. */
  function JoinRun(e: Event, directory: Directory, blacklists: Lookup, actions: Section): Exec {
    match JoinFilter(e)
    case Err(f) => Exec([], Some(f))
    case Ok(None) => Exec([], None)
    case Ok(Some(clid)) =>
      if clid !in directory then Exec([ClientInfo(clid)], Some(QueryError(clid)))
      else
        var checked := Blacklist.RblRun(blacklists(directory[clid].ip), clid, actions);
        Exec([ClientInfo(clid)] + checked.issued, checked.raised)
  }

  /** The handler the bot registers for notifications: `joinshandler` with
      the server's answers, the blacklist lookup and the `Actions` settings
      fixed. */
  function JoinsHandler(directory: Directory, blacklists: Lookup, actions: Section): Event -> Exec {
    e => JoinRun(e, directory, blacklists, actions)
  }

  /** Events about other clients, and payloads without the group field, send
      nothing and raise nothing; a payload without rows, or a group-8 row
      without `clid`, sends nothing and raises the filter's exception.
      Otherwise the handler first asks for the
      client's info, raising QueryError exactly when the server does not know
      the client, and at most one moderation command follows, aimed at that
      client; it follows exactly when `rbl` sends one for the client's
      address, it is the sanction the verdict picks, and `rbl`'s exception is
      the handler's. */
  lemma JoinRunShape(e: Event, directory: Directory, blacklists: Lookup, actions: Section)
    ensures JoinFilter(e) == Ok(None) ==> JoinRun(e, directory, blacklists, actions) == Exec([], None)
    ensures JoinFilter(e).Err? ==> JoinRun(e, directory, blacklists, actions) == Exec([], Some(JoinFilter(e).failure))
    ensures var r := JoinRun(e, directory, blacklists, actions);
      r.issued != [] ==>
        && JoinFilter(e).Ok? && JoinFilter(e).value.Some?
        && r.issued[0] == ClientInfo(JoinFilter(e).value.value)
        && |r.issued| <= 2
        && forall i :: 1 <= i < |r.issued| ==>
             IsModeration(r.issued[i]) && r.issued[i].clid == JoinFilter(e).value.value
    ensures |JoinRun(e, directory, blacklists, actions).issued| == 2 <==>
      && JoinFilter(e).Ok? && JoinFilter(e).value.Some?
      && JoinFilter(e).value.value in directory
      && Blacklist.RblRun(blacklists(directory[JoinFilter(e).value.value].ip),
                          JoinFilter(e).value.value, actions).issued != []
    ensures var r := JoinRun(e, directory, blacklists, actions);
      JoinFilter(e).Ok? && JoinFilter(e).value.Some? ==>
        var c := JoinFilter(e).value.value;
        && |r.issued| > 0 && r.issued[0] == ClientInfo(c)
        && (r.raised == Some(QueryError(c)) <==> c !in directory)
        && (c in directory ==>
              var verdict := Blacklist.Verdict(blacklists(directory[c].ip), actions);
              && r.raised == Blacklist.RblRun(blacklists(directory[c].ip), c, actions).raised
              && ((|r.issued| == 2 && r.issued[1].BanClient?) <==>
                    verdict == Ok(Some(Blacklist.Ban)) && Actuator.HasActionSettings(actions))
              && ((|r.issued| == 2 && r.issued[1].ClientKick?) <==>
                    verdict == Ok(Some(Blacklist.Kick)) && "reason" in actions))
  {
    if JoinFilter(e).Ok? && JoinFilter(e).value.Some? && JoinFilter(e).value.value in directory {
      var c := JoinFilter(e).value.value;
      Blacklist.RblSendsAtMostOne(blacklists(directory[c].ip), c, actions);
    }
  }
}
