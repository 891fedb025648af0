/** The bot's side of its ServerQuery connection. The connection is the only
    state the bot changes: every command it sends is appended to `trace`.
    The server's side is fixed for the run: the clients it lists as
    connected and what `clientinfo` answers about each. */
module Bot {
  import opened Common
  import Actuator
  import Blacklist
  import Joins
  import Sweep
  import Dispatch
  import Settings

  class Connection {
    /** Every command sent on this connection so far, oldest first. */
    var trace: seq<Command>
    /** Whether the connection is still open. */
    var open: bool
    /** The clients `clientlist` reports. */
    const online: seq<ClientId>
    /** What `clientinfo` answers, per client id. */
    const directory: Joins.Directory

    constructor (online: seq<ClientId>, directory: Joins.Directory)
      ensures trace == [] && open
      ensures this.online == online && this.directory == directory
    {
      this.online := online;
      this.directory := directory;
      trace := [];
      open := true;
    }

    /** Sends one command. */
    method Send(c: Command)
      requires open
      modifies this
      ensures open && trace == old(trace) + [c]
    {
      trace := trace + [c];
    }

    /** `close`: sends `quit` and drops the connection; on a connection that
        is already closed it does nothing. */
    method Close()
      modifies this
      ensures !open
      ensures trace == old(trace) + if old(open) then [Command.Close] else []
    {
      if open {
        trace := trace + [Command.Close];
        open := false;
      }
    }

    /** `clientinfo(clid)`: the server's record, or QueryError for an id it
        does not know. */
    method ClientInfo(clid: ClientId) returns (r: Result<Joins.ClientRecord>)
      requires open
      modifies this
      ensures open && trace == old(trace) + [Command.ClientInfo(clid)]
      ensures r == if clid in directory then Ok(directory[clid]) else Err(QueryError(clid))
    {
      Send(Command.ClientInfo(clid));
      if clid in directory {
        r := Ok(directory[clid]);
      } else {
        r := Err(QueryError(clid));
      }
    }

    /** `wait_for_event(timeout=540)`: what it returned is the next entry of
        the script, given here as `outcome`. */
    method WaitForEvent(outcome: Dispatch.Wait) returns (w: Dispatch.Wait)
      requires open
      modifies this
      ensures open && trace == old(trace) + [Command.WaitForEvent(Dispatch.EVENT_TIMEOUT)]
      ensures w == outcome
    {
      Send(Command.WaitForEvent(Dispatch.EVENT_TIMEOUT));
      w := outcome;
    }

    /** `kickban(ban, kick, clid)`. */
    method KickBan(ban: bool, kick: bool, clid: ClientId, actions: Section) returns (raised: Option<Failure>)
      requires open
      modifies this
      ensures open
      ensures trace == old(trace) + Actuator.KickBanRun(ban, kick, clid, actions).issued
      ensures raised == Actuator.KickBanRun(ban, kick, clid, actions).raised
    {
      if ban {
        if "banTime" !in actions {
          return Some(KeyError("banTime"));
        }
        if "reason" !in actions {
          return Some(KeyError("reason"));
        }
        Send(BanClient(clid, actions["banTime"], actions["reason"]));
      }
      if kick {
        if "reason" !in actions {
          return Some(KeyError("reason"));
        }
        Send(ClientKick(clid, Actuator.KICK_REASON_ID, actions["reason"]));
      }
      raised := None;
    }

    /** `rbl(ip, clid)`: takes the lookup result for `ip`, deletes its
        `SEARCH_HOST` entry, counts the hits and, at or above the threshold,
        calls `kickban` for the sanction `onMatch` names. */
    method Rbl(ip: string, clid: ClientId, blacklists: Joins.Lookup, actions: Section)
      returns (raised: Option<Failure>)
      requires open
      modifies this
      ensures open
      ensures trace == old(trace) + Blacklist.RblRun(blacklists(ip), clid, actions).issued
      ensures raised == Blacklist.RblRun(blacklists(ip), clid, actions).raised
    {
      var results := blacklists(ip);
      if Blacklist.SEARCH_HOST !in results {
        return Some(KeyError(Blacklist.SEARCH_HOST));
      }
      results := results - {Blacklist.SEARCH_HOST};
      var numHits := Blacklist.NumHits(results);
      if "rblListedNumber" !in actions {
        return Some(KeyError("rblListedNumber"));
      }
      if actions["rblListedNumber"].Text? {
        return Some(TypeError);
      }
      raised := None;
      if numHits >= actions["rblListedNumber"].n {
        if "onMatch" !in actions {
          return Some(KeyError("onMatch"));
        }
        if actions["onMatch"] == Text("kick") {
          raised := KickBan(false, true, clid, actions);
          if raised.Some? {
            return;
          }
        }
        if actions["onMatch"] == Text("ban") {
          raised := KickBan(true, false, clid, actions);
        }
      }
    }

    /** `joinshandler(event)`. */
    method JoinsHandler(event: Joins.Event, blacklists: Joins.Lookup, actions: Section)
      returns (raised: Option<Failure>)
      requires open
      modifies this
      ensures open
      ensures trace == old(trace) + Joins.JoinRun(event, directory, blacklists, actions).issued
      ensures raised == Joins.JoinRun(event, directory, blacklists, actions).raised
    {
      if |event.parsed| == 0 {
        return Some(IndexError);
      }
      var row := event.parsed[0];
      if Get(row, "client_servergroups") != Some(Joins.NEW_CLIENT_GROUP) {
        return None;
      }
      if "clid" !in row {
        return Some(KeyError("clid"));
      }
      var clientid := row["clid"];
      var clinfo := ClientInfo(clientid);
      match clinfo
      case Err(f) =>
        raised := Some(f);
      case Ok(info) =>
        raised := Rbl(info.ip, clientid, blacklists, actions);
    }

    /** `checkall`: `clientlist`, then `clientinfo` for every listed client,
        in order. */
    method CheckAll() returns (raised: Option<Failure>)
      requires open
      modifies this
      ensures open
      ensures trace == old(trace) + Sweep.CheckAllRun(online, directory).issued
      ensures raised == Sweep.CheckAllRun(online, directory).raised
    {
      Send(ClientList);
      assert online[0..] == online;
      for i := 0 to |online|
        invariant open
        invariant old(trace) + Sweep.CheckAllRun(online, directory).issued
               == trace + Sweep.SweepRun(online[i..], directory).issued
        invariant Sweep.CheckAllRun(online, directory).raised == Sweep.SweepRun(online[i..], directory).raised
      {
        ghost var rest := Sweep.SweepRun(online[i + 1..], directory);
        assert online[i..][1..] == online[i + 1..];
        assert Sweep.SweepRun(online[i..], directory) ==
          if online[i] in directory then Exec([Command.ClientInfo(online[i])] + rest.issued, rest.raised)
          else Exec([Command.ClientInfo(online[i])], Some(QueryError(online[i])));
        var info := ClientInfo(online[i]);
        if info.Err? {
          return Some(info.failure);
        }
      }
      assert online[|online|..] == [];
      raised := None;
    }

    /** `handle` answers every event as `joinshandler` does on this
        connection. */
    ghost predicate Handles(handle: Dispatch.Handler, blacklists: Joins.Lookup, actions: Section)
    {
      forall e {:trigger Joins.JoinRun(e, directory, blacklists, actions)} ::
        handle(e) == Joins.JoinRun(e, directory, blacklists, actions)
    }

    /** One iteration of the `while True` loop: keepalive, wait, then act
        on what the wait returned. Returns the loop's final status when the
        iteration ends the loop. `handle` is `joinshandler` as the loop's
        specification sees it. */
    method Round(outcome: Dispatch.Wait, blacklists: Joins.Lookup, actions: Section, ghost handle: Dispatch.Handler)
      returns (stop: Option<Dispatch.Status>)
      requires open
      requires Handles(handle, blacklists, actions)
      modifies this
      ensures trace == old(trace) + Dispatch.RoundRun(outcome, handle).issued
      ensures stop == Dispatch.RoundRun(outcome, handle).stop
      ensures open <==> stop != Some(Dispatch.ShutDown)
    {
      Send(SendKeepalive);
      var w := WaitForEvent(outcome);
      match w {
        case Interrupted =>
          Close();
          stop := Some(Dispatch.ShutDown);
        case TimedOut =>
          stop := None;
        case Received(event) =>
          var raised := JoinsHandler(event, blacklists, actions);
          stop := if raised.Some? then Some(Dispatch.Crashed(raised.value)) else None;
      }
    }

    /** The `while True` loop, run until the script is used up or an
        iteration ends the loop. */
    method EventLoop(script: seq<Dispatch.Wait>, blacklists: Joins.Lookup, actions: Section,
                     ghost handle: Dispatch.Handler)
      returns (status: Dispatch.Status)
      requires open
      requires Handles(handle, blacklists, actions)
      modifies this
      ensures trace == old(trace) + Dispatch.LoopRun(script, handle).issued
      ensures status == Dispatch.LoopRun(script, handle).status
      ensures open <==> status != Dispatch.ShutDown
    {
      var i := 0;
      while i < |script|
        invariant 0 <= i <= |script| && open
        invariant old(trace) + Dispatch.LoopRun(script, handle).issued
               == trace + Dispatch.LoopRun(script[i..], handle).issued
        invariant Dispatch.LoopRun(script, handle).status == Dispatch.LoopRun(script[i..], handle).status
      {
        assert script[i..][1..] == script[i + 1..];
        var stop := Round(script[i], blacklists, actions, handle);
        if stop.Some? {
          return stop.value;
        }
        i := i + 1;
      }
      status := Dispatch.Running;
    }

    /** `connectionhandler` from the initial sweep on: `checkall`,
        `servernotifyregister`, the loop; leaving the `with` block, by an
        exception or by `sys.exit`, closes the connection. */
    method ConnectionHandler(config: Settings.Config, script: seq<Dispatch.Wait>, blacklists: Joins.Lookup)
      returns (status: Dispatch.Status)
      requires open
      modifies this
      ensures trace == old(trace)
        + Dispatch.SessionRun(online, directory, script, Joins.JoinsHandler(directory, blacklists, config.actions)).issued
      ensures status == Dispatch.SessionRun(online, directory, script, Joins.JoinsHandler(directory, blacklists, config.actions)).status
      ensures open <==> status == Dispatch.Running
    {
      var raised := CheckAll();
      if raised.Some? {
        Close();
        return Dispatch.Crashed(raised.value);
      }
      Send(ServerNotifyRegister);
      status := EventLoop(script, blacklists, config.actions, Joins.JoinsHandler(directory, blacklists, config.actions));
      if status != Dispatch.Running {
        Close();
      }
    }
  }
}
