/** Concrete runs of the join handler and the loop: a join of a group-8
    client whose address three of five blacklists report, the same join
    with one report, and a timeout followed by an interrupt. */
module Scenarios {
  import opened Common
  import Blacklist
  import Joins
  import Dispatch

  /** The notification for client 42 joining with server group 8. */
  const JOIN_42 := Joins.Event([map["client_servergroups" := "8", "clid" := "42"]])

  /** The server knows client 42 and its address. */
  const DIRECTORY: Joins.Directory := map["42" := Joins.ClientRecord("mallory", "198.51.100.7")]

  /** `Actions`: act from two reports on, by banning for a day. */
  const BAN_AT_TWO: Section :=
    map["rblListedNumber" := Num(2), "onMatch" := Text("ban"),
        "banTime" := Num(86400), "reason" := Text("listed on RBLs")]

  /** A lookup result over five blacklists, the first `hits` of which list
      the address, with the search host's own entry. */
  function FiveBlacklists(hits: nat): Blacklist.Listing {
    map[Blacklist.SEARCH_HOST := Blacklist.Entry(true),
        "b1" := Blacklist.Entry(hits > 0), "b2" := Blacklist.Entry(hits > 1),
        "b3" := Blacklist.Entry(hits > 2), "b4" := Blacklist.Entry(hits > 3),
        "b5" := Blacklist.Entry(hits > 4)]
  }

  /** The first `hits` of the five blacklists, for `hits` up to five, are
      exactly the ones counted. */
  lemma FiveBlacklistsHits(hits: nat)
    requires hits <= 5
    ensures Blacklist.NumHits(FiveBlacklists(hits) - {Blacklist.SEARCH_HOST}) == hits
  {
    var rest := FiveBlacklists(hits) - {Blacklist.SEARCH_HOST};
    if hits == 0 {
      assert Blacklist.Hits(rest) == {};
    } else if hits == 1 {
      assert Blacklist.Hits(rest) == {"b1"};
    } else if hits == 2 {
      assert Blacklist.Hits(rest) == {"b1", "b2"};
    } else if hits == 3 {
      assert Blacklist.Hits(rest) == {"b1", "b2", "b3"};
    } else if hits == 4 {
      assert Blacklist.Hits(rest) == {"b1", "b2", "b3", "b4"};
    } else {
      assert Blacklist.Hits(rest) == {"b1", "b2", "b3", "b4", "b5"};
    }
  }

  /** Three of five blacklists and a threshold of two: one `clientinfo`,
      then one ban of client 42 with the configured time and reason. */
  lemma ThreeOfFiveBans()
    ensures Joins.JoinRun(JOIN_42, DIRECTORY, _ => FiveBlacklists(3), BAN_AT_TWO) ==
      Exec([ClientInfo("42"), BanClient("42", Num(86400), Text("listed on RBLs"))], None)
  {
    FiveBlacklistsHits(3);
  }

  /** One of five blacklists, below the threshold of two: the handler only
      asks for the client's info. */
  lemma OneOfFiveLetsIn()
    ensures Joins.JoinRun(JOIN_42, DIRECTORY, _ => FiveBlacklists(1), BAN_AT_TWO) ==
      Exec([ClientInfo("42")], None)
  {
    FiveBlacklistsHits(1);
  }

  /** A timeout sends the next keepalive and wait; the interrupt after it
      closes the connection and ends the loop, whatever the handler. */
  lemma TimeoutThenInterrupt(handle: Dispatch.Handler)
    ensures Dispatch.LoopRun([Dispatch.TimedOut, Dispatch.Interrupted], handle) ==
      Dispatch.Trace([SendKeepalive, WaitForEvent(540), SendKeepalive, WaitForEvent(540), Close],
                     Dispatch.ShutDown)
  {
    assert [Dispatch.TimedOut, Dispatch.Interrupted][1..] == [Dispatch.Interrupted];
  }
}
