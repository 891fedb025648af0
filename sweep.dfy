/** The initial sweep, `checkall`: lists the connected clients and asks for
    each one's info, without checking any of them against the blacklists. */
module Sweep {
  import opened Common
  import Joins

  /** The `for` loop of `checkall`: one `clientinfo` per client id, in list
      order, stopping with QueryError at the first id the server does not
      know. */
  function SweepRun(clids: seq<ClientId>, directory: Joins.Directory): Exec {
    if clids == [] then Exec([], None)
    else if clids[0] !in directory then Exec([ClientInfo(clids[0])], Some(QueryError(clids[0])))
    else
      var rest := SweepRun(clids[1..], directory);
      Exec([ClientInfo(clids[0])] + rest.issued, rest.raised)
  }

  /** The sweep asks about the listed clients in order; it completes exactly
      when the server knows every id, having asked about each of them, and
      otherwise stops at the first unknown id, after asking about it. */
  lemma {:induction false} SweepQueriesInOrder(clids: seq<ClientId>, directory: Joins.Directory)
    ensures var r := SweepRun(clids, directory);
      && |r.issued| <= |clids|
      && (forall i :: 0 <= i < |r.issued| ==> r.issued[i] == ClientInfo(clids[i]))
      && (r.raised.None? <==> forall i :: 0 <= i < |clids| ==> clids[i] in directory)
      && (r.raised.None? ==> |r.issued| == |clids|)
      && (r.raised.Some? ==>
            && 0 < |r.issued|
            && r.raised.value == QueryError(clids[|r.issued| - 1])
            && clids[|r.issued| - 1] !in directory
            && forall i :: 0 <= i < |r.issued| - 1 ==> clids[i] in directory)
  {
    if clids != [] && clids[0] in directory {
      SweepQueriesInOrder(clids[1..], directory);
      var rest := SweepRun(clids[1..], directory);
      var r := SweepRun(clids, directory);
      assert r.issued == [ClientInfo(clids[0])] + rest.issued;
      forall i | 0 < i < |r.issued| ensures r.issued[i] == ClientInfo(clids[i]) {
        assert r.issued[i] == rest.issued[i - 1];
      }
      if r.raised.None? {
        forall i | 0 < i < |clids| ensures clids[i] in directory {
          assert clids[i] == clids[1..][i - 1];
        }
      } else {
        assert clids[1..][|rest.issued| - 1] == clids[|r.issued| - 1];
      }
    }
  }

  /** `checkall`: `clientlist`, then the sweep over the listed ids. */
  function CheckAllRun(online: seq<ClientId>, directory: Joins.Directory): Exec {
    var swept := SweepRun(online, directory);
    Exec([ClientList] + swept.issued, swept.raised)
  }

  /** `checkall` sends `clientlist`, then `clientinfo` for listed clients in
      order (every one of them when it completes), and bans and kicks nobody. */
  lemma CheckAllNeverModerates(online: seq<ClientId>, directory: Joins.Directory)
    ensures var r := CheckAllRun(online, directory);
      && 0 < |r.issued| <= |online| + 1
      && r.issued[0] == ClientList
      && (forall i :: 0 < i < |r.issued| ==> r.issued[i] == ClientInfo(online[i - 1]))
      && (r.raised.None? ==> |r.issued| == |online| + 1)
      && NoModeration(r.issued)
  {
    SweepQueriesInOrder(online, directory);
    var r := CheckAllRun(online, directory);
    forall i | 0 < i < |r.issued| ensures r.issued[i] == ClientInfo(online[i - 1]) {
      assert r.issued[i] == SweepRun(online, directory).issued[i - 1];
    }
  }
}
