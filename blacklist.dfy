/** The blacklist checker, `rbl`: counts the blacklists that list a client's
    address, compares the count with the `rblListedNumber` threshold and
    picks a kick or a ban from the `onMatch` setting. The DNS lookups
    themselves are not modelled: their result, the searcher's `listed`
    mapping, is an input. */
module Blacklist {
  import opened Common
  import Actuator

  /** The entry of the lookup result that describes the search itself,
      not a blacklist; `rbl` deletes it before counting. */
  const SEARCH_HOST := "SEARCH_HOST"

  /** What one blacklist answered: its `LISTED` flag. */
  datatype Entry = Entry(listed: bool)

  /** The lookup result: blacklist name to answer. */
  type Listing = map<string, Entry>

  datatype Sanction = Kick | Ban

  /** The names of the blacklists in `results` whose `LISTED` flag is set:
      the list the source builds with `filter`. */
  function Hits(results: Listing): set<string> {
    set name | name in results && results[name].listed
  }

  /** The names of the blacklists in `results` that do not list the address. */
  function Clean(results: Listing): set<string> {
    set name | name in results && !results[name].listed
  }

  /** `numHits`: how many blacklists list the address. */
  function NumHits(results: Listing): nat {
    |Hits(results)|
  }

  /** Every answer is counted exactly once, as a hit or as clean; so the
      hit count never exceeds the number of blacklists asked. */
  lemma HitsPartition(results: Listing)
    ensures NumHits(results) + |Clean(results)| == |results|
    ensures NumHits(results) <= |results|
  {
    assert Hits(results) + Clean(results) == results.Keys;
    assert Hits(results) !! Clean(results);
  }

  /** One more blacklist reporting the address raises the count by one. */
  lemma OneMoreListing(results: Listing, name: string)
    requires name in results && !results[name].listed
    ensures NumHits(results[name := Entry(true)]) == NumHits(results) + 1
  {
    assert Hits(results[name := Entry(true)]) == Hits(results) + {name};
  }

  /** `listed` and `more` ask the same blacklists, and every blacklist that
      lists the address in `listed` lists it in `more` too. */
  predicate ListsAtMost(listed: Listing, more: Listing) {
    listed.Keys == more.Keys && forall name :: name in listed && listed[name].listed ==> more[name].listed
  }

  lemma HitsMonotone(listed: Listing, more: Listing)
    requires ListsAtMost(listed, more)
    ensures NumHits(listed) <= NumHits(more)
  {
    var extra := Hits(more) - Hits(listed);
    assert Hits(more) == Hits(listed) + extra;
  }

  /** `Actions` holds the settings `rbl` compares and selects with, with an
      integer threshold. */
  predicate HasVerdictSettings(actions: Section) {
    "rblListedNumber" in actions && actions["rblListedNumber"].Num? && "onMatch" in actions
  }

  /** The sanction `onMatch` names, if it names one. */
  function Selected(onMatch: Setting): Option<Sanction> {
    if onMatch == Text("kick") then Some(Kick)
    else if onMatch == Text("ban") then Some(Ban)
    else None
  }

  /** The decision part of `rbl`: delete `SEARCH_HOST` (KeyError when it is
      absent), count the hits among the rest, look up the threshold (KeyError
      when absent, TypeError when it is a string) and, only when the count
      reaches it, look up `onMatch`. */
  function Verdict(listed: Listing, actions: Section): Result<Option<Sanction>> {
    if SEARCH_HOST !in listed then Err(KeyError(SEARCH_HOST))
    else
      var numHits := NumHits(listed - {SEARCH_HOST});
      if "rblListedNumber" !in actions then Err(KeyError("rblListedNumber"))
      else match actions["rblListedNumber"]
        case Text(_) => Err(TypeError)
        case Num(threshold) =>
          if numHits < threshold then Ok(None)
          else if "onMatch" !in actions then Err(KeyError("onMatch"))
          else Ok(Selected(actions["onMatch"]))
  }

  /** Without a `SEARCH_HOST` entry the check fails. A missing threshold
      raises KeyError, a string threshold TypeError, and a missing `onMatch`
      raises KeyError only once the count reaches the threshold. With
      `SEARCH_HOST` and the settings in place it never fails, and it selects a sanction exactly
      when the count of the real blacklists reaches the threshold and
      `onMatch` names one: a count equal to the threshold acts, one below
      does not. */
  lemma VerdictAtThreshold(listed: Listing, actions: Section)
    ensures SEARCH_HOST !in listed ==> Verdict(listed, actions) == Err(KeyError(SEARCH_HOST))
    ensures var r := Verdict(listed, actions);
      SEARCH_HOST in listed && HasVerdictSettings(actions) ==>
        && r.Ok?
        && (r.value.Some? <==>
              NumHits(listed - {SEARCH_HOST}) >= actions["rblListedNumber"].n
              && actions["onMatch"] in {Text("kick"), Text("ban")})
        && (r.value.Some? ==> r.value == Selected(actions["onMatch"]))
    ensures var r := Verdict(listed, actions);
      r.Ok? && r.value.Some? ==> SEARCH_HOST in listed && HasVerdictSettings(actions)
    ensures SEARCH_HOST in listed && "rblListedNumber" !in actions ==>
      Verdict(listed, actions) == Err(KeyError("rblListedNumber"))
    ensures SEARCH_HOST in listed && "rblListedNumber" in actions && actions["rblListedNumber"].Text? ==>
      Verdict(listed, actions) == Err(TypeError)
    ensures (SEARCH_HOST in listed && "rblListedNumber" in actions && actions["rblListedNumber"].Num?
             && "onMatch" !in actions) ==>
        Verdict(listed, actions) ==
          if NumHits(listed - {SEARCH_HOST}) >= actions["rblListedNumber"].n then Err(KeyError("onMatch"))
          else Ok(None)
  {
  }

  /** Whatever the lookup says about `SEARCH_HOST`, the verdict is the same:
      the entry is never counted. */
  lemma SearchHostNeverCounts(listed: Listing, entry: Entry, actions: Section)
    requires SEARCH_HOST in listed
    ensures Verdict(listed[SEARCH_HOST := entry], actions) == Verdict(listed, actions)
  {
    assert listed[SEARCH_HOST := entry] - {SEARCH_HOST} == listed - {SEARCH_HOST};
  }

  /** More blacklists listing the address never turn a sanction off. */
  lemma MoreListingsStillAct(listed: Listing, more: Listing, actions: Section)
    requires ListsAtMost(listed, more)
    requires Verdict(listed, actions).Ok? && Verdict(listed, actions).value.Some?
    ensures Verdict(more, actions) == Verdict(listed, actions)
  {
    HitsMonotone(listed - {SEARCH_HOST}, more - {SEARCH_HOST});
  }

  /** `rbl(ip, clid)` given the lookup result for `ip`: the verdict, then at
      most one `kickban` call, with the kick flag for `kick` and the ban flag
      for `ban`. */
  function RblRun(listed: Listing, clid: ClientId, actions: Section): Exec {
    match Verdict(listed, actions)
    case Err(f) => Exec([], Some(f))
    case Ok(None) => Exec([], None)
    case Ok(Some(Kick)) => Actuator.KickBanRun(false, true, clid, actions)
    case Ok(Some(Ban)) => Actuator.KickBanRun(true, false, clid, actions)
  }

  /** `rbl` sends at most one command, and none when it raises: a ban exactly
      when the verdict is a ban and the ban settings exist, a kick exactly
      when the verdict is a kick and the reason exists; never both. */
  lemma RblSendsAtMostOne(listed: Listing, clid: ClientId, actions: Section)
    ensures var r := RblRun(listed, clid, actions);
      && (r.raised.Some? ==> r.issued == [])
      && (r.issued == []
          || (Actuator.HasActionSettings(actions)
              && r.issued == [BanClient(clid, actions["banTime"], actions["reason"])])
          || ("reason" in actions
              && r.issued == [ClientKick(clid, Actuator.KICK_REASON_ID, actions["reason"])]))
      && ((|r.issued| == 1 && r.issued[0].BanClient?) <==>
            Verdict(listed, actions) == Ok(Some(Ban)) && Actuator.HasActionSettings(actions))
      && ((|r.issued| == 1 && r.issued[0].ClientKick?) <==>
            Verdict(listed, actions) == Ok(Some(Kick)) && "reason" in actions)
      && (r.raised.None? ==> Verdict(listed, actions).Ok?)
  {
    Actuator.KickBanSends(false, true, clid, actions);
    Actuator.KickBanSends(true, false, clid, actions);
  }

  /** With `onMatch: ban` and all settings present: one ban when the count of
      real blacklists reaches the threshold, nothing one below it. */
  lemma BanAtThreshold(listed: Listing, clid: ClientId, actions: Section)
    requires SEARCH_HOST in listed && HasVerdictSettings(actions) && Actuator.HasActionSettings(actions)
    requires actions["onMatch"] == Text("ban")
    ensures RblRun(listed, clid, actions) ==
      if NumHits(listed - {SEARCH_HOST}) >= actions["rblListedNumber"].n
      then Exec([BanClient(clid, actions["banTime"], actions["reason"])], None)
      else Exec([], None)
  {
  }

  /** With `onMatch: kick` and a `reason` (no `banTime` needed): one kick with reason id
      5 when the count reaches the threshold, nothing one below it. */
  lemma KickAtThreshold(listed: Listing, clid: ClientId, actions: Section)
    requires SEARCH_HOST in listed && HasVerdictSettings(actions) && "reason" in actions
    requires actions["onMatch"] == Text("kick")
    ensures RblRun(listed, clid, actions) ==
      if NumHits(listed - {SEARCH_HOST}) >= actions["rblListedNumber"].n
      then Exec([ClientKick(clid, Actuator.KICK_REASON_ID, actions["reason"])], None)
      else Exec([], None)
  {
  }

  /** Any other `onMatch` value sends nothing, however many blacklists
      list the address. */
  lemma OtherOnMatchNeverActs(listed: Listing, clid: ClientId, actions: Section)
    requires "onMatch" in actions && actions["onMatch"] !in {Text("kick"), Text("ban")}
    ensures RblRun(listed, clid, actions).issued == []
  {
  }
}
