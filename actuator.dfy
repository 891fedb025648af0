/** The moderation actuator, `kickban`: turns a ban flag and a kick flag into
    `banclient` and `clientkick` commands with the configured settings. */
module Actuator {
  import opened Common

  /** The protocol reason id `kickban` passes with every kick. */
  const KICK_REASON_ID := 5

  /** The `Actions` keys the actuator reads. */
  predicate HasActionSettings(actions: Section) {
    "banTime" in actions && "reason" in actions
  }

  /** `kickban(ban, kick, clid)`: the ban part runs first and looks up
      `banTime` and `reason` before it sends `banclient`; the kick part then
      looks up `reason` before it sends `clientkick`. A missing key raises
      KeyError at its lookup. */
  function KickBanRun(ban: bool, kick: bool, clid: ClientId, actions: Section): Exec {
    var banPart :=
      if !ban then Exec([], None)
      else if "banTime" !in actions then Exec([], Some(KeyError("banTime")))
      else if "reason" !in actions then Exec([], Some(KeyError("reason")))
      else Exec([BanClient(clid, actions["banTime"], actions["reason"])], None);
    if banPart.raised.Some? || !kick then banPart
    else if "reason" !in actions then Exec(banPart.issued, Some(KeyError("reason")))
    else Exec(banPart.issued + [ClientKick(clid, KICK_REASON_ID, actions["reason"])], None)
  }

  /** `kickban` fails exactly when a setting it needs is missing, and then
      has sent nothing; otherwise it sends one command per flag, both aimed
      at `clid`, the ban (with the configured time and reason) before the
      kick (with reason id 5 and the configured reason). */
  lemma KickBanSends(ban: bool, kick: bool, clid: ClientId, actions: Section)
    ensures var r := KickBanRun(ban, kick, clid, actions);
      && (r.raised.None? <==> ((ban ==> HasActionSettings(actions)) && (kick ==> "reason" in actions)))
      && (r.raised.Some? ==> r.issued == [] && r.raised.value.KeyError?)
      && (r.raised.None? ==> |r.issued| == (if ban then 1 else 0) + (if kick then 1 else 0))
      && (forall i :: 0 <= i < |r.issued| ==> IsModeration(r.issued[i]) && r.issued[i].clid == clid)
      && (r.raised.None? && ban ==> r.issued[0] == BanClient(clid, actions["banTime"], actions["reason"]))
      && (r.raised.None? && kick ==>
            r.issued[|r.issued| - 1] == ClientKick(clid, KICK_REASON_ID, actions["reason"]))
  {
  }
}
