/** The upgrade shop (src/upgrades.js): four upgrades, each with a price and
    a capped effect on the player's upgrade levels. */
module Shop {
  import opened Wrappers
  import opened State

  /** The closed set of `apply` closures of the catalogue. */
  datatype Effect = XpBoost | CoinBoost | OfflineCap | HintBoost

  datatype Upgrade = Upgrade(id: string, name: string, description: string, cost: nat, effect: Effect)

  /** Boost caps are in tenths (0.5 is 5); the offline cap is in hours and
      the hint reduction in seconds. */
  const BoostCap: nat := 5
  const OfflineCapMax: nat := 12
  const DefaultOfflineCap: nat := 8
  const HintReductionMax: nat := 20

  /** `upgradeCatalog`. */
  const UpgradeCatalog: seq<Upgrade> := [
    Upgrade("xp-boost", "XP Booster", "+10% XP from quests", 30, XpBoost),
    Upgrade("coin-boost", "Coin Magnet", "+10% coins from quests", 30, CoinBoost),
    Upgrade("offline-cap", "Long Rest", "+2h offline cap (max 12h)", 40, OfflineCap),
    Upgrade("hint-boost", "Quick Thinking", "-5s hint cooldown", 25, HintBoost)
  ]

  function Min(a: nat, b: nat): nat {
    if a <= b then a else b
  }

  /** The upgrade levels after one `apply`: the chosen field moves one step
      towards its cap (a falsy offline cap counts as 8 hours) and no other
      field changes. */
  function Apply(e: Effect, u: Upgrades): (r: Upgrades)
    ensures e == XpBoost ==> r == u.(xpBoost := r.xpBoost) && r.xpBoost == Min(BoostCap, u.xpBoost + 1)
    ensures e == CoinBoost ==> r == u.(coinBoost := r.coinBoost) && r.coinBoost == Min(BoostCap, u.coinBoost + 1)
    ensures e == OfflineCap ==>
      r == u.(offlineCapHours := r.offlineCapHours)
      && r.offlineCapHours == Min(OfflineCapMax, (if u.offlineCapHours == 0 then DefaultOfflineCap else u.offlineCapHours) + 2)
    ensures e == HintBoost ==>
      r == u.(hintCooldownReduction := r.hintCooldownReduction)
      && r.hintCooldownReduction == Min(HintReductionMax, u.hintCooldownReduction + 5)
  {
    match e
    case XpBoost => u.(xpBoost := Min(BoostCap, u.xpBoost + 1))
    case CoinBoost => u.(coinBoost := Min(BoostCap, u.coinBoost + 1))
    case OfflineCap =>
      u.(offlineCapHours := Min(OfflineCapMax, (if u.offlineCapHours == 0 then DefaultOfflineCap else u.offlineCapHours) + 2))
    case HintBoost => u.(hintCooldownReduction := Min(HintReductionMax, u.hintCooldownReduction + 5))
  }

  /** The upgrade levels stay within their caps once they start there. */
  predicate WithinCaps(u: Upgrades) {
    u.xpBoost <= BoostCap && u.coinBoost <= BoostCap
    && u.offlineCapHours <= OfflineCapMax && u.hintCooldownReduction <= HintReductionMax
  }

  lemma ApplyKeepsCaps(e: Effect, u: Upgrades)
    requires WithinCaps(u)
    ensures WithinCaps(Apply(e, u))
    ensures Apply(e, u).xpBoost >= u.xpBoost && Apply(e, u).coinBoost >= u.coinBoost
    ensures Apply(e, u).hintCooldownReduction >= u.hintCooldownReduction
    ensures Apply(e, u).offlineCapHours >= u.offlineCapHours
  {
  }

  /** Buying an upgrade already at its cap changes nothing about the levels. */
  lemma ApplyAtCap(e: Effect, u: Upgrades)
    requires e == XpBoost ==> u.xpBoost == BoostCap
    requires e == CoinBoost ==> u.coinBoost == BoostCap
    requires e == OfflineCap ==> u.offlineCapHours == OfflineCapMax
    requires e == HintBoost ==> u.hintCooldownReduction == HintReductionMax
    ensures Apply(e, u) == u
  {
  }

  /** `upgradeCatalog.find((u) => u.id === upgradeId)`. */
  function FindUpgrade(catalog: seq<Upgrade>, id: string): (r: Option<Upgrade>)
    ensures r.Some? ==> r.value in catalog && r.value.id == id
    ensures r.None? <==> forall k :: 0 <= k < |catalog| ==> catalog[k].id != id
    ensures r.Some? ==>
      exists k :: 0 <= k < |catalog| && catalog[k] == r.value && forall j :: 0 <= j < k ==> catalog[j].id != id
  {
    if catalog == [] then None
    else if catalog[0].id == id then Some(catalog[0])
    else
      var r := FindUpgrade(catalog[1..], id);
      assert forall j :: 1 <= j < |catalog| ==> catalog[j] == catalog[1..][j - 1];
      if r.Some? then
        var k :| 0 <= k < |catalog[1..]| && catalog[1..][k] == r.value
          && forall j :: 0 <= j < k ==> catalog[1..][j].id != id;
        assert catalog[k + 1] == r.value;
        r
      else r
  }

  /** The catalogue's four entries, found by id with their prices and
      effects; any other id is unknown. */
  lemma FindXpBoost()
    ensures FindUpgrade(UpgradeCatalog, "xp-boost") == Some(UpgradeCatalog[0])
    ensures UpgradeCatalog[0].cost == 30 && UpgradeCatalog[0].effect == XpBoost
  {
  }

  lemma FindCoinBoost()
    ensures FindUpgrade(UpgradeCatalog, "coin-boost") == Some(UpgradeCatalog[1])
    ensures UpgradeCatalog[1].cost == 30 && UpgradeCatalog[1].effect == CoinBoost
  {
  }

  lemma FindOfflineCap()
    ensures FindUpgrade(UpgradeCatalog, "offline-cap") == Some(UpgradeCatalog[2])
    ensures UpgradeCatalog[2].cost == 40 && UpgradeCatalog[2].effect == OfflineCap
  {
  }

  lemma FindHintBoost()
    ensures FindUpgrade(UpgradeCatalog, "hint-boost") == Some(UpgradeCatalog[3])
    ensures UpgradeCatalog[3].cost == 25 && UpgradeCatalog[3].effect == HintBoost
  {
  }

  lemma FindOther(id: string)
    requires id != "xp-boost" && id != "coin-boost" && id != "offline-cap" && id != "hint-boost"
    ensures FindUpgrade(UpgradeCatalog, id).None?
  {
  }

  /** The outcome of `purchaseUpgrade` with the price list `catalog` (the
      game's is `UpgradeCatalog`) on the player's coins and upgrade levels:
      the new coins and levels, or the error message. */
  function Purchase(catalog: seq<Upgrade>, coins: nat, u: Upgrades, id: string): (r: Result<(nat, Upgrades)>)
    ensures var found := FindUpgrade(catalog, id);
      (found.None? <==> r == Err("Upgrade not found"))
      && (found.Some? && coins < found.value.cost <==> r == Err("Not enough coins"))
      && (r.Ok? ==> found.Some? && r.value.0 + found.value.cost == coins && r.value.1 == Apply(found.value.effect, u))
  {
    match FindUpgrade(catalog, id)
    case None => Err("Upgrade not found")
    case Some(up) =>
      if coins < up.cost then Err("Not enough coins")
      else Ok((coins - up.cost, Apply(up.effect, u)))
  }

  /** A successful purchase never leaves the purse negative, never costs more
      than 40 coins, and keeps every level within its cap. */
  lemma PurchaseBounds(coins: nat, u: Upgrades, id: string)
    requires WithinCaps(u)
    requires Purchase(UpgradeCatalog, coins, u, id).Ok?
    ensures coins - 40 <= Purchase(UpgradeCatalog, coins, u, id).value.0 < coins
    ensures WithinCaps(Purchase(UpgradeCatalog, coins, u, id).value.1)
  {
    var up := FindUpgrade(UpgradeCatalog, id).value;
    assert up in UpgradeCatalog;
    ApplyKeepsCaps(up.effect, u);
  }

  /** Buying the XP booster when it is already at 0.5 still costs 30 coins and
      changes no level. */
  lemma PurchaseAtCapStillCharges(coins: nat, u: Upgrades)
    requires coins >= 30 && u.xpBoost == BoostCap
    ensures Purchase(UpgradeCatalog, coins, u, "xp-boost") == Ok((coins - 30, u))
  {
    FindXpBoost();
  }

  /** `purchaseUpgrade(state, upgradeId)`: on success the coins drop by the
      price and the upgrade's field takes its new value; on either error the
      state is left as it was. */
  method PurchaseUpgrade(state: GameState, upgradeId: string) returns (r: Result<()>)
    requires state.Valid()
    modifies state
    ensures state.Valid()
    ensures match Purchase(UpgradeCatalog, old(state.player.coins), old(state.upgrades), upgradeId)
      case Err(e) => r == Err(e) && state.player == old(state.player) && state.upgrades == old(state.upgrades)
      case Ok(after) => r == Ok(()) && state.player == old(state.player).(coins := after.0) && state.upgrades == after.1
    ensures state.questStatus == old(state.questStatus) && state.completedByZone == old(state.completedByZone)
    ensures state.commandLog == old(state.commandLog) && state.lastActive == old(state.lastActive) && state.streak == old(state.streak)
  {
    var found := FindUpgrade(UpgradeCatalog, upgradeId);
    if found.None? {
      return Err("Upgrade not found");
    }
    var up := found.value;
    if state.player.coins < up.cost {
      return Err("Not enough coins");
    }
    state.player := state.player.(coins := state.player.coins - up.cost);
    state.upgrades := Apply(up.effect, state.upgrades);
    r := Ok(());
  }
}
