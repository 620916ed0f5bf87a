/**
 * The map marker of a coin (components/NexoMarker.tsx): a square image
 * whose icon and side come from per-rarity tables, with an explicit size
 * taking precedence and COMMON as the fallback.
 */
module NexoMarker {
  import opened Wrappers
  import opened Types

  /** The keys shared by `NEXO_ICONS` and `NEXO_SIZES` (lines 10-22). */
  datatype Rarity = Common | Rare | Epic | Legendary

  datatype Icon = CommonIcon | RareIcon | EpicIcon | LegendaryIcon

  /** The image the marker renders (lines 28-37). */
  datatype MarkerImage = MarkerImage(source: Icon, width: int, height: int)

  const CommonSize: int := 32

  /** `coin.type` used as a table key; any other string finds nothing. */
  function RarityOf(coinType: string): (r: Option<Rarity>)
    ensures r == Some(Common) <==> coinType == "COMMON"
    ensures r == Some(Rare) <==> coinType == "RARE"
    ensures r == Some(Epic) <==> coinType == "EPIC"
    ensures r == Some(Legendary) <==> coinType == "LEGENDARY"
  {
    if coinType == "COMMON" then Some(Common)
    else if coinType == "RARE" then Some(Rare)
    else if coinType == "EPIC" then Some(Epic)
    else if coinType == "LEGENDARY" then Some(Legendary)
    else None
  }

  /** `NEXO_SIZES` (lines 17-22). */
  function SizeOf(r: Rarity): (n: int)
    ensures CommonSize <= n <= 40
    ensures n == CommonSize <==> r == Common
  {
    match r
    case Common => CommonSize
    case Rare => 35
    case Epic => 37
    case Legendary => 40
  }

  /** `NEXO_ICONS` (lines 10-15). */
  function IconOf(r: Rarity): (i: Icon)
    ensures i == CommonIcon <==> r == Common
    ensures i == RareIcon <==> r == Rare
    ensures i == EpicIcon <==> r == Epic
    ensures i == LegendaryIcon <==> r == Legendary
  {
    match r
    case Common => CommonIcon
    case Rare => RareIcon
    case Epic => EpicIcon
    case Legendary => LegendaryIcon
  }

  function Rank(r: Rarity): nat {
    match r
    case Common => 0
    case Rare => 1
    case Epic => 2
    case Legendary => 3
  }

  /** Rarer coins have strictly larger markers, from COMMON's 32 up to LEGENDARY's 40. */
  lemma SizesIncreaseWithRarity(a: Rarity, b: Rarity)
    ensures Rank(a) < Rank(b) ==> SizeOf(a) < SizeOf(b)
    ensures CommonSize <= SizeOf(a) <= SizeOf(Legendary)
  {
  }

  /**
   * `size || NEXO_SIZES[coin.type] || NEXO_SIZES.COMMON` (lines 24-25):
   * `size` defaults to 0, and 0 is falsy.
   */
  function ResolveSize(size: Option<int>, coinType: string): (n: int)
    ensures size.Some? && size.value != 0 ==> n == size.value
    ensures size.GetOr(0) == 0 && RarityOf(coinType).Some? ==> n == SizeOf(RarityOf(coinType).value)
    ensures size.GetOr(0) == 0 && RarityOf(coinType).None? ==> n == CommonSize
    ensures size.GetOr(0) == 0 ==> CommonSize <= n <= SizeOf(Legendary)
  {
    var explicit := size.GetOr(0);
    if explicit != 0 then explicit
    else
      match RarityOf(coinType)
      case Some(r) => SizeOf(r)
      case None => CommonSize
  }

  /** `NEXO_ICONS[coin.type] || NEXO_ICONS.COMMON` (line 29). */
  function ResolveIcon(coinType: string): (icon: Icon)
    ensures RarityOf(coinType).Some? ==> icon == IconOf(RarityOf(coinType).value)
    ensures RarityOf(coinType).None? ==> icon == CommonIcon
  {
    match RarityOf(coinType)
    case Some(r) => IconOf(r)
    case None => CommonIcon
  }

  /** `NexoMarker({ coin, size })`: the image is square; icon and size follow the same rarity. */
  function Render(coin: Coin, size: Option<int>): (m: MarkerImage)
    ensures m.width == m.height
    ensures m.width == ResolveSize(size, coin.coinType) && m.source == ResolveIcon(coin.coinType)
  {
    var side := ResolveSize(size, coin.coinType);
    MarkerImage(ResolveIcon(coin.coinType), side, side)
  }

  /** An unknown type renders exactly like a COMMON coin, unless an explicit size overrides the side. */
  lemma UnknownTypeRendersAsCommon(coin: Coin, size: Option<int>)
    requires RarityOf(coin.coinType).None?
    ensures Render(coin, size) == Render(coin.(coinType := "COMMON"), size)
  {
  }
}
