/** The signal-strength icon table. */
module NetworkUtils {
  /** The icon name for an access point's signal strength. */
  function GetWifiIcon(strength: bv8): (r: string)
    ensures r in {"wifi-signal-weak", "wifi-signal-low", "wifi-signal-medium",
                  "wifi-signal-good", "wifi-signal-excellent", "wifi-signal-none"}
    ensures r == "wifi-signal-none" <==> strength > 100
  {
    if strength <= 20 then "wifi-signal-weak"
    else if strength <= 40 then "wifi-signal-low"
    else if strength <= 60 then "wifi-signal-medium"
    else if strength <= 80 then "wifi-signal-good"
    else if strength <= 100 then "wifi-signal-excellent"
    else "wifi-signal-none"
  }

  /**
   * The order of the five signal icons, weakest first; "wifi-signal-none" and
   * anything else sit above them all.
   */
  function SignalRank(icon: string): nat {
    if icon == "wifi-signal-weak" then 0
    else if icon == "wifi-signal-low" then 1
    else if icon == "wifi-signal-medium" then 2
    else if icon == "wifi-signal-good" then 3
    else if icon == "wifi-signal-excellent" then 4
    else 5
  }

  /** Each icon is produced by exactly one band of strengths; together the bands cover every byte. */
  lemma IconBands(s: bv8)
    ensures GetWifiIcon(s) == "wifi-signal-weak" <==> s <= 20
    ensures GetWifiIcon(s) == "wifi-signal-low" <==> 21 <= s <= 40
    ensures GetWifiIcon(s) == "wifi-signal-medium" <==> 41 <= s <= 60
    ensures GetWifiIcon(s) == "wifi-signal-good" <==> 61 <= s <= 80
    ensures GetWifiIcon(s) == "wifi-signal-excellent" <==> 81 <= s <= 100
    ensures GetWifiIcon(s) == "wifi-signal-none" <==> 101 <= s
  {
  }

  /**
   * On 0..100 the icon's rank is the strength's twenty-wide band, counting 0 with
   * the first band: an arithmetic statement of the same table.
   */
  lemma RankIsBand(s: bv8)
    requires s <= 100
    ensures SignalRank(GetWifiIcon(s)) == if s == 0 then 0 else (s as int - 1) / 20
  {
  }

  /** A stronger signal never gets a weaker icon on 0..100. */
  lemma IconMonotone(a: bv8, b: bv8)
    requires a <= b <= 100
    ensures SignalRank(GetWifiIcon(a)) <= SignalRank(GetWifiIcon(b))
  {
    RankIsBand(a);
    RankIsBand(b);
  }
}
