/**
 The trending-reels page (src/app/trending-reels/page.tsx): the popularity
 badge shown on each trend card, and saving a trend to the content library.
 */
module TrendingReels {
  import opened Strings
  import opened Common
  import opened SavedItems

  /** One trend as the flow returns it. The flow's schema limits
      `popularity` to three values; the page accepts any text. */
  datatype Trend = Trend(title: string, reason: string, contentSuggestion: string, popularity: string, suggestedCTA: string)

  /** The record written to the library: the trend's fields and the owner. */
  datatype SavedTrend = SavedTrend(uid: string, title: string, reason: string, contentSuggestion: string, popularity: string, suggestedCTA: string)

  /** A popularity badge: icon, label and style class. */
  datatype Badge = Badge(icon: string, text: string, className: string)

  const Flame := '\U{1F525}'
  const Thinking := '\U{1F914}'

  const Popularities: seq<string> := ["Very Hot", "Gaining Momentum", "Niche-Specific"]

  const TrendWording := Wording(
    "You need to be logged in to save trends.", "Trend Saved!", "There was an error saving this trend.")

  /** The badge for a popularity value: the three known values have their own
      entries, anything else gets the thinking-face fallback. */
  function PopularityBadge(popularity: string): (b: Badge)
    ensures popularity in Popularities ==> b.text == popularity
    ensures popularity !in Popularities ==> b == Badge([Thinking], "Unknown", "text-muted-foreground")
  {
    if popularity == "Very Hot" then Badge([Flame, Flame, Flame], "Very Hot", "text-red-400 border-red-400/30")
    else if popularity == "Gaining Momentum" then Badge([Flame, Flame], "Gaining Momentum", "text-orange-400 border-orange-400/30")
    else if popularity == "Niche-Specific" then Badge([Flame], "Niche-Specific", "text-amber-400 border-amber-400/30")
    else Badge([Thinking], "Unknown", "text-muted-foreground")
  }

  /** How hot a popularity value is: 3 for the hottest, 0 for unknown. */
  function Heat(popularity: string): nat {
    if popularity == "Very Hot" then 3
    else if popularity == "Gaining Momentum" then 2
    else if popularity == "Niche-Specific" then 1
    else 0
  }

  /** The badge shows one flame per degree of heat, so a hotter trend always
      shows more flames, and an unknown one none. */
  lemma FlamesMeasureHeat(popularity: string)
    ensures Count(PopularityBadge(popularity).icon, Flame) == Heat(popularity)
  {
    var icon := PopularityBadge(popularity).icon;
    if popularity == "Very Hot" {
      assert icon[1..] == [Flame, Flame] && icon[2..] == [Flame] && icon[3..] == [];
    } else if popularity == "Gaining Momentum" {
      assert popularity != "Very Hot";
      assert icon == [Flame, Flame] && icon[1..] == [Flame] && icon[2..] == [];
      assert Count(icon[1..], Flame) == 1;
      assert Heat(popularity) == 2;
    } else if popularity == "Niche-Specific" {
      assert icon[1..] == [];
    } else {
      assert icon == [Thinking] && icon[1..] == [];
    }
  }

  /** The label never misreports a known popularity as another known one. */
  lemma BadgeTextIdentifiesPopularity(p: string, q: string)
    requires p in Popularities && q in Popularities
    ensures PopularityBadge(p).text == PopularityBadge(q).text <==> p == q
  {
  }

  /** What `handleSaveTrend` writes for a user. */
  function TrendRecord(trend: Trend): string -> SavedTrend {
    uid => SavedTrend(uid, trend.title, trend.reason, trend.contentSuggestion, trend.popularity, trend.suggestedCTA)
  }

  /** The trend a saved record came from. */
  function RecordTrend(r: SavedTrend): Trend {
    Trend(r.title, r.reason, r.contentSuggestion, r.popularity, r.suggestedCTA)
  }

  /** `handleSaveTrend(trend)`: the shared save bookkeeping keyed by the
      trend's title, writing the trend with the user's uid. */
  function HandleSaveTrend(m: Marks, user: Option<string>, trend: Trend, stored: bool): (o: SaveOutcome<SavedTrend>)
    ensures user.None? ==> o == SaveOutcome(None, m, None, LoginToast(TrendWording))
    ensures user.Some? ==> o.written.Some? && o.written.value.uid == user.value && RecordTrend(o.written.value) == trend
    ensures user.Some? ==> o.pending == Some(Marks(m.saved, Some(trend.title)))
    ensures user.Some? && stored ==> o.after == Marks(m.saved + {trend.title}, None) && o.toast == SavedToast(TrendWording)
    ensures user.Some? && !stored ==> o.after == Marks(m.saved, None) && o.toast == FailedToast(TrendWording)
  {
    HandleSave(m, user, trend.title, TrendRecord(trend), stored, TrendWording)
  }

  /** Saving a trend that is already saved (possible only through a stale
      button) leaves the saved set as it was. */
  lemma SavingTwiceIsHarmless(m: Marks, uid: string, trend: Trend, stored: bool)
    requires trend.title in m.saved
    ensures HandleSaveTrend(m, Some(uid), trend, stored).after.saved == m.saved
  {
  }
}
