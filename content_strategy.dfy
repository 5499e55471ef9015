/**
 * The content strategy engine (core/content_strategy.py): which kind of post to
 * publish next (promotion, value content or something else), the per-day
 * counters behind that choice and the publishing window.
 */
module ContentPlanning {
  import opened Wrappers
  import Clock
  import Settings
  import PM = ProductManager

  /** The three kinds of post; `_record_content` is only ever called with these. */
  datatype ContentType = Promo | Value | Others

  /** One day's `{"promo", "value", "others"}` tally. */
  datatype DayCounts = DayCounts(promo: int, value: int, others: int)

  const NoCounts: DayCounts := DayCounts(0, 0, 0)

  /** `content_stats.json`; days are calendar days and times are seconds. */
  datatype Stats = Stats(
    daily: map<int, DayCounts>,
    promoToday: int,
    valueToday: int,
    othersToday: int,
    lastDate: Option<int>,
    lastPromoTime: Option<int>)

  /** The structure used when the file is missing or unreadable. */
  const EmptyStats: Stats := Stats(map[], 0, 0, 0, None, None)

  function Bump(c: DayCounts, t: ContentType): (r: DayCounts)
    ensures r.promo == c.promo + (if t == Promo then 1 else 0)
    ensures r.value == c.value + (if t == Value then 1 else 0)
    ensures r.others == c.others + (if t == Others then 1 else 0)
  {
    match t
    case Promo => c.(promo := c.promo + 1)
    case Value => c.(value := c.value + 1)
    case Others => c.(others := c.others + 1)
  }

  /** `_check_and_reset_daily`: on a new day, today's tally and the three counters restart at zero. */
  function ResetDaily(s: Stats, today: int): (r: Stats)
    ensures r.lastDate == Some(today)
    ensures s.lastDate == Some(today) ==> r == s
    ensures s.lastDate != Some(today) ==> (r.daily == s.daily[today := NoCounts]
      && r.promoToday == 0 && r.valueToday == 0 && r.othersToday == 0 && r.lastPromoTime == s.lastPromoTime)
  {
    if s.lastDate == Some(today) then s
    else s.(daily := s.daily[today := NoCounts], promoToday := 0, valueToday := 0, othersToday := 0, lastDate := Some(today))
  }

  /** `_record_content`: one more of that kind today; only a promotion stamps the promotion time. */
  function Recorded(s: Stats, t: ContentType, now: int): (r: Stats)
    ensures var today := Clock.DayOf(now);
      r.lastDate == Some(today) && today in r.daily
      && r.daily[today] == Bump(if today in s.daily then s.daily[today] else NoCounts, t)
      && (forall d :: d in s.daily && d != today ==> d in r.daily && r.daily[d] == s.daily[d])
      && r.daily.Keys == s.daily.Keys + {today}
    ensures r.promoToday == s.promoToday + (if t == Promo then 1 else 0)
    ensures r.valueToday == s.valueToday + (if t == Value then 1 else 0)
    ensures r.othersToday == s.othersToday + (if t == Others then 1 else 0)
    ensures r.lastPromoTime == (if t == Promo then Some(now) else s.lastPromoTime)
  {
    var today := Clock.DayOf(now);
    var day := if today in s.daily then s.daily[today] else NoCounts;
    var s1 := s.(daily := s.daily[today := Bump(day, t)], lastDate := Some(today));
    match t
    case Promo => s1.(promoToday := s.promoToday + 1, lastPromoTime := Some(now))
    case Value => s1.(valueToday := s.valueToday + 1)
    case Others => s1.(othersToday := s.othersToday + 1)
  }

  /** The tally of `last_content_date`, all zeros when there is none. */
  function TodayCounts(s: Stats): DayCounts
  {
    if s.lastDate.Some? && s.lastDate.value in s.daily then s.daily[s.lastDate.value] else NoCounts
  }

  function Total(c: DayCounts): int
  {
    c.promo + c.value + c.others
  }

  /**
   * The choice `decide_content_type` makes after the reset, given the day's
   * tally, whether the product library allows a promotion now, and the two
   * random rolls (the first is drawn only while promotions are under-represented).
   */
  function Decide(c: DayCounts, cfg: PM.ContentConfig, canPromote: bool, roll1: real, roll2: real): (t: ContentType)
    ensures c.promo >= cfg.maxDailyPromo ==> t == Value
    ensures !canPromote ==> t == Value
    ensures t == Promo ==> c.promo < cfg.maxDailyPromo && canPromote
    ensures c.promo < cfg.maxDailyPromo && canPromote && CurrentRatio(c) < cfg.promoRatio && roll1 < 0.7 ==> t == Promo
    ensures t == Others ==> roll2 >= cfg.promoRatio + cfg.valueRatio
  {
    if c.promo >= cfg.maxDailyPromo then Value
    else if !canPromote then Value
    else if CurrentRatio(c) < cfg.promoRatio && roll1 < 0.7 then Promo
    else if roll2 < cfg.promoRatio && c.promo < cfg.maxDailyPromo then Promo
    else if roll2 < cfg.promoRatio + cfg.valueRatio then Value
    else Others
  }

  /** The share of promotions among today's posts, zero before the first post. */
  function CurrentRatio(c: DayCounts): real
  {
    if Total(c) > 0 then (c.promo as real) / (Total(c) as real) else 0.0
  }

  /** The counters agree with the tally of `last_content_date`. */
  predicate Consistent(s: Stats)
  {
    s.lastDate.Some? && s.lastDate.value in s.daily
    && s.daily[s.lastDate.value] == DayCounts(s.promoToday, s.valueToday, s.othersToday)
  }

  /** A reset on a new day leaves the counters and today's tally in agreement. */
  lemma {:induction false} ResetMakesConsistent(s: Stats, today: int)
    requires s.lastDate != Some(today)
    ensures Consistent(ResetDaily(s, today))
    ensures TodayCounts(ResetDaily(s, today)) == NoCounts
  {
  }

  /** Recording a post on the current day keeps the counters and today's tally in agreement. */
  lemma {:induction false} RecordKeepsConsistent(s: Stats, t: ContentType, now: int)
    requires Consistent(s) && s.lastDate == Some(Clock.DayOf(now))
    ensures Consistent(Recorded(s, t, now))
    ensures TodayCounts(Recorded(s, t, now)) == Bump(TodayCounts(s), t)
  {
  }

  /** One decide-and-record round never takes the day's promotions past the cap. */
  lemma {:induction false} PromoCapKept(s: Stats, cfg: PM.ContentConfig, canPromote: bool, roll1: real, roll2: real, now: int)
    requires 0 <= cfg.maxDailyPromo && TodayCounts(s).promo <= cfg.maxDailyPromo
    ensures var r := ResetDaily(s, Clock.DayOf(now));
      TodayCounts(Recorded(r, Decide(TodayCounts(r), cfg, canPromote, roll1, roll2), now)).promo <= cfg.maxDailyPromo
  {
    var today := Clock.DayOf(now);
    var r := ResetDaily(s, today);
    var c := TodayCounts(r);
    var t := Decide(c, cfg, canPromote, roll1, roll2);
    assert r.lastDate == Some(today);
    assert TodayCounts(Recorded(r, t, now)).promo == c.promo + (if t == Promo then 1 else 0);
    if s.lastDate != Some(today) {
      assert c == NoCounts;
    }
  }

  /** What `should_publish_now` answers. */
  datatype PublishCheck =
    | DailyLimitReached(limit: int)
    | OutsideHours(hour: int)
    | Publish

  /** Within two hours of one of the publishing hours, with no wrap around midnight. */
  predicate NearPublishHour(hour: int)
  {
    exists i :: 0 <= i < |Settings.PublishHours| && -2 <= hour - Settings.PublishHours[i] <= 2
  }

  /** `should_publish_now` on the tally of `last_content_date` (no reset happens first). */
  function PublishVerdict(c: DayCounts, hour: int): (r: PublishCheck)
    ensures r.DailyLimitReached? <==> Total(c) >= Settings.DailyPublishLimit
    ensures r == Publish <==> Total(c) < Settings.DailyPublishLimit && NearPublishHour(hour)
  {
    if Total(c) >= Settings.DailyPublishLimit then DailyLimitReached(Settings.DailyPublishLimit)
    else if NearPublishHour(hour) then Publish
    else OutsideHours(hour)
  }

  /** With publishing hours 8, 12 and 21 the window is 6..14 and 19..23; late night is never in it. */
  lemma {:induction false} PublishWindow(hour: int)
    requires 0 <= hour < 24
    ensures NearPublishHour(hour) <==> (6 <= hour <= 14 || 19 <= hour <= 23)
  {
    var hs := Settings.PublishHours;
    if 6 <= hour <= 10 {
      assert -2 <= hour - hs[0] <= 2;
    } else if 11 <= hour <= 14 {
      assert -2 <= hour - hs[1] <= 2;
    } else if 19 <= hour <= 23 {
      assert -2 <= hour - hs[2] <= 2;
    }
  }

  /** `get_today_stats`. */
  datatype TodayReport = TodayReport(date: Option<int>, promo: int, value: int, others: int, total: int)

  class Planner {
    var stats: Stats
    const products: PM.Library

    /** `_load_stats`: the stored statistics, or the empty structure. */
    constructor (stored: Option<Stats>, products: PM.Library)
      ensures stats == (if stored.Some? then stored.value else EmptyStats)
      ensures this.products == products
    {
      stats := if stored.Some? then stored.value else EmptyStats;
      this.products := products;
    }

    /** `_check_and_reset_daily`. */
    method CheckAndResetDaily(now: int)
      modifies this
      ensures stats == ResetDaily(old(stats), Clock.DayOf(now))
    {
      var today := Clock.DayOf(now);
      if stats.lastDate != Some(today) {
        stats := stats.(daily := stats.daily[today := NoCounts], promoToday := 0, valueToday := 0, othersToday := 0,
                        lastDate := Some(today));
      }
    }

    /** `_record_content`. */
    method RecordContent(t: ContentType, now: int)
      modifies this
      ensures stats == Recorded(old(stats), t, now)
    {
      stats := Recorded(stats, t, now);
    }

    /**
     * `decide_content_type`: the kind of post and, for a promotion, the product
     * under the round-robin cursor. With no products the source records the
     * promotion and then fails on the missing product; that is the error here.
     */
    method DecideContentType(now: int, roll1: real, roll2: real) returns (r: Result<(ContentType, Option<PM.Product>)>)
      modifies this, products
      ensures var reset := ResetDaily(old(stats), Clock.DayOf(now));
        var t := Decide(TodayCounts(reset), products.content, old(products.CanPromoteNow(now)).Allowed?, roll1, roll2);
        stats == Recorded(reset, t, now)
        && products.products == old(products.products)
        && (t != Promo ==> r == Ok((t, None)) && products.promoIndex == old(products.promoIndex))
        && (t == Promo && old(products.products) == [] ==> r.Err? && products.promoIndex == old(products.promoIndex))
        && (t == Promo && old(products.products) != [] ==>
              r == Ok((Promo, Some(old(products.products)[old(products.promoIndex) % |old(products.products)|])))
              && products.promoIndex == old(products.promoIndex) + 1)
    {
      CheckAndResetDaily(now);
      var canPromote := products.CanPromoteNow(now).Allowed?;
      var t := Decide(TodayCounts(stats), products.content, canPromote, roll1, roll2);
      if t == Promo {
        var p := products.GetNextPromoProduct();
        RecordContent(Promo, now);
        if p.None? {
          return Err("没有可宣传的产品");
        }
        return Ok((Promo, p));
      }
      RecordContent(t, now);
      return Ok((t, None));
    }

    /** `should_publish_now`, with its loop over the publishing hours. */
    method ShouldPublishNow(hour: int) returns (r: PublishCheck)
      ensures r == PublishVerdict(TodayCounts(stats), hour)
    {
      var c := TodayCounts(stats);
      if Total(c) >= Settings.DailyPublishLimit {
        return DailyLimitReached(Settings.DailyPublishLimit);
      }
      var hs := Settings.PublishHours;
      var near := false;
      var i := 0;
      while i < |hs|
        invariant 0 <= i <= |hs|
        invariant near <==> exists j :: 0 <= j < i && -2 <= hour - hs[j] <= 2
      {
        if -2 <= hour - hs[i] <= 2 {
          near := true;
          i := i + 1;
          break;
        }
        i := i + 1;
      }
      if !near {
        return OutsideHours(hour);
      }
      return Publish;
    }

    /** `get_today_stats`: after the daily reset, the counters and their sum. */
    method GetTodayStats(now: int) returns (r: TodayReport)
      modifies this
      ensures stats == ResetDaily(old(stats), Clock.DayOf(now))
      ensures r.date == Some(Clock.DayOf(now))
      ensures r.promo == stats.promoToday && r.value == stats.valueToday && r.others == stats.othersToday
      ensures r.total == r.promo + r.value + r.others
    {
      CheckAndResetDaily(now);
      r := TodayReport(stats.lastDate, stats.promoToday, stats.valueToday, stats.othersToday,
                       stats.promoToday + stats.valueToday + stats.othersToday);
    }
  }
}
