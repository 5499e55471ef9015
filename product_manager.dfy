/**
 * The product library (core/product_manager.py): products to promote, a
 * round-robin cursor, keyword matching of posts to products, promotion
 * counters, the daily cap and the minimum interval between promotions, and the
 * weighted choice of an interaction style.
 */
module ProductManager {
  import opened Wrappers
  import opened Strings
  import Clock

  /** `promo_stats`; a product without one reads as zero counts and no stamp. */
  datatype PromoStats = PromoStats(totalMentions: int, successCount: int, lastPromote: Option<int>)

  const NoPromos: PromoStats := PromoStats(0, 0, None)

  datatype Product = Product(id: string, name: string, category: string, keywords: seq<string>, promo: PromoStats)

  /** `content_strategy`, with the defaults of `_get_default_data`. */
  datatype ContentConfig = ContentConfig(promoRatio: real, valueRatio: real, maxDailyPromo: int, promoIntervalHours: int)

  /** `interaction_strategy`, with the defaults of `_get_default_data`. */
  datatype InteractionConfig = InteractionConfig(helpFirstRatio: real, valueShareRatio: real, directPromoRatio: real,
                                                 maxDailyDirectPromo: int)

  const DefaultContent: ContentConfig := ContentConfig(0.3, 0.5, 2, 6)
  const DefaultInteraction: InteractionConfig := InteractionConfig(0.6, 0.3, 0.1, 1)

  // ------------------------------------------------------------ lookup

  function FindFrom(products: seq<Product>, id: string, from: nat): (r: Option<nat>)
    requires from <= |products|
    ensures r.Some? ==> (from <= r.value < |products| && products[r.value].id == id
      && forall j :: from <= j < r.value ==> products[j].id != id)
    ensures r.None? ==> forall j :: from <= j < |products| ==> products[j].id != id
    decreases |products| - from
  {
    if from == |products| then None
    else if products[from].id == id then Some(from)
    else FindFrom(products, id, from + 1)
  }

  /** The position of the first product with that id. */
  function Find(products: seq<Product>, id: string): Option<nat>
  {
    FindFrom(products, id, 0)
  }

  // ------------------------------------------------------------ matching

  /** `match_product_by_content`'s score: the listed keywords, lower-cased, found in the lower-cased text. */
  function MatchScore(keywords: seq<string>, text: string): (n: nat)
    ensures n <= |keywords|
    decreases |keywords|
  {
    if keywords == [] then 0
    else MatchScore(keywords[..|keywords| - 1], text) + (if Contains(text, Lower(keywords[|keywords| - 1])) then 1 else 0)
  }

  /** A product scores zero exactly when none of its lower-cased keywords occurs in the text. */
  lemma {:induction false} MatchScoreZero(keywords: seq<string>, text: string)
    ensures MatchScore(keywords, text) == 0 <==> forall k :: 0 <= k < |keywords| ==> !Contains(text, Lower(keywords[k]))
    decreases |keywords|
  {
    if keywords != [] {
      var init := keywords[..|keywords| - 1];
      MatchScoreZero(init, text);
      assert forall k :: 0 <= k < |init| ==> init[k] == keywords[k];
    }
  }

  /** The text the keywords are matched against. */
  function MatchText(title: string, content: string): string
  {
    Lower(title + " " + content)
  }

  /** The position of the earliest product among the first `n` with the highest positive score, if any scores. */
  function BestAmong(products: seq<Product>, text: string, n: nat): (r: Option<nat>)
    requires n <= |products|
    ensures r.Some? ==> (r.value < n && MatchScore(products[r.value].keywords, text) > 0
      && (forall j :: 0 <= j < n ==> MatchScore(products[j].keywords, text) <= MatchScore(products[r.value].keywords, text))
      && (forall j :: 0 <= j < r.value ==> MatchScore(products[j].keywords, text) < MatchScore(products[r.value].keywords, text)))
    ensures r.None? ==> forall j :: 0 <= j < n ==> MatchScore(products[j].keywords, text) == 0
  {
    BestBy(Scores(products, text), n)
  }

  /** Every product's score against the text, in order. */
  function Scores(products: seq<Product>, text: string): (r: seq<nat>)
    ensures |r| == |products| && forall j :: 0 <= j < |products| ==> r[j] == MatchScore(products[j].keywords, text)
  {
    seq(|products|, j requires 0 <= j < |products| => MatchScore(products[j].keywords, text))
  }

  /** The position of the earliest of the first `n` scores that is highest and positive, if any is positive. */
  function BestBy(scores: seq<nat>, n: nat): (r: Option<nat>)
    requires n <= |scores|
    ensures r.Some? ==> (r.value < n && scores[r.value] > 0
      && (forall j :: 0 <= j < n ==> scores[j] <= scores[r.value])
      && (forall j :: 0 <= j < r.value ==> scores[j] < scores[r.value]))
    ensures r.None? ==> forall j :: 0 <= j < n ==> scores[j] == 0
    decreases n
  {
    if n == 0 then None
    else
      var b := BestBy(scores, n - 1);
      if scores[n - 1] > 0 && (b.None? || scores[n - 1] > scores[b.value]) then Some(n - 1) else b
  }

  /**
   * `match_product_by_content`: nothing for an empty title and content or no
   * products; otherwise the earliest product with the highest positive score.
   */
  function MatchProduct(products: seq<Product>, title: string, content: string): (r: Option<Product>)
    ensures title == "" && content == "" ==> r.None?
    ensures r.Some? ==> (exists i :: (0 <= i < |products| && products[i] == r.value
      && MatchScore(products[i].keywords, MatchText(title, content)) > 0
      && (forall j :: 0 <= j < |products| ==>
           MatchScore(products[j].keywords, MatchText(title, content)) <= MatchScore(products[i].keywords, MatchText(title, content)))))
    ensures r.None? && (title != "" || content != "") ==>
      forall j :: 0 <= j < |products| ==> MatchScore(products[j].keywords, MatchText(title, content)) == 0
  {
    if title == "" && content == "" then None
    else
      var b := BestAmong(products, MatchText(title, content), |products|);
      if b.Some? then Some(products[b.value]) else None
  }

  // ------------------------------------------------------------ promotion counters

  /** `_get_today_promo_count`: products (not promotions) whose last promotion fell on today's date. */
  function TodayCount(products: seq<Product>, now: int): (n: nat)
    ensures n <= |products|
    decreases |products|
  {
    if products == [] then 0
    else
      var p := products[|products| - 1];
      TodayCount(products[..|products| - 1], now)
        + (if p.promo.lastPromote.Some? && Clock.DayOf(p.promo.lastPromote.value) == Clock.DayOf(now) then 1 else 0)
  }

  /** `_get_last_promo_time`: the latest stamp of any product. */
  function LastPromo(products: seq<Product>): (r: Option<int>)
    ensures r.None? <==> forall k :: 0 <= k < |products| ==> products[k].promo.lastPromote.None?
    ensures r.Some? ==> ((exists k :: 0 <= k < |products| && products[k].promo.lastPromote == r)
      && (forall k :: 0 <= k < |products| && products[k].promo.lastPromote.Some? ==> products[k].promo.lastPromote.value <= r.value))
    decreases |products|
  {
    if products == [] then None
    else
      var init := products[..|products| - 1];
      var rest := LastPromo(init);
      var p := products[|products| - 1].promo.lastPromote;
      assert forall k :: 0 <= k < |init| ==> init[k] == products[k];
      if p.None? then rest
      else if rest.None? || p.value > rest.value then p
      else rest
  }

  /** Why `can_promote_now` says what it says. */
  datatype PromoCheck =
    | Allowed
    | DailyCapReached(maxDaily: int)
    | TooSoon(intervalHours: int, remainingHours: real)

  /** `can_promote_now`. */
  function CanPromote(products: seq<Product>, cfg: ContentConfig, now: int): (r: PromoCheck)
    ensures r.DailyCapReached? <==> TodayCount(products, now) >= cfg.maxDailyPromo
    ensures r.Allowed? <==>
      TodayCount(products, now) < cfg.maxDailyPromo
      && (LastPromo(products).None? || now - LastPromo(products).value >= cfg.promoIntervalHours * Clock.SecondsPerHour)
    ensures r.TooSoon? ==> r.remainingHours > 0.0
  {
    if TodayCount(products, now) >= cfg.maxDailyPromo then DailyCapReached(cfg.maxDailyPromo)
    else
      var last := LastPromo(products);
      if last.Some? && now - last.value < cfg.promoIntervalHours * Clock.SecondsPerHour then
        TooSoon(cfg.promoIntervalHours, (cfg.promoIntervalHours as real) - ((now - last.value) as real) / 3600.0)
      else Allowed
  }

  /** `record_promo` on one product: one more mention, stamped now, one more success if it succeeded. */
  function Promoted(p: Product, success: bool, now: int): (r: Product)
    ensures r.id == p.id && r.keywords == p.keywords && r.promo.lastPromote == Some(now)
    ensures r.promo.totalMentions == p.promo.totalMentions + 1
    ensures r.promo.successCount == p.promo.successCount + (if success then 1 else 0)
  {
    p.(promo := PromoStats(p.promo.totalMentions + 1, p.promo.successCount + (if success then 1 else 0), Some(now)))
  }

  /** A promotion just recorded blocks the next one for the whole interval (when the interval is positive). */
  lemma {:induction false} PromotionStartsInterval(products: seq<Product>, i: nat, success: bool, cfg: ContentConfig, now: int)
    requires i < |products| && cfg.promoIntervalHours > 0
    requires forall k :: 0 <= k < |products| && products[k].promo.lastPromote.Some? ==> products[k].promo.lastPromote.value <= now
    ensures !CanPromote(products[i := Promoted(products[i], success, now)], cfg, now).Allowed?
  {
    var after := products[i := Promoted(products[i], success, now)];
    var last := LastPromo(after);
    assert after[i].promo.lastPromote == Some(now);
    assert last.Some? && last.value >= now;
    assert forall k :: 0 <= k < |after| && after[k].promo.lastPromote.Some? ==> after[k].promo.lastPromote.value <= now by {
      forall k | 0 <= k < |after| && after[k].promo.lastPromote.Some? ensures after[k].promo.lastPromote.value <= now {
        if k != i {
          assert after[k] == products[k];
        }
      }
    }
  }

  // ------------------------------------------------------------ interaction style

  /** The interaction styles with their weights, in the order they are tried. */
  function Weights(cfg: InteractionConfig): seq<(real, string)>
  {
    [(cfg.helpFirstRatio, "help_first"), (cfg.valueShareRatio, "value_share"), (cfg.directPromoRatio, "direct_promo")]
  }

  function SumWeights(ws: seq<(real, string)>): real
    decreases |ws|
  {
    if ws == [] then 0.0 else SumWeights(ws[..|ws| - 1]) + ws[|ws| - 1].0
  }

  /** The first style whose running total of weights reaches the roll, "help_first" when none does. */
  function PickStyle(ws: seq<(real, string)>, roll: real): (r: string)
    ensures r == "help_first" || exists i :: 0 <= i < |ws| && r == ws[i].1
  {
    PickFrom(ws, roll, 0)
  }

  function PickFrom(ws: seq<(real, string)>, roll: real, i: nat): (r: string)
    requires i <= |ws|
    ensures r == "help_first" || exists j :: i <= j < |ws| && r == ws[j].1
    decreases |ws| - i
  {
    if i == |ws| then "help_first"
    else if roll <= SumWeights(ws[..i + 1]) then ws[i].1
    else PickFrom(ws, roll, i + 1)
  }

  /** The running total of the weights up to and including position `j`. */
  function RunningTotal(ws: seq<(real, string)>, j: nat): real
    requires j < |ws|
  {
    SumWeights(ws[..j + 1])
  }

  /** For any weights, a roll picks the first style whose running total reaches it. */
  lemma {:induction false} PickStyleBand(ws: seq<(real, string)>, roll: real, i: nat, k: nat)
    requires i <= k < |ws| && roll <= RunningTotal(ws, k)
    requires forall j :: i <= j < k ==> roll > RunningTotal(ws, j)
    ensures PickFrom(ws, roll, i) == ws[k].1
    ensures i == 0 ==> PickStyle(ws, roll) == ws[k].1
    decreases k - i
  {
    if i < k {
      assert roll > RunningTotal(ws, i);
      PickStyleBand(ws, roll, i + 1, k);
    } else {
      assert roll <= RunningTotal(ws, k);
    }
  }

  /** For any weights, a roll above every running total falls back to "help_first". */
  lemma {:induction false} PickStyleFallback(ws: seq<(real, string)>, roll: real, i: nat)
    requires i <= |ws| && forall j :: i <= j < |ws| ==> roll > RunningTotal(ws, j)
    ensures PickFrom(ws, roll, i) == "help_first"
    ensures i == 0 ==> PickStyle(ws, roll) == "help_first"
    decreases |ws| - i
  {
    if i < |ws| {
      assert roll > RunningTotal(ws, i);
      PickStyleFallback(ws, roll, i + 1);
    }
  }

  /** With the default weights 0.6, 0.3, 0.1 a roll picks the style whose band it falls in. */
  lemma {:induction false} DefaultBands(roll: real)
    ensures roll <= 0.6 ==> PickStyle(Weights(DefaultInteraction), roll) == "help_first"
    ensures 0.6 < roll <= 0.9 ==> PickStyle(Weights(DefaultInteraction), roll) == "value_share"
    ensures 0.9 < roll <= 1.0 ==> PickStyle(Weights(DefaultInteraction), roll) == "direct_promo"
    ensures roll > 1.0 ==> PickStyle(Weights(DefaultInteraction), roll) == "help_first"
  {
    var ws := Weights(DefaultInteraction);
    assert ws[..1] == [ws[0]] && ws[..2] == [ws[0], ws[1]] && ws[..3] == ws;
    assert [ws[0], ws[1]][..1] == [ws[0]];
    assert SumWeights(ws[..1]) == 0.6;
    assert SumWeights(ws[..2]) == 0.6 + 0.3;
    assert SumWeights(ws[..3]) == 0.6 + 0.3 + 0.1;
  }

  // ------------------------------------------------------------ the library object

  class Library {
    var products: seq<Product>
    /** `current_promo_index`, the round-robin cursor. */
    var promoIndex: nat
    const content: ContentConfig
    const interaction: InteractionConfig

    /** `_load_data`: a missing or unreadable file gives no products and the default strategies. */
    constructor (stored: Option<(seq<Product>, ContentConfig, InteractionConfig)>)
      ensures stored.Some? ==> products == stored.value.0 && content == stored.value.1 && interaction == stored.value.2
      ensures stored.None? ==> products == [] && content == DefaultContent && interaction == DefaultInteraction
      ensures promoIndex == 0
    {
      if stored.Some? {
        products, content, interaction := stored.value.0, stored.value.1, stored.value.2;
      } else {
        products, content, interaction := [], DefaultContent, DefaultInteraction;
      }
      promoIndex := 0;
    }

    /** `get_product_by_id`. */
    method GetProductById(id: string) returns (r: Option<Product>)
      ensures r.Some? <==> Find(products, id).Some?
      ensures r.Some? ==> r.value == products[Find(products, id).value] && r.value.id == id
    {
      var i := 0;
      while i < |products|
        invariant 0 <= i <= |products|
        invariant FindFrom(products, id, i) == Find(products, id)
      {
        if products[i].id == id {
          return Some(products[i]);
        }
        i := i + 1;
      }
      return None;
    }

    /** `get_next_promo_product`: nothing without products; otherwise the product under the cursor, which advances. */
    method GetNextPromoProduct() returns (r: Option<Product>)
      modifies this
      ensures products == old(products)
      ensures old(products) == [] ==> r.None? && promoIndex == old(promoIndex)
      ensures old(products) != [] ==> r == Some(products[old(promoIndex) % |products|]) && promoIndex == old(promoIndex) + 1
    {
      if products == [] {
        return None;
      }
      r := Some(products[promoIndex % |products|]);
      promoIndex := promoIndex + 1;
    }

    /** `match_product_by_content`, with its loops over products and keywords. */
    method MatchProductByContent(title: string, content': string) returns (r: Option<Product>)
      ensures r == MatchProduct(products, title, content')
    {
      if title == "" && content' == "" {
        return None;
      }
      var text := MatchText(title, content');
      var best: Option<nat> := None;
      var bestScore := 0;
      for i := 0 to |products|
        invariant best == BestAmong(products, text, i)
        invariant best.Some? ==> bestScore == MatchScore(products[best.value].keywords, text)
      {
        var score := CountKeywords(products[i].keywords, text);
        if score > 0 && (best.None? || score > bestScore) {
          best := Some(i);
          bestScore := score;
        }
      }
      if best.Some? {
        r := Some(products[best.value]);
      } else {
        r := None;
      }
    }

    /** `record_promo`: nothing for an unknown id; otherwise the first product with it is promoted. */
    method RecordPromo(id: string, success: bool, now: int)
      modifies this
      ensures promoIndex == old(promoIndex)
      ensures Find(old(products), id).None? ==> products == old(products)
      ensures Find(old(products), id).Some? ==> var i := Find(old(products), id).value;
        products == old(products)[i := Promoted(old(products)[i], success, now)]
    {
      var i := 0;
      while i < |products|
        invariant 0 <= i <= |products|
        invariant FindFrom(products, id, i) == Find(products, id)
      {
        if products[i].id == id {
          products := products[i := Promoted(products[i], success, now)];
          return;
        }
        i := i + 1;
      }
    }

    /** `can_promote_now`. */
    function CanPromoteNow(now: int): PromoCheck
      reads this
    {
      CanPromote(products, content, now)
    }

    /** `decide_interaction_type`, with its running-total loop. */
    method DecideInteractionType(roll: real) returns (r: string)
      ensures r == PickStyle(Weights(interaction), roll)
    {
      var ws := Weights(interaction);
      var cumulative := 0.0;
      for i := 0 to |ws|
        invariant cumulative == SumWeights(ws[..i])
        invariant PickFrom(ws, roll, i) == PickStyle(ws, roll)
      {
        assert ws[..i + 1][..i] == ws[..i];
        cumulative := cumulative + ws[i].0;
        if roll <= cumulative {
          return ws[i].1;
        }
      }
      return "help_first";
    }
  }

  /** The inner keyword loop of `match_product_by_content`. */
  method CountKeywords(keywords: seq<string>, text: string) returns (score: nat)
    ensures score == MatchScore(keywords, text)
  {
    score := 0;
    for k := 0 to |keywords|
      invariant score == MatchScore(keywords[..k], text)
    {
      assert keywords[..k + 1][..k] == keywords[..k];
      if Contains(text, Lower(keywords[k])) {
        score := score + 1;
      }
    }
    assert keywords[..|keywords|] == keywords;
  }

  /** The product the cursor reaches `k` calls after `start`, among `n`. */
  function Served(start: nat, k: nat, n: nat): nat
    requires n > 0
  {
    (start + k) % n
  }

  /** Round robin: within any `n` consecutive calls each of the `n` products comes up. */
  lemma {:induction false} RoundRobin(start: nat, n: nat, target: nat)
    requires target < n
    ensures exists k :: 0 <= k < n && Served(start, k, n) == target
  {
    var q := start / n;
    var r := start % n;
    assert start == n * q + r;
    if r <= target {
      ModOf(start + (target - r), q, target, n);
      assert Served(start, target - r, n) == target;
    } else {
      assert start + (target + n - r) == n * (q + 1) + target;
      ModOf(start + (target + n - r), q + 1, target, n);
      assert Served(start, target + n - r, n) == target;
    }
  }

  /** Round robin: after `n` calls the cursor is back on the same product. */
  lemma {:induction false} RoundRobinPeriod(start: nat, n: nat)
    requires n > 0
    ensures Served(start, n, n) == Served(start, 0, n)
  {
    var q := start / n;
    assert start == n * q + start % n;
    assert start + n == n * (q + 1) + start % n;
    ModOf(start + n, q + 1, start % n, n);
  }

  lemma {:induction false} MulAtLeast(n: int, d: int)
    requires n > 0 && d >= 1
    ensures n * d >= n
  {
  }

  /** Division with remainder is unique. */
  lemma {:induction false} ModOf(x: int, q: int, t: int, n: int)
    requires n > 0 && 0 <= t < n && x == n * q + t
    ensures x % n == t
  {
    var q' := x / n;
    var t' := x % n;
    assert x == n * q' + t';
    var d := q - q';
    assert n * d == t' - t by {
      assert n * q - n * q' == n * d;
    }
    if d >= 1 {
      MulAtLeast(n, d);
    } else if d <= -1 {
      MulAtLeast(n, -d);
    }
  }
}
