/**
 * The smart interaction agent (core/smart_interact.py): whether to engage with a
 * post, and whether the engagement is a product mention or a plain comment or
 * like. The language model's analysis, its product match and its promotional
 * comment are oracle values; the quota and the interaction style come from the
 * product library's state and a random roll.
 */
module SmartInteraction {
  import opened Wrappers
  import LlmClient
  import PM = ProductManager

  /** The reply of `generate_promo_comment`; a field is None when its key is absent. */
  datatype PromoReply = PromoReply(commentText: Option<string>, isNatural: Option<bool>)

  /** The decision dictionary, one constructor per shape the source returns. */
  datatype Decision =
    | Skip
      // should_interact False, reason 内容不相关, comment None
    | PromoComment(promoType: string, product: PM.Product, comment: Option<string>, productId: string, isNatural: bool)
      // interaction_type "promo"
    | NormalWithProduct(matched: PM.Product, comment: Option<string>, refusal: PM.PromoCheck)
      // interaction_type "normal" with matched_product
    | Normal(comment: Option<string>, isHighQuality: bool)
      // interaction_type "normal" without a product
    | LikeOnly
      // interaction_type "like_only", comment None

  function ShouldInteract(d: Decision): bool
  {
    !d.Skip?
  }

  /** The decision's `comment` entry. */
  function CommentOf(d: Decision): Option<string>
  {
    match d
    case Skip => None
    case PromoComment(_, _, c, _, _) => c
    case NormalWithProduct(_, c, _) => c
    case Normal(c, _) => c
    case LikeOnly => None
  }

  /** The decision's `interaction_type` entry ("" where it has none). */
  function InteractionType(d: Decision): string
  {
    match d
    case Skip => ""
    case PromoComment(_, _, _, _, _) => "promo"
    case NormalWithProduct(_, _, _) => "normal"
    case Normal(_, _) => "normal"
    case LikeOnly => "like_only"
  }

  /** A direct promotion becomes help-first once today's promotions reach the direct-promotion cap. */
  function EffectiveStyle(style: string, todayPromotions: int, maxDirect: int): (r: string)
    ensures style == "direct_promo" && todayPromotions >= maxDirect ==> r == "help_first"
    ensures !(style == "direct_promo" && todayPromotions >= maxDirect) ==> r == style
    ensures r == "direct_promo" ==> todayPromotions < maxDirect
  {
    if style == "direct_promo" && todayPromotions >= maxDirect then "help_first" else style
  }

  /** `_decide_promo_interaction`, given the product library's state at `now`. */
  function DecidePromo(products: seq<PM.Product>, content: PM.ContentConfig, interaction: PM.InteractionConfig, now: int,
                       product: PM.Product, analysis: LlmClient.Analysis, styleRoll: real, reply: PromoReply): (d: Decision)
    ensures d.PromoComment? <==> PM.CanPromote(products, content, now).Allowed?
    ensures d.PromoComment? ==> (d.product == product && d.productId == product.id && d.comment == reply.commentText
      && d.promoType == EffectiveStyle(PM.PickStyle(PM.Weights(interaction), styleRoll),
                                       PM.TodayCount(products, now), interaction.maxDailyDirectPromo)
      && d.isNatural == reply.isNatural.GetOr(true))
    ensures d.NormalWithProduct? ==> (d.matched == product && d.comment == analysis.commentText
      && d.refusal == PM.CanPromote(products, content, now))
    ensures d.PromoComment? || d.NormalWithProduct?
  {
    var check := PM.CanPromote(products, content, now);
    var style := EffectiveStyle(PM.PickStyle(PM.Weights(interaction), styleRoll),
                                PM.TodayCount(products, now), interaction.maxDailyDirectPromo);
    if check.Allowed? then PromoComment(style, product, reply.commentText, product.id, reply.isNatural.GetOr(true))
    else NormalWithProduct(product, analysis.commentText, check)
  }

  /** `_decide_normal_interaction`: a comment about seven times in ten when the analysis asks for one. */
  function DecideNormal(analysis: LlmClient.Analysis, roll: real): (d: Decision)
    ensures d.Normal? <==> analysis.shouldComment == Some(true) && roll < 0.7
    ensures d.Normal? ==> d.comment == analysis.commentText && d.isHighQuality == analysis.isHighQuality.GetOr(false)
    ensures !d.Normal? ==> d == LikeOnly && CommentOf(d).None?
  {
    if analysis.shouldComment == Some(true) && roll < 0.7 then Normal(analysis.commentText, analysis.isHighQuality.GetOr(false))
    else LikeOnly
  }

  /** `decide_interaction`: skip irrelevant posts; otherwise promote a matched product or interact normally. */
  function DecideInteraction(products: seq<PM.Product>, content: PM.ContentConfig, interaction: PM.InteractionConfig,
                             now: int, analysis: LlmClient.Analysis, matched: Option<PM.Product>,
                             styleRoll: real, reply: PromoReply, commentRoll: real): (d: Decision)
    ensures !LlmClient.IsRelevant(analysis) <==> d == Skip
    ensures d == Skip ==> !ShouldInteract(d) && CommentOf(d).None?
    ensures LlmClient.IsRelevant(analysis) && matched.Some? ==>
      d == DecidePromo(products, content, interaction, now, matched.value, analysis, styleRoll, reply)
    ensures LlmClient.IsRelevant(analysis) && matched.None? ==> d == DecideNormal(analysis, commentRoll)
  {
    if !LlmClient.IsRelevant(analysis) then Skip
    else if matched.Some? then DecidePromo(products, content, interaction, now, matched.value, analysis, styleRoll, reply)
    else DecideNormal(analysis, commentRoll)
  }

  /** A promotional comment is of the direct kind only while today's promotions are under the direct cap. */
  lemma {:induction false} DirectPromoWithinCap(products: seq<PM.Product>, content: PM.ContentConfig, interaction: PM.InteractionConfig,
                             now: int, analysis: LlmClient.Analysis, matched: Option<PM.Product>,
                             styleRoll: real, reply: PromoReply, commentRoll: real)
    ensures var d := DecideInteraction(products, content, interaction, now, analysis, matched, styleRoll, reply, commentRoll);
      d.PromoComment? && d.promoType == "direct_promo" ==>
        PM.TodayCount(products, now) < interaction.maxDailyDirectPromo && PM.CanPromote(products, content, now).Allowed?
  {
  }

  /** A post gets a product mention exactly when it is relevant, a product matches and the quota allows it. */
  lemma {:induction false} PromotesIff(products: seq<PM.Product>, content: PM.ContentConfig, interaction: PM.InteractionConfig,
                    now: int, analysis: LlmClient.Analysis, matched: Option<PM.Product>,
                    styleRoll: real, reply: PromoReply, commentRoll: real)
    ensures InteractionType(DecideInteraction(products, content, interaction, now, analysis, matched, styleRoll, reply, commentRoll)) == "promo"
      <==> LlmClient.IsRelevant(analysis) && matched.Some? && PM.CanPromote(products, content, now).Allowed?
  {
    var d := DecideInteraction(products, content, interaction, now, analysis, matched, styleRoll, reply, commentRoll);
    if InteractionType(d) == "promo" {
      assert d.PromoComment?;
    }
  }

  /** Whether `record_interaction` books a promotion for this decision. */
  predicate RecordsPromo(d: Decision)
  {
    d.PromoComment? && d.productId != ""
  }

  /**
   * `record_interaction`: a promotional decision with a product id is booked on
   * the product library, successful when it carried a comment; nothing else is.
   */
  method RecordInteraction(products: PM.Library, d: Decision, now: int)
    modifies products
    ensures products.promoIndex == old(products.promoIndex)
    ensures !RecordsPromo(d) ==> products.products == old(products.products)
    ensures RecordsPromo(d) && PM.Find(old(products.products), d.productId).Some? ==>
      var i := PM.Find(old(products.products), d.productId).value;
      products.products == old(products.products)[i := PM.Promoted(old(products.products)[i], d.comment.Some?, now)]
    ensures RecordsPromo(d) && PM.Find(old(products.products), d.productId).None? ==> products.products == old(products.products)
  {
    if d.PromoComment? && d.productId != "" {
      products.RecordPromo(d.productId, d.comment.Some?, now);
    }
  }
}
