/**
 * Caption synthesis: the three templates of `captionStyles` (engaging, minimal,
 * storytelling) and the fallback to engaging for any other style name.
 */
module Captions {
  import opened Common
  import opened Text
  import opened Catalog

  /**
   * The part of the brand configuration the captions read. Colours, fonts and the tagline
   * only style the rendered cards. The name is optional, as `brandName?.replace` allows.
   */
  datatype Brand = Brand(brandName: Option<string>, tone: string)

  const CasualClause: string := "No te quedes sin el tuyo"
  const DefaultClause: string := "Descubre la nueva colecci\U{F3}n"

  /** The engaging caption's middle clause: the casual one only for the tone "Casual". */
  function ToneClause(tone: string): (r: string)
    ensures r == CasualClause <==> tone == "Casual"
    ensures r == DefaultClause <==> tone != "Casual"
  {
    if tone == "Casual" then CasualClause else DefaultClause
  }

  /**
   * `#${brandName?.replace(/\s/g, "") || fallback}`'s tag: the brand name without
   * whitespace, or the fallback when the name is missing or nothing is left of it.
   */
  function BrandTag(brandName: Option<string>, fallback: string): (r: string)
    ensures NoWhitespace(fallback) ==> NoWhitespace(r)
    ensures fallback != "" ==> r != ""
    ensures r == fallback <==> brandName.None? || StripWhitespace(brandName.value) in {"", fallback}
    ensures r != fallback ==> brandName.Some? && r == StripWhitespace(brandName.value)
  {
    match brandName
    case None => fallback
    case Some(name) => if StripWhitespace(name) == "" then fallback else StripWhitespace(name)
  }

  /** A brand name made only of whitespace gives the fallback tag, as a missing one does. */
  lemma BrandTagAllBlank(name: string, fallback: string)
    requires forall i :: 0 <= i < |name| ==> IsJsWhitespace(name[i])
    ensures BrandTag(Some(name), fallback) == fallback
  {
    StripWhitespaceAllBlank(name);
  }

  function EngagingOpening(name: string): string {
    "\U{1F525} " + name + " ya disponible!\n\n"
  }

  function EngagingTags(p: Product, b: Brand): string {
    "#" + BrandTag(b.brandName, "moda") + " #" + ToLower(p.category) + " #newdrop #streetwear"
  }

  /** The `engaging` template. */
  function Engaging(p: Product, b: Brand): (r: string)
    ensures StartsWith(r, "\U{1F525} " + p.name + " ya disponible!")
  {
    EngagingOpening(p.name) + ToneClause(b.tone) + " \U{2728}\n\n\U{1F4B0} " + FormatPrice(p.price)
    + "\n\U{1F4E6} Stock limitado \U{2014} " + NatToString(p.stock) + " unidades\n\n\U{1F6D2} Link en bio\n\n"
    + EngagingTags(p, b)
  }

  const MinimalCallToAction: string := "\n\nDisponible ahora \U{2192} link en bio"

  /** The `minimal` template. */
  function Minimal(p: Product): (r: string)
    ensures StartsWith(r, p.name + "\n")
    ensures EndsWith(r, MinimalCallToAction)
  {
    p.name + "\n" + FormatPrice(p.price) + MinimalCallToAction
  }

  /** The two opening sentences of the storytelling caption. */
  function StorytellingIntro(name: string): string {
    "Hay prendas que hablan por s\U{ED} solas. " + name + " es una de ellas.\n\n"
    + "Dise\U{F1}ada para quienes buscan algo m\U{E1}s que moda \U{2014} buscan identidad.\n\n"
  }

  /** The `storytelling` template. */
  function Storytelling(p: Product, b: Brand): (r: string)
    ensures StartsWith(r, "Hay prendas que hablan por s\U{ED} solas. " + p.name + " es una de ellas.")
  {
    StorytellingIntro(p.name) + FormatPrice(p.price) + " \U{B7} " + NatToString(p.stock) + " unidades\n\n#"
    + BrandTag(b.brandName, "estilo")
  }

  /** `(captionStyles[captionStyle] || captionStyles.engaging)(p)`. */
  function Caption(style: string, p: Product, b: Brand): (r: string)
    ensures style == "minimal" ==> r == Minimal(p)
    ensures style == "storytelling" ==> r == Storytelling(p, b)
    ensures style !in {"minimal", "storytelling"} ==> r == Engaging(p, b)
  {
    if style == "minimal" then Minimal(p)
    else if style == "storytelling" then Storytelling(p, b)
    else Engaging(p, b)
  }

  /** A style name the template table does not know gives exactly the engaging caption. */
  lemma UnknownStyleIsEngaging(style: string, p: Product, b: Brand)
    requires style !in {"engaging", "minimal", "storytelling"}
    ensures Caption(style, p, b) == Caption("engaging", p, b)
  {
  }

  /** The engaging caption names the product and shows its formatted price and its stock. */
  lemma EngagingMentions(p: Product, b: Brand)
    ensures Contains(Engaging(p, b), p.name)
    ensures Contains(Engaging(p, b), FormatPrice(p.price))
    ensures Contains(Engaging(p, b), NatToString(p.stock))
  {
    var name, price, stock := p.name, FormatPrice(p.price), NatToString(p.stock);
    var opening := EngagingOpening(name);
    var s1 := opening + ToneClause(b.tone) + " \U{2728}\n\n\U{1F4B0} ";
    var s2 := s1 + price + "\n\U{1F4E6} Stock limitado \U{2014} ";
    var s3 := s2 + stock + " unidades\n\n\U{1F6D2} Link en bio\n\n";
    assert Engaging(p, b) == s3 + EngagingTags(p, b);
    // the name, inside the opening line
    ContainsInside("\U{1F525} ", name, " ya disponible!\n\n");
    ContainsAppend(opening, ToneClause(b.tone), name);
    ContainsAppend(opening + ToneClause(b.tone), " \U{2728}\n\n\U{1F4B0} ", name);
    ContainsAppend(s1, price, name);
    ContainsAppend(s1 + price, "\n\U{1F4E6} Stock limitado \U{2014} ", name);
    ContainsAppend(s2, stock, name);
    ContainsAppend(s2 + stock, " unidades\n\n\U{1F6D2} Link en bio\n\n", name);
    ContainsAppend(s3, EngagingTags(p, b), name);
    // the price
    ContainsLast(s1, price);
    ContainsAppend(s1 + price, "\n\U{1F4E6} Stock limitado \U{2014} ", price);
    ContainsAppend(s2, stock, price);
    ContainsAppend(s2 + stock, " unidades\n\n\U{1F6D2} Link en bio\n\n", price);
    ContainsAppend(s3, EngagingTags(p, b), price);
    // the stock
    ContainsLast(s2, stock);
    ContainsAppend(s2 + stock, " unidades\n\n\U{1F6D2} Link en bio\n\n", stock);
    ContainsAppend(s3, EngagingTags(p, b), stock);
  }

  /** The tone's clause stands right after the opening line of the engaging caption. */
  lemma EngagingClauseAt(p: Product, b: Brand)
    ensures OccursAt(ToneClause(b.tone), Engaging(p, b), |EngagingOpening(p.name)|)
  {
    var opening, clause := EngagingOpening(p.name), ToneClause(b.tone);
    var k := |opening|;
    var s1 := opening + clause + " \U{2728}\n\n\U{1F4B0} ";
    var s2 := s1 + FormatPrice(p.price) + "\n\U{1F4E6} Stock limitado \U{2014} ";
    var s3 := s2 + NatToString(p.stock) + " unidades\n\n\U{1F6D2} Link en bio\n\n";
    assert Engaging(p, b) == s3 + EngagingTags(p, b);
    OccursAtSelf(clause);
    OccursAtPrepend(clause, opening, clause, 0);
    OccursAtAppend(clause, opening + clause, " \U{2728}\n\n\U{1F4B0} ", k);
    OccursAtAppend(clause, s1, FormatPrice(p.price), k);
    OccursAtAppend(clause, s1 + FormatPrice(p.price), "\n\U{1F4E6} Stock limitado \U{2014} ", k);
    OccursAtAppend(clause, s2, NatToString(p.stock), k);
    OccursAtAppend(clause, s2 + NatToString(p.stock), " unidades\n\n\U{1F6D2} Link en bio\n\n", k);
    OccursAtAppend(clause, s3, EngagingTags(p, b), k);
  }

  /**
   * Right after the opening line, the engaging caption reads "No te quedes sin el tuyo"
   * when the tone is "Casual" and "Descubre la nueva colección" for every other tone.
   */
  lemma EngagingToneClause(p: Product, b: Brand)
    ensures OccursAt(CasualClause, Engaging(p, b), |EngagingOpening(p.name)|) <==> b.tone == "Casual"
    ensures OccursAt(DefaultClause, Engaging(p, b), |EngagingOpening(p.name)|) <==> b.tone != "Casual"
  {
    var r := Engaging(p, b);
    var clause := ToneClause(b.tone);
    var k := |EngagingOpening(p.name)|;
    EngagingClauseAt(p, b);
    assert r[k] == r[k..k + |clause|][0] == clause[0];
    assert CasualClause[0] == 'N' && DefaultClause[0] == 'D';
    if OccursAt(CasualClause, r, k) {
      assert r[k..k + |CasualClause|][0] == r[k];
    }
    if OccursAt(DefaultClause, r, k) {
      assert r[k..k + |DefaultClause|][0] == r[k];
    }
  }

  /**
   * The engaging caption ends with its four hashtags: the brand name without whitespace
   * (or "moda"), the lower-cased category, "newdrop" and "streetwear".
   */
  lemma EngagingEndsWithTags(p: Product, b: Brand)
    ensures EndsWith(Engaging(p, b), "#" + BrandTag(b.brandName, "moda") + " #" + ToLower(p.category) + " #newdrop #streetwear")
  {
  }

  /** With everything else equal, the tone "Casual" and any other tone give different engaging captions. */
  lemma EngagingDependsOnTone(p: Product, b: Brand, c: Brand)
    requires b.brandName == c.brandName
    requires b.tone == "Casual" && c.tone != "Casual"
    ensures Engaging(p, b) != Engaging(p, c)
  {
  }

  /**
   * The minimal caption is the name, the formatted price and the call to action, one per
   * line; it depends on nothing but the product's name and price.
   */
  lemma MinimalShape(p: Product, q: Product, b: Brand, c: Brand)
    requires p.name == q.name && p.price == q.price
    ensures Caption("minimal", p, b) == Caption("minimal", q, c)
    ensures StartsWith(Caption("minimal", p, b), p.name + "\n")
    ensures Contains(Caption("minimal", p, b), FormatPrice(p.price))
    ensures EndsWith(Caption("minimal", p, b), MinimalCallToAction)
  {
    var r := Minimal(p);
    ContainsInside(p.name + "\n", FormatPrice(p.price), MinimalCallToAction);
    assert r[..|p.name + "\n"|] == p.name + "\n";
    assert r[|r| - |MinimalCallToAction|..] == MinimalCallToAction;
  }

  /** The storytelling caption shows the formatted price and the stock. */
  lemma StorytellingMentions(p: Product, b: Brand)
    ensures Contains(Storytelling(p, b), FormatPrice(p.price))
    ensures Contains(Storytelling(p, b), NatToString(p.stock))
  {
    var price, stock := FormatPrice(p.price), NatToString(p.stock);
    var tag := BrandTag(b.brandName, "estilo");
    var intro := StorytellingIntro(p.name);
    var s1 := intro + price + " \U{B7} ";
    var s2 := s1 + stock + " unidades\n\n#";
    assert Storytelling(p, b) == s2 + tag;
    ContainsLast(intro, price);
    ContainsAppend(intro + price, " \U{B7} ", price);
    ContainsAppend(s1, stock, price);
    ContainsAppend(s1 + stock, " unidades\n\n#", price);
    ContainsAppend(s2, tag, price);
    ContainsLast(s1, stock);
    ContainsAppend(s1 + stock, " unidades\n\n#", stock);
    ContainsAppend(s2, tag, stock);
  }

  /** The storytelling caption ends with a single hashtag: the brand name without whitespace, or "estilo". */
  lemma StorytellingEndsWithTag(p: Product, b: Brand)
    ensures EndsWith(Storytelling(p, b), "#" + BrandTag(b.brandName, "estilo"))
  {
    var r := Storytelling(p, b);
    var hashTag := "#" + BrandTag(b.brandName, "estilo");
    var head := StorytellingIntro(p.name) + FormatPrice(p.price) + " \U{B7} " + NatToString(p.stock) + " unidades\n\n";
    assert r == head + hashTag;
    ContainsLast(head, hashTag);
  }

}
