/**
 * The post-generation engine of `GeneratorSection`: the batch one click produces, and the
 * component state (`generating`, `generated`) that the click and its timer update.
 */
module Generator {
  import opened Common
  import opened Catalog
  import opened Ranking
  import Text
  import Captions
  import Schedule
  import Templates

  /** The batch sizes the "Cantidad de Posts" buttons offer. */
  const PostCounts: set<nat> := {2, 4, 6, 8}

  /** One generated post: the product, the template, the caption and when it is scheduled. */
  datatype GeneratedPost = GeneratedPost(
    product: Product,
    template: Templates.Template,
    caption: string,
    scheduledAt: int,      // milliseconds; the source shows this instant as a locale date
    scheduledTime: string)

  /**
   * What the timer callback of one click closes over: the values of the render in which the
   * button was clicked. Changing the selection while a batch is pending does not reach it.
   */
  datatype Request = Request(
    products: seq<Product>,
    brand: Captions.Brand,
    selectedTemplate: string,
    postCount: nat,
    captionStyle: string)

  /** Post `i` of a batch, for product `p`. */
  function PostFor(req: Request, p: Product, i: nat, now: int): (post: GeneratedPost)
    ensures post.product == p
    ensures post.template in Templates.PostTemplates
    ensures post.scheduledAt == now + (2 * i + 1) * Schedule.DayMs
    ensures post.scheduledTime == Schedule.TimeSlots[i % 4]
  {
    GeneratedPost(p, Templates.FindTemplate(req.selectedTemplate), Captions.Caption(req.captionStyle, p, req.brand),
      Schedule.ScheduledAt(now, i), Schedule.TimeSlot(i))
  }

  /** `topProducts.map((p, i) => ...)`, with `now` the value `Date.now()` has when the timer fires. */
  function BuildBatch(req: Request, now: int): (posts: seq<GeneratedPost>)
    ensures |posts| == Min(req.postCount, |req.products|)
    ensures ProductsOf(posts) == TopProducts(req.products, req.postCount)
  {
    var top := TopProducts(req.products, req.postCount);
    seq(|top|, i requires 0 <= i < |top| => PostFor(req, top[i], i, now))
  }

  /** The products of a batch, in order. */
  function ProductsOf(posts: seq<GeneratedPost>): (ps: seq<Product>)
    ensures |ps| == |posts|
    ensures forall i :: 0 <= i < |posts| ==> ps[i] == posts[i].product
  {
    seq(|posts|, i requires 0 <= i < |posts| => posts[i].product)
  }

  /**
   * What a batch built for `req` at `now` is: as many posts as the smaller of the batch size
   * and the catalog, holding exactly the products `TopProducts` selects; ordered by stock, all from the catalog, none twice when catalog
   * ids are distinct; post `i` dated `2i + 1` days after `now` in slot `i mod 4`, with the
   * selected template and the caption of the chosen style.
   */
  ghost predicate WellFormedBatch(req: Request, now: int, posts: seq<GeneratedPost>) {
    && |posts| == Min(req.postCount, |req.products|)
    && ProductsOf(posts) == TopProducts(req.products, req.postCount)
    && ByStockDescending(ProductsOf(posts))
    && (forall i :: 0 <= i < |posts| ==> posts[i].product in req.products)
    && (DistinctIds(req.products) ==> DistinctIds(ProductsOf(posts)))
    && (forall i :: 0 <= i < |posts| ==>
          && posts[i].scheduledAt == now + (2 * i + 1) * Schedule.DayMs
          && posts[i].scheduledTime == Schedule.TimeSlots[i % 4]
          && posts[i].template == Templates.FindTemplate(req.selectedTemplate)
          && posts[i].caption == Captions.Caption(req.captionStyle, posts[i].product, req.brand))
  }

  /** Every batch the engine builds is well formed. */
  lemma BuildBatchWellFormed(req: Request, now: int)
    ensures WellFormedBatch(req, now, BuildBatch(req, now))
  {
    var posts := BuildBatch(req, now);
    var top := TopProducts(req.products, req.postCount);
    assert ProductsOf(posts) == top;
    TopProductsDescending(req.products, req.postCount);
    TopProductsSplitCatalog(req.products, req.postCount);
    if DistinctIds(req.products) {
      TopProductsDistinct(req.products, req.postCount);
    }
  }

  /** The ranking of the last four of the mock store's stock levels (67, 178, 450, 34). */
  lemma RankingOfSampleTail(e: Product, f: Product, g: Product, h: Product)
    requires e.stock == 67 && f.stock == 178 && g.stock == 450 && h.stock == 34
    ensures SortByStock([e, f, g, h]) == [g, f, e, h]
  {
    RankStep(h, [], [], []);
    assert [h] + [] == [h];
    RankStep(g, [h], [], [h]);
    RankStep(f, [g, h], [g], [h]);
    RankStep(e, [f, g, h], [g, f], [h]);
  }

  /** Ranking a catalog with the mock store's stock levels (145, 89, 210, 320, 67, 178, 450, 34). */
  lemma RankingOfSampleStocks(a: Product, b: Product, c: Product, d: Product, e: Product, f: Product, g: Product, h: Product)
    requires a.stock == 145 && b.stock == 89 && c.stock == 210 && d.stock == 320
    requires e.stock == 67 && f.stock == 178 && g.stock == 450 && h.stock == 34
    ensures SortByStock([a, b, c, d, e, f, g, h]) == [g, d, c, f, a, b, e, h]
  {
    RankingOfSampleTail(e, f, g, h);
    RankStep(d, [e, f, g, h], [g], [f, e, h]);
    RankStep(c, [d, e, f, g, h], [g, d], [f, e, h]);
    RankStep(b, [c, d, e, f, g, h], [g, d, c, f], [e, h]);
    RankStep(a, [b, c, d, e, f, g, h], [g, d, c, f], [b, e, h]);
  }

  /** The ids of a sequence of products, in order. */
  function ProductIds(ps: seq<Product>): (ids: seq<int>)
    ensures |ids| == |ps|
    ensures forall i :: 0 <= i < |ps| ==> ids[i] == ps[i].id
  {
    seq(|ps|, i requires 0 <= i < |ps| => ps[i].id)
  }

  /** The mock catalog ranked by stock, as positions in the catalog. */
  lemma SampleRankingOrder()
    ensures var s := SampleCatalog; SortByStock(s) == [s[6], s[3], s[2], s[5], s[0], s[1], s[4], s[7]]
  {
    var s := SampleCatalog;
    RankingOfSampleStocks(s[0], s[1], s[2], s[3], s[4], s[5], s[6], s[7]);
  }

  /** The ranking of the mock catalog: Calcetines, Gorra, Jogger, Short, Camiseta, Hoodie, Polera, Chaleco. */
  lemma SampleRanking()
    ensures ProductIds(SortByStock(SampleCatalog)) == [7, 4, 3, 6, 1, 2, 5, 8]
  {
    SampleRankingOrder();
  }

  /**
   * Every caption of a batch shows its product's formatted price; all but the minimal
   * style also show the stock.
   */
  lemma BatchCaptionsMention(req: Request, now: int)
    ensures var posts := BuildBatch(req, now);
      forall i :: 0 <= i < |posts| ==>
        && Text.Contains(posts[i].caption, FormatPrice(posts[i].product.price))
        && (req.captionStyle != "minimal" ==> Text.Contains(posts[i].caption, Text.NatToString(posts[i].product.stock)))
  {
    var posts := BuildBatch(req, now);
    forall i | 0 <= i < |posts|
      ensures Text.Contains(posts[i].caption, FormatPrice(posts[i].product.price))
      ensures req.captionStyle != "minimal" ==> Text.Contains(posts[i].caption, Text.NatToString(posts[i].product.stock))
    {
      var p := posts[i].product;
      if req.captionStyle == "minimal" {
        Captions.MinimalShape(p, p, req.brand, req.brand);
      } else if req.captionStyle == "storytelling" {
        Captions.StorytellingMentions(p, req.brand);
      } else {
        Captions.EngagingMentions(p, req.brand);
      }
    }
  }

  /**
   * The default batch for the mock store (four posts): Calcetines, Gorra, Jogger and
   * Short, at 10:00, 13:00, 18:00 and 20:00.
   */
  lemma SampleBatch(brand: Captions.Brand, selectedTemplate: string, now: int)
    ensures var posts := BuildBatch(Request(SampleCatalog, brand, selectedTemplate, 4, "engaging"), now);
      && ProductIds(ProductsOf(posts)) == [7, 4, 3, 6]
      && [posts[0].scheduledTime, posts[1].scheduledTime, posts[2].scheduledTime, posts[3].scheduledTime]
         == ["10:00", "13:00", "18:00", "20:00"]
  {
    var req := Request(SampleCatalog, brand, selectedTemplate, 4, "engaging");
    SampleTopFour();
    assert ProductsOf(BuildBatch(req, now)) == TopProducts(SampleCatalog, 4);
  }

  /** The four products with most stock in the mock catalog. */
  lemma SampleTopFour()
    ensures ProductIds(TopProducts(SampleCatalog, 4)) == [7, 4, 3, 6]
  {
    SampleRanking();
    var ranked := SortByStock(SampleCatalog);
    assert ProductIds(ranked[..4]) == ProductIds(ranked)[..4];
  }

  /** The caption styles the "Estilo de Caption" buttons offer. */
  const CaptionStyles: set<string> := {"engaging", "minimal", "storytelling"}

  /**
   * The state of `GeneratorSection`: whether a batch is being generated, the last batch,
   * and the two configuration choices. `pending` is what the running timer will build,
   * fixed at the click.
   */
  class GeneratorSection {
    var generating: bool
    var generated: seq<GeneratedPost>
    var postCount: nat
    var captionStyle: string
    var pending: Option<Request>

    /**
     * The choices are among those the buttons offer, and a batch is pending exactly while
     * the section is generating.
     */
    ghost predicate Valid()
      reads this
    {
      && postCount in PostCounts
      && captionStyle in CaptionStyles
      && (generating <==> pending.Some?)
    }

    /** The initial state: idle, no posts, four posts, engaging captions. */
    constructor()
      ensures Valid()
      ensures !generating && generated == [] && pending == None
      ensures postCount == 4 && captionStyle == "engaging"
    {
      generating := false;
      generated := [];
      postCount := 4;
      captionStyle := "engaging";
      pending := None;
    }

    /** A "Cantidad de Posts" button. A batch already pending keeps the size it was started with. */
    method SelectPostCount(n: nat)
      requires Valid() && n in PostCounts
      modifies this
      ensures Valid()
      ensures postCount == n
      ensures generating == old(generating) && generated == old(generated)
      ensures captionStyle == old(captionStyle) && pending == old(pending)
    {
      postCount := n;
    }

    /** An "Estilo de Caption" button. A batch already pending keeps the style it was started with. */
    method SelectCaptionStyle(style: string)
      requires Valid() && style in CaptionStyles
      modifies this
      ensures Valid()
      ensures captionStyle == style
      ensures generating == old(generating) && generated == old(generated)
      ensures postCount == old(postCount) && pending == old(pending)
    {
      captionStyle := style;
    }

    /**
     * A click on the generate button. While generating the button is disabled and nothing
     * happens; otherwise the section starts generating, keeps showing the previous batch,
     * and the timer closes over the current props and choices.
     */
    method HandleGenerate(products: seq<Product>, brand: Captions.Brand, selectedTemplate: string)
      returns (started: bool)
      requires Valid()
      modifies this
      ensures Valid()
      ensures started <==> !old(generating)
      ensures generating
      ensures started ==> pending == Some(Request(products, brand, selectedTemplate, postCount, captionStyle))
      ensures !started ==> pending == old(pending)
      ensures generated == old(generated) && postCount == old(postCount) && captionStyle == old(captionStyle)
    {
      if generating {
        return false;
      }
      generating := true;
      pending := Some(Request(products, brand, selectedTemplate, postCount, captionStyle));
      return true;
    }

    /**
     * The timer of the pending click fires at instant `now`: the batch replaces the
     * previous one and the section is idle again.
     */
    method CompleteGeneration(now: int)
      requires Valid() && generating
      modifies this
      ensures Valid()
      ensures !generating && pending == None
      ensures generated == BuildBatch(old(pending).value, now)
      ensures WellFormedBatch(old(pending).value, now, generated)
      ensures postCount == old(postCount) && captionStyle == old(captionStyle)
    {
      var req := pending.value;
      BuildBatchWellFormed(req, now);
      generated := BuildBatch(req, now);
      generating := false;
      pending := None;
    }
  }

  /**
   * One session: the default choices, a click, a second click while the first batch is
   * pending, and the timer. The second click starts nothing and the batch has the default
   * size, ranked by stock.
   */
  method GenerateOnce(products: seq<Product>, brand: Captions.Brand, selectedTemplate: string, now: int)
    returns (posts: seq<GeneratedPost>)
    ensures |posts| == Min(4, |products|)
    ensures ProductsOf(posts) == TopProducts(products, 4)
    ensures ByStockDescending(ProductsOf(posts))
    ensures forall i :: 0 <= i < |posts| ==> posts[i].product in products
    ensures forall i :: 0 <= i < |posts| ==> posts[i].caption == Captions.Engaging(posts[i].product, brand)
  {
    var section := new GeneratorSection();
    var started := section.HandleGenerate(products, brand, selectedTemplate);
    assert started;
    var again := section.HandleGenerate(products, brand, selectedTemplate);
    assert !again;
    section.SelectPostCount(8);
    section.CompleteGeneration(now);
    posts := section.generated;
  }
}
