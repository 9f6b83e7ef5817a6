# Post-generation engine of the Instagram auto-posting panel

This project models the engine behind the "Generador de Posts" section of a small React
panel for a clothing store's Instagram account. The panel is shipped twice, as
`instagram-auto-system.jsx` and as `src/App.jsx`. The generator code is identical in both
(instagram-auto-system.jsx:684-712 and src/App.jsx:547-575); the copies draw the generated
cards differently (see "## Findings"). `formatStock` and the ALTO / MEDIO / BAJO stock
badge exist only in `instagram-auto-system.jsx`, and are modelled from that file.

One click on the generate button builds a batch of posts:

- the catalog is copied and stable-sorted by stock, highest first;
- the first `postCount` products are kept (2, 4, 6 or 8; 4 by default);
- each product gets the selected template, or the first template when the selected id is
  unknown;
- each product gets a caption in one of three styles (engaging, minimal, storytelling);
  an unknown style gives the engaging caption;
- post `i` is dated `2i + 1` days after the clock reading taken when the batch is built;
- post `i` takes the time slot `i mod 4` of 10:00, 13:00, 18:00 and 20:00.

The button is disabled while a batch is being generated. The batch appears when a
two-second timer fires. The timer uses the catalog, brand, template, size and style of the
render in which the button was clicked. The clock is read while the batch is built, once
for each post; the model uses one reading for the whole batch (see "## Left out").

Modules:

- `Common`: `Option` and `Min`.
- `Text`: the decimal digits a template literal prints for a count; JavaScript's `\s` class
  and `replace(/\s/g, "")`; `toLowerCase`; substring relations used to state what a caption
  contains.
- `Catalog`: `Product`, `formatPrice`, `formatStock`, the ALTO / MEDIO / BAJO stock badge
  and the mock catalog.
- `Ranking`: the stable sort by stock, highest first, written as an insertion sort, and the
  `slice(0, postCount)` selection.
- `Captions`: the three caption templates and the style fallback.
- `Schedule`: scheduled instants and time slots.
- `Templates`: `POST_TEMPLATES`, the template lookup and the `layouts[layout] ||
  layouts.centered` fallback of `TemplatePreview`.
- `Generator`: one batch as a value (`BuildBatch`), and the `GeneratorSection` class, whose
  fields `generating`, `generated`, `postCount` and `captionStyle` are the component's
  state. The field `pending` holds what the running timer will build.

## Model

| member | source | states |
|---|---|---|
| Common.Min | instagram-auto-system.jsx:690 | the length `slice(0, n)` keeps: at most both bounds and equal to one of them |
| Text.NatToString | instagram-auto-system.jsx:694 | `${p.stock}` prints at least one decimal digit and has no leading zero |
| Text.DigitsValueOfNatToString | instagram-auto-system.jsx:694 | reading the printed digits back gives the stock count |
| Text.NatToStringInjective | instagram-auto-system.jsx:694 | different stock counts print differently |
| Text.StripWhitespace | instagram-auto-system.jsx:694 | `replace(/\s/g, "")` leaves no `\s` character and never lengthens the name |
| Text.StripWhitespaceKeepsClean | instagram-auto-system.jsx:694 | a brand name without whitespace is used exactly as typed |
| Text.StripWhitespaceConcat | instagram-auto-system.jsx:694 | removal works piece by piece over a concatenation |
| Text.StripWhitespaceAllBlank | instagram-auto-system.jsx:694 | a name made only of `\s` characters strips to the empty string; with the two lemmas above this pins the removal down |
| Text.StripWhitespaceIdempotent | instagram-auto-system.jsx:694 | removing whitespace twice is removing it once |
| Text.LowerChar | instagram-auto-system.jsx:694 | a capital becomes the letter 32 code points above it; every other character is kept |
| Text.ToLower | instagram-auto-system.jsx:694 | `toLowerCase` keeps the length, leaves no capital letter and changes no other character |
| Catalog.RoundedTenths | instagram-auto-system.jsx:36 | `(v / 1000).toFixed(1)` as tenths lies within half a tenth of `v` |
| Catalog.KiloLabel | instagram-auto-system.jsx:36-37 | `${(v / 1000).toFixed(1)}k` is digits without a leading zero, a point, one digit and "k"; its value is stated by Catalog.KiloLabelRoundTrip |
| Catalog.FormatPrice | instagram-auto-system.jsx:36 | a dollar sign, then a kilo label without a leading zero; what it reads back as is stated by Catalog.FormatPriceShowsNearestTenth and Catalog.FormatPriceSamples |
| Catalog.KiloLabelRoundTrip | instagram-auto-system.jsx:36-37 | the kilo label reads back as exactly the rounded number of tenths |
| Catalog.FormatPriceShowsNearestTenth | instagram-auto-system.jsx:36 | the price label reads back within 50 pesos of the price, strictly so away from ties |
| Catalog.FormatPriceSamples | instagram-auto-system.jsx:36 | the mock prices 29990, 12990, 19990 and 69990 show as "$30.0k", "$13.0k", "$20.0k" and "$70.0k" |
| Catalog.FormatStock | instagram-auto-system.jsx:37 | counts up to 999 come back unchanged, larger ones as a kilo label of their rounded tenths, without a leading zero |
| Catalog.LevelOf | instagram-auto-system.jsx:550 | ALTO exactly above 200 units, MEDIO exactly from 51 to 200, BAJO exactly up to 50 |
| Catalog.LevelLabel | instagram-auto-system.jsx:550 | each badge is shown as one of "ALTO", "MEDIO", "BAJO" |
| Catalog.StockBadge | instagram-auto-system.jsx:550 | the badge text is "ALTO" exactly above 200 units, "MEDIO" exactly from 51 to 200, "BAJO" exactly up to 50 |
| Catalog.LevelOfMonotone | instagram-auto-system.jsx:550 | more stock never shows a lower badge |
| Ranking.Insert | instagram-auto-system.jsx:690 | one insertion step lengthens the ranking by one |
| Ranking.SortByStock | instagram-auto-system.jsx:690 | the sorted copy has the catalog's length |
| Ranking.InsertPermutes | instagram-auto-system.jsx:690 | an insertion adds the product and loses nothing |
| Ranking.SortByStockPermutes | instagram-auto-system.jsx:690 | the sorted copy is a permutation of the catalog |
| Ranking.InsertDescending | instagram-auto-system.jsx:690 | inserting into a ranking keeps it ordered by stock |
| Ranking.SortByStockDescending | instagram-auto-system.jsx:690 | the sorted copy is ordered by stock, highest first |
| Ranking.WithStockInsert | instagram-auto-system.jsx:690 | an insertion puts the product first among the products of its stock and moves no other stock class |
| Ranking.SortByStockStable | instagram-auto-system.jsx:690 | stability: for every stock value, the products with that stock keep their catalog order |
| Ranking.InsertAfter | instagram-auto-system.jsx:690 | an inserted product lands after every entry with more stock and before the first entry with no more |
| Ranking.RankStep | instagram-auto-system.jsx:690 | ranking a catalog with one more product in front places it after the higher-stock entries of the known ranking |
| Ranking.SortByStockOfSorted | instagram-auto-system.jsx:690 | a catalog already ordered by stock is left as it is |
| Ranking.SortByStockIdempotent | instagram-auto-system.jsx:1131 | sorting the sorted catalog again changes nothing |
| Ranking.InsertDistinct | instagram-auto-system.jsx:690 | inserting a product with a new id keeps ids distinct |
| Ranking.SortByStockDistinct | instagram-auto-system.jsx:690 | sorting keeps catalog ids distinct |
| Ranking.TopProducts | instagram-auto-system.jsx:690 | the selection has as many products as the smaller of `postCount` and the catalog size |
| Ranking.TopProductsDescending | instagram-auto-system.jsx:690 | the selection is ordered by stock, highest first |
| Ranking.TopProductsSplitCatalog | instagram-auto-system.jsx:690 | the selection and the products left out together are the catalog; every selected product is from the catalog |
| Ranking.TopProductsAreHighest | instagram-auto-system.jsx:690 | no product left out has more stock than a selected one |
| Ranking.TopProductsDistinct | instagram-auto-system.jsx:690 | with distinct catalog ids, no product is selected twice |
| Ranking.WithStockPrefix | instagram-auto-system.jsx:690 | the products of one stock value in a prefix are a prefix of those in the whole |
| Ranking.TopProductsTies | instagram-auto-system.jsx:690 | ties at the cut go to catalog order: the selected products of one stock are the first of that stock in the catalog |
| Captions.ToneClause | instagram-auto-system.jsx:694 | the casual clause exactly for the tone "Casual", the default clause exactly for every other tone |
| Captions.BrandTag | instagram-auto-system.jsx:694 | the brand name without whitespace, or the fallback when the name is missing or nothing is left of it; never empty and never with whitespace |
| Captions.BrandTagAllBlank | instagram-auto-system.jsx:694 | a brand name made only of whitespace gives the fallback tag, just as a missing name does |
| Captions.Engaging | instagram-auto-system.jsx:694 | the engaging caption opens with the fire emoji, the product name and "ya disponible!"; its contents are stated by Captions.EngagingMentions, Captions.EngagingToneClause and Captions.EngagingEndsWithTags |
| Captions.Minimal | instagram-auto-system.jsx:695 | the minimal caption starts with the name line and ends with the call to action; see Captions.MinimalShape |
| Captions.Storytelling | instagram-auto-system.jsx:696 | the storytelling caption opens with the sentence naming the product; see Captions.StorytellingMentions and Captions.StorytellingEndsWithTag |
| Captions.Caption | instagram-auto-system.jsx:705 | "minimal" and "storytelling" select their template and every other style name the engaging one |
| Captions.UnknownStyleIsEngaging | instagram-auto-system.jsx:705 | an unknown style name gives exactly the engaging caption |
| Captions.EngagingMentions | instagram-auto-system.jsx:694 | the engaging caption contains the product name, the formatted price and the stock count |
| Captions.EngagingClauseAt | instagram-auto-system.jsx:694 | the tone's clause stands right after the engaging caption's opening line |
| Captions.EngagingToneClause | instagram-auto-system.jsx:694 | right after the opening line stands the casual clause if and only if the tone is "Casual", otherwise the default clause |
| Captions.EngagingEndsWithTags | instagram-auto-system.jsx:694 | the engaging caption ends with the brand tag, the lower-cased category, #newdrop and #streetwear |
| Captions.EngagingDependsOnTone | instagram-auto-system.jsx:694 | the tone "Casual" and any other tone give different engaging captions |
| Captions.MinimalShape | instagram-auto-system.jsx:695 | the minimal caption depends only on name and price, starts with the name line, contains the price and ends with the call to action |
| Captions.StorytellingMentions | instagram-auto-system.jsx:696 | the storytelling caption contains the formatted price and the stock count |
| Captions.StorytellingEndsWithTag | instagram-auto-system.jsx:696 | the storytelling caption ends with "#" and the brand name without whitespace, or "#estilo" |
| Schedule.DayOffset | instagram-auto-system.jsx:706 | post `i` is dated an odd number of days ahead |
| Schedule.ScheduledAt | instagram-auto-system.jsx:706 | every post is dated after the batch's instant, a whole number of days later |
| Schedule.TimeSlot | instagram-auto-system.jsx:707 | every post gets one of the four slots |
| Schedule.ScheduleSpacing | instagram-auto-system.jsx:706 | posts `i` and `j` are `2(j - i)` days apart and dated in batch order |
| Schedule.TimeSlotPeriodic | instagram-auto-system.jsx:707 | the slots repeat every four posts |
| Schedule.TimeSlotsDistinctWithinFour | instagram-auto-system.jsx:707 | four consecutive posts have four different slots |
| Templates.FindIndex | instagram-auto-system.jsx:691 | the first template with the id, or none when no template has it |
| Templates.FindTemplate | instagram-auto-system.jsx:691 | always a listed template: the one with the selected id, otherwise the first |
| Templates.FindTemplateOfListed | instagram-auto-system.jsx:691 | each listed template is found by its own id |
| Templates.ResolveLayout | instagram-auto-system.jsx:681 | the rendering with that key, and the centered one for any other key |
| Templates.TemplateLayoutsExist | instagram-auto-system.jsx:26-33 | every listed template's layout is a key the layout table has, so it never falls back |
| Templates.CardLayout | instagram-auto-system.jsx:807 | a generated card is drawn with the selected template's own layout |
| Templates.CardLayoutAsWrittenInApp | src/App.jsx:632 | passing the template id as the layout key falls back to centered for every non-key |
| Templates.AppCardsAlwaysCentered | src/App.jsx:632 | every template id gives the centered card, which is wrong for the five other templates |
| Generator.PostFor | instagram-auto-system.jsx:702-708 | post `i` carries its product, a listed template, the instant `2i + 1` days after the clock reading and the slot `i mod 4` |
| Generator.BuildBatch | instagram-auto-system.jsx:702-708 | one post per selected product: the batch's products are exactly `TopProducts`, in its order |
| Generator.BuildBatchWellFormed | instagram-auto-system.jsx:699-712 | a batch has the right size, holds exactly the top products of the stable ranking, is ranked by stock, takes products only from the catalog and none twice, and has the dates, slots, template and captions of each position |
| Generator.BatchCaptionsMention | instagram-auto-system.jsx:705 | every caption shows its product's price, and every style but minimal also shows its stock |
| Generator.RankingOfSampleTail | instagram-auto-system.jsx:690 | stocks 67, 178, 450, 34 rank as 450, 178, 67, 34 |
| Generator.RankingOfSampleStocks | instagram-auto-system.jsx:690 | the mock store's eight stock levels rank as 450, 320, 210, 178, 145, 89, 67, 34 |
| Generator.SampleRankingOrder | instagram-auto-system.jsx:690 | the mock catalog ranks as its 7th, 4th, 3rd, 6th, 1st, 2nd, 5th and 8th products |
| Generator.SampleRanking | instagram-auto-system.jsx:690 | the mock catalog ranks as ids 7, 4, 3, 6, 1, 2, 5, 8 |
| Generator.SampleTopFour | instagram-auto-system.jsx:690 | the default batch size picks ids 7, 4, 3, 6 of the mock catalog |
| Generator.SampleBatch | instagram-auto-system.jsx:702-708 | the default batch for the mock store is Calcetines, Gorra, Jogger, Short at 10:00, 13:00, 18:00, 20:00 |
| Generator.GeneratorSection.constructor | instagram-auto-system.jsx:685-688 | the section starts idle, with no posts, four posts per batch and engaging captions |
| Generator.GeneratorSection.SelectPostCount | instagram-auto-system.jsx:730-733 | a size button changes the size only; a pending batch keeps its own size |
| Generator.GeneratorSection.SelectCaptionStyle | instagram-auto-system.jsx:748-755 | a style button changes the style only; a pending batch keeps its own style |
| Generator.GeneratorSection.HandleGenerate | instagram-auto-system.jsx:699-701 | a click while idle starts generating with the current props and choices; a click while generating changes nothing; the previous batch stays shown |
| Generator.GeneratorSection.CompleteGeneration | instagram-auto-system.jsx:701-711 | the timer replaces the batch with a well-formed batch for the click's request and the section is idle again |
| Generator.GenerateOnce | instagram-auto-system.jsx:699-712 | a session with the default choices yields engaging posts for exactly the four highest-stock products `TopProducts(products, 4)`, ranked by stock, even when the size changes while the batch is pending |

## Left out

- Rendering: the JSX markup, styles, fonts, the bar chart of the products list and the
  image upload are not modelled. Only the choice of card layout is.
- The date shown for a post is `toLocaleDateString("es-CL")` of the instant. The model keeps
  the instant in milliseconds; time zones and the locale's date format are not modelled.
- The clock is read by `Date.now()` once per post, inside the `map` callback
  (instagram-auto-system.jsx:706, src/App.jsx:569). The model reads it once per batch and
  uses that one instant for every post. So `Schedule.ScheduleSpacing` states exact spacing
  of `2(j - i)` days; in the source the spacing also includes the milliseconds that pass
  while the batch is mapped, and a batch built across midnight can show two posts three
  days apart.
- The two-second delay is not modelled. `CompleteGeneration` is the timer firing, at any
  later instant `now`. The clock is a parameter.
- Unmounting the section while a timer is pending is not modelled.
- Prices, stock counts and instants are JavaScript numbers, that is binary doubles; the
  model uses exact unbounded integers. This matches the source below 2^53. Above it
  integers are no longer exact, and from 1e21 on `${p.stock}` and `toFixed(1)` print
  exponent notation, which `Text.NatToString` and `Catalog.KiloLabel` do not model.
- RoundedTenths, FormatPrice: prices are whole pesos and rounding is half up on the exact quotient. A
  binary double can round the other way when the price ends in exactly 50 pesos; the
  nearest-tenth lemma is stated strictly only away from those ties.
- RoundedTenths, FormatStock: the same tie caveat as FormatPrice.
- LowerChar, ToLower: only the Basic Latin and Latin-1 capitals are lowered. The category names
  in use are Basic Latin.
- Product: the image and colour fields are left out, since no part of the engine reads
  them. The category is always present, so the `undefined` that `p.category?.toLowerCase()`
  would print for a product without one is not modelled.
- Captions.Caption: the style name comes from the three buttons. Names that the caption
  table inherits from `Object.prototype` (such as "toString") are not modelled.
- Templates.ResolveLayout: `layouts[layout]` also finds names inherited from
  `Object.prototype` (such as "constructor" or "toString"). Such a key makes
  `TemplatePreview` return a value that is not a rendering; the model resolves it to the
  centered layout like any other unknown key. Template layouts and template ids are never
  such names.
- Brand: the brand's colours, fonts and tagline are left out. None of them is read by the
  captions or the ranking.
- The selection strategy ("high-stock", "new-arrivals", "margin-first", "mixed") is kept
  in the store settings (instagram-auto-system.jsx:1024, offered at :413-416, chosen at
  :420) but is never passed to the generator (:1040), so the ranking is always by stock,
  highest first, whatever strategy is chosen.
- The connect-store form and the store-connection flow are not part of this model.
- The in-place `MOCK_PRODUCTS.sort` of the live preview (instagram-auto-system.jsx:1131)
  reorders the shared catalog. It is not modelled as a mutation.
  `Ranking.SortByStockIdempotent` shows that it cannot change the generator's ranking.
- Ranking.SortByStock: `Array.prototype.sort` with the comparator `b.stock - a.stock` is
  modelled by a stable insertion sort on that order. The engine's own sort algorithm is not
  part of this model; the model relies only on the sort being stable, as the language
  requires.

## Findings

| source | as written | input that shows it | evidently intended | confidence | as-written member | corrected member |
|---|---|---|---|---|---|---|
| src/App.jsx:632 | each generated card passes the selected template id as `layout` to `TemplatePreview` | selected template "product-bold": the card is drawn centered | draw the card with the template's own layout ("bold"), as instagram-auto-system.jsx:807 does | high, not executed | Templates.CardLayoutAsWrittenInApp (with Templates.AppCardsAlwaysCentered) | Templates.CardLayout |
