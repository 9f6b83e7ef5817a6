/**
 * The catalog entities and the small helpers that display them: `formatPrice`,
 * `formatStock` and the ALTO / MEDIO / BAJO stock badge of the products list.
 */
module Catalog {
  import opened Common
  import opened Text

  /**
   * A product of the store catalog. Prices are whole pesos (29990 is shown as "$30.0k"),
   * stock is a count of units. The display colour and image are left out: nothing in
   * the engine reads them.
   */
  datatype Product = Product(id: int, name: string, sku: string, price: nat, stock: nat, category: string)

  /**
   * `v / 1000` rounded to one decimal place, as a count of tenths. On an exact tie the
   * larger tenth is chosen, the rule `Number.prototype.toFixed` applies to the exact quotient.
   */
  function RoundedTenths(v: nat): (t: nat)
    ensures t * 100 - 50 <= v < t * 100 + 50
  {
    (v + 50) / 100
  }

  /** `${(v / 1000).toFixed(1)}k`: the integer part, a point, one decimal and "k". */
  function KiloLabel(v: nat): (r: string)
    ensures |r| >= 4 && r[|r| - 1] == 'k' && r[|r| - 3] == '.'
    ensures AllDigits(r[..|r| - 3]) && IsDigit(r[|r| - 2])
    ensures r[0] == '0' ==> r[1] == '.'
  {
    var t := RoundedTenths(v);
    NatToString(t / 10) + "." + [DigitChar(t % 10)] + "k"
  }

  /** `formatPrice`: the kilo label of the price behind a dollar sign. */
  function FormatPrice(p: nat): (r: string)
    ensures |r| >= 5 && r[0] == '$' && r[|r| - 1] == 'k' && r[|r| - 3] == '.'
    ensures r[1] == '0' ==> r[2] == '.'
  {
    "$" + KiloLabel(p)
  }

  /** Reads a kilo label ("30.0k") back as a count of tenths (300). */
  function ParseKilo(s: string): Option<nat> {
    if |s| < 4 || s[|s| - 1] != 'k' || s[|s| - 3] != '.' || !IsDigit(s[|s| - 2]) || !AllDigits(s[..|s| - 3]) then None
    else Some(DigitsValue(s[..|s| - 3]) * 10 + DigitValue(s[|s| - 2]))
  }

  /** Reads a price label ("$30.0k") back as a count of tenths of a thousand. */
  function ParsePrice(s: string): Option<nat> {
    if |s| == 0 || s[0] != '$' then None else ParseKilo(s[1..])
  }

  /** The kilo label spells out exactly the rounded number of tenths. */
  lemma KiloLabelRoundTrip(v: nat)
    ensures ParseKilo(KiloLabel(v)) == Some(RoundedTenths(v))
  {
    var t := RoundedTenths(v);
    var digits := NatToString(t / 10);
    var s := KiloLabel(v);
    assert s == digits + ['.', DigitChar(t % 10), 'k'];
    assert s[..|s| - 3] == digits;
    DigitsValueOfNatToString(t / 10);
  }

  /**
   * `formatPrice` shows the price in thousands to the nearest tenth: reading the label
   * back gives a value within half a tenth (50 pesos) of the price. Away from the
   * midpoints (prices ending in 50 pesos) that value is the unique nearest one.
   */
  lemma FormatPriceShowsNearestTenth(p: nat)
    ensures ParsePrice(FormatPrice(p)).Some?
    ensures var t := ParsePrice(FormatPrice(p)).value; t * 100 - 50 <= p < t * 100 + 50
    ensures p % 100 != 50 ==> var t := ParsePrice(FormatPrice(p)).value; t * 100 - 50 < p < t * 100 + 50
  {
    KiloLabelRoundTrip(p);
    assert FormatPrice(p)[1..] == KiloLabel(p);
  }

  /** The price label spelled out from the rounded tenths and the digits of their integer part. */
  lemma FormatPriceOf(p: nat, t: nat, digits: string)
    requires RoundedTenths(p) == t && NatToString(t / 10) == digits
    ensures FormatPrice(p) == "$" + digits + "." + [DigitChar(t % 10)] + "k"
  {
  }

  /** The catalog's own prices, as the product list and the captions show them. */
  lemma FormatPriceSamples()
    ensures FormatPrice(29990) == "$30.0k"
    ensures FormatPrice(12990) == "$13.0k"
    ensures FormatPrice(19990) == "$20.0k"
    ensures FormatPrice(69990) == "$70.0k"
  {
    assert FormatPrice(29990) == "$30.0k" by {
      assert NatToString(30) == "30" by { assert NatToString(3) == "3"; }
      FormatPriceOf(29990, 300, "30");
    }
    assert FormatPrice(12990) == "$13.0k" by {
      assert NatToString(13) == "13" by { assert NatToString(1) == "1"; }
      FormatPriceOf(12990, 130, "13");
    }
    assert FormatPrice(19990) == "$20.0k" by {
      assert NatToString(20) == "20" by { assert NatToString(2) == "2"; }
      FormatPriceOf(19990, 200, "20");
    }
    assert NatToString(70) == "70" by { assert NatToString(7) == "7"; }
    FormatPriceOf(69990, 700, "70");
  }

  /** What `formatStock` returns: the number itself, or a kilo label for larger counts. */
  datatype StockDisplay = Units(count: nat) | Thousands(text: string)

  /** `formatStock`: counts up to 999 are returned unchanged, larger ones in thousands. */
  function FormatStock(s: nat): (r: StockDisplay)
    ensures s <= 999 <==> r.Units?
    ensures r.Units? ==> r.count == s
    ensures r.Thousands? ==> ParseKilo(r.text) == Some(RoundedTenths(s))
    ensures r.Thousands? ==> r.text[0] != '0'
  {
    if s > 999 then KiloLabelRoundTrip(s); Thousands(KiloLabel(s)) else Units(s)
  }

  /** The stock badge of the products list. */
  datatype StockLevel = Bajo | Medio | Alto

  /** The badge: above 200 units ALTO, above 50 MEDIO, otherwise BAJO; both thresholds strict. */
  function LevelOf(stock: nat): (r: StockLevel)
    ensures r == Alto <==> stock > 200
    ensures r == Medio <==> 50 < stock <= 200
    ensures r == Bajo <==> stock <= 50
  {
    if stock > 200 then Alto else if stock > 50 then Medio else Bajo
  }

  /** The text of each badge. */
  function LevelLabel(l: StockLevel): (r: string)
    ensures r in {"ALTO", "MEDIO", "BAJO"}
  {
    match l
    case Alto => "ALTO"
    case Medio => "MEDIO"
    case Bajo => "BAJO"
  }

  /** The badge text shown next to a product's stock. */
  function StockBadge(stock: nat): (r: string)
    ensures r == "ALTO" <==> stock > 200
    ensures r == "MEDIO" <==> 50 < stock <= 200
    ensures r == "BAJO" <==> stock <= 50
  {
    LevelLabel(LevelOf(stock))
  }

  function LevelRank(l: StockLevel): nat {
    match l
    case Bajo => 0
    case Medio => 1
    case Alto => 2
  }

  /** More stock never shows a lower badge. */
  lemma LevelOfMonotone(s: nat, t: nat)
    requires s <= t
    ensures LevelRank(LevelOf(s)) <= LevelRank(LevelOf(t))
  {
  }

  /** The eight products of the mock store. */
  const SampleCatalog: seq<Product> := [
    Product(1, "Camiseta Oversize Premium", "CAM-001", 29990, 145, "Camisetas"),
    Product(2, "Hoodie Essential Black", "HOO-002", 49990, 89, "Hoodies"),
    Product(3, "Jogger Slim Fit", "JOG-003", 39990, 210, "Pantalones"),
    Product(4, "Gorra Snapback Logo", "GOR-004", 19990, 320, "Accesorios"),
    Product(5, "Polera Manga Larga", "POL-005", 34990, 67, "Camisetas"),
    Product(6, "Short Deportivo", "SHO-006", 24990, 178, "Pantalones"),
    Product(7, "Calcetines Pack x3", "CAL-007", 12990, 450, "Accesorios"),
    Product(8, "Chaleco Puffer", "CHA-008", 69990, 34, "Outerwear")
  ]
}
