/** The product and preset tables, the stage dimensions and the icon row layout
    (src/config/products.ts). */
module Products {
  import opened Geometry

  /** Every product id the application refers to, whether or not it has an icon. */
  datatype ProductId =
    | Payments | Terminal | Radar | AuthorizationBoost | Connect | GlobalPayouts
    | Billing | Tax | Identity | Climate | Atlas

  /** The icon row, left to right. */
  const PRODUCTS: seq<ProductId> :=
    [Payments, Terminal, Radar, AuthorizationBoost, Connect, GlobalPayouts, Billing]

  datatype PresetType = Saas | Marketplace | Creator

  datatype Preset = Preset(id: PresetType, products: seq<ProductId>)

  const PRESETS: seq<Preset> := [
    Preset(Saas, [Payments, Billing, Radar]),
    Preset(Marketplace, [Connect, Payments, Identity, Radar]),
    Preset(Creator, [Payments, Climate, Billing])
  ]

  const STAGE_WIDTH: real := 1400.0
  const ICON_Y: real := 60.0
  const CARD_TOP_Y: real := 240.0
  const CARD_CENTER_X: real := 700.0

  const ICON_WIDTH: real := 64.0
  const LEFT_DASHED_LINE: real := 350.0
  const RIGHT_DASHED_LINE: real := 1050.0
  /** Centre of the first and of the last icon. */
  const ROW_START_X: real := LEFT_DASHED_LINE + ICON_WIDTH / 2.0
  const ROW_END_X: real := RIGHT_DASHED_LINE - ICON_WIDTH / 2.0

  /** The product has an icon in the row (`PRODUCTS.some(p => p.id === id)`). */
  predicate HasIcon(id: ProductId)
  {
    id in PRODUCTS
  }

  /** Position of the first occurrence of `id` in `s`, or -1 (Array.prototype.findIndex). */
  function FindIndex(s: seq<ProductId>, id: ProductId): (r: int)
    ensures -1 <= r < |s|
    ensures r == -1 <==> id !in s
    ensures 0 <= r ==> s[r] == id && id !in s[..r]
  {
    if s == [] then -1
    else if s[0] == id then 0
    else
      var k := FindIndex(s[1..], id);
      if k == -1 then -1
      else
        assert s[..k + 1] == [s[0]] + s[1..][..k];
        k + 1
  }

  /** The icon slot of a product, -1 for an id without an icon. */
  function IndexOf(id: ProductId): int
  {
    FindIndex(PRODUCTS, id)
  }

  /** The preset with the given id, if the table has one (Array.prototype.find). */
  function FindPreset(presets: seq<Preset>, t: PresetType): (r: Option<Preset>)
    ensures r.Some? ==> r.value in presets && r.value.id == t
    ensures r.None? <==> forall k :: 0 <= k < |presets| ==> presets[k].id != t
  {
    if presets == [] then None
    else if presets[0].id == t then Some(presets[0])
    else FindPreset(presets[1..], t)
  }

  /** Horizontal distance between neighbouring icons of a row of `count` icons;
      the divisor is 1 when the row has at most one icon. */
  function IconStep(count: nat): (step: real)
    ensures count > 1 ==> step * ((count - 1) as real) == ROW_END_X - ROW_START_X
    ensures count <= 1 ==> step == ROW_END_X - ROW_START_X
    ensures step > 0.0
  {
    (ROW_END_X - ROW_START_X) / (if count > 1 then (count - 1) as real else 1.0)
  }

  /** x of the icon in slot `index` of a row of `count` icons: the first one
      sits on the row start, and in a row of several the last one on the row end. */
  function IconX(index: int, count: nat): (x: real)
    ensures index == 0 ==> x == ROW_START_X
    ensures count > 1 && index == count - 1 ==> x == ROW_END_X
  {
    var step := IconStep(count);
    assert count > 1 ==> ((count - 1) as real) * step == ROW_END_X - ROW_START_X;
    ROW_START_X + (index as real) * step
  }

  /** Centre of the icon in slot `index` of the product row: with the seven
      products the icons are 106 units apart, starting from 382. */
  function IconPosition(index: int): (pos: Point)
    ensures pos.y == ICON_Y
    ensures pos.x == 382.0 + 106.0 * (index as real)
  {
    ProductRowStep();
    Point(IconX(index, |PRODUCTS|), ICON_Y)
  }

  /** Icons are laid out strictly left to right. */
  lemma IconXIncreasing(i: int, j: int, count: nat)
    requires i < j
    ensures IconX(i, count) < IconX(j, count)
  {
    var step := IconStep(count);
    var d := (j - i) as real;
    assert d > 0.0;
    assert d * step > 0.0;
    assert IconX(j, count) - IconX(i, count) == d * step;
  }

  /** With the seven products of the icon row the step is exactly 106. */
  lemma ProductRowStep()
    ensures IconStep(|PRODUCTS|) == 106.0
  {
    assert |PRODUCTS| == 7;
    assert IconStep(7) * 6.0 == 636.0;
  }

  /** Icon slots are distinct: no product appears twice in the row. */
  lemma ProductIdsDistinct()
    ensures forall i, j :: 0 <= i < j < |PRODUCTS| ==> PRODUCTS[i] != PRODUCTS[j]
    ensures forall k :: 0 <= k < |PRODUCTS| ==> IndexOf(PRODUCTS[k]) == k
  {
    forall k | 0 <= k < |PRODUCTS|
      ensures IndexOf(PRODUCTS[k]) == k
    {
      var r := IndexOf(PRODUCTS[k]);
      assert PRODUCTS[r] == PRODUCTS[k];
    }
  }

  /** Every preset type has an entry, and two presets name ids without an icon. */
  lemma PresetTable(t: PresetType)
    ensures FindPreset(PRESETS, t).Some?
    ensures Identity in FindPreset(PRESETS, Marketplace).value.products && Identity !in PRODUCTS
    ensures Climate in FindPreset(PRESETS, Creator).value.products && Climate !in PRODUCTS
  {
    var tail := PRESETS[1..];
    assert FindPreset(PRESETS, Saas) == Some(PRESETS[0]);
    assert FindPreset(PRESETS, Marketplace) == FindPreset(tail, Marketplace) == Some(PRESETS[1]);
    assert FindPreset(tail, Creator) == FindPreset(tail[1..], Creator) == Some(PRESETS[2]);
  }
}
