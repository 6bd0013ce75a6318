/** The application state (the list of active products), the product toggle rule,
    the net effect of applying a preset, and the connector drawn from each active
    product's icon to the card (src/App.tsx). */
module App {
  import opened Geometry
  import opened Products
  import opened PathGeneration

  // ---------------------------------------------------------------------------
  // The toggle rule
  // ---------------------------------------------------------------------------

  /** Products whose activation also activates payments when it is missing. */
  predicate RequiresPayments(id: ProductId)
  {
    id in {Connect, Terminal, Radar, GlobalPayouts, Billing, Tax}
  }

  /** Products whose presence refuses the deactivation of payments. Terminal and
      Radar require payments on activation but are not in this list. */
  predicate BlocksPaymentsRemoval(id: ProductId)
  {
    id in {Connect, GlobalPayouts, Billing, Tax}
  }

  predicate PaymentsLocked(s: seq<ProductId>)
  {
    exists k :: 0 <= k < |s| && BlocksPaymentsRemoval(s[k])
  }

  predicate NoDuplicates(s: seq<ProductId>)
  {
    forall i, j :: 0 <= i < j < |s| ==> s[i] != s[j]
  }

  /** `s` with every occurrence of `id` dropped, the others kept in order. */
  function Without(s: seq<ProductId>, id: ProductId): (r: seq<ProductId>)
    ensures forall x :: x in r <==> x in s && x != id
  {
    if s == [] then []
    else
      assert s == [s[0]] + s[1..];
      (if s[0] == id then [] else [s[0]]) + Without(s[1..], id)
  }

  /** The next list of active products after a click on `id`, stated as the
      dependency rule: deactivate unless payments is locked by a dependent,
      activate by appending, followed by payments when the product needs it. */
  function Toggled(prev: seq<ProductId>, id: ProductId): (r: seq<ProductId>)
    ensures id in r <==> id !in prev || (id == Payments && PaymentsLocked(prev))
    ensures id !in prev && RequiresPayments(id) ==> Payments in r
    ensures Payments in prev && id != Payments ==> Payments in r
  {
    if id in prev then
      if id == Payments && PaymentsLocked(prev) then prev else Without(prev, id)
    else if RequiresPayments(id) && Payments !in prev then prev + [id, Payments]
    else prev + [id]
  }

  /** The state updater passed to `setActiveProducts` by `toggleProduct`: it
      builds the candidate list and then patches it in successive checks. */
  method ToggleUpdate(prev: seq<ProductId>, id: ProductId) returns (newProducts: seq<ProductId>)
    ensures newProducts == Toggled(prev, id)
  {
    var isActive := id in prev;
    newProducts := if isActive then Without(prev, id) else prev + [id];

    if id == Connect && !isActive {
      if Payments !in newProducts {
        newProducts := newProducts + [Payments];
      }
    }

    if id == Payments && isActive {
      if Connect in newProducts || GlobalPayouts in newProducts
         || Billing in newProducts || Tax in newProducts
      {
        LockedByMember(prev, if Connect in prev then Connect else if GlobalPayouts in prev
          then GlobalPayouts else if Billing in prev then Billing else Tax);
        return prev;
      }
    }

    if id == Terminal && !isActive && Payments !in newProducts {
      newProducts := newProducts + [Payments];
    }
    if id == Radar && !isActive && Payments !in newProducts {
      newProducts := newProducts + [Payments];
    }
    if id == GlobalPayouts && !isActive && Payments !in newProducts {
      newProducts := newProducts + [Payments];
    }
    if id == Billing && !isActive && Payments !in newProducts {
      newProducts := newProducts + [Payments];
    }
    if id == Tax && !isActive && Payments !in newProducts {
      newProducts := newProducts + [Payments];
    }
  }

  lemma LockedByMember(s: seq<ProductId>, x: ProductId)
    requires x in s && BlocksPaymentsRemoval(x)
    ensures PaymentsLocked(s)
  {
    var k :| 0 <= k < |s| && s[k] == x;
  }

  // ---------------------------------------------------------------------------
  // Properties of the toggle rule
  // ---------------------------------------------------------------------------

  /** Removal is a filter: it distributes over concatenation, so the kept
      elements stay in their original order. */
  lemma {:induction false} WithoutConcat(a: seq<ProductId>, b: seq<ProductId>, id: ProductId)
    ensures Without(a + b, id) == Without(a, id) + Without(b, id)
  {
    if a == [] {
      assert a + b == b;
    } else {
      assert (a + b)[0] == a[0];
      assert (a + b)[1..] == a[1..] + b;
      WithoutConcat(a[1..], b, id);
    }
  }

  /** Removal drops every copy of `id` and keeps every copy of anything else. */
  lemma {:induction false} WithoutCounts(s: seq<ProductId>, id: ProductId)
    ensures multiset(Without(s, id)) == multiset(s)[id := 0]
  {
    if s != [] {
      assert s == [s[0]] + s[1..];
      WithoutCounts(s[1..], id);
    }
  }

  /** Removing an id that is not there changes nothing. */
  lemma {:induction false} WithoutAbsent(s: seq<ProductId>, id: ProductId)
    requires id !in s
    ensures Without(s, id) == s
  {
    if s != [] {
      WithoutAbsent(s[1..], id);
    }
  }

  lemma {:induction false} WithoutNoDuplicates(s: seq<ProductId>, id: ProductId)
    requires NoDuplicates(s)
    ensures NoDuplicates(Without(s, id))
  {
    if s != [] {
      assert NoDuplicates(s[1..]) by {
        forall i, j | 0 <= i < j < |s[1..]| ensures s[1..][i] != s[1..][j] {
          assert s[i + 1] != s[j + 1];
        }
      }
      WithoutNoDuplicates(s[1..], id);
      var rest := Without(s[1..], id);
      if s[0] != id {
        assert s[0] !in s[1..];
        assert s[0] !in rest;
        NoDuplicatesCons(s[0], rest);
      }
    }
  }

  lemma NoDuplicatesCons(x: ProductId, s: seq<ProductId>)
    requires x !in s && NoDuplicates(s)
    ensures NoDuplicates([x] + s)
  {
    var t := [x] + s;
    forall i, j | 0 <= i < j < |t| ensures t[i] != t[j] {
      if i == 0 {
        assert t[j] == s[j - 1];
      } else {
        assert t[i] == s[i - 1] && t[j] == s[j - 1];
      }
    }
  }

  lemma NoDuplicatesSnoc(s: seq<ProductId>, x: ProductId)
    requires x !in s && NoDuplicates(s)
    ensures NoDuplicates(s + [x])
  {
    var t := s + [x];
    forall i, j | 0 <= i < j < |t| ensures t[i] != t[j] {
      if j == |s| {
        assert t[i] == s[i];
      } else {
        assert t[i] == s[i] && t[j] == s[j];
      }
    }
  }

  /** Activating an absent product appends it, followed by payments exactly when
      the product needs payments and payments is missing. */
  lemma ActivationAppends(prev: seq<ProductId>, id: ProductId)
    requires id !in prev
    ensures var next := Toggled(prev, id);
      && |next| >= |prev| + 1
      && next[..|prev| + 1] == prev + [id]
      && (|next| == |prev| + 2 <==> RequiresPayments(id) && Payments !in prev)
      && next[|next| - 1] == (if |next| == |prev| + 2 then Payments else id)
      && |next| <= |prev| + 2
  {
    var next := Toggled(prev, id);
    if RequiresPayments(id) && Payments !in prev {
      assert next == (prev + [id]) + [Payments];
    }
  }

  /** Deactivating a present product other than a locked payments removes every
      occurrence of it and keeps every other element, in order. */
  lemma DeactivationRemoves(prev: seq<ProductId>, id: ProductId)
    requires id in prev
    requires id != Payments || !PaymentsLocked(prev)
    ensures var next := Toggled(prev, id);
      && id !in next
      && (forall x :: x != id ==> multiset(next)[x] == multiset(prev)[x])
      && (forall a, b :: prev == a + b ==> next == Without(a, id) + Without(b, id))
  {
    WithoutCounts(prev, id);
    forall a, b | prev == a + b ensures Toggled(prev, id) == Without(a, id) + Without(b, id) {
      WithoutConcat(a, b, id);
    }
  }

  /** A click changes the activity of no product other than the clicked one
      and payments. */
  lemma ToggleKeepsOthers(prev: seq<ProductId>, id: ProductId, x: ProductId)
    requires x != id && x != Payments
    ensures x in Toggled(prev, id) <==> x in prev
  {
  }

  /** Turning payments off is refused while a dependent that guards it is on. */
  lemma PaymentsRemovalRefused(prev: seq<ProductId>)
    requires Payments in prev
    requires Connect in prev || GlobalPayouts in prev || Billing in prev || Tax in prev
    ensures Toggled(prev, Payments) == prev
  {
    LockedByMember(prev, if Connect in prev then Connect else if GlobalPayouts in prev
      then GlobalPayouts else if Billing in prev then Billing else Tax);
  }

  /** For each guarding product X, "X active implies payments active" survives
      every click. */
  lemma ToggleKeepsPaymentsFor(prev: seq<ProductId>, id: ProductId, x: ProductId)
    requires BlocksPaymentsRemoval(x)
    requires x in prev ==> Payments in prev
    ensures var next := Toggled(prev, id); x in next ==> Payments in next
  {
    if id == Payments && id in prev && x in prev {
      LockedByMember(prev, x);
    }
  }

  /** Terminal and Radar are not guards: payments can be switched off under them. */
  lemma TerminalAndRadarUnguarded()
    ensures Toggled([Payments, Terminal], Payments) == [Terminal]
    ensures Toggled([Payments, Radar], Payments) == [Radar]
  {
    UnguardedRemoval(Terminal);
    UnguardedRemoval(Radar);
  }

  lemma UnguardedRemoval(x: ProductId)
    requires x != Payments && !BlocksPaymentsRemoval(x)
    ensures Toggled([Payments, x], Payments) == [x]
  {
    var s := [Payments, x];
    assert !PaymentsLocked(s) by {
      forall k | 0 <= k < |s| ensures !BlocksPaymentsRemoval(s[k]) {
        assert k == 0 || k == 1;
      }
    }
    assert s[1..] == [x];
    assert Without([x], Payments) == [x] by {
      assert [x][1..] == [];
    }
  }

  /** A list without duplicates stays without duplicates. */
  lemma ToggleKeepsNoDuplicates(prev: seq<ProductId>, id: ProductId)
    requires NoDuplicates(prev)
    ensures NoDuplicates(Toggled(prev, id))
  {
    if id in prev {
      WithoutNoDuplicates(prev, id);
    } else {
      NoDuplicatesSnoc(prev, id);
      if RequiresPayments(id) && Payments !in prev {
        assert prev + [id, Payments] == (prev + [id]) + [Payments];
        NoDuplicatesSnoc(prev + [id], Payments);
      }
    }
  }

  /** Clicking twice restores the list when the first click added nothing
      besides the product and the second click is not refused. */
  lemma DoubleToggleRestores(prev: seq<ProductId>, id: ProductId)
    requires id !in prev
    requires !(RequiresPayments(id) && Payments !in prev)
    requires id == Payments ==> !PaymentsLocked(prev)
    ensures Toggled(Toggled(prev, id), id) == prev
  {
    var next := prev + [id];
    assert Toggled(prev, id) == next;
    WithoutConcat(prev, [id], id);
    WithoutAbsent(prev, id);
  }

  /** Clicking an active product twice (neither click refused) moves it to the
      end of the list, followed by payments when it needs payments and payments
      was missing. */
  lemma DoubleToggleMovesToEnd(prev: seq<ProductId>, id: ProductId)
    requires id in prev
    requires id == Payments ==> !PaymentsLocked(prev)
    ensures Toggled(Toggled(prev, id), id) ==
      Without(prev, id) + [id] + (if RequiresPayments(id) && Payments !in prev then [Payments] else [])
  {
    var next := Without(prev, id);
    assert Toggled(prev, id) == next;
    if RequiresPayments(id) && Payments !in prev {
      assert Payments !in next;
    } else if RequiresPayments(id) {
      assert Payments in next;
    }
  }

  /** On a list without duplicates, deactivating and re-activating a product
      gives the list back exactly when the product was the last one and no
      payments had to be added. */
  lemma DoubleToggleRestoresOnlyLast(prev: seq<ProductId>, id: ProductId)
    requires id in prev && NoDuplicates(prev)
    requires id == Payments ==> !PaymentsLocked(prev)
    ensures Toggled(Toggled(prev, id), id) == prev <==>
      id == prev[|prev| - 1] && !(RequiresPayments(id) && Payments !in prev)
  {
    DoubleToggleMovesToEnd(prev, id);
    var r := Toggled(Toggled(prev, id), id);
    if RequiresPayments(id) && Payments !in prev {
      assert r[|r| - 1] == Payments;
    } else if id == prev[|prev| - 1] {
      var front := prev[..|prev| - 1];
      assert prev == front + [id] + [];
      assert id !in front by {
        forall k | 0 <= k < |front| ensures front[k] != id {
          assert prev[k] != prev[|prev| - 1];
        }
      }
      WithoutAppended(front, id, []);
    } else {
      assert r[|r| - 1] == id;
    }
  }

  /** Deactivating and re-activating reorders: Radar moves behind Billing and
      Payments, and Payments moves behind Radar. */
  lemma DoubleToggleReorders()
    ensures Toggled(Toggled([Radar, Billing, Payments], Radar), Radar) == [Billing, Payments, Radar]
    ensures Toggled(Toggled([Payments, Radar], Payments), Payments) == [Radar, Payments]
  {
    DoubleToggleMovesToEnd([Radar, Billing, Payments], Radar);
    assert Without([Radar, Billing, Payments], Radar) == [Billing, Payments] by {
      assert [Radar, Billing, Payments][1..] == [Billing, Payments];
      WithoutAbsent([Billing, Payments], Radar);
    }
    UnguardedRemoval(Radar);
    DoubleToggleMovesToEnd([Payments, Radar], Payments);
  }

  /** When the first click also added payments, the second click leaves
      payments behind. */
  lemma DoubleToggleLeavesPayments(prev: seq<ProductId>, id: ProductId)
    requires id !in prev
    requires RequiresPayments(id) && Payments !in prev
    ensures Toggled(Toggled(prev, id), id) == prev + [Payments]
  {
    var next := prev + [id] + [Payments];
    assert Toggled(prev, id) == next;
    assert id in next && id != Payments;
    assert Toggled(next, id) == Without(next, id);
    WithoutAppended(prev, id, [Payments]);
  }

  /** Removing the one copy of `id` that sits between two lists without it. */
  lemma WithoutAppended(front: seq<ProductId>, id: ProductId, back: seq<ProductId>)
    requires id !in front && id !in back
    ensures Without(front + [id] + back, id) == front + back
  {
    assert Without([id], id) == [] by { assert [id][1..] == []; }
    WithoutConcat(front, [id], id);
    WithoutAbsent(front, id);
    assert Without(front + [id], id) == front;
    WithoutConcat(front + [id], back, id);
    WithoutAbsent(back, id);
  }

  /** From the empty list, Connect brings Payments along, and Payments then
      cannot be switched off. */
  lemma ConnectScenario()
    ensures Toggled([], Connect) == [Connect, Payments]
    ensures Toggled([Connect, Payments], Payments) == [Connect, Payments]
  {
    LockedByMember([Connect, Payments], Connect);
  }

  // ---------------------------------------------------------------------------
  // Presets
  // ---------------------------------------------------------------------------

  /** The ids of `s` that have an icon, in the order of `s`. */
  function KnownProducts(s: seq<ProductId>): (r: seq<ProductId>)
    ensures forall x :: x in r <==> x in s && HasIcon(x)
    ensures |r| <= |s|
  {
    if s == [] then []
    else
      var last := s[|s| - 1];
      assert s == s[..|s| - 1] + [last];
      KnownProducts(s[..|s| - 1]) + (if HasIcon(last) then [last] else [])
  }

  lemma KnownProductsSnoc(s: seq<ProductId>, x: ProductId)
    ensures KnownProducts(s + [x]) == KnownProducts(s) + (if HasIcon(x) then [x] else [])
  {
    assert (s + [x])[..|s|] == s;
  }

  /** The list of active products once a preset has finished applying. */
  function PresetNetEffect(t: PresetType): (r: seq<ProductId>)
    ensures FindPreset(PRESETS, t).None? ==> r == []
    ensures FindPreset(PRESETS, t).Some? ==>
      forall x :: x in r <==> x in FindPreset(PRESETS, t).value.products && HasIcon(x)
  {
    match FindPreset(PRESETS, t)
    case None => []
    case Some(p) => KnownProducts(p.products)
  }

  lemma PresetLookup()
    ensures FindPreset(PRESETS, Saas) == Some(Preset(Saas, [Payments, Billing, Radar]))
    ensures FindPreset(PRESETS, Marketplace) == Some(Preset(Marketplace, [Connect, Payments, Identity, Radar]))
    ensures FindPreset(PRESETS, Creator) == Some(Preset(Creator, [Payments, Climate, Billing]))
  {
    var tail := PRESETS[1..];
    assert FindPreset(PRESETS, Marketplace) == FindPreset(tail, Marketplace);
    assert FindPreset(PRESETS, Creator) == FindPreset(tail, Creator) == FindPreset(tail[1..], Creator);
  }

  /** What each preset leaves active: its ids with an icon, in preset order,
      with no dependency added. */
  lemma PresetNetEffects()
    ensures PresetNetEffect(Saas) == [Payments, Billing, Radar]
    ensures PresetNetEffect(Marketplace) == [Connect, Payments, Radar]
    ensures PresetNetEffect(Creator) == [Payments, Billing]
  {
    PresetLookup();
    KnownOfSaas();
    KnownOfMarketplace();
    KnownOfCreator();
  }

  lemma KnownOfSaas()
    ensures KnownProducts([Payments, Billing, Radar]) == [Payments, Billing, Radar]
  {
    var s := [Payments, Billing, Radar];
    assert s[..2] == [Payments, Billing];
    assert s[..2][..1] == [Payments];
    assert KnownProducts([Payments]) == [Payments];
    assert KnownProducts([Payments, Billing]) == [Payments, Billing];
  }

  lemma KnownOfMarketplace()
    ensures KnownProducts([Connect, Payments, Identity, Radar]) == [Connect, Payments, Radar]
  {
    var s := [Connect, Payments, Identity, Radar];
    assert s[..3] == [Connect, Payments, Identity];
    KnownOfMarketplacePrefix();
    assert [Connect, Payments] + [Radar] == [Connect, Payments, Radar];
  }

  lemma KnownOfMarketplacePrefix()
    ensures KnownProducts([Connect, Payments, Identity]) == [Connect, Payments]
  {
    var s := [Connect, Payments, Identity];
    assert s[..2] == [Connect, Payments];
    assert s[..2][..1] == [Connect];
    assert !HasIcon(Identity);
    assert KnownProducts([Connect]) == [Connect];
    assert KnownProducts([Connect, Payments]) == [Connect, Payments];
  }

  lemma KnownOfCreator()
    ensures KnownProducts([Payments, Climate, Billing]) == [Payments, Billing]
  {
    var s := [Payments, Climate, Billing];
    assert s[..2] == [Payments, Climate];
    assert s[..2][..1] == [Payments];
    assert !HasIcon(Climate);
    assert KnownProducts([Payments]) == [Payments];
    assert KnownProducts([Payments, Climate]) == [Payments];
  }

  /** Every preset leaves payments on and no product twice, so the toggle
      rule's invariants hold after it although it bypasses the rule. */
  lemma PresetsKeepInvariants(t: PresetType)
    ensures NoDuplicates(PresetNetEffect(t)) && Payments in PresetNetEffect(t)
  {
    PresetNetEffects();
    StacksDistinct(PresetNetEffect(t));
  }

  lemma StacksDistinct(s: seq<ProductId>)
    requires s == [Payments, Billing, Radar] || s == [Connect, Payments, Radar] || s == [Payments, Billing]
    ensures NoDuplicates(s) && Payments in s
  {
  }

  // ---------------------------------------------------------------------------
  // The application state
  // ---------------------------------------------------------------------------

  const PRESET_REVENUE: real := 12000.0

  /** The component's two pieces of state. */
  class AppState {
    var activeProducts: seq<ProductId>
    var revenue: real

    constructor ()
      ensures activeProducts == [] && revenue == 0.0
    {
      activeProducts := [];
      revenue := 0.0;
    }

    method ToggleProduct(id: ProductId)
      modifies this
      ensures activeProducts == Toggled(old(activeProducts), id)
      ensures revenue == old(revenue)
    {
      activeProducts := ToggleUpdate(activeProducts, id);
    }

    /** Clear the products, set the revenue, then append the preset's ids that
        have an icon one by one (the pauses between them are not modelled). */
    method ApplyPreset(t: PresetType)
      modifies this
      ensures activeProducts == PresetNetEffect(t)
      ensures revenue == PRESET_REVENUE
    {
      activeProducts := [];
      revenue := PRESET_REVENUE;
      var preset := FindPreset(PRESETS, t);
      if preset.None? {
        return;
      }
      AppendKnownProducts(preset.value.products);
    }

    /** The loop of `applyPreset`: each id that has an icon is appended to the
        active products, with no dependency added. */
    method AppendKnownProducts(products: seq<ProductId>)
      modifies this
      ensures activeProducts == old(activeProducts) + KnownProducts(products)
      ensures revenue == old(revenue)
    {
      for i := 0 to |products|
        invariant activeProducts == old(activeProducts) + KnownProducts(products[..i])
        invariant revenue == old(revenue)
      {
        var pid := products[i];
        KnownProductsSnoc(products[..i], pid);
        assert products[..i + 1] == products[..i] + [pid];
        if HasIcon(pid) {
          activeProducts := activeProducts + [pid];
        }
      }
      assert products[..|products|] == products;
    }
  }

  // ---------------------------------------------------------------------------
  // Connectors from the icon row to the card
  // ---------------------------------------------------------------------------

  /** Width over which the connectors' ends are spread on the card's top edge. */
  const CONNECTION_WIDTH: real := 300.0
  /** A connector leaves its icon 35 units below the icon's centre. */
  const ICON_BOTTOM_OFFSET: real := 35.0
  const BASE_DROP: real := 50.0
  const DROP_STEP: real := 15.0
  const CONNECTOR_CORNER_RADIUS: real := 20.0
  /** Icons closer than this to their target get a straight connector. */
  const STRAIGHT_TOLERANCE: real := 60.0

  /** Where the connector of icon slot `index` meets the card. */
  function ConnectionTargetX(index: int): (x: real)
    ensures x == 550.0 + 50.0 * (index as real)
  {
    var n := |PRODUCTS|;
    var connectionStep := CONNECTION_WIDTH / (if n > 1 then (n - 1) as real else 1.0);
    var connectionStartX := CARD_CENTER_X - CONNECTION_WIDTH / 2.0;
    assert connectionStep == 50.0;
    connectionStartX + (index as real) * connectionStep
  }

  /** Depth of the connector's horizontal run: outer icons drop further. */
  function InflectionY(index: int): (y: real)
    ensures y == 145.0 + 15.0 * Abs(index as real - 3.0)
  {
    assert |PRODUCTS| == 7;
    var centerIndex := ((|PRODUCTS| - 1) as real) / 2.0;
    var distFromCenter := Abs(index as real - centerIndex);
    (IconPosition(index).y + ICON_BOTTOM_OFFSET) + BASE_DROP + distFromCenter * DROP_STEP
  }

  /** The icon is close enough to its target for a straight connector: exactly
      the slots 2, 3 and 4 (Radar, Authorization Boost, Connect). */
  predicate IsStraight(index: int)
    ensures IsStraight(index) <==> 2 <= index <= 4
  {
    var d := IconPosition(index).x - ConnectionTargetX(index);
    assert d == 56.0 * (index as real) - 168.0;
    assert index <= 1 ==> (index as real) <= 1.0;
    assert index >= 5 ==> (index as real) >= 5.0;
    Abs(d) < STRAIGHT_TOLERANCE
  }

  /** The connector of icon slot `index`: a vertical line when the icon is
      nearly above its target, otherwise a routed connector whose horizontal
      run lies at the slot's inflection depth. */
  function SlotConnector(index: int): (p: Path)
    ensures Orthogonal(p)
    ensures StartOf(p) == Point(IconPosition(index).x, ICON_Y + ICON_BOTTOM_OFFSET)
    ensures EndOf(p) == Point(if IsStraight(index) then IconPosition(index).x
                              else ConnectionTargetX(index), CARD_TOP_Y)
  {
    var pos := IconPosition(index);
    var targetX := ConnectionTargetX(index);
    var inflectionY := InflectionY(index);
    var isStraight := Abs(pos.x - targetX) < STRAIGHT_TOLERANCE;
    var finalTargetX := if isStraight then pos.x else targetX;
    if isStraight then
      [M(Point(pos.x, pos.y + ICON_BOTTOM_OFFSET)), L(Point(finalTargetX, CARD_TOP_Y))]
    else
      GenerateOrthogonalPath(OrthogonalPathConfig(
        pos.x, pos.y + ICON_BOTTOM_OFFSET, finalTargetX, CARD_TOP_Y,
        Some(CONNECTOR_CORNER_RADIUS), Some(inflectionY)))
  }

  /** The connector drawn for an active product, `None` for an id without an
      icon. It depends on the product's icon slot only, not on its position in
      the active list. */
  function ConnectorPath(id: ProductId): (r: Option<Path>)
    ensures r.Some? <==> HasIcon(id)
    ensures r.Some? ==> 0 <= IndexOf(id) < |PRODUCTS| && r.value == SlotConnector(IndexOf(id))
    ensures r.Some? ==> var i := IndexOf(id) as real;
      && Orthogonal(r.value)
      && StartOf(r.value) == Point(382.0 + 106.0 * i, 95.0)
      && EndOf(r.value) == Point(if 2.0 <= i <= 4.0 then 382.0 + 106.0 * i else 550.0 + 50.0 * i, 240.0)
  {
    if !HasIcon(id) then None
    else Some(SlotConnector(IndexOf(id)))
  }

  /** Run depths are symmetric about the middle slot and grow with the
      distance from it. */
  lemma InflectionSymmetricAndOutward(i: int, j: int)
    ensures InflectionY(3 + i) == InflectionY(3 - i)
    ensures Abs(i as real - 3.0) <= Abs(j as real - 3.0) ==> InflectionY(i) <= InflectionY(j)
  {
  }

  /** A straight connector is vertical; a routed one goes through its run in the
      connector's direction, since the ends are always more than two radii apart. */
  lemma SlotConnectorShapes(index: int)
    ensures var p := SlotConnector(index);
      && (IsStraight(index) ==> |p| == 2 && StartOf(p).x == EndOf(p).x)
      && (!IsStraight(index) ==>
            |p| == 6 && p[3].to.y == InflectionY(index) &&
            Direction(StartOf(p).x, EndOf(p).x) * (p[3].to.x - p[2].to.x) >= 0.0)
  {
    if !IsStraight(index) {
      var pos := IconPosition(index);
      var config := OrthogonalPathConfig(pos.x, pos.y + ICON_BOTTOM_OFFSET, ConnectionTargetX(index),
        CARD_TOP_Y, Some(CONNECTOR_CORNER_RADIUS), Some(InflectionY(index)));
      assert SlotConnector(index) == GenerateOrthogonalPath(config);
      RunForwardIffWideEnough(config);
      RoutedShape(config);
    }
  }

  /** The Payments connector, slot 0: from (382,95) down to y = 170, along
      y = 190 to the right, and down onto the card at x = 550. */
  lemma PaymentsConnector()
    ensures ConnectorPath(Payments) == Some([
      M(Point(382.0, 95.0)), L(Point(382.0, 170.0)),
      Q(Point(382.0, 190.0), Point(402.0, 190.0)), L(Point(530.0, 190.0)),
      Q(Point(550.0, 190.0), Point(550.0, 210.0)), L(Point(550.0, 240.0))])
  {
    assert IndexOf(Payments) == 0;
    assert !IsStraight(0);
  }

  /** Tax, Identity, Climate and Atlas have no icon and hence no connector. */
  lemma IconlessProductsHaveNoConnector()
    ensures ConnectorPath(Tax).None? && ConnectorPath(Identity).None?
    ensures ConnectorPath(Climate).None? && ConnectorPath(Atlas).None?
  {
    assert !HasIcon(Tax) && !HasIcon(Identity) && !HasIcon(Climate) && !HasIcon(Atlas);
  }
}
