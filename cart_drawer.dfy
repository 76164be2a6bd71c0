/** The storefront cart drawer (extensions/BoostCartExtension/assets/cart-drawer.js):
    money formatting, the free-shipping and bonus-gift thresholds, the bonus
    reconciliation that adds or removes one gift line, the progress bar and its
    two messages, the drawer's item list and its show/hide state.

    Amounts are integer cents. The network calls become values: a cart snapshot
    is an input, the one cart mutation `checkBonus` would post is an output. */
module CartDrawer {
  import opened Wrappers
  import opened JsText

  // ------------------------------------------------------------ configuration

  const DefaultFreeShippingThreshold: real := 69.0
  const DefaultBonusThreshold: real := 100.0

  /** `parseFloat(attribute) || fallback`. `parsed` is what parseFloat returned:
      `None` for NaN, which is also what a missing attribute gives. */
  function ThresholdOr(parsed: Option<real>, fallback: real): (t: real)
    ensures parsed.None? || parsed.value == 0.0 ==> t == fallback
    ensures parsed.Some? && parsed.value != 0.0 ==> t == parsed.value
  {
    if parsed.Some? && parsed.value != 0.0 then parsed.value else fallback
  }

  /** The drawer's settings, read once from its data attributes. Thresholds are in
      currency units (euros); `bonusVariantId` is the raw attribute text. */
  datatype Config = Config(freeShippingThreshold: real, bonusThreshold: real, bonusVariantId: Option<string>)
  {
    /** What the `|| default` fallback guarantees: neither threshold is zero. */
    predicate Valid() {
      freeShippingThreshold != 0.0 && bonusThreshold != 0.0
    }

    /** Both thresholds are whole numbers of cents (true of 69 and 100, and of
        any attribute with at most two decimals). */
    predicate WholeCents() {
      (freeShippingThreshold * 100.0).Floor as real == freeShippingThreshold * 100.0 &&
      (bonusThreshold * 100.0).Floor as real == bonusThreshold * 100.0
    }

    function ShippingCents(): int { (freeShippingThreshold * 100.0).Floor }

    function BonusCents(): int { (bonusThreshold * 100.0).Floor }

    /** `if (!bonusVariantId) return;`: a missing or empty attribute turns the bonus off. */
    predicate BonusEnabled() {
      bonusVariantId.Some? && bonusVariantId.value != ""
    }
  }

  /** Reading the three data attributes of the drawer element. */
  function ConfigFromAttributes(shipping: Option<real>, bonus: Option<real>, variantId: Option<string>): (c: Config)
    ensures c.Valid()
    ensures c.freeShippingThreshold == ThresholdOr(shipping, DefaultFreeShippingThreshold)
    ensures c.bonusThreshold == ThresholdOr(bonus, DefaultBonusThreshold)
    ensures c.bonusVariantId == variantId
  {
    Config(ThresholdOr(shipping, DefaultFreeShippingThreshold), ThresholdOr(bonus, DefaultBonusThreshold), variantId)
  }

  /** A missing, non-numeric or zero attribute gives the defaults 69 and 100. */
  lemma DefaultThresholds(shipping: Option<real>, bonus: Option<real>, variantId: Option<string>)
    requires shipping.None? || shipping == Some(0.0)
    requires bonus.None? || bonus == Some(0.0)
    ensures ConfigFromAttributes(shipping, bonus, variantId).freeShippingThreshold == 69.0
    ensures ConfigFromAttributes(shipping, bonus, variantId).bonusThreshold == 100.0
    ensures ConfigFromAttributes(shipping, bonus, variantId).WholeCents()
  {
  }

  // ------------------------------------------------------------ formatMoney

  function TwoDigits(n: nat): (r: string)
    requires n < 100
    ensures |r| == 2 && AllDigits(r, 10)
  {
    [DigitChar(n / 10), DigitChar(n % 10)]
  }

  /** `(cents / 100).toFixed(2).replace('.', ',') + '€'`: the sign, the whole
      euros, a comma, exactly two digits of cents and the euro sign. */
  function FormatMoney(cents: int): string {
    var m: nat := if cents < 0 then -cents else cents;
    (if cents < 0 then "-" else "") + NatToDigits(m / 100) + "," + TwoDigits(m % 100) + "€"
  }

  /** Reads an amount written by FormatMoney back into cents: the text before
      the comma, two digits, and the euro sign. */
  function ParseMoney(s: string): Option<int> {
    if |s| < 5 || s[|s| - 1] != '€' || s[|s| - 4] != ',' then None
    else ParseAmount(s[..|s| - 4], s[|s| - 3..|s| - 1])
  }

  /** An optional minus sign followed by the euros, and the cents. */
  function ParseAmount(whole: string, fraction: string): Option<int> {
    var negative := whole != [] && whole[0] == '-';
    var euros := if negative then whole[1..] else whole;
    if euros == [] || !AllDigits(euros, 10) || !AllDigits(fraction, 10) then None
    else
      var v: int := DigitsValue(euros, 10) * 100 + DigitsValue(fraction, 10);
      Some(if negative then -v else v)
  }

  lemma TwoDigitsValue(n: nat)
    requires n < 100
    ensures DigitsValue(TwoDigits(n), 10) == n
  {
    var t := TwoDigits(n);
    assert t[..1] == [DigitChar(n / 10)];
    assert DigitsValue(t[..1], 10) == n / 10 by {
      assert t[..1][..0] == [];
    }
  }

  /** Formatting never loses information: the text reads back to the same cents. */
  lemma FormatMoneyRoundTrip(cents: int)
    ensures ParseMoney(FormatMoney(cents)) == Some(cents)
  {
    var m: nat := if cents < 0 then -cents else cents;
    FormatMoneyParts(cents);
    AmountOfParts(cents < 0, m);
  }

  /** FormatMoney's text is a sign and the whole euros, a comma, two digits and '€'. */
  lemma FormatMoneyParts(cents: int)
    ensures var m: nat := if cents < 0 then -cents else cents;
            ParseMoney(FormatMoney(cents)) ==
              ParseAmount((if cents < 0 then "-" else "") + NatToDigits(m / 100), TwoDigits(m % 100))
  {
    var m: nat := if cents < 0 then -cents else cents;
    var sign := if cents < 0 then "-" else "";
    assert FormatMoney(cents) == sign + NatToDigits(m / 100) + "," + TwoDigits(m % 100) + "€";
    ParseMoneyFrame(sign + NatToDigits(m / 100), TwoDigits(m % 100));
  }

  /** The sign, the euros and the cents FormatMoney writes read back as the amount. */
  lemma AmountOfParts(negative: bool, m: nat)
    ensures ParseAmount((if negative then "-" else "") + NatToDigits(m / 100), TwoDigits(m % 100)) ==
              Some(if negative then -(m as int) else m as int)
  {
    var euros, fraction := NatToDigits(m / 100), TwoDigits(m % 100);
    NatToDigitsValue(m / 100);
    TwoDigitsValue(m % 100);
    if negative {
      ParseAmountNegative(euros, fraction);
    } else {
      assert "" + euros == euros;
      ParseAmountUnsigned(euros, fraction);
    }
  }

  /** ParseMoney strips the comma, the two digits of cents and the euro sign. */
  lemma ParseMoneyFrame(whole: string, fraction: string)
    requires |fraction| == 2
    ensures ParseMoney(whole + "," + fraction + "€") == ParseAmount(whole, fraction)
  {
    var tail := "," + fraction + "€";
    var s := whole + tail;
    assert whole + "," + fraction + "€" == s;
    assert |tail| == 4 && tail[0] == ',' && tail[3] == '€' && tail[1..3] == fraction;
    assert s[..|s| - 4] == whole && s[|s| - 4..] == tail;
    assert s[|s| - 3..|s| - 1] == tail[1..3];
  }

  /** Digits without a sign read as a non-negative amount. */
  lemma ParseAmountUnsigned(euros: string, fraction: string)
    requires euros != [] && AllDigits(euros, 10) && AllDigits(fraction, 10)
    ensures ParseAmount(euros, fraction) == Some(DigitsValue(euros, 10) * 100 + DigitsValue(fraction, 10))
  {
    assert IsRadixDigit(euros[0], 10);
  }

  /** A leading minus sign negates the amount. */
  lemma ParseAmountNegative(euros: string, fraction: string)
    requires euros != [] && AllDigits(euros, 10) && AllDigits(fraction, 10)
    ensures ParseAmount("-" + euros, fraction) == Some(-(DigitsValue(euros, 10) * 100 + DigitsValue(fraction, 10)))
  {
    assert ("-" + euros)[1..] == euros;
  }

  /** The worked example: 1400 cents is written "14,00€". */
  lemma FormatMoneyExample()
    ensures FormatMoney(1400) == "14,00€"
  {
    assert NatToDigits(14) == "14";
  }

  // ------------------------------------------------------------ the cart

  /** One line of the cart JSON; `variantId` is a number there. */
  datatype LineItem = LineItem(key: string, variantId: int, productTitle: string, image: string, price: int, quantity: nat)

  datatype Cart = Cart(items: seq<LineItem>, totalPrice: int)

  /** The two cart requests checkBonus can post: `/cart/add.js` with
      `{id, quantity}` and `/cart/change.js` with `{line, quantity}`. */
  datatype CartMutation = AddItem(id: string, quantity: nat) | ChangeLine(line: string, quantity: nat)

  /** `item.variant_id == bonusVariantId`: loose equality converts the attribute text to a number. */
  predicate IsBonusLine(item: LineItem, id: string) {
    StringToInteger(id) == Some(item.variantId)
  }

  /** `items.find(i => i.variant_id == id)`, as an index from `from` on. */
  function FindBonusLine(items: seq<LineItem>, id: string, from: nat): (r: Option<nat>)
    requires from <= |items|
    decreases |items| - from
    ensures r.Some? ==> from <= r.value < |items| && IsBonusLine(items[r.value], id)
    ensures r.Some? ==> forall j :: from <= j < r.value ==> !IsBonusLine(items[j], id)
    ensures r.None? ==> forall j :: from <= j < |items| ==> !IsBonusLine(items[j], id)
  {
    if from == |items| then None
    else if IsBonusLine(items[from], id) then Some(from)
    else FindBonusLine(items, id, from + 1)
  }

  /** `cart.items.some(item => item.variant_id == bonusVariantId)`. */
  predicate HasBonus(cart: Cart, id: string) {
    FindBonusLine(cart.items, id, 0).Some?
  }

  /** `cart.total_price >= bonusThreshold * 100`. */
  predicate ShouldHaveBonus(config: Config, totalPrice: int) {
    totalPrice as real >= config.bonusThreshold * 100.0
  }

  /** checkBonus: the one cart request (if any) that brings the bonus line in
      line with the cart total. */
  function CheckBonus(config: Config, cart: Cart): (m: Option<CartMutation>)
    ensures !config.BonusEnabled() ==> m.None?
    ensures m.Some? && m.value.AddItem? <==>
              config.BonusEnabled() && ShouldHaveBonus(config, cart.totalPrice) && !HasBonus(cart, config.bonusVariantId.value)
    ensures m.Some? && m.value.AddItem? ==> m.value == AddItem(config.bonusVariantId.value, 1)
    ensures m.Some? && m.value.ChangeLine? <==>
              config.BonusEnabled() && !ShouldHaveBonus(config, cart.totalPrice) && HasBonus(cart, config.bonusVariantId.value)
    ensures m.Some? && m.value.ChangeLine? ==>
              m.value.quantity == 0 &&
              exists k :: 0 <= k < |cart.items| && m.value.line == cart.items[k].key &&
                IsBonusLine(cart.items[k], config.bonusVariantId.value) &&
                forall j :: 0 <= j < k ==> !IsBonusLine(cart.items[j], config.bonusVariantId.value)
  {
    if !config.BonusEnabled() then None
    else
      var id := config.bonusVariantId.value;
      var found := FindBonusLine(cart.items, id, 0);
      var should := ShouldHaveBonus(config, cart.totalPrice);
      if should && found.None? then Some(AddItem(id, 1))
      else if !should && found.Some? then Some(ChangeLine(cart.items[found.value].key, 0))
      else None
  }

  // --------------------------------------------------- the platform's response

  predicate DistinctKeys(items: seq<LineItem>) {
    forall i, j :: 0 <= i < j < |items| ==> items[i].key != items[j].key
  }

  predicate AtMostOneBonusLine(items: seq<LineItem>, id: string) {
    forall i, j :: 0 <= i < j < |items| && IsBonusLine(items[i], id) ==> !IsBonusLine(items[j], id)
  }

  predicate NonNegativePrices(items: seq<LineItem>) {
    forall i :: 0 <= i < |items| ==> items[i].price >= 0
  }

  /** The cart after the platform carried out the request: `add` appends `added`,
      a change to quantity 0 deletes the line with that key. The total moves by
      the line's price times its quantity. */
  function ApplyMutation(cart: Cart, m: CartMutation, added: LineItem): Cart {
    match m
    case AddItem(_, _) =>
      Cart(cart.items + [added], cart.totalPrice + added.price * added.quantity)
    case ChangeLine(line, _) =>
      var k := KeyIndex(cart.items, line, 0);
      if k.None? then cart
      else
        var item := cart.items[k.value];
        Cart(cart.items[..k.value] + cart.items[k.value + 1..], cart.totalPrice - item.price * item.quantity)
  }

  function KeyIndex(items: seq<LineItem>, key: string, from: nat): (r: Option<nat>)
    requires from <= |items|
    decreases |items| - from
    ensures r.Some? ==> from <= r.value < |items| && items[r.value].key == key
    ensures r.None? ==> forall j :: from <= j < |items| ==> items[j].key != key
  {
    if from == |items| then None
    else if items[from].key == key then Some(from)
    else KeyIndex(items, key, from + 1)
  }

  lemma NoBonusLine(items: seq<LineItem>, id: string)
    requires forall j :: 0 <= j < |items| ==> !IsBonusLine(items[j], id)
    ensures FindBonusLine(items, id, 0).None?
  {
  }

  /** Level-triggered reconciliation settles after one request: with at most one
      gift line, unique line keys and non-negative prices, re-running checkBonus
      on the cart the request produced asks for nothing more. */
  lemma Convergence(config: Config, cart: Cart, added: LineItem)
    requires config.BonusEnabled()
    requires CheckBonus(config, cart).Some?
    requires DistinctKeys(cart.items) && NonNegativePrices(cart.items)
    requires AtMostOneBonusLine(cart.items, config.bonusVariantId.value)
    requires IsBonusLine(added, config.bonusVariantId.value) && added.price >= 0 && added.quantity == 1
    ensures CheckBonus(config, ApplyMutation(cart, CheckBonus(config, cart).value, added)).None?
  {
    var m := CheckBonus(config, cart).value;
    if m.AddItem? {
      AddedBonusSettles(config, cart, added);
    } else {
      RemovedBonusSettles(config, cart, m.line);
    }
  }

  /** After the gift line is added, the cart has it. */
  lemma AddedBonusSettles(config: Config, cart: Cart, added: LineItem)
    requires config.BonusEnabled()
    requires IsBonusLine(added, config.bonusVariantId.value)
    ensures HasBonus(ApplyMutation(cart, AddItem(config.bonusVariantId.value, 1), added), config.bonusVariantId.value)
  {
    var after := ApplyMutation(cart, AddItem(config.bonusVariantId.value, 1), added);
    assert IsBonusLine(after.items[|cart.items|], config.bonusVariantId.value);
  }

  /** Deleting the first gift line of a cart with at most one, unique keys and
      non-negative prices leaves no gift line and a total that did not grow. */
  lemma RemovedBonusSettles(config: Config, cart: Cart, line: string)
    requires config.BonusEnabled()
    requires DistinctKeys(cart.items) && NonNegativePrices(cart.items)
    requires AtMostOneBonusLine(cart.items, config.bonusVariantId.value)
    requires CheckBonus(config, cart) == Some(ChangeLine(line, 0))
    ensures var after := ApplyMutation(cart, ChangeLine(line, 0), LineItem("", 0, "", "", 0, 0));
            !HasBonus(after, config.bonusVariantId.value) && after.totalPrice <= cart.totalPrice
  {
    var id := config.bonusVariantId.value;
    var k := FindBonusLine(cart.items, id, 0).value;
    assert cart.items[k].key == line;
    assert KeyIndex(cart.items, line, 0) == Some(k);
    var item := cart.items[k];
    assert item.price * item.quantity >= 0;
    var after := ApplyMutation(cart, ChangeLine(line, 0), LineItem("", 0, "", "", 0, 0));
    assert after.items == cart.items[..k] + cart.items[k + 1..];
    OnlyBonusLineRemoved(cart.items, id, k, after.items);
  }

  /** Deleting the one gift line of a list with at most one leaves none. */
  lemma OnlyBonusLineRemoved(items: seq<LineItem>, id: string, k: nat, rest: seq<LineItem>)
    requires k < |items| && IsBonusLine(items[k], id) && AtMostOneBonusLine(items, id)
    requires rest == items[..k] + items[k + 1..]
    ensures FindBonusLine(rest, id, 0).None?
  {
    var target := StringToInteger(id);
    forall j | 0 <= j < |items| && j != k ensures target != Some(items[j].variantId) {
      assert !IsBonusLine(items[j], id);
    }
    RemoveOnlyMatch(items, k, target, rest);
    forall j | 0 <= j < |rest| ensures !IsBonusLine(rest[j], id) {
      assert target != Some(rest[j].variantId);
    }
    NoBonusLine(rest, id);
  }

  /** Deleting the only line with a given variant id leaves none. */
  lemma RemoveOnlyMatch(items: seq<LineItem>, k: nat, target: Option<int>, rest: seq<LineItem>)
    requires k < |items| && rest == items[..k] + items[k + 1..]
    requires forall j :: 0 <= j < |items| && j != k ==> target != Some(items[j].variantId)
    ensures forall j :: 0 <= j < |rest| ==> target != Some(rest[j].variantId)
  {
    forall j | 0 <= j < |rest| ensures target != Some(rest[j].variantId) {
      if j < k {
        assert rest[j] == items[j];
      } else {
        assert rest[j] == items[j + 1];
      }
    }
  }

  // ------------------------------------------------------------ progress bar

  /** `Math.min(total / (bonusThreshold * 100), 1) * 100`, the bar's width in percent. */
  function ProgressWidth(config: Config, totalPrice: int): (w: real)
    requires config.Valid()
    ensures config.bonusThreshold > 0.0 && totalPrice >= 0 ==> 0.0 <= w <= 100.0
    ensures config.bonusThreshold > 0.0 ==> (w == 100.0 <==> ShouldHaveBonus(config, totalPrice))
  {
    var q := totalPrice as real / (config.bonusThreshold * 100.0);
    (if q < 1.0 then q else 1.0) * 100.0
  }

  /** A message line: its text and whether it carries the 'success' class. */
  datatype Notice = Notice(text: string, success: bool)

  const ShippingPrefix := "Encore "
  const ShippingSuffix := " pour livraison offerte"
  const ShippingDone := "Livraison gratuite débloquée !"
  const BonusSuffix := " pour le cadeau offert"
  const BonusDone := "Cadeau offert débloqué !"

  /** The message for one threshold: the amount still missing while it is
      positive, the unlocked text otherwise. */
  function ThresholdNotice(thresholdCents: int, totalPrice: int, suffix: string, done: string): (n: Notice)
    ensures n.success <==> totalPrice >= thresholdCents
    ensures n.success ==> n.text == done
    ensures !n.success ==> StartsWith(n.text, ShippingPrefix) && |n.text| >= |ShippingPrefix| + |suffix| &&
                           n.text[|n.text| - |suffix|..] == suffix
  {
    var diff := thresholdCents - totalPrice;
    if diff > 0 then Notice(ShippingPrefix + FormatMoney(diff) + suffix, false) else Notice(done, true)
  }

  /** The amount shown in a pending message reads back as exactly the cents still missing. */
  lemma ThresholdNoticeAmount(thresholdCents: int, totalPrice: int, suffix: string, done: string)
    requires totalPrice < thresholdCents
    ensures var n := ThresholdNotice(thresholdCents, totalPrice, suffix, done);
            ParseMoney(n.text[|ShippingPrefix|..|n.text| - |suffix|]) == Some(thresholdCents - totalPrice)
  {
    var diff := thresholdCents - totalPrice;
    var n := ThresholdNotice(thresholdCents, totalPrice, suffix, done);
    assert n.text[|ShippingPrefix|..|n.text| - |suffix|] == FormatMoney(diff);
    FormatMoneyRoundTrip(diff);
  }

  function ShippingNotice(config: Config, totalPrice: int): (n: Notice)
    requires config.WholeCents()
    ensures n.success <==> totalPrice as real >= config.freeShippingThreshold * 100.0
  {
    ThresholdNotice(config.ShippingCents(), totalPrice, ShippingSuffix, ShippingDone)
  }

  function BonusNotice(config: Config, totalPrice: int): (n: Notice)
    requires config.WholeCents()
    ensures n.success <==> ShouldHaveBonus(config, totalPrice)
  {
    ThresholdNotice(config.BonusCents(), totalPrice, BonusSuffix, BonusDone)
  }

  /** The worked example: with the default 69 € and a 55 € cart, 14 € are missing. */
  lemma ShippingNoticeExample()
    ensures ShippingNotice(Config(69.0, 100.0, None), 5500) == Notice(ShippingPrefix + "14,00€" + ShippingSuffix, false)
  {
    assert Config(69.0, 100.0, None).ShippingCents() == 6900;
    FormatMoneyExample();
  }

  /** A message element: its text and its class list. */
  datatype TextElement = TextElement(textContent: string, classList: set<string>)

  /** Writing a notice into an element: set the text, add or remove 'success'. */
  function ShowNotice(e: TextElement, n: Notice): (r: TextElement)
    ensures r.textContent == n.text
    ensures ("success" in r.classList) == n.success
    ensures r.classList - {"success"} == e.classList - {"success"}
  {
    TextElement(n.text, if n.success then e.classList + {"success"} else e.classList - {"success"})
  }

  /** Showing the same notice again changes nothing. */
  lemma ShowNoticeIdempotent(e: TextElement, n: Notice)
    ensures ShowNotice(ShowNotice(e, n), n) == ShowNotice(e, n)
  {
  }

  // ------------------------------------------------------------ drawer content

  /** The drawer markup as a sequence of blocks instead of HTML text. */
  datatype Segment =
    | ItemsOpen
    | EmptyCart
    | ItemBlock(image: string, title: string, price: string)
    | ItemsClose
    | TotalLine(text: string)

  const EmptyCartText := "Votre panier est vide."

  function ItemSegment(item: LineItem): Segment {
    ItemBlock(item.image, item.productTitle, FormatMoney(item.price))
  }

  function TotalSegment(cart: Cart): Segment {
    TotalLine("Total : " + FormatMoney(cart.totalPrice))
  }

  function ItemSegments(items: seq<LineItem>): (r: seq<Segment>)
    ensures |r| == |items|
    ensures forall i :: 0 <= i < |items| ==> r[i] == ItemSegment(items[i])
  {
    if items == [] then [] else ItemSegments(items[..|items| - 1]) + [ItemSegment(items[|items| - 1])]
  }

  /** What updateDrawer writes into the drawer. */
  function DrawerContent(cart: Cart): (c: seq<Segment>)
    ensures cart.items == [] ==> c == [ItemsOpen, EmptyCart, ItemsClose, TotalSegment(cart)]
    ensures cart.items != [] ==>
              && |c| == |cart.items| + 3 && c[0] == ItemsOpen
              && (forall i :: 0 <= i < |cart.items| ==> c[i + 1] == ItemSegment(cart.items[i]))
              && c[|c| - 2] == ItemsClose
    ensures c[|c| - 1] == TotalSegment(cart)
  {
    var body := if cart.items == [] then [EmptyCart] else ItemSegments(cart.items);
    [ItemsOpen] + body + [ItemsClose, TotalSegment(cart)]
  }

  // ------------------------------------------------------------ show / hide

  /** The toggle button: 'block' becomes 'none', anything else becomes 'block'. */
  function Toggled(display: string): (d: string)
    ensures d == "block" <==> display != "block"
    ensures d == "none" <==> display == "block"
  {
    if display == "block" then "none" else "block"
  }

  /** Two clicks on the toggle restore a drawer that was shown or hidden. */
  lemma ToggleTwice(display: string)
    requires display == "block" || display == "none"
    ensures Toggled(Toggled(display)) == display
  {
  }

  // ------------------------------------------------------------ the DOM state

  /** The page state the script writes: the drawer's display and content, the
      progress bar's width and the two message elements. `None` stands for an
      element that is not on the page. */
  class CartDrawer {
    const config: Config
    var display: string
    var content: seq<Segment>
    var progressWidth: Option<real>
    var shippingText: Option<TextElement>
    var bonusText: Option<TextElement>

    constructor (config: Config, display: string, hasProgressBar: bool,
                 shippingText: Option<TextElement>, bonusText: Option<TextElement>)
      ensures this.config == config && this.display == display && this.content == []
      ensures this.progressWidth == (if hasProgressBar then Some(0.0) else None)
      ensures this.shippingText == shippingText && this.bonusText == bonusText
    {
      this.config := config;
      this.display := display;
      this.content := [];
      this.progressWidth := if hasProgressBar then Some(0.0) else None;
      this.shippingText := shippingText;
      this.bonusText := bonusText;
    }

    /** updateDrawer: rebuild the content block by block. */
    method UpdateDrawer(cart: Cart)
      modifies this`content
      ensures content == DrawerContent(cart)
    {
      var items: seq<Segment> := [];
      if |cart.items| == 0 {
        items := [EmptyCart];
      } else {
        var i := 0;
        while i < |cart.items|
          invariant 0 <= i <= |cart.items|
          invariant items == ItemSegments(cart.items[..i])
        {
          items := items + [ItemSegment(cart.items[i])];
          i := i + 1;
          assert cart.items[..i][..i - 1] == cart.items[..i - 1];
        }
        assert cart.items[..i] == cart.items;
      }
      content := [ItemsOpen] + items + [ItemsClose, TotalSegment(cart)];
    }

    /** updateProgressBar. Returns whether it stopped on a missing message
        element (the TypeError that fetchCart's catch logs). */
    method UpdateProgressBar(cart: Cart) returns (failed: bool)
      requires config.Valid() && config.WholeCents()
      modifies this`progressWidth, this`shippingText, this`bonusText
      ensures old(progressWidth).None? ==>
                !failed && progressWidth.None? && shippingText == old(shippingText) && bonusText == old(bonusText)
      ensures old(progressWidth).Some? ==> progressWidth == Some(ProgressWidth(config, cart.totalPrice))
      ensures old(progressWidth).Some? ==>
                shippingText == (if old(shippingText).None? then None
                                 else Some(ShowNotice(old(shippingText).value, ShippingNotice(config, cart.totalPrice))))
      ensures old(progressWidth).Some? ==>
                bonusText == (if old(shippingText).None? || old(bonusText).None? then old(bonusText)
                              else Some(ShowNotice(old(bonusText).value, BonusNotice(config, cart.totalPrice))))
      ensures failed <==> old(progressWidth).Some? && (old(shippingText).None? || old(bonusText).None?)
    {
      if progressWidth.None? {
        return false;
      }
      progressWidth := Some(ProgressWidth(config, cart.totalPrice));
      if shippingText.None? {
        return true;
      }
      shippingText := Some(ShowNotice(shippingText.value, ShippingNotice(config, cart.totalPrice)));
      if bonusText.None? {
        return true;
      }
      bonusText := Some(ShowNotice(bonusText.value, BonusNotice(config, cart.totalPrice)));
      failed := false;
    }

    /** The callback of fetchCart on a fresh cart: redraw, decide the bonus
        request, update the progress bar. */
    method Refresh(cart: Cart) returns (request: Option<CartMutation>, failed: bool)
      requires config.Valid() && config.WholeCents()
      modifies this`content, this`progressWidth, this`shippingText, this`bonusText
      ensures content == DrawerContent(cart)
      ensures request == CheckBonus(config, cart)
      ensures old(progressWidth).None? ==>
                !failed && progressWidth.None? && shippingText == old(shippingText) && bonusText == old(bonusText)
      ensures old(progressWidth).Some? ==> progressWidth == Some(ProgressWidth(config, cart.totalPrice))
      ensures old(progressWidth).Some? ==>
                shippingText == (if old(shippingText).None? then None
                                 else Some(ShowNotice(old(shippingText).value, ShippingNotice(config, cart.totalPrice))))
      ensures old(progressWidth).Some? ==>
                bonusText == (if old(shippingText).None? || old(bonusText).None? then old(bonusText)
                              else Some(ShowNotice(old(bonusText).value, BonusNotice(config, cart.totalPrice))))
      ensures failed <==> old(progressWidth).Some? && (old(shippingText).None? || old(bonusText).None?)
    {
      UpdateDrawer(cart);
      request := CheckBonus(config, cart);
      failed := UpdateProgressBar(cart);
    }

    /** A click on the toggle button. */
    method ToggleClick()
      modifies this`display
      ensures display == Toggled(old(display))
    {
      display := if display == "block" then "none" else "block";
    }

    /** A click anywhere on the document: outside both the drawer and the toggle
        it hides the drawer, otherwise nothing changes. */
    method DocumentClick(insideDrawer: bool, onToggle: bool)
      modifies this`display
      ensures display == (if !insideDrawer && !onToggle then "none" else old(display))
    {
      if !insideDrawer && !onToggle {
        display := "none";
      }
    }
  }
}
