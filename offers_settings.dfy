/** The cart-offers settings page: three offers, each with an enable flag, a
    type ("shipping" or "gift"), a threshold in euros, the texts shown before
    and after the threshold is reached and the URL of the gift product. Stored
    as shop metafields in the "ecomkit" namespace. */
module OffersSettings {
  import opened Wrappers
  import opened JsText
  import opened SettingsPipeline

  const EnableKeys: set<string> := {"enable_offer1", "enable_offer2", "enable_offer3"}
  const ThresholdKeys: set<string> := {"offer1_threshold", "offer2_threshold", "offer3_threshold"}

  /** The loader's defaults object; the thresholds are the numbers 55, 75 and 100. */
  const Defaults: Obj<Value> := [
    ("enable_offer1", Bool(false)),
    ("offer1_type", Str("shipping")),
    ("offer1_threshold", Decimal("55")),
    ("offer1_text_before", Str("Encore [amount_left]€ pour obtenir l'offre 1")),
    ("offer1_text_after", Str("Offre 1 activée !")),
    ("offer1_product_url", Str("")),
    ("enable_offer2", Bool(false)),
    ("offer2_type", Str("gift")),
    ("offer2_threshold", Decimal("75")),
    ("offer2_text_before", Str("Encore [amount_left]€ pour obtenir l'offre 2")),
    ("offer2_text_after", Str("Offre 2 activée !")),
    ("offer2_product_url", Str("")),
    ("enable_offer3", Bool(false)),
    ("offer3_type", Str("gift")),
    ("offer3_threshold", Decimal("100")),
    ("offer3_text_before", Str("Encore [amount_left]€ pour obtenir l'offre 3")),
    ("offer3_text_after", Str("Offre 3 activée !")),
    ("offer3_product_url", Str(""))
  ]

  const BooleanPrefix := "enable_offer"
  const DecimalInfix := "threshold"
  const SavedMessage := "Offres enregistrées avec succès!"

  const Page: Schema := Schema("ecomkit", Defaults, Coercion({}, EnableKeys, ThresholdKeys),
                               ByKeyPattern(BooleanPrefix, DecimalInfix), SavedMessage)

  /** The page's `loader`: stored enable flags load as `value === 'true'`,
      stored thresholds as parseFloat of the value, every other stored key as
      its raw string; keys not stored keep their defaults. */
  method Loader(stored: Stored) returns (settings: Obj<Value>)
    ensures settings == LoadedSettings(Page, stored)
    ensures forall k :: Lookup(settings, k) ==
              match Lookup(Fetched(stored), k)
              case Some(raw) => Some(if k in EnableKeys then Bool(raw == "true")
                                     else if k in ThresholdKeys then Decimal(raw)
                                     else Str(raw))
              case None => Lookup(Defaults, k)
  {
    settings := Load(Page, stored);
  }

  /** The page's `action`: records in the "ecomkit" namespace, typed boolean
      when the key starts with "enable_offer", else decimal when it contains
      "threshold", else single-line text. */
  method Action(form: Form, shopId: Option<string>, userErrors: nat -> bool) returns (result: ActionResult)
    ensures result == ActionOutcome(Page, form, shopId, userErrors)
    ensures ShopIdMissing(shopId) ==> result == Failed(MissingShopId, [])
    ensures result.Saved? && result.sent != [] ==> Message(result) == Some(SavedMessage)
    ensures !ShopIdMissing(shopId) ==>
              forall b, r :: b in result.sent && r in b ==>
                && r.namespace == "ecomkit"
                && r.ownerId == shopId.value
                && r.value != "" && Lookup(form, r.key) == Some(r.value)
                && (r.mtype == Boolean <==> StartsWith(r.key, BooleanPrefix))
                && (r.mtype == NumberDecimal <==> !StartsWith(r.key, BooleanPrefix) && Includes(r.key, DecimalInfix))
  {
    result := SettingsPipeline.Action(Page, form, shopId, userErrors);
    ActionCases(Page, form, shopId, userErrors);
    ActionSent(Page, form, shopId, userErrors);
  }

  // ------------------------------------------------------------ OfferForm

  /** The settings keys an offer card reads and writes. */
  datatype OfferKeys = OfferKeys(enable: string, offerType: string, threshold: string,
                                 textBefore: string, textAfter: string, productUrl: string)

  /** `offerNumber = index + 1` and the keys `enable_offer${offerNumber}`, `offer${offerNumber}_…`. */
  function OfferKeysOf(index: nat): OfferKeys {
    var n := IntToString(index + 1);
    OfferKeys("enable_offer" + n, "offer" + n + "_type", "offer" + n + "_threshold",
              "offer" + n + "_text_before", "offer" + n + "_text_after", "offer" + n + "_product_url")
  }

  /** What an offer card shows: whether its checkbox is checked, whether the
      other inputs are disabled, the values of the type select and of the
      threshold, text and product-URL fields (`None` is `undefined`), and
      whether the product-URL field is rendered at all. */
  datatype OfferCard = OfferCard(title: string, keys: OfferKeys, checked: bool, inputsDisabled: bool,
                                 offerType: Option<Value>, thresholdText: string,
                                 textBefore: Option<Value>, textAfter: Option<Value>,
                                 showsProductUrl: bool, productUrl: Option<Value>)

  function OfferForm(index: nat, settings: Obj<Value>): (card: OfferCard)
    ensures card.keys == OfferKeysOf(index)
    ensures card.checked <==> Truthy(Lookup(settings, card.keys.enable))
    ensures card.inputsDisabled <==> !card.checked
    ensures card.offerType == Lookup(settings, card.keys.offerType)
    ensures card.showsProductUrl <==> Lookup(settings, card.keys.offerType) == Some(Str("gift"))
    ensures card.thresholdText == JsString(Lookup(settings, card.keys.threshold))
    ensures card.textBefore == Lookup(settings, card.keys.textBefore)
    ensures card.textAfter == Lookup(settings, card.keys.textAfter)
    ensures card.productUrl == Lookup(settings, card.keys.productUrl)
  {
    var keys := OfferKeysOf(index);
    var enabled := Truthy(Lookup(settings, keys.enable));
    var offerType := Lookup(settings, keys.offerType);
    OfferCard("Offre " + IntToString(index + 1), keys, enabled, !enabled,
              offerType, JsString(Lookup(settings, keys.threshold)),
              Lookup(settings, keys.textBefore), Lookup(settings, keys.textAfter),
              offerType == Some(Str("gift")), Lookup(settings, keys.productUrl))
  }

  /** Different cards use different keys for the same field. */
  lemma OfferKeysDistinct(i: nat, j: nat)
    requires i != j
    ensures OfferKeysOf(i).enable != OfferKeysOf(j).enable
    ensures OfferKeysOf(i).offerType != OfferKeysOf(j).offerType
    ensures OfferKeysOf(i).threshold != OfferKeysOf(j).threshold
    ensures OfferKeysOf(i).textBefore != OfferKeysOf(j).textBefore
    ensures OfferKeysOf(i).textAfter != OfferKeysOf(j).textAfter
    ensures OfferKeysOf(i).productUrl != OfferKeysOf(j).productUrl
  {
    var n, m := IntToString(i + 1), IntToString(j + 1);
    ParseIntOfString(i + 1);
    ParseIntOfString(j + 1);
    assert ("enable_offer" + n)[12..] == n && ("enable_offer" + m)[12..] == m;
    PrefixNumber(n, "_type");
    PrefixNumber(m, "_type");
    PrefixNumber(n, "_threshold");
    PrefixNumber(m, "_threshold");
    PrefixNumber(n, "_text_before");
    PrefixNumber(m, "_text_before");
    PrefixNumber(n, "_text_after");
    PrefixNumber(m, "_text_after");
    PrefixNumber(n, "_product_url");
    PrefixNumber(m, "_product_url");
  }

  /** The number in `"offer" + n + suffix` can be read back: it is the digit
      run after "offer". */
  lemma PrefixNumber(n: string, suffix: string)
    requires n != [] && AllDigits(n, 10) && suffix != [] && !IsRadixDigit(suffix[0], 10)
    ensures DigitRun(("offer" + n + suffix)[5..], 10) == n
  {
    assert ("offer" + n + suffix)[5..] == n + suffix;
    DigitRunSplit(n, suffix);
  }

  lemma {:induction false} DigitRunSplit(n: string, suffix: string)
    requires AllDigits(n, 10) && suffix != [] && !IsRadixDigit(suffix[0], 10)
    ensures DigitRun(n + suffix, 10) == n
  {
    if n != [] {
      assert (n + suffix)[1..] == n[1..] + suffix;
      DigitRunSplit(n[1..], suffix);
    }
  }

  /** The action types every card's keys the way the loader reads them back:
      the enable flag as boolean, the threshold as decimal, the rest as text. */
  lemma OfferKeyTypes(index: nat)
    ensures var keys := OfferKeysOf(index);
            && Classify(Page.classifier, keys.enable) == Boolean
            && Classify(Page.classifier, keys.threshold) == NumberDecimal
            && Classify(Page.classifier, keys.offerType) == SingleLineTextField
            && Classify(Page.classifier, keys.textBefore) == SingleLineTextField
            && Classify(Page.classifier, keys.textAfter) == SingleLineTextField
            && Classify(Page.classifier, keys.productUrl) == SingleLineTextField
  {
    var n := IntToString(index + 1);
    var keys := OfferKeysOf(index);
    assert keys.enable[..12] == BooleanPrefix;
    var o := "offer" + n;
    NotStartsWith(keys.threshold, BooleanPrefix);
    assert keys.threshold[|o| + 1..|o| + 10] == DecimalInfix;
    IncludesAt(keys.threshold, DecimalInfix, |o| + 1);
    NoLetterH(index + 1);
    TextKeyType(keys.offerType);
    TextKeyType(keys.textBefore);
    TextKeyType(keys.textAfter);
    TextKeyType(keys.productUrl);
  }

  /** A key that starts with 'o' and has no 'h' cannot contain "threshold". */
  lemma TextKeyType(key: string)
    requires key != [] && key[0] == 'o' && 'h' !in key
    ensures Classify(Page.classifier, key) == SingleLineTextField
  {
    NotStartsWith(key, BooleanPrefix);
    NotIncludes(key, DecimalInfix, 'h');
  }

  lemma NoLetterH(k: nat)
    ensures 'h' !in IntToString(k)
  {
    var n := IntToString(k);
    forall i | 0 <= i < |n| ensures n[i] != 'h' {
      assert IsRadixDigit(n[i], 10);
    }
  }

  /** The three cards the page renders use exactly the keys the loader
      coerces: their enable flags load as booleans, their thresholds as
      decimals, their other fields as raw strings. */
  lemma OfferKeysLoaded(index: nat)
    requires index < 3
    ensures var keys := OfferKeysOf(index);
            && keys.enable in EnableKeys && keys.threshold in ThresholdKeys
            && keys.offerType !in EnableKeys + ThresholdKeys
            && keys.textBefore !in EnableKeys + ThresholdKeys
            && keys.textAfter !in EnableKeys + ThresholdKeys
            && keys.productUrl !in EnableKeys + ThresholdKeys
  {
    var n := IntToString(index + 1);
    assert n == ["123"[index]];
    KeysLoaded(n);
  }

  lemma KeysLoaded(n: string)
    requires n in ["1", "2", "3"]
    ensures && "enable_offer" + n in EnableKeys && "offer" + n + "_threshold" in ThresholdKeys
            && "offer" + n + "_type" !in EnableKeys + ThresholdKeys
            && "offer" + n + "_text_before" !in EnableKeys + ThresholdKeys
            && "offer" + n + "_text_after" !in EnableKeys + ThresholdKeys
            && "offer" + n + "_product_url" !in EnableKeys + ThresholdKeys
  {
    var o := "offer" + n;
    assert |o| == 6;
    if n == "1" {
      assert "enable_offer" + n == "enable_offer1" && o + "_threshold" == "offer1_threshold";
    } else if n == "2" {
      assert "enable_offer" + n == "enable_offer2" && o + "_threshold" == "offer2_threshold";
    } else {
      assert "enable_offer" + n == "enable_offer3" && o + "_threshold" == "offer3_threshold";
    }
    forall suffix | suffix in ["_type", "_text_before", "_text_after", "_product_url"]
      ensures o + suffix !in EnableKeys + ThresholdKeys
    {
      assert (o + suffix)[0] == 'o' && ((o + suffix)[7] != 't' || (o + suffix)[8] != 'h');
    }
  }

  /** `handleSettingChange` on card i's checkbox: card i is ticked exactly
      when `b` holds and its inputs are enabled exactly then; every value it
      shows stays as it was, and every other card looks the same as before. */
  lemma ToggleOffer(i: nat, j: nat, settings: Obj<Value>, b: bool)
    ensures var after := Put(settings, OfferKeysOf(i).enable, Bool(b));
            && OfferForm(i, after) == OfferForm(i, settings).(checked := b, inputsDisabled := !b)
            && (j != i ==> OfferForm(j, after) == OfferForm(j, settings))
  {
    var ki, kj := OfferKeysOf(i), OfferKeysOf(j);
    assert ki.enable[0] == 'e';
    assert ki.offerType[0] == 'o' && ki.threshold[0] == 'o' && ki.textBefore[0] == 'o';
    assert ki.textAfter[0] == 'o' && ki.productUrl[0] == 'o';
    assert kj.offerType[0] == 'o' && kj.threshold[0] == 'o' && kj.textBefore[0] == 'o';
    assert kj.textAfter[0] == 'o' && kj.productUrl[0] == 'o';
    if j != i {
      OfferKeysDistinct(i, j);
    }
  }

  /** `handleSettingChange` on card i's type: the select shows the new type
      and the product-URL field appears exactly when "gift" is chosen; the
      rest of card i and every other card stay as they were. */
  lemma ChooseOfferType(i: nat, j: nat, settings: Obj<Value>, t: string)
    ensures var after := Put(settings, OfferKeysOf(i).offerType, Str(t));
            && OfferForm(i, after) == OfferForm(i, settings).(offerType := Some(Str(t)), showsProductUrl := t == "gift")
            && (j != i ==> OfferForm(j, after) == OfferForm(j, settings))
  {
    TypeKeyApart(i, j);
    TypeKeyApart(i, i);
    if j != i {
      OfferKeysDistinct(i, j);
    }
  }

  /** A card's type key is no other field's key, on any card. */
  lemma TypeKeyApart(i: nat, j: nat)
    ensures OfferKeysOf(i).offerType != OfferKeysOf(j).enable
    ensures OfferKeysOf(i).offerType != OfferKeysOf(j).threshold
    ensures OfferKeysOf(i).offerType != OfferKeysOf(j).textBefore
    ensures OfferKeysOf(i).offerType != OfferKeysOf(j).textAfter
    ensures OfferKeysOf(i).offerType != OfferKeysOf(j).productUrl
  {
    var ki, kj := OfferKeysOf(i), OfferKeysOf(j);
    var n, m := IntToString(i + 1), IntToString(j + 1);
    assert ki.offerType[0] == 'o' && kj.enable[0] == 'e';
    PrefixNumber(n, "_type");
    PrefixNumber(m, "_threshold");
    PrefixNumber(m, "_text_before");
    PrefixNumber(m, "_text_after");
    PrefixNumber(m, "_product_url");
    if n == m {
      assert |ki.offerType| < |kj.threshold| && |ki.offerType| < |kj.textAfter|;
      assert |ki.offerType| < |kj.textBefore| && |ki.offerType| < |kj.productUrl|;
    }
  }

  /** The page's main edit: a threshold typed into its text field is stored
      as a string and reloaded as parseFloat of the typed text. */
  lemma EditedThresholdReloads(s: Obj<Value>, shopId: Option<string>, userErrors: nat -> bool,
                                store: Stored, index: nat, text: string)
    requires index < 3 && text != ""
    requires |store| + |s| + 1 <= QueryLimit
    ensures var edited := Put(s, OfferKeysOf(index).threshold, Str(text));
            var result := ActionOutcome(Page, FormEntries(edited), shopId, userErrors);
            result.Saved? ==>
              Lookup(LoadedSettings(Page, AfterAction(store, result)), OfferKeysOf(index).threshold) == Some(Decimal(text))
  {
    var key := OfferKeysOf(index).threshold;
    assert Coerce(Page.coercion, key, text) == Decimal(text) by {
      OfferKeysLoaded(index);
      assert key in ThresholdKeys && key !in EnableKeys;
    }
    EditThenLoad(Page, s, shopId, userErrors, store, key, text);
  }
}
