/** The ultimate-pack settings page: the same fields and defaults as the
    bundle-cards page, stored in the "ultimatepack" namespace. */
module SetupUltimatepack {
  import opened Wrappers
  import opened JsText
  import opened SettingsPipeline
  import SetupBundlecard

  const VariantIndexKey := SetupBundlecard.VariantIndexKey
  const SavedMessage := "Ultimate Pack enregistré avec succès!"

  const Page: Schema := Schema("ultimatepack", SetupBundlecard.Defaults, Coercion({VariantIndexKey}, {}, {}),
                               ByKeyLists({VariantIndexKey}, {}), SavedMessage)

  /** The page's `loader`: only a stored `default_variant_index` is parsed as an
      integer, every other stored key stays a string, and keys not stored keep
      their defaults. */
  method Loader(stored: Stored) returns (settings: Obj<Value>)
    ensures settings == LoadedSettings(Page, stored)
    ensures forall k :: Lookup(settings, k) ==
              match Lookup(Fetched(stored), k)
              case Some(raw) => Some(if k == VariantIndexKey
                                     then (match ParseInt(raw) case Some(n) => Num(n) case None => NaN)
                                     else Str(raw))
              case None => Lookup(SetupBundlecard.Defaults, k)
  {
    settings := Load(Page, stored);
  }

  /** The page's `action`: records in the "ultimatepack" namespace, typed
      integer for `default_variant_index` and single-line text otherwise. */
  method Action(form: Form, shopId: Option<string>, userErrors: nat -> bool) returns (result: ActionResult)
    ensures result == ActionOutcome(Page, form, shopId, userErrors)
    ensures ShopIdMissing(shopId) ==> result == Failed(MissingShopId, [])
    ensures result.Saved? && result.sent != [] ==> Message(result) == Some(SavedMessage)
    ensures !ShopIdMissing(shopId) ==>
              forall b, r :: b in result.sent && r in b ==>
                && r.namespace == "ultimatepack"
                && r.ownerId == shopId.value
                && r.value != "" && Lookup(form, r.key) == Some(r.value)
                && r.mtype == (if r.key == VariantIndexKey then NumberInteger else SingleLineTextField)
  {
    result := SettingsPipeline.Action(Page, form, shopId, userErrors);
    ActionCases(Page, form, shopId, userErrors);
    ActionSent(Page, form, shopId, userErrors);
    forall k ensures Classify(Page.classifier, k) == if k == VariantIndexKey then NumberInteger else SingleLineTextField {
      assert k in Page.classifier.integerKeys <==> k == VariantIndexKey;
    }
  }
}
