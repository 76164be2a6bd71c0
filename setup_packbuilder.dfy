/** The pack-builder settings page: limits on the pack size, colours, the
    discount and bulk-discount rules, the texts and three display switches.
    Stored as shop metafields in the "packbuilder" namespace. */
module SetupPackbuilder {
  import opened Wrappers
  import opened JsText
  import opened SettingsPipeline

  const IntegerKeys: set<string> :=
    {"max_products_per_pack", "min_products_per_pack", "discount_value", "bulk_discount_threshold", "bulk_discount_value"}
  const BooleanKeys: set<string> :=
    {"builder_enabled", "bulk_discount_enabled", "show_individual_prices", "show_total_savings", "allow_quantity_change"}

  /** The loader's defaults object. */
  const Defaults: Obj<Value> := [
    ("builder_enabled", Bool(true)),
    ("max_products_per_pack", Num(5)),
    ("min_products_per_pack", Num(2)),
    ("primary_color", Str("#000000")),
    ("secondary_color", Str("#f5f5f5")),
    ("button_text", Str("Créer mon pack")),
    ("discount_type", Str("percentage")),
    ("discount_value", Num(10)),
    ("bulk_discount_enabled", Bool(false)),
    ("bulk_discount_threshold", Num(3)),
    ("bulk_discount_value", Num(15)),
    ("pack_title", Str("Créez votre pack personnalisé")),
    ("pack_description", Str("Sélectionnez vos produits favoris et économisez")),
    ("empty_pack_message", Str("Votre pack est vide, ajoutez des produits")),
    ("show_individual_prices", Bool(true)),
    ("show_total_savings", Bool(true)),
    ("allow_quantity_change", Bool(true))
  ]

  const SavedMessage := "Pack Builder configuré avec succès!"

  const Page: Schema := Schema("packbuilder", Defaults, Coercion(IntegerKeys, BooleanKeys, {}),
                               ByKeyLists(IntegerKeys, BooleanKeys), SavedMessage)

  /** The page's `loader`: the five integer keys go through parseInt, the five
      boolean keys load as `value === 'true'`, other stored keys stay strings,
      and keys not stored keep their defaults. */
  method Loader(stored: Stored) returns (settings: Obj<Value>)
    ensures settings == LoadedSettings(Page, stored)
    ensures forall k :: Lookup(settings, k) ==
              match Lookup(Fetched(stored), k)
              case Some(raw) => Some(if k in IntegerKeys then (match ParseInt(raw) case Some(n) => Num(n) case None => NaN)
                                     else if k in BooleanKeys then Bool(raw == "true")
                                     else Str(raw))
              case None => Lookup(Defaults, k)
  {
    settings := Load(Page, stored);
  }

  /** The page's `action`: records in the "packbuilder" namespace, typed
      integer for the five integer keys, boolean for the five boolean keys and
      single-line text otherwise. */
  method Action(form: Form, shopId: Option<string>, userErrors: nat -> bool) returns (result: ActionResult)
    ensures result == ActionOutcome(Page, form, shopId, userErrors)
    ensures ShopIdMissing(shopId) ==> result == Failed(MissingShopId, [])
    ensures result.Saved? && result.sent != [] ==> Message(result) == Some(SavedMessage)
    ensures !ShopIdMissing(shopId) ==>
              forall b, r :: b in result.sent && r in b ==>
                && r.namespace == "packbuilder"
                && r.ownerId == shopId.value
                && r.value != "" && Lookup(form, r.key) == Some(r.value)
                && r.mtype == (if r.key in IntegerKeys then NumberInteger
                               else if r.key in BooleanKeys then Boolean
                               else SingleLineTextField)
  {
    result := SettingsPipeline.Action(Page, form, shopId, userErrors);
    ActionCases(Page, form, shopId, userErrors);
    ActionSent(Page, form, shopId, userErrors);
  }

  /** The two key lists are disjoint, so each key has exactly one type, and the
      action's type is the one the loader reads the key back as. */
  lemma TypesAgreeWithLoader(k: string)
    ensures IntegerKeys !! BooleanKeys
    ensures Classify(Page.classifier, k) == NumberInteger <==> k in Page.coercion.intKeys
    ensures Classify(Page.classifier, k) == Boolean <==> k in Page.coercion.boolKeys
    ensures Classify(Page.classifier, k) == SingleLineTextField <==>
              k !in Page.coercion.intKeys && k !in Page.coercion.boolKeys
  {
  }

  /** A boolean saved as `String(b)` loads back as `b`. */
  lemma BooleanRoundTrip(k: string, b: bool)
    requires k in BooleanKeys
    ensures Coerce(Page.coercion, k, FormString(Bool(b))) == Bool(b)
  {
    TypesAgreeWithLoader(k);
  }

  /** An integer saved as `String(n)` loads back as `n`. */
  lemma IntegerRoundTrip(k: string, n: int)
    requires k in IntegerKeys
    ensures Coerce(Page.coercion, k, FormString(Num(n))) == Num(n)
  {
    CoerceFormString(Page.coercion, k, Num(n));
  }
}
