/** The bundle-cards settings page: the pack product, the default variant, two
    colours and, for each of three packs, a title, a badge and a shipping
    text. Stored as shop metafields in the "bundlecards" namespace. */
module SetupBundlecard {
  import opened Wrappers
  import opened JsText
  import opened SettingsPipeline

  const VariantIndexKey := "default_variant_index"
  const IntegerKeys: set<string> := {VariantIndexKey}

  /** The loader's defaults object (the ultimate-pack page uses the same one). */
  const Defaults: Obj<Value> := [
    ("pack_product", Str("")),
    (VariantIndexKey, Num(1)),
    ("cta_color", Str("#000000")),
    ("badge_color", Str("#000000")),
    ("pack_title_1", Str("Pack 1")),
    ("pack_badge_1", Str("")),
    ("shipping_text_1", Str("✓ Livraison offerte")),
    ("pack_title_2", Str("Pack 2")),
    ("pack_badge_2", Str("POPULAIRE")),
    ("shipping_text_2", Str("✓ Livraison offerte")),
    ("pack_title_3", Str("Pack 3")),
    ("pack_badge_3", Str("MEILLEURE OFFRE")),
    ("shipping_text_3", Str("✓ Livraison offerte"))
  ]

  const SavedMessage := "Cartes Bundle enregistrées avec succès!"

  const Page: Schema := Schema("bundlecards", Defaults, Coercion(IntegerKeys, {}, {}),
                               ByKeyLists(IntegerKeys, {}), SavedMessage)

  /** The page's `loader`: a stored `default_variant_index` goes through
      parseInt, every other stored key stays a string, and keys not stored keep
      their defaults. */
  method Loader(stored: Stored) returns (settings: Obj<Value>)
    ensures settings == LoadedSettings(Page, stored)
    ensures forall k :: Lookup(settings, k) ==
              match Lookup(Fetched(stored), k)
              case Some(raw) => Some(if k == VariantIndexKey
                                     then (match ParseInt(raw) case Some(n) => Num(n) case None => NaN)
                                     else Str(raw))
              case None => Lookup(Defaults, k)
  {
    settings := Load(Page, stored);
  }

  /** The page's `action`: records in the "bundlecards" namespace, typed
      integer for `default_variant_index` and single-line text otherwise. */
  method Action(form: Form, shopId: Option<string>, userErrors: nat -> bool) returns (result: ActionResult)
    ensures result == ActionOutcome(Page, form, shopId, userErrors)
    ensures ShopIdMissing(shopId) ==> result == Failed(MissingShopId, [])
    ensures result.Saved? && result.sent != [] ==> Message(result) == Some(SavedMessage)
    ensures !ShopIdMissing(shopId) ==>
              forall b, r :: b in result.sent && r in b ==>
                && r.namespace == "bundlecards"
                && r.ownerId == shopId.value
                && r.value != "" && Lookup(form, r.key) == Some(r.value)
                && r.mtype == (if r.key == VariantIndexKey then NumberInteger else SingleLineTextField)
  {
    result := SettingsPipeline.Action(Page, form, shopId, userErrors);
    ActionCases(Page, form, shopId, userErrors);
    ActionSent(Page, form, shopId, userErrors);
    forall k ensures Classify(Page.classifier, k) == if k == VariantIndexKey then NumberInteger else SingleLineTextField {
      assert k in Page.classifier.integerKeys <==> k == VariantIndexKey;
    }
  }

  /** An integer variant index saved as `String(n)` loads back as `n`. */
  lemma VariantIndexRoundTrip(n: int)
    ensures Classify(Page.classifier, VariantIndexKey) == NumberInteger
    ensures Coerce(Page.coercion, VariantIndexKey, FormString(Num(n))) == Num(n)
  {
    CoerceFormString(Page.coercion, VariantIndexKey, Num(n));
  }

  // ------------------------------------------------------------ PackForm

  /** The settings keys a pack form reads and writes. */
  datatype PackKeys = PackKeys(title: string, badge: string, shipping: string)

  /** `packNumber = index + 1` and the keys `pack_title_${packNumber}`,
      `pack_badge_${packNumber}`, `shipping_text_${packNumber}`. */
  function PackKeysOf(index: nat): PackKeys {
    var n := IntToString(index + 1);
    PackKeys("pack_title_" + n, "pack_badge_" + n, "shipping_text_" + n)
  }

  /** What a pack form shows: its three field values and the preview sentence. */
  datatype PackCard = PackCard(keys: PackKeys, title: Option<Value>, badge: Option<Value>,
                               shipping: Option<Value>, preview: string)

  /** The preview sentence up to the quoted title: `Ce pack apparaîtra avec le titre "{title}" `. */
  function Lead(title: Option<Value>): string {
    "Ce pack apparaîtra avec le titre \"" + RenderText(title) + "\" "
  }

  /** `et le badge "${badge}"`, which the preview appends when the badge is
      truthy; the template literal writes `String(badge)`. */
  function BadgeNote(badge: Option<Value>): string {
    "et le badge \"" + JsString(badge) + "\""
  }

  function PackForm(index: nat, settings: Obj<Value>): (card: PackCard)
    ensures card.keys == PackKeysOf(index)
    ensures card.title == Lookup(settings, card.keys.title)
    ensures card.badge == Lookup(settings, card.keys.badge)
    ensures card.shipping == Lookup(settings, card.keys.shipping)
    ensures card.preview == if Truthy(card.badge) then Lead(card.title) + BadgeNote(card.badge) else Lead(card.title)
  {
    var keys := PackKeysOf(index);
    var title := Lookup(settings, keys.title);
    var badge := Lookup(settings, keys.badge);
    PackCard(keys, title, badge, Lookup(settings, keys.shipping),
             if Truthy(badge) then Lead(title) + BadgeNote(badge) else Lead(title))
  }

  /** Different forms use different keys for the same field. */
  lemma PackKeysDistinct(i: nat, j: nat)
    requires i != j
    ensures PackKeysOf(i).title != PackKeysOf(j).title
    ensures PackKeysOf(i).badge != PackKeysOf(j).badge
    ensures PackKeysOf(i).shipping != PackKeysOf(j).shipping
  {
    var n, m := IntToString(i + 1), IntToString(j + 1);
    ParseIntOfString(i + 1);
    ParseIntOfString(j + 1);
    assert ("pack_title_" + n)[11..] == n && ("pack_title_" + m)[11..] == m;
    assert ("pack_badge_" + n)[11..] == n && ("pack_badge_" + m)[11..] == m;
    assert ("shipping_text_" + n)[14..] == n && ("shipping_text_" + m)[14..] == m;
  }

  /** Every pack-form key is saved as single-line text and loaded back as its
      raw string. */
  lemma PackKeyTypes(index: nat, raw: string)
    ensures var keys := PackKeysOf(index);
            && Classify(Page.classifier, keys.title) == SingleLineTextField
            && Classify(Page.classifier, keys.badge) == SingleLineTextField
            && Classify(Page.classifier, keys.shipping) == SingleLineTextField
            && Coerce(Page.coercion, keys.title, raw) == Str(raw)
            && Coerce(Page.coercion, keys.badge, raw) == Str(raw)
            && Coerce(Page.coercion, keys.shipping, raw) == Str(raw)
  {
    var keys := PackKeysOf(index);
    assert keys.title[0] == 'p' && keys.badge[0] == 'p' && keys.shipping[0] == 's';
  }

  /** `handleSettingChange` on form i's badge: the preview mentions the badge
      exactly when it is not empty, the title is unchanged, and every other
      form looks the same as before. */
  lemma EditBadge(i: nat, j: nat, settings: Obj<Value>, badge: string)
    ensures var after := Put(settings, PackKeysOf(i).badge, Str(badge));
            && PackForm(i, after).badge == Some(Str(badge))
            && PackForm(i, after).title == PackForm(i, settings).title
            && PackForm(i, after).shipping == PackForm(i, settings).shipping
            && (badge != "" <==> PackForm(i, after).preview != Lead(PackForm(i, after).title))
            && (j != i ==> PackForm(j, after) == PackForm(j, settings))
  {
    BadgeKeyApart(i, i);
    BadgeKeyApart(i, j);
    if j != i {
      PackKeysDistinct(i, j);
    }
    var card := PackForm(i, Put(settings, PackKeysOf(i).badge, Str(badge)));
    if badge != "" {
      assert |card.preview| > |Lead(card.title)|;
    }
  }

  /** A form's badge key is neither a title key nor a shipping-text key of any form. */
  lemma BadgeKeyApart(i: nat, j: nat)
    ensures PackKeysOf(i).badge != PackKeysOf(j).title
    ensures PackKeysOf(i).badge != PackKeysOf(j).shipping
  {
    var ki, kj := PackKeysOf(i), PackKeysOf(j);
    assert ki.badge[5] == 'b' && kj.title[5] == 't' && ki.badge[0] == 'p' && kj.shipping[0] == 's';
  }

  /** "Leave empty if you do not want a badge": submitting an empty badge
      writes nothing, so after saving and reloading the badge is whatever the
      page loaded before, not "". */
  lemma EmptiedBadgeReloads(s: Obj<Value>, shopId: Option<string>, userErrors: nat -> bool, store: Stored, i: nat)
    requires |store| + |s| <= QueryLimit
    requires Lookup(s, PackKeysOf(i).badge) == Some(Str(""))
    ensures var result := ActionOutcome(Page, FormEntries(s), shopId, userErrors);
            result.Saved? ==>
              Lookup(LoadedSettings(Page, AfterAction(store, result)), PackKeysOf(i).badge) ==
                Lookup(LoadedSettings(Page, store), PackKeysOf(i).badge)
  {
    SaveThenLoad(Page, s, shopId, userErrors, store, PackKeysOf(i).badge);
  }
}
