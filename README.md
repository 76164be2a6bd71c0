# EcomKit in Dafny

EcomKit is a Shopify app with two parts: a set of admin pages where a merchant configures storefront extensions, and a storefront cart drawer. This project models the three parts of it that hold logic, and proves properties of each.

- **The cart drawer** (`extensions/BoostCartExtension/assets/cart-drawer.js`, module `CartDrawer`). This is the storefront script that:
  - formats amounts in euros;
  - keeps one bonus-gift line in the cart in step with the cart total (`checkBonus`);
  - draws a progress bar and two threshold messages (free shipping and the gift);
  - rebuilds the drawer's item list;
  - shows and hides the drawer.

  Amounts are integer cents and the thresholds are `real`. The page state the script writes is a class, `CartDrawer.CartDrawer`. The cart request `checkBonus` would post is returned as a value.
- **The settings pages** (`app/routes/app.offers-settings.jsx`, `app.setup-bundlecard.jsx`, `app.setup-packbuilder.jsx`, `app.setup-ultimatepack.jsx`). The four pages share one pipeline, module `SettingsPipeline`. A page's `loader` overlays the stored metafields on a defaults object, coercing each value by its key. A page's `action` does the following:
  - collects the submitted form into an object;
  - drops empty values;
  - types each key as a metafield type;
  - slices the records into batches of 25;
  - sends the batches in order, stopping at the first one whose call reports user errors.

  Each page is an instance of the pipeline (`OffersSettings`, `SetupBundlecard`, `SetupPackbuilder`, `SetupUltimatepack`), with its namespace, defaults, coercion, type rule and success message. The offers page also models its form component (`OfferForm`) and its `handleSettingChange` and `handleSubmit` handlers. The bundle-cards file defines the same kind of form (`PackForm`) and handlers; they are modelled too, although that page never renders them.
- **The app's root `loader`** (`app/routes/app.jsx`, module `AppLoader`). It decides who may open the embedded app:
  - the development store gets free access;
  - a shop without an active payment is redirected to the plan selection page;
  - otherwise it reports the subscription's status and the remaining trial days;
  - after an error, it retries once on a simpler path.

Shared JavaScript behaviour lives in `JsText`:
- `String(n)` for integers;
- `parseInt`;
- `Number(s)`, for the loose `==` between a numeric variant id and the attribute text: decimal with fraction and exponent, `0b`/`0o`/`0x` literals, surrounding space;
- `startsWith`, `includes`, `indexOf`;
- `replace` with a string pattern.

`Wrappers` holds `Option`.

JavaScript objects are modelled as lists of entries in insertion order (`SettingsPipeline.Obj`). Reading a key gives the value of its last entry. Assigning a key replaces its value in place, or appends the key when it is new. GraphQL, `billing.check`, `authenticate.admin` and the cart endpoints are not modelled as calls. What they return becomes an input: the stored metafields, the shop id, which batch calls report user errors, the session and the billing check. The request `checkBonus` would post becomes an output.

## Model

| member | source | states |
|---|---|---|
| CartDrawer.ThresholdOr | extensions/BoostCartExtension/assets/cart-drawer.js:6-7 | `parseFloat(attr) \|\| fallback`: a NaN (missing or non-numeric attribute) or zero gives the fallback, any other number is kept |
| CartDrawer.ConfigFromAttributes | extensions/BoostCartExtension/assets/cart-drawer.js:6-8 | the drawer's configuration takes each threshold through the fallback and keeps the variant id attribute; neither threshold is ever zero |
| CartDrawer.DefaultThresholds | extensions/BoostCartExtension/assets/cart-drawer.js:6-7 | missing, non-numeric or zero attributes give thresholds 69 and 100, which are whole cents |
| CartDrawer.FormatMoneyRoundTrip | extensions/BoostCartExtension/assets/cart-drawer.js:11-13 | for every integer number of cents, the text formatMoney writes (sign, euros, comma, two digits, '€') reads back to exactly those cents |
| CartDrawer.FormatMoneyExample | extensions/BoostCartExtension/assets/cart-drawer.js:11-13 | 1400 cents is written "14,00€" |
| CartDrawer.FindBonusLine | extensions/BoostCartExtension/assets/cart-drawer.js:49 | `items.find`: the index returned is the first line whose variant id loosely equals the configured id; none is returned only when no line matches |
| CartDrawer.CheckBonus | extensions/BoostCartExtension/assets/cart-drawer.js:36-56 | no request without a configured id; add `{id, quantity: 1}` exactly when the total reaches the bonus threshold and no line has the gift; change the first gift line to quantity 0 exactly when the total is below the threshold and a gift line exists; otherwise no request |
| CartDrawer.Convergence | extensions/BoostCartExtension/assets/cart-drawer.js:42-54 | with unique line keys, non-negative prices and at most one gift line, applying the one request checkBonus issued and running checkBonus again issues nothing |
| CartDrawer.RemovedBonusSettles | extensions/BoostCartExtension/assets/cart-drawer.js:48-54 | deleting the line checkBonus names leaves no gift line in the cart and a total that did not grow |
| CartDrawer.ProgressWidth | extensions/BoostCartExtension/assets/cart-drawer.js:63-64 | for a non-negative total and a positive bonus threshold the width lies in [0, 100], and it is 100 exactly when the total reaches the bonus threshold |
| CartDrawer.ThresholdNotice | extensions/BoostCartExtension/assets/cart-drawer.js:67-86 | the message is the unlocked text with 'success' exactly when the total reaches the threshold, otherwise it starts with "Encore " and ends with the threshold's suffix |
| CartDrawer.ThresholdNoticeAmount | extensions/BoostCartExtension/assets/cart-drawer.js:69-70 | the amount shown in a pending message reads back as exactly the cents still missing |
| CartDrawer.ShippingNotice | extensions/BoostCartExtension/assets/cart-drawer.js:66-75 | the shipping message is marked 'success' exactly when the total reaches the free-shipping threshold |
| CartDrawer.BonusNotice | extensions/BoostCartExtension/assets/cart-drawer.js:77-86 | the gift message is marked 'success' exactly when checkBonus considers the gift due |
| CartDrawer.ShippingNoticeExample | extensions/BoostCartExtension/assets/cart-drawer.js:67-71 | with the default 69 € threshold and a 55 € cart the text is "Encore 14,00€ pour livraison offerte", without 'success' |
| CartDrawer.ShowNotice | extensions/BoostCartExtension/assets/cart-drawer.js:70-74 | writing a message sets the text, makes 'success' present exactly for an unlocked message, and leaves every other class as it was |
| CartDrawer.ShowNoticeIdempotent | extensions/BoostCartExtension/assets/cart-drawer.js:69-75 | writing the same message twice leaves the element as writing it once |
| CartDrawer.DrawerContent | extensions/BoostCartExtension/assets/cart-drawer.js:16-32 | an empty cart gives only the "Votre panier est vide." block; otherwise one item block per line in cart order; the total line is always last |
| CartDrawer.CartDrawer.constructor | extensions/BoostCartExtension/assets/cart-drawer.js:1-8 | the drawer state starts from its configuration, its display and the elements present on the page |
| CartDrawer.CartDrawer.UpdateDrawer | extensions/BoostCartExtension/assets/cart-drawer.js:16-33 | the loop leaves exactly DrawerContent(cart) in the drawer and changes nothing else |
| CartDrawer.CartDrawer.UpdateProgressBar | extensions/BoostCartExtension/assets/cart-drawer.js:59-87 | without a progress bar nothing changes; otherwise the width and both messages are written, and it fails (TypeError) exactly when a message element is missing, leaving the later one untouched |
| CartDrawer.CartDrawer.Refresh | extensions/BoostCartExtension/assets/cart-drawer.js:90-99 | a fresh cart redraws the content and yields checkBonus's request; without a progress bar nothing else changes; otherwise the width, the shipping message and the gift message are written from the fresh cart, and it fails exactly when a message element is missing |
| CartDrawer.Toggled | extensions/BoostCartExtension/assets/cart-drawer.js:110 | 'block' becomes 'none' and every other display value becomes 'block' |
| CartDrawer.ToggleTwice | extensions/BoostCartExtension/assets/cart-drawer.js:110 | two toggles restore a drawer that was shown or hidden |
| CartDrawer.CartDrawer.ToggleClick | extensions/BoostCartExtension/assets/cart-drawer.js:106-112 | a click on the toggle flips the display and nothing else |
| CartDrawer.CartDrawer.DocumentClick | extensions/BoostCartExtension/assets/cart-drawer.js:115-119 | a click outside both the drawer and the toggle hides the drawer; any other click changes nothing |
| JsText.ParseIntOfString | app/routes/app.setup-bundlecard.jsx:95 | `parseInt(String(n))` is `n` for every integer |
| JsText.StringToIntegerOfString | extensions/BoostCartExtension/assets/cart-drawer.js:39 | a variant id attribute written as `String(n)` loosely equals exactly the number `n` |
| JsText.ExponentSpelling | extensions/BoostCartExtension/assets/cart-drawer.js:39 | the attribute "1e3" loosely equals the variant id 1000 |
| JsText.FractionSpelling | extensions/BoostCartExtension/assets/cart-drawer.js:39 | the attribute "1000.0" loosely equals the variant id 1000 |
| JsText.FractionalSpelling | extensions/BoostCartExtension/assets/cart-drawer.js:39 | the attribute "12.5" equals no integer variant id |
| JsText.HexSpelling | extensions/BoostCartExtension/assets/cart-drawer.js:39 | the attribute "0x3E8" loosely equals the variant id 1000 |
| JsText.BinarySpelling | extensions/BoostCartExtension/assets/cart-drawer.js:39 | the attribute "0b101" loosely equals the variant id 5 |
| JsText.InfinitySpelling | extensions/BoostCartExtension/assets/cart-drawer.js:39 | the attribute "Infinity" equals no integer variant id |
| JsText.LetterStart | extensions/BoostCartExtension/assets/cart-drawer.js:49 | a text that starts with anything but a digit, '.', 'e' or 'E' equals no integer variant id |
| JsText.IndexFrom | app/routes/app.offers-settings.jsx:165 | the position found is the first occurrence of the pattern; none is found only when the pattern occurs nowhere |
| JsText.ReplaceFirstOfSuffix | app/routes/app.jsx:48 | removing ".myshopify.com" from a handle without dots followed by the suffix gives back the handle |
| SettingsPipeline.Put | app/routes/app.offers-settings.jsx:339-344 | assigning one key: that key reads the new value, every other key reads as before, an existing key keeps its place, a new one is appended, and keys stay unique |
| SettingsPipeline.PutAll | app/routes/app.offers-settings.jsx:127-129 | assigning entries in order: a key reads the last value the entries give it, else its old value; keys already present keep their places |
| SettingsPipeline.SettingsOf | app/routes/app.offers-settings.jsx:127-129 | the form becomes an object with one entry per key, where a later entry overwrites an earlier one with the same key |
| SettingsPipeline.CollectSettings | app/routes/app.offers-settings.jsx:126-129 | the `for … of` loop over the form entries builds exactly SettingsOf(form) |
| SettingsPipeline.Coerce | app/routes/app.offers-settings.jsx:82-103 | a stored value is kept as its raw string for a key in no list, read as `value === 'true'` for a boolean key, and as parseInt (a number or NaN) for an integer key |
| SettingsPipeline.CoerceFormString | app/routes/app.setup-packbuilder.jsx:90-110 | a value of the shape its key is coerced to (integer, boolean, decimal or string) survives `String(v)` followed by the loader's coercion |
| SettingsPipeline.Classify | app/routes/app.offers-settings.jsx:160-167 | key lists: integer exactly for an integer key, boolean exactly for a boolean key that is not an integer key, never decimal; key pattern: boolean exactly when the key starts with the prefix, decimal exactly when it does not but contains the infix, never integer |
| SettingsPipeline.Fetched | app/routes/app.offers-settings.jsx:65 | the metafields query returns at most the first 100 stored metafields, in order |
| SettingsPipeline.Coerced | app/routes/app.offers-settings.jsx:82-102 | each returned node reads as its raw value coerced by its key |
| SettingsPipeline.LoadedSettings | app/routes/app.offers-settings.jsx:82-103 | a key the query returned reads as its last stored value coerced by key; every other key keeps its default; the defaults' keys come first, in order; keys stay unique |
| SettingsPipeline.Load | app/routes/app.offers-settings.jsx:82-102 | the loader's `forEach` over the nodes builds exactly LoadedSettings |
| SettingsPipeline.LoadStep | app/routes/app.offers-settings.jsx:82-102 | one turn of the loader's loop assigns exactly one more coerced node |
| SettingsPipeline.RecordsOf | app/routes/app.offers-settings.jsx:153-176 | one record per entry with a non-empty value, carrying the page's namespace, the shop id, the key's type and the entry's value; every non-empty entry has its record |
| SettingsPipeline.RecordsOfConcat | app/routes/app.offers-settings.jsx:153-176 | entries become records independently and in entry order |
| SettingsPipeline.BuildRecords | app/routes/app.offers-settings.jsx:153-176 | the record-building loop builds exactly RecordsOf |
| SettingsPipeline.Batches | app/routes/app.offers-settings.jsx:190-193 | no batch is empty or longer than 25, all but the last hold exactly 25, and there are ceil(n/25) of them |
| SettingsPipeline.BatchesFlatten | app/routes/app.offers-settings.jsx:190-193 | concatenating the batches gives back the records: each is sent once, in order |
| SettingsPipeline.SliceBatches | app/routes/app.offers-settings.jsx:190-193 | the `i += 25` loop builds exactly Batches(records) |
| SettingsPipeline.FirstFailing | app/routes/app.offers-settings.jsx:198-231 | the batch found is the first whose call reported user errors; none is found only when no call did |
| SettingsPipeline.SendBatches | app/routes/app.offers-settings.jsx:198-231 | batches are sent in order up to and including the first that reports user errors, and all of them when none does |
| SettingsPipeline.Message | app/routes/app.offers-settings.jsx:234-246 | a success answers its message; a missing shop id answers the failure prefix followed by "Impossible de récupérer l'ID de la boutique" |
| SettingsPipeline.Action | app/routes/app.offers-settings.jsx:118-247 | the action method computes exactly ActionOutcome |
| SettingsPipeline.ActionCases | app/routes/app.offers-settings.jsx:145-246 | without a shop id nothing is sent; with no records the answer is "Aucune modification à enregistrer"; a success sent every record once, in order, with the page's message; a failure is the first batch with user errors, after every batch up to it was sent |
| SettingsPipeline.ActionSent | app/routes/app.offers-settings.jsx:153-231 | every batch sent holds 1 to 25 records, each one of the form's non-empty entries with the namespace, the shop id, its key's type and the last value the form gave the key |
| SettingsPipeline.FormEntries | app/routes/app.offers-settings.jsx:354-356 | the form data has one entry per settings entry, and each key reads as `String` of its value |
| SettingsPipeline.HandleSubmit | app/routes/app.offers-settings.jsx:347-360 | the `forEach` that appends every entry builds exactly FormEntries(settings) |
| SettingsPipeline.RecordsLookup | app/routes/app.offers-settings.jsx:153-176 | the pairs written hold a key exactly when its value is not empty, with that value |
| SettingsPipeline.RecordsThenLoad | app/routes/app.offers-settings.jsx:153-158 | for any settings object: once its records are written, a key whose value has a non-empty string form reloads as that string coerced by the key; an empty or absent value keeps what the page loaded before, so emptying a field never clears it |
| SettingsPipeline.SaveThenLoad | app/routes/app.offers-settings.jsx:145-246 | the same round trip through the action itself: when the action answers that it saved, the batches it sent reload every key that way; when the shop id is missing nothing is written and every key loads as before |
| SettingsPipeline.SaveThenLoadWellTyped | app/routes/app.offers-settings.jsx:153-158 | after a successful save, values already of the shape their keys load as (booleans, integers, decimals, strings) come back unchanged |
| SettingsPipeline.EditThenLoad | app/routes/app.offers-settings.jsx:339-356 | a field edited to a non-empty text, submitted and saved by the action, reloads as that text coerced by its key |
| OffersSettings.Loader | app/routes/app.offers-settings.jsx:82-103 | stored enable flags load as `value === 'true'`, stored thresholds as parseFloat of the value, other stored keys as their raw string; keys not stored keep the defaults |
| OffersSettings.Action | app/routes/app.offers-settings.jsx:118-247 | records go to the "ecomkit" namespace with the shop id; boolean exactly for keys starting with "enable_offer"; decimal exactly for other keys containing "threshold"; the success message is "Offres enregistrées avec succès!" |
| OffersSettings.OfferForm | app/routes/app.offers-settings.jsx:256-315 | the card reads the keys of offer index+1; the checkbox is checked exactly when the enable value is truthy; the other inputs are disabled exactly when it is not; the select, the two text fields and the product-URL field show the stored values; the product-URL field exists exactly when the type is "gift"; the threshold field shows `String(threshold)` |
| OffersSettings.OfferKeysDistinct | app/routes/app.offers-settings.jsx:256-264 | different cards use different keys for the same field |
| OffersSettings.OfferKeyTypes | app/routes/app.offers-settings.jsx:160-167 | every card's enable key is typed boolean, its threshold decimal, and its type, texts and product URL single-line text |
| OffersSettings.OfferKeysLoaded | app/routes/app.offers-settings.jsx:86-101 | the three cards' enable keys and threshold keys are exactly the ones the loader coerces, and their other keys are loaded raw |
| OffersSettings.ToggleOffer | app/routes/app.offers-settings.jsx:339-344 | ticking or unticking a card's checkbox sets its checked and disabled state; every value the card shows, and every other card, stays as it was |
| OffersSettings.ChooseOfferType | app/routes/app.offers-settings.jsx:306-315 | choosing a card's type makes the select show it and the product-URL field appear exactly for "gift"; the rest of the card, and every other card, stays as it was |
| OffersSettings.TypeKeyApart | app/routes/app.offers-settings.jsx:259-264 | a card's type key is no other field's key, on any card |
| OffersSettings.EditedThresholdReloads | app/routes/app.offers-settings.jsx:284-288 | a threshold typed into its text field and submitted, when the action answers that it saved, reloads as parseFloat of the typed text |
| SetupBundlecard.Loader | app/routes/app.setup-bundlecard.jsx:89-102 | a stored `default_variant_index` goes through parseInt; other stored keys stay strings; keys not stored keep the defaults |
| SetupBundlecard.Action | app/routes/app.setup-bundlecard.jsx:117-244 | records go to the "bundlecards" namespace; integer exactly for `default_variant_index`, text otherwise; the success message is "Cartes Bundle enregistrées avec succès!" |
| SetupBundlecard.VariantIndexRoundTrip | app/routes/app.setup-bundlecard.jsx:160-164 | `default_variant_index` is saved as an integer, and an integer saved as `String(n)` loads back as `n` |
| SetupBundlecard.PackForm | app/routes/app.setup-bundlecard.jsx:435-479 | the form reads `pack_title_N`, `pack_badge_N` and `shipping_text_N` with N = index+1; the preview names the badge exactly when the badge is truthy |
| SetupBundlecard.PackKeysDistinct | app/routes/app.setup-bundlecard.jsx:436-441 | different forms use different keys for the same field |
| SetupBundlecard.PackKeyTypes | app/routes/app.setup-bundlecard.jsx:436-441 | every pack-form key is saved as single-line text and loaded back as its raw string |
| SetupBundlecard.EditBadge | app/routes/app.setup-bundlecard.jsx:505-510 | editing a form's badge makes the preview mention it exactly when it is not empty and changes nothing else on any form |
| SetupBundlecard.BadgeKeyApart | app/routes/app.setup-bundlecard.jsx:439-441 | a badge key is neither a title key nor a shipping-text key of any form |
| SetupBundlecard.EmptiedBadgeReloads | app/routes/app.setup-bundlecard.jsx:152-157 | an emptied badge is not written, so after a successful save and a reload the badge is what the page loaded before, not "" |
| SetupPackbuilder.Loader | app/routes/app.setup-packbuilder.jsx:86-111 | the five integer keys go through parseInt, the five boolean keys load as `value === 'true'`, other stored keys stay strings; keys not stored keep the defaults |
| SetupPackbuilder.Action | app/routes/app.setup-packbuilder.jsx:126-255 | records go to the "packbuilder" namespace; integer for the five integer keys, boolean for the five boolean keys, text otherwise; the success message is "Pack Builder configuré avec succès!" |
| SetupPackbuilder.TypesAgreeWithLoader | app/routes/app.setup-packbuilder.jsx:169-175 | the two key lists are disjoint, and a key's type is integer, boolean or text exactly when the loader coerces it that way |
| SetupPackbuilder.BooleanRoundTrip | app/routes/app.setup-packbuilder.jsx:104 | a boolean saved as `String(b)` loads back as `b` |
| SetupPackbuilder.IntegerRoundTrip | app/routes/app.setup-packbuilder.jsx:96 | an integer saved as `String(n)` loads back as `n` |
| SetupUltimatepack.Loader | app/routes/app.setup-ultimatepack.jsx:90-103 | only `default_variant_index` goes through parseInt; other stored keys stay strings; keys not stored keep the defaults, which are the bundle-cards page's |
| SetupUltimatepack.Action | app/routes/app.setup-ultimatepack.jsx:118-245 | records go to the "ultimatepack" namespace; integer exactly for `default_variant_index`; the success message is "Ultimate Pack enregistré avec succès!" |
| AppLoader.StoreHandleOfDomain | app/routes/app.jsx:48 | the store handle of `handle.myshopify.com` is `handle` |
| AppLoader.TrialActive | app/routes/app.jsx:60 | the trial is active exactly when the first subscription exists and is a test subscription |
| AppLoader.Status | app/routes/app.jsx:61 | the first subscription's status, or 'UNKNOWN' when there is none or it is empty |
| AppLoader.TrialDaysRemaining | app/routes/app.jsx:64-70 | only for an active trial with a non-zero length and a readable creation date; never negative; at most the trial length once the trial has started; during the d-th whole day after creation (d = floor(elapsed / 86400000), also for a clock before the creation date) it is max(0, trialDays - d) |
| AppLoader.Checked | app/routes/app.jsx:45-81 | no active payment redirects to the pricing page of the shop's handle; an active payment grants access |
| AppLoader.Fallback | app/routes/app.jsx:86-113 | the retried path throws when authentication or billing throws again, and never reports trial days |
| AppLoader.Loader | app/routes/app.jsx:11-115 | the development store gets free access with status 'DEVELOPMENT'; access is granted only on an active payment; no active payment redirects to the pricing page on both paths; the retried path reports no trial days |
| AppLoader.ActiveSubscriptionView | app/routes/app.jsx:58-81 | with an active payment, the view grants access and reports the first subscription, its status or 'UNKNOWN', its test flag or false, and non-negative trial days |
| AppLoader.RedirectUrlOfDomain | app/routes/app.jsx:48-56 | a shop `handle.myshopify.com` without an active payment is sent to `https://admin.shopify.com/store/handle/charges/ecom-kit-2/pricing_plans` |
| AppLoader.PricingUrlText | app/routes/app.jsx:53 | the pricing URL for a handle, written out with the app handle "ecom-kit-2" |

## Left out

- Network and platform calls (`fetch('/cart.js')`, the cart endpoints, `admin.graphql`, `billing.check`, `authenticate.admin`) are inputs or outputs, not calls. A GraphQL call that throws is not modelled separately: only the user-errors outcome of a batch is.
- The settings loaders' `catch` branch and the error JSON it returns are not modelled, because the stored metafields are given as data.
- SettingsPipeline.Message: a user-errors failure embeds `JSON.stringify(errors)` of the platform's error list. That list is not modelled, so such a failure has no message text here.
- The offer thresholds' `parseFloat` is kept symbolic as `Decimal(raw)`. SettingsPipeline.FormString writes it back as `raw`, which matches JavaScript only when `raw` is already a canonical number ("55", "12.5"). SettingsPipeline.Truthy treats only "0" and "NaN" as falsy decimals under the same assumption.
- CartDrawer.ShippingNotice, CartDrawer.BonusNotice, CartDrawer.CartDrawer.UpdateProgressBar and CartDrawer.CartDrawer.Refresh require whole-cent thresholds (threshold·100 integral). `toFixed` on a fractional amount of cents and floating-point rounding are not modelled.
- CartDrawer.ProgressWidth requires a non-zero bonus threshold. The `|| 100.0` fallback always provides one (CartDrawer.ConfigFromAttributes).
- JavaScript numbers are unbounded integers or exact reals here. Precision loss above 2^53 is not modelled.
- JsText.StringToInteger reads a text's exact value, so a text beyond the double range ("1e400", Infinity in JavaScript) reads as an integer, and two long digit strings that round to the same double are told apart.
- The drawer's HTML string becomes a list of segments. HTML escaping and `innerHTML` parsing are left out.
- Overlapping `fetchCart` chains from repeated `cart:refresh` events, event-listener wiring and the `.then(fetchCart)` re-run are left out. CartDrawer.Convergence states what the re-run decides.
- `console.log`, `currentTimestamp`, `process.env.SHOPIFY_API_KEY` and the redirect's `target: "_top"` are not modelled.
- The platform's `metafieldsSet` is modelled as an upsert by key (`SettingsPipeline.Written`). SettingsPipeline.SaveThenLoad assumes the saved page stays within the query's 100-metafield window.
- Whether the platform accepts a value is an input (`userErrors`, per batch), not derived from the value: a text such as "1e" or "-" under `number_decimal` is accepted or refused as that input says. SettingsPipeline.SaveThenLoad, SettingsPipeline.SaveThenLoadWellTyped, SettingsPipeline.EditThenLoad, OffersSettings.EditedThresholdReloads and SetupBundlecard.EmptiedBadgeReloads state the reload only after the action answered that it saved, that is after every batch was accepted. What a batch that reports user errors leaves stored is not modelled.
- AppLoader.TrialDaysRemaining takes the current time and the parsed creation date as inputs. An unparsable date is `None` (NaN, serialised as null).
- The packbuilder and ultimatepack components only render installation guides and have no editing form or submit handler, so only their loaders and actions are modelled.
- SetupBundlecard.PackForm, SetupBundlecard.EditBadge and SetupBundlecard.EmptiedBadgeReloads model code the page never reaches. `BundleSetup` (app/routes/app.setup-bundlecard.jsx:481-611) renders only the three guides. `PackForm`, `handleSettingChange` and `handleSubmit` (lines 435, 505 and 513) are defined but never rendered or wired to a form. These members describe what that code would do if it were used.
- React and Polaris rendering (guides, tabs, collapsibles, images, the status banner and its `setTimeout`) is UI and not modelled, except the form state and the fields shown in `OfferForm` and in the unrendered `PackForm`.
- JavaScript puts integer-like property names ("0", "42") before all other keys, in ascending order. `SettingsPipeline.Obj` keeps plain insertion order instead. No page uses such a key, but for one that did, the order of `Object.entries` in the action and in `handleSubmit` would differ, and so would which records share a batch of 25.
- CartDrawer.Convergence: `ApplyMutation` reads the `line` of a `/cart/change.js` request as the key of the line to change, because checkBonus posts `line: lineToRemove.key` (cart-drawer.js:53). The platform's cart API documents `line` as a 1-based line index; what it does with a key there is not modelled, and the property holds only under this reading.
- The other routes (`app._index.jsx`, `app.plans.jsx`, `app.support.jsx`) and the three webhook routes hold no logic and are not part of this model.
