# Aoe_CartApi in Dafny

Aoe_CartApi is a Magento 1 extension. It exposes the shopping cart (the
checkout session's quote) as a REST resource tree:

- the cart itself;
- its items;
- its billing and shipping addresses;
- its payment;
- the shipping rates and payment methods it may use;
- cross-sell products;
- a validation endpoint;
- order placement.

Each resource exists in a current version and in an older `Rest/V1` version. This project models the layer between the wire format and Magento, and proves properties of it.

That layer does the following:

- It renames keys between external and internal attribute codes (`mapAttributes`/`unmapAttributes`).
- It casts values by type (`fixTypes`). A currency becomes a `{currency, amount, formatted}` triple.
- It runs every projection through the same pipeline: read, manual attributes, outbound filter, types, null-fill, `ksort`.
- It parses and gates embedded sub-resources (`parseEmbeds`).
- It reconciles the quote's and the billing address's emails when the quote is loaded and saved. Billing wins on load; the quote wins on save.
- It aggregates validation errors (`validateQuote`).
- It resolves regions (`fixAddressData`).
- It orders shipping rates cheapest first.
- It applies each entity's write rules: the SKU and quantity checks for items; the stored-address, same-as-billing and plain branches for addresses; the payment data flattening and fixed checks; the coupon refusal; guest and customer order placement.

## How the model is built

- PHP values form the datatype `Values.Value`.
- A PHP string-keyed array is an ordered association list `Assoc<V>` with distinct keys. Assigning to an existing key keeps its position.
- Magento objects whose data the extension changes in place are classes: `Objects.DataObject`, `Objects.Quote`, `Place.Customer`. They hold a `map<string, Value>` and links to the objects they own.
- A resource's saved and restored action type and operation are the fields of the class `Resource.ResourceState`.
- Each PHP method that loops or changes state is a Dafny `method`. Its `ensures` ties the result or the new state to a specification function. Lemmas state what the source promises about those functions.
- The ACL filter is an input:
  - its include list and its readable and writable sets are given;
  - `out` keeps the readable keys;
  - `in` keeps the writable keys.
- `_isSubCallAllowed` is a predicate given as an input. Events are the identity.
- Magento collaborators are functions given as inputs:
  - the catalog;
  - `addProduct`;
  - what `collectTotals` makes of the quote's data (`collect`), run only while the quote's totals-collected flag is unset, which the model keeps;
  - what `collectShippingRates` makes of the shipping address's data (`collectRates`);
  - the rate and payment-method lookups;
  - address validators;
  - the customer address book;
  - currency rounding and formatting;
  - the image and URL helpers;
  - what an embedded sub-resource renders.
- The id the database assigns to a new item on save, and the outcome of submitting an order (an increment id or the message of the exception it throws), are inputs too.

`parseEmbeds` (Model/Resource.php:259-278) keeps duplicate embed names, and so does `Resource.ParseEmbeds`.

## Model

| member | source | states |
|---|---|---|
| Text.TrimCuts | app/code/community/Aoe/CartApi/Model/Resource.php:272 | `trim` keeps a contiguous piece of its input that neither starts nor ends with a trimmable character, and cuts only trimmable characters |
| Text.TrimIdempotent | app/code/community/Aoe/CartApi/Model/Resource.php:272 | trimming a trimmed name changes nothing |
| Text.Lower | app/code/community/Aoe/CartApi/Model/Resource.php:221 | `strtolower` keeps the length and lowers each character in place |
| Text.Split | app/code/community/Aoe/CartApi/Model/Resource.php:268 | `explode` always yields at least one piece |
| Text.SplitJoin | app/code/community/Aoe/CartApi/Model/Resource.php:268 | `explode` loses nothing: joining the pieces with the separator gives the input back, and no piece holds the separator |
| Text.LexTotal | app/code/community/Aoe/CartApi/Model/Cart.php:208 | the byte-wise key order of `ksort` relates any two different keys |
| Text.LexTransitive | app/code/community/Aoe/CartApi/Model/Cart.php:208 | the byte-wise key order of `ksort` is transitive |
| Casts.ToBoolMeaning | app/code/community/Aoe/CartApi/Model/Resource.php:220-222 | the 'bool' cast is true exactly for a non-empty scalar whose lower-cased text is not "false" |
| Casts.ToBoolFalseWords | app/code/community/Aoe/CartApi/Model/Resource.php:221 | "FALSE", "False", "0" and "" all cast to false |
| Casts.ToBoolOtherWords | app/code/community/Aoe/CartApi/Model/Resource.php:221 | any other non-empty text casts to true, even "no" and "00"; -1 is true and 0.0 false |
| Casts.CastsIdempotent | app/code/community/Aoe/CartApi/Model/Resource.php:219-246 | each cast of `fixTypes` is a fixed point on its own result, so casting twice equals casting once |
| Casts.ParseIntOfDigits | app/code/community/Aoe/CartApi/Model/Resource.php:224 | `intval` of a run of digits is their decimal value |
| Casts.ParseIntOfNegativeDigits | app/code/community/Aoe/CartApi/Model/Resource.php:224 | `intval` of a minus sign and digits is the negated decimal value |
| Casts.IntTextParses | app/code/community/Aoe/CartApi/Model/Resource.php:224 | `intval` reads back the decimal text of every integer |
| Casts.IntTextRoundTrip | app/code/community/Aoe/CartApi/Model/Resource.php:224-245 | the 'int' cast undoes the 'string' cast of an integer |
| Casts.IntTextIsNumeric | app/code/community/Aoe/CartApi/Model/Crosssell.php:233 | `is_numeric` accepts the decimal text of every integer |
| Casts.NotNumericWithoutDigits | app/code/community/Aoe/CartApi/Model/Crosssell.php:233 | `is_numeric` rejects any text without a digit: empty, a sign or a point alone |
| KeySort.KSort | app/code/community/Aoe/CartApi/Model/Cart.php:208 | `ksort` returns a permutation of its input entries with the same set of keys |
| KeySort.KSortSorted | app/code/community/Aoe/CartApi/Model/Cart.php:208 | `ksort` of an array with distinct keys is strictly ordered by key |
| KeySort.KSortContents | app/code/community/Aoe/CartApi/Model/Cart.php:208 | `ksort` only reorders: sorted, distinct keys, the same entries, every lookup answered as before |
| Codec.MapAttributesKeys | app/code/community/Aoe/CartApi/Helper/Data.php:167-179 | the keys `mapAttributes` returns are exactly the renamed keys of its input |
| Codec.MapAttributesInjective | app/code/community/Aoe/CartApi/Helper/Data.php:167-179 | when no other key of the input is renamed onto the same external key, the renamed key holds that entry's value |
| Codec.MapAttributesLastWins | app/code/community/Aoe/CartApi/Helper/Data.php:171-176 | on a collision the last input entry renamed to a key is the one kept |
| Codec.MapAttributesNoCollision | app/code/community/Aoe/CartApi/Helper/Data.php:167-179 | without collisions, `mapAttributes` renames keys in place and keeps values and order |
| Codec.CollisionExample | app/code/community/Aoe/CartApi/Helper/Data.php:171-176 | with 'description' mapped to 'method_description', input holding both keys keeps only the later value |
| Codec.MapAttributesDistinct | app/code/community/Aoe/CartApi/Helper/Data.php:169-178 | the output of `mapAttributes` never has a repeated key |
| Codec.FlipLookup | app/code/community/Aoe/CartApi/Helper/Data.php:191 | with distinct internal codes, `array_flip` sends each internal code back to its external code and has no other key |
| Codec.FlipInverts | app/code/community/Aoe/CartApi/Helper/Data.php:189-192 | for an injective map, renaming a key and renaming it back with the flipped map returns the key |
| Codec.UnflipInverts | app/code/community/Aoe/CartApi/Helper/Data.php:189-192 | renaming a code that is not an external code back and then forward returns it |
| Codec.UnmapMapRoundTrip | app/code/community/Aoe/CartApi/Helper/Data.php:167-192 | `unmapAttributes(mapAttributes(data)) == data` for an injective map and data with no collision |
| Codec.UnmapLookup | app/code/community/Aoe/CartApi/Helper/Data.php:189-192 | unmapping data that holds no external code: an external code holds its internal code's value, an internal code is gone, other keys unchanged |
| Codec.MapNothing | app/code/community/Aoe/CartApi/Helper/Data.php:167-192 | an empty attribute map renames nothing, in either direction |
| Projection.Without | app/code/community/Aoe/CartApi/Model/Resource.php:142 | `array_diff` keeps exactly the requested codes that are not manual |
| Projection.Plan | app/code/community/Aoe/CartApi/Model/Resource.php:142-144 | the read plan pairs each non-manual requested code, once, with its internal name under the attribute map |
| Projection.ReadIntoLookup | app/code/community/Aoe/CartApi/Model/Resource.php:145-147 | the read loop adds exactly the plan's external codes, each holding the field under its internal name, and keeps every other key |
| Projection.NullFillLookup | app/code/community/Aoe/CartApi/Model/Cart.php:200-205 | the null-fill step adds null under each requested code that is missing and changes nothing else |
| Projection.FinishShape | app/code/community/Aoe/CartApi/Model/Cart.php:200-208 | null-fill then `ksort`: sorted keys, every requested code present, existing values kept, nothing else added |
| Typing.CurrencyTriple | app/code/community/Aoe/CartApi/Model/Resource.php:229-241 | the 'currency' cast yields an array (no longer castable) tagged with the quote's currency code |
| Typing.CastStable | app/code/community/Aoe/CartApi/Model/Resource.php:217-249 | casting a cast value again does nothing or is not attempted |
| Typing.FixTypes | app/code/community/Aoe/CartApi/Model/Resource.php:208-252 | the loop of `fixTypes` equals the fold over the given type map, or over the resource's own map when the given map is empty |
| Typing.FixedTypesLookup | app/code/community/Aoe/CartApi/Model/Resource.php:217-249 | a key keeps its value unless the type map names it and it is a scalar or null, in which case it holds the cast value |
| Typing.FixedTypesKeys | app/code/community/Aoe/CartApi/Model/Resource.php:217-249 | `fixTypes` never adds, removes or reorders keys |
| Typing.FixTypesLeavesAlone | app/code/community/Aoe/CartApi/Model/Resource.php:218 | a key the type map does not name, or one holding an array, is left alone |
| Typing.CurrencyCaseTagged | app/code/community/Aoe/CartApi/Model/Resource.php:229-241 | a present scalar under a 'currency' code becomes the triple tagged with the quote's currency code |
| Typing.FixTypesIdempotent | app/code/community/Aoe/CartApi/Model/Resource.php:208-252 | a second `fixTypes` pass with the same map changes nothing |
| Pipeline.ProjectedShape | app/code/community/Aoe/CartApi/Model/Cart/Rest/V1.php:118-123 | filter, type, null-fill and sort give a key-sorted array of the readable raw keys, typed, and null for the other requested codes, nothing else |
| Pipeline.TypedFinishShape | app/code/community/Aoe/CartApi/Model/Cart.php:197-208 | typing, null-fill and sort of filtered data: sorted, each key typed, null for the missing requested codes, nothing else |
| Resource.NotAllowed | app/code/community/Aoe/CartApi/Model/Resource.php:38-41 | an unhandled action type and operation is answered with 405 'Resource does not support method.' |
| Resource.LoadResourceAttributes | app/code/community/Aoe/CartApi/Model/Resource.php:140-150 | the read loop computes `LoadedAttributes` |
| Resource.LoadedAttributesContents | app/code/community/Aoe/CartApi/Model/Resource.php:140-150 | adds exactly the requested non-manual codes, each read under its mapped name, and keeps every other key of the data passed in |
| Resource.SaveResourceAttributes | app/code/community/Aoe/CartApi/Model/Resource.php:161-171 | the write loop leaves the resource holding `Written` of its old fields |
| Resource.WrittenFields | app/code/community/Aoe/CartApi/Model/Resource.php:161-171 | only the mapped names of requested non-manual data keys change; each holds the last data entry written to it |
| Resource.WrittenOutside | app/code/community/Aoe/CartApi/Model/Resource.php:166-168 | a name no data entry is written to keeps its value or stays absent |
| Resource.WrittenLast | app/code/community/Aoe/CartApi/Model/Resource.php:166-168 | the name of an entry that no later entry overwrites holds that entry's value |
| Resource.WrittenAllLookup | app/code/community/Aoe/CartApi/Model/Cart.php:243-245 | writing every key of distinct-keyed data stores each value and keeps every other field |
| Resource.WriteAll | app/code/community/Aoe/CartApi/Model/Cart.php:243-245 | the `setDataUsingMethod` loop leaves the resource holding `WrittenAll` of its old fields |
| Resource.WrittenPlain | app/code/community/Aoe/CartApi/Model/Resource.php:161-171 | with no attribute map: a field is written iff the data has it and it is requested and not manual, and then holds the data's value |
| Resource.WrittenByKey | app/code/community/Aoe/CartApi/Model/Resource.php:164-168 | a planned key whose internal name no other planned key shares writes its value there |
| Resource.WrittenUntouched | app/code/community/Aoe/CartApi/Model/Resource.php:164-168 | a name no planned key is written to keeps its value or stays absent |
| Resource.SortedFieldsContents | app/code/community/Aoe/CartApi/Model/Cart/Rest/V1.php:74 | the array of an object's fields is sorted by key and holds exactly its fields |
| Resource.ToArray | app/code/community/Aoe/CartApi/Model/Cart/Rest/V1.php:74 | `toArray()` returns the object's fields as that sorted array |
| Resource.FieldsArray | app/code/community/Aoe/CartApi/Model/Cart/Rest/V1.php:74 | the loop over a field map builds that sorted array |
| Resource.CleanEmbeds | app/code/community/Aoe/CartApi/Model/Resource.php:272 | trim each name, drop the empty and "0" ones, keep the order |
| Resource.CleanEmbedsKeeps | app/code/community/Aoe/CartApi/Model/Resource.php:272 | every kept name is trimmed, and no name with something left after trimming is lost |
| Resource.CleanEmbedsFrom | app/code/community/Aoe/CartApi/Model/Resource.php:272 | every kept name is the trimmed form of an input name |
| Resource.ParseEmbedsCases | app/code/community/Aoe/CartApi/Model/Resource.php:259-278 | false or '' gives no embeds, null the defaults, a string is split on ',' and cleaned, an array is cleaned, any other scalar gives none |
| Resource.ParseEmbedsKeepsDuplicates | app/code/community/Aoe/CartApi/Model/Resource.php:268-272 | no de-duplication: "a, a" embeds "a" twice |
| Objects.DataObject.Set | app/code/community/Aoe/CartApi/Model/Cart.php:244 | `setData` writes one key and nothing else |
| Objects.DataObject.Delete | app/code/community/Aoe/CartApi/Model/Item.php:74 | `deleteItem` marks the item deleted and leaves its data alone |
| Objects.DataObject.Unset | app/code/community/Aoe/CartApi/Helper/Data.php:72-74 | `unsetData` removes one key and nothing else |
| Objects.OpsDistinct | app/code/community/Aoe/CartApi/Model/Cart.php:49-72 | the switch labels (action type followed by operation) are pairwise different |
| QuoteSync.SyncConverges | app/code/community/Aoe/CartApi/Model/Resource.php:66-75 | after either reconciliation both emails are present and equal if either was; a single present email is copied to the other side |
| QuoteSync.SyncTieBreaks | app/code/community/Aoe/CartApi/Model/Resource.php:72-105 | with both emails present and different, loading keeps the billing email and saving keeps the quote's |
| QuoteSync.SyncIdempotent | app/code/community/Aoe/CartApi/Model/Resource.php:66-106 | reconciling twice is reconciling once, on either path |
| QuoteSync.SyncedOnlyEmails | app/code/community/Aoe/CartApi/Model/Resource.php:66-106 | a reconciliation changes no key but the two emails |
| QuoteSync.SyncEmails | app/code/community/Aoe/CartApi/Model/Resource.php:97-106 | applies a reconciliation to the quote and its billing address |
| QuoteSync.SyncNeverRemoves | app/code/community/Aoe/CartApi/Model/Resource.php:66-106 | a reconciliation only ever writes a key, never removes one |
| QuoteSync.LoadQuote | app/code/community/Aoe/CartApi/Model/Resource.php:56-83 | with no cached quote or when forced, the session's quote is reconciled on the load path and cached; otherwise the cache is returned untouched |
| QuoteSync.SaveQuote | app/code/community/Aoe/CartApi/Model/Resource.php:88-121 | the cached quote is reconciled on the save path, its shipping address told to collect rates, and its totals collected unless the totals-collected flag was already set (`SavedQuote`); afterwards the flag is set and the items unchanged; the quote, billing, shipping data and flag are one step of `AfterSaves` |
| QuoteSync.HelperSaveQuote | app/code/community/Aoe/CartApi/Helper/Data.php:48-91 | the same reconciliation and rates flag; with zero items the shipping address's cached item lists are dropped and the totals-collected flag cleared, so the totals are collected again; otherwise they are collected only while the flag is clear; afterwards the flag is set |
| QuoteSync.CollectTotals | app/code/community/Aoe/CartApi/Model/Resource.php:110 | Magento's `collectTotals()` changes the quote's data by `collect` only while the totals-collected flag is clear, then sets the flag; the addresses, payment, items and virtual flag are untouched |
| QuoteSync.SavedCases | app/code/community/Aoe/CartApi/Model/Resource.php:93-110 | a save of a quote whose totals were already collected is exactly the email reconciliation; otherwise the quote's data is `collect` of the reconciled data; either way the billing data differs from the loaded billing data at most in its email |
| QuoteSync.AfterSavesFacts | app/code/community/Aoe/CartApi/Model/Resource.php:88-121 | after one or more saves the totals flag is set and the shipping address is told to collect rates; one save is `SavedQuote` of the data; every further save only reconciles the emails of that result again |
| QuoteSync.SyncedTwice | app/code/community/Aoe/CartApi/Model/Resource.php:93-106 | reconciling the emails of already reconciled data on the save path changes nothing |
| Region.WriteRowEffect | app/code/community/Aoe/CartApi/Helper/Data.php:211-224 | writing a resolved region row sets region to its name and region_id to its id, and country_id too for a numeric region; nothing else changes |
| Region.PreparedEffect | app/code/community/Aoe/CartApi/Helper/Data.php:196-202 | a country without a region gets the old region id as its region, and region_id is cleared to null; nothing else changes |
| Region.ApplyResolutionIsWriteRow | app/code/community/Aoe/CartApi/Helper/Data.php:209-225 | the lookup step writes the row the region resolves to (by id when numeric, else by code then by name in the country), or leaves the data alone |
| Region.FixAddressDataSteps | app/code/community/Aoe/CartApi/Helper/Data.php:194-229 | `fixAddressData` is the preparation followed by the lookup step, once a region or a country is given |
| Region.FixAddressDataEffect | app/code/community/Aoe/CartApi/Helper/Data.php:194-229 | data naming neither region nor country comes back unchanged; otherwise region and region_id are always present, region_id being the resolved id or null, and no other key changes |
| QuoteValidation.AddressErrors | app/code/community/Aoe/CartApi/Helper/Data.php:142-157 | the form's error list, else the address model's, else no errors |
| QuoteValidation.ValidateQuote | app/code/community/Aoe/CartApi/Helper/Data.php:98-135 | a non-virtual same-as-billing quote first re-imports its shipping address from billing with the flag kept at 1; the result is the error map of the quote |
| QuoteValidation.QuoteErrorsLookup | app/code/community/Aoe/CartApi/Helper/Data.php:100-134 | what the error map holds under each of shipping_address, shipping_method, billing_address and payment |
| QuoteValidation.QuoteErrorsKeys | app/code/community/Aoe/CartApi/Helper/Data.php:100-134 | only those four keys; no shipping key for a virtual quote; an address key iff that address has errors; shipping_method iff non-virtual and the method or its rate is missing; payment iff no valid method |
| QuoteValidation.QuoteErrorsEmpty | app/code/community/Aoe/CartApi/Helper/Data.php:100-134 | the error map is empty exactly when every check passes |
| Validate.ErrorsValue | app/code/community/Aoe/CartApi/Model/Validate.php:54 | no errors render as an empty list, as PHP's `json_encode` renders an empty array; otherwise an object with exactly the error keys, each holding its list of messages |
| Validate.ValidateResponseShape | app/code/community/Aoe/CartApi/Model/Validate.php:42-79 | status is 'success' iff there are no errors, else 'error'; errors always included as far as the filter allows; requested keys present; keys sorted |
| Validate.ResponseCode | app/code/community/Aoe/CartApi/Model/Validate.php:30-34 | 200 when the rendered status is exactly 'success', else 422 |
| Validate.ResponseCodeMeaning | app/code/community/Aoe/CartApi/Model/Validate.php:30-34 | when the filter lets status through, the code is 200 exactly when the quote has no errors |
| Validate.Dispatch | app/code/community/Aoe/CartApi/Model/Validate.php:22-40 | entity create validates the quote as loaded (shipping re-imported from billing when same-as-billing), answers with the envelope and its code, and leaves the quote and billing as `SavedQuote` of the loaded data (the email sync, then the totals collection unless already done) with the totals-collected flag set, and shipping as `ShippingForValidation` with rates to collect; anything else is 405 with the data as loaded and shipping unchanged |
| Address.StoredRules | app/code/community/Aoe/CartApi/Model/BillingAddress.php:157-166 | loading a stored address fails exactly when it exists and belongs to another customer, with 400 "Customer Address is not valid."; a missing address leaves the quote address alone |
| Address.ImportStored | app/code/community/Aoe/CartApi/Model/BillingAddress.php:159-166 | the stored-address branch: import the loaded address and clear save_in_address_book, or fail as above |
| Address.Indexed | app/code/community/Aoe/CartApi/Model/BillingAddress.php:96 | a list as a PHP array: one entry per element, keyed "0", "1", … in order |
| Address.ArrayRoundTrip | app/code/community/Aoe/CartApi/Model/BillingAddress.php:96 | `(array)` of a stored array value gives the array back |
| Address.TrimFilterClean | app/code/community/Aoe/CartApi/Model/BillingAddress.php:96 | trimming then `array_filter` gives no more entries than the input, each a clean message |
| Address.TrimFilterKeys | app/code/community/Aoe/CartApi/Model/BillingAddress.php:96 | trimming then `array_filter` keeps only keys of the input |
| Address.TrimmedTruthyClean | app/code/community/Aoe/CartApi/Model/BillingAddress.php:96 | an element that survives trimming and `array_filter` is a trimmed string, neither "" nor "0" |
| Address.TrimFilterKeepsClean | app/code/community/Aoe/CartApi/Model/BillingAddress.php:96 | an array of clean messages comes through unchanged |
| Address.CleanErrorsClean | app/code/community/Aoe/CartApi/Model/BillingAddress.php:96 | rendered validation errors are trimmed strings that are neither "" nor "0"; cleaning twice is cleaning once |
| Address.ErrorList | app/code/community/Aoe/CartApi/Model/BillingAddress.php:188 | errors are stored as the list of messages |
| Address.ErrorListRendered | app/code/community/Aoe/CartApi/Model/BillingAddress.php:96-188 | clean messages set by an update are rendered back exactly as set |
| Address.DeleteKeepingMethod | app/code/community/Aoe/CartApi/Model/ShippingAddress.php:55-62 | the address is marked deleted and, when it had a shipping method, the quote gets a new shipping address keeping that method |
| BillingAddress.RawLookup | app/code/community/Aoe/CartApi/Model/BillingAddress.php:81-97 | the built data holds exactly the included codes: the formatted forms, the cleaned errors, every other code read from the address |
| BillingAddress.RawDistinct | app/code/community/Aoe/CartApi/Model/BillingAddress.php:81-97 | the built data has no code twice |
| BillingAddress.ManualSteps | app/code/community/Aoe/CartApi/Model/BillingAddress.php:87-97 | the manual step, key by key: validation_errors, formatted_text and formatted_html each set only when included; every other key kept |
| BillingAddress.RawOrder | app/code/community/Aoe/CartApi/Model/BillingAddress.php:81-97 | reading the non-manual codes and then the manual step gives every included code its value by `RawValue`, and nothing else |
| BillingAddress.BillingProjectionShape | app/code/community/Aoe/CartApi/Model/BillingAddress.php:67-130 | sorted; each readable included code holds its built value typed (save_in_address_book bool, customer_address_id int); every other included code null; nothing else |
| BillingAddress.BillingProjectionErrors | app/code/community/Aoe/CartApi/Model/BillingAddress.php:95-97 | rendered validation errors are the stored errors cleaned |
| BillingAddress.PrepareResource | app/code/community/Aoe/CartApi/Model/BillingAddress.php:67-130 | returns the projection under the entity-retrieve filter and restores the action type and operation |
| BillingAddress.UpdateResource | app/code/community/Aoe/CartApi/Model/BillingAddress.php:140-201 | another customer's stored address is 400 with the state left at entity update; otherwise the new fields, the same-as-billing copy onto shipping and the validation errors, with the state restored |
| BillingAddress.UpdatedCases | app/code/community/Aoe/CartApi/Model/BillingAddress.php:157-176 | fails only on another customer's stored address; a missing stored address writes nothing; a falsy customer_address_id takes the field-by-field path |
| BillingAddress.PlainWriteFields | app/code/community/Aoe/CartApi/Model/BillingAddress.php:168-175 | a field outside the region keys takes the body's value iff writable; validation_errors never does; every other field kept |
| BillingAddress.PlainWriteKeepsErrors | app/code/community/Aoe/CartApi/Model/BillingAddress.php:175 | validation_errors, a manual attribute, is never written |
| BillingAddress.PlainWriteRegionId | app/code/community/Aoe/CartApi/Model/BillingAddress.php:169-175 | region_id is written even when not writable: the resolved id, or null when the region does not resolve |
| BillingAddress.WithErrorsEffect | app/code/community/Aoe/CartApi/Model/BillingAddress.php:185-189 | errors are only added: with none the address is kept, so earlier errors survive |
| BillingAddress.Dispatch | app/code/community/Aoe/CartApi/Model/BillingAddress.php:34-60 | retrieve renders the billing address as loaded; retrieve, delete and an unhandled operation leave the quote and billing data as loaded and shipping unchanged; create and update, on the data as loaded: fail with 400 and the invalid-address message exactly when `Updated` does, leaving every address's data as loaded, else leave the quote and billing as `SavedQuote` of the written, error-tagged address (the email sync, then the totals collection unless already done) with the totals-collected flag set, shipping as `ShippingForValidation` with rates to collect, and render the saved billing address; delete flags the address deleted with its data kept, 204; anything else 405 |
| BillingAddress.Write | app/code/community/Aoe/CartApi/Model/BillingAddress.php:42-51 | fails with 400 and the invalid-address message exactly when `Updated` does, with the quote, billing and shipping data unchanged; otherwise the quote and billing end as `SavedQuote` of the written, error-tagged address with the totals-collected flag set, the shipping address as `ShippingForValidation` with rates to collect, and the reply renders the saved billing address; the quote keeps its address objects |
| ShippingAddress.ShipRename | app/code/community/Aoe/CartApi/Model/ShippingAddress.php:10-12 | only 'method' is renamed, to shipping_method |
| ShippingAddress.RawLookup | app/code/community/Aoe/CartApi/Model/ShippingAddress.php:81-97 | the built data holds exactly the included codes, 'method' read from shipping_method |
| ShippingAddress.ShippingProjectionShape | app/code/community/Aoe/CartApi/Model/ShippingAddress.php:75-130 | sorted; each readable included code holds its built value typed (customer_address_id int, same_as_billing and save_in_address_book bool); every other included code null |
| ShippingAddress.PrepareResource | app/code/community/Aoe/CartApi/Model/ShippingAddress.php:75-130 | returns that projection under the entity-retrieve filter and restores the state |
| ShippingAddress.UpdateResource | app/code/community/Aoe/CartApi/Model/ShippingAddress.php:140-201 | another customer's stored address is 400 with the state left at entity update; otherwise the branch's fields and the form's errors, with the state restored |
| ShippingAddress.UpdatedCases | app/code/community/Aoe/CartApi/Model/ShippingAddress.php:157-183 | a present customer_address_id of any value loads the address named by 'id'; a truthy same_as_billing copies billing and writes nothing else; otherwise the field-by-field write |
| ShippingAddress.PlainWriteOf | app/code/community/Aoe/CartApi/Model/ShippingAddress.php:171-182 | a name other than the shipping-method names is written iff writable, not manual and present in the prepared data, with the prepared value |
| ShippingAddress.PlainWriteFields | app/code/community/Aoe/CartApi/Model/ShippingAddress.php:171-182 | a field outside the special names takes the body's value iff writable; every other field kept |
| ShippingAddress.FixedInputEffect | app/code/community/Aoe/CartApi/Model/ShippingAddress.php:172-176 | the prepared data has distinct keys and, outside the region keys, is the filtered body with same_as_billing 0 |
| ShippingAddress.PlainWriteClearsFlag | app/code/community/Aoe/CartApi/Model/ShippingAddress.php:172-182 | the write clears same_as_billing when it is writable and leaves it alone otherwise |
| ShippingAddress.PlainWriteMethod | app/code/community/Aoe/CartApi/Model/ShippingAddress.php:178-182 | 'method' is written into shipping_method unless the body writes shipping_method itself |
| ShippingAddress.PlainWriteKeeps | app/code/community/Aoe/CartApi/Model/ShippingAddress.php:176-182 | unlike billing, region_id is written only when writable, and validation_errors never |
| ShippingAddress.WithFormErrorsEffect | app/code/community/Aoe/CartApi/Model/ShippingAddress.php:185-193 | the form's verdict decides: its list is set when it finds errors, else the address is kept |
| ShippingAddress.Dispatch | app/code/community/Aoe/CartApi/Model/ShippingAddress.php:37-68 | retrieve renders the shipping address as it was and changes nothing but the load; create and update, on the data as loaded: fail with 400 exactly when `Updated` does, leaving every address's data as loaded, else the quote and billing end as `SavedQuote` of the loaded data (the email sync, then the totals collection unless already done) with the totals-collected flag set, shipping as the written address with its form errors and rates to collect, and the saved address is rendered; delete flags the old address deleted with its data kept and, when it had a shipping method, puts a fresh address holding only that method in its place, else keeps it; anything else 405 with nothing changed but the load; the quote stays valid |
| ShippingAddress.Write | app/code/community/Aoe/CartApi/Model/ShippingAddress.php:45-54 | fails with 400 and the invalid-address message exactly when `Updated` does, with every address's data unchanged; otherwise the quote and billing end as `SavedQuote` with the totals-collected flag set, the shipping address as the written address with its form errors and rates to collect, and the reply renders it; the quote stays valid |
| BillingAddressV1.ProjectionV1Shape | app/code/community/Aoe/CartApi/Model/BillingAddress/Rest/V1.php:57-100 | sorted; each readable stored field, typed, whether requested or not; null for each requested code missing or hidden; nothing else |
| BillingAddressV1.PrepareResourceV1 | app/code/community/Aoe/CartApi/Model/BillingAddress/Rest/V1.php:57-100 | returns that projection under the entity-retrieve filter and restores the state |
| BillingAddressV1.UpdateResourceV1 | app/code/community/Aoe/CartApi/Model/BillingAddress/Rest/V1.php:110-164 | the written fields per `UpdatedV1`; the 400 leaves the state at entity update, success restores it |
| BillingAddressV1.UpdatedV1Writes | app/code/community/Aoe/CartApi/Model/BillingAddress/Rest/V1.php:137-141 | without customer_address_id each writable body field is written with its value, validation_errors and region_id included; every other field kept |
| BillingAddressV1.UpdatedV1Stored | app/code/community/Aoe/CartApi/Model/BillingAddress/Rest/V1.php:127-136 | a body with customer_address_id writes none of its fields: the address is kept, the 400 is raised, or the stored address named by 'id' is imported |
| BillingAddressV1.DispatchV1 | app/code/community/Aoe/CartApi/Model/BillingAddress/Rest/V1.php:25-50 | retrieve renders the billing address as loaded; retrieve, delete and an unhandled operation leave the quote and billing data as loaded and shipping unchanged; create and update on the data as loaded: 400 exactly when `UpdatedV1` fails, leaving the data as loaded, else the quote and billing end as `SavedQuote` of the written address (the email sync, then the totals collection unless already done) with the totals-collected flag set, shipping collects rates, and the saved address is rendered; delete flags the address deleted with 200 and no body; anything else 405 |
| BillingAddressV1.WriteV1 | app/code/community/Aoe/CartApi/Model/BillingAddress/Rest/V1.php:33-42 | fails with 400 and the invalid-address message exactly when `UpdatedV1` does, with every address's data unchanged; otherwise the quote and billing end as `SavedQuote` of the written address with the totals-collected flag set, the shipping address collects rates, and the reply renders the saved billing address |
| ShippingAddressV1.ShipMapV1Facts | app/code/community/Aoe/CartApi/Model/ShippingAddress/Rest/V1.php:10-16 | the attribute map is injective both ways and no internal code is also an external one |
| ShippingAddressV1.ShipRenameV1 | app/code/community/Aoe/CartApi/Model/ShippingAddress/Rest/V1.php:10-16 | method, shipping, discount, tax and total stand for their internal fields; any other code is itself |
| ShippingAddressV1.ShipInternalsV1 | app/code/community/Aoe/CartApi/Model/ShippingAddress/Rest/V1.php:10-16 | the internal fields are shipping_method, shipping_amount, discount_amount, tax_amount and grand_total |
| ShippingAddressV1.ShipTypesV1 | app/code/community/Aoe/CartApi/Model/ShippingAddress/Rest/V1.php:23-29 | subtotal and the four short-named amounts are currency; nothing else is typed |
| ShippingAddressV1.UnmappedV1 | app/code/community/Aoe/CartApi/Model/ShippingAddress/Rest/V1.php:81-84 | unmapping: each short name holds its internal field, the internal fields are gone, every other field is kept |
| ShippingAddressV1.ProjectionV1Shape | app/code/community/Aoe/CartApi/Model/ShippingAddress/Rest/V1.php:70-108 | sorted; each readable code that is not an internal name holds the field it stands for, typed; null for the other requested codes; nothing else |
| ShippingAddressV1.ProjectionV1Total | app/code/community/Aoe/CartApi/Model/ShippingAddress/Rest/V1.php:10-29 | a readable 'total' renders the address's grand_total, cast to a currency amount |
| ShippingAddressV1.ProjectionV1GrandTotal | app/code/community/Aoe/CartApi/Model/ShippingAddress/Rest/V1.php:10-16 | grand_total is never rendered with a value under its own name: null when requested, absent otherwise |
| ShippingAddressV1.PrepareResourceV1 | app/code/community/Aoe/CartApi/Model/ShippingAddress/Rest/V1.php:70-108 | returns that projection under the entity-retrieve filter and restores the state |
| ShippingAddressV1.UpdateResourceV1 | app/code/community/Aoe/CartApi/Model/ShippingAddress/Rest/V1.php:118-179 | the written fields per `UpdatedV1`; the 400 leaves the state at entity update, success restores it |
| ShippingAddressV1.UpdatedV1Cases | app/code/community/Aoe/CartApi/Model/ShippingAddress/Rest/V1.php:135-148 | fails only on another customer's stored address named by 'id'; a billing copy is marked same-as-billing |
| ShippingAddressV1.PlainDataV1 | app/code/community/Aoe/CartApi/Model/ShippingAddress/Rest/V1.php:149-151 | the field-by-field data has distinct keys and clears same_as_billing |
| ShippingAddressV1.UpdatedV1Writes | app/code/community/Aoe/CartApi/Model/ShippingAddress/Rest/V1.php:149-156 | the write clears same_as_billing and writes each writable body field the map leaves alone with its value; other such fields kept |
| ShippingAddressV1.UpdatedV1Renamed | app/code/community/Aoe/CartApi/Model/ShippingAddress/Rest/V1.php:132-156 | a writable short name's value is stored under its internal field (a writable 'total' sets grand_total) unless the body carries the internal field too |
| ShippingAddressV1.IncomingRenamed | app/code/community/Aoe/CartApi/Model/ShippingAddress/Rest/V1.php:129-132 | the mapped incoming data holds a writable short name's value under its internal field |
| ShippingAddressV1.DispatchV1 | app/code/community/Aoe/CartApi/Model/ShippingAddress/Rest/V1.php:34-63 | retrieve renders the shipping address as it was and changes nothing but the load; create and update on the data as loaded: 400 exactly when `UpdatedV1` fails, else the shipping address becomes the written one with rates to collect, the quote and billing `SavedQuote` of the loaded data (the email sync, then the totals collection unless already done) with the totals-collected flag set, and it is rendered; delete flags the old address deleted with its data kept and, when it had a shipping method, puts a fresh address holding only that method in its place, 200 with no body; anything else 405 with nothing changed but the load |
| ShippingAddressV1.WriteV1 | app/code/community/Aoe/CartApi/Model/ShippingAddress/Rest/V1.php:42-51 | fails with 400 exactly when `UpdatedV1` does, with every address's data unchanged; otherwise the shipping address becomes the written one with rates to collect, the quote and billing `SavedQuote` with the totals-collected flag set, and the reply renders it in the first version's shape; the quote stays valid |
| Payment.PaymentChecksFlags | app/code/community/Aoe/CartApi/Model/Payment/Rest/V1.php:135-138 | the checks are exactly the four named flags, 39, without the other checks |
| Payment.PaymentProjectionShape | app/code/community/Aoe/CartApi/Model/Payment/Rest/V1.php:50-88 | sorted; each readable stored field as stored; null for each other requested code; nothing else |
| Payment.PrepareResource | app/code/community/Aoe/CartApi/Model/Payment/Rest/V1.php:50-88 | returns that projection under the entity-retrieve filter and restores the state |
| Payment.MergeLookup | app/code/community/Aoe/CartApi/Model/Payment/Rest/V1.php:118 | in `array_merge($data['data'], $base)` the base wins: a key holds base's value when base has it, else the nested one |
| Payment.MergeDistinct | app/code/community/Aoe/CartApi/Model/Payment/Rest/V1.php:118 | merging distinct-keyed arrays gives distinct keys |
| Payment.FlattenedLookup | app/code/community/Aoe/CartApi/Model/Payment/Rest/V1.php:115-121 | a top-level key other than 'data' keeps its value; a key only the nested array has takes the nested value; the top-level 'data' never survives |
| Payment.ImportedLookup | app/code/community/Aoe/CartApi/Model/Payment/Rest/V1.php:115-141 | 'checks' is always the four checks; every other key is the flattened body's |
| Payment.UpdateResource | app/code/community/Aoe/CartApi/Model/Payment/Rest/V1.php:98-152 | the payment method (null when missing) goes onto the billing address of a virtual quote, else onto the shipping address, which also collects rates; the payment imports the flattened body |
| Payment.SetPaymentMethod | app/code/community/Aoe/CartApi/Model/Payment/Rest/V1.php:123-132 | a virtual quote's billing address takes the payment method and the shipping address is untouched; otherwise the shipping address takes it and is told to collect shipping rates, and the billing address is untouched |
| Payment.Dispatch | app/code/community/Aoe/CartApi/Model/Payment/Rest/V1.php:22-43 | retrieve renders the payment as it was; retrieve, delete and an unhandled operation leave the quote and billing as loaded and the shipping and payment data unchanged; create and update: the payment imports the flattened body, the body's method goes on billing (virtual quote) or shipping (otherwise), the quote and billing end as `SavedQuote` of the loaded data (the email sync, then the totals collection unless already done) with the totals-collected flag set, shipping collects rates, and the payment is rendered; delete deletes with 200 and no body; anything else 405 |
| Payment.Write | app/code/community/Aoe/CartApi/Model/Payment/Rest/V1.php:30-35 | the payment imports the flattened body with its checks; the body's payment method is set on the billing address of a virtual quote and on the shipping address otherwise; the quote and billing end as `SavedQuote` (the email sync, then the totals collection unless already done) with the totals-collected flag set; shipping collects rates; the reply renders the stored payment |
| Place.Customer.AddAddress | app/code/community/Aoe/CartApi/Model/Place.php:51 | `addAddress` appends one entry to the customer's address book and changes nothing else |
| Place.GuestFields | app/code/community/Aoe/CartApi/Model/Place.php:68-71 | marking a guest sets exactly customer_id to null, customer_email to the billing email, customer_is_guest to true and customer_group_id to 0 |
| Place.MarkGuest | app/code/community/Aoe/CartApi/Model/Place/Rest/V1.php:39-45 | the quote's data becomes `Guest` of its data and the billing address; nothing else changes |
| Place.ExportToBook | app/code/community/Aoe/CartApi/Model/Place.php:50-52 | a fresh book entry exported from the quote address is appended to the customer's book |
| Place.PlaceResponseShape | app/code/community/Aoe/CartApi/Model/Place.php:85-110 | status 'success' and the order's increment id as far as the filter allows, null for each other requested code, nothing else, keys sorted |
| Place.PlaceOrder | app/code/community/Aoe/CartApi/Model/Place.php:37-111 | the answer is the rendered envelope of the submitted order's increment id, or a 500 with the message a failed submission throws, after the address effects; for a customer quote the billing address goes to the book iff the book rule holds, the shipping address iff the quote is non-virtual, not copying billing and the rule holds, each as a fresh exported entry, and the book grows by exactly those; a same-as-billing shipping address of a non-virtual quote copies billing instead; a guest quote is marked a guest's and the book is untouched |
| Place.Dispatch | app/code/community/Aoe/CartApi/Model/Place.php:22-35 | entity create on the quote as loaded: 201 with the envelope of the increment id when the order is submitted, the thrown message as a 500 when submission fails; billing as loaded; shipping copied from billing when it is the same address; a customer's book keeps its entries and grows by the exported billing entry and the exported shipping entry each by the book rule; a guest quote is marked a guest's; anything else 405 with the quote and billing as loaded and the shipping data and the book unchanged; the address objects and the virtual flag never change |
| PlaceV1.DefaultsRules | app/code/community/Aoe/CartApi/Model/Place/Rest/V1.php:68-77 | billing becomes default billing iff the customer had none; shipping default shipping iff none; failing a new shipping entry billing takes that place; at most one default shipping, and one whenever needed |
| PlaceV1.PlaceCustomerOrderV1 | app/code/community/Aoe/CartApi/Model/Place/Rest/V1.php:47-79 | billing and (non-virtual, not same-as-billing) shipping go to the book by the book rule, fresh entries flagged per `DefaultsFor`; the quote takes the customer |
| PlaceV1.DispatchV1 | app/code/community/Aoe/CartApi/Model/Place/Rest/V1.php:22-37 | guest create marks the loaded quote a guest's and leaves the book alone; customer create assigns the customer, keeps the book's entries and appends the billing entry when the book rule holds, flagged per `DefaultsFor`, and the shipping entry when it goes to the book, flagged as default shipping per `DefaultsFor`; both 200 with no body; anything else, another user type included, 405 with the quote as loaded; billing is always as loaded, and the address objects, the shipping data and the virtual flag never change |
| PaymentMethods.UseChecksFlags | app/code/community/Aoe/CartApi/Model/PaymentMethods.php:135-140 | the checks of `_canUseMethod` are exactly the three flags, 35 |
| PaymentMethods.KeptLookup | app/code/community/Aoe/CartApi/Model/PaymentMethods.php:152-156 | unsetting keeps each allowed card code with its title and drops every other code |
| PaymentMethods.CcTypesContents | app/code/community/Aoe/CartApi/Model/PaymentMethods.php:148-162 | 'cc_types' is null iff no configured code is in the method's list; else exactly the titles of the listed configured codes |
| PaymentMethods.TitlesLookup | app/code/community/Aoe/CartApi/Model/PaymentMethods.php:150-161 | the returned titles hold the same codes as the kept types, each with its title |
| PaymentMethods.AvailableCcTypes | app/code/community/Aoe/CartApi/Model/PaymentMethods.php:148-162 | the loop unsets the configured types not in the method's list, null when none is left |
| PaymentMethods.MethodRawLookup | app/code/community/Aoe/CartApi/Model/PaymentMethods.php:91-102 | the raw data holds exactly the requested codes: 'cc_types' from the card types, any other from the method's field |
| PaymentMethods.MethodProjectionShape | app/code/community/Aoe/CartApi/Model/PaymentMethods.php:89-126 | sorted; exactly the requested codes: the accepted card types under 'cc_types' and the method's own field otherwise when readable, else null |
| PaymentMethods.PrepareMethod | app/code/community/Aoe/CartApi/Model/PaymentMethods.php:89-126 | returns that projection |
| PaymentMethods.ListedMethodsMembers | app/code/community/Aoe/CartApi/Model/PaymentMethods.php:62-71 | a method is listed iff it is one of the store's methods and passes both checks; store order kept, so a store whose methods all pass is listed whole |
| PaymentMethods.PrepareCollection | app/code/community/Aoe/CartApi/Model/PaymentMethods.php:43-79 | one projection per listed method, in order, under the collection-retrieve filter; the state is restored |
| PaymentMethods.Dispatch | app/code/community/Aoe/CartApi/Model/PaymentMethods.php:23-34 | collection retrieve lists the methods with 200; anything else 405; either way the quote and billing end as loaded (`AfterLoad`), and the address objects, the virtual flag and the items are unchanged |
| ShippingMethod.CompareIsLexicographic | app/code/community/Aoe/CartApi/Model/ShippingMethod.php:136-167 | the comparator is negative iff a's (price, carrier order, method order) keys come first lexicographically, zero iff all equal, and antisymmetric |
| ShippingMethod.CompareTransitive | app/code/community/Aoe/CartApi/Model/ShippingMethod.php:136-167 | the comparator is a total preorder: "not after" is transitive |
| ShippingMethod.Usable | app/code/community/Aoe/CartApi/Model/ShippingMethod.php:76-81 | the kept rates are exactly the rates not deleted and with a carrier, in collection order |
| ShippingMethod.InsertRate | app/code/community/Aoe/CartApi/Model/ShippingMethod.php:82 | placing a rate adds exactly that rate to the sequence, as a multiset |
| ShippingMethod.InsertRateSorted | app/code/community/Aoe/CartApi/Model/ShippingMethod.php:82 | placing a rate with a carrier into rates in comparator order keeps them in comparator order |
| ShippingMethod.SortRates | app/code/community/Aoe/CartApi/Model/ShippingMethod.php:82 | sorting keeps length and multiset of the rates |
| ShippingMethod.SortRatesCorrect | app/code/community/Aoe/CartApi/Model/ShippingMethod.php:82 | the sorted rates are in comparator order and a permutation of the input |
| ShippingMethod.PrepareRateShape | app/code/community/Aoe/CartApi/Model/ShippingMethod.php:101-134 | sorted; every requested code present; each readable one holds the rate's field typed, 'description' read from method_description |
| ShippingMethod.OrderedRates | app/code/community/Aoe/CartApi/Model/ShippingMethod.php:76-82 | the usable rates, in comparator order |
| ShippingMethod.OrderedRatesCorrect | app/code/community/Aoe/CartApi/Model/ShippingMethod.php:76-82 | the listed rates are exactly the usable ones, each as often as in the collection, in comparator order |
| ShippingMethod.CollectUsable | app/code/community/Aoe/CartApi/Model/ShippingMethod.php:75-81 | the filter loop computes `Usable` |
| ShippingMethod.PrepareRates | app/code/community/Aoe/CartApi/Model/ShippingMethod.php:88-91 | one projection per rate, in order |
| ShippingMethod.PrepareCollection | app/code/community/Aoe/CartApi/Model/ShippingMethod.php:51-99 | a virtual quote gives an empty list and touches nothing; otherwise the address is told to collect rates, `collectShippingRates` runs on it, and the ordered usable rates are projected, the state restored |
| ShippingMethod.Dispatch | app/code/community/Aoe/CartApi/Model/ShippingMethod.php:31-42 | collection retrieve answers: a virtual quote an empty list with shipping untouched; otherwise shipping is told to collect rates, `collectShippingRates` runs on it, and the list holds, in order, the projection of each of `OrderedRates` in the loaded quote's currency; anything else 405 'Resource does not support method.' with the shipping data unchanged; either way the quote and billing end as loaded, and the address objects, the virtual flag and the items are unchanged |
| Item.Snapshot | app/code/community/Aoe/CartApi/Model/Item.php:211 | the items collection as values: one state per item, in order, with its data and deleted flag |
| Item.ManualSteps | app/code/community/Aoe/CartApi/Model/Item.php:185-230 | the manual step, key by key: is_saleable, messages, children, images, url, original_price and row_total each set only when included (row_total only when prices include tax; children only when the block runs) |
| Item.ManualLookup | app/code/community/Aoe/CartApi/Model/Item.php:185-230 | the manual step sets the included manual attributes (and row_total when prices include tax) and keeps every other key |
| Item.ManualOrder | app/code/community/Aoe/CartApi/Model/Item.php:185-230 | the manual assignments write different names, so their order does not matter: each included manual code ends up with its `RawValue` |
| Item.RawLookup | app/code/community/Aoe/CartApi/Model/Item.php:177-230 | the built data holds exactly the included codes, children only when the child block runs |
| Item.ItemTypesDistinct | app/code/community/Aoe/CartApi/Model/Item.php:20-27 | the type map names each code once |
| Item.ItemProjectionLookup | app/code/community/Aoe/CartApi/Model/Item.php:175-258 | an included code the filter hides is null; one it lets through holds its built value typed by the type map, or null when there is none; nothing else |
| Item.ItemProjectionShape | app/code/community/Aoe/CartApi/Model/Item.php:175-258 | an item projection is sorted by key and its keys are exactly the included codes |
| Item.ItemProjectionChildren | app/code/community/Aoe/CartApi/Model/Item.php:208-220 | when 'children' is included and readable, a top-level item lists its child entries and any other item holds null |
| Item.ChildrenUntyped | app/code/community/Aoe/CartApi/Model/Item.php:20-27 | the type map gives 'children' no type, so child entries are rendered as built |
| Item.ItemProjectionRowTotal | app/code/community/Aoe/CartApi/Model/Item.php:187-190 | with prices shown including tax, an included readable row_total is the typed row total including tax |
| Item.ChildrenOf | app/code/community/Aoe/CartApi/Model/Item.php:211-213 | the kept items are exactly those not deleted with the given parent id, in collection order |
| Item.ChildEntriesAre | app/code/community/Aoe/CartApi/Model/Item.php:209-219 | the child entries are the item's children, one entry each in collection order, none carrying 'children' |
| Item.EmptyCastsToZero | app/code/community/Aoe/CartApi/Model/Item.php:417-418 | every empty value casts to the integer 0, so a non-zero id comes only from a truthy value |
| Item.ChildrenSkipTheirBlock | app/code/community/Aoe/CartApi/Model/Item.php:209-214 | a child of an item with an id has a parent id, so its own child block is skipped |
| Item.PrepareItem | app/code/community/Aoe/CartApi/Model/Item.php:175-258 | returns the item projection under the given filter; a nested call skips the child block |
| Item.ProjectItemData | app/code/community/Aoe/CartApi/Model/Item.php:241-257 | `out`, `fixTypes` with the item type map, null-fill and `ksort` of the built data |
| Item.ChildList | app/code/community/Aoe/CartApi/Model/Item.php:210-219 | the child loop lists, in order, each item not deleted whose parent id is the item's id, prepared without 'children' |
| Item.ChildEntriesNext | app/code/community/Aoe/CartApi/Model/Item.php:211-218 | one more collection item adds at most its own child entry |
| Item.CollectedDistinct | app/code/community/Aoe/CartApi/Model/Item.php:127-134 | the listing has one entry per key |
| Item.CollectedKeys | app/code/community/Aoe/CartApi/Model/Item.php:130-134 | the listing is keyed by exactly the ids of the visible items |
| Item.CollectedKeyFrom | app/code/community/Aoe/CartApi/Model/Item.php:130-134 | a key of the listing is the id of a visible item |
| Item.CollectedKeyTo | app/code/community/Aoe/CartApi/Model/Item.php:130-134 | the id of every visible item is a key of the listing |
| Item.CollectedEntries | app/code/community/Aoe/CartApi/Model/Item.php:130-134 | an id's entry is the projection of the last visible item with that id |
| Item.CollectionOfContents | app/code/community/Aoe/CartApi/Model/Item.php:117-145 | keyed by the ids of the visible items, one key per distinct id; a visible item whose id no later one reuses is filed with its own projection |
| Item.PrepareCollection | app/code/community/Aoe/CartApi/Model/Item.php:117-145 | every visible item's projection filed under its id, under the collection-retrieve filter; the state restored |
| Item.CollectItems | app/code/community/Aoe/CartApi/Model/Item.php:130-134 | the loop over the visible items computes `CollectionOf` |
| Item.CollectOne | app/code/community/Aoe/CartApi/Model/Item.php:133 | one pass files a visible item's projection under its id |
| Item.PrepareTop | app/code/community/Aoe/CartApi/Model/Item.php:133 | `prepareItem` on a listed item gives its top-level projection |
| Item.PrepareResource | app/code/community/Aoe/CartApi/Model/Item.php:154-173 | the item's projection under the entity-retrieve filter; the state restored |
| Item.FindById | app/code/community/Aoe/CartApi/Model/Item.php:423 | `getItemById` finds an item with that id, or reports that none has it |
| Item.LoadItem | app/code/community/Aoe/CartApi/Model/Item.php:415-429 | 404 'Not Found' when the id casts to 0, no item has it, or it is deleted or has a parent; otherwise the item at the index `getItemById` finds, which is `Target` |
| Item.Target | app/code/community/Aoe/CartApi/Model/Item.php:415-429 | the index `loadItem` ends with, if any, is the index `getItemById` finds for a non-zero id, and that item is visible |
| Item.RetrieveAfterDelete | app/code/community/Aoe/CartApi/Model/Item.php:81-84 | after entity delete, entity retrieve of the same id is 404 'Not Found' |
| Item.RetrieveAfterUpdate | app/code/community/Aoe/CartApi/Model/Item.php:81-96 | when the write plan names neither item_id nor parent_item_id, entity retrieve after entity create or update answers what the update answered |
| Item.FindBySameIds | app/code/community/Aoe/CartApi/Model/Item.php:423 | `getItemById` finds the same index in two item lists carrying the same ids |
| Item.ProductForRules | app/code/community/Aoe/CartApi/Model/Item.php:284-316 | no sku is 400 'Missing SKU'; an unknown, out-of-stock or invisible product is 400 'Invalid SKU …'; a product off the website too unless in single-store mode; otherwise the product |
| Item.RequestQtyRules | app/code/community/Aoe/CartApi/Model/Item.php:318-330 | the quantity is 1 when none is set, never below the one asked for, and raised to a positive minimum sale quantity for a product not yet in the quote |
| Item.RequestData | app/code/community/Aoe/CartApi/Model/Item.php:318-330 | the request data is the incoming data with qty set to the request quantity as a float; nothing else changes |
| Item.CreateResource | app/code/community/Aoe/CartApi/Model/Item.php:268-357 | ends with `Created`: the SKU checks, the quantity, then `addProduct` with a child item replaced by its parent; the items `addProduct` adds are appended to the quote's items (`NewItems`), which stay distinct and hold the returned item; nothing else of the quote changes; a failed check is 400 with the state left at entity create |
| Item.AddToQuote | app/code/community/Aoe/CartApi/Model/Item.php:333-344 | `addProduct` ends with `CreateOutcome`, its new items are appended, and the quote stays valid with the returned item among its items |
| Item.AddProduct | app/code/community/Aoe/CartApi/Model/Item.php:333-344 | the item, or its parent when it has one, or the 400 of the message thrown; and the items not yet in the quote, parent first |
| Item.NewItemsValid | app/code/community/Aoe/CartApi/Model/Item.php:333-344 | appending the new items keeps the quote's items distinct and apart from its addresses and payment, and the returned item is among them |
| Item.CheckSku | app/code/community/Aoe/CartApi/Model/Item.php:284-316 | the SKU checks in their order, with their messages |
| Item.WithQty | app/code/community/Aoe/CartApi/Model/Item.php:318-330 | the quantity steps: default 1, cast to float, raised to the minimum sale quantity |
| Item.UpdateResource | app/code/community/Aoe/CartApi/Model/Item.php:367-405 | the writable, non-manual attributes other than sku are written to their internal names; the state restored |
| Item.UpdateNeverWritesSku | app/code/community/Aoe/CartApi/Model/Item.php:386-392 | an update never writes sku, even when writable, nor a manual attribute; every field outside its plan is kept |
| Item.ItemRenameNotSku | app/code/community/Aoe/CartApi/Model/Item.php:10-13 | no key other than sku is renamed to sku |
| Item.CollectionCreate | app/code/community/Aoe/CartApi/Model/Item.php:54-70 | a failed create is its 400 and leaves the items and the quote's view alone; otherwise the new items are appended, the returned item's data becomes `Saved` (a new item gets the id the database assigns), and the reply is 201 when the item had no id before, 200 otherwise, with the item's projection over the quote's items after the save; the quote's data, billing, shipping and totals flag are `AfterSaves` of two saves for a quote never saved, one otherwise; the quote stays valid |
| Item.SaveCreated | app/code/community/Aoe/CartApi/Model/Item.php:56-69 | the saves after a successful create: the item's data becomes `Saved`, the items stay, and the reply is 201 or 200 by whether the item had an id, with its projection; the quote's view is `AfterSaves` of two saves for a quote never saved, one otherwise |
| Item.SaveItem | app/code/community/Aoe/CartApi/Model/Item.php:60 | `$item->save()`: a new item gets the given id, an item with an id keeps its data; afterwards the item has an id |
| Item.CollectionDelete | app/code/community/Aoe/CartApi/Model/Item.php:71-80 | the items become `AllDeleted` of the items before: every visible item deleted, every data kept; the quote saved once (`AfterSaves`) and the reply 204 |
| Item.DeletedListsNothing | app/code/community/Aoe/CartApi/Model/Item.php:71-84 | after collection delete, collection retrieve lists nothing and entity retrieve is 404 for every id |
| Item.CollectedNone | app/code/community/Aoe/CartApi/Model/Item.php:130-134 | a listing of items none of which is visible is empty |
| Item.DeleteVisible | app/code/community/Aoe/CartApi/Model/Item.php:72-76 | the loop flags every visible item deleted and changes nothing else |
| Item.EntityRetrieve | app/code/community/Aoe/CartApi/Model/Item.php:81-84 | answers `EntityRetrieved`: 404 'Not Found' exactly when `loadItem` finds no visible item for the id, else 200 with the projection of the item at the found index |
| Item.EntityUpdate | app/code/community/Aoe/CartApi/Model/Item.php:85-96 | answers and leaves the items as `EntityUpdated`: 404 with the items unchanged when nothing is found, else the item at the found index written by the update plan, every other item unchanged, and 200 with its projection over the written items; a 404 leaves the quote's view alone, a success saves it once (`AfterSaves`) |
| Item.UpdateAndRender | app/code/community/Aoe/CartApi/Model/Item.php:87-89 | after the load: the item at the given index is written by the update plan, every other item unchanged, and its projection over the written items returned; the quote saved once (`AfterSaves`) |
| Item.WriteAt | app/code/community/Aoe/CartApi/Model/Item.php:87-88 | the item at the given index is written by the update plan and the quote saved once (`AfterSaves`); every other item unchanged |
| Item.UpdateAt | app/code/community/Aoe/CartApi/Model/Item.php:87 | the item at the given index is written by the update plan, its deleted flag kept; every other item keeps its state; the request state is restored |
| Item.EntityDelete | app/code/community/Aoe/CartApi/Model/Item.php:97-104 | answers and leaves the items as `EntityDeleted`: 404 with the items unchanged when nothing is found, else the item at the found index deleted with its data kept, every other item unchanged, and 204; a 404 leaves the quote's view alone, a success saves it once (`AfterSaves`) |
| Item.DeleteAt | app/code/community/Aoe/CartApi/Model/Item.php:99-101 | the item at the given index is flagged deleted with its data kept and the quote saved once (`AfterSaves`); every other item unchanged |
| Item.Dispatch | app/code/community/Aoe/CartApi/Model/Item.php:46-108 | the quote is loaded; on the items before, collection operations end as `Collection` states, entity operations as `Entity` states with the same item objects, and anything else is 405 'Resource does not support method.' with the items unchanged; the quote's data, billing, shipping and totals flag end as loaded after a read or a failure, after two saves (`AfterSaves`) when an item is created in a quote never saved, after one save otherwise |
| Item.DispatchCollection | app/code/community/Aoe/CartApi/Model/Item.php:51-80 | collection retrieve is 200 with the keyed listing and nothing changed; collection create is the outcome of `Created`, the new items appended, the item saved and rendered with 201 or 200; collection delete is 204 with every visible item deleted; the quote's view is unchanged by a retrieve or a failure, two saves on from a create in a quote never saved, one save on otherwise |
| Item.DispatchEntity | app/code/community/Aoe/CartApi/Model/Item.php:81-104 | entity retrieve is `EntityRetrieved` with nothing changed; entity create and update are `EntityUpdated`; entity delete is `EntityDeleted` with 204; a retrieve or a failure leaves the quote's view alone, a success saves it once (`AfterSaves`) |
| ItemV1.ReadMappedKeys | app/code/community/Aoe/CartApi/Model/Item/Rest/V1.php:146-154 | the keys the read loop writes are the internal names of the included codes, and they are distinct |
| ItemV1.CombineValues | app/code/community/Aoe/CartApi/Model/Item/Rest/V1.php:150 | `array_combine` of the codes with themselves holds exactly those codes as its values |
| ItemV1.MapKeysNotExcluded | app/code/community/Aoe/CartApi/Model/Item/Rest/V1.php:10-13 | no external code of the item map is one of the excluded codes |
| ItemV1.ReadV1Excludes | app/code/community/Aoe/CartApi/Model/Item/Rest/V1.php:146-157 | the data read from an item never holds an excluded code, whatever is included, and its keys are distinct |
| ItemV1.ManualV1Lookup | app/code/community/Aoe/CartApi/Model/Item/Rest/V1.php:162-194 | the manual step sets every included excluded code (children only when the block runs) and keeps every other key |
| ItemV1.ProjectV1Lookup | app/code/community/Aoe/CartApi/Model/Item/Rest/V1.php:143-208 | a projection is sorted by key and holds every included code; an included excluded code holds its typed manual value whether or not the filter lets it through; any other code holds its typed read value when the filter lets it through, else null |
| ItemV1.ItemProjectionV1Children | app/code/community/Aoe/CartApi/Model/Item/Rest/V1.php:174-187 | with children included, a top-level item lists its child entries even when the filter does not let children through |
| ItemV1.PrepareItemV1 | app/code/community/Aoe/CartApi/Model/Item/Rest/V1.php:143-208 | returns the projection of `ProjectV1` under the given filter; a nested call skips the child block |
| ItemV1.ReadAttributes | app/code/community/Aoe/CartApi/Model/Item/Rest/V1.php:152-154 | the read loop reads every mapped code of the item, keyed by its internal name |
| ItemV1.ChildListV1 | app/code/community/Aoe/CartApi/Model/Item/Rest/V1.php:176-185 | the child loop lists, in order, each item not deleted whose parent id is the item's id, prepared without children |
| ItemV1.ChildEntriesV1Next | app/code/community/Aoe/CartApi/Model/Item/Rest/V1.php:176-185 | one more collection item adds its entry exactly when it is a child of the item |
| ItemV1.CollectionOfV1Contents | app/code/community/Aoe/CartApi/Model/Item/Rest/V1.php:88-113 | keyed by the ids of the visible items, one key per distinct id; a visible item whose id no later one reuses is filed with its own projection |
| ItemV1.PrepareCollectionV1 | app/code/community/Aoe/CartApi/Model/Item/Rest/V1.php:88-113 | every visible item's projection filed under its id, under the collection-retrieve filter; the state restored |
| ItemV1.CollectItemsV1 | app/code/community/Aoe/CartApi/Model/Item/Rest/V1.php:101-105 | the loop over the visible items computes `CollectionOfV1` |
| ItemV1.CollectOneV1 | app/code/community/Aoe/CartApi/Model/Item/Rest/V1.php:104 | one pass files a visible item's projection under its id |
| ItemV1.PrepareResourceV1 | app/code/community/Aoe/CartApi/Model/Item/Rest/V1.php:122-140 | the item's projection under the entity-retrieve filter; the state restored |
| ItemV1.CreatedV1Rules | app/code/community/Aoe/CartApi/Model/Item/Rest/V1.php:237-300 | a product off the current website is 400 'Invalid SKU' even in single-store mode; every refusal is a 400 'Missing SKU', 'Invalid SKU' or the message `addProduct` threw; a success is the item `addProduct` returned, or its parent |
| ItemV1.CreateResourceV1 | app/code/community/Aoe/CartApi/Model/Item/Rest/V1.php:221-304 | ends with `CreatedV1`: the SKU checks with plain 'Invalid SKU', the quantity, then `addProduct`; the new items are appended and stay distinct with the returned item among them; a failed check is 400 with the state left at entity create; otherwise the state restored |
| ItemV1.UpdateResourceV1 | app/code/community/Aoe/CartApi/Model/Item/Rest/V1.php:318-345 | every key the filter lets in, mapped to its internal name, is written; the state restored |
| ItemV1.SkuUnrenamed | app/code/community/Aoe/CartApi/Model/Item/Rest/V1.php:10-13 | the item map sends no key but sku itself to sku |
| ItemV1.UpdateV1WritesSku | app/code/community/Aoe/CartApi/Model/Item/Rest/V1.php:329-337 | when the filter lets sku in, the updated item holds the body's sku |
| ItemV1.UpdateV1Writes | app/code/community/Aoe/CartApi/Model/Item/Rest/V1.php:335-337 | an update writes exactly the keys of the incoming data and keeps every other field |
| ItemV1.CollectionCreateV1 | app/code/community/Aoe/CartApi/Model/Item/Rest/V1.php:40-52 | a failed create is its 400 and leaves the items and the quote's view alone; otherwise the new items are appended, the quote saved once (`AfterSaves`) with the item, whose data becomes `Saved`, and the reply is 201 when the item had no id before, 200 otherwise, with its projection over the items after the save |
| ItemV1.SaveCreatedV1 | app/code/community/Aoe/CartApi/Model/Item/Rest/V1.php:42-51 | one save of the quote (`AfterSaves`), which saves the item: its data becomes `Saved`, the items stay, and the reply is 201 or 200 with its projection |
| ItemV1.EntityRetrieveV1 | app/code/community/Aoe/CartApi/Model/Item/Rest/V1.php:53-56 | answers `EntityRetrievedV1`: 404 exactly when `loadItem` finds no visible item for the id, else 200 with the item's projection as this version reads it |
| ItemV1.RetrieveAfterDeleteV1 | app/code/community/Aoe/CartApi/Model/Item/Rest/V1.php:53-56 | after entity delete, entity retrieve of the same id is 404 'Not Found' |
| ItemV1.RetrieveAfterUpdateV1 | app/code/community/Aoe/CartApi/Model/Item/Rest/V1.php:53-68 | when the incoming data holds neither item_id nor parent_item_id, entity retrieve after entity create or update answers what the update answered |
| ItemV1.EntityUpdateV1 | app/code/community/Aoe/CartApi/Model/Item/Rest/V1.php:57-68 | answers and leaves the items as `EntityUpdatedV1`: 404 with the items unchanged, or the item at the found index with every key of the incoming data written, every other item unchanged, and 200 with its projection; a 404 leaves the quote's view alone, a success saves it once (`AfterSaves`) |
| ItemV1.UpdateAndRenderV1 | app/code/community/Aoe/CartApi/Model/Item/Rest/V1.php:59-61 | after the load: the item at the given index has every incoming key written, every other item unchanged, and its projection returned; the quote saved once (`AfterSaves`) |
| ItemV1.WriteAtV1 | app/code/community/Aoe/CartApi/Model/Item/Rest/V1.php:59-60 | the item at the given index has every incoming key written and the quote is saved once (`AfterSaves`); every other item unchanged |
| ItemV1.EntityDeleteV1 | app/code/community/Aoe/CartApi/Model/Item/Rest/V1.php:69-75 | answers and leaves the items as `EntityDeleted` with code 200: 404 with the items unchanged, or the item at the found index deleted, every other item unchanged, and the default 200 with no body; a 404 leaves the quote's view alone, a success saves it once (`AfterSaves`) |
| ItemV1.DispatchV1 | app/code/community/Aoe/CartApi/Model/Item/Rest/V1.php:32-79 | the quote is loaded; collection retrieve and create end as `CollectionV1` states, entity operations as `EntityV1` states with the same item objects; anything else, collection delete included, is 405 with the items unchanged; the quote's data, billing, shipping and totals flag end as loaded after a read or a failure, one save on (`AfterSaves`) otherwise |
| ItemV1.NoCollectionDelete | app/code/community/Aoe/CartApi/Model/Item/Rest/V1.php:36-78 | collection delete is not among the operations this version handles |
| ItemV1.DispatchCollectionV1 | app/code/community/Aoe/CartApi/Model/Item/Rest/V1.php:37-52 | collection retrieve is 200 with the plain listing and nothing changed; collection create is the outcome of `CreatedV1`, the new items appended, the item saved and rendered with 201 or 200; the quote's view is unchanged by a retrieve or a failure, one save on (`AfterSaves`) otherwise |
| ItemV1.DispatchEntityV1 | app/code/community/Aoe/CartApi/Model/Item/Rest/V1.php:53-75 | entity retrieve is `EntityRetrievedV1`; entity create and update are `EntityUpdatedV1`; entity delete is `EntityDeleted` with the default 200; a retrieve or a failure leaves the quote's view alone, a success saves it once (`AfterSaves`) |
| Crosssell.CrosssellProductsMembers | app/code/community/Aoe/CartApi/Model/Crosssell.php:181-221 | a cart without products has no cross-sells; otherwise the cross-sells are exactly the linked products whose id is not in the cart, in the collection's order |
| Crosssell.ExcludingMembers | app/code/community/Aoe/CartApi/Model/Crosssell.php:197 | excluding the cart's ids keeps exactly the products whose id is not among them |
| Crosssell.ProductIdsMembers | app/code/community/Aoe/CartApi/Model/Crosssell.php:183-189 | the cart's product ids are exactly those of its items that are not deleted and have a product |
| Crosssell.CartProductIds | app/code/community/Aoe/CartApi/Model/Crosssell.php:183-189 | the loop over the items collects `ProductIds` |
| Crosssell.GetCrosssellProducts | app/code/community/Aoe/CartApi/Model/Crosssell.php:181-221 | the loop and then the cross-sell collection of those ids, empty when the cart has no products |
| Crosssell.CrossRename | app/code/community/Aoe/CartApi/Model/Crosssell.php:12-14 | 'url' is the one code the map renames, to url_in_store |
| Crosssell.StockTestsNeverFire | app/code/community/Aoe/CartApi/Model/Crosssell.php:108-140 | the stock tests look for manual names among the internal names of the read plan, from which those names were removed, so they never succeed, whatever is requested |
| Crosssell.UrlInStoreNotStock | app/code/community/Aoe/CartApi/Model/Crosssell.php:12-14 | url_in_store is not a stock field, so the rename does not revive a stock test |
| Crosssell.RawLookup | app/code/community/Aoe/CartApi/Model/Crosssell.php:106-150 | the built data holds each requested code that is not a manual attribute, read under its internal name, and the image URLs when images is requested; stock fields are never set |
| Crosssell.CrossTypesDistinct | app/code/community/Aoe/CartApi/Model/Crosssell.php:21-34 | the type map names each code once |
| Crosssell.ProductProjectionLookup | app/code/community/Aoe/CartApi/Model/Crosssell.php:106-172 | a product's projection is sorted by key and holds exactly the requested codes: each readable one with its built value, typed, and null for a code the filter hides or a stock field |
| Crosssell.StockFieldsNull | app/code/community/Aoe/CartApi/Model/Crosssell.php:122-140 | a requested stock field is always null |
| Crosssell.ImagesNotStock | app/code/community/Aoe/CartApi/Model/Crosssell.php:40-48 | images is not a stock field |
| Crosssell.UrlFromUrlInStore | app/code/community/Aoe/CartApi/Model/Crosssell.php:12-14 | a readable requested url is the product's url_in_store, as a string |
| Crosssell.PrepareProduct | app/code/community/Aoe/CartApi/Model/Crosssell.php:106-172 | returns the product's projection under the filter |
| Crosssell.CollectionDistinct | app/code/community/Aoe/CartApi/Model/Crosssell.php:94-96 | the collection has one entry per key |
| Crosssell.CollectionKeyFrom | app/code/community/Aoe/CartApi/Model/Crosssell.php:94-96 | a key of the collection is the SKU of a cross-sell product |
| Crosssell.CollectionKeyTo | app/code/community/Aoe/CartApi/Model/Crosssell.php:94-96 | the SKU of every cross-sell product is a key of the collection |
| Crosssell.CollectionEntry | app/code/community/Aoe/CartApi/Model/Crosssell.php:94-96 | a product whose SKU no later product repeats is filed with its own projection |
| Crosssell.PrepareCollection | app/code/community/Aoe/CartApi/Model/Crosssell.php:73-104 | a virtual quote gives an empty collection before the state is touched; otherwise every cross-sell filed under its SKU under the collection-retrieve filter, with the state restored |
| Crosssell.CollectCrosssells | app/code/community/Aoe/CartApi/Model/Crosssell.php:91-96 | the cross-sells of the quote, each prepared and filed under its SKU |
| Crosssell.CollectProducts | app/code/community/Aoe/CartApi/Model/Crosssell.php:94-96 | the loop files each product's projection under its SKU, computing `CollectionOf` |
| Crosssell.Dispatch | app/code/community/Aoe/CartApi/Model/Crosssell.php:53-64 | collection retrieve renders the collection of the quote as loaded: empty for a virtual quote, else the cross-sells of its items; anything else is 405; either way the quote and billing end as loaded (`AfterLoad`), and the address objects, the virtual flag and the items are unchanged |
| Cart.CartTypesDistinct | app/code/community/Aoe/CartApi/Model/Cart.php:10-15 | the cart's type map names each code once |
| Cart.ColumnLookup | app/code/community/Aoe/CartApi/Model/Cart.php:120-125 | each array the totals loop fills holds, under every total's code, the picked part of that total and nothing else |
| Cart.TitledAllLookup | app/code/community/Aoe/CartApi/Model/Cart.php:127-129 | the title loop adds to each typed total the title of its code and adds no entry |
| Cart.TotalsLookup | app/code/community/Aoe/CartApi/Model/Cart.php:116-130 | every total of the quote appears under its code, its value cast to a currency amount (when a scalar or null) with its title added; there is no other entry |
| Cart.TypedTotalsLookup | app/code/community/Aoe/CartApi/Model/Cart.php:122-126 | `fixTypes` with every total typed currency casts each total's value and keeps its code |
| Cart.TotalEntryShape | app/code/community/Aoe/CartApi/Model/Cart.php:126-129 | a scalar total reads as its currency code, rounded amount and formatted text, followed by its title |
| Cart.CollectTotalsData | app/code/community/Aoe/CartApi/Model/Cart.php:117-129 | the two loops over the totals compute `TotalsFields` |
| Cart.GroupedLookup | app/code/community/Aoe/CartApi/Model/Cart.php:134-138 | the messages are grouped by type: a type holds the texts of its messages in order, and a type with no message does not appear |
| Cart.TextsOfHolds | app/code/community/Aoe/CartApi/Model/Cart.php:137 | every message's text is among the texts of its type |
| Cart.AsListsLookup | app/code/community/Aoe/CartApi/Model/Cart.php:134-138 | each group is rendered as a list under its type |
| Cart.GroupMessages | app/code/community/Aoe/CartApi/Model/Cart.php:135-138 | the loop over the messages computes `Grouped` |
| Cart.EmbeddedLookup | app/code/community/Aoe/CartApi/Model/Cart.php:153-195 | an embed the caller asked for and may call holds its sub-resource's rendering; every other key is left alone |
| Cart.EmbedsUntyped | app/code/community/Aoe/CartApi/Model/Cart.php:10-15 | no embed name is in the cart's type map, so an embedded rendering is never cast |
| Cart.RawLookup | app/code/community/Aoe/CartApi/Model/Cart.php:97-139 | the built data holds shipping_method and qty always, every other requested code read from the quote, totals and messages when requested; nothing else |
| Cart.RawDistinct | app/code/community/Aoe/CartApi/Model/Cart.php:97-139 | the data built for the cart has no code twice |
| Cart.ReadPart | app/code/community/Aoe/CartApi/Model/Cart.php:97-103 | the read loop reads exactly the requested codes that are not manual, each as the quote holds it |
| Cart.CartProjectionShape | app/code/community/Aoe/CartApi/Model/Cart.php:81-216 | sorted by key; an embed asked for (or a default one) whose sub-resource the caller may call holds that rendering, whether or not the filter lets it through; otherwise a readable built code holds its typed value; every other requested code is null; nothing else |
| Cart.CartProjectionAt | app/code/community/Aoe/CartApi/Model/Cart.php:81-216 | the projection rule of `CartProjectionShape` at any single code |
| Cart.CartTypeOf | app/code/community/Aoe/CartApi/Model/Cart.php:10-15 | qty is cast to a float and shipping_method to text |
| Cart.NotEmbeds | app/code/community/Aoe/CartApi/Model/Cart.php:153-195 | qty, shipping_method and payment call no sub-resource |
| Cart.CartQty | app/code/community/Aoe/CartApi/Model/Cart.php:112-113 | the readable qty is the item quantity or the item count, as the use_qty setting says, as a float |
| Cart.CartShippingMethod | app/code/community/Aoe/CartApi/Model/Cart.php:109-110 | the readable shipping_method is the shipping address's, as text |
| Cart.CartPaymentNotEmbedded | app/code/community/Aoe/CartApi/Model/Cart.php:191-193 | payment is never embedded: an unreadable payment code is null when requested and absent otherwise |
| Cart.PrepareResource | app/code/community/Aoe/CartApi/Model/Cart.php:81-216 | computes `CartProjection` under the entity-retrieve filter; the state restored |
| Cart.ReadCart | app/code/community/Aoe/CartApi/Model/Cart.php:97-139 | the raw data is `Raw`: by `RawLookup`, the requested non-manual codes from the quote, shipping_method and qty always, totals and messages when requested |
| Cart.EmbedAll | app/code/community/Aoe/CartApi/Model/Cart.php:154-195 | the embed loop computes `Embedded` |
| Cart.UpdateResource | app/code/community/Aoe/CartApi/Model/Cart.php:226-266 | the fields the filter lets in, renamed, are written and the totals collected; a coupon code the collection did not keep is 400 'Failed validation' with the state left at entity update; otherwise the state restored |
| Cart.WriteQuote | app/code/community/Aoe/CartApi/Model/Cart.php:243-245 | the write loop sets every incoming field in order and touches nothing else |
| Cart.CouponRule | app/code/community/Aoe/CartApi/Model/Cart.php:250-258 | a body without a coupon code is never refused; one with a coupon code is refused exactly when the quote does not hold it after the collection |
| Cart.DeactivatedInactive | app/code/community/Aoe/CartApi/Model/Cart.php:63-68 | deleting a cart leaves it inactive; only its email can change besides |
| Cart.Dispatch | app/code/community/Aoe/CartApi/Model/Cart.php:45-74 | entity retrieve renders the quote and shipping data as loaded and changes nothing else; entity create and update fail with 400 before saving, with the written quote (totals collected) and the addresses unchanged, exactly when the coupon is refused, else the quote and billing end as `Synced` of the written quote with its totals collected, shipping collects rates, and that state is rendered; entity delete deactivates and saves a quote that has an id (the email sync, then the totals collection unless already done; shipping collects rates) and otherwise changes nothing, answering with no body; anything else 405 with the data as loaded |
| Cart.WriteCart | app/code/community/Aoe/CartApi/Model/Cart.php:53-62 | a refused coupon fails with 400 before the save, with only the quote data written and its totals collected; otherwise the quote and billing end as `Synced` of that quote, shipping collects rates, and exactly that state is rendered; the totals-collected flag ends set |
| Cart.DeleteCart | app/code/community/Aoe/CartApi/Model/Cart.php:63-70 | a quote with an id is deactivated and saved: the email sync, shipping collects rates, and the totals are collected unless the flag was already set, which it is afterwards; a quote without one keeps all its data; the reply has no body |
| CartV1.CartMapV1Facts | app/code/community/Aoe/CartApi/Model/Cart/Rest/V1.php:10-12 | 'total' stands for grand_total and no other key is renamed |
| CartV1.CartTypesV1 | app/code/community/Aoe/CartApi/Model/Cart/Rest/V1.php:19-22 | qty is a float, total a currency amount; no other code is typed |
| CartV1.EmbeddedV1Lookup | app/code/community/Aoe/CartApi/Model/Cart/Rest/V1.php:85-104 | items and the two addresses are set to their renderings exactly when readable and their sub-resource may be called; other keys are kept |
| CartV1.UnmappedQuote | app/code/community/Aoe/CartApi/Model/Cart/Rest/V1.php:74-77 | the quote's fields, unmapped: 'total' holds grand_total, grand_total is gone, every other field is kept |
| CartV1.RawV1Lookup | app/code/community/Aoe/CartApi/Model/Cart/Rest/V1.php:73-104 | the built data holds the unmapped quote fields, shipping_method, qty and the embeds that apply, with their values, and nothing else |
| CartV1.ProjectionV1Shape | app/code/community/Aoe/CartApi/Model/Cart/Rest/V1.php:63-131 | sorted by key; for a quote with no field named 'total' it holds each readable built code, typed, with every other requested code null and nothing else |
| CartV1.ProjectionV1Total | app/code/community/Aoe/CartApi/Model/Cart/Rest/V1.php:10-22 | a readable 'total' is the quote's grand_total as a currency amount |
| CartV1.ProjectionV1GrandTotal | app/code/community/Aoe/CartApi/Model/Cart/Rest/V1.php:10-12 | grand_total is never rendered with a value under its own name: null when requested, absent otherwise |
| CartV1.ProjectionV1Embeds | app/code/community/Aoe/CartApi/Model/Cart/Rest/V1.php:85-107 | items and the two addresses are embedded exactly when readable and their sub-resource may be called; otherwise, when the quote stores no such field, null when requested and absent when not |
| CartV1.PrepareResourceV1 | app/code/community/Aoe/CartApi/Model/Cart/Rest/V1.php:63-131 | computes `ProjectionV1` under the entity-retrieve filter; the state restored |
| CartV1.ReadCartV1 | app/code/community/Aoe/CartApi/Model/Cart/Rest/V1.php:73-104 | the raw data is the quote's fields with grand_total as 'total', the shipping method, the quantity, and the embeds that apply |
| CartV1.DispatchV1 | app/code/community/Aoe/CartApi/Model/Cart/Rest/V1.php:27-56 | entity retrieve renders the quote and shipping data as loaded and changes nothing else; entity create and update write the body ('total' to grand_total), collect the totals, and fail with 400 before saving exactly when the coupon is refused, else the quote and billing end as `Synced`, shipping collects rates, and that state is rendered; entity delete deactivates and saves a quote with an id (the email sync, the totals collection unless already done, shipping collects rates) and otherwise changes nothing; anything else 405 with the data as loaded |
| CartV1.WriteCartV1 | app/code/community/Aoe/CartApi/Model/Cart/Rest/V1.php:35-44 | a refused coupon fails with 400 before the save, with only the quote data written and its totals collected; otherwise the quote and billing end as `Synced` of that quote, shipping collects rates, and exactly that state is rendered; the totals-collected flag ends set |

## Left out

**Persistence and Magento internals**
- Persistence: `save()`, `delete()`, `load()` and `submitOrder` are not modelled as storage. `QuoteSync.SaveQuote` performs the email reconciliation, the collect-shipping-rates flag and the totals collection. `QuoteSync.HelperSaveQuote` does the same and also resets the cached item totals of an empty cart. The outcome of `submitOrder` is an input: the new order's increment id, or the message of the exception it throws (`Place.Submission`). Nothing in the resource catches that exception; the model answers it as a 500 fault carrying the message. How Magento's REST server renders an uncaught exception (it may hide the message outside developer mode) is not modelled.
- `collectTotals`: its effect on the quote's own data is the parameter `collect`, applied once per quote object because of the totals-collected flag (`QuoteSync.CollectTotals`). The totals it writes onto the address objects are not modelled. `collectShippingRates`: its effect on the shipping address's data is the parameter `collectRates`.
- `getTotals`, `getMessages`, `addProduct`, `importData`, `exportCustomerAddress`, `setCustomer`/`assignCustomer`, `isApplicableToQuote`, the address forms and `validate()`: Magento's own code. Each is an uninterpreted function given as a parameter. Only what the extension does with its result is modelled.
- The internals of `Mage_Api2_Model_Acl_Filter`: not modelled. `in`, `out` and the attribute lists are inputs, as above.
- Observer hooks (`Mage::dispatchEvent`): modelled as the identity.
- HTTP transport: the `Location`/`Content-Location` headers and the response mime type are not modelled. A reply is a status code and a body, and a fault is a code and a message.
- The `setException` call that carries the "Coupon code … is not valid" text: not modelled. Only the 400 'Failed validation' fault is.
- `setCustomerAddress` and `setInfoInstance`: not modelled, because they only link Magento objects.
- `$item->save()`: a new item gets the id given as `newId` (`Item.SaveItem`); in the first version the quote's save saves the item the same way. Only the item a create renders is saved with that id. A child item `addProduct` adds beside its parent keeps the data `addProduct` gave it, so whether the rendered parent lists it depends on that data.
- Item.IdKey: an item without an id is filed under "0", where PHP's `$data[$item->getId()]` files it under "". Only saved items, which have ids, are listed.
- `$item->delete()` and `deleteItem`: the model flags the item deleted in the quote's collection; the object stays in the collection.

**PHP semantics and numbers**
- Floating point: currency precision, rounding and locale formatting are abstract functions of a locale, as are float-to-string conversion, `round(price * 10000)` and the rates' carrier sort order. Amounts are `real`.
- `intval`/`floatval`: exponent notation and saturation at PHP_INT_MAX are not modelled.
- `ksort` compares keys as byte strings. PHP's numeric-string key comparison is not modelled.
- `toArray()` order: modelled as the key-sorted order of the object's fields.
- `array_merge` renumbering of integer keys: not modelled, because the model's arrays have string keys only.
- PHP's loose `!=` and `==` on ids: `Address.OtherCustomer`, `Item.ChildEntries` and `Item.LoadItem` cast both sides with `ToInt` and compare the integers.
- Region.ApplyResolutionIsWriteRow: in `ApplyResolution` and `Resolves` the loose `==` between the loaded region's country id and the requested one is modelled as strict equality of `Value`s, which differs from PHP only on type-juggled inputs such as the string '1' against the integer 1.
- Cart.CouponRefused: the loose `!=` between the collected and the requested coupon code is modelled as strict inequality of `Value`s, which differs from PHP only on type-juggled inputs such as the string '1' against the integer 1.
- `in_array` on the include list compares strings with strings, so it is modelled as membership.
- The currency code of the store is an input.

**Resource-specific gaps**
- ShippingMethod.SortRates: PHP's `uasort` is modelled as a stable insertion sort. PHP before 8.0 does not promise stability, so rates the comparator calls equal may come out in another order.
- ShippingMethod.InsertRate: its own contract states only the resulting multiset. That insertion keeps the order is proved by `InsertRateSorted`, and the sort's correctness by `SortRatesCorrect`.
- The image helper's resizing (`is_numeric` sizes), product URLs and the product type option: inputs.
- Cart totals, messages and embedded sub-resource renderings: inputs of the cart context.
- ShippingAddressV1.ProjectionV1Shape, ShippingAddressV1.ProjectionV1Total, ShippingAddressV1.ProjectionV1GrandTotal and ShippingAddressV1.UnmappedV1 require the address to store no field under a short name (method, shipping, discount, tax, total). For an address that stores one, that field and the internal field it stands for are unmapped to the same key, and the later of the two in field order wins.
- CartV1.RawV1Lookup, CartV1.ProjectionV1Shape, CartV1.ProjectionV1Embeds, CartV1.ProjectionV1Total, CartV1.ProjectionV1GrandTotal and CartV1.UnmappedQuote require the quote to store no field named 'total'. For a quote that stores one, `unmapAttributes` sends grand_total and that field to the same key, and the later of the two in field order wins.
- Concurrency and the checkout session singleton: the session's quote is a parameter.
