# Google Base product feed, modelled in Dafny

The feed publishes product data from a shop in the RSS dialect of Google
Base (Google Product Search). Two classes do the work:

- `GoogleProducts` (feeds.py) maps one store product to its feed record.
  The record has a title, a campaign-tagged link, a description capped at
  10000 characters that ends with the list of in-stock sizes, and a
  dictionary of Google Base fields. The in-stock sizes are trimmed to ten
  by `filter_sizes`, which drops half sizes first. The Google category is
  looked up from the product's first category. The image links come from
  the product's gallery: at most eleven images, and only those that have a
  full-size rendition.
- `GoogleProductsFeed` (google.py) writes one record as `g:` elements
  through a SAX-style handler. It always writes availability "in stock",
  then every field that is not `None`. Fields with an enum tuple are
  written only when their value is in the tuple. List fields give one
  element per entry. The first image is `g:image_link` and the rest are
  `g:additional_image_link`. The item price is always written, and a
  free-shipping block closes every item. A separate method adds the two
  Google namespaces to the feed's root attributes.

The project has four modules:

- `PyLib` (pylib.dfy) holds the Python value semantics the code relies on:
  `None` as `Option`, an escaping exception as `Result`, slicing with
  negative and clamped bounds, `%s` formatting, `str.join` with its
  inverse `split`, and `str(int)` with its inverse `int(str)`.
- `SizeFilter` (sizes.dfy) holds `filter_sizes` twice. One copy is the
  loop as written, which the record pipeline uses, and the other is the
  corrected loop; see Findings.
- `GoogleFeed` (google.dfy) models the handler as a class whose `events`
  field records the calls made on it, in order. `AddItemElements` is
  proved to write exactly `ItemEvents(item)`. The emission rules are then
  lemmas about `Texts(tag, events)`, the texts written under one tag.
- `GoogleProducts` (feeds.dfy) holds the mapper. Its functions model the
  pure expressions. Its method `ItemExtraKwargs` builds the record as the
  code does: it calls the `FilterSizesAsWritten` method and fills in the image links
  only when there is a gallery and the list comprehension did not raise.
  The last lemmas follow a record through the writer.

The model follows the code where the code differs from how the feed is
usually described:

- An image whose rendition fails does not skip just that image. The
  exception ends the whole list comprehension, and `image_links` stays
  `None`.
- A product without categories makes `item_extra_kwargs` raise. The
  clause `except ProductCategory.DoesNotExist, IndexError:` is Python 2
  syntax: it catches only `DoesNotExist`, and binds it to the name
  `IndexError`. So the `IndexError` of `categories.all()[0]` escapes, and
  `google_category` does not become `None`.
- The description stays within 10000 characters only while the size list
  itself is at most 10000 characters long. For a longer size list, the
  negative slice bound `DESC_LEN - len(sizes_str)` cuts the excess off the
  end of the notes. The description is then longer than the cap.

## Model

| member | source | states |
|---|---|---|
| `PyLib.SliceTo` | feeds.py:52 | `s[:stop]` is a prefix of `s`; its length is `min(stop, len)` for `stop >= 0`, and `max(0, len + stop)` for a negative `stop` |
| `PyLib.SliceFrom` | feeds.py:66 | `s[start:]` is a suffix of `s`: of length `len(s) - start` clamped at 0 for a non-negative `start`, and of the last `-start` entries (at most all of them) for a negative one |
| `PyLib.FormatLiteral` | feeds.py:42 | in `%` formatting, literal text before the first conversion is copied unchanged |
| `PyLib.FormatConversion` | feeds.py:42 | a leading `%s` is replaced by the first argument |
| `PyLib.SplitJoin` | feeds.py:50 | `','.join` of pieces without a comma is undone by splitting at commas |
| `PyLib.NatToStrDigits` | feeds.py:104 | `str(n)` of a natural number has only digits, no leading zero, and reads back as `n` |
| `PyLib.IntToStrRoundTrip` | feeds.py:104 | `int(str(n)) == n` for every integer, including negative ones |
| `PyLib.SubsequencePrefix` | feeds.py:71-73 | popping from the end of a subsequence leaves a subsequence |
| `SizeFilter.HalfSizeSuffix` | feeds.py:66 | `str(size)[-2:] == '.5'` holds exactly when the last two characters are `.` and `5`, so a string shorter than two is never a half size |
| `SizeFilter.WholesAndHalves` | feeds.py:64-70 | every size is either whole or half; a list without half sizes is its own list of whole sizes |
| `SizeFilter.AsWrittenDropWholes` | feeds.py:64-70 | the first loop as written removes no whole size |
| `SizeFilter.AsWrittenDropSubsequence` | feeds.py:64-70 | the first loop as written keeps the remaining sizes in order |
| `SizeFilter.AsWrittenTrimShape` | feeds.py:60-74 | as written, the result has `min(len(sizes), 10)` entries, is the input itself when that has at most 10, is an order-preserving subsequence of the input, and keeps a prefix of its whole sizes |
| `SizeFilter.AsWrittenStep` | feeds.py:65-69 | one pass of the first loop, including the `i += 1` after a pop, keeps the loop's meaning |
| `SizeFilter.AsWrittenLoopDrops` | feeds.py:65-69 | the index-and-pop loop as written drops a half size and then keeps the next entry without examining it |
| `SizeFilter.AsWrittenLoopFromStart` | feeds.py:62-70 | run from `i = 0`, the first loop as written computes `AsWrittenDrop` |
| `SizeFilter.FilterSizesAsWritten` | feeds.py:60-74 | the two-loop method as written returns `AsWrittenTrim(sizes)` |
| `SizeFilter.DropHalvesShape` | feeds.py:64-70 | the corrected first loop removes exactly `min(surplus, number of half sizes)` entries, all of them half sizes, and keeps the rest in order |
| `SizeFilter.IntendedTrimShape` | feeds.py:60-74 | corrected, the result has `min(len(sizes), 10)` entries, leaves a short list alone, is an order-preserving subsequence, and drops a whole size only after every half size is gone |
| `SizeFilter.IntendedStep` | feeds.py:65-69 | one pass of the corrected first loop keeps the loop's meaning |
| `SizeFilter.IntendedLoopDrops` | feeds.py:65-69 | the corrected index-and-pop loop computes `DropHalves` |
| `SizeFilter.IntendedLoopFromStart` | feeds.py:62-70 | run from `i = 0`, the corrected first loop computes `DropHalves` |
| `SizeFilter.FilterSizes` | feeds.py:60-74 | the corrected two-loop method returns `IntendedTrim(sizes)` |
| `SizeFilter.NoHalfSizes` | feeds.py:64-70 | a list without half sizes passes the first loop untouched, in both versions |
| `SizeFilter.AdjacentHalfSizeSkipped` | feeds.py:65-69 | with two adjacent half sizes and ten whole sizes, the code as written keeps the second half size and loses the last whole size; the corrected loop keeps every whole size |
| `SizeFilter.AdjacentHalfSizeExample` | feeds.py:65-69 | the same for the concrete list `6.5, 7.5, 8, 9, ..., 17`: as written, `7.5` survives and `17` is lost; corrected, exactly the whole sizes 8 to 17 remain |
| `GoogleFeed.Handler.constructor` | google.py:26 | a fresh handler has received no calls |
| `GoogleFeed.Handler.AddQuickElement` | google.py:30 | `addQuickElement(name, text)` appends one element with that text and changes nothing else |
| `GoogleFeed.Handler.StartElement` | google.py:113 | `startElement` appends one opening event |
| `GoogleFeed.Handler.EndElement` | google.py:115 | `endElement` appends one closing event |
| `GoogleFeed.Allowed` | google.py:82-85 | the payments kept by the `in PAYMENT_TYPES` check are never more than the input |
| `GoogleFeed.PriceTextFormat` | google.py:90 | `'%(price)s %(currency)s' % item` is the price, a space, and the currency |
| `GoogleFeed.AddEach` | google.py:39-40 | a `for` loop over a list writes one element per entry, in order |
| `GoogleFeed.AddScalar` | google.py:32-36 | an optional scalar writes one element when present and nothing for `None` |
| `GoogleFeed.AddEnum` | google.py:42-43 | an enum field writes its element only when its value is in the tuple |
| `GoogleFeed.AddList` | google.py:38-40 | a list field writes nothing for `None` and one element per entry otherwise |
| `GoogleFeed.ImageEventsSnoc` | google.py:58-61 | one more link adds one element: `g:image_link` at position 0, `g:additional_image_link` after it |
| `GoogleFeed.AddImageLinks` | google.py:58-61 | the `key` loop writes the first link as `g:image_link` and every later one as `g:additional_image_link` |
| `GoogleFeed.AddImages` | google.py:55-61 | `None` image links write nothing |
| `GoogleFeed.AddAllowed` | google.py:82-85 | the payment loop writes exactly the entries that pass the `in PAYMENT_TYPES` check, in input order |
| `GoogleFeed.AddBaseElements` | google.py:27 | the base RSS elements are replayed onto the handler unchanged |
| `GoogleFeed.AddHeader` | google.py:29-50 | availability, category, brand, colours, condition, EAN and features are written in source order |
| `GoogleFeed.AddMaker` | google.py:63-80 | origin, manufacturer, materials, model number, MPN and online flag are written in source order |
| `GoogleFeed.AddPricing` | google.py:82-93 | payments, payment notes, price and price type are written in source order |
| `GoogleFeed.AddDetails` | google.py:95-111 | product types, quantity, sizes, UPC and videos are written in source order |
| `GoogleFeed.AddShipping` | google.py:113-115 | the closing block is start `g:shipping`, `g:price` "0.00", end `g:shipping` |
| `GoogleFeed.AddItemElements` | google.py:26-115 | `add_item_elements` appends the base elements and then exactly `ItemEvents(item)` to what the handler already holds |
| `GoogleFeed.TagNamesQualified` | google.py:29-115 | every element name the writer passes starts with the `g:` prefix, the namespace `rss_attributes` declares |
| `GoogleFeed.RssAttributes` | google.py:20-24 | the attributes are the base ones plus `xmlns:g` and `xmlns:c` with the two Google URIs; every other base attribute is unchanged |
| `GoogleFeed.TextsAppend` | google.py:26-115 | reading the texts of one tag distributes over concatenated event streams |
| `GoogleFeed.TextsOfList` | google.py:39-40 | a repeated element's texts are the list itself, and other tags read nothing from it |
| `GoogleFeed.TextsOfImages` | google.py:58-61 | the image block reads back as the first link under `g:image_link` and the rest under `g:additional_image_link` |
| `GoogleFeed.TextsOfShipping` | google.py:113-115 | the shipping block holds one `g:price` text, "0.00", and nothing for any other tag |
| `GoogleFeed.AllowedMembers` | google.py:82-85 | an entry is written as a payment if and only if it is in the input and in `PAYMENT_TYPES` |
| `GoogleFeed.AllowedSubsequence` | google.py:82-85 | the written payments keep the input order: they are a subsequence of the input |
| `GoogleFeed.AllowedAll` | google.py:82-85 | when every input entry is in `PAYMENT_TYPES`, all of them are written, in order |
| `GoogleFeed.PaymentsFiltered` | google.py:82-85 | the `g:payment_accepted` texts of an item are exactly the valid entries of its payment list |
| `GoogleFeed.ItemFrame` | google.py:26-115 | right after the base elements comes `g:availability` "in stock", the only availability text; every item ends with the three shipping events |
| `GoogleFeed.PriceAlways` | google.py:90-114 | the `g:price` texts of an item are `price + " " + currency` followed by the shipping price "0.00", whatever the other fields hold |
| `GoogleFeed.ScalarFieldsOnce` | google.py:32-107 | each of the ten scalar fields gives exactly its value under its tag when present, and nothing for `None` |
| `GoogleFeed.EnumFieldsChecked` | google.py:42-93 | condition, online flag and price type are written exactly when their value is in `CONDITIONS`, `ONLINE_ONLY` or `PRICE_TYPES` |
| `GoogleFeed.ListFieldsRepeated` | google.py:38-40 | colours, features, materials, product types, sizes and videos read back as exactly their lists, in order |
| `GoogleFeed.ImageLinksTagged` | google.py:55-61 | for `n` links exactly `n` image elements are written: the first as `g:image_link`, the others as additional links, together the links in order |
| `GoogleProducts.TitleFormat` | feeds.py:42 | the title template formats to brand, a space, short name, a comma and a space, and colour |
| `GoogleProducts.ItemTitle` | feeds.py:41-42 | the title is `brand + " " + short_name + ", " + colour` |
| `GoogleProducts.LinkFormat` | feeds.py:57 | the link template formats to `"http://" + domain + url + query` |
| `GoogleProducts.ItemLink` | feeds.py:56-57 | the link is `"http://" + domain + url` followed by the fixed `utm_source`, `utm_medium` and `utm_campaign` query |
| `GoogleProducts.SizesFormat` | feeds.py:50 | the size template formats to its label followed by the joined sizes |
| `GoogleProducts.SizesText` | feeds.py:50 | the size suffix is `" Sizes in stock: "` followed by the comma-joined sizes |
| `GoogleProducts.DescriptionFormat` | feeds.py:51-54 | `'%s%s' % (a, b)` is `a + b` |
| `GoogleProducts.ItemDescription` | feeds.py:44-54 | the description always ends with the whole size suffix |
| `GoogleProducts.DescriptionShape` | feeds.py:50-54 | the text before the suffix is a prefix of the notes; with a suffix within the cap, the length is `min(len(notes) + len(suffix), 10000)` and the notes are kept whole when they fit; with a longer suffix, the negative slice drops the excess from the end of the notes |
| `GoogleProducts.DescriptionListsSizes` | feeds.py:50-54 | comma-free sizes can be read back from the end of the description: it lists every in-stock size, untrimmed |
| `GoogleProducts.Colors` | feeds.py:87 | the colours are the first `min(#tags, 9)` colour tags in order, then the primary colour last: at most 10 entries |
| `GoogleProducts.InChain` | feeds.py:103 | an entry is in the chained taxonomy lists exactly when some category lists it |
| `GoogleProducts.Distinct` | feeds.py:103 | `list(set(xs))` has no duplicates and the same members as `xs` |
| `GoogleProducts.DistinctCardinality` | feeds.py:103 | a list without duplicates has as many entries as its set |
| `GoogleProducts.ProductTypes` | feeds.py:103 | there are at most 10 product types |
| `GoogleProducts.ProductTypesShape` | feeds.py:103 | the product types have no duplicates, each comes from some category, there are `min(#distinct entries, 10)` of them, and all distinct entries are listed when there are at most 10 |
| `GoogleProducts.GetRootCat` | feeds.py:76-82 | the lookup fails exactly when there is no category; otherwise its result is `None` or a value of `ROOT_CAT_TO_GCAT` |
| `GoogleProducts.RootCategoryTable` | feeds.py:26-29 | the result is the shoes entry exactly for root "Sneakers" and the clothing entry exactly for root "Clothing"; no other value occurs |
| `GoogleProducts.ImageFormat` | feeds.py:113 | the image template formats to `"http://" + domain + path` |
| `GoogleProducts.ImageUrl` | feeds.py:113-114 | an image link is the full-size path on the current site |
| `GoogleProducts.Fullsizes` | feeds.py:116 | the images that have a full-size rendition are never more than the images |
| `GoogleProducts.FullsizesMembers` | feeds.py:116 | a path is listed exactly when some gallery image was rendered with that full-size path, in both directions |
| `GoogleProducts.GalleryLinksShape` | feeds.py:112-120 | the comprehension raises exactly when some image's rendition fails; otherwise it gives one link per full-size path, in gallery order |
| `GoogleProducts.ImageLinksShape` | feeds.py:110-120 | `image_links` is `None` exactly when there is no gallery or one of the first 11 images fails; otherwise it is at most 11 links, those of the first 11 images that have a full-size rendition |
| `GoogleProducts.ImageLinksOf` | feeds.py:113-114 | one link per path, each the path on the current site |
| `GoogleProducts.ItemExtraKwargs` | feeds.py:59-122 | the method builds exactly the record `ProductData` describes, or fails with the `IndexError` of a product without categories |
| `GoogleProducts.RecordEnums` | feeds.py:88-102 | a record's condition "new" and online flag "y" are written by the writer; no price type is written |
| `GoogleProducts.AcceptedPaymentsKnown` | feeds.py:98 | Visa, MasterCard and AmericanExpress all pass the writer's payment check |
| `GoogleProducts.RecordPayments` | feeds.py:98 | all three payment methods of a record are written, in order |
| `GoogleProducts.RecordPrice` | feeds.py:100-101 | the record's price is written as the selling price followed by " GBP", and then the shipping price |
| `GoogleProducts.RecordScalars` | feeds.py:85-104 | brand, manufacturer, quantity, MPN, payment note and category reach the feed as given; EAN, UPC, origin and model number are never written |
| `GoogleProducts.RecordUnsetLists` | feeds.py:90-107 | features, materials and videos are never written |
| `GoogleProducts.RecordSizes` | feeds.py:105 | a written record has `min(#sizes, 10)` size elements, which are `filter_sizes` as written (`AsWrittenTrim`) of the in-stock sizes and keep their order |
| `GoogleProducts.RecordColorsAndTypes` | feeds.py:87-103 | a written record has between 1 and 10 colours, the last being the primary colour, and at most 10 product types |
| `GoogleProducts.RecordImages` | feeds.py:110-116 | a written record has at most one main image and at most 10 additional images |
| `GoogleProducts.QuantityReadsBack` | feeds.py:104 | the written quantity reads back as the stock count |

## Left out

- The Django `Feed` and `Rss201rev2Feed` machinery is not modelled: routing, `items()`, `__call__` (which resets `item_sizes` and dispatches the request), and the base `add_item_elements` and `rss_attributes`. The base elements are an input event sequence and the base attributes an input map.
- The ORM and other libraries are not called. `categories.all()`, `colour_tags.values_list`, `gallery().images.all()`, `get_prices()`, `denorm_stock` and `Site.objects.get_current()` become fields of `Product` and a `domain` parameter.
- `get_item_sizes`: the `item_sizes` dictionary is filled outside this code, so the sizes of a product are a parameter. A missing key (`KeyError`) is not modelled.
- `strip_tags` is a foreign HTML routine: the product carries the stripped notes.
- Thumbnail rendering is not modelled: each gallery image is a `Thumbnail`, either the optional full-size path or a failed rendition. `OverflowError` and `ThumbnailException` are both that failure.
- `cat.get_root()` walks the category tree; each category carries its root's title instead.
- `ProductCategory.DoesNotExist` cannot arise from indexing a list, so that `except` branch returning `None` is not modelled.
- `str(item.get_prices()['selling'])` formats a decimal; the selling price enters as that string.
- `GoogleProducts.Distinct`: the order of a Python `set` is unspecified. The model lists each entry at its first occurrence, and the lemmas state only no duplicates, membership, the count and the cap, never the order.
- `GoogleFeed.PriceTextFormat`: the named conversions `%(price)s %(currency)s` are modelled as two positional `%s` conversions over the same two values.
- XML escaping and serialisation belong to the SAX library: the model records the calls made on the handler, not the bytes written.
- `PyLib.Format` models only `%s` conversions of strings; no other conversion occurs in this code.
- Strings are sequences of characters; Python 2's byte and unicode strings are not told apart.

## Findings

| source | as written | input that shows it | evidently intended | confidence | as-written member | corrected member |
|---|---|---|---|---|---|---|
| feeds.py:65-69 | after `sizes.pop(i)` the loop still runs `i += 1`, so the entry that slides into position `i` is never examined | `["6.5", "7.5", "8", ..., "17"]` (two half sizes, then ten whole sizes): `7.5` is kept and the whole size `17` is chopped off the end | advance `i` only past an entry that is kept, so every half size is dropped before any whole size | not executed | `SizeFilter.FilterSizesAsWritten`, `SizeFilter.AdjacentHalfSizeSkipped` | `SizeFilter.FilterSizes`, `SizeFilter.IntendedTrimShape` |

The record pipeline (`GoogleProducts.ProductData` and `GoogleProducts.ItemExtraKwargs`) follows the code and trims sizes with the loop as written. The corrected loop and its properties sit beside it in `SizeFilter` for comparison.
