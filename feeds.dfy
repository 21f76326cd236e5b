/**
 * The product-to-record mapper (`GoogleProducts` in feeds.py): it turns a
 * store product into the title, the link, the description and the
 * dictionary of Google Base fields that the item writer consumes.
 *
 * Everything the code fetches from the database or from other libraries
 * enters as a plain value: the site domain, the tag-stripped editor's
 * notes, the rows of categories, colour tags and gallery images, and the
 * in-stock sizes of the product.
 */
module GoogleProducts {
  import opened PyLib
  import opened SizeFilter
  import opened GoogleFeed

  /** The longest description sent to Google. */
  const DESC_LEN := 10000

  const SHOES_CATEGORY := "Clothing & Accessories > Shoes"
  const CLOTHING_CATEGORY := "Clothing & Accessories > Clothing"

  /** The Google taxonomy entry of each known root category of the store. */
  const ROOT_CAT_TO_GCAT: map<string, string> :=
    map["Sneakers" := SHOES_CATEGORY, "Clothing" := CLOTHING_CATEGORY]

  const TITLE_TEMPLATE := "%s %s, %s"
  /** The campaign-tracking query appended to every product link, one parameter at a time. */
  const UTM_SOURCE := "?utm_source=google_product_search"
  const UTM_MEDIUM := "&utm_medium=organic"
  const UTM_CAMPAIGN := "&utm_campaign=google_product_search"
  const UTM_QUERY := UTM_SOURCE + UTM_MEDIUM + UTM_CAMPAIGN
  const LINK_HEAD := "http://%s%s"
  const LINK_TEMPLATE := LINK_HEAD + UTM_QUERY
  const SIZES_LABEL := " Sizes in stock: "
  const SIZES_TEMPLATE := " Sizes in stock: %s"
  const DESCRIPTION_TEMPLATE := "%s%s"
  const IMAGE_TEMPLATE := "http://%s%s"

  /** The fixed payment methods every record offers. */
  const ACCEPTED_PAYMENTS: seq<string> := ["Visa", "MasterCard", "AmericanExpress"]

  /** A category row: the title of its root category and its Google taxonomy entries. */
  datatype Category = Category(rootTitle: string, googleTaxonomyList: seq<string>)

  /**
   * What reading an image's `extra_thumbnails` gives: the path of its
   * `product_fullsize` rendition when it has one, or a thumbnail error
   * (`OverflowError`, `ThumbnailException`) raised while rendering.
   */
  datatype Thumbnail = Rendered(fullsize: Option<string>) | RenditionFailed

  /** A store product, with the values the feed reads from it and its relations. */
  datatype Product = Product(
    brandName: string,
    shortName: string,
    colour: string,
    absoluteUrl: string,
    notesText: string,
    manufacturerProductCode: Option<string>,
    sellingPrice: string,
    denormStock: int,
    categories: seq<Category>,
    colourTags: seq<string>,
    gallery: Option<seq<Thumbnail>>)

  /** The exception that escapes `item_extra_kwargs`. */
  datatype Raised = IndexError

  // ---------------------------------------------------------------------
  // Title, link and description

  lemma TitleFormat(a: string, b: string, c: string)
    ensures Template(TITLE_TEMPLATE, 3)
    ensures Format(TITLE_TEMPLATE, [a, b, c]) == a + " " + b + ", " + c
  {
    FormatThree("", " ", ", ", "", a, b, c);
    assert "" + ("%s" + (" " + ("%s" + (", " + ("%s" + ""))))) == TITLE_TEMPLATE;
    TitleRegroup(a, " ", b, ", ", c);
  }

  /** `item_title`: brand, short name and colour. */
  function ItemTitle(p: Product): (r: string)
    ensures r == p.brandName + " " + p.shortName + ", " + p.colour
  {
    TitleFormat(p.brandName, p.shortName, p.colour);
    Format(TITLE_TEMPLATE, [p.brandName, p.shortName, p.colour])
  }

  lemma LinkFormat(domain: string, url: string)
    ensures Template(LINK_TEMPLATE, 2)
    ensures Format(LINK_TEMPLATE, [domain, url]) == "http://" + domain + url + UTM_QUERY
  {
    UtmSourcePlain();
    UtmMediumPlain();
    UtmCampaignPlain();
    FormatTwo("http://", "", UTM_QUERY, domain, url);
    assert "http://" + ("%s" + ("" + "%s")) == LINK_HEAD;
    Regroup("http://", "%s", "", "%s", UTM_QUERY);
    assert "http://" + (domain + ("" + (url + UTM_QUERY))) == "http://" + domain + url + UTM_QUERY;
  }

  /** `item_link`: the product page on the current site, tagged for campaign tracking. */
  function ItemLink(domain: string, p: Product): (r: string)
    ensures r == "http://" + domain + p.absoluteUrl + UTM_QUERY
  {
    LinkFormat(domain, p.absoluteUrl);
    Format(LINK_TEMPLATE, [domain, p.absoluteUrl])
  }

  lemma SizesFormat(joined: string)
    ensures Template(SIZES_TEMPLATE, 1)
    ensures Format(SIZES_TEMPLATE, [joined]) == SIZES_LABEL + joined
  {
    FormatOne(SIZES_LABEL, "", joined);
    assert SIZES_LABEL + ("%s" + "") == SIZES_TEMPLATE;
    assert SIZES_LABEL + (joined + "") == SIZES_LABEL + joined;
  }

  /** `' Sizes in stock: %s' % ','.join(sizes)`. */
  function SizesText(sizes: seq<string>): (r: string)
    ensures r == SIZES_LABEL + Join(",", sizes)
  {
    SizesFormat(Join(",", sizes));
    Format(SIZES_TEMPLATE, [Join(",", sizes)])
  }

  lemma DescriptionFormat(a: string, b: string)
    ensures Template(DESCRIPTION_TEMPLATE, 2)
    ensures Format(DESCRIPTION_TEMPLATE, [a, b]) == a + b
  {
    FormatTwo("", "", "", a, b);
    assert "" + ("%s" + ("" + ("%s" + ""))) == DESCRIPTION_TEMPLATE;
    assert "" + (a + ("" + (b + ""))) == a + b;
  }

  /**
   * `item_description`: the stripped notes, cut so that notes and size
   * list together stay within DESC_LEN, then the list of all in-stock
   * sizes, which is never cut.
   */
  function ItemDescription(p: Product, sizes: seq<string>): (r: string)
    ensures |r| >= |SizesText(sizes)| && r[|r| - |SizesText(sizes)|..] == SizesText(sizes)
  {
    var sizesStr := SizesText(sizes);
    var notes := SliceTo(p.notesText, DESC_LEN - |sizesStr|);
    DescriptionFormat(notes, sizesStr);
    Format(DESCRIPTION_TEMPLATE, [notes, sizesStr])
  }

  /**
   * The text in front of the size list is a prefix of the notes. When the
   * size list fits, the description fits too and the notes are cut only
   * as far as needed; when it does not, the negative slice bound still
   * drops its excess from the end of the notes.
   */
  lemma DescriptionShape(p: Product, sizes: seq<string>)
    ensures var d := ItemDescription(p, sizes); var n := |SizesText(sizes)|;
      d == d[..|d| - n] + SizesText(sizes)
      && d[..|d| - n] <= p.notesText
      && (n <= DESC_LEN ==> |d| == Min(|p.notesText| + n, DESC_LEN))
      && (n <= DESC_LEN && |p.notesText| + n <= DESC_LEN ==> d[..|d| - n] == p.notesText)
      && (n > DESC_LEN ==> |d[..|d| - n]| == Max(0, |p.notesText| - (n - DESC_LEN)))
  {
    var s := SizesText(sizes);
    var notes := SliceTo(p.notesText, DESC_LEN - |s|);
    DescriptionFormat(notes, s);
    var d := ItemDescription(p, sizes);
    assert d == notes + s;
    assert d[..|d| - |s|] == notes;
  }

  /** Sizes free of commas can be read back from the end of the description. */
  lemma DescriptionListsSizes(p: Product, sizes: seq<string>)
    requires |sizes| > 0
    requires forall k :: 0 <= k < |sizes| ==> ',' !in sizes[k]
    ensures var d := ItemDescription(p, sizes);
      |d| >= |Join(",", sizes)| && Split(',', d[|d| - |Join(",", sizes)|..]) == sizes
  {
    var d := ItemDescription(p, sizes);
    var s := SizesText(sizes);
    var j := Join(",", sizes);
    assert s == SIZES_LABEL + j;
    SuffixOfSuffix(d, s, j);
    assert "," == [','];
    SplitJoin(',', sizes);
  }

  // ---------------------------------------------------------------------
  // The fields of the record

  /** `colors`: the first nine colour tags in order, then the primary colour. */
  function Colors(p: Product): (r: seq<string>)
    ensures |r| == Min(|p.colourTags|, MAX_ATTRS - 1) + 1
    ensures r[..|r| - 1] == p.colourTags[..|r| - 1]
    ensures r[|r| - 1] == p.colour
  {
    SliceTo(p.colourTags, MAX_ATTRS - 1) + [p.colour]
  }

  /** `itertools.chain.from_iterable`: all taxonomy entries of all categories, in order. */
  function Chain(cats: seq<Category>): seq<string>
  {
    if cats == [] then [] else cats[0].googleTaxonomyList + Chain(cats[1..])
  }

  lemma {:induction false} InChain(cats: seq<Category>, x: string)
    ensures x in Chain(cats) <==> exists k :: 0 <= k < |cats| && x in cats[k].googleTaxonomyList
  {
    if cats != [] {
      InChain(cats[1..], x);
      assert forall k :: 1 <= k < |cats| ==> cats[k] == cats[1..][k - 1];
      if x in Chain(cats[1..]) {
        var k :| 0 <= k < |cats[1..]| && x in cats[1..][k].googleTaxonomyList;
        assert x in cats[k + 1].googleTaxonomyList;
      }
    }
  }

  /** All distinct taxonomy entries of the categories. */
  function Taxonomies(cats: seq<Category>): set<string>
  {
    set x | x in Chain(cats)
  }

  predicate NoDuplicates(s: seq<string>)
  {
    forall i, j :: 0 <= i < j < |s| ==> s[i] != s[j]
  }

  /**
   * `list(set(xs))`, listing each entry at its first occurrence (Python
   * leaves the order of a set unspecified).
   */
  function Distinct(xs: seq<string>): (r: seq<string>)
    ensures NoDuplicates(r)
    ensures forall x :: x in r <==> x in xs
  {
    if xs == [] then []
    else
      var d := Distinct(xs[..|xs| - 1]);
      var last := xs[|xs| - 1];
      assert forall x :: x in xs <==> x in xs[..|xs| - 1] || x == last by {
        assert xs == xs[..|xs| - 1] + [last];
      }
      if last in d then d else d + [last]
  }

  /** A list without duplicates has as many entries as its set. */
  lemma {:induction false} DistinctCardinality(s: seq<string>)
    requires NoDuplicates(s)
    ensures |set x | x in s| == |s|
  {
    if s != [] {
      var init := s[..|s| - 1];
      var last := s[|s| - 1];
      DistinctCardinality(init);
      assert s == init + [last];
      assert (set x | x in s) == (set x | x in init) + {last};
      assert last !in (set x | x in init);
    }
  }

  /** `product_types`: at most ten distinct taxonomy entries of the categories. */
  function ProductTypes(cats: seq<Category>): (r: seq<string>)
    ensures |r| <= MAX_ATTRS
  {
    SliceTo(Distinct(Chain(cats)), MAX_ATTRS)
  }

  /**
   * The product types have no duplicates, each comes from some category,
   * there are as many as there are distinct entries up to ten, and all of
   * them are listed when there are at most ten.
   */
  lemma ProductTypesShape(cats: seq<Category>)
    ensures NoDuplicates(ProductTypes(cats))
    ensures forall x :: x in ProductTypes(cats) ==>
      exists k :: 0 <= k < |cats| && x in cats[k].googleTaxonomyList
    ensures |ProductTypes(cats)| == Min(|Taxonomies(cats)|, MAX_ATTRS)
    ensures |Taxonomies(cats)| <= MAX_ATTRS ==> (set x | x in ProductTypes(cats)) == Taxonomies(cats)
  {
    var d := Distinct(Chain(cats));
    var r := ProductTypes(cats);
    assert (set x | x in d) == Taxonomies(cats);
    DistinctCardinality(d);
    assert r <= d;
    forall x | x in r
      ensures exists k :: 0 <= k < |cats| && x in cats[k].googleTaxonomyList
    {
      InChain(cats, x);
    }
  }

  /**
   * `get_root_cat`: the taxonomy entry of the first category's root, or
   * `None` for a root the table does not know. The `except` clause
   * catches only `DoesNotExist`, so a product without categories raises
   * the `IndexError` of `[0]`.
   */
  function GetRootCat(cats: seq<Category>): (r: Result<Option<string>, Raised>)
    ensures r.Failure? <==> cats == []
    ensures r.Success? && r.value.Some? ==> r.value.value in ROOT_CAT_TO_GCAT.Values
  {
    if cats == [] then Failure(IndexError)
    else
      var title := cats[0].rootTitle;
      Success(if title in ROOT_CAT_TO_GCAT then Some(ROOT_CAT_TO_GCAT[title]) else None)
  }

  /** The category is the shoes or the clothing entry, chosen by the first category's root. */
  lemma RootCategoryTable(cats: seq<Category>)
    requires cats != []
    ensures GetRootCat(cats).Success?
    ensures var r := GetRootCat(cats).value;
      (r == Some(SHOES_CATEGORY) <==> cats[0].rootTitle == "Sneakers")
      && (r == Some(CLOTHING_CATEGORY) <==> cats[0].rootTitle == "Clothing")
      && (r.Some? ==> r.value == SHOES_CATEGORY || r.value == CLOTHING_CATEGORY)
  {
    assert SHOES_CATEGORY != CLOTHING_CATEGORY by {
      assert SHOES_CATEGORY[|SHOES_CATEGORY| - 1] != CLOTHING_CATEGORY[|CLOTHING_CATEGORY| - 1];
    }
  }

  // ---------------------------------------------------------------------
  // Image links

  lemma ImageFormat(domain: string, path: string)
    ensures Template(IMAGE_TEMPLATE, 2)
    ensures Format(IMAGE_TEMPLATE, [domain, path]) == "http://" + domain + path
  {
    FormatTwo("http://", "", "", domain, path);
    assert "http://" + ("%s" + ("" + ("%s" + ""))) == IMAGE_TEMPLATE;
    assert "http://" + (domain + ("" + (path + ""))) == "http://" + domain + path;
  }

  /** `'http://%s%s' % (domain, path)`. */
  function ImageUrl(domain: string, path: string): (r: string)
    ensures r == "http://" + domain + path
  {
    ImageFormat(domain, path);
    Format(IMAGE_TEMPLATE, [domain, path])
  }

  /** The full-size paths of the images that have one, in gallery order. */
  function Fullsizes(imgs: seq<Thumbnail>): (r: seq<string>)
    ensures |r| <= |imgs|
  {
    if imgs == [] then []
    else
      var here := if imgs[0].Rendered? && imgs[0].fullsize.Some? then [imgs[0].fullsize.value] else [];
      here + Fullsizes(imgs[1..])
  }

  /** A path is listed exactly when some gallery image was rendered with that full-size path. */
  lemma {:induction false} FullsizesMembers(imgs: seq<Thumbnail>, x: string)
    ensures x in Fullsizes(imgs) <==> exists k :: 0 <= k < |imgs| && imgs[k] == Rendered(Some(x))
  {
    if imgs != [] {
      var rest := imgs[1..];
      FullsizesMembers(rest, x);
      if x in Fullsizes(rest) {
        var k :| 0 <= k < |rest| && rest[k] == Rendered(Some(x));
        assert imgs[k + 1] == Rendered(Some(x));
      }
      if k :| 0 <= k < |imgs| && imgs[k] == Rendered(Some(x)) {
        if k > 0 { assert rest[k - 1] == Rendered(Some(x)); }
      }
    }
  }

  /**
   * The list comprehension over the gallery images, evaluated left to
   * right; `None` when reading some image's thumbnails raised, which
   * abandons the whole list.
   */
  function GalleryLinks(domain: string, imgs: seq<Thumbnail>): (r: Option<seq<string>>)
  {
    if imgs == [] then Some([])
    else if imgs[0].RenditionFailed? then None
    else
      var rest := GalleryLinks(domain, imgs[1..]);
      if rest.None? then None
      else Some((if imgs[0].fullsize.Some? then [ImageUrl(domain, imgs[0].fullsize.value)] else []) + rest.value)
  }

  /**
   * The comprehension fails exactly when some image fails, and otherwise
   * gives one link per full-size path, in order, each the path on the
   * current site.
   */
  lemma {:induction false} GalleryLinksShape(domain: string, imgs: seq<Thumbnail>)
    ensures GalleryLinks(domain, imgs).None? <==> exists k :: 0 <= k < |imgs| && imgs[k].RenditionFailed?
    ensures var r := GalleryLinks(domain, imgs); r.Some? ==>
      |r.value| == |Fullsizes(imgs)|
      && forall k :: 0 <= k < |r.value| ==> r.value[k] == "http://" + domain + Fullsizes(imgs)[k]
  {
    if imgs != [] {
      GalleryLinksShape(domain, imgs[1..]);
      assert forall k :: 1 <= k < |imgs| ==> imgs[k] == imgs[1..][k - 1];
      if !imgs[0].RenditionFailed? && GalleryLinks(domain, imgs[1..]).None? {
        var k :| 0 <= k < |imgs[1..]| && imgs[1..][k].RenditionFailed?;
        assert imgs[k + 1].RenditionFailed?;
      }
    }
  }

  /**
   * `image_links`: `None` without a gallery or when rendering one of the
   * first eleven images raised; otherwise the links of those of the first
   * eleven that have a full-size rendition.
   */
  function ImageLinks(domain: string, gallery: Option<seq<Thumbnail>>): (r: Option<seq<string>>)
  {
    if gallery.None? then None else GalleryLinks(domain, SliceTo(gallery.value, 1 + MAX_ATTRS))
  }

  /** At most eleven links: one main image and up to ten additional ones. */
  lemma ImageLinksShape(domain: string, gallery: Option<seq<Thumbnail>>)
    ensures var r := ImageLinks(domain, gallery);
      (r.None? <==> gallery.None? || exists k :: 0 <= k < Min(|gallery.value|, 1 + MAX_ATTRS)
                                                && gallery.value[k].RenditionFailed?)
      && (r.Some? ==> |r.value| <= 1 + MAX_ATTRS
                      && r.value == ImageLinksOf(domain, Fullsizes(gallery.value[..Min(|gallery.value|, 1 + MAX_ATTRS)])))
  {
    if gallery.Some? {
      var first := gallery.value[..Min(|gallery.value|, 1 + MAX_ATTRS)];
      assert SliceTo(gallery.value, 1 + MAX_ATTRS) == first;
      GalleryLinksShape(domain, first);
      assert forall k :: 0 <= k < |first| ==> first[k] == gallery.value[k];
      var r := GalleryLinks(domain, first);
      if r.Some? {
        assert r.value == ImageLinksOf(domain, Fullsizes(first));
      }
    }
  }

  /** Each path on the current site. */
  function ImageLinksOf(domain: string, paths: seq<string>): (r: seq<string>)
    ensures |r| == |paths|
    ensures forall k :: 0 <= k < |r| ==> r[k] == "http://" + domain + paths[k]
  {
    if paths == [] then [] else ["http://" + domain + paths[0]] + ImageLinksOf(domain, paths[1..])
  }

  // ---------------------------------------------------------------------
  // The record

  /**
   * `item_extra_kwargs` as a value: the category lookup comes first and
   * its exception escapes; the rest are fixed values and the fields above.
   */
  function ProductData(p: Product, domain: string, sizes: seq<string>): Result<FeedItem, Raised>
  {
    match GetRootCat(p.categories)
    case Failure(e) => Failure(e)
    case Success(category) =>
      Success(FeedItem(
        googleCategory := category,
        brand := Some(p.brandName),
        colors := Some(Colors(p)),
        condition := Some("new"),
        ean := None,
        features := None,
        imageLinks := ImageLinks(domain, p.gallery),
        madeIn := None,
        manufacturer := Some(p.brandName),
        materials := None,
        modelNumber := None,
        mpn := p.manufacturerProductCode,
        onlineOnly := Some("y"),
        paymentsAccepted := Some(ACCEPTED_PAYMENTS),
        paymentNotes := Some("PayPal"),
        price := p.sellingPrice,
        currency := "GBP",
        priceType := None,
        productTypes := Some(ProductTypes(p.categories)),
        quantity := Some(IntToStr(p.denormStock)),
        sizes := Some(AsWrittenTrim(sizes)),
        upc := None,
        youtubeVideos := None))
  }

  /**
   * `item_extra_kwargs`: builds the record, trimming a copy of the size
   * list, and fills in the image links unless there is no gallery or the
   * comprehension raised.
   */
  method ItemExtraKwargs(p: Product, domain: string, sizes: seq<string>) returns (r: Result<FeedItem, Raised>)
    ensures r == ProductData(p, domain, sizes)
  {
    var category := GetRootCat(p.categories);
    if category.Failure? {
      return Failure(category.error);
    }
    var trimmed := FilterSizesAsWritten(sizes);
    var data := FeedItem(
      googleCategory := category.value,
      brand := Some(p.brandName),
      colors := Some(Colors(p)),
      condition := Some("new"),
      ean := None,
      features := None,
      imageLinks := None,
      madeIn := None,
      manufacturer := Some(p.brandName),
      materials := None,
      modelNumber := None,
      mpn := p.manufacturerProductCode,
      onlineOnly := Some("y"),
      paymentsAccepted := Some(ACCEPTED_PAYMENTS),
      paymentNotes := Some("PayPal"),
      price := p.sellingPrice,
      currency := "GBP",
      priceType := None,
      productTypes := Some(ProductTypes(p.categories)),
      quantity := Some(IntToStr(p.denormStock)),
      sizes := Some(trimmed),
      upc := None,
      youtubeVideos := None);
    if p.gallery.Some? {
      var links := GalleryLinks(domain, SliceTo(p.gallery.value, 1 + MAX_ATTRS));
      if links.Some? {
        data := data.(imageLinks := links);
      }
    }
    r := Success(data);
  }


  // ---------------------------------------------------------------------
  // The record through the item writer

  /** The fields of a record, one by one. */
  lemma RecordFields(p: Product, domain: string, sizes: seq<string>, item: FeedItem)
    requires ProductData(p, domain, sizes) == Success(item)
    ensures item.googleCategory == GetRootCat(p.categories).value
    ensures item.brand == Some(p.brandName) && item.manufacturer == Some(p.brandName)
    ensures item.colors == Some(Colors(p))
    ensures item.condition == Some("new") && item.onlineOnly == Some("y") && item.priceType == None
    ensures item.ean == None && item.upc == None && item.madeIn == None && item.modelNumber == None
    ensures item.features == None && item.materials == None && item.youtubeVideos == None
    ensures item.imageLinks == ImageLinks(domain, p.gallery)
    ensures item.mpn == p.manufacturerProductCode
    ensures item.paymentsAccepted == Some(ACCEPTED_PAYMENTS) && item.paymentNotes == Some("PayPal")
    ensures item.price == p.sellingPrice && item.currency == "GBP"
    ensures item.productTypes == Some(ProductTypes(p.categories))
    ensures item.quantity == Some(IntToStr(p.denormStock))
    ensures item.sizes == Some(AsWrittenTrim(sizes))
  {
  }

  /**
   * The fixed condition and online flag are in their tuples, so both are
   * written; no price type is written.
   */
  lemma RecordEnums(p: Product, domain: string, sizes: seq<string>, item: FeedItem)
    requires ProductData(p, domain, sizes) == Success(item)
    ensures Texts(Condition, ItemEvents(item)) == ["new"]
    ensures Texts(OnlineOnly, ItemEvents(item)) == ["y"]
    ensures Texts(PriceType, ItemEvents(item)) == []
  {
    RecordFields(p, domain, sizes, item);
    assert CONDITIONS[0] == "new" && ONLINE_ONLY[0] == "y";
    EnumFieldsChecked(item);
  }

  lemma AcceptedPaymentsKnown()
    ensures Allowed(ACCEPTED_PAYMENTS, PAYMENT_TYPES) == ACCEPTED_PAYMENTS
  {
    assert PAYMENT_TYPES[2] == ACCEPTED_PAYMENTS[0];
    assert PAYMENT_TYPES[3] == ACCEPTED_PAYMENTS[1];
    assert PAYMENT_TYPES[4] == ACCEPTED_PAYMENTS[2];
    AllowedAll(ACCEPTED_PAYMENTS, PAYMENT_TYPES);
  }

  /** Every fixed payment method is one Google knows, so all of them are written. */
  lemma RecordPayments(p: Product, domain: string, sizes: seq<string>, item: FeedItem)
    requires ProductData(p, domain, sizes) == Success(item)
    ensures Texts(PaymentAccepted, ItemEvents(item)) == ACCEPTED_PAYMENTS
  {
    RecordFields(p, domain, sizes, item);
    AcceptedPaymentsKnown();
    PaymentsFiltered(item);
  }

  /** At most ten sizes are written, in stock order. */
  lemma RecordSizes(p: Product, domain: string, sizes: seq<string>, item: FeedItem)
    requires ProductData(p, domain, sizes) == Success(item)
    ensures Texts(Size, ItemEvents(item)) == AsWrittenTrim(sizes)
    ensures |Texts(Size, ItemEvents(item))| == Min(|sizes|, MAX_ATTRS)
    ensures Subsequence(Texts(Size, ItemEvents(item)), sizes)
  {
    RecordFields(p, domain, sizes, item);
    ListFieldsRepeated(item);
    AsWrittenTrimShape(sizes);
  }

  /** Colours and product types stay within Google's limit of ten attributes; the primary colour is last. */
  lemma RecordColorsAndTypes(p: Product, domain: string, sizes: seq<string>, item: FeedItem)
    requires ProductData(p, domain, sizes) == Success(item)
    ensures var colors := Texts(Color, ItemEvents(item));
      0 < |colors| <= MAX_ATTRS && colors[|colors| - 1] == p.colour
    ensures |Texts(ProductType, ItemEvents(item))| <= MAX_ATTRS
  {
    RecordFields(p, domain, sizes, item);
    ListFieldsRepeated(item);
  }

  /** One main image and at most ten additional ones are written. */
  lemma RecordImages(p: Product, domain: string, sizes: seq<string>, item: FeedItem)
    requires ProductData(p, domain, sizes) == Success(item)
    ensures |Texts(ImageLink, ItemEvents(item))| <= 1
    ensures |Texts(AdditionalImageLink, ItemEvents(item))| <= MAX_ATTRS
  {
    RecordFields(p, domain, sizes, item);
    ImageLinksTagged(item);
    ImageLinksShape(domain, p.gallery);
  }

  /** The selling price is written in pounds, followed by the free shipping price. */
  lemma RecordPrice(p: Product, domain: string, sizes: seq<string>, item: FeedItem)
    requires ProductData(p, domain, sizes) == Success(item)
    ensures Texts(Price, ItemEvents(item)) == [p.sellingPrice + " GBP", FREE_SHIPPING_PRICE]
  {
    RecordFields(p, domain, sizes, item);
    PriceAlways(item);
    InPounds(p.sellingPrice);
  }

  /** Brand, stock, part number, payment note and category reach the feed unchanged; the unset identifiers do not appear. */
  lemma RecordScalars(p: Product, domain: string, sizes: seq<string>, item: FeedItem)
    requires ProductData(p, domain, sizes) == Success(item)
    ensures Texts(Brand, ItemEvents(item)) == [p.brandName]
    ensures Texts(Manufacturer, ItemEvents(item)) == [p.brandName]
    ensures Texts(Quantity, ItemEvents(item)) == [IntToStr(p.denormStock)]
    ensures Texts(Mpn, ItemEvents(item)) == AsList(p.manufacturerProductCode)
    ensures Texts(PaymentNotes, ItemEvents(item)) == ["PayPal"]
    ensures Texts(GoogleProductCategory, ItemEvents(item)) == AsList(GetRootCat(p.categories).value)
    ensures Texts(Ean, ItemEvents(item)) == [] && Texts(Upc, ItemEvents(item)) == []
    ensures Texts(MadeIn, ItemEvents(item)) == [] && Texts(ModelNumber, ItemEvents(item)) == []
  {
    RecordFields(p, domain, sizes, item);
    ScalarFieldsOnce(item);
  }

  /** Features, materials and videos are never written. */
  lemma RecordUnsetLists(p: Product, domain: string, sizes: seq<string>, item: FeedItem)
    requires ProductData(p, domain, sizes) == Success(item)
    ensures Texts(Feature, ItemEvents(item)) == []
    ensures Texts(Material, ItemEvents(item)) == []
    ensures Texts(Youtube, ItemEvents(item)) == []
  {
    RecordFields(p, domain, sizes, item);
    ListFieldsRepeated(item);
  }

  /** The stock count written to the feed reads back as the stock count. */
  lemma QuantityReadsBack(p: Product, domain: string, sizes: seq<string>)
    requires ProductData(p, domain, sizes).Success?
    ensures var q := ProductData(p, domain, sizes).value.quantity;
      q.Some? && ParseInt(q.value) == p.denormStock
  {
    IntToStrRoundTrip(p.denormStock);
  }

  // ---------------------------------------------------------------------
  // Proof helpers: regroupings of concatenated strings and facts about the
  // fixed query text, each stated on its own so that the solver proves it
  // in a small context. They say nothing about the feed.

  lemma TitleRegroup(a: string, m1: string, b: string, m2: string, c: string)
    ensures "" + (a + (m1 + (b + (m2 + (c + ""))))) == a + m1 + b + m2 + c
  {
  }

  lemma UtmSourcePlain() ensures '%' !in UTM_SOURCE {}
  lemma UtmMediumPlain() ensures '%' !in UTM_MEDIUM {}
  lemma UtmCampaignPlain() ensures '%' !in UTM_CAMPAIGN {}

  lemma Regroup(a: string, b: string, c: string, d: string, u: string)
    ensures a + (b + (c + (d + u))) == (a + (b + (c + d))) + u
  {
  }

  lemma InPounds(price: string)
    ensures price + " " + "GBP" == price + " GBP"
  {
  }
}
