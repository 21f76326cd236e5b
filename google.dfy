/**
 * The Google Base item writer (`GoogleProductsFeed` in google.py): for
 * every feed record it writes a fixed sequence of `g:` elements through a
 * SAX-style handler, and it adds the two Google namespaces to the root
 * element's attributes.
 *
 * The handler is a sink that records, in order, the calls made on it;
 * every emission rule is then a statement about that event sequence.
 */
module GoogleFeed {
  import opened PyLib

  const PAYMENT_TYPES: seq<string> :=
    ["Cash", "Check", "Visa", "MasterCard", "AmericanExpress", "Discover", "GoogleCheckout", "wiretransfer"]
  const PRICE_TYPES: seq<string> := ["negotiable", "starting"]
  const ONLINE_ONLY: seq<string> := ["y", "n"]
  const CONDITIONS: seq<string> := ["new", "used", "refurbished"]
  const FREE_SHIPPING_PRICE := "0.00"

  const NS_G := "http://base.google.com/ns/1.0"
  const NS_C := "http://base.google.com/cns/1.0"

  /**
   * The keys of the item dictionary that the writer reads; a Python
   * `None` is `PyLib.None`.
   */
  datatype FeedItem = FeedItem(
    googleCategory: Option<string>,
    brand: Option<string>,
    colors: Option<seq<string>>,
    condition: Option<string>,
    ean: Option<string>,
    features: Option<seq<string>>,
    imageLinks: Option<seq<string>>,
    madeIn: Option<string>,
    manufacturer: Option<string>,
    materials: Option<seq<string>>,
    modelNumber: Option<string>,
    mpn: Option<string>,
    onlineOnly: Option<string>,
    paymentsAccepted: Option<seq<string>>,
    paymentNotes: Option<string>,
    price: string,
    currency: string,
    priceType: Option<string>,
    productTypes: Option<seq<string>>,
    quantity: Option<string>,
    sizes: Option<seq<string>>,
    upc: Option<string>,
    youtubeVideos: Option<seq<string>>)

  /** The elements of the Google Base namespace that the writer emits. */
  datatype Tag =
    | Availability | GoogleProductCategory | Brand | Color | Condition | Ean | Feature
    | ImageLink | AdditionalImageLink | MadeIn | Manufacturer | Material | ModelNumber | Mpn
    | OnlineOnly | PaymentAccepted | PaymentNotes | Price | PriceType | ProductType | Quantity
    | Size | Upc | Youtube | Shipping

  /**
   * The qualified element name a tag is written as. Each name is spelled as
   * in `add_item_elements` (google.py:30-115), and no two tags share one;
   * both were checked by reading, not proved.
   */
  function TagName(t: Tag): string
  {
    match t
    case Availability => "g:availability"
    case GoogleProductCategory => "g:google_product_category"
    case Brand => "g:brand"
    case Color => "g:color"
    case Condition => "g:condition"
    case Ean => "g:ean"
    case Feature => "g:feature"
    case ImageLink => "g:image_link"
    case AdditionalImageLink => "g:additional_image_link"
    case MadeIn => "g:made_in"
    case Manufacturer => "g:manufacturer"
    case Material => "g:material"
    case ModelNumber => "g:model_number"
    case Mpn => "g:mpn"
    case OnlineOnly => "g:online_only"
    case PaymentAccepted => "g:payment_accepted"
    case PaymentNotes => "g:payment_notes"
    case Price => "g:price"
    case PriceType => "g:price_type"
    case ProductType => "g:product_type"
    case Quantity => "g:quantity"
    case Size => "g:size"
    case Upc => "g:upc"
    case Youtube => "g:youtube"
    case Shipping => "g:shipping"
  }

  /** Every element the writer emits is in the `g:` namespace that `rss_attributes` declares. */
  lemma TagNamesQualified(t: Tag)
    ensures |TagName(t)| > |"g:"| && TagName(t)[..2] == "g:"
  {
  }

  /**
   * An element name: `G(t)` is the Google Base element spelled `TagName(t)`,
   * and `Other` is any other name (the base RSS writer's `title`, `link`,
   * `guid`, ...).
   */
  datatype Name = G(tag: Tag) | Other(qualified: string)

  /** One call on the output handler; `addQuickElement` is a single event. */
  datatype Event =
    | Start(name: Name, attrs: map<string, string>)
    | End(name: Name)
    | Quick(name: Name, text: string)

  /** The SAX handler the feed is written to, as the sequence of calls it received. */
  class Handler {
    var events: seq<Event>

    constructor ()
      ensures events == []
    {
      events := [];
    }

    method AddQuickElement(name: Name, contents: string)
      modifies this
      ensures events == old(events) + [Quick(name, contents)]
    {
      events := events + [Quick(name, contents)];
    }

    method StartElement(name: Name, attrs: map<string, string>)
      modifies this
      ensures events == old(events) + [Start(name, attrs)]
    {
      events := events + [Start(name, attrs)];
    }

    method EndElement(name: Name)
      modifies this
      ensures events == old(events) + [End(name)]
    {
      events := events + [End(name)];
    }
  }

  // ---------------------------------------------------------------------
  // What one item writes

  /** An optional scalar: one element when present, none for `None`. */
  function ScalarEvents(tag: Tag, value: Option<string>): seq<Event>
  {
    if value.Some? then [Quick(G(tag), value.value)] else []
  }

  /** A field checked against its enum tuple: one element only for a member. */
  function EnumEvents(tag: Tag, value: Option<string>, allowed: seq<string>): seq<Event>
  {
    if value.Some? && value.value in allowed then [Quick(G(tag), value.value)] else []
  }

  /** The value of an enum-checked field that is written: itself if it is in `allowed`, else nothing. */
  function Checked(value: Option<string>, allowed: seq<string>): seq<string>
  {
    if value.Some? && value.value in allowed then [value.value] else []
  }

  /** One repeated element per entry, in order. */
  function ListEvents(tag: Tag, values: seq<string>): seq<Event>
  {
    if values == [] then []
    else ListEvents(tag, values[..|values| - 1]) + [Quick(G(tag), values[|values| - 1])]
  }

  /** The first link is `g:image_link`, every later one `g:additional_image_link`. */
  function ImageEvents(links: seq<string>): seq<Event>
  {
    if links == [] then []
    else [Quick(G(ImageLink), links[0])] + ListEvents(AdditionalImageLink, links[1..])
  }

  /** The entries of `values` that pass the `in allowed` check, in input order. */
  function Allowed(values: seq<string>, allowed: seq<string>): (r: seq<string>)
    ensures |r| <= |values|
  {
    if values == [] then []
    else
      var last := values[|values| - 1];
      Allowed(values[..|values| - 1], allowed) + (if last in allowed then [last] else [])
  }

  /** The text of the `g:price` element: the price, a space, the currency. */
  function PriceText(item: FeedItem): string
  {
    item.price + " " + item.currency
  }

  /** `'%(price)s %(currency)s' % item` is exactly `PriceText`. */
  lemma PriceTextFormat(item: FeedItem)
    ensures Template("%s %s", 2)
    ensures Format("%s %s", [item.price, item.currency]) == PriceText(item)
  {
    FormatConversion("", item.currency, []);
    FormatLiteral(" ", "%s", [item.currency]);
    FormatConversion(" %s", item.price, [item.currency]);
    assert "%s %s" == "%s" + " %s" && " %s" == " " + "%s" && "%s" == "%s" + "";
    assert [item.price, item.currency] == [item.price] + [item.currency];
  }

  /** Availability (always "in stock"), category, brand, colours, condition, EAN, features. */
  function HeaderEvents(item: FeedItem): seq<Event>
  {
    [Quick(G(Availability), "in stock")]
    + ScalarEvents(GoogleProductCategory, item.googleCategory)
    + ScalarEvents(Brand, item.brand)
    + ListEvents(Color, OrEmpty(item.colors))
    + EnumEvents(Condition, item.condition, CONDITIONS)
    + ScalarEvents(Ean, item.ean)
    + ListEvents(Feature, OrEmpty(item.features))
  }

  /** Origin, manufacturer, materials, model number, MPN, online-only flag. */
  function MakerEvents(item: FeedItem): seq<Event>
  {
    ScalarEvents(MadeIn, item.madeIn)
    + ScalarEvents(Manufacturer, item.manufacturer)
    + ListEvents(Material, OrEmpty(item.materials))
    + ScalarEvents(ModelNumber, item.modelNumber)
    + ScalarEvents(Mpn, item.mpn)
    + EnumEvents(OnlineOnly, item.onlineOnly, ONLINE_ONLY)
  }

  /** Accepted payments, payment notes, the price (always) and the price type. */
  function PricingEvents(item: FeedItem): seq<Event>
  {
    ListEvents(PaymentAccepted, Allowed(OrEmpty(item.paymentsAccepted), PAYMENT_TYPES))
    + ScalarEvents(PaymentNotes, item.paymentNotes)
    + [Quick(G(Price), PriceText(item))]
    + EnumEvents(PriceType, item.priceType, PRICE_TYPES)
  }

  /** Product types, quantity, sizes, UPC, videos. */
  function DetailEvents(item: FeedItem): seq<Event>
  {
    ListEvents(ProductType, OrEmpty(item.productTypes))
    + ScalarEvents(Quantity, item.quantity)
    + ListEvents(Size, OrEmpty(item.sizes))
    + ScalarEvents(Upc, item.upc)
    + ListEvents(Youtube, OrEmpty(item.youtubeVideos))
  }

  /** The fixed block that closes every item: free shipping. */
  function ShippingEvents(): seq<Event>
  {
    [Start(G(Shipping), map[]), Quick(G(Price), FREE_SHIPPING_PRICE), End(G(Shipping))]
  }

  /** Everything `add_item_elements` writes after the base RSS elements, in source order. */
  function ItemEvents(item: FeedItem): seq<Event>
  {
    HeaderEvents(item) + ImageEvents(OrEmpty(item.imageLinks)) + MakerEvents(item)
    + PricingEvents(item) + DetailEvents(item) + ShippingEvents()
  }

  // ---------------------------------------------------------------------
  // The writer

  /** `for v in values: handler.addQuickElement(tag, v)`. */
  method AddEach(handler: Handler, tag: Tag, values: seq<string>)
    modifies handler
    ensures handler.events == old(handler.events) + ListEvents(tag, values)
  {
    for k := 0 to |values|
      invariant handler.events == old(handler.events) + ListEvents(tag, values[..k])
    {
      assert values[..k + 1][..k] == values[..k];
      handler.AddQuickElement(G(tag), values[k]);
    }
    assert values[..|values|] == values;
  }

  /** `if item[key] is not None: handler.addQuickElement(tag, item[key])`. */
  method AddScalar(handler: Handler, tag: Tag, value: Option<string>)
    modifies handler
    ensures handler.events == old(handler.events) + ScalarEvents(tag, value)
  {
    if value.Some? {
      handler.AddQuickElement(G(tag), value.value);
    }
  }

  /** `if item[key] in ALLOWED: handler.addQuickElement(tag, item[key])`. */
  method AddEnum(handler: Handler, tag: Tag, value: Option<string>, allowed: seq<string>)
    modifies handler
    ensures handler.events == old(handler.events) + EnumEvents(tag, value, allowed)
  {
    if value.Some? && value.value in allowed {
      handler.AddQuickElement(G(tag), value.value);
    }
  }

  /** `if item[key] is not None: for v in item[key]: ...`. */
  method AddList(handler: Handler, tag: Tag, values: Option<seq<string>>)
    modifies handler
    ensures handler.events == old(handler.events) + ListEvents(tag, OrEmpty(values))
  {
    if values.Some? {
      AddEach(handler, tag, values.value);
    }
  }

  /** One more link adds one element, tagged by its position. */
  lemma ImageEventsSnoc(links: seq<string>, k: nat)
    requires k < |links|
    ensures ImageEvents(links[..k + 1])
      == ImageEvents(links[..k]) + [Quick(G(if k == 0 then ImageLink else AdditionalImageLink), links[k])]
  {
    var q := Quick(G(if k == 0 then ImageLink else AdditionalImageLink), links[k]);
    if k > 0 {
      var rest := links[..k + 1][1..];
      assert rest[..|rest| - 1] == links[..k][1..] && rest[|rest| - 1] == links[k];
      assert links[..k + 1][0] == links[..k][0];
      AppendAssoc([Quick(G(ImageLink), links[0])], ListEvents(AdditionalImageLink, links[..k][1..]), [q]);
    } else {
      assert links[..1][1..] == [] && links[..0] == [];
    }
  }

  /** The image loop, whose `key` turns into the additional-link tag after the first link. */
  method AddImageLinks(handler: Handler, links: seq<string>)
    modifies handler
    ensures handler.events == old(handler.events) + ImageEvents(links)
  {
    var key := ImageLink;
    for k := 0 to |links|
      invariant key == if k == 0 then ImageLink else AdditionalImageLink
      invariant handler.events == old(handler.events) + ImageEvents(links[..k])
    {
      ImageEventsSnoc(links, k);
      AppendAssoc(old(handler.events), ImageEvents(links[..k]), [Quick(G(key), links[k])]);
      handler.AddQuickElement(G(key), links[k]);
      key := AdditionalImageLink;
    }
    assert links[..|links|] == links;
  }

  /** `if item['image_links'] is not None: ...`. */
  method AddImages(handler: Handler, links: Option<seq<string>>)
    modifies handler
    ensures handler.events == old(handler.events) + ImageEvents(OrEmpty(links))
  {
    if links.Some? {
      AddImageLinks(handler, links.value);
    }
  }

  /** The payment loop: only the entries found in `allowed` are written. */
  method AddAllowed(handler: Handler, tag: Tag, values: seq<string>, allowed: seq<string>)
    modifies handler
    ensures handler.events == old(handler.events) + ListEvents(tag, Allowed(values, allowed))
  {
    for k := 0 to |values|
      invariant handler.events == old(handler.events) + ListEvents(tag, Allowed(values[..k], allowed))
    {
      assert values[..k + 1][..k] == values[..k];
      if values[k] in allowed {
        ghost var kept := Allowed(values[..k], allowed);
        assert Allowed(values[..k + 1], allowed) == kept + [values[k]];
        assert (kept + [values[k]])[..|kept|] == kept;
        handler.AddQuickElement(G(tag), values[k]);
      } else {
        assert Allowed(values[..k + 1], allowed) == Allowed(values[..k], allowed) + [];
        assert Allowed(values[..k], allowed) + [] == Allowed(values[..k], allowed);
      }
    }
    assert values[..|values|] == values;
  }

  /** The base RSS writer's elements (title, link, description, guid, ...), given as input. */
  method AddBaseElements(handler: Handler, base: seq<Event>)
    modifies handler
    ensures handler.events == old(handler.events) + base
  {
    for k := 0 to |base|
      invariant handler.events == old(handler.events) + base[..k]
    {
      assert base[..k + 1] == base[..k] + [base[k]];
      match base[k]
      case Start(name, attrs) => handler.StartElement(name, attrs);
      case End(name) => handler.EndElement(name);
      case Quick(name, text) => handler.AddQuickElement(name, text);
    }
    assert base[..|base|] == base;
  }

  /** The first block of `add_item_elements`. */
  method AddHeader(handler: Handler, item: FeedItem)
    modifies handler
    ensures handler.events == old(handler.events) + HeaderEvents(item)
  {
    Regroup7(handler.events, [Quick(G(Availability), "in stock")],
      ScalarEvents(GoogleProductCategory, item.googleCategory), ScalarEvents(Brand, item.brand),
      ListEvents(Color, OrEmpty(item.colors)), EnumEvents(Condition, item.condition, CONDITIONS),
      ScalarEvents(Ean, item.ean), ListEvents(Feature, OrEmpty(item.features)));
    // only in-stock products are listed
    handler.AddQuickElement(G(Availability), "in stock");
    AddScalar(handler, GoogleProductCategory, item.googleCategory);
    AddScalar(handler, Brand, item.brand);
    AddList(handler, Color, item.colors);
    AddEnum(handler, Condition, item.condition, CONDITIONS);
    AddScalar(handler, Ean, item.ean);
    AddList(handler, Feature, item.features);
  }

  /** The block after the image links. */
  method AddMaker(handler: Handler, item: FeedItem)
    modifies handler
    ensures handler.events == old(handler.events) + MakerEvents(item)
  {
    Regroup6(handler.events, ScalarEvents(MadeIn, item.madeIn), ScalarEvents(Manufacturer, item.manufacturer),
      ListEvents(Material, OrEmpty(item.materials)), ScalarEvents(ModelNumber, item.modelNumber),
      ScalarEvents(Mpn, item.mpn), EnumEvents(OnlineOnly, item.onlineOnly, ONLINE_ONLY));
    AddScalar(handler, MadeIn, item.madeIn);
    AddScalar(handler, Manufacturer, item.manufacturer);
    AddList(handler, Material, item.materials);
    AddScalar(handler, ModelNumber, item.modelNumber);
    AddScalar(handler, Mpn, item.mpn);
    AddEnum(handler, OnlineOnly, item.onlineOnly, ONLINE_ONLY);
  }

  /** Payments and price. */
  method AddPricing(handler: Handler, item: FeedItem)
    modifies handler
    ensures handler.events == old(handler.events) + PricingEvents(item)
  {
    Regroup4(handler.events, ListEvents(PaymentAccepted, Allowed(OrEmpty(item.paymentsAccepted), PAYMENT_TYPES)),
      ScalarEvents(PaymentNotes, item.paymentNotes), [Quick(G(Price), PriceText(item))],
      EnumEvents(PriceType, item.priceType, PRICE_TYPES));
    if item.paymentsAccepted.Some? {
      AddAllowed(handler, PaymentAccepted, item.paymentsAccepted.value, PAYMENT_TYPES);
    }
    AddScalar(handler, PaymentNotes, item.paymentNotes);
    handler.AddQuickElement(G(Price), PriceText(item));
    AddEnum(handler, PriceType, item.priceType, PRICE_TYPES);
  }

  /** The remaining optional fields. */
  method AddDetails(handler: Handler, item: FeedItem)
    modifies handler
    ensures handler.events == old(handler.events) + DetailEvents(item)
  {
    Regroup5(handler.events, ListEvents(ProductType, OrEmpty(item.productTypes)),
      ScalarEvents(Quantity, item.quantity), ListEvents(Size, OrEmpty(item.sizes)),
      ScalarEvents(Upc, item.upc), ListEvents(Youtube, OrEmpty(item.youtubeVideos)));
    AddList(handler, ProductType, item.productTypes);
    AddScalar(handler, Quantity, item.quantity);
    AddList(handler, Size, item.sizes);
    AddScalar(handler, Upc, item.upc);
    AddList(handler, Youtube, item.youtubeVideos);
  }

  /** The closing block: shipping is always free. */
  method AddShipping(handler: Handler)
    modifies handler
    ensures handler.events == old(handler.events) + ShippingEvents()
  {
    handler.StartElement(G(Shipping), map[]);
    handler.AddQuickElement(G(Price), FREE_SHIPPING_PRICE);
    handler.EndElement(G(Shipping));
  }

  /** `GoogleProductsFeed.add_item_elements`. */
  method AddItemElements(handler: Handler, item: FeedItem, base: seq<Event>)
    modifies handler
    ensures handler.events == old(handler.events) + base + ItemEvents(item)
  {
    Regroup6(handler.events + base, HeaderEvents(item), ImageEvents(OrEmpty(item.imageLinks)), MakerEvents(item),
      PricingEvents(item), DetailEvents(item), ShippingEvents());
    AddBaseElements(handler, base);
    AddHeader(handler, item);
    AddImages(handler, item.imageLinks);
    AddMaker(handler, item);
    AddPricing(handler, item);
    AddDetails(handler, item);
    AddShipping(handler);
  }

  /** `GoogleProductsFeed.rss_attributes`: the base attributes plus the two namespaces. */
  method RssAttributes(base: map<string, string>) returns (attrs: map<string, string>)
    ensures attrs.Keys == base.Keys + {"xmlns:g", "xmlns:c"}
    ensures attrs["xmlns:g"] == NS_G && attrs["xmlns:c"] == NS_C
    ensures forall k :: k in base && k != "xmlns:g" && k != "xmlns:c" ==> attrs[k] == base[k]
  {
    attrs := base;
    attrs := attrs["xmlns:g" := NS_G];
    attrs := attrs["xmlns:c" := NS_C];
  }

  // ---------------------------------------------------------------------
  // Reading the event sequence back

  /** The text of one event if it is a `tag` element, and nothing otherwise. */
  function TextOf(tag: Tag, e: Event): seq<string>
  {
    if e.Quick? && e.name == G(tag) then [e.text] else []
  }

  /** The texts of the `tag` elements among `evs`, in order. */
  function Texts(tag: Tag, evs: seq<Event>): seq<string>
  {
    if evs == [] then [] else TextOf(tag, evs[0]) + Texts(tag, evs[1..])
  }

  lemma {:induction false} TextsAppend(tag: Tag, a: seq<Event>, b: seq<Event>)
    ensures Texts(tag, a + b) == Texts(tag, a) + Texts(tag, b)
  {
    if a != [] {
      assert (a + b)[0] == a[0] && (a + b)[1..] == a[1..] + b;
      TextsAppend(tag, a[1..], b);
      AppendAssoc(TextOf(tag, a[0]), Texts(tag, a[1..]), Texts(tag, b));
    } else {
      assert a + b == b;
    }
  }

  /** A repeated element's texts are the list itself; other tags see nothing. */
  lemma {:induction false} TextsOfList(tag: Tag, other: Tag, values: seq<string>)
    ensures Texts(other, ListEvents(tag, values)) == if other == tag then values else []
  {
    if values != [] {
      var init := values[..|values| - 1];
      TextsOfList(tag, other, init);
      TextsAppend(other, ListEvents(tag, init), [Quick(G(tag), values[|values| - 1])]);
      TextsOfOne(other, tag, values[|values| - 1]);
      SnocSplit(values);
    }
  }

  // The texts of a stream written block by block are the blocks' texts, in order.

  lemma TextsOf4(other: Tag, a: seq<Event>, b: seq<Event>, c: seq<Event>, d: seq<Event>)
    ensures Texts(other, a + b + c + d) == Texts(other, a) + Texts(other, b) + Texts(other, c) + Texts(other, d)
  {
    TextsAppend(other, a + b + c, d);
    TextsAppend(other, a + b, c);
    TextsAppend(other, a, b);
  }

  lemma TextsOf5(other: Tag, a: seq<Event>, b: seq<Event>, c: seq<Event>, d: seq<Event>, e: seq<Event>)
    ensures Texts(other, a + b + c + d + e)
      == Texts(other, a) + Texts(other, b) + Texts(other, c) + Texts(other, d) + Texts(other, e)
  {
    TextsOf4(other, a, b, c, d);
    TextsAppend(other, a + b + c + d, e);
  }

  lemma TextsOf6(other: Tag, a: seq<Event>, b: seq<Event>, c: seq<Event>, d: seq<Event>, e: seq<Event>, f: seq<Event>)
    ensures Texts(other, a + b + c + d + e + f)
      == Texts(other, a) + Texts(other, b) + Texts(other, c) + Texts(other, d) + Texts(other, e) + Texts(other, f)
  {
    TextsOf5(other, a, b, c, d, e);
    TextsAppend(other, a + b + c + d + e, f);
  }

  lemma TextsOf7(other: Tag, a: seq<Event>, b: seq<Event>, c: seq<Event>, d: seq<Event>, e: seq<Event>, f: seq<Event>,
                 g: seq<Event>)
    ensures Texts(other, a + b + c + d + e + f + g)
      == Texts(other, a) + Texts(other, b) + Texts(other, c) + Texts(other, d) + Texts(other, e) + Texts(other, f)
         + Texts(other, g)
  {
    TextsOf6(other, a, b, c, d, e, f);
    TextsAppend(other, a + b + c + d + e + f, g);
  }

  lemma TextsOfOne(other: Tag, tag: Tag, text: string)
    ensures Texts(other, [Quick(G(tag), text)]) == if other == tag then [text] else []
  {
    assert [Quick(G(tag), text)][1..] == [];
  }

  lemma TextsOfScalar(tag: Tag, other: Tag, value: Option<string>)
    ensures Texts(other, ScalarEvents(tag, value)) == if other == tag then AsList(value) else []
  {
    if value.Some? {
      TextsOfOne(other, tag, value.value);
    }
  }

  lemma TextsOfEnum(tag: Tag, other: Tag, value: Option<string>, allowed: seq<string>)
    ensures Texts(other, EnumEvents(tag, value, allowed)) == if other == tag then Checked(value, allowed) else []
  {
    if value.Some? && value.value in allowed {
      TextsOfOne(other, tag, value.value);
    }
  }

  /** The first link is read back under `g:image_link`, the others under `g:additional_image_link`. */
  lemma TextsOfImages(other: Tag, links: seq<string>)
    ensures Texts(other, ImageEvents(links)) ==
      if other == ImageLink then links[..Min(1, |links|)]
      else if other == AdditionalImageLink && links != [] then links[1..]
      else []
  {
    if links != [] {
      TextsAppend(other, [Quick(G(ImageLink), links[0])], ListEvents(AdditionalImageLink, links[1..]));
      TextsAppend(other, [Quick(G(ImageLink), links[0])], []);
      TextsOfList(AdditionalImageLink, other, links[1..]);
    }
  }

  lemma TextsOfShipping(other: Tag)
    ensures Texts(other, ShippingEvents()) == if other == Price then [FREE_SHIPPING_PRICE] else []
  {
    var close: seq<Event> := [End(G(Shipping))];
    var price: seq<Event> := [Quick(G(Price), FREE_SHIPPING_PRICE)];
    assert close[1..] == [] && Texts(other, close) == [];
    assert (price + close)[1..] == close;
    assert Texts(other, price + close) == if other == Price then [FREE_SHIPPING_PRICE] else [];
    assert ShippingEvents()[1..] == price + close;
  }

  lemma TextsOfMaker(other: Tag, item: FeedItem)
    ensures Texts(other, MakerEvents(item)) ==
      (if other == MadeIn then AsList(item.madeIn) else [])
      + (if other == Manufacturer then AsList(item.manufacturer) else [])
      + (if other == Material then OrEmpty(item.materials) else [])
      + (if other == ModelNumber then AsList(item.modelNumber) else [])
      + (if other == Mpn then AsList(item.mpn) else [])
      + (if other == OnlineOnly then Checked(item.onlineOnly, ONLINE_ONLY) else [])
  {
    TextsOf6(other,
      ScalarEvents(MadeIn, item.madeIn), ScalarEvents(Manufacturer, item.manufacturer),
      ListEvents(Material, OrEmpty(item.materials)), ScalarEvents(ModelNumber, item.modelNumber),
      ScalarEvents(Mpn, item.mpn), EnumEvents(OnlineOnly, item.onlineOnly, ONLINE_ONLY));
    TextsOfScalar(MadeIn, other, item.madeIn);
    TextsOfScalar(Manufacturer, other, item.manufacturer);
    TextsOfList(Material, other, OrEmpty(item.materials));
    TextsOfScalar(ModelNumber, other, item.modelNumber);
    TextsOfScalar(Mpn, other, item.mpn);
    TextsOfEnum(OnlineOnly, other, item.onlineOnly, ONLINE_ONLY);
  }

  lemma TextsOfHeader(other: Tag, item: FeedItem)
    ensures Texts(other, HeaderEvents(item)) ==
      (if other == Availability then ["in stock"] else [])
      + (if other == GoogleProductCategory then AsList(item.googleCategory) else [])
      + (if other == Brand then AsList(item.brand) else [])
      + (if other == Color then OrEmpty(item.colors) else [])
      + (if other == Condition then Checked(item.condition, CONDITIONS) else [])
      + (if other == Ean then AsList(item.ean) else [])
      + (if other == Feature then OrEmpty(item.features) else [])
  {
    TextsOf7(other,
      [Quick(G(Availability), "in stock")],
      ScalarEvents(GoogleProductCategory, item.googleCategory), ScalarEvents(Brand, item.brand),
      ListEvents(Color, OrEmpty(item.colors)), EnumEvents(Condition, item.condition, CONDITIONS),
      ScalarEvents(Ean, item.ean), ListEvents(Feature, OrEmpty(item.features)));
    TextsOfOne(other, Availability, "in stock");
    TextsOfScalar(GoogleProductCategory, other, item.googleCategory);
    TextsOfScalar(Brand, other, item.brand);
    TextsOfList(Color, other, OrEmpty(item.colors));
    TextsOfEnum(Condition, other, item.condition, CONDITIONS);
    TextsOfScalar(Ean, other, item.ean);
    TextsOfList(Feature, other, OrEmpty(item.features));
  }

  lemma TextsOfPricing(other: Tag, item: FeedItem)
    ensures Texts(other, PricingEvents(item)) ==
      (if other == PaymentAccepted then Allowed(OrEmpty(item.paymentsAccepted), PAYMENT_TYPES) else [])
      + (if other == PaymentNotes then AsList(item.paymentNotes) else [])
      + (if other == Price then [PriceText(item)] else [])
      + (if other == PriceType then Checked(item.priceType, PRICE_TYPES) else [])
  {
    TextsOf4(other,
      ListEvents(PaymentAccepted, Allowed(OrEmpty(item.paymentsAccepted), PAYMENT_TYPES)),
      ScalarEvents(PaymentNotes, item.paymentNotes), [Quick(G(Price), PriceText(item))],
      EnumEvents(PriceType, item.priceType, PRICE_TYPES));
    TextsOfList(PaymentAccepted, other, Allowed(OrEmpty(item.paymentsAccepted), PAYMENT_TYPES));
    TextsOfScalar(PaymentNotes, other, item.paymentNotes);
    TextsOfOne(other, Price, PriceText(item));
    TextsOfEnum(PriceType, other, item.priceType, PRICE_TYPES);
  }

  lemma TextsOfDetails(other: Tag, item: FeedItem)
    ensures Texts(other, DetailEvents(item)) ==
      (if other == ProductType then OrEmpty(item.productTypes) else [])
      + (if other == Quantity then AsList(item.quantity) else [])
      + (if other == Size then OrEmpty(item.sizes) else [])
      + (if other == Upc then AsList(item.upc) else [])
      + (if other == Youtube then OrEmpty(item.youtubeVideos) else [])
  {
    TextsOf5(other,
      ListEvents(ProductType, OrEmpty(item.productTypes)), ScalarEvents(Quantity, item.quantity),
      ListEvents(Size, OrEmpty(item.sizes)), ScalarEvents(Upc, item.upc),
      ListEvents(Youtube, OrEmpty(item.youtubeVideos)));
    TextsOfList(ProductType, other, OrEmpty(item.productTypes));
    TextsOfScalar(Quantity, other, item.quantity);
    TextsOfList(Size, other, OrEmpty(item.sizes));
    TextsOfScalar(Upc, other, item.upc);
    TextsOfList(Youtube, other, OrEmpty(item.youtubeVideos));
  }

  // The tags each block writes (spelled out: deciding membership in a literal list is costly).

  predicate HeaderTag(t: Tag)
  {
    t == Availability || t == GoogleProductCategory || t == Brand || t == Color
    || t == Condition || t == Ean || t == Feature
  }

  predicate ImageTag(t: Tag) { t == ImageLink || t == AdditionalImageLink }

  predicate MakerTag(t: Tag)
  {
    t == MadeIn || t == Manufacturer || t == Material || t == ModelNumber
    || t == Mpn || t == OnlineOnly
  }

  predicate PricingTag(t: Tag)
  {
    t == PaymentAccepted || t == PaymentNotes || t == Price || t == PriceType
  }

  predicate DetailTag(t: Tag)
  {
    t == ProductType || t == Quantity || t == Size || t == Upc || t == Youtube
  }

  /** A block holds no element of a tag it does not write. */
  lemma QuietHeader(other: Tag, item: FeedItem)
    requires !HeaderTag(other)
    ensures Texts(other, HeaderEvents(item)) == []
  {
    TextsOfHeader(other, item);
  }

  lemma QuietImages(other: Tag, item: FeedItem)
    requires !ImageTag(other)
    ensures Texts(other, ImageEvents(OrEmpty(item.imageLinks))) == []
  {
    TextsOfImages(other, OrEmpty(item.imageLinks));
  }

  lemma QuietMaker(other: Tag, item: FeedItem)
    requires !MakerTag(other)
    ensures Texts(other, MakerEvents(item)) == []
  {
    TextsOfMaker(other, item);
  }

  lemma QuietPricing(other: Tag, item: FeedItem)
    requires !PricingTag(other)
    ensures Texts(other, PricingEvents(item)) == []
  {
    TextsOfPricing(other, item);
  }

  lemma QuietDetails(other: Tag, item: FeedItem)
    requires !DetailTag(other)
    ensures Texts(other, DetailEvents(item)) == []
  {
    TextsOfDetails(other, item);
  }

  lemma QuietShipping(other: Tag)
    requires other != Price
    ensures Texts(other, ShippingEvents()) == []
  {
    TextsOfShipping(other);
  }

  /** An item's texts for one tag, block by block. */
  lemma TextsOfItem(other: Tag, item: FeedItem)
    ensures Texts(other, ItemEvents(item)) ==
      Texts(other, HeaderEvents(item)) + Texts(other, ImageEvents(OrEmpty(item.imageLinks)))
      + Texts(other, MakerEvents(item)) + Texts(other, PricingEvents(item))
      + Texts(other, DetailEvents(item)) + Texts(other, ShippingEvents())
  {
    TextsOf6(other,
      HeaderEvents(item), ImageEvents(OrEmpty(item.imageLinks)), MakerEvents(item),
      PricingEvents(item), DetailEvents(item), ShippingEvents());
  }

  lemma PriceInPricing(item: FeedItem)
    ensures Texts(Price, PricingEvents(item)) == [PriceText(item)]
  {
    TextsOfPricing(Price, item);
  }

  /** A tag of one block is read back from that block alone. */
  lemma InHeader(other: Tag, item: FeedItem)
    requires HeaderTag(other)
    ensures Texts(other, ItemEvents(item)) == Texts(other, HeaderEvents(item))
  {
    assert !ImageTag(other) && !MakerTag(other) && !PricingTag(other) && !DetailTag(other) && other != Price;
    TextsOfItem(other, item);
    QuietImages(other, item);
    QuietMaker(other, item);
    QuietPricing(other, item);
    QuietDetails(other, item);
    QuietShipping(other);
  }

  lemma InImages(other: Tag, item: FeedItem)
    requires ImageTag(other)
    ensures Texts(other, ItemEvents(item)) == Texts(other, ImageEvents(OrEmpty(item.imageLinks)))
  {
    assert !HeaderTag(other) && !MakerTag(other) && !PricingTag(other) && !DetailTag(other) && other != Price;
    TextsOfItem(other, item);
    QuietHeader(other, item);
    QuietMaker(other, item);
    QuietPricing(other, item);
    QuietDetails(other, item);
    QuietShipping(other);
  }

  lemma InMaker(other: Tag, item: FeedItem)
    requires MakerTag(other)
    ensures Texts(other, ItemEvents(item)) == Texts(other, MakerEvents(item))
  {
    assert !HeaderTag(other) && !ImageTag(other) && !PricingTag(other) && !DetailTag(other) && other != Price;
    TextsOfItem(other, item);
    QuietHeader(other, item);
    QuietImages(other, item);
    QuietPricing(other, item);
    QuietDetails(other, item);
    QuietShipping(other);
  }

  lemma InPricing(other: Tag, item: FeedItem)
    requires PricingTag(other) && other != Price
    ensures Texts(other, ItemEvents(item)) == Texts(other, PricingEvents(item))
  {
    assert !HeaderTag(other) && !ImageTag(other) && !MakerTag(other) && !DetailTag(other);
    TextsOfItem(other, item);
    QuietHeader(other, item);
    QuietImages(other, item);
    QuietMaker(other, item);
    QuietDetails(other, item);
    QuietShipping(other);
  }

  lemma InDetails(other: Tag, item: FeedItem)
    requires DetailTag(other)
    ensures Texts(other, ItemEvents(item)) == Texts(other, DetailEvents(item))
  {
    assert !HeaderTag(other) && !ImageTag(other) && !MakerTag(other) && !PricingTag(other) && other != Price;
    TextsOfItem(other, item);
    QuietHeader(other, item);
    QuietImages(other, item);
    QuietMaker(other, item);
    QuietPricing(other, item);
    QuietShipping(other);
  }

  // ---------------------------------------------------------------------
  // The emission rules, read back from the events of one item

  /** An entry is written as a payment if and only if it is in the input and in `PAYMENT_TYPES`. */
  lemma {:induction false} AllowedMembers(values: seq<string>, allowed: seq<string>)
    ensures forall x :: x in Allowed(values, allowed) <==> x in values && x in allowed
  {
    if values != [] {
      var init := values[..|values| - 1];
      AllowedMembers(init, allowed);
      SnocSplit(values);
    }
  }

  /** The payments written keep the input order. */
  lemma {:induction false} AllowedSubsequence(values: seq<string>, allowed: seq<string>)
    ensures Subsequence(Allowed(values, allowed), values)
  {
    if values != [] {
      var init := values[..|values| - 1];
      var last := values[|values| - 1];
      AllowedSubsequence(init, allowed);
      SnocSplit(values);
      SubsequenceSnoc(Allowed(init, allowed), init, last);
      if last !in allowed {
        AppendEmpty(Allowed(init, allowed));
      }
    } else {
      SubsequenceRefl(values);
    }
  }

  /** When every entry is valid, all of them are written. */
  lemma {:induction false} AllowedAll(values: seq<string>, allowed: seq<string>)
    requires forall k :: 0 <= k < |values| ==> values[k] in allowed
    ensures Allowed(values, allowed) == values
  {
    if values != [] {
      var init := values[..|values| - 1];
      assert forall k :: 0 <= k < |init| ==> init[k] == values[k];
      AllowedAll(init, allowed);
      assert values[|values| - 1] in allowed;
      SnocSplit(values);
    }
  }

  /** Availability comes first, right after the base elements, and the shipping block closes the item. */
  lemma ItemFrame(item: FeedItem, base: seq<Event>)
    ensures (base + ItemEvents(item))[|base|] == Quick(G(Availability), "in stock")
    ensures var r := ItemEvents(item); |r| >= 5 && r[|r| - 3..] == ShippingEvents()
    ensures Texts(Availability, ItemEvents(item)) == ["in stock"]
  {
    var r := ItemEvents(item);
    var front := HeaderEvents(item) + ImageEvents(OrEmpty(item.imageLinks)) + MakerEvents(item)
      + PricingEvents(item) + DetailEvents(item);
    assert r == front + ShippingEvents();
    assert |PricingEvents(item)| >= 1;
    InHeader(Availability, item);
    TextsOfHeader(Availability, item);
  }

  /** The item price is always written, once, and the shipping price follows it. */
  lemma PriceAlways(item: FeedItem)
    ensures Texts(Price, ItemEvents(item)) == [item.price + " " + item.currency, FREE_SHIPPING_PRICE]
  {
    assert !HeaderTag(Price) && !ImageTag(Price) && !MakerTag(Price) && !DetailTag(Price);
    TextsOfItem(Price, item);
    QuietHeader(Price, item);
    QuietImages(Price, item);
    QuietMaker(Price, item);
    QuietDetails(Price, item);
    PriceInPricing(item);
    TextsOfShipping(Price);
    KeepTwo(Texts(Price, HeaderEvents(item)), Texts(Price, ImageEvents(OrEmpty(item.imageLinks))),
      Texts(Price, MakerEvents(item)), Texts(Price, PricingEvents(item)), Texts(Price, DetailEvents(item)),
      Texts(Price, ShippingEvents()));
    PairAppend(PriceText(item), FREE_SHIPPING_PRICE);
  }

  /** Each scalar field gives exactly one element when present and none for `None`. */
  lemma ScalarFieldsOnce(item: FeedItem)
    ensures Texts(GoogleProductCategory, ItemEvents(item)) == AsList(item.googleCategory)
    ensures Texts(Brand, ItemEvents(item)) == AsList(item.brand)
    ensures Texts(Ean, ItemEvents(item)) == AsList(item.ean)
    ensures Texts(MadeIn, ItemEvents(item)) == AsList(item.madeIn)
    ensures Texts(Manufacturer, ItemEvents(item)) == AsList(item.manufacturer)
    ensures Texts(ModelNumber, ItemEvents(item)) == AsList(item.modelNumber)
    ensures Texts(Mpn, ItemEvents(item)) == AsList(item.mpn)
    ensures Texts(PaymentNotes, ItemEvents(item)) == AsList(item.paymentNotes)
    ensures Texts(Quantity, ItemEvents(item)) == AsList(item.quantity)
    ensures Texts(Upc, ItemEvents(item)) == AsList(item.upc)
  {
    InHeader(GoogleProductCategory, item);
    TextsOfHeader(GoogleProductCategory, item);
    InHeader(Brand, item);
    TextsOfHeader(Brand, item);
    InHeader(Ean, item);
    TextsOfHeader(Ean, item);
    InMaker(MadeIn, item);
    TextsOfMaker(MadeIn, item);
    InMaker(Manufacturer, item);
    TextsOfMaker(Manufacturer, item);
    InMaker(ModelNumber, item);
    TextsOfMaker(ModelNumber, item);
    InMaker(Mpn, item);
    TextsOfMaker(Mpn, item);
    InPricing(PaymentNotes, item);
    TextsOfPricing(PaymentNotes, item);
    InDetails(Quantity, item);
    TextsOfDetails(Quantity, item);
    InDetails(Upc, item);
    TextsOfDetails(Upc, item);
  }

  /** Enum-checked fields are written only for a member of their tuple. */
  lemma EnumFieldsChecked(item: FeedItem)
    ensures Texts(Condition, ItemEvents(item)) ==
      if item.condition.Some? && item.condition.value in CONDITIONS then [item.condition.value] else []
    ensures Texts(OnlineOnly, ItemEvents(item)) ==
      if item.onlineOnly.Some? && item.onlineOnly.value in ONLINE_ONLY then [item.onlineOnly.value] else []
    ensures Texts(PriceType, ItemEvents(item)) ==
      if item.priceType.Some? && item.priceType.value in PRICE_TYPES then [item.priceType.value] else []
  {
    InHeader(Condition, item);
    TextsOfHeader(Condition, item);
    InMaker(OnlineOnly, item);
    TextsOfMaker(OnlineOnly, item);
    InPricing(PriceType, item);
    TextsOfPricing(PriceType, item);
  }

  /** List fields give one element per entry, in order. */
  lemma ListFieldsRepeated(item: FeedItem)
    ensures Texts(Color, ItemEvents(item)) == OrEmpty(item.colors)
    ensures Texts(Feature, ItemEvents(item)) == OrEmpty(item.features)
    ensures Texts(Material, ItemEvents(item)) == OrEmpty(item.materials)
    ensures Texts(ProductType, ItemEvents(item)) == OrEmpty(item.productTypes)
    ensures Texts(Size, ItemEvents(item)) == OrEmpty(item.sizes)
    ensures Texts(Youtube, ItemEvents(item)) == OrEmpty(item.youtubeVideos)
  {
    InHeader(Color, item);
    TextsOfHeader(Color, item);
    InHeader(Feature, item);
    TextsOfHeader(Feature, item);
    InMaker(Material, item);
    TextsOfMaker(Material, item);
    InDetails(ProductType, item);
    TextsOfDetails(ProductType, item);
    InDetails(Size, item);
    TextsOfDetails(Size, item);
    InDetails(Youtube, item);
    TextsOfDetails(Youtube, item);
  }

  /** The payments written are the valid entries of the item's list. */
  lemma PaymentsFiltered(item: FeedItem)
    ensures Texts(PaymentAccepted, ItemEvents(item)) == Allowed(OrEmpty(item.paymentsAccepted), PAYMENT_TYPES)
  {
    InPricing(PaymentAccepted, item);
    TextsOfPricing(PaymentAccepted, item);
  }

  /** `n` image links give `n` elements: the first as `g:image_link`, the rest as additional links. */
  lemma ImageLinksTagged(item: FeedItem)
    ensures var links := OrEmpty(item.imageLinks);
      Texts(ImageLink, ItemEvents(item)) == links[..Min(1, |links|)]
      && Texts(AdditionalImageLink, ItemEvents(item)) == (if links == [] then [] else links[1..])
      && Texts(ImageLink, ItemEvents(item)) + Texts(AdditionalImageLink, ItemEvents(item)) == links
  {
    var links := OrEmpty(item.imageLinks);
    InImages(ImageLink, item);
    InImages(AdditionalImageLink, item);
    TextsOfImages(ImageLink, links);
    TextsOfImages(AdditionalImageLink, links);
    if links != [] {
      ConsSplit(links);
    }
  }
}
