/** The public marketplace (app/marketplace/page.tsx): the product listing
    fetched once on mount, the product detail modal and its WhatsApp link. */
module Marketplace {
  import opened Common
  import opened Http

  const WhatsappPrefix: string := "https://wa.me/"
  const GreetingStart: string := "?text=Hi%20"
  const GreetingEnd: string := "%20product."
  const LoadErrorNotice: string := "Failed to load marketplace products"

  /** A product as the server stores it; `_id` is its key. */
  datatype RawProduct = RawProduct(
    underscoreId: Option<string>,
    productname: string,
    decription: string,
    producttype: string,
    images: seq<ImageData>,
    sellername: string,
    sellernumber: string)

  /** A product as the page shows it. */
  datatype Product = Product(
    id: Option<string>,
    productname: string,
    decription: string,
    producttype: string,
    images: seq<ImageData>,
    sellername: string,
    sellernumber: string)

  /** The `allproductindb` field of the listing body: an array or anything
      else. */
  datatype ProductsField = NotArray | ArrayOf(products: seq<RawProduct>)

  /** How the listing request settles: a response (status and the field), or
      a rejection before any response. */
  datatype ListingReply = Answered(status: int, allproductindb: ProductsField) | Unreached

  function Shown(p: RawProduct): Product {
    Product(p.underscoreId, p.productname, p.decription, p.producttype, p.images, p.sellername, p.sellernumber)
  }

  /** Every listed product, in order, with `id` taken from `_id` and every
      other field kept; a non-array listing shows nothing. */
  function MapProducts(field: ProductsField): (r: seq<Product>)
    ensures field.NotArray? ==> r == []
    ensures field.ArrayOf? ==> |r| == |field.products|
    ensures field.ArrayOf? ==> forall i :: 0 <= i < |r| ==>
      var p := field.products[i];
      r[i].id == p.underscoreId && r[i].sellernumber == p.sellernumber && r[i].images == p.images
      && r[i] == Product(p.underscoreId, p.productname, p.decription, p.producttype, p.images, p.sellername, p.sellernumber)
  {
    match field
    case NotArray => []
    case ArrayOf(products) => seq(|products|, i requires 0 <= i < |products| => Shown(products[i]))
  }

  /** `fetchProducts` (app/marketplace/page.tsx:136-162): the list afterwards
      and whether the error toast shows. */
  function Loaded(previous: seq<Product>, reply: ListingReply): (seq<Product>, bool) {
    if reply.Answered? && IsOk(reply.status) then (MapProducts(reply.allproductindb), false)
    else (previous, true)
  }

  lemma LoadCases(previous: seq<Product>, reply: ListingReply)
    ensures var (list, failed) := Loaded(previous, reply);
      && (failed <==> !(reply.Answered? && IsOk(reply.status)))
      && (failed ==> list == previous)
      && (!failed && reply.allproductindb.ArrayOf? ==> |list| == |reply.allproductindb.products|)
  {
  }

  /** The WhatsApp deep link; `encode` is `encodeURIComponent`. The seller's
      name follows the greeting's start, and the product's name comes just
      before its end, each as `encode` renders it. */
  function WhatsappLink(p: Product, encode: string -> string): (r: string)
    ensures StartsWith(r, WhatsappPrefix + KeepDigits(p.sellernumber) + GreetingStart)
    ensures var start := |WhatsappPrefix + KeepDigits(p.sellernumber) + GreetingStart|;
      start + |encode(p.sellername)| <= |r|
      && r[start..start + |encode(p.sellername)|] == encode(p.sellername)
    ensures var last := encode(p.productname) + GreetingEnd;
      |last| <= |r| && r[|r| - |last|..] == last
  {
    var head := WhatsappPrefix + KeepDigits(p.sellernumber) + GreetingStart;
    var seller := encode(p.sellername);
    var last := encode(p.productname) + GreetingEnd;
    var r := head + seller + ",%20I'm%20interested%20in%20your%20" + last;
    assert r[..|head|] == head;
    assert r[|head|..|head| + |seller|] == seller;
    assert r[|r| - |last|..] == last;
    r
  }

  /** The names reach the link only through `encode`: two encoders that agree
      on the seller's and the product's names give the same link. */
  lemma NamesEnterOnlyThroughEncode(p: Product, e1: string -> string, e2: string -> string)
    requires e1(p.sellername) == e2(p.sellername) && e1(p.productname) == e2(p.productname)
    ensures WhatsappLink(p, e1) == WhatsappLink(p, e2)
  {
  }

  /** The digits a reader of a link takes as the phone number: the longest
      run of digits at its start. */
  function LeadingDigits(s: string): (r: string)
    ensures |r| <= |s| && r == s[..|r|]
  {
    if s == [] || !IsDigit(s[0]) then [] else [s[0]] + LeadingDigits(s[1..])
  }

  lemma {:induction false} LeadingDigitsOfDigits(d: string, rest: string)
    requires forall i :: 0 <= i < |d| ==> IsDigit(d[i])
    requires rest != [] && !IsDigit(rest[0])
    ensures LeadingDigits(d + rest) == d
  {
    if d != [] {
      assert (d + rest)[1..] == d[1..] + rest;
      LeadingDigitsOfDigits(d[1..], rest);
    }
  }

  /** The number in the link is exactly the digits of the seller's number:
      whatever punctuation the number has is dropped, and the greeting after
      it cannot run into it. */
  lemma LinkCarriesSellerDigits(p: Product, encode: string -> string)
    ensures var link := WhatsappLink(p, encode);
      LeadingDigits(link[|WhatsappPrefix|..]) == KeepDigits(p.sellernumber)
  {
    var link := WhatsappLink(p, encode);
    var digits := KeepDigits(p.sellernumber);
    var tail := link[|WhatsappPrefix| + |digits|..];
    assert link[|WhatsappPrefix|..] == digits + tail;
    assert tail[0] == '?';
    LeadingDigitsOfDigits(digits, tail);
  }

  /** Sellers whose numbers differ only in formatting get the same link. */
  lemma FormattingDoesNotMatter(p: Product, number: string, encode: string -> string)
    requires KeepDigits(number) == KeepDigits(p.sellernumber)
    ensures WhatsappLink(p.(sellernumber := number), encode) == WhatsappLink(p, encode)
  {
  }

  /** The modal renders only while open and with a product selected; it then
      offers that product's link. */
  function ModalLink(selected: Option<Product>, isOpen: bool, encode: string -> string): (r: Option<string>)
    ensures r.Some? <==> isOpen && selected.Some?
    ensures r.Some? ==> r.value == WhatsappLink(selected.value, encode)
  {
    if !isOpen || selected.None? then None else Some(WhatsappLink(selected.value, encode))
  }

  class MarketplacePage {
    var products: seq<Product>
    var productsLoading: bool
    var selected: Option<Product>
    var isModalOpen: bool

    constructor ()
      ensures products == [] && productsLoading && selected == None && !isModalOpen
    {
      products, productsLoading, selected, isModalOpen := [], true, None, false;
    }

    /** Returns whether the error toast shows. */
    method FetchProducts(reply: ListingReply) returns (failed: bool)
      modifies this
      ensures (products, failed) == Loaded(old(products), reply)
      ensures !productsLoading && selected == old(selected) && isModalOpen == old(isModalOpen)
    {
      if reply.Answered? && IsOk(reply.status) {
        products := MapProducts(reply.allproductindb);
        failed := false;
      } else {
        failed := true;
      }
      productsLoading := false;
    }

    method HandleProductClick(p: Product)
      modifies this
      ensures selected == Some(p) && isModalOpen
      ensures products == old(products) && productsLoading == old(productsLoading)
    {
      selected, isModalOpen := Some(p), true;
    }

    /** `onClose`: the selection stays, the modal hides. */
    method Close()
      modifies this
      ensures !isModalOpen && selected == old(selected)
      ensures products == old(products) && productsLoading == old(productsLoading)
    {
      isModalOpen := false;
    }
  }

  /** Clicking a product shows its link; closing the modal again hides it,
      though the product stays selected. */
  method ClickThenCloseHidesLink(page: MarketplacePage, p: Product, encode: string -> string)
    modifies page
    ensures page.selected == Some(p) && ModalLink(page.selected, page.isModalOpen, encode) == None
    ensures page.products == old(page.products)
  {
    page.HandleProductClick(p);
    assert ModalLink(page.selected, page.isModalOpen, encode) == Some(WhatsappLink(p, encode));
    page.Close();
  }
}
