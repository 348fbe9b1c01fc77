/** The listing page: lookup by the route's id, and the WhatsApp and phone links
    that put the buyer in touch with the seller. */
module ProductDetails {
  import opened Wrappers
  import opened Types
  import Seqs
  import Text
  import ProductContext

  /** `sellerPhone.replace(/[^0-9]/g, '')`: the phone's digits, in order. */
  function PhoneDigits(phone: string): (r: string)
    ensures forall i :: 0 <= i < |r| ==> Text.IsDigit(r[i])
    ensures |r| <= |phone|
  {
    Seqs.Filter(phone, Text.IsDigit)
  }

  /** Stripping keeps every digit of the phone, as often as it occurs and in the same
      order, and drops every other character. */
  lemma PhoneDigitsKeepsDigits(phone: string, c: char)
    ensures multiset(PhoneDigits(phone))[c] == if Text.IsDigit(c) then multiset(phone)[c] else 0
    ensures Seqs.IsSubsequence(PhoneDigits(phone), phone)
  {
    Seqs.FilterCounts(phone, Text.IsDigit, c);
    Seqs.FilterIsSubsequence(phone, Text.IsDigit);
  }

  /** Stripping is idempotent, and leaves a number already written in digits alone. */
  lemma PhoneDigitsIdempotent(phone: string)
    ensures PhoneDigits(PhoneDigits(phone)) == PhoneDigits(phone)
    ensures PhoneDigits(phone) == phone <==> forall i :: 0 <= i < |phone| ==> Text.IsDigit(phone[i])
  {
    Seqs.FilterIdempotent(phone, Text.IsDigit);
    Seqs.FilterKeepsAll(phone, Text.IsDigit);
  }

  const WhatsappPrefix: string := "https://wa.me/"
  const TextParameter: string := "?text="

  /** The prefilled message; the listing's name goes in as it is, without URL encoding. */
  function Greeting(productName: string): string {
    "Hi! I'm interested in your listing \"" + productName + "\" on DalagHub."
  }

  /** The WhatsApp link: it opens wa.me, and is as long as its four parts together. */
  function WhatsappUrl(p: Product): (url: string)
    ensures |url| == |WhatsappPrefix| + |PhoneDigits(p.sellerPhone)| + |TextParameter| + |Greeting(p.name)|
    ensures url[..|WhatsappPrefix|] == WhatsappPrefix
  {
    WhatsappPrefix + PhoneDigits(p.sellerPhone) + TextParameter + Greeting(p.name)
  }

  /** The phone link: "tel:" followed by the seller's phone exactly as stored. */
  function PhoneUrl(p: Product): (url: string)
    ensures |url| == 4 + |p.sellerPhone| && url[..4] == "tel:" && url[4..] == p.sellerPhone
  {
    "tel:" + p.sellerPhone
  }

  /** The longest prefix of `s` without the character `c`. */
  function TakeUntil(s: string, c: char): (r: string)
    ensures |r| <= |s| && r == s[..|r|] && c !in r
    ensures |r| < |s| ==> s[|r|] == c
  {
    if s == [] || s[0] == c then [] else [s[0]] + TakeUntil(s[1..], c)
  }

  lemma {:induction false} TakeUntilAppend(a: string, b: string, c: char)
    requires c !in a && |b| > 0 && b[0] == c
    ensures TakeUntil(a + b, c) == a
  {
    if a != [] {
      assert (a + b)[1..] == a[1..] + b;
      TakeUntilAppend(a[1..], b, c);
    }
  }

  /** Reads the phone number back out of a WhatsApp link. */
  function PhoneOfWhatsappUrl(url: string): Option<string> {
    if |url| >= |WhatsappPrefix| && url[..|WhatsappPrefix|] == WhatsappPrefix
    then Some(TakeUntil(url[|WhatsappPrefix|..], '?'))
    else None
  }

  /** The WhatsApp link carries exactly the phone's digits, and the greeting follows the
      "?text=" parameter. */
  lemma WhatsappUrlCarriesDigits(p: Product)
    ensures PhoneOfWhatsappUrl(WhatsappUrl(p)) == Some(PhoneDigits(p.sellerPhone))
    ensures WhatsappUrl(p)[|WhatsappPrefix| + |PhoneDigits(p.sellerPhone)|..]
         == TextParameter + Greeting(p.name)
  {
    var d := PhoneDigits(p.sellerPhone);
    var url := WhatsappUrl(p);
    assert url[..|WhatsappPrefix|] == WhatsappPrefix;
    assert url[|WhatsappPrefix|..] == d + (TextParameter + Greeting(p.name));
    TakeUntilAppend(d, TextParameter + Greeting(p.name), '?');
  }

  /** What the page renders. */
  datatype View =
    | NotFound
    | Details(product: Product, whatsappUrl: string, phoneUrl: string)

  /** A route without an id is looked up as the empty id. */
  function RouteId(param: Option<string>): string {
    if param.Some? then param.value else ""
  }

  function ViewFor(ps: seq<Product>, param: Option<string>): (v: View)
    ensures v.NotFound? <==> forall i :: 0 <= i < |ps| ==> ps[i].id != RouteId(param)
    ensures v.Details? ==> v.product in ps && v.product.id == RouteId(param)
    ensures v.Details? ==> v.whatsappUrl == WhatsappUrl(v.product) && v.phoneUrl == PhoneUrl(v.product)
  {
    match ProductContext.FindById(ps, RouteId(param))
    case None => NotFound
    case Some(p) => Details(p, WhatsappUrl(p), PhoneUrl(p))
  }
}
