/** The transactional e-mails: the HTML escaper every user-supplied field
    goes through, the short order number shown in bodies and subjects, the
    dynamic parts of each template in document order, and the error
    containment around the mail API. The fixed HTML around the dynamic
    parts and the mail API itself are not modelled; the API's verdict is a
    parameter. Amounts are integer cents. */
module Email {
  import opened Common

  const SUPPORT_EMAIL: string := "lblancom06@gmail.com"
  const ORDER_NUMBER_LENGTH: nat := 8

  // ---------------------------------------------------------------------
  // escapeHtml

  /** `s.replace(/c/g, rep)` for a single character `c`. */
  function ReplaceChar(s: string, c: char, rep: string): (r: string)
    ensures c !in s ==> r == s
  {
    if |s| == 0 then ""
    else (if s[0] == c then rep else [s[0]]) + ReplaceChar(s[1..], c, rep)
  }

  lemma {:induction false} ReplaceCharAppend(a: string, b: string, c: char, rep: string)
    ensures ReplaceChar(a + b, c, rep) == ReplaceChar(a, c, rep) + ReplaceChar(b, c, rep)
  {
    if |a| == 0 {
      assert a + b == b;
    } else {
      assert (a + b)[0] == a[0] && (a + b)[1..] == a[1..] + b;
      ReplaceCharAppend(a[1..], b, c, rep);
    }
  }

  /** The five replacements, `&` first. */
  function EscapeHtml(s: string): string {
    ReplaceChar(ReplaceChar(ReplaceChar(ReplaceChar(ReplaceChar(s, '&', "&amp;"), '<', "&lt;"), '>', "&gt;"),
                            '"', "&quot;"), '\'', "&#039;")
  }

  /** The characters HTML gives a meaning to inside text and attributes. */
  predicate Special(c: char) {
    c == '&' || c == '<' || c == '>' || c == '"' || c == '\''
  }

  /** The entity each character stands for; everything else is itself. */
  function Entity(c: char): (r: string)
    ensures !Special(c) ==> r == [c]
    ensures Special(c) ==> |r| >= 4 && r[0] == '&' && r[|r| - 1] == ';'
    ensures forall i :: 0 <= i < |r| ==> r[i] != '<' && r[i] != '>' && r[i] != '"' && r[i] != '\''
  {
    if c == '&' then "&amp;" else if c == '<' then "&lt;" else if c == '>' then "&gt;"
    else if c == '"' then "&quot;" else if c == '\'' then "&#039;" else [c]
  }

  /** Character-by-character escaping, the reference the chain is held to. */
  function EscapeEach(s: string): (r: string)
    ensures |r| >= |s|
    ensures forall i :: 0 <= i < |r| ==> r[i] != '<' && r[i] != '>' && r[i] != '"' && r[i] != '\''
  {
    if |s| == 0 then "" else Entity(s[0]) + EscapeEach(s[1..])
  }

  lemma EscapeHtmlAppend(a: string, b: string)
    ensures EscapeHtml(a + b) == EscapeHtml(a) + EscapeHtml(b)
  {
    var a1, b1 := ReplaceChar(a, '&', "&amp;"), ReplaceChar(b, '&', "&amp;");
    ReplaceCharAppend(a, b, '&', "&amp;");
    var a2, b2 := ReplaceChar(a1, '<', "&lt;"), ReplaceChar(b1, '<', "&lt;");
    ReplaceCharAppend(a1, b1, '<', "&lt;");
    var a3, b3 := ReplaceChar(a2, '>', "&gt;"), ReplaceChar(b2, '>', "&gt;");
    ReplaceCharAppend(a2, b2, '>', "&gt;");
    var a4, b4 := ReplaceChar(a3, '"', "&quot;"), ReplaceChar(b3, '"', "&quot;");
    ReplaceCharAppend(a3, b3, '"', "&quot;");
    ReplaceCharAppend(a4, b4, '\'', "&#039;");
  }

  /** One character is replaced or kept. */
  lemma ReplaceCharOne(c: char, d: char, rep: string)
    ensures ReplaceChar([c], d, rep) == if c == d then rep else [c]
  {
    assert [c][1..] == [];
  }

  /** A text without `d` is left as it is. */
  lemma ReplaceAbsent(s: string, d: char, rep: string)
    requires forall i :: 0 <= i < |s| ==> s[i] != d
    ensures ReplaceChar(s, d, rep) == s
  {
  }

  /** Past the first step that rewrites it, a character's entity holds none
      of the characters the later steps look for. */
  lemma EscapeHtmlChar(c: char)
    ensures EscapeHtml([c]) == Entity(c)
  {
    var e := Entity(c);
    ReplaceCharOne(c, '&', "&amp;");
    if c == '&' {
      ReplaceAbsent(e, '<', "&lt;");
    } else {
      ReplaceCharOne(c, '<', "&lt;");
    }
    if c == '&' || c == '<' {
      ReplaceAbsent(e, '>', "&gt;");
    } else {
      ReplaceCharOne(c, '>', "&gt;");
    }
    if c == '&' || c == '<' || c == '>' {
      ReplaceAbsent(e, '"', "&quot;");
    } else {
      ReplaceCharOne(c, '"', "&quot;");
    }
    if c == '&' || c == '<' || c == '>' || c == '"' {
      ReplaceAbsent(e, '\'', "&#039;");
    } else {
      ReplaceCharOne(c, '\'', "&#039;");
    }
  }

  /** Because `&` is replaced first, no entity introduced by a later step is
      escaped again: the chain escapes each character exactly once. */
  lemma {:induction false} EscapeHtmlIsEach(s: string)
    ensures EscapeHtml(s) == EscapeEach(s)
  {
    if |s| > 0 {
      assert s == [s[0]] + s[1..];
      EscapeHtmlAppend([s[0]], s[1..]);
      EscapeHtmlChar(s[0]);
      EscapeHtmlIsEach(s[1..]);
    }
  }

  /** No escaped text holds < > " or '. */
  lemma EscapedIsSafe(s: string)
    ensures forall i :: 0 <= i < |EscapeHtml(s)| ==>
              EscapeHtml(s)[i] != '<' && EscapeHtml(s)[i] != '>' && EscapeHtml(s)[i] != '"' && EscapeHtml(s)[i] != '\''
  {
    EscapeHtmlIsEach(s);
  }

  /** What a browser reads back from escaped text. */
  function Unescape(t: string): string
    decreases |t|
  {
    if |t| == 0 then ""
    else if StartsWith(t, "&amp;") then "&" + Unescape(t[5..])
    else if StartsWith(t, "&lt;") then "<" + Unescape(t[4..])
    else if StartsWith(t, "&gt;") then ">" + Unescape(t[4..])
    else if StartsWith(t, "&quot;") then "\"" + Unescape(t[6..])
    else if StartsWith(t, "&#039;") then "'" + Unescape(t[6..])
    else [t[0]] + Unescape(t[1..])
  }

  /** Reading back one entity, or one plain character, at the front. */
  lemma UnescapeFront(e: string, c: char, rest: string)
    requires (e, c) in {("&amp;", '&'), ("&lt;", '<'), ("&gt;", '>'), ("&quot;", '"'), ("&#039;", '\'')}
    ensures Unescape(e + rest) == [c] + Unescape(rest)
  {
    var t := e + rest;
    assert t[..|e|] == e && t[|e|..] == rest;
    assert t[1] == e[1];
  }

  lemma UnescapePlain(c: char, rest: string)
    requires c != '&'
    ensures Unescape([c] + rest) == [c] + Unescape(rest)
  {
    var t := [c] + rest;
    assert t[0] == c && t[1..] == rest;
    assert !StartsWith(t, "&amp;") && !StartsWith(t, "&lt;") && !StartsWith(t, "&gt;") &&
           !StartsWith(t, "&quot;") && !StartsWith(t, "&#039;") by {
      NotAtFront(t, "&amp;");
      NotAtFront(t, "&lt;");
      NotAtFront(t, "&gt;");
      NotAtFront(t, "&quot;");
      NotAtFront(t, "&#039;");
    }
  }

  /** A text whose first character differs from a prefix's does not start
      with it. */
  lemma NotAtFront(t: string, p: string)
    requires |t| > 0 && |p| > 0 && t[0] != p[0]
    ensures !StartsWith(t, p)
  {
    if |p| <= |t| {
      assert t[..|p|][0] == t[0];
    }
  }

  lemma UnescapeEntity(c: char, rest: string)
    ensures Unescape(Entity(c) + rest) == [c] + Unescape(rest)
  {
    if Special(c) {
      UnescapeFront(Entity(c), c, rest);
    } else {
      UnescapePlain(c, rest);
    }
  }

  /** Escaping loses nothing: every character, special or not, is read back. */
  lemma {:induction false} EscapeHtmlRoundTrip(s: string)
    ensures Unescape(EscapeHtml(s)) == s
  {
    EscapeHtmlIsEach(s);
    EscapeEachRoundTrip(s);
  }

  lemma {:induction false} EscapeEachRoundTrip(s: string)
    ensures Unescape(EscapeEach(s)) == s
  {
    if |s| > 0 {
      UnescapeEntity(s[0], EscapeEach(s[1..]));
      EscapeEachRoundTrip(s[1..]);
      assert s == [s[0]] + s[1..];
    }
  }

  // ---------------------------------------------------------------------
  // URI components

  /** The characters encodeURIComponent leaves as they are:
      A-Z a-z 0-9 - _ . ! ~ * ' ( ) */
  predicate Unreserved(c: char) {
    IsUpper(c) || IsLower(c) || IsDigit(c) || c == '-' || c == '_' || c == '.' || c == '!' || c == '~' ||
    c == '*' || c == '\'' || c == '(' || c == ')'
  }

  /** The UTF-8 encoding of one code point, section 3 of RFC 3629. */
  function Utf8(c: char): (r: seq<int>)
    ensures 1 <= |r| <= 4
    ensures forall i :: 0 <= i < |r| ==> 0 <= r[i] < 256
    ensures (c as int) < 0x80 <==> r == [c as int]
    ensures forall i :: 1 <= i < |r| ==> 0x80 <= r[i] < 0xC0
  {
    var n := c as int;
    if n < 0x80 then [n]
    else if n < 0x800 then [0xC0 + n / 64, 0x80 + n % 64]
    else if n < 0x10000 then [0xE0 + n / 4096, 0x80 + (n / 64) % 64, 0x80 + n % 64]
    else [0xF0 + n / 262144, 0x80 + (n / 4096) % 64, 0x80 + (n / 64) % 64, 0x80 + n % 64]
  }

  /** The UTF-8 bytes of a string. */
  function Utf8Bytes(s: string): (r: seq<int>)
    ensures forall i :: 0 <= i < |r| ==> 0 <= r[i] < 256
  {
    if |s| == 0 then [] else Utf8(s[0]) + Utf8Bytes(s[1..])
  }

  /** An upper-case hexadecimal digit. */
  function HexDigit(d: int): (c: char)
    requires 0 <= d < 16
    ensures IsDigit(c) || ('A' <= c <= 'F')
  {
    if d < 10 then ('0' as int + d) as char else ('A' as int + d - 10) as char
  }

  function HexValue(c: char): (d: int)
    requires IsHexDigit(c)
    ensures 0 <= d < 16
  {
    if IsDigit(c) then c as int - '0' as int
    else if 'a' <= c <= 'f' then c as int - 'a' as int + 10
    else c as int - 'A' as int + 10
  }

  /** `%XY` for each byte. */
  function Percents(bytes: seq<int>): (r: string)
    requires forall i :: 0 <= i < |bytes| ==> 0 <= bytes[i] < 256
    ensures |r| == 3 * |bytes|
    ensures forall i :: 0 <= i < |r| ==> r[i] == '%' || IsDigit(r[i]) || ('A' <= r[i] <= 'F')
  {
    if |bytes| == 0 then ""
    else ['%', HexDigit(bytes[0] / 16), HexDigit(bytes[0] % 16)] + Percents(bytes[1..])
  }

  function EncodeChar(c: char): (r: string)
    ensures forall i :: 0 <= i < |r| ==> Unreserved(r[i]) || r[i] == '%'
  {
    if Unreserved(c) then [c] else Percents(Utf8(c))
  }

  /** JavaScript encodeURIComponent: unreserved characters are kept, every
      other character is written as the %XY escapes of its UTF-8 bytes. */
  function EncodeUriComponent(s: string): (r: string)
    ensures forall i :: 0 <= i < |r| ==> Unreserved(r[i]) || r[i] == '%'
  {
    if |s| == 0 then "" else EncodeChar(s[0]) + EncodeUriComponent(s[1..])
  }

  /** An encoded component holds nothing that could end a double-quoted
      attribute, open a tag, start an entity or split a mailto query. */
  lemma EncodedIsSafe(s: string)
    ensures forall i :: 0 <= i < |EncodeUriComponent(s)| ==>
              EncodeUriComponent(s)[i] !in "<>\"& ?=#"
  {
  }

  /** Text made only of unreserved characters is left as it is. */
  lemma {:induction false} EncodeUnreserved(s: string)
    requires forall i :: 0 <= i < |s| ==> Unreserved(s[i])
    ensures EncodeUriComponent(s) == s
  {
    if |s| > 0 {
      EncodeUnreserved(s[1..]);
    }
  }

  /** Encoding works character by character, so it distributes over
      concatenation. */
  lemma {:induction false} EncodeAppend(s: string, t: string)
    ensures EncodeUriComponent(s + t) == EncodeUriComponent(s) + EncodeUriComponent(t)
  {
    if |s| == 0 {
      assert s + t == t;
    } else {
      assert (s + t)[0] == s[0] && (s + t)[1..] == s[1..] + t;
      EncodeAppend(s[1..], t);
    }
  }

  /** What decodeURIComponent reads as bytes: `%XY` is the byte XY, any
      other character its code. */
  function PercentDecode(t: string): (r: seq<int>)
    decreases |t|
  {
    if |t| == 0 then []
    else if |t| >= 3 && t[0] == '%' && IsHexDigit(t[1]) && IsHexDigit(t[2]) then
      [16 * HexValue(t[1]) + HexValue(t[2])] + PercentDecode(t[3..])
    else [t[0] as int] + PercentDecode(t[1..])
  }

  lemma HexRoundTrip(b: int)
    requires 0 <= b < 256
    ensures IsHexDigit(HexDigit(b / 16)) && IsHexDigit(HexDigit(b % 16))
    ensures 16 * HexValue(HexDigit(b / 16)) + HexValue(HexDigit(b % 16)) == b
  {
  }

  /** One escape at the front is one byte. */
  lemma DecodeEscape(b: int, tail: string)
    requires 0 <= b < 256
    ensures PercentDecode(['%', HexDigit(b / 16), HexDigit(b % 16)] + tail) == [b] + PercentDecode(tail)
  {
    var t := ['%', HexDigit(b / 16), HexDigit(b % 16)] + tail;
    HexRoundTrip(b);
    assert t[3..] == tail;
  }

  /** Reading back a run of escapes gives the bytes, then the rest. */
  lemma {:induction false} PercentsDecode(bytes: seq<int>, rest: string)
    requires forall i :: 0 <= i < |bytes| ==> 0 <= bytes[i] < 256
    ensures PercentDecode(Percents(bytes) + rest) == bytes + PercentDecode(rest)
  {
    if |bytes| == 0 {
      assert Percents(bytes) + rest == rest;
    } else {
      var head := ['%', HexDigit(bytes[0] / 16), HexDigit(bytes[0] % 16)];
      var tail := Percents(bytes[1..]) + rest;
      calc {
        PercentDecode(Percents(bytes) + rest);
        { assert Percents(bytes) + rest == head + tail; }
        PercentDecode(head + tail);
        { DecodeEscape(bytes[0], tail); }
        [bytes[0]] + PercentDecode(tail);
        { PercentsDecode(bytes[1..], rest); }
        [bytes[0]] + (bytes[1..] + PercentDecode(rest));
        { assert bytes == [bytes[0]] + bytes[1..]; }
        bytes + PercentDecode(rest);
      }
    }
  }

  /** Decoding an encoded component gives back the UTF-8 bytes of the text:
      the encoding loses nothing. */
  lemma {:induction false} EncodeDecode(s: string)
    ensures PercentDecode(EncodeUriComponent(s)) == Utf8Bytes(s)
  {
    if |s| > 0 {
      var rest := EncodeUriComponent(s[1..]);
      if Unreserved(s[0]) {
        assert ([s[0]] + rest)[1..] == rest;
      } else {
        PercentsDecode(Utf8(s[0]), rest);
      }
      EncodeDecode(s[1..]);
    }
  }

  // ---------------------------------------------------------------------
  // Order numbers

  /** `orderId.slice(0, 8).toUpperCase()`. */
  function OrderNumber(orderId: string): (r: string)
    ensures |r| == if |orderId| < ORDER_NUMBER_LENGTH then |orderId| else ORDER_NUMBER_LENGTH
    ensures forall i :: 0 <= i < |r| ==> r[i] == UpperChar(orderId[i])
  {
    ToUpper(Take(orderId, ORDER_NUMBER_LENGTH))
  }

  /** Ids that agree on their first eight characters up to letter case show
      the same order number. */
  lemma OrderNumberPrefix(a: string, b: string)
    requires |a| >= ORDER_NUMBER_LENGTH && |b| >= ORDER_NUMBER_LENGTH
    requires forall i :: 0 <= i < ORDER_NUMBER_LENGTH ==> UpperChar(a[i]) == UpperChar(b[i])
    ensures OrderNumber(a) == OrderNumber(b)
  {
  }

  // ---------------------------------------------------------------------
  // Templates

  /** The place a dynamic value is inserted at. */
  datatype Slot = CustomerName | OrderNo | ItemName | Address | TrackingNumber | Carrier | AdminNotes
                | ContactName | ContactEmail | ContactPhone | ContactSubject | ContactMessage | PromoCode
                | ReplySubject

  datatype AmountSlot = Quantity | Price | LineTotal | Subtotal | Discount | Total

  /** One dynamic part of a template, in document order. */
  datatype Part = Inserted(slot: Slot, text: string) | Amount(amountSlot: AmountSlot, cents: int)

  datatype Mail = Mail(to: string, subject: string, replyTo: Option<string>, parts: seq<Part>)

  /** Every inserted text is escaped, except the campaign code (which is
      generated, not typed in), the order number (hexadecimal) and the
      subject of a reply link (URI-encoded instead, see UriEncoded). */
  ghost predicate Escaped(m: Mail) {
    forall i :: 0 <= i < |m.parts| && m.parts[i].Inserted? && m.parts[i].slot != PromoCode &&
                m.parts[i].slot != OrderNo && m.parts[i].slot != ReplySubject ==>
      IsEscapedText(m.parts[i].text)
  }

  /** Every reply-link subject is URI-encoded. */
  ghost predicate UriEncoded(m: Mail) {
    forall i :: 0 <= i < |m.parts| && m.parts[i].Inserted? && m.parts[i].slot == ReplySubject ==>
      IsEncodedText(m.parts[i].text)
  }

  /** Text that is the escaping of something. */
  ghost predicate IsEscapedText(t: string) {
    exists raw :: t == EscapeHtml(raw)
  }

  /** Text that is the URI encoding of something. */
  ghost predicate IsEncodedText(t: string) {
    exists raw :: t == EncodeUriComponent(raw)
  }

  datatype OrderItem = OrderItem(name: string, quantity: int, priceCents: int)

  datatype OrderEmailData = OrderEmailData(to: string, customerName: string, orderId: string,
                                           items: seq<OrderItem>, subtotalCents: int,
                                           discountCents: Option<int>, totalCents: int,
                                           shippingAddress: Option<string>)

  /** The four cells of an item row: escaped name, quantity, price, line total. */
  function ItemRow(item: OrderItem): (r: seq<Part>)
    ensures |r| == 4 && r[0] == Inserted(ItemName, EscapeHtml(item.name))
  {
    [Inserted(ItemName, EscapeHtml(item.name)), Amount(Quantity, item.quantity),
     Amount(Price, item.priceCents), Amount(LineTotal, item.quantity * item.priceCents)]
  }

  /** A part an item row can hold. */
  predicate ItemCell(p: Part) {
    (p.Inserted? && p.slot == ItemName) ||
    (p.Amount? && (p.amountSlot == Quantity || p.amountSlot == Price || p.amountSlot == LineTotal))
  }

  /** `data.items.map(...).join('')`. */
  function ItemParts(items: seq<OrderItem>): (r: seq<Part>)
    ensures |r| == 4 * |items|
    ensures forall p :: p in r ==> ItemCell(p)
  {
    if |items| == 0 then [] else ItemRow(items[0]) + ItemParts(items[1..])
  }

  /** The rows of two runs of items are the rows of each, in order. */
  lemma {:induction false} ItemPartsAppend(a: seq<OrderItem>, b: seq<OrderItem>)
    ensures ItemParts(a + b) == ItemParts(a) + ItemParts(b)
  {
    if |a| > 0 {
      assert (a + b)[1..] == a[1..] + b;
      ItemPartsAppend(a[1..], b);
    } else {
      assert a + b == b;
    }
  }

  /** The k-th row of the table is the k-th item's: the rows of the items
      before it, then its own, then those of the items after it. */
  lemma ItemPartsAt(items: seq<OrderItem>, k: nat)
    requires k < |items|
    ensures ItemParts(items) == ItemParts(items[..k]) + ItemRow(items[k]) + ItemParts(items[k + 1..])
    ensures |ItemParts(items[..k])| == 4 * k
  {
    assert items == items[..k] + [items[k]] + items[k + 1..];
    ItemPartsAppend(items[..k] + [items[k]], items[k + 1..]);
    ItemPartsAppend(items[..k], [items[k]]);
    assert ItemParts([items[k]]) == ItemRow(items[k]) + ItemParts([]);
  }

  /** `data.discount ? <row> : ''`: zero and absent are falsy. */
  function DiscountParts(discountCents: Option<int>): (r: seq<Part>)
    ensures |r| <= 1
    ensures r != [] <==> discountCents.Some? && discountCents.value != 0
    ensures r != [] ==> r[0] == Amount(Discount, discountCents.value)
  {
    if discountCents.Some? && discountCents.value != 0 then [Amount(Discount, discountCents.value)] else []
  }

  /** `data.shippingAddress ? <block> : ''`. */
  function AddressParts(shippingAddress: Option<string>): (r: seq<Part>)
    ensures |r| <= 1
    ensures r != [] <==> NonEmpty(shippingAddress).Some?
    ensures r != [] ==> r[0] == Inserted(Address, EscapeHtml(shippingAddress.value))
  {
    if NonEmpty(shippingAddress).Some? then [Inserted(Address, EscapeHtml(shippingAddress.value))] else []
  }

  /** The greeting and the order number head the confirmation. */
  function ConfirmationHead(d: OrderEmailData): (r: seq<Part>)
    ensures |r| == 2 && r[1] == Inserted(OrderNo, OrderNumber(d.orderId))
  {
    [Inserted(CustomerName, EscapeHtml(d.customerName)), Inserted(OrderNo, OrderNumber(d.orderId))]
  }

  /** The totals: subtotal, the optional discount, total. */
  function Totals(d: OrderEmailData): (r: seq<Part>)
    ensures Amount(Discount, d.discountCents.GetOr(0)) in r <==> d.discountCents.Some? && d.discountCents.value != 0
    ensures forall p :: p in r ==> p.Amount?
  {
    var t := [Amount(Subtotal, d.subtotalCents)] + DiscountParts(d.discountCents) + [Amount(Total, d.totalCents)];
    assert DiscountParts(d.discountCents) != [] ==> t[1] == DiscountParts(d.discountCents)[0];
    t
  }

  const CONFIRMED_SUBJECT: string := "Pedido confirmado #"

  /** `sendOrderConfirmation`'s message. */
  function OrderConfirmation(d: OrderEmailData): (m: Mail)
    ensures m.to == d.to && m.replyTo.None?
    ensures m.subject == CONFIRMED_SUBJECT + OrderNumber(d.orderId)
    ensures m.parts == ConfirmationHead(d) + ItemParts(d.items) + Totals(d) + AddressParts(d.shippingAddress)
  {
    Mail(d.to, CONFIRMED_SUBJECT + OrderNumber(d.orderId), None,
         ConfirmationHead(d) + ItemParts(d.items) + Totals(d) + AddressParts(d.shippingAddress))
  }

  /** The discount row is there exactly when the discount is non-zero. */
  lemma OrderConfirmationDiscountRow(d: OrderEmailData)
    ensures Amount(Discount, d.discountCents.GetOr(0)) in OrderConfirmation(d).parts <==>
            d.discountCents.Some? && d.discountCents.value != 0
  {
    var x := Amount(Discount, d.discountCents.GetOr(0));
    assert !ItemCell(x);
    assert x !in ConfirmationHead(d) && x !in AddressParts(d.shippingAddress);
    assert x !in ItemParts(d.items);
  }

  /** The address block is there exactly when an address is given. */
  lemma OrderConfirmationAddressBlock(d: OrderEmailData)
    ensures (exists p :: p in OrderConfirmation(d).parts && p.Inserted? && p.slot == Address) <==>
            NonEmpty(d.shippingAddress).Some?
  {
    var m := OrderConfirmation(d);
    var head, items, totals, addr := ConfirmationHead(d), ItemParts(d.items), Totals(d), AddressParts(d.shippingAddress);
    assert m.parts == head + items + totals + addr;
    if NonEmpty(d.shippingAddress).Some? {
      assert addr[0] in m.parts;
    } else {
      forall p | p in m.parts
        ensures !(p.Inserted? && p.slot == Address)
      {
        if p in items {
          assert ItemCell(p);
        }
      }
    }
  }

  /** The order number in the subject is the one in the body. */
  lemma OrderNumberInSubjectAndBody(d: OrderEmailData)
    ensures var m := OrderConfirmation(d);
            m.parts[1] == Inserted(OrderNo, OrderNumber(d.orderId)) &&
            m.subject[|CONFIRMED_SUBJECT|..] == OrderNumber(d.orderId)
  {
  }

  /** `sendWelcomeEmail`. */
  function Welcome(to: string, name: string): (m: Mail)
    ensures m == Mail(to, "Bienvenido a Benice", None, [Inserted(CustomerName, EscapeHtml(name))])
    ensures Escaped(m)
  {
    Mail(to, "Bienvenido a Benice", None, [Inserted(CustomerName, EscapeHtml(name))])
  }

  /** `sendShippingNotification`: name, tracking number and carrier escaped. */
  function ShippingNotification(to: string, customerName: string, orderId: string, trackingNumber: string,
                                carrier: string): (m: Mail)
    ensures m.subject == "Tu pedido #" + OrderNumber(orderId) + " está en camino"
    ensures m.parts == [Inserted(CustomerName, EscapeHtml(customerName)), Inserted(TrackingNumber, EscapeHtml(trackingNumber)),
                        Inserted(Carrier, EscapeHtml(carrier))]
    ensures Escaped(m)
  {
    Mail(to, "Tu pedido #" + OrderNumber(orderId) + " está en camino", None,
         [Inserted(CustomerName, EscapeHtml(customerName)), Inserted(TrackingNumber, EscapeHtml(trackingNumber)),
          Inserted(Carrier, EscapeHtml(carrier))])
  }

  /** `sendNewsletterWelcome`: the code is inserted as it is. */
  function NewsletterWelcome(to: string, promoCode: string): (m: Mail)
    ensures m.parts == [Inserted(PromoCode, promoCode)] && m.to == to
    ensures Escaped(m)
  {
    Mail(to, "Tu código de descuento exclusivo", None, [Inserted(PromoCode, promoCode)])
  }

  /** `sendOrderCancellation`. */
  function OrderCancellation(to: string, orderId: string, customerName: string): (m: Mail)
    ensures m.subject == "Pedido #" + OrderNumber(orderId) + " cancelado"
    ensures m.parts == [Inserted(CustomerName, EscapeHtml(customerName)), Inserted(OrderNo, OrderNumber(orderId))]
    ensures Escaped(m)
  {
    Mail(to, "Pedido #" + OrderNumber(orderId) + " cancelado", None,
         [Inserted(CustomerName, EscapeHtml(customerName)), Inserted(OrderNo, OrderNumber(orderId))])
  }

  /** `sendDeliveryConfirmation`. */
  function DeliveryConfirmation(to: string, orderId: string, customerName: string): (m: Mail)
    ensures m.subject == "Pedido #" + OrderNumber(orderId) + " entregado"
    ensures m.parts == [Inserted(CustomerName, EscapeHtml(customerName)), Inserted(OrderNo, OrderNumber(orderId))]
    ensures Escaped(m)
  {
    Mail(to, "Pedido #" + OrderNumber(orderId) + " entregado", None,
         [Inserted(CustomerName, EscapeHtml(customerName)), Inserted(OrderNo, OrderNumber(orderId))])
  }

  /** `sendCancellationRejected`: the reason block only when notes are given. */
  function CancellationRejected(to: string, orderId: string, customerName: string, adminNotes: Option<string>)
      : (m: Mail)
    ensures m.subject == "Solicitud de cancelacion - Pedido #" + OrderNumber(orderId)
    ensures |m.parts| == 2 || |m.parts| == 3
    ensures m.parts[0] == Inserted(CustomerName, EscapeHtml(customerName))
    ensures m.parts[1] == Inserted(OrderNo, OrderNumber(orderId))
    ensures |m.parts| == 3 <==> NonEmpty(adminNotes).Some?
    ensures |m.parts| == 3 ==> m.parts[2] == Inserted(AdminNotes, EscapeHtml(adminNotes.value))
  {
    var head := [Inserted(CustomerName, EscapeHtml(customerName)), Inserted(OrderNo, OrderNumber(orderId))];
    var notes := if NonEmpty(adminNotes).Some? then [Inserted(AdminNotes, EscapeHtml(adminNotes.value))] else [];
    Mail(to, "Solicitud de cancelacion - Pedido #" + OrderNumber(orderId), None, head + notes)
  }

  /** The customer's name and the admin's notes reach the message escaped. */
  lemma CancellationRejectedEscaped(to: string, orderId: string, customerName: string, adminNotes: Option<string>)
    ensures Escaped(CancellationRejected(to, orderId, customerName, adminNotes))
  {
    var m := CancellationRejected(to, orderId, customerName, adminNotes);
    forall i | 0 <= i < |m.parts| && m.parts[i].Inserted? && m.parts[i].slot != PromoCode && m.parts[i].slot != OrderNo
      ensures IsEscapedText(m.parts[i].text)
    {
      if i == 0 {
        assert m.parts[i].text == EscapeHtml(customerName);
      } else {
        assert m.parts[i].text == EscapeHtml(adminNotes.value);
      }
    }
  }

  datatype ContactData = ContactData(name: string, email: string, subject: string, message: string,
                                     phone: Option<string>)

  /** `sendContactEmail`: to the support address, replying to the sender;
      the phone row only when a phone is given; at the end the reply link,
      the sender's address and the subject URI-encoded. */
  function ContactMail(d: ContactData): (m: Mail)
    ensures m.to == SUPPORT_EMAIL && m.replyTo == NonEmpty(Some(d.email))
    ensures m.subject == "[Contacto] " + EscapeHtml(d.subject)
    ensures m.parts == ContactParts(EscapeHtml(d.name), EscapeHtml(d.email),
                                    if NonEmpty(d.phone).Some? then Some(EscapeHtml(d.phone.value)) else None,
                                    EscapeHtml(d.subject), EscapeHtml(d.message), EncodeUriComponent(d.subject))
  {
    var phone := if NonEmpty(d.phone).Some? then Some(EscapeHtml(d.phone.value)) else None;
    Mail(SUPPORT_EMAIL, "[Contacto] " + EscapeHtml(d.subject), NonEmpty(Some(d.email)),
         ContactParts(EscapeHtml(d.name), EscapeHtml(d.email), phone, EscapeHtml(d.subject), EscapeHtml(d.message),
                      EncodeUriComponent(d.subject)))
  }

  /** The layout of the contact message: name, address, the phone row when
      there is one, subject, message, then the reply link's address and
      subject. */
  function ContactParts(name: string, email: string, phone: Option<string>, subject: string, message: string,
                        replySubject: string): (r: seq<Part>)
    ensures |r| == (if phone.Some? then 7 else 6)
    ensures r[0] == Inserted(ContactName, name) && r[1] == Inserted(ContactEmail, email)
    ensures phone.Some? ==> r[2] == Inserted(ContactPhone, phone.value)
    ensures r[|r| - 4] == Inserted(ContactSubject, subject) && r[|r| - 3] == Inserted(ContactMessage, message)
    ensures r[|r| - 2] == Inserted(ContactEmail, email) && r[|r| - 1] == Inserted(ReplySubject, replySubject)
    ensures forall i :: 0 <= i < |r| - 1 ==> r[i].Inserted? && r[i].slot != ReplySubject
    ensures forall i :: 0 <= i < |r| - 1 ==>
              r[i].text == name || r[i].text == email || r[i].text == subject || r[i].text == message ||
              (phone.Some? && r[i].text == phone.value)
  {
    var tail := [Inserted(ContactSubject, subject), Inserted(ContactMessage, message), Inserted(ContactEmail, email),
                 Inserted(ReplySubject, replySubject)];
    if phone.Some? then [Inserted(ContactName, name), Inserted(ContactEmail, email), Inserted(ContactPhone, phone.value)] + tail
    else [Inserted(ContactName, name), Inserted(ContactEmail, email)] + tail
  }

  /** Every field of the contact form reaches the message escaped, and the
      reply link's subject URI-encoded. */
  lemma ContactMailEscaped(d: ContactData)
    ensures Escaped(ContactMail(d)) && UriEncoded(ContactMail(d))
  {
    var phone := if NonEmpty(d.phone).Some? then Some(EscapeHtml(d.phone.value)) else None;
    assert IsEscapedText(EscapeHtml(d.name)) && IsEscapedText(EscapeHtml(d.email)) &&
           IsEscapedText(EscapeHtml(d.subject)) && IsEscapedText(EscapeHtml(d.message));
    assert phone.Some? ==> IsEscapedText(EscapeHtml(d.phone.value));
    assert IsEncodedText(EncodeUriComponent(d.subject));
    ContactLayoutEscaped(SUPPORT_EMAIL, "[Contacto] " + EscapeHtml(d.subject), NonEmpty(Some(d.email)),
                         EscapeHtml(d.name), EscapeHtml(d.email), phone, EscapeHtml(d.subject), EscapeHtml(d.message),
                         EncodeUriComponent(d.subject));
    ContactLayoutEncoded(SUPPORT_EMAIL, "[Contacto] " + EscapeHtml(d.subject), NonEmpty(Some(d.email)),
                         EscapeHtml(d.name), EscapeHtml(d.email), phone, EscapeHtml(d.subject), EscapeHtml(d.message),
                         EncodeUriComponent(d.subject));
  }

  /** The contact layout filled with escaped fields and an encoded reply
      subject keeps both promises, whatever those texts are. */
  lemma ContactLayoutEscaped(to: string, subject: string, replyTo: Option<string>, name: string, email: string,
                             phone: Option<string>, subj: string, message: string, reply: string)
    requires IsEscapedText(name) && IsEscapedText(email) && IsEscapedText(subj) && IsEscapedText(message)
    requires phone.Some? ==> IsEscapedText(phone.value)
    ensures Escaped(Mail(to, subject, replyTo, ContactParts(name, email, phone, subj, message, reply)))
  {
  }

  /** The reply subject is the only URI-encoded part of the layout. */
  lemma ContactLayoutEncoded(to: string, subject: string, replyTo: Option<string>, name: string, email: string,
                             phone: Option<string>, subj: string, message: string, reply: string)
    requires IsEncodedText(reply)
    ensures UriEncoded(Mail(to, subject, replyTo, ContactParts(name, email, phone, subj, message, reply)))
  {
    var r := ContactParts(name, email, phone, subj, message, reply);
    assert r[|r| - 1] == Inserted(ReplySubject, reply);
  }

  // ---------------------------------------------------------------------
  // Sending

  datatype SendResult = SendResult(success: bool, mail: Mail)

  /** An exported sender: `sendEmail` throws on an API error and the sender
      catches it, so the caller always gets a result and never an exception;
      `apiOk` is the mail API's verdict. */
  function Send(m: Mail, apiOk: bool): (r: SendResult)
    ensures r.success <==> apiOk
    ensures r.mail == m
  {
    if apiOk then SendResult(true, m) else SendResult(false, m)
  }
}
