/**
 * The order message sent through WhatsApp: an upper-case order id, a fixed
 * text template around the item list, the total and the date, and a `wa.me`
 * link carrying the percent-encoded message. The clock reading, the random id
 * suffix and the localised date and time texts are inputs.
 */
module WhatsApp {
  import opened Wrappers
  import opened Text
  import opened Numerals
  import opened UriEncoding

  /** One entry of the order the cart drawer and the product page build: name, unit price in cents, quantity. */
  datatype OrderLine = OrderLine(name: string, price: int, quantity: int)

  /** `OrderItem`: an entry of a full order, with optional size and colour. */
  datatype OrderItem = OrderItem(
    id: string, name: string, price: int, quantity: int,
    size: Option<string>, color: Option<string>, image: string)

  /** `Order`, without `createdAt`, whose rendering is an input. */
  datatype Order = Order(
    id: string, items: seq<OrderItem>, total: int,
    customerName: string, customerPhone: string, customerEmail: Option<string>)

  /** A template test `x ? ... : ''` on an optional text: present and not empty. */
  predicate Truthy(s: Option<string>) {
    s.Some? && s.value != ""
  }

  const DefaultPhone: string := "5511999999999"
  const WaPrefix: string := "https://wa.me/5511999999999?text="

  /**
   * `generateOrderId`: `ZS-`, the clock in base 36, `-` and the random suffix,
   * all upper-cased, so the id starts with `ZS-` and has no lower-case letter.
   */
  function OrderId(now: nat, suffix: string): (id: string)
    ensures |id| >= 3 && id[..3] == "ZS-"
    ensures forall i :: 0 <= i < |id| ==> !IsLowerLetter(id[i])
  {
    ToUpper("ZS-" + NatToString(now, 36) + "-" + suffix)
  }

  /** The clock reading can be read back from the id: upper-casing does not change a base-36 numeral's value. */
  lemma OrderIdTimestamp(now: nat, suffix: string)
    ensures var t := NatToString(now, 36);
      |OrderId(now, suffix)| >= 3 + |t| && ValueOf(OrderId(now, suffix)[3..3 + |t|], 36) == now
  {
    var t := NatToString(now, 36);
    ToUpperAppend("ZS-" + t, "-" + suffix);
    ToUpperAppend("ZS-", t);
    var id := OrderId(now, suffix);
    assert id == ToUpper("ZS-") + ToUpper(t) + ToUpper("-" + suffix);
    assert id[3..3 + |t|] == ToUpper(t);
    UpperValue(t);
    NatToStringValue(now, 36);
  }

  lemma {:induction false} UpperValue(s: string)
    ensures ValueOf(ToUpper(s), 36) == ValueOf(s, 36)
  {
    if s != [] {
      var u := ToUpper(s);
      assert u[..|u| - 1] == ToUpper(s[..|s| - 1]);
      UpperValue(s[..|s| - 1]);
    }
  }

  /** `• name (qx)\n  R$ price` as `generateWhatsAppMessage` writes an entry. */
  function ItemEntry(line: OrderLine): string {
    "\U{2022} " + line.name + " (" + IntToDecimal(line.quantity) + "x)\n  R$ " + FormatCents(line.price)
  }

  function Entries(lines: seq<OrderLine>): seq<string> {
    seq(|lines|, i requires 0 <= i < |lines| => ItemEntry(lines[i]))
  }

  function TotalLine(total: int): string {
    "\U{1F4B0} *Total:* R$ " + FormatCents(total)
  }

  function DateLine(date: string, time: string): string {
    "\U{1F4C5} *Data:* " + date + " \U{E0}s " + time
  }

  const Footer: string := "---\nPedido gerado automaticamente pelo site da Zander Store"

  /** The text `generateWhatsAppMessage` encodes. */
  function NewOrderMessage(orderId: string, lines: seq<OrderLine>, total: int, date: string, time: string): string {
    "\U{1F6CD}\U{FE0F} *NOVO PEDIDO - ZANDER STORE*\n\n\U{1F4CB} *C\U{F3}digo do Pedido:* " + orderId
    + "\n\n\U{1F6D2} *Itens do Pedido:*\n" + Join(Entries(lines), "\n\n")
    + "\n\n" + TotalLine(total)
    + "\n\n" + DateLine(date, time)
    + "\n\n" + Footer
  }

  /** The message names the order id, every entry and the total with two decimals. */
  lemma NewOrderMessageContents(orderId: string, lines: seq<OrderLine>, total: int, date: string, time: string, k: nat)
    requires k < |lines|
    ensures var m := NewOrderMessage(orderId, lines, total, date, time);
      Contains(m, orderId) && Contains(m, ItemEntry(lines[k])) && Contains(m, TotalLine(total))
  {
    var p1 := "\U{1F6CD}\U{FE0F} *NOVO PEDIDO - ZANDER STORE*\n\n\U{1F4CB} *C\U{F3}digo do Pedido:* " + orderId;
    var p2 := p1 + "\n\n\U{1F6D2} *Itens do Pedido:*\n";
    var p3 := p2 + Join(Entries(lines), "\n\n");
    var p4 := p3 + "\n\n";
    var p5 := p4 + TotalLine(total);
    var p6 := p5 + "\n\n";
    var p7 := p6 + DateLine(date, time);
    var p8 := p7 + "\n\n";
    forall t | Contains(p5, t) ensures Contains(p8 + Footer, t) {
      ContainsPrefix(p5, "\n\n", t);
      ContainsPrefix(p6, DateLine(date, time), t);
      ContainsPrefix(p7, "\n\n", t);
      ContainsPrefix(p8, Footer, t);
    }
    forall t | Contains(p2, t) ensures Contains(p5, t) {
      ContainsPrefix(p2, Join(Entries(lines), "\n\n"), t);
      ContainsPrefix(p3, "\n\n", t);
      ContainsPrefix(p4, TotalLine(total), t);
    }
    ContainsSelf(orderId);
    ContainsSuffix("\U{1F6CD}\U{FE0F} *NOVO PEDIDO - ZANDER STORE*\n\n\U{1F4CB} *C\U{F3}digo do Pedido:* ", orderId, orderId);
    ContainsPrefix(p1, "\n\n\U{1F6D2} *Itens do Pedido:*\n", orderId);
    JoinContainsParts(Entries(lines), "\n\n", k);
    ContainsSuffix(p2, Join(Entries(lines), "\n\n"), ItemEntry(lines[k]));
    ContainsPrefix(p3, "\n\n", ItemEntry(lines[k]));
    ContainsPrefix(p4, TotalLine(total), ItemEntry(lines[k]));
    ContainsSelf(TotalLine(total));
    ContainsSuffix(p4, TotalLine(total), TotalLine(total));
  }

  /**
   * `generateWhatsAppMessage`: the fixed `wa.me` link followed by a query-safe
   * text that decodes to the UTF-8 bytes of the message.
   */
  function GenerateWhatsAppMessage(now: nat, suffix: string, lines: seq<OrderLine>, total: int,
                                   date: string, time: string): (url: string)
    ensures |url| >= |WaPrefix| && url[..|WaPrefix|] == WaPrefix
    ensures IsQuerySafe(url[|WaPrefix|..])
    ensures PercentDecode(url[|WaPrefix|..]) == Utf8String(NewOrderMessage(OrderId(now, suffix), lines, total, date, time))
  {
    var message := NewOrderMessage(OrderId(now, suffix), lines, total, date, time);
    DecodeEncode(message);
    var url := WaPrefix + EncodeURIComponent(message);
    assert url[|WaPrefix|..] == EncodeURIComponent(message);
    url
  }

  function SizePart(size: Option<string>): string {
    if Truthy(size) then " - Tamanho: " + size.value else ""
  }

  function ColorPart(color: Option<string>): string {
    if Truthy(color) then " - Cor: " + color.value else ""
  }

  /** An entry as `formatWhatsAppMessage` writes it, with size and colour when given. */
  function FormattedEntry(item: OrderItem): string {
    "\U{2022} " + item.name + " (" + IntToDecimal(item.quantity) + "x)" + SizePart(item.size) + ColorPart(item.color)
    + "\n  R$ " + FormatCents(item.price)
  }

  /**
   * The size part appears when a size is given, and an absent or empty size
   * writes the entry as if there were none; the same holds for the colour.
   */
  lemma FormattedEntryParts(item: OrderItem)
    ensures Truthy(item.size) ==> Contains(FormattedEntry(item), " - Tamanho: " + item.size.value)
    ensures !Truthy(item.size) ==> FormattedEntry(item) == FormattedEntry(item.(size := None))
    ensures Truthy(item.color) ==> Contains(FormattedEntry(item), " - Cor: " + item.color.value)
    ensures !Truthy(item.color) ==> FormattedEntry(item) == FormattedEntry(item.(color := None))
  {
    var head := "\U{2022} " + item.name + " (" + IntToDecimal(item.quantity) + "x)";
    var tail := "\n  R$ " + FormatCents(item.price);
    if Truthy(item.size) {
      SizeShown(item, head, tail);
    }
    if Truthy(item.color) {
      ColorShown(item, head, tail);
    }
  }

  lemma SizeShown(item: OrderItem, head: string, tail: string)
    requires Truthy(item.size)
    requires head == "\U{2022} " + item.name + " (" + IntToDecimal(item.quantity) + "x)"
    requires tail == "\n  R$ " + FormatCents(item.price)
    ensures Contains(FormattedEntry(item), " - Tamanho: " + item.size.value)
  {
    assert FormattedEntry(item) == head + SizePart(item.size) + (ColorPart(item.color) + tail);
    ContainsInfix(head, SizePart(item.size), ColorPart(item.color) + tail);
  }

  lemma ColorShown(item: OrderItem, head: string, tail: string)
    requires Truthy(item.color)
    requires head == "\U{2022} " + item.name + " (" + IntToDecimal(item.quantity) + "x)"
    requires tail == "\n  R$ " + FormatCents(item.price)
    ensures Contains(FormattedEntry(item), " - Cor: " + item.color.value)
  {
    assert FormattedEntry(item) == (head + SizePart(item.size)) + ColorPart(item.color) + tail;
    ContainsInfix(head + SizePart(item.size), ColorPart(item.color), tail);
  }

  /** Without size and colour the two templates write an entry the same way. */
  lemma EntriesAgree(item: OrderItem)
    requires !Truthy(item.size) && !Truthy(item.color)
    ensures FormattedEntry(item) == ItemEntry(OrderLine(item.name, item.price, item.quantity))
  {
  }

  function EmailLine(email: Option<string>): string {
    if Truthy(email) then "\U{1F4E7} *Email:* " + email.value else ""
  }

  /** The customer block of `formatWhatsAppMessage`, up to the line break before the email line. */
  function OrderHead(order: Order): string {
    "\U{1F6CD}\U{FE0F} *NOVA ORDEM - ZANDER STORE*\n\n\U{1F4CB} *C\U{F3}digo do Pedido:* " + order.id
    + "\n\U{1F464} *Cliente:* " + order.customerName
    + "\n\U{1F4F1} *Telefone:* " + order.customerPhone
    + "\n"
  }

  /** The item list, total, date and footer of `formatWhatsAppMessage`. */
  function OrderTail(order: Order, date: string, time: string): string {
    "\n\n\U{1F6D2} *Itens do Pedido:*\n"
    + Join(seq(|order.items|, i requires 0 <= i < |order.items| => FormattedEntry(order.items[i])), "\n\n")
    + "\n\n" + TotalLine(order.total)
    + "\n\n" + DateLine(date, time)
    + "\n\n" + Footer
  }

  /** The text `formatWhatsAppMessage` encodes. */
  function OrderMessage(order: Order, date: string, time: string): string {
    OrderHead(order) + EmailLine(order.customerEmail) + OrderTail(order, date, time)
  }

  /**
   * The email line is written when an email is given; an absent or empty email
   * gives the message of an order without one.
   */
  lemma EmailLineOnlyWhenGiven(order: Order, date: string, time: string)
    ensures Truthy(order.customerEmail) ==>
      Contains(OrderMessage(order, date, time), "\U{1F4E7} *Email:* " + order.customerEmail.value)
    ensures !Truthy(order.customerEmail) ==>
      OrderMessage(order, date, time) == OrderMessage(order.(customerEmail := None), date, time)
  {
    if Truthy(order.customerEmail) {
      ContainsInfix(OrderHead(order), EmailLine(order.customerEmail), OrderTail(order, date, time));
    } else {
      var other := order.(customerEmail := None);
      assert OrderHead(other) == OrderHead(order);
      assert OrderTail(other, date, time) == OrderTail(order, date, time);
    }
  }

  /** `formatWhatsAppMessage`: a query-safe text that decodes to the UTF-8 bytes of the message. */
  function FormatWhatsAppMessage(order: Order, date: string, time: string): (text: string)
    ensures IsQuerySafe(text)
    ensures PercentDecode(text) == Utf8String(OrderMessage(order, date, time))
  {
    DecodeEncode(OrderMessage(order, date, time));
    EncodeURIComponent(OrderMessage(order, date, time))
  }

  /**
   * The link `sendToWhatsApp` opens: `https://wa.me/`, the phone number (by
   * default the shop's), `?text=` and the formatted message.
   */
  function SendToWhatsAppUrl(order: Order, date: string, time: string, phone: string := DefaultPhone): (url: string)
    ensures var prefix := "https://wa.me/" + phone + "?text=";
      |url| >= |prefix| && url[..|prefix|] == prefix &&
      PercentDecode(url[|prefix|..]) == Utf8String(OrderMessage(order, date, time))
  {
    var prefix := "https://wa.me/" + phone + "?text=";
    var url := prefix + FormatWhatsAppMessage(order, date, time);
    assert url[|prefix|..] == FormatWhatsAppMessage(order, date, time);
    url
  }
}
