/**
 * The server's WhatsApp link builder: the invoice message, one line per item between two
 * rules, and the wa.me deep link carrying it. `fmt` renders a number the way a template
 * string does and `encode` is `encodeURIComponent`; both are left uninterpreted.
 */
module WhatsAppService {
  import opened Text
  import opened LineItem

  const Header: string := "🧾 *NanoBiz Invoice*"
  const Rule: string := "──────────────"
  const Thanks: string := "Thank you for your business!"

  /** What the controller hands the builder: `{ id, items, total, status }`. */
  datatype InvoiceData = InvoiceData(id: string, items: seq<Item>, total: real, status: string)

  datatype Link = Link(url: string, message: string)

  /** `  • name  ×qty  ₹price`. */
  function ItemLine(it: Item, fmt: real -> string): string {
    "  • " + it.name + "  ×" + fmt(it.qty) + "  ₹" + fmt(it.price)
  }

  /** One line per item, in item order. */
  function ItemLines(items: seq<Item>, fmt: real -> string): (r: seq<string>)
    ensures |r| == |items|
    ensures forall i :: 0 <= i < |items| ==> r[i] == ItemLine(items[i], fmt)
  {
    seq(|items|, i requires 0 <= i < |items| => ItemLine(items[i], fmt))
  }

  /** The eight parts the message joins; the items, joined among themselves, are the third. */
  function MessageParts(d: InvoiceData, fmt: real -> string): seq<string> {
    [Header, Rule, Join("\n", ItemLines(d.items, fmt)), Rule, "*Total:* ₹" + fmt(d.total), "*Status:* " + d.status, "", Thanks]
  }

  /** The lines the message is meant to read as: header, rule, the items, rule, total, status, a blank line, thanks. */
  function IntendedLines(d: InvoiceData, fmt: real -> string): (r: seq<string>)
    ensures |r| == |d.items| + 7
  {
    [Header, Rule] + ItemLines(d.items, fmt) + [Rule, "*Total:* ₹" + fmt(d.total), "*Status:* " + d.status, "", Thanks]
  }

  function Message(d: InvoiceData, fmt: real -> string): string {
    Join("\n", MessageParts(d, fmt))
  }

  /** `sendWhatsAppInvoice(phone, invoiceData)`: the link to the digits of the phone, with the message as its text. */
  function SendWhatsAppInvoice(phone: string, d: InvoiceData, fmt: real -> string, encode: string -> string): (r: Link)
    ensures r.message == Message(d, fmt)
    ensures r.url == "https://wa.me/" + DigitsOnly(phone) + "?text=" + encode(r.message)
    ensures forall i :: 14 <= i < 14 + |DigitsOnly(phone)| ==> IsDigit(r.url[i])
  {
    var message := Message(d, fmt);
    Link("https://wa.me/" + DigitsOnly(phone) + "?text=" + encode(message), message)
  }

  /** With at least one item, the message is the intended lines joined by newlines. */
  lemma MessageIsIntendedLines(d: InvoiceData, fmt: real -> string)
    requires d.items != []
    ensures Message(d, fmt) == Join("\n", IntendedLines(d, fmt))
  {
    var tail := [Rule, "*Total:* ₹" + fmt(d.total), "*Status:* " + d.status, "", Thanks];
    JoinFlatten("\n", [Header, Rule], ItemLines(d.items, fmt), tail);
    assert MessageParts(d, fmt) == [Header, Rule] + [Join("\n", ItemLines(d.items, fmt))] + tail;
  }

  /** `s.split("\n")`. */
  function SplitLines(s: string): (r: seq<string>)
    ensures |r| >= 1
  {
    if s == [] then [""]
    else if s[0] == '\n' then [""] + SplitLines(s[1..])
    else var rest := SplitLines(s[1..]); [[s[0]] + rest[0]] + rest[1..]
  }

  predicate NoNewline(s: string) {
    forall i :: 0 <= i < |s| ==> s[i] != '\n'
  }

  lemma {:induction false} SplitLine(a: string)
    requires NoNewline(a)
    ensures SplitLines(a) == [a]
  {
    if a != [] {
      SplitLine(a[1..]);
      assert a == [a[0]] + a[1..];
    }
  }

  lemma {:induction false} SplitAfterLine(a: string, b: string)
    requires NoNewline(a)
    ensures SplitLines(a + "\n" + b) == [a] + SplitLines(b)
  {
    if a == [] {
      assert a + "\n" + b == "\n" + b;
      assert ("\n" + b)[1..] == b;
    } else {
      assert (a + "\n" + b)[1..] == a[1..] + "\n" + b;
      assert (a + "\n" + b)[0] == a[0];
      SplitAfterLine(a[1..], b);
      assert a == [a[0]] + a[1..];
    }
  }

  /** Splitting a newline-joined list of lines without newlines gives the lines back. */
  lemma {:induction false} SplitJoin(lines: seq<string>)
    requires lines != []
    requires forall i :: 0 <= i < |lines| ==> NoNewline(lines[i])
    ensures SplitLines(Join("\n", lines)) == lines
  {
    if |lines| == 1 {
      SplitLine(lines[0]);
    } else {
      SplitJoin(lines[1..]);
      SplitAfterLine(lines[0], Join("\n", lines[1..]));
    }
  }

  /** None of the item lines, the rendered total or the status holds a newline. */
  predicate SingleLineFields(d: InvoiceData, fmt: real -> string) {
    (forall i :: 0 <= i < |d.items| ==> NoNewline(ItemLine(d.items[i], fmt)))
    && NoNewline(fmt(d.total)) && NoNewline(d.status)
  }

  lemma FixedLinesSingle()
    ensures NoNewline(Header) && NoNewline(Rule) && NoNewline(Thanks) && NoNewline("")
    ensures NoNewline("*Total:* ₹") && NoNewline("*Status:* ")
  {
  }

  lemma ConcatSingle(a: string, b: string)
    requires NoNewline(a) && NoNewline(b)
    ensures NoNewline(a + b)
  {
    forall i | 0 <= i < |a + b|
      ensures (a + b)[i] != '\n'
    {
      if i < |a| {
        assert (a + b)[i] == a[i];
      } else {
        assert (a + b)[i] == b[i - |a|];
      }
    }
  }

  /**
   * The message reads as its intended lines: with at least one item it splits into the
   * header, the rule, one line per item in order, the rule, total, status, a blank line
   * and the thanks.
   */
  lemma MessageLines(d: InvoiceData, fmt: real -> string)
    requires d.items != [] && SingleLineFields(d, fmt)
    ensures SplitLines(Message(d, fmt)) == IntendedLines(d, fmt)
    ensures |SplitLines(Message(d, fmt))| == |d.items| + 7
    ensures forall i :: 0 <= i < |d.items| ==> SplitLines(Message(d, fmt))[2 + i] == ItemLine(d.items[i], fmt)
  {
    MessageIsIntendedLines(d, fmt);
    FixedLinesSingle();
    ConcatSingle("*Total:* ₹", fmt(d.total));
    ConcatSingle("*Status:* ", d.status);
    var lines := IntendedLines(d, fmt);
    forall i | 0 <= i < |lines|
      ensures NoNewline(lines[i])
    {
      if 2 <= i < 2 + |d.items| {
        assert lines[i] == ItemLine(d.items[i - 2], fmt);
      }
    }
    SplitJoin(lines);
  }

  /** With no items, the place of the item lines is taken by one empty line. */
  lemma NoItemsLeaveBlankLine(d: InvoiceData, fmt: real -> string)
    requires d.items == [] && SingleLineFields(d, fmt)
    ensures SplitLines(Message(d, fmt)) == [Header, Rule, "", Rule, "*Total:* ₹" + fmt(d.total), "*Status:* " + d.status, "", Thanks]
  {
    FixedLinesSingle();
    ConcatSingle("*Total:* ₹", fmt(d.total));
    ConcatSingle("*Status:* ", d.status);
    SplitJoin(MessageParts(d, fmt));
  }
}
