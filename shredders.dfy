/**
 * The data shredders of one event, as their tests fix them. Each shredder
 * handles one category of personal data: it exports what it is about to
 * destroy (`generate_files`, a pure read) and then destroys it in place
 * (`shred_data`), including the traces of that data in the event's log.
 *
 * The event's stored records are an EventData value; ExportFiles and
 * ShredData give, per category, the export and the new state. The class
 * EventStore holds the same records as fields that the shred methods
 * update in place.
 */
module Shredders {
  import opened Wrappers
  import opened Text
  import opened Json
  import opened Redaction

  // ---------------------------------------------------------------------
  // Stored records of one event

  datatype Order = Order(code: string, email: Option<string>, paymentInfo: Option<Json>)

  datatype Position = Position(
    orderCode: string,
    positionid: nat,
    attendeeName: Option<string>,
    attendeeEmail: Option<string>)

  datatype InvoiceAddress = InvoiceAddress(
    orderCode: string,
    lastModified: string,   // already rendered as an ISO timestamp
    company: string,
    name: string,
    street: string,
    zipcode: string,
    city: string,
    country: string,
    vatId: string,
    vatIdValidated: bool,
    isBusiness: bool,
    internalReference: string)

  datatype OptionRef = OptionRef(pk: int, identifier: string)

  datatype QuestionAnswer = QuestionAnswer(
    orderCode: string,
    positionid: nat,
    question: int,
    questionIdentifier: string,
    answer: string,
    options: seq<OptionRef>,
    hasFile: bool)

  datatype Invoice = Invoice(
    number: string,
    introductoryText: string,
    additionalText: string,
    invoiceTo: string,
    paymentProviderText: string,
    lines: seq<string>,     // the description of each invoice line
    hasFile: bool)

  datatype CachedTicket = CachedTicket(orderCode: string, positionid: nat, provider: string, hasFile: bool)

  datatype CachedCombinedTicket = CachedCombinedTicket(orderCode: string, provider: string, hasFile: bool)

  datatype WaitingListEntry = WaitingListEntry(
    id: int,
    item: int,
    variation: Option<int>,
    subevent: Option<int>,
    voucher: Option<int>,
    created: string,        // already rendered as an ISO timestamp
    locale: string,
    email: string)

  datatype Voucher = Voucher(pk: int, comment: string)

  datatype LogTarget = OrderLog(code: string) | VoucherLog(voucher: int) | EventLog

  datatype LogEntry = LogEntry(target: LogTarget, actionType: string, data: Json)

  datatype EventData = EventData(
    orders: seq<Order>,
    positions: seq<Position>,
    addresses: seq<InvoiceAddress>,
    answers: seq<QuestionAnswer>,
    invoices: seq<Invoice>,
    tickets: seq<CachedTicket>,
    combinedTickets: seq<CachedCombinedTicket>,
    waitingList: seq<WaitingListEntry>,
    vouchers: seq<Voucher>,
    logs: seq<LogEntry>)

  /** The registered shredders, one per category of personal data. */
  datatype Category =
    | EmailAddresses
    | AttendeeNames
    | InvoiceAddresses
    | QuestionAnswers
    | Invoices
    | CachedTickets
    | PaymentInfo
    | WaitingList

  /** One exported file: JSON content, or the rendered PDF of an invoice. */
  datatype ExportFile = JsonFile(content: Json) | InvoicePdf(number: string)

  // ---------------------------------------------------------------------
  // Export keys and a filtering map

  /** The export key of position-scoped data: `"{code}-{positionid}"`. */
  function PositionKey(code: string, positionid: nat): (k: string)
    ensures |k| >= |code| + 2 && k[..|code|] == code && k[|code|] == '-'
    ensures forall i :: |code| < i < |k| ==> IsDigit(k[i])
    ensures DecimalValue(k[|code| + 1..]) == positionid
  {
    var k := code + "-" + NatToDecimal(positionid);
    assert k[|code| + 1..] == NatToDecimal(positionid);
    DecimalRoundTrip(positionid);
    k
  }

  /** Order codes contain no `-`, so a position key names one position of one order. */
  lemma PositionKeyInjective(c1: string, p1: nat, c2: string, p2: nat)
    requires '-' !in c1 && '-' !in c2
    requires PositionKey(c1, p1) == PositionKey(c2, p2)
    ensures c1 == c2 && p1 == p2
  {
    var k := PositionKey(c1, p1);
    // both codes end where the first `-` of the key stands
    assert k[|c1|] == '-' && forall j :: 0 <= j < |c1| ==> k[j] == c1[j];
    assert k[|c2|] == '-' && forall j :: 0 <= j < |c2| ==> k[j] == c2[j];
    assert c1 == k[..|c1|] == c2;
    assert NatToDecimal(p1) == k[|c1| + 1..] == NatToDecimal(p2);
    NatToDecimalInjective(p1, p2);
  }

  /** Keeps, in order, the results `f` produces for the elements it accepts. */
  function FilterMap<T, U(!new)>(xs: seq<T>, f: T -> Option<U>): (r: seq<U>)
    ensures |r| <= |xs|
    ensures forall u :: u in r <==> exists i :: 0 <= i < |xs| && f(xs[i]) == Some(u)
  {
    if |xs| == 0 then []
    else
      var rest := FilterMap(xs[1..], f);
      assert forall i :: 1 <= i < |xs| ==> xs[1..][i - 1] == xs[i];
      match f(xs[0])
      case Some(u) => [u] + rest
      case None => rest
  }

  /** Filtering distributes over concatenation, so the export keeps the stored order. */
  lemma {:induction false} FilterMapAppend<T, U(!new)>(xs: seq<T>, ys: seq<T>, f: T -> Option<U>)
    ensures FilterMap(xs + ys, f) == FilterMap(xs, f) + FilterMap(ys, f)
    decreases |xs|
  {
    if |xs| > 0 {
      assert (xs + ys)[1..] == xs[1..] + ys;
      FilterMapAppend(xs[1..], ys, f);
    } else {
      assert xs + ys == ys;
    }
  }

  lemma FilterMapNone<T, U(!new)>(xs: seq<T>, f: T -> Option<U>)
    requires forall i :: 0 <= i < |xs| ==> f(xs[i]).None?
    ensures FilterMap(xs, f) == []
  {
  }

  // ---------------------------------------------------------------------
  // generate_files

  function OrderEmail(o: Order): Option<Member> {
    if o.email.Some? then Some(Member(o.code, JStr(o.email.value))) else None
  }

  function AttendeeEmail(p: Position): Option<Member> {
    if p.attendeeEmail.Some? then Some(Member(PositionKey(p.orderCode, p.positionid), JStr(p.attendeeEmail.value))) else None
  }

  function AttendeeName(p: Position): Option<Member> {
    if p.attendeeName.Some? then Some(Member(PositionKey(p.orderCode, p.positionid), JStr(p.attendeeName.value))) else None
  }

  function AddressJson(a: InvoiceAddress): Json {
    JObj([
      Member("city", JStr(a.city)),
      Member("company", JStr(a.company)),
      Member("country", JStr(a.country)),
      Member("internal_reference", JStr(a.internalReference)),
      Member("is_business", JBool(a.isBusiness)),
      Member("last_modified", JStr(a.lastModified)),
      Member("name", JStr(a.name)),
      Member("street", JStr(a.street)),
      Member("vat_id", JStr(a.vatId)),
      Member("vat_id_validated", JBool(a.vatIdValidated)),
      Member("zipcode", JStr(a.zipcode))
    ])
  }

  function AnswerJson(a: QuestionAnswer): Json {
    JObj([
      Member("question", JInt(a.question)),
      Member("answer", JStr(a.answer)),
      Member("question_identifier", JStr(a.questionIdentifier)),
      Member("options", JArr(seq(|a.options|, i requires 0 <= i < |a.options| => JInt(a.options[i].pk)))),
      Member("option_identifiers", JArr(seq(|a.options|, i requires 0 <= i < |a.options| => JStr(a.options[i].identifier))))
    ])
  }

  /** The answers given for one position, in stored order. */
  function AnswersOf(p: Position, answers: seq<QuestionAnswer>): seq<Json> {
    FilterMap(answers, (a: QuestionAnswer) =>
      if a.orderCode == p.orderCode && a.positionid == p.positionid then Some(AnswerJson(a)) else None)
  }

  function NullableInt(v: Option<int>): Json {
    if v.Some? then JInt(v.value) else JNull
  }

  function EntryJson(w: WaitingListEntry): Json {
    JObj([
      Member("id", JInt(w.id)),
      Member("item", JInt(w.item)),
      Member("variation", NullableInt(w.variation)),
      Member("subevent", NullableInt(w.subevent)),
      Member("voucher", NullableInt(w.voucher)),
      Member("created", JStr(w.created)),
      Member("locale", JStr(w.locale)),
      Member("email", JStr(w.email))
    ])
  }

  /** What each shredder exports; `None` for the categories with nothing to show. */
  function ExportFiles(c: Category, d: EventData): (r: Option<seq<ExportFile>>)
    ensures r.None? <==> c == CachedTickets || c == PaymentInfo
    ensures c == EmailAddresses ==> |r.value| == 2 && r.value[0].JsonFile? && r.value[1].JsonFile?
    ensures c in {AttendeeNames, InvoiceAddresses, QuestionAnswers, WaitingList} ==> |r.value| == 1 && r.value[0].JsonFile?
    ensures c == Invoices ==>
      |r.value| == |d.invoices| && forall i :: 0 <= i < |d.invoices| ==> r.value[i] == InvoicePdf(d.invoices[i].number)
    ensures c == InvoiceAddresses ==>
      r.value[0].content.JObj? && |r.value[0].content.members| == |d.addresses| &&
      forall i :: 0 <= i < |d.addresses| ==> r.value[0].content.members[i].key == d.addresses[i].orderCode
    ensures c == QuestionAnswers ==>
      r.value[0].content.JObj? && |r.value[0].content.members| == |d.positions| &&
      forall i :: 0 <= i < |d.positions| ==>
        r.value[0].content.members[i].key == PositionKey(d.positions[i].orderCode, d.positions[i].positionid)
    ensures c == WaitingList ==> r.value[0].content.JArr? && |r.value[0].content.items| == |d.waitingList|
  {
    match c
    case EmailAddresses =>
      Some([JsonFile(JObj(FilterMap(d.orders, OrderEmail))), JsonFile(JObj(FilterMap(d.positions, AttendeeEmail)))])
    case AttendeeNames =>
      Some([JsonFile(JObj(FilterMap(d.positions, AttendeeName)))])
    case InvoiceAddresses =>
      Some([JsonFile(JObj(seq(|d.addresses|, i requires 0 <= i < |d.addresses| =>
        Member(d.addresses[i].orderCode, AddressJson(d.addresses[i])))))])
    case QuestionAnswers =>
      Some([JsonFile(JObj(seq(|d.positions|, i requires 0 <= i < |d.positions| =>
        Member(PositionKey(d.positions[i].orderCode, d.positions[i].positionid),
               JArr(AnswersOf(d.positions[i], d.answers))))))])
    case Invoices =>
      Some(seq(|d.invoices|, i requires 0 <= i < |d.invoices| => InvoicePdf(d.invoices[i].number)))
    case CachedTickets => None
    case PaymentInfo => None
    case WaitingList =>
      Some([JsonFile(JArr(seq(|d.waitingList|, i requires 0 <= i < |d.waitingList| => EntryJson(d.waitingList[i]))))])
  }

  // ---------------------------------------------------------------------
  // shred_data

  const OrderModified: string := "pretix.event.order.modified"
  const ContactChanged: string := "pretix.event.order.contact.changed"
  const EmailSentMarker: string := "order.email"
  const VoucherFromWaitingList: string := "pretix.voucher.added.waitinglist"

  /** Log members that hold a sent e-mail, and those of a changed contact address. */
  const EmailSentKeys: set<string> := {"recipient", "message", "subject"}
  const ContactKeys: set<string> := {"old_email", "new_email"}

  /** How one shredder rewrites the data of one log entry. */
  function RewriteLog(c: Category, vouchers: set<int>, le: LogEntry): (r: LogEntry)
    ensures r.target == le.target && r.actionType == le.actionType
    ensures c == Invoices || c == CachedTickets || c == PaymentInfo ==> r == le
    ensures c == WaitingList && !(le.target.VoucherLog? && le.target.voucher in vouchers) ==> r == le
    ensures c in {AttendeeNames, InvoiceAddresses, QuestionAnswers} && le.actionType != OrderModified ==> r == le
  {
    match c
    case EmailAddresses =>
      if le.actionType == ContactChanged then le.(data := RedactKeys(le.data, Named(ContactKeys)))
      else if Contains(le.actionType, EmailSentMarker) then le.(data := RedactKeys(le.data, Named(EmailSentKeys)))
      else le
    case AttendeeNames =>
      if le.actionType == OrderModified then le.(data := RedactKeys(le.data, Named({"attendee_name"}))) else le
    case InvoiceAddresses =>
      if le.actionType == OrderModified then le.(data := RedactInvoiceData(le.data)) else le
    case QuestionAnswers =>
      if le.actionType == OrderModified then le.(data := RedactKeys(le.data, QuestionKeys)) else le
    case WaitingList =>
      if le.target.VoucherLog? && le.target.voucher in vouchers then le.(data := ScrubChar(le.data, '@')) else le
    case _ => le
  }

  lemma RewriteLogIdempotent(c: Category, vouchers: set<int>, le: LogEntry)
    ensures RewriteLog(c, vouchers, RewriteLog(c, vouchers, le)) == RewriteLog(c, vouchers, le)
  {
    match c
    case EmailAddresses =>
      RedactKeysIdempotent(le.data, Named(EmailSentKeys));
      RedactKeysIdempotent(le.data, Named(ContactKeys));
    case AttendeeNames => RedactKeysIdempotent(le.data, Named({"attendee_name"}));
    case InvoiceAddresses => RedactInvoiceDataIdempotent(le.data);
    case QuestionAnswers => RedactKeysIdempotent(le.data, QuestionKeys);
    case WaitingList => ScrubCharIdempotent(le.data, '@');
    case _ =>
  }

  function RewriteLogs(c: Category, vouchers: set<int>, logs: seq<LogEntry>): seq<LogEntry> {
    seq(|logs|, i requires 0 <= i < |logs| => RewriteLog(c, vouchers, logs[i]))
  }

  function RedactInvoice(inv: Invoice): Invoice {
    inv.(introductoryText := Marker, additionalText := Marker, invoiceTo := Marker,
         paymentProviderText := Marker, lines := seq(|inv.lines|, _ => Marker), hasFile := false)
  }

  /** The vouchers that were sent to waiting-list entries. */
  function SentVouchers(entries: seq<WaitingListEntry>): set<int> {
    set i | 0 <= i < |entries| && entries[i].voucher.Some? :: entries[i].voucher.value
  }

  /** The comment of a voucher sent to the waiting list becomes the marker. */
  function ScrubComment(v: Voucher, sent: set<int>): Voucher {
    if v.pk in sent then v.(comment := Marker) else v
  }

  /** The state of the event after one shredder's `shred_data`. */
  function ShredData(c: Category, d: EventData): (r: EventData)
    ensures |r.orders| == |d.orders| && |r.positions| == |d.positions| && |r.invoices| == |d.invoices|
    ensures |r.waitingList| == |d.waitingList| && |r.vouchers| == |d.vouchers|
    ensures |r.logs| == |d.logs|
    ensures forall i :: 0 <= i < |r.logs| ==> r.logs[i].target == d.logs[i].target && r.logs[i].actionType == d.logs[i].actionType
    ensures c != EmailAddresses && c != PaymentInfo ==> r.orders == d.orders
    ensures c != EmailAddresses && c != AttendeeNames ==> r.positions == d.positions
    ensures c != InvoiceAddresses ==> r.addresses == d.addresses
    ensures c != QuestionAnswers ==> r.answers == d.answers
    ensures c != Invoices ==> r.invoices == d.invoices
    ensures c != CachedTickets ==> r.tickets == d.tickets && r.combinedTickets == d.combinedTickets
    ensures c != WaitingList ==> r.waitingList == d.waitingList && r.vouchers == d.vouchers
    ensures c == Invoices || c == CachedTickets || c == PaymentInfo ==> r.logs == d.logs
  {
    match c
    case EmailAddresses =>
      d.(orders := seq(|d.orders|, i requires 0 <= i < |d.orders| => d.orders[i].(email := None)),
         positions := seq(|d.positions|, i requires 0 <= i < |d.positions| => d.positions[i].(attendeeEmail := None)),
         logs := RewriteLogs(c, {}, d.logs))
    case AttendeeNames =>
      d.(positions := seq(|d.positions|, i requires 0 <= i < |d.positions| => d.positions[i].(attendeeName := None)),
         logs := RewriteLogs(c, {}, d.logs))
    case InvoiceAddresses =>
      d.(addresses := [], logs := RewriteLogs(c, {}, d.logs))
    case QuestionAnswers =>
      d.(answers := [], logs := RewriteLogs(c, {}, d.logs))
    case Invoices =>
      d.(invoices := seq(|d.invoices|, i requires 0 <= i < |d.invoices| => RedactInvoice(d.invoices[i])))
    case CachedTickets =>
      d.(tickets := [], combinedTickets := [])
    case PaymentInfo =>
      d.(orders := seq(|d.orders|, i requires 0 <= i < |d.orders| =>
           var o := d.orders[i];
           if o.paymentInfo.Some? then o.(paymentInfo := Some(ShredPaymentInfo(o.paymentInfo.value))) else o))
    case WaitingList =>
      var sent := SentVouchers(d.waitingList);
      d.(waitingList := seq(|d.waitingList|, i requires 0 <= i < |d.waitingList| => d.waitingList[i].(email := Marker)),
         vouchers := seq(|d.vouchers|, i requires 0 <= i < |d.vouchers| => ScrubComment(d.vouchers[i], sent)),
         logs := RewriteLogs(c, sent, d.logs))
  }

  // ---------------------------------------------------------------------
  // Properties of shredding

  /** Running a shredder a second time changes nothing. */
  lemma ShredIdempotent(c: Category, d: EventData)
    ensures ShredData(c, ShredData(c, d)) == ShredData(c, d)
  {
    var once := ShredData(c, d);
    var twice := ShredData(c, once);
    var sent := if c == WaitingList then SentVouchers(d.waitingList) else {};
    if c == WaitingList {
      assert forall i :: 0 <= i < |d.waitingList| ==> once.waitingList[i].voucher == d.waitingList[i].voucher;
      assert SentVouchers(once.waitingList) == sent;
    }
    forall i | 0 <= i < |d.logs| ensures twice.logs[i] == once.logs[i] {
      RewriteLogIdempotent(c, sent, d.logs[i]);
    }
    if c == PaymentInfo {
      forall i | 0 <= i < |d.orders| ensures twice.orders[i] == once.orders[i] {
        if d.orders[i].paymentInfo.Some? {
          ShredPaymentInfoIdempotent(d.orders[i].paymentInfo.value);
        }
      }
    }
    assert twice.logs == once.logs;
    assert twice.orders == once.orders;
    assert twice.invoices == once.invoices;
    assert twice.vouchers == once.vouchers;
  }

  /** After the e-mail shredder, its export holds no address at all. */
  lemma EmailExportAfterShred(d: EventData)
    ensures ExportFiles(EmailAddresses, ShredData(EmailAddresses, d)) == Some([JsonFile(JObj([])), JsonFile(JObj([]))])
  {
    var s := ShredData(EmailAddresses, d);
    FilterMapNone(s.orders, OrderEmail);
    FilterMapNone(s.positions, AttendeeEmail);
  }

  /** After the attendee-name shredder, its export holds no name. */
  lemma AttendeeNameExportAfterShred(d: EventData)
    ensures ExportFiles(AttendeeNames, ShredData(AttendeeNames, d)) == Some([JsonFile(JObj([]))])
  {
    FilterMapNone(ShredData(AttendeeNames, d).positions, AttendeeName);
  }

  /** After the question-answer shredder, every position exports an empty list of answers. */
  lemma AnswerExportAfterShred(d: EventData)
    ensures var f := ExportFiles(QuestionAnswers, ShredData(QuestionAnswers, d));
      f.Some? && |f.value| == 1 && f.value[0].JsonFile? && f.value[0].content.JObj? &&
      var ms := f.value[0].content.members;
      |ms| == |d.positions| &&
      forall i :: 0 <= i < |ms| ==> ms[i] == Member(PositionKey(d.positions[i].orderCode, d.positions[i].positionid), JArr([]))
  {
  }

  /**
   * The e-mail shredder nulls every order and attendee address, and leaves
   * no sent-mail or contact-change log member with anything but the marker.
   */
  lemma EmailShredClears(d: EventData)
    ensures var s := ShredData(EmailAddresses, d);
      (forall i :: 0 <= i < |s.orders| ==> s.orders[i].email.None?) &&
      (forall i :: 0 <= i < |s.positions| ==> s.positions[i].attendeeEmail.None?) &&
      (forall i :: 0 <= i < |s.logs| && s.logs[i].actionType == ContactChanged ==>
         KeysRedacted(s.logs[i].data, Named(ContactKeys))) &&
      (forall i :: 0 <= i < |s.logs| && s.logs[i].actionType != ContactChanged && Contains(s.logs[i].actionType, EmailSentMarker) ==>
         KeysRedacted(s.logs[i].data, Named(EmailSentKeys)))
  {
    forall i | 0 <= i < |d.logs|
      ensures KeysRedacted(RedactKeys(d.logs[i].data, Named(EmailSentKeys)), Named(EmailSentKeys))
      ensures KeysRedacted(RedactKeys(d.logs[i].data, Named(ContactKeys)), Named(ContactKeys))
    {
      RedactKeysSound(d.logs[i].data, Named(EmailSentKeys));
      RedactKeysSound(d.logs[i].data, Named(ContactKeys));
    }
  }

  /**
   * After the attendee-name shredder no name is stored, and a string other
   * than the marker stays in a modification log entry iff it was there
   * outside every `attendee_name` member.
   */
  lemma AttendeeNameShredKeeps(d: EventData, i: int, t: string)
    requires 0 <= i < |d.logs| && d.logs[i].actionType == OrderModified && t != Marker
    ensures var s := ShredData(AttendeeNames, d);
      (forall k :: 0 <= k < |s.positions| ==> s.positions[k].attendeeName.None?) &&
      (Occurs(t, s.logs[i].data) <==> Survives(t, d.logs[i].data, Named({"attendee_name"})))
  {
    RedactKeysContent(t, d.logs[i].data, Named({"attendee_name"}));
  }

  /**
   * After the question-answer shredder no answer (and so no answer file)
   * is stored, and every `question_<pk>` member of a modification log
   * entry holds the marker.
   */
  lemma AnswerShredClears(d: EventData)
    ensures var s := ShredData(QuestionAnswers, d);
      s.answers == [] &&
      forall i :: 0 <= i < |s.logs| && s.logs[i].actionType == OrderModified ==> KeysRedacted(s.logs[i].data, QuestionKeys)
  {
    forall i | 0 <= i < |d.logs| ensures KeysRedacted(RedactKeys(d.logs[i].data, QuestionKeys), QuestionKeys) {
      RedactKeysSound(d.logs[i].data, QuestionKeys);
    }
  }

  /**
   * After the invoice-address shredder no address is stored, and every
   * `invoice_data` object in a modification log entry holds only booleans,
   * empty values and the marker.
   */
  lemma InvoiceAddressShredClears(d: EventData)
    ensures var s := ShredData(InvoiceAddresses, d);
      s.addresses == [] &&
      forall i :: 0 <= i < |s.logs| && s.logs[i].actionType == OrderModified ==> InvoiceDataRedacted(s.logs[i].data)
  {
    forall i | 0 <= i < |d.logs| ensures InvoiceDataRedacted(RedactInvoiceData(d.logs[i].data)) {
      RedactInvoiceDataSound(d.logs[i].data);
    }
  }

  /**
   * After the waiting-list shredder, no `@` is left in an entry's address,
   * in the comment of a voucher sent to the list, or in any string of such
   * a voucher's log entries.
   */
  lemma WaitingListShredRemovesAddresses(d: EventData)
    ensures var s := ShredData(WaitingList, d);
      var sent := SentVouchers(d.waitingList);
      (forall i :: 0 <= i < |s.waitingList| ==> s.waitingList[i].email == Marker && '@' !in s.waitingList[i].email) &&
      (forall i :: 0 <= i < |s.vouchers| && s.vouchers[i].pk in sent ==> s.vouchers[i].comment == Marker) &&
      (forall i :: 0 <= i < |s.logs| && s.logs[i].target.VoucherLog? && s.logs[i].target.voucher in sent ==>
         NoCharAnywhere(s.logs[i].data, '@'))
  {
    forall i | 0 <= i < |d.logs| ensures NoCharAnywhere(ScrubChar(d.logs[i].data, '@'), '@') {
      ScrubCharSound(d.logs[i].data, '@');
    }
  }

  /** The invoice shredder blanks every free text, every line and the rendered file. */
  lemma InvoiceShredBlanks(d: EventData)
    ensures var s := ShredData(Invoices, d);
      |s.invoices| == |d.invoices| &&
      forall i :: 0 <= i < |s.invoices| ==>
        var inv := s.invoices[i];
        inv.number == d.invoices[i].number &&
        inv.introductoryText == Marker && inv.additionalText == Marker &&
        inv.invoiceTo == Marker && inv.paymentProviderText == Marker &&
        |inv.lines| == |d.invoices[i].lines| &&
        (forall k :: 0 <= k < |inv.lines| ==> inv.lines[k] == Marker) &&
        !inv.hasFile
  {
  }

  // ---------------------------------------------------------------------
  // The event's records, updated in place

  class EventStore {
    var orders: seq<Order>
    var positions: seq<Position>
    var addresses: seq<InvoiceAddress>
    var answers: seq<QuestionAnswer>
    var invoices: seq<Invoice>
    var tickets: seq<CachedTicket>
    var combinedTickets: seq<CachedCombinedTicket>
    var waitingList: seq<WaitingListEntry>
    var vouchers: seq<Voucher>
    var logs: seq<LogEntry>

    function Data(): EventData
      reads this
    {
      EventData(orders, positions, addresses, answers, invoices, tickets, combinedTickets, waitingList, vouchers, logs)
    }

    constructor (d: EventData)
      ensures Data() == d
    {
      orders, positions, addresses, answers, invoices := d.orders, d.positions, d.addresses, d.answers, d.invoices;
      tickets, combinedTickets, waitingList, vouchers, logs := d.tickets, d.combinedTickets, d.waitingList, d.vouchers, d.logs;
    }

    /** `shred_data` of one shredder. */
    method Shred(c: Category)
      modifies this
      ensures Data() == ShredData(c, old(Data()))
    {
      match c
      case EmailAddresses => ShredEmailAddresses();
      case AttendeeNames => ShredAttendeeNames();
      case InvoiceAddresses => ShredInvoiceAddresses();
      case QuestionAnswers => ShredQuestionAnswers();
      case Invoices => ShredInvoices();
      case CachedTickets => ShredCachedTickets();
      case PaymentInfo => ShredPaymentInfo();
      case WaitingList => ShredWaitingList();
    }

    /** Rewrites every log entry of the event with one shredder's rule. */
    method RewriteLogEntries(c: Category, sent: set<int>)
      modifies this`logs
      ensures logs == RewriteLogs(c, sent, old(logs))
    {
      var i := 0;
      while i < |logs|
        invariant 0 <= i <= |logs| == |old(logs)|
        invariant forall k :: 0 <= k < i ==> logs[k] == RewriteLog(c, sent, old(logs)[k])
        invariant forall k :: i <= k < |logs| ==> logs[k] == old(logs)[k]
      {
        logs := logs[i := RewriteLog(c, sent, logs[i])];
        i := i + 1;
      }
    }

    method ShredEmailAddresses()
      modifies this
      ensures Data() == ShredData(EmailAddresses, old(Data()))
    {
      var os, ps := orders, positions;
      var i := 0;
      while i < |os|
        invariant 0 <= i <= |os| == |orders|
        invariant forall k :: 0 <= k < i ==> os[k] == orders[k].(email := None)
        invariant forall k :: i <= k < |os| ==> os[k] == orders[k]
      {
        os := os[i := os[i].(email := None)];
        i := i + 1;
      }
      i := 0;
      while i < |ps|
        invariant 0 <= i <= |ps| == |positions|
        invariant forall k :: 0 <= k < i ==> ps[k] == positions[k].(attendeeEmail := None)
        invariant forall k :: i <= k < |ps| ==> ps[k] == positions[k]
      {
        ps := ps[i := ps[i].(attendeeEmail := None)];
        i := i + 1;
      }
      orders, positions := os, ps;
      RewriteLogEntries(EmailAddresses, {});
    }

    method ShredAttendeeNames()
      modifies this
      ensures Data() == ShredData(AttendeeNames, old(Data()))
    {
      var ps := positions;
      var i := 0;
      while i < |ps|
        invariant 0 <= i <= |ps| == |positions|
        invariant forall k :: 0 <= k < i ==> ps[k] == positions[k].(attendeeName := None)
        invariant forall k :: i <= k < |ps| ==> ps[k] == positions[k]
      {
        ps := ps[i := ps[i].(attendeeName := None)];
        i := i + 1;
      }
      positions := ps;
      RewriteLogEntries(AttendeeNames, {});
    }

    method ShredInvoiceAddresses()
      modifies this
      ensures Data() == ShredData(InvoiceAddresses, old(Data()))
    {
      addresses := [];
      RewriteLogEntries(InvoiceAddresses, {});
    }

    method ShredQuestionAnswers()
      modifies this
      ensures Data() == ShredData(QuestionAnswers, old(Data()))
    {
      answers := [];
      RewriteLogEntries(QuestionAnswers, {});
    }

    method ShredInvoices()
      modifies this
      ensures Data() == ShredData(Invoices, old(Data()))
    {
      var invs := invoices;
      var i := 0;
      while i < |invs|
        invariant 0 <= i <= |invs| == |invoices|
        invariant forall k :: 0 <= k < i ==> invs[k] == RedactInvoice(invoices[k])
        invariant forall k :: i <= k < |invs| ==> invs[k] == invoices[k]
      {
        invs := invs[i := RedactInvoice(invs[i])];
        i := i + 1;
      }
      invoices := invs;
    }

    method ShredCachedTickets()
      modifies this
      ensures Data() == ShredData(CachedTickets, old(Data()))
    {
      tickets, combinedTickets := [], [];
    }

    method ShredPaymentInfo()
      modifies this
      ensures Data() == ShredData(PaymentInfo, old(Data()))
    {
      var os := orders;
      var i := 0;
      while i < |os|
        invariant 0 <= i <= |os| == |orders|
        invariant forall k :: 0 <= k < i ==> os[k] == ShredData(PaymentInfo, Data()).orders[k]
        invariant forall k :: i <= k < |os| ==> os[k] == orders[k]
      {
        var o := os[i];
        if o.paymentInfo.Some? {
          os := os[i := o.(paymentInfo := Some(Redaction.ShredPaymentInfo(o.paymentInfo.value)))];
        }
        i := i + 1;
      }
      orders := os;
    }

    method ShredWaitingList()
      modifies this
      ensures Data() == ShredData(WaitingList, old(Data()))
    {
      ghost var d := Data();
      var sent := SentVouchers(waitingList);
      var ws, vs := waitingList, vouchers;
      var i := 0;
      while i < |ws|
        invariant 0 <= i <= |ws| == |waitingList|
        invariant forall k :: 0 <= k < i ==> ws[k] == waitingList[k].(email := Marker)
        invariant forall k :: i <= k < |ws| ==> ws[k] == waitingList[k]
      {
        ws := ws[i := ws[i].(email := Marker)];
        i := i + 1;
      }
      i := 0;
      while i < |vs|
        invariant 0 <= i <= |vs| == |vouchers|
        invariant forall k :: 0 <= k < i ==> vs[k] == ScrubComment(vouchers[k], sent)
        invariant forall k :: i <= k < |vs| ==> vs[k] == vouchers[k]
      {
        vs := vs[i := ScrubComment(vs[i], sent)];
        i := i + 1;
      }
      ghost var r := ShredData(WaitingList, d);
      assert ws == r.waitingList && vs == r.vouchers;
      waitingList, vouchers := ws, vs;
      RewriteLogEntries(WaitingList, sent);
      assert logs == r.logs;
    }
  }
}
