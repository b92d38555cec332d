/**
 * The shredder test cases of src/tests/base/test_shredders.py, restated on
 * the model. Primary keys, order codes and timestamps that the database
 * generates are parameters.
 */
module ShredderScenarios {
  import opened Wrappers
  import opened Text
  import opened Json
  import opened Redaction
  import opened Shredders

  function Obj1(k: string, v: Json): Json { JObj([Member(k, v)]) }

  /** The fixture order: one position, an order address and an attendee address. */
  function FixtureData(code: string, logs: seq<LogEntry>): EventData {
    EventData(
      [Order(code, Some("dummy@dummy.test"), None)],
      [Position(code, 1, Some("Peter"), Some("foo@example.org"))],
      [], [], [], [], [], [], [], logs)
  }

  lemma PositionKeyOne(code: string)
    ensures PositionKey(code, 1) == code + "-1"
  {
  }

  function ExpiredMailLog(code: string): LogEntry {
    LogEntry(OrderLog(code), "pretix.event.order.email.expired",
             JObj([Member("recipient", JStr("dummy@dummy.test")),
                   Member("message", JStr("Hello Peter@,")),
                   Member("subject", JStr("Foo"))]))
  }

  function ContactChangedLog(code: string): LogEntry {
    LogEntry(OrderLog(code), ContactChanged,
             JObj([Member("old_email", JStr("dummy@dummy.test")),
                   Member("new_email", JStr("foo@bar.com"))]))
  }

  /** test_email_shredder: the export holds the order address and the attendee address. */
  lemma EmailExportScenario(code: string, logs: seq<LogEntry>)
    ensures ExportFiles(EmailAddresses, FixtureData(code, logs)) ==
      Some([JsonFile(Obj1(code, JStr("dummy@dummy.test"))), JsonFile(Obj1(code + "-1", JStr("foo@example.org")))])
  {
    PositionKeyOne(code);
    var d := FixtureData(code, logs);
    assert d.orders[1..] == [] && d.positions[1..] == [];
    assert FilterMap(d.orders, OrderEmail) == [Member(code, JStr("dummy@dummy.test"))];
    assert FilterMap(d.positions, AttendeeEmail) == [Member(code + "-1", JStr("foo@example.org"))];
  }

  /** The sent-mail entry of test_email_shredder keeps its keys, each holding the marker. */
  lemma ExpiredMailRedacted(code: string)
    ensures RewriteLog(EmailAddresses, {}, ExpiredMailLog(code)).data ==
      JObj([Member("recipient", Redacted), Member("message", Redacted), Member("subject", Redacted)])
    ensures NoCharAnywhere(RewriteLog(EmailAddresses, {}, ExpiredMailLog(code)).data, '@')
  {
    ExpiredMailRewrite(code);
    assert '@' !in Marker && '@' !in "recipient" && '@' !in "message" && '@' !in "subject";
  }

  lemma ExpiredMailRewrite(code: string)
    ensures RewriteLog(EmailAddresses, {}, ExpiredMailLog(code)).data ==
      JObj([Member("recipient", Redacted), Member("message", Redacted), Member("subject", Redacted)])
  {
    var l1 := ExpiredMailLog(code);
    assert StartsWith(l1.actionType[13..], EmailSentMarker);
    assert l1.actionType != ContactChanged by { assert |l1.actionType| != |ContactChanged|; }
    var r1 := RedactKeys(l1.data, Named(EmailSentKeys));
    assert r1.members[0] == RedactMember(l1.data.members[0], Named(EmailSentKeys));
    assert r1.members[1] == RedactMember(l1.data.members[1], Named(EmailSentKeys));
    assert r1.members[2] == RedactMember(l1.data.members[2], Named(EmailSentKeys));
    assert r1 == JObj([Member("recipient", Redacted), Member("message", Redacted), Member("subject", Redacted)]);
  }

  /** The contact-change entry of test_email_shredder keeps its keys, each holding the marker. */
  lemma ContactChangedRedacted(code: string)
    ensures RewriteLog(EmailAddresses, {}, ContactChangedLog(code)).data ==
      JObj([Member("old_email", Redacted), Member("new_email", Redacted)])
    ensures NoCharAnywhere(RewriteLog(EmailAddresses, {}, ContactChangedLog(code)).data, '@')
  {
    var l2 := ContactChangedLog(code);
    var r2 := RedactKeys(l2.data, Named(ContactKeys));
    assert r2.members[0] == RedactMember(l2.data.members[0], Named(ContactKeys));
    assert r2.members[1] == RedactMember(l2.data.members[1], Named(ContactKeys));
    assert r2 == JObj([Member("old_email", Redacted), Member("new_email", Redacted)]);
    assert '@' !in Marker && '@' !in "old_email" && '@' !in "new_email";
  }

  /** test_email_shredder: after shredding, both log entries hold only the marker. */
  lemma EmailShredScenario(code: string)
    ensures var s := ShredData(EmailAddresses, FixtureData(code, [ExpiredMailLog(code), ContactChangedLog(code)]));
      s.orders[0].email.None? && s.positions[0].attendeeEmail.None? &&
      s.logs[0].data == JObj([Member("recipient", Redacted), Member("message", Redacted), Member("subject", Redacted)]) &&
      s.logs[1].data == JObj([Member("old_email", Redacted), Member("new_email", Redacted)]) &&
      NoCharAnywhere(s.logs[0].data, '@') && NoCharAnywhere(s.logs[1].data, '@')
  {
    var l1, l2 := ExpiredMailLog(code), ContactChangedLog(code);
    var s := ShredData(EmailAddresses, FixtureData(code, [l1, l2]));
    assert s.logs[0] == RewriteLog(EmailAddresses, {}, l1);
    assert s.logs[1] == RewriteLog(EmailAddresses, {}, l2);
    ExpiredMailRedacted(code);
    ContactChangedRedacted(code);
  }

  /** The position part of a modification log entry in the attendee-name and invoice-address tests. */
  function PositionChange(): Json {
    JArr([JObj([Member("attendee_name", JStr("Hans")), Member("question_1", JStr("Test"))])])
  }

  function NameChangeLog(code: string): LogEntry {
    LogEntry(OrderLog(code), OrderModified,
             JObj([Member("data", PositionChange()), Member("invoice_data", Obj1("name", JStr("Foo")))]))
  }

  /** test_attendee_name_shredder: the export holds the attendee name. */
  lemma AttendeeNameExportScenario(code: string, logs: seq<LogEntry>)
    ensures ExportFiles(AttendeeNames, FixtureData(code, logs)) == Some([JsonFile(Obj1(code + "-1", JStr("Peter")))])
  {
    PositionKeyOne(code);
    var d := FixtureData(code, logs);
    assert d.positions[1..] == [];
    assert FilterMap(d.positions, AttendeeName) == [Member(code + "-1", JStr("Peter"))];
  }

  /** Redacting attendee names in the logged position data masks `Hans` and keeps `Test`. */
  lemma PositionChangeNameRedacted()
    ensures RedactKeys(PositionChange(), Named({"attendee_name"})) ==
      JArr([JObj([Member("attendee_name", Redacted), Member("question_1", JStr("Test"))])])
  {
    var p := Named({"attendee_name"});
    var inner := PositionChange().items[0];
    var ri := RedactKeys(inner, p);
    assert ri.members[0] == RedactMember(inner.members[0], p) == Member("attendee_name", Redacted);
    assert ri.members[1] == RedactMember(inner.members[1], p) == Member("question_1", JStr("Test"));
    assert ri == JObj([Member("attendee_name", Redacted), Member("question_1", JStr("Test"))]);
    assert RedactKeys(PositionChange(), p).items[0] == ri;
  }

  /**
   * test_attendee_name_shredder: after shredding, the attendee name is
   * gone from the position and from the log, while the answer `Test` and
   * the invoice name `Foo` stay.
   */
  lemma AttendeeNameShredScenario(code: string)
    ensures var s := ShredData(AttendeeNames, FixtureData(code, [NameChangeLog(code)]));
      s.positions[0].attendeeName.None? &&
      s.logs[0].data == JObj([
        Member("data", JArr([JObj([Member("attendee_name", Redacted), Member("question_1", JStr("Test"))])])),
        Member("invoice_data", Obj1("name", JStr("Foo")))])
  {
    var p := Named({"attendee_name"});
    PositionChangeNameRedacted();
    var ra := RedactKeys(PositionChange(), p);
    var inv := Obj1("name", JStr("Foo"));
    assert RedactKeys(inv, p).members[0] == RedactMember(inv.members[0], p) == inv.members[0];
    assert RedactKeys(inv, p) == inv;
    var l := NameChangeLog(code);
    var r := RedactKeys(l.data, p);
    assert r.members[0] == RedactMember(l.data.members[0], p) == Member("data", ra);
    assert r.members[1] == RedactMember(l.data.members[1], p) == Member("invoice_data", inv);
    assert r == JObj([Member("data", ra), Member("invoice_data", inv)]);
    assert RewriteLog(AttendeeNames, {}, l).data == r;
  }

  /** The `invoice_data` logged in the invoice-address test. */
  function LoggedAddress(): seq<Member> {
    [Member("name", JStr("Peter")), Member("country", JStr("DE")),
     Member("is_business", JBool(false)), Member("internal_reference", JStr("")),
     Member("company", JStr("ACME")), Member("street", JStr("Sesam Street")),
     Member("city", JStr("Sample City")), Member("zipcode", JStr("12345"))]
  }

  function AddressChangeLog(code: string): LogEntry {
    LogEntry(OrderLog(code), OrderModified,
             JObj([Member("data", PositionChange()), Member("invoice_data", JObj(LoggedAddress()))]))
  }

  function LondonAddress(code: string, lastModified: string): InvoiceAddress {
    InvoiceAddress(code, lastModified, "Acme Company", "", "221B Baker Street", "12345", "London", "UK",
                   "", false, false, "")
  }

  /** test_invoice_address_shredder: the export holds every field of the stored address. */
  lemma InvoiceAddressExportScenario(code: string, lastModified: string, logs: seq<LogEntry>)
    ensures ExportFiles(InvoiceAddresses, FixtureData(code, logs).(addresses := [LondonAddress(code, lastModified)])) ==
      Some([JsonFile(Obj1(code, JObj([
        Member("city", JStr("London")),
        Member("company", JStr("Acme Company")),
        Member("country", JStr("UK")),
        Member("internal_reference", JStr("")),
        Member("is_business", JBool(false)),
        Member("last_modified", JStr(lastModified)),
        Member("name", JStr("")),
        Member("street", JStr("221B Baker Street")),
        Member("vat_id", JStr("")),
        Member("vat_id_validated", JBool(false)),
        Member("zipcode", JStr("12345"))])))])
  {
    var d := FixtureData(code, logs).(addresses := [LondonAddress(code, lastModified)]);
    var ms := ExportFiles(InvoiceAddresses, d).value[0].content.members;
    assert ms[0] == Member(code, AddressJson(LondonAddress(code, lastModified)));
    assert ms == [Member(code, AddressJson(LondonAddress(code, lastModified)))];
  }

  /**
   * test_invoice_address_shredder: after shredding, the address is gone and
   * the log keeps the position data, the boolean and the empty reference,
   * with every other invoice field masked.
   */
  lemma InvoiceAddressShredScenario(code: string, lastModified: string)
    ensures var s := ShredData(InvoiceAddresses,
                               FixtureData(code, [AddressChangeLog(code)]).(addresses := [LondonAddress(code, lastModified)]));
      s.addresses == [] &&
      s.logs[0].data == JObj([
        Member("data", PositionChange()),
        Member("invoice_data", JObj([
          Member("name", Redacted), Member("country", Redacted),
          Member("is_business", JBool(false)), Member("internal_reference", JStr("")),
          Member("company", Redacted), Member("street", Redacted),
          Member("city", Redacted), Member("zipcode", Redacted)]))])
  {
    var l := AddressChangeLog(code);
    PositionChangeHasNoInvoiceData();
    MaskedTestAddress();
    var ms := LoggedAddress();
    var r := RedactInvoiceData(l.data);
    assert r.members[0] == InvoiceDataMember(l.data.members[0]) == Member("data", PositionChange());
    assert r.members[1] == InvoiceDataMember(l.data.members[1]) == Member("invoice_data", JObj(MaskMembers(ms)));
    assert r == JObj([Member("data", PositionChange()), Member("invoice_data", JObj(MaskMembers(ms)))]);
    assert RewriteLog(InvoiceAddresses, {}, l).data == r;
  }

  lemma PositionChangeHasNoInvoiceData()
    ensures RedactInvoiceData(PositionChange()) == PositionChange()
  {
    var inner := PositionChange().items[0];
    var ri := RedactInvoiceData(inner);
    assert ri.members[0] == InvoiceDataMember(inner.members[0]) == inner.members[0];
    assert ri.members[1] == InvoiceDataMember(inner.members[1]) == inner.members[1];
    assert ri == inner;
    assert RedactInvoiceData(PositionChange()).items[0] == ri;
  }

  lemma MaskedTestAddress()
    ensures MaskMembers(LoggedAddress()) == [
          Member("name", Redacted), Member("country", Redacted),
          Member("is_business", JBool(false)), Member("internal_reference", JStr("")),
          Member("company", Redacted), Member("street", Redacted),
          Member("city", Redacted), Member("zipcode", Redacted)]
  {
    var ms := LoggedAddress();
    var r := MaskMembers(ms);
    assert !Maskable(ms[2].value) && !Maskable(ms[3].value);
    assert Maskable(ms[0].value) && Maskable(ms[1].value) && Maskable(ms[4].value);
    assert Maskable(ms[5].value) && Maskable(ms[6].value) && Maskable(ms[7].value);
    assert r[0] == Member("name", Redacted) && r[1] == Member("country", Redacted);
    assert r[2] == ms[2] && r[3] == ms[3];
    assert r[4] == Member("company", Redacted) && r[5] == Member("street", Redacted);
    assert r[6] == Member("city", Redacted) && r[7] == Member("zipcode", Redacted);
  }

  function ShirtAnswer(code: string, question: int, option: int): QuestionAnswer {
    QuestionAnswer(code, 1, question, "ABC", "S", [OptionRef(option, "LVETRWVU")], true)
  }

  function AnswerChangeLog(code: string, question: nat, option: int): LogEntry {
    LogEntry(OrderLog(code), OrderModified,
             Obj1("data", JArr([JObj([
               Member("attendee_name", JStr("Hans")),
               Member(QuestionKey(question), JArr([JObj([Member("id", JInt(option)), Member("type", JStr("QuestionOption"))])]))])])))
  }

  /** test_question_answer_shredder: the export lists the answer under its position. */
  lemma AnswerExportScenario(code: string, question: int, option: int, logs: seq<LogEntry>)
    ensures ExportFiles(QuestionAnswers, FixtureData(code, logs).(answers := [ShirtAnswer(code, question, option)])) ==
      Some([JsonFile(Obj1(code + "-1", JArr([JObj([
        Member("question", JInt(question)),
        Member("answer", JStr("S")),
        Member("question_identifier", JStr("ABC")),
        Member("options", JArr([JInt(option)])),
        Member("option_identifiers", JArr([JStr("LVETRWVU")]))])])))])
  {
    PositionKeyOne(code);
    var d := FixtureData(code, logs).(answers := [ShirtAnswer(code, question, option)]);
    var a := ShirtAnswer(code, question, option);
    var pks := seq(|a.options|, i requires 0 <= i < |a.options| => JInt(a.options[i].pk));
    var ids := seq(|a.options|, i requires 0 <= i < |a.options| => JStr(a.options[i].identifier));
    assert pks == [JInt(option)] by { assert pks[0] == JInt(option); }
    assert ids == [JStr("LVETRWVU")] by { assert ids[0] == JStr("LVETRWVU"); }
    assert AnswerJson(a) == JObj([
        Member("question", JInt(question)),
        Member("answer", JStr("S")),
        Member("question_identifier", JStr("ABC")),
        Member("options", JArr([JInt(option)])),
        Member("option_identifiers", JArr([JStr("LVETRWVU")]))]);
    assert d.answers[1..] == [];
    assert AnswersOf(d.positions[0], d.answers) == [AnswerJson(a)];
    var ms := ExportFiles(QuestionAnswers, d).value[0].content.members;
    assert ms[0] == Member(code + "-1", JArr([AnswerJson(a)]));
    assert ms == [Member(code + "-1", JArr([AnswerJson(a)]))];
  }

  /**
   * test_question_answer_shredder: after shredding, the answer record and
   * its file are gone and the logged answer is the marker.
   */
  lemma AnswerShredScenario(code: string, question: nat, option: int)
    ensures var s := ShredData(QuestionAnswers,
                               FixtureData(code, [AnswerChangeLog(code, question, option)]).(answers := [ShirtAnswer(code, question, option)]));
      s.answers == [] &&
      s.logs[0].data == Obj1("data", JArr([JObj([Member("attendee_name", JStr("Hans")), Member(QuestionKey(question), Redacted)])]))
  {
    var l := AnswerChangeLog(code, question, option);
    assert !IsQuestionKey("attendee_name") by { assert "attendee_name"[0] != "question_"[0]; }
    assert !IsQuestionKey("data") by { assert |"data"| < 9; }
    var arr := l.data.members[0].value;
    var inner := arr.items[0];
    var ri := RedactKeys(inner, QuestionKeys);
    assert ri.members[0] == RedactMember(inner.members[0], QuestionKeys) == Member("attendee_name", JStr("Hans"));
    assert ri.members[1] == RedactMember(inner.members[1], QuestionKeys) == Member(QuestionKey(question), Redacted);
    assert ri == JObj([Member("attendee_name", JStr("Hans")), Member(QuestionKey(question), Redacted)]);
    assert RedactKeys(arr, QuestionKeys).items[0] == ri;
    assert RedactKeys(arr, QuestionKeys) == JArr([ri]);
    var r := RedactKeys(l.data, QuestionKeys);
    assert r.members[0] == RedactMember(l.data.members[0], QuestionKeys) == Member("data", JArr([ri]));
    assert r == Obj1("data", JArr([ri]));
    assert RewriteLog(QuestionAnswers, {}, l).data == r;
  }

  /** test_invoice_shredder: one invoice gives one exported file. */
  lemma InvoiceExportScenario(code: string, inv: Invoice)
    ensures var f := ExportFiles(Invoices, FixtureData(code, []).(invoices := [inv]));
      f.Some? && |f.value| == 1
  {
  }

  /** test_cached_tickets and test_payment_info_shredder: nothing is exported. */
  lemma NoExportScenario(d: EventData)
    ensures ExportFiles(CachedTickets, d).None? && ExportFiles(PaymentInfo, d).None?
    ensures ShredData(CachedTickets, d).tickets == [] && ShredData(CachedTickets, d).combinedTickets == []
  {
  }

  function TransferInfo(): Json {
    JObj([Member("reference", JStr("Verwendungszweck 1")), Member("date", JStr("2018-05-01")),
          Member("payer", JStr("Hans")), Member("trans_id", JInt(12))])
  }

  /** test_payment_info_shredder: reference and payer are masked and the record is flagged. */
  lemma PaymentInfoShredScenario(code: string)
    ensures var d := FixtureData(code, []).(orders := [Order(code, None, Some(TransferInfo()))]);
      ShredData(PaymentInfo, d).orders[0].paymentInfo ==
        Some(JObj([Member("reference", Redacted), Member("date", JStr("2018-05-01")),
                   Member("payer", Redacted), Member("trans_id", JInt(12)), Member(ShreddedFlag, JBool(true))]))
  {
    var ms := TransferInfo().members;
    var masked := MaskTop(ms, PaymentTextKeys);
    assert masked == [Member("reference", Redacted), Member("date", JStr("2018-05-01")),
                      Member("payer", Redacted), Member("trans_id", JInt(12))];
    assert Find(masked, ShreddedFlag) == -1 by {
      assert forall i :: 0 <= i < |masked| ==> masked[i].key != ShreddedFlag;
    }
    assert ShredPaymentInfo(TransferInfo()) == JObj(masked + [Member(ShreddedFlag, JBool(true))]);
    var d := FixtureData(code, []).(orders := [Order(code, None, Some(TransferInfo()))]);
    assert ShredData(PaymentInfo, d).orders[0].paymentInfo == Some(ShredPaymentInfo(TransferInfo()));
    assert masked + [Member(ShreddedFlag, JBool(true))] ==
      [Member("reference", Redacted), Member("date", JStr("2018-05-01")),
       Member("payer", Redacted), Member("trans_id", JInt(12)), Member(ShreddedFlag, JBool(true))];
  }

  function SentEntry(id: int, item: int, voucher: int, created: string): WaitingListEntry {
    WaitingListEntry(id, item, None, None, Some(voucher), created, "en", "foo@example.org")
  }

  /** test_waitinglist_shredder: the export holds the whole entry. */
  lemma WaitingListExportScenario(id: int, item: int, voucher: int, created: string, d: EventData)
    ensures ExportFiles(WaitingList, d.(waitingList := [SentEntry(id, item, voucher, created)])) ==
      Some([JsonFile(JArr([JObj([
        Member("id", JInt(id)), Member("item", JInt(item)), Member("variation", JNull),
        Member("subevent", JNull), Member("voucher", JInt(voucher)), Member("created", JStr(created)),
        Member("locale", JStr("en")), Member("email", JStr("foo@example.org"))])]))])
  {
    var d' := d.(waitingList := [SentEntry(id, item, voucher, created)]);
    var items := ExportFiles(WaitingList, d').value[0].content.items;
    assert items == [EntryJson(SentEntry(id, item, voucher, created))];
  }

  /**
   * test_waitinglist_shredder: after shredding, no `@` is left in the
   * entry, in the comment of the voucher it was sent, or anywhere (keys
   * included) in that voucher's log data.
   */
  lemma WaitingListShredScenario(id: int, item: int, voucher: int, created: string, comment: string, data: Json)
    ensures var d := FixtureData("", [LogEntry(VoucherLog(voucher), VoucherFromWaitingList, data)])
                       .(waitingList := [SentEntry(id, item, voucher, created)], vouchers := [Voucher(voucher, comment)]);
      var s := ShredData(WaitingList, d);
      '@' !in s.waitingList[0].email && '@' !in s.vouchers[0].comment && NoCharAnywhere(s.logs[0].data, '@')
  {
    var d := FixtureData("", [LogEntry(VoucherLog(voucher), VoucherFromWaitingList, data)])
               .(waitingList := [SentEntry(id, item, voucher, created)], vouchers := [Voucher(voucher, comment)]);
    assert voucher in SentVouchers(d.waitingList) by { assert d.waitingList[0].voucher == Some(voucher); }
    WaitingListShredRemovesAddresses(d);
  }
}
