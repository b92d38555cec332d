/**
 * The rewrites the shredders apply to JSON payloads that stay in the
 * database: log-entry `data` and an order's `payment_info`.
 *
 *  - RedactKeys: structural redaction. The whole value of every member
 *    whose key matches a pattern (a fixed set of names such as
 *    `attendee_name`, or the shape `question_<pk>`) becomes the marker,
 *    whatever it holds.
 *  - RedactInvoiceData: every non-empty, non-boolean value directly
 *    under an `invoice_data` object becomes the marker.
 *  - ScrubChar: every string value containing a character (`@` for
 *    e-mail addresses) becomes the marker.
 *  - ShredPaymentInfo: `reference` and `payer` become the marker and
 *    `_shredded: true` is set.
 */
module Redaction {
  import opened Wrappers
  import opened Text
  import opened Json

  // ---------------------------------------------------------------------
  // Structural redaction by key

  datatype KeyPattern =
    | Named(keys: set<string>)  // members whose key is one of these names
    | QuestionKeys              // members whose key is `question_` followed by a primary key

  predicate IsQuestionKey(k: string) {
    StartsWith(k, "question_") && |k| > 9 && forall i :: 9 <= i < |k| ==> IsDigit(k[i])
  }

  /** The key under which a question's answer is logged. */
  function QuestionKey(pk: nat): (k: string)
    ensures IsQuestionKey(k)
  {
    "question_" + NatToDecimal(pk)
  }

  predicate Matches(p: KeyPattern, k: string) {
    match p
    case Named(keys) => k in keys
    case QuestionKeys => IsQuestionKey(k)
  }

  function RedactKeys(j: Json, p: KeyPattern): (r: Json)
    ensures j.JObj? <==> r.JObj?
    ensures j.JObj? ==> |r.members| == |j.members| && forall i :: 0 <= i < |j.members| ==> r.members[i].key == j.members[i].key
    ensures j.JArr? <==> r.JArr?
    ensures j.JArr? ==> |r.items| == |j.items|
    ensures !j.JArr? && !j.JObj? ==> r == j
    decreases j
  {
    match j
    case JArr(items) => JArr(seq(|items|, i requires 0 <= i < |items| => RedactKeys(items[i], p)))
    case JObj(ms) => JObj(seq(|ms|, i requires 0 <= i < |ms| => RedactMember(ms[i], p)))
    case _ => j
  }

  function RedactMember(m: Member, p: KeyPattern): Member
    decreases m
  {
    Member(m.key, if Matches(p, m.key) then Redacted else RedactKeys(m.value, p))
  }

  /** Every member whose key matches `p`, at any depth, holds the marker. */
  predicate KeysRedacted(j: Json, p: KeyPattern)
    decreases j
  {
    match j
    case JArr(items) => forall i :: 0 <= i < |items| ==> KeysRedacted(items[i], p)
    case JObj(ms) =>
      forall i :: 0 <= i < |ms| ==>
        if Matches(p, ms[i].key) then ms[i].value == Redacted else KeysRedacted(ms[i].value, p)
    case _ => true
  }

  /** Some member at some depth has a key matching `p`. */
  predicate HasMatch(j: Json, p: KeyPattern)
    decreases j
  {
    match j
    case JArr(items) => exists i :: 0 <= i < |items| && HasMatch(items[i], p)
    case JObj(ms) => exists i :: 0 <= i < |ms| && (Matches(p, ms[i].key) || HasMatch(ms[i].value, p))
    case _ => false
  }

  /**
   * `t` is a string value of `j` that is reached without passing through
   * a member whose key matches `p`.
   */
  predicate Survives(t: string, j: Json, p: KeyPattern)
    decreases j
  {
    match j
    case JStr(s) => s == t
    case JArr(items) => exists i :: 0 <= i < |items| && Survives(t, items[i], p)
    case JObj(ms) => exists i :: 0 <= i < |ms| && !Matches(p, ms[i].key) && Survives(t, ms[i].value, p)
    case _ => false
  }

  /** After the rewrite, no matching member holds anything but the marker. */
  lemma {:induction false} RedactKeysSound(j: Json, p: KeyPattern)
    ensures KeysRedacted(RedactKeys(j, p), p)
    decreases j
  {
    match j
    case JArr(items) =>
      forall i | 0 <= i < |items| ensures KeysRedacted(RedactKeys(items[i], p), p) {
        RedactKeysSound(items[i], p);
      }
    case JObj(ms) =>
      forall i | 0 <= i < |ms| && !Matches(p, ms[i].key)
        ensures KeysRedacted(RedactKeys(ms[i].value, p), p)
      {
        RedactKeysSound(ms[i].value, p);
      }
    case _ =>
  }

  /**
   * Exactly the strings that survive stay: any string other than the
   * marker occurs in the result iff it occurred in the payload outside
   * every matching member.
   */
  lemma {:induction false} RedactKeysContent(t: string, j: Json, p: KeyPattern)
    requires t != Marker
    ensures Occurs(t, RedactKeys(j, p)) <==> Survives(t, j, p)
    decreases j
  {
    match j
    case JArr(items) =>
      var r := RedactKeys(j, p).items;
      forall i | 0 <= i < |items| ensures Occurs(t, r[i]) <==> Survives(t, items[i], p) {
        RedactKeysContent(t, items[i], p);
      }
    case JObj(ms) =>
      var r := RedactKeys(j, p).members;
      forall i | 0 <= i < |ms|
        ensures Occurs(t, r[i].value) <==> !Matches(p, ms[i].key) && Survives(t, ms[i].value, p)
      {
        assert r[i] == RedactMember(ms[i], p);
        if !Matches(p, ms[i].key) {
          RedactKeysContent(t, ms[i].value, p);
        }
      }
    case _ =>
  }

  /** A payload without any matching key is left exactly as it was. */
  lemma {:induction false} RedactKeysUntouched(j: Json, p: KeyPattern)
    requires !HasMatch(j, p)
    ensures RedactKeys(j, p) == j
    decreases j
  {
    match j
    case JArr(items) =>
      var r := RedactKeys(j, p).items;
      forall i | 0 <= i < |items| ensures r[i] == items[i] {
        RedactKeysUntouched(items[i], p);
      }
      assert r == items;
    case JObj(ms) =>
      var r := RedactKeys(j, p).members;
      forall i | 0 <= i < |ms| ensures r[i] == ms[i] {
        assert r[i] == RedactMember(ms[i], p);
        assert !Matches(p, ms[i].key) && !HasMatch(ms[i].value, p);
        RedactKeysUntouched(ms[i].value, p);
      }
      assert r == ms;
    case _ =>
  }

  /** Shredding twice leaves the payload as shredding once. */
  lemma {:induction false} RedactKeysIdempotent(j: Json, p: KeyPattern)
    ensures RedactKeys(RedactKeys(j, p), p) == RedactKeys(j, p)
    decreases j
  {
    match j
    case JArr(items) =>
      var r := RedactKeys(j, p).items;
      var rr := RedactKeys(RedactKeys(j, p), p).items;
      forall i | 0 <= i < |items| ensures rr[i] == r[i] {
        RedactKeysIdempotent(items[i], p);
      }
      assert rr == r;
    case JObj(ms) =>
      var r := RedactKeys(j, p).members;
      var rr := RedactKeys(RedactKeys(j, p), p).members;
      forall i | 0 <= i < |ms| ensures rr[i] == r[i] {
        assert r[i] == RedactMember(ms[i], p);
        assert rr[i] == RedactMember(r[i], p);
        if !Matches(p, ms[i].key) {
          RedactKeysIdempotent(ms[i].value, p);
        }
      }
      assert rr == r;
    case _ =>
  }

  // ---------------------------------------------------------------------
  // Redaction of `invoice_data`

  predicate IsEmptyValue(v: Json) {
    v == JNull || v == JStr("") || v == JArr([]) || v == JObj([])
  }

  /** Values under `invoice_data` that are replaced: anything but a boolean or an empty value. */
  predicate Maskable(v: Json) {
    !v.JBool? && !IsEmptyValue(v)
  }

  function MaskMembers(ms: seq<Member>): (r: seq<Member>)
    ensures |r| == |ms|
    ensures forall i :: 0 <= i < |ms| ==> r[i].key == ms[i].key
    ensures forall i :: 0 <= i < |ms| && Maskable(ms[i].value) ==> r[i].value == Redacted
    ensures forall i :: 0 <= i < |ms| && !Maskable(ms[i].value) ==> r[i].value == ms[i].value
  {
    seq(|ms|, i requires 0 <= i < |ms| =>
      Member(ms[i].key, if Maskable(ms[i].value) then Redacted else ms[i].value))
  }

  function RedactInvoiceData(j: Json): (r: Json)
    ensures j.JObj? <==> r.JObj?
    ensures j.JObj? ==> |r.members| == |j.members| && forall i :: 0 <= i < |j.members| ==> r.members[i].key == j.members[i].key
    ensures j.JArr? <==> r.JArr?
    ensures j.JArr? ==> |r.items| == |j.items|
    ensures !j.JArr? && !j.JObj? ==> r == j
    decreases j
  {
    match j
    case JArr(items) => JArr(seq(|items|, i requires 0 <= i < |items| => RedactInvoiceData(items[i])))
    case JObj(ms) => JObj(seq(|ms|, i requires 0 <= i < |ms| => InvoiceDataMember(ms[i])))
    case _ => j
  }

  function InvoiceDataMember(m: Member): Member
    decreases m
  {
    if m.key == "invoice_data" && m.value.JObj? then Member(m.key, JObj(MaskMembers(m.value.members)))
    else Member(m.key, RedactInvoiceData(m.value))
  }

  /**
   * Every `invoice_data` object, at any depth, holds only booleans, empty
   * values and the marker.
   */
  predicate InvoiceDataRedacted(j: Json)
    decreases j
  {
    match j
    case JArr(items) => forall i :: 0 <= i < |items| ==> InvoiceDataRedacted(items[i])
    case JObj(ms) =>
      forall i :: 0 <= i < |ms| ==>
        if ms[i].key == "invoice_data" && ms[i].value.JObj? then
          forall k :: 0 <= k < |ms[i].value.members| ==>
            !Maskable(ms[i].value.members[k].value) || ms[i].value.members[k].value == Redacted
        else InvoiceDataRedacted(ms[i].value)
    case _ => true
  }

  lemma {:induction false} RedactInvoiceDataSound(j: Json)
    ensures InvoiceDataRedacted(RedactInvoiceData(j))
    decreases j
  {
    match j
    case JArr(items) =>
      forall i | 0 <= i < |items| ensures InvoiceDataRedacted(RedactInvoiceData(items[i])) {
        RedactInvoiceDataSound(items[i]);
      }
    case JObj(ms) =>
      forall i | 0 <= i < |ms| && !(ms[i].key == "invoice_data" && ms[i].value.JObj?)
        ensures InvoiceDataRedacted(RedactInvoiceData(ms[i].value))
      {
        RedactInvoiceDataSound(ms[i].value);
      }
    case _ =>
  }

  /** A payload without any `invoice_data` member is left exactly as it was. */
  lemma {:induction false} RedactInvoiceDataUntouched(j: Json)
    requires !HasMatch(j, Named({"invoice_data"}))
    ensures RedactInvoiceData(j) == j
    decreases j
  {
    match j
    case JArr(items) =>
      var r := RedactInvoiceData(j).items;
      forall i | 0 <= i < |items| ensures r[i] == items[i] {
        RedactInvoiceDataUntouched(items[i]);
      }
      assert r == items;
    case JObj(ms) =>
      var r := RedactInvoiceData(j).members;
      forall i | 0 <= i < |ms| ensures r[i] == ms[i] {
        assert r[i] == InvoiceDataMember(ms[i]);
        assert ms[i].key != "invoice_data" && !HasMatch(ms[i].value, Named({"invoice_data"}));
        RedactInvoiceDataUntouched(ms[i].value);
      }
      assert r == ms;
    case _ =>
  }

  lemma {:induction false} RedactInvoiceDataIdempotent(j: Json)
    ensures RedactInvoiceData(RedactInvoiceData(j)) == RedactInvoiceData(j)
    decreases j
  {
    match j
    case JArr(items) =>
      var r := RedactInvoiceData(j).items;
      var rr := RedactInvoiceData(RedactInvoiceData(j)).items;
      forall i | 0 <= i < |items| ensures rr[i] == r[i] {
        RedactInvoiceDataIdempotent(items[i]);
      }
      assert rr == r;
    case JObj(ms) =>
      var r := RedactInvoiceData(j).members;
      var rr := RedactInvoiceData(RedactInvoiceData(j)).members;
      forall i | 0 <= i < |ms| ensures rr[i] == r[i] {
        assert r[i] == InvoiceDataMember(ms[i]);
        assert rr[i] == InvoiceDataMember(r[i]);
        if ms[i].key == "invoice_data" && ms[i].value.JObj? {
          var inner := MaskMembers(ms[i].value.members);
          assert MaskMembers(inner) == inner;
        } else {
          RedactInvoiceDataIdempotent(ms[i].value);
        }
      }
      assert rr == r;
    case _ =>
  }

  // ---------------------------------------------------------------------
  // Scrubbing every string that contains a character

  /** A key that contains `c` becomes the marker; any other key is kept. */
  function ScrubKey(k: string, c: char): string {
    if c in k then Marker else k
  }

  /**
   * Every string containing `c` becomes the marker, whether it is a value
   * or the key of an object member; the shape of the tree is kept.
   */
  function ScrubChar(j: Json, c: char): (r: Json)
    ensures j.JObj? <==> r.JObj?
    ensures j.JObj? ==> |r.members| == |j.members|
    ensures j.JArr? <==> r.JArr?
    ensures j.JArr? ==> |r.items| == |j.items|
    ensures !j.JStr? && !j.JArr? && !j.JObj? ==> r == j
    decreases j
  {
    match j
    case JStr(s) => if c in s then Redacted else j
    case JArr(items) => JArr(seq(|items|, i requires 0 <= i < |items| => ScrubChar(items[i], c)))
    case JObj(ms) => JObj(seq(|ms|, i requires 0 <= i < |ms| => Member(ScrubKey(ms[i].key, c), ScrubChar(ms[i].value, c))))
    case _ => j
  }

  /** Neither a key nor a string value of the result contains `c`. */
  lemma {:induction false} ScrubCharSound(j: Json, c: char)
    requires c !in Marker
    ensures NoCharAnywhere(ScrubChar(j, c), c)
    decreases j
  {
    match j
    case JArr(items) =>
      forall i | 0 <= i < |items| ensures NoCharAnywhere(ScrubChar(items[i], c), c) {
        ScrubCharSound(items[i], c);
      }
    case JObj(ms) =>
      forall i | 0 <= i < |ms| ensures NoCharAnywhere(ScrubChar(ms[i].value, c), c) {
        ScrubCharSound(ms[i].value, c);
      }
    case _ =>
  }

  /** Strings without `c` (other than the marker) are kept exactly where they were. */
  lemma {:induction false} ScrubCharKeeps(t: string, j: Json, c: char)
    requires c !in t && t != Marker
    ensures Occurs(t, ScrubChar(j, c)) <==> Occurs(t, j)
    decreases j
  {
    match j
    case JArr(items) =>
      var r := ScrubChar(j, c).items;
      forall i | 0 <= i < |items| ensures Occurs(t, r[i]) <==> Occurs(t, items[i]) {
        ScrubCharKeeps(t, items[i], c);
      }
    case JObj(ms) =>
      var r := ScrubChar(j, c).members;
      forall i | 0 <= i < |ms| ensures Occurs(t, r[i].value) <==> Occurs(t, ms[i].value) {
        ScrubCharKeeps(t, ms[i].value, c);
      }
    case _ =>
  }

  lemma {:induction false} ScrubCharIdempotent(j: Json, c: char)
    requires c !in Marker
    ensures ScrubChar(ScrubChar(j, c), c) == ScrubChar(j, c)
    decreases j
  {
    match j
    case JArr(items) =>
      var r := ScrubChar(j, c).items;
      var rr := ScrubChar(ScrubChar(j, c), c).items;
      forall i | 0 <= i < |items| ensures rr[i] == r[i] {
        ScrubCharIdempotent(items[i], c);
      }
      assert rr == r;
    case JObj(ms) =>
      var r := ScrubChar(j, c).members;
      var rr := ScrubChar(ScrubChar(j, c), c).members;
      forall i | 0 <= i < |ms| ensures rr[i] == r[i] {
        ScrubCharIdempotent(ms[i].value, c);
      }
      assert rr == r;
    case _ =>
  }

  // ---------------------------------------------------------------------
  // Payment information

  /** The free-text members of bank-transfer payment information. */
  const PaymentTextKeys: set<string> := {"reference", "payer"}

  const ShreddedFlag: string := "_shredded"

  function MaskTop(ms: seq<Member>, keys: set<string>): seq<Member> {
    seq(|ms|, i requires 0 <= i < |ms| =>
      if ms[i].key in keys then Member(ms[i].key, Redacted) else ms[i])
  }

  /** Python's `d[k] = v` on a dictionary: replace the value in place, or append the member. */
  function SetMember(ms: seq<Member>, k: string, v: Json): seq<Member> {
    if Find(ms, k) >= 0 then
      seq(|ms|, i requires 0 <= i < |ms| => if ms[i].key == k then Member(k, v) else ms[i])
    else ms + [Member(k, v)]
  }

  /** Payment information that is not a JSON object (absent, or any scalar) is left alone. */
  function ShredPaymentInfo(j: Json): (r: Json)
    ensures j.JObj? <==> r.JObj?
    ensures !j.JObj? ==> r == j
    ensures j.JObj? ==> |j.members| <= |r.members| <= |j.members| + 1
  {
    match j
    case JObj(ms) => JObj(SetMember(MaskTop(ms, PaymentTextKeys), ShreddedFlag, JBool(true)))
    case _ => j
  }

  lemma FindAppend(ms: seq<Member>, m: Member, k: string)
    ensures Find(ms + [m], k) ==
      if Find(ms, k) >= 0 then Find(ms, k) else if m.key == k then |ms| else -1
  {
    var a, b := Find(ms, k), Find(ms + [m], k);
    if a >= 0 {
      assert (ms + [m])[a].key == k;
    } else {
      assert (ms + [m])[|ms|] == m;
    }
  }

  lemma SetMemberAt(ms: seq<Member>, k: string, v: Json, i: int)
    requires 0 <= i < |SetMember(ms, k, v)|
    ensures |ms| <= |SetMember(ms, k, v)| <= |ms| + 1
    ensures SetMember(ms, k, v)[i] ==
      if i < |ms| && ms[i].key != k then ms[i] else Member(k, v)
  {
  }

  lemma {:induction false} SetMemberGet(ms: seq<Member>, k: string, v: Json, q: string)
    ensures Get(SetMember(ms, k, v), q) == if q == k then Some(v) else Get(ms, q)
  {
    var r := SetMember(ms, k, v);
    if Find(ms, k) >= 0 {
      FindSameKeys(ms, r, q);
    } else {
      FindAppend(ms, Member(k, v), q);
    }
  }

  lemma {:induction false} MaskTopGet(ms: seq<Member>, keys: set<string>, q: string)
    ensures Get(MaskTop(ms, keys), q) ==
      if q in keys && Get(ms, q).Some? then Some(Redacted) else Get(ms, q)
  {
    FindSameKeys(ms, MaskTop(ms, keys), q);
  }

  /**
   * After shredding, `_shredded` is true, `reference` and `payer` hold the
   * marker where they were present, and every other member is unchanged.
   */
  lemma {:induction false} ShredPaymentInfoGet(ms: seq<Member>, q: string)
    ensures var r := ShredPaymentInfo(JObj(ms)).members;
      Get(r, q) ==
        if q == ShreddedFlag then Some(JBool(true))
        else if q in PaymentTextKeys && Get(ms, q).Some? then Some(Redacted)
        else Get(ms, q)
  {
    SetMemberGet(MaskTop(ms, PaymentTextKeys), ShreddedFlag, JBool(true), q);
    MaskTopGet(ms, PaymentTextKeys, q);
  }

  /** Keys stay unique: `_shredded` is present exactly once, however often the order is shredded. */
  lemma {:induction false} ShredPaymentInfoUniqueKeys(ms: seq<Member>)
    requires UniqueKeys(ms)
    ensures UniqueKeys(ShredPaymentInfo(JObj(ms)).members)
  {
    var masked := MaskTop(ms, PaymentTextKeys);
    assert forall i :: 0 <= i < |ms| ==> masked[i].key == ms[i].key;
    var r := SetMember(masked, ShreddedFlag, JBool(true));
    if Find(masked, ShreddedFlag) >= 0 {
      assert forall i :: 0 <= i < |ms| ==> r[i].key == ms[i].key;
    } else {
      assert forall i :: 0 <= i < |ms| ==> r[i].key == ms[i].key;
      assert r[|ms|].key == ShreddedFlag;
    }
  }

  lemma {:induction false} ShredPaymentInfoIdempotent(j: Json)
    ensures ShredPaymentInfo(ShredPaymentInfo(j)) == ShredPaymentInfo(j)
  {
    match j
    case JObj(ms) =>
      var m1 := MaskTop(ms, PaymentTextKeys);
      var once := ShredPaymentInfo(j).members;
      var masked := MaskTop(once, PaymentTextKeys);
      assert masked == once by {
        forall i | 0 <= i < |once| ensures masked[i] == once[i] {
          SetMemberAt(m1, ShreddedFlag, JBool(true), i);
        }
      }
      SetMemberGet(m1, ShreddedFlag, JBool(true), ShreddedFlag);
      assert Find(once, ShreddedFlag) >= 0;
      var twice := SetMember(once, ShreddedFlag, JBool(true));
      forall i | 0 <= i < |once| ensures twice[i] == once[i] {
        SetMemberAt(m1, ShreddedFlag, JBool(true), i);
      }
      assert twice == once;
    case _ =>
  }
}
