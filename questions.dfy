/**
 * Question-form bookkeeping of the question views: one form per cart or
 * order position that has questions to ask, grouped under the position
 * an add-on belongs to, and the storing of a submitted form's cleaned data
 * as attendee fields, question answers and saved form data.
 */
module Questions {
  import opened Wrappers
  import opened Text

  // ---------------------------------------------------------------------
  // Positions and their sort key

  datatype PosKind = CartPos | OrderPos

  /** The position an add-on belongs to. */
  datatype Parent = Parent(pk: int, positionid: int)

  /** A cart or order position; `positionid` only means something for order positions. */
  datatype Pos = Pos(kind: PosKind, pk: int, positionid: int, addonTo: Option<Parent>)

  datatype SortKey = SortKey(anchor: int, addonPenalty: int, pk: int)

  /**
   * `_keyfunc`: order positions are anchored at their (parent's) position
   * id, cart positions at their (parent's) primary key; add-ons get a
   * penalty of one so that they come after the position they belong to.
   */
  function KeyFunc(p: Pos): (r: SortKey)
    ensures r.pk == p.pk
    ensures 0 <= r.addonPenalty <= 1 && (r.addonPenalty == 0 <==> p.addonTo.None?)
    ensures p.addonTo.None? ==> r.anchor == (if p.kind == OrderPos then p.positionid else p.pk)
    ensures p.addonTo.Some? ==>
      r.anchor == (if p.kind == OrderPos then p.addonTo.value.positionid else p.addonTo.value.pk)
  {
    var anchor :=
      match p.addonTo
      case Some(parent) => if p.kind == OrderPos then parent.positionid else parent.pk
      case None => if p.kind == OrderPos then p.positionid else p.pk;
    SortKey(anchor, if p.addonTo.Some? then 1 else 0, p.pk)
  }

  /** Python's comparison of the key tuples. */
  predicate KeyLess(a: SortKey, b: SortKey) {
    a.anchor < b.anchor ||
    (a.anchor == b.anchor && (a.addonPenalty < b.addonPenalty ||
                              (a.addonPenalty == b.addonPenalty && a.pk < b.pk)))
  }

  predicate AddonOf(addon: Pos, parent: Pos) {
    parent.addonTo.None? && addon.kind == parent.kind &&
    addon.addonTo == Some(Parent(parent.pk, parent.positionid))
  }

  /** A position sorts before each of its add-ons. */
  lemma ParentSortsBeforeAddon(parent: Pos, addon: Pos)
    requires AddonOf(addon, parent)
    ensures KeyLess(KeyFunc(parent), KeyFunc(addon))
    ensures KeyFunc(addon).anchor == KeyFunc(parent).anchor
  {
  }

  /**
   * Whatever sorts between a position and one of its add-ons shares the
   * position's anchor, so a position and its add-ons stay together.
   */
  lemma NothingBetweenParentAndAddon(parent: Pos, addon: Pos, q: Pos)
    requires AddonOf(addon, parent)
    requires KeyLess(KeyFunc(parent), KeyFunc(q)) && KeyLess(KeyFunc(q), KeyFunc(addon))
    ensures KeyFunc(q).anchor == KeyFunc(parent).anchor
  {
  }

  /** Add-ons of the same position are ordered by primary key. */
  lemma AddonsByPk(parent: Pos, a: Pos, b: Pos)
    requires AddonOf(a, parent) && AddonOf(b, parent)
    ensures KeyLess(KeyFunc(a), KeyFunc(b)) <==> a.pk < b.pk
  {
  }

  /** The keys are compared as a strict total order on distinct keys. */
  lemma KeyLessTotal(a: SortKey, b: SortKey, c: SortKey)
    ensures !KeyLess(a, a)
    ensures KeyLess(a, b) && KeyLess(b, c) ==> KeyLess(a, c)
    ensures a != b ==> KeyLess(a, b) || KeyLess(b, a)
  {
  }

  // ---------------------------------------------------------------------
  // Forms

  datatype FieldKind = MultipleChoiceField | ChoiceField | FileField | OtherField

  /** A question option: its primary key, its `answer` text and its `str()`. */
  datatype QOption = QOption(pk: int, answer: string, display: string)

  /** A cleaned form value. */
  datatype Value =
    | VNone
    | VBool(b: bool)
    | VInt(i: int)
    | VText(s: string)
    | VNameParts(parts: map<string, string>)
    | VOption(option: QOption)
    | VOptions(options: seq<QOption>)
    | VUpload(name: string)

  /** Python truthiness of a cleaned value. */
  predicate Truthy(v: Value) {
    match v
    case VNone => false
    case VBool(b) => b
    case VInt(i) => i != 0
    case VText(s) => s != ""
    case VNameParts(parts) => parts != map[]
    case VOptions(os) => os != []
    case _ => true
  }

  datatype Answer = Answer(
    pk: int,
    question: int,
    position: int,   // primary key of the cart or order position
    answer: Value,
    options: set<int>,
    hasFile: bool)

  /** A form field: its kind, its question and the answer already stored for it, if any. */
  datatype Field = Field(kind: FieldKind, question: int, cached: Option<Answer>)

  datatype Entry = Entry(key: string, value: Value)

  /** A bound form: its position, its fields, whether it validated, and its cleaned data in order. */
  datatype Form = Form(pos: Pos, fields: map<string, Field>, valid: bool, cleaned: seq<Entry>)

  /** The forms of the positions that have at least one field, in position order. */
  function WithFields(cands: seq<Form>): (r: seq<Form>)
    ensures |r| <= |cands|
    ensures forall i :: 0 <= i < |r| ==> |r[i].fields| > 0
  {
    if |cands| == 0 then []
    else
      var init := cands[..|cands| - 1];
      var f := cands[|cands| - 1];
      assert cands == init + [f];
      WithFields(init) + (if |f.fields| > 0 then [f] else [])
  }

  /** Filtering keeps the order of the positions: it distributes over concatenation. */
  lemma {:induction false} WithFieldsAppend(xs: seq<Form>, ys: seq<Form>)
    ensures WithFields(xs + ys) == WithFields(xs) + WithFields(ys)
    decreases |ys|
  {
    if |ys| == 0 {
      assert xs + ys == xs;
    } else {
      var init, last := ys[..|ys| - 1], ys[|ys| - 1];
      assert ys == init + [last];
      assert xs + ys == (xs + init) + [last];
      WithFieldsSnoc(xs + init, last);
      WithFieldsSnoc(init, last);
      WithFieldsAppend(xs, init);
    }
  }

  /** A form is kept iff it has at least one field. */
  lemma {:induction false} WithFieldsMembers(cands: seq<Form>)
    ensures forall f :: f in WithFields(cands) <==> f in cands && |f.fields| > 0
  {
    if |cands| > 0 {
      var init, last := cands[..|cands| - 1], cands[|cands| - 1];
      assert cands == init + [last];
      WithFieldsSnoc(init, last);
      WithFieldsMembers(init);
    }
  }

  lemma WithFieldsSnoc(cands: seq<Form>, f: Form)
    ensures WithFields(cands + [f]) == WithFields(cands) + (if |f.fields| > 0 then [f] else [])
  {
    assert (cands + [f])[..|cands|] == cands;
  }

  /** `forms`: builds a form for every position and keeps those with fields. */
  method BuildForms(cands: seq<Form>) returns (forms: seq<Form>)
    ensures forms == WithFields(cands)
  {
    forms := [];
    for i := 0 to |cands|
      invariant forms == WithFields(cands[..i])
    {
      assert cands[..i + 1][..i] == cands[..i];
      if |cands[i].fields| > 0 {
        forms := forms + [cands[i]];
      }
    }
    assert cands[..|cands|] == cands;
  }

  // ---------------------------------------------------------------------
  // Grouping forms under the position they belong to

  /** The position a form is listed under: the one it is an add-on to, or its own. */
  function GroupKey(p: Pos): int {
    if p.addonTo.Some? then p.addonTo.value.pk else p.pk
  }

  /** The forms listed under `k`, in order. */
  function Group(forms: seq<Form>, k: int): (r: seq<Form>)
    ensures forall f :: f in r <==> f in forms && GroupKey(f.pos) == k
  {
    if |forms| == 0 then []
    else
      var init := forms[..|forms| - 1];
      var f := forms[|forms| - 1];
      assert forms == init + [f];
      Group(init, k) + (if GroupKey(f.pos) == k then [f] else [])
  }

  /** The group keys in order of first appearance, each once. */
  function GroupKeys(forms: seq<Form>): (r: seq<int>)
    ensures forall i, j :: 0 <= i < j < |r| ==> r[i] != r[j]
    ensures forall k :: k in r <==> exists i :: 0 <= i < |forms| && GroupKey(forms[i].pos) == k
  {
    if |forms| == 0 then []
    else
      var init := forms[..|forms| - 1];
      var k := GroupKey(forms[|forms| - 1].pos);
      var keys := GroupKeys(init);
      assert forall i :: 0 <= i < |init| ==> init[i] == forms[i];
      if k in keys then keys else keys + [k]
  }

  /** The index of the first form listed under `k`, or -1 when there is none. */
  function FirstWith(forms: seq<Form>, k: int): (r: int)
    ensures -1 <= r < |forms|
    ensures r >= 0 ==> GroupKey(forms[r].pos) == k
    ensures forall i :: 0 <= i < |forms| && (r < 0 || i < r) ==> GroupKey(forms[i].pos) != k
  {
    if |forms| == 0 then -1
    else if GroupKey(forms[0].pos) == k then 0
    else
      var t := FirstWith(forms[1..], k);
      if t < 0 then -1 else t + 1
  }

  /** Appending a form leaves the first form of a group already present where it was. */
  lemma FirstWithSnoc(init: seq<Form>, f: Form, k: int)
    requires FirstWith(init, k) >= 0
    ensures FirstWith(init + [f], k) == FirstWith(init, k)
  {
    var forms := init + [f];
    var r, r' := FirstWith(forms, k), FirstWith(init, k);
    assert forms[r'] == init[r'];
    assert r >= 0 && r <= r';
    assert forall i :: 0 <= i < r' ==> forms[i] == init[i];
  }

  /** Each key's first form comes before the first form of every key listed after it. */
  predicate InFirstOrder(forms: seq<Form>, keys: seq<int>) {
    forall i, j :: 0 <= i < j < |keys| ==> 0 <= FirstWith(forms, keys[i]) < FirstWith(forms, keys[j])
  }

  /** Every key already present keeps its first form, which lies within `init`. */
  lemma OldKeysKeepFirst(init: seq<Form>, f: Form)
    ensures forall x :: x in GroupKeys(init) ==> 0 <= FirstWith(init + [f], x) == FirstWith(init, x) < |init|
  {
    forall x | x in GroupKeys(init) ensures 0 <= FirstWith(init + [f], x) == FirstWith(init, x) < |init| {
      var m :| 0 <= m < |init| && GroupKey(init[m].pos) == x;
      FirstWithSnoc(init, f, x);
    }
  }

  /** Appending a form whose key is present keeps the order of the keys. */
  lemma OldOrderKept(init: seq<Form>, f: Form)
    requires InFirstOrder(init, GroupKeys(init))
    ensures InFirstOrder(init + [f], GroupKeys(init))
  {
    var keys := GroupKeys(init);
    OldKeysKeepFirst(init, f);
    forall i, j | 0 <= i < j < |keys| ensures 0 <= FirstWith(init + [f], keys[i]) < FirstWith(init + [f], keys[j]) {
      assert keys[i] in keys && keys[j] in keys;
    }
  }

  /** A form with a new key puts that key last, after every key already present. */
  lemma NewKeyLast(init: seq<Form>, f: Form)
    requires InFirstOrder(init, GroupKeys(init))
    requires GroupKey(f.pos) !in GroupKeys(init)
    ensures InFirstOrder(init + [f], GroupKeys(init) + [GroupKey(f.pos)])
  {
    var forms, k := init + [f], GroupKey(f.pos);
    var oldKeys := GroupKeys(init);
    var keys := oldKeys + [k];
    OldOrderKept(init, f);
    OldKeysKeepFirst(init, f);
    assert forms[|init|] == f;
    assert FirstWith(forms, k) == |init|;
    forall i, j | 0 <= i < j < |keys| ensures 0 <= FirstWith(forms, keys[i]) < FirstWith(forms, keys[j]) {
      assert keys[i] == oldKeys[i] && keys[i] in oldKeys;
      if j < |oldKeys| {
        assert keys[j] == oldKeys[j];
      }
    }
  }

  lemma GroupKeysSnocOrder(init: seq<Form>, f: Form)
    requires InFirstOrder(init, GroupKeys(init))
    ensures InFirstOrder(init + [f], GroupKeys(init + [f]))
  {
    var forms := init + [f];
    assert forms[..|forms| - 1] == init;
    if GroupKey(f.pos) in GroupKeys(init) {
      OldOrderKept(init, f);
    } else {
      NewKeyLast(init, f);
    }
  }

  /**
   * The group keys come in the order of their first form: a key listed
   * before another has its first form earlier in `forms`.
   */
  lemma {:induction false} GroupKeysFirstOrder(forms: seq<Form>)
    ensures InFirstOrder(forms, GroupKeys(forms))
  {
    if |forms| > 0 {
      var init := forms[..|forms| - 1];
      assert forms == init + [forms[|forms| - 1]];
      GroupKeysFirstOrder(init);
      GroupKeysSnocOrder(init, forms[|forms| - 1]);
    }
  }

  /** `formdict`: the ordered mapping from group key to the forms listed under it. */
  method BuildFormDict(forms: seq<Form>) returns (keys: seq<int>, groups: map<int, seq<Form>>)
    ensures keys == GroupKeys(forms)
    ensures InFirstOrder(forms, keys)
    ensures forall k :: k in groups <==> k in keys
    ensures forall k :: k in groups ==> groups[k] == Group(forms, k)
  {
    keys, groups := [], map[];
    for i := 0 to |forms|
      invariant keys == GroupKeys(forms[..i])
      invariant forall k :: k in groups <==> k in keys
      invariant forall k :: k in groups ==> groups[k] == Group(forms[..i], k)
    {
      var prefix := forms[..i + 1];
      assert prefix[..i] == forms[..i];
      var k := GroupKey(forms[i].pos);
      ghost var before := groups;
      if k !in groups {
        keys := keys + [k];
        groups := groups[k := []];
      }
      groups := groups[k := groups[k] + [forms[i]]];
      forall k' | k' in groups ensures groups[k'] == Group(prefix, k') {
        if k' != k {
          assert Group(prefix, k') == Group(forms[..i], k');
        } else if k in before {
          assert Group(forms[..i], k) == before[k];
        } else {
          GroupEmpty(forms[..i], k);
        }
      }
    }
    assert forms[..|forms|] == forms;
    GroupKeysFirstOrder(forms);
  }

  /** Summed sizes of the groups listed under `keys`. */
  function GroupSizes(forms: seq<Form>, keys: seq<int>): nat {
    if |keys| == 0 then 0 else |Group(forms, keys[0])| + GroupSizes(forms, keys[1..])
  }

  lemma {:induction false} GroupSizesSnoc(forms: seq<Form>, f: Form, keys: seq<int>)
    requires forall i, j :: 0 <= i < j < |keys| ==> keys[i] != keys[j]
    ensures GroupSizes(forms + [f], keys) == GroupSizes(forms, keys) + (if GroupKey(f.pos) in keys then 1 else 0)
    decreases |keys|
  {
    if |keys| > 0 {
      var rest := keys[1..];
      assert forms + [f] == (forms + [f])[..|forms|] + [f];
      assert (forms + [f])[..|forms|] == forms;
      assert GroupKey(f.pos) == keys[0] ==> GroupKey(f.pos) !in rest;
      GroupSizesSnoc(forms, f, rest);
    }
  }

  lemma {:induction false} GroupSizesAppendKey(forms: seq<Form>, keys: seq<int>, k: int)
    ensures GroupSizes(forms, keys + [k]) == GroupSizes(forms, keys) + |Group(forms, k)|
    decreases |keys|
  {
    if |keys| == 0 {
      assert (keys + [k])[1..] == [];
    } else {
      assert (keys + [k])[1..] == keys[1..] + [k];
      GroupSizesAppendKey(forms, keys[1..], k);
    }
  }

  lemma GroupEmpty(forms: seq<Form>, k: int)
    requires k !in GroupKeys(forms)
    ensures Group(forms, k) == []
  {
  }

  /** Every form is listed exactly once: the group sizes add up to the number of forms. */
  lemma {:induction false} GroupsPartitionForms(forms: seq<Form>)
    ensures GroupSizes(forms, GroupKeys(forms)) == |forms|
    decreases |forms|
  {
    if |forms| > 0 {
      var init := forms[..|forms| - 1];
      var f := forms[|forms| - 1];
      assert forms == init + [f];
      var keys := GroupKeys(init);
      GroupsPartitionForms(init);
      GroupSizesSnoc(init, f, keys);
      if GroupKey(f.pos) !in keys {
        GroupSizesAppendKey(forms, keys, GroupKey(f.pos));
        GroupSizesSnoc(init, f, keys);
        GroupEmpty(init, GroupKey(f.pos));
      }
    }
  }

  // ---------------------------------------------------------------------
  // _save_to_answer

  /** The shape the field's cleaning gives a non-empty value. */
  predicate Fits(kind: FieldKind, v: Value) {
    match kind
    case MultipleChoiceField => v.VOptions?
    case ChoiceField => v.VOption?
    case _ => true
  }

  function Displays(os: seq<QOption>): seq<string> {
    seq(|os|, i requires 0 <= i < |os| => os[i].display)
  }

  function OptionPks(os: seq<QOption>): set<int> {
    set i | 0 <= i < |os| :: os[i].pk
  }

  /** `_save_to_answer`: what storing `v` through a field of `kind` makes of the answer. */
  function SaveToAnswer(kind: FieldKind, a: Answer, v: Value): (r: Answer)
    requires Fits(kind, v)
    ensures r.pk == a.pk && r.question == a.question && r.position == a.position
    ensures kind == MultipleChoiceField ==>
      r.answer == VText(Join(Displays(v.options), ", ")) &&
      forall pk :: pk in r.options <==> exists i :: 0 <= i < |v.options| && v.options[i].pk == pk
    ensures kind == ChoiceField ==> r.answer == VText(v.option.answer) && r.options == {v.option.pk}
    ensures kind == MultipleChoiceField || kind == ChoiceField ==> r.hasFile == a.hasFile
    ensures kind == FileField ==> (r.hasFile <==> a.hasFile || v.VUpload?) && r.options == a.options
    ensures kind == FileField && v.VUpload? ==> r.answer == VText("file://" + v.name)
    ensures kind == FileField && !v.VUpload? ==> r == a
    ensures kind == OtherField ==> r == a.(answer := v)
  {
    match kind
    case MultipleChoiceField => a.(answer := VText(Join(Displays(v.options), ", ")), options := OptionPks(v.options))
    case ChoiceField => a.(answer := VText(v.option.answer), options := {v.option.pk})
    case FileField =>
      if v.VUpload? then a.(answer := VText("file://" + v.name), hasFile := true) else a
    case OtherField => a.(answer := v)
  }

  /** Storing the same value a second time changes nothing. */
  lemma SaveToAnswerIdempotent(kind: FieldKind, a: Answer, v: Value)
    requires Fits(kind, v)
    ensures SaveToAnswer(kind, SaveToAnswer(kind, a, v), v) == SaveToAnswer(kind, a, v)
  {
  }

  // ---------------------------------------------------------------------
  // save

  /** The stored state of one position that `save` writes. */
  datatype PosState = PosState(
    nameParts: Value,
    email: Value,
    formData: Option<map<string, Value>>)   // `meta_info['question_form_data']`, if present

  /** Positions by primary key, answers by primary key, and the next free answer key. */
  datatype Db = Db(positions: map<int, PosState>, answers: map<int, Answer>, nextPk: int)

  /** Answers are stored under their own key, and every key is below the next free one. */
  predicate AnswersKeyed(db: Db) {
    forall pk :: pk in db.answers ==> db.answers[pk].pk == pk && pk < db.nextPk
  }

  const NamePartsKey: string := "attendee_name_parts"
  const EmailKey: string := "attendee_email"

  /** An entry that goes to a question answer rather than to the saved form data. */
  predicate IsAnswerEntry(e: Entry) {
    StartsWith(e.key, "question_") && e.value != VNone
  }

  /** An existing answer is deleted for an empty value, or for an unticked file. */
  predicate Deletes(f: Field, v: Value) {
    v == VText("") || (f.kind == FileField && v == VBool(false))
  }

  /**
   * What cleaned data looks like: keys are distinct, an answer entry has a
   * field of its own whose kind fits the value, and different fields hold
   * different stored answers.
   */
  predicate WellFormed(form: Form) {
    (forall i, j :: 0 <= i < j < |form.cleaned| ==> form.cleaned[i].key != form.cleaned[j].key) &&
    (forall i :: 0 <= i < |form.cleaned| && IsAnswerEntry(form.cleaned[i]) ==>
       form.cleaned[i].key in form.fields && Fits(form.fields[form.cleaned[i].key].kind, form.cleaned[i].value)) &&
    (forall k1, k2 ::
       (k1 in form.fields && k2 in form.fields && k1 != k2 &&
        form.fields[k1].cached.Some? && form.fields[k2].cached.Some?) ==>
       form.fields[k1].cached.value.pk != form.fields[k2].cached.value.pk)
  }

  predicate EntryOk(form: Form, e: Entry) {
    IsAnswerEntry(e) ==> e.key in form.fields && Fits(form.fields[e.key].kind, e.value)
  }

  /** Every entry of `es` can be stored through the form's fields. */
  predicate EntriesOk(form: Form, es: seq<Entry>) {
    forall e :: e in es ==> EntryOk(form, e)
  }

  /** Every stored answer a form's fields hold has a key below `n`. */
  predicate CachedBelow(form: Form, n: int) {
    forall k :: k in form.fields && form.fields[k].cached.Some? ==> form.fields[k].cached.value.pk < n
  }

  /** The new answer `save` creates for a question that had none. */
  function NewAnswer(db: Db, form: Form, f: Field): Answer {
    Answer(db.nextPk, f.question, form.pos.pk, VText(""), {}, false)
  }

  /** Stores one cleaned entry of a valid form. */
  function ApplyEntry(db: Db, form: Form, e: Entry): (r: Db)
    requires form.pos.pk in db.positions && EntryOk(form, e)
    ensures r.positions.Keys == db.positions.Keys
    ensures db.nextPk <= r.nextPk <= db.nextPk + 1
  {
    var pk := form.pos.pk;
    var p := db.positions[pk];
    var v := e.value;
    if e.key == NamePartsKey then
      db.(positions := db.positions[pk := p.(nameParts := if Truthy(v) then v else VNone)])
    else if e.key == EmailKey then
      db.(positions := db.positions[pk := p.(email := if v == VText("") then VNone else v)])
    else if IsAnswerEntry(e) then
      var f := form.fields[e.key];
      match f.cached
      case Some(a) =>
        if Deletes(f, v) then db.(answers := db.answers - {a.pk})
        else db.(answers := db.answers[a.pk := SaveToAnswer(f.kind, a, v)])
      case None =>
        if v != VText("") then
          db.(answers := db.answers[db.nextPk := SaveToAnswer(f.kind, NewAnswer(db, form, f), v)], nextPk := db.nextPk + 1)
        else db
    else
      var data := p.formData.GetOr(map[]);
      db.(positions := db.positions[pk := p.(formData := Some(if v == VNone then data - {e.key} else data[e.key := v]))])
  }

  /** Stores the cleaned entries in order. */
  function ApplyEntries(db: Db, form: Form, es: seq<Entry>): (r: Db)
    requires form.pos.pk in db.positions
    requires EntriesOk(form, es)
    ensures r.positions.Keys == db.positions.Keys
    ensures r.nextPk >= db.nextPk
  {
    if |es| == 0 then db
    else ApplyEntry(ApplyEntries(db, form, es[..|es| - 1]), form, es[|es| - 1])
  }

  /** A valid form stores its cleaned data; an invalid one stores nothing. */
  function SaveForm(db: Db, form: Form): (r: Db)
    requires form.pos.pk in db.positions && WellFormed(form)
    ensures r.positions.Keys == db.positions.Keys
    ensures r.nextPk >= db.nextPk
    ensures forall pk :: pk in db.positions && pk != form.pos.pk ==> r.positions[pk] == db.positions[pk]
    ensures !form.valid ==> r == db
  {
    if form.valid then
      ApplyEntriesKeepOthers(db, form, form.cleaned);
      ApplyEntries(db, form, form.cleaned)
    else db
  }

  /** Storing a form's entries leaves every other position as it was. */
  lemma {:induction false} ApplyEntriesKeepOthers(db: Db, form: Form, es: seq<Entry>)
    requires form.pos.pk in db.positions
    requires EntriesOk(form, es)
    ensures forall pk :: pk in db.positions && pk != form.pos.pk ==> ApplyEntries(db, form, es).positions[pk] == db.positions[pk]
    decreases |es|
  {
    if |es| > 0 {
      ApplyEntriesKeepOthers(db, form, es[..|es| - 1]);
    }
  }

  predicate FormsFit(db: Db, forms: seq<Form>) {
    forall i :: 0 <= i < |forms| ==> forms[i].pos.pk in db.positions && WellFormed(forms[i])
  }

  /** The forms saved in order. */
  function SaveAll(db: Db, forms: seq<Form>): (r: Db)
    requires FormsFit(db, forms)
    ensures r.positions.Keys == db.positions.Keys
    ensures r.nextPk >= db.nextPk
    ensures forall pk :: pk in db.positions && (forall i :: 0 <= i < |forms| ==> forms[i].pos.pk != pk) ==>
      r.positions[pk] == db.positions[pk]
  {
    if |forms| == 0 then db
    else
      var prev := SaveAll(db, forms[..|forms| - 1]);
      SaveForm(prev, forms[|forms| - 1])
  }

  /** When no form validates, saving stores nothing at all. */
  lemma {:induction false} SaveAllInvalid(db: Db, forms: seq<Form>)
    requires FormsFit(db, forms)
    requires forall i :: 0 <= i < |forms| ==> !forms[i].valid
    ensures SaveAll(db, forms) == db
    decreases |forms|
  {
    if |forms| > 0 {
      SaveAllInvalid(db, forms[..|forms| - 1]);
    }
  }

  /** Storing entries keeps answers under their own, allocated keys. */
  lemma ApplyEntryKeyed(db: Db, form: Form, e: Entry)
    requires form.pos.pk in db.positions && EntryOk(form, e)
    requires AnswersKeyed(db) && CachedBelow(form, db.nextPk)
    ensures AnswersKeyed(ApplyEntry(db, form, e))
  {
  }

  // ---------------------------------------------------------------------
  // What one entry writes

  /** A place `save` writes: an attendee field, a saved form value, or an answer. */
  datatype Slot = NameSlot | EmailSlot | DataSlot(key: string) | AnswerSlot(pk: int)

  datatype Stored = Absent | StoredValue(v: Value) | StoredAnswer(a: Answer)

  function Read(db: Db, pos: int, s: Slot): Stored
    requires pos in db.positions
  {
    var p := db.positions[pos];
    match s
    case NameSlot => StoredValue(p.nameParts)
    case EmailSlot => StoredValue(p.email)
    case DataSlot(k) => if p.formData.Some? && k in p.formData.value then StoredValue(p.formData.value[k]) else Absent
    case AnswerSlot(pk) => if pk in db.answers then StoredAnswer(db.answers[pk]) else Absent
  }

  /** The slot an entry writes, when it is known before saving (every entry but a new answer). */
  function SlotOf(form: Form, e: Entry): Option<Slot> {
    if e.key == NamePartsKey then Some(NameSlot)
    else if e.key == EmailKey then Some(EmailSlot)
    else if IsAnswerEntry(e) then
      if e.key in form.fields && form.fields[e.key].cached.Some? then Some(AnswerSlot(form.fields[e.key].cached.value.pk))
      else None
    else Some(DataSlot(e.key))
  }

  /** What the entry leaves in its slot. */
  function Expected(form: Form, e: Entry): Stored
    requires EntryOk(form, e)
  {
    var v := e.value;
    if e.key == NamePartsKey then StoredValue(if Truthy(v) then v else VNone)
    else if e.key == EmailKey then StoredValue(if v == VText("") then VNone else v)
    else if IsAnswerEntry(e) then
      var f := form.fields[e.key];
      if f.cached.Some? then
        if Deletes(f, v) then Absent else StoredAnswer(SaveToAnswer(f.kind, f.cached.value, v))
      else Absent
    else if v == VNone then Absent
    else StoredValue(v)
  }

  /** An entry writes its own slot as Expected says. */
  lemma ApplyEntryWrites(db: Db, form: Form, e: Entry)
    requires form.pos.pk in db.positions && EntryOk(form, e) && SlotOf(form, e).Some?
    ensures Read(ApplyEntry(db, form, e), form.pos.pk, SlotOf(form, e).value) == Expected(form, e)
  {
  }

  /**
   * An entry leaves every other slot alone, and every other position; a
   * new answer only takes the next free key.
   */
  lemma ApplyEntryFrame(db: Db, form: Form, e: Entry, pos: int, s: Slot)
    requires form.pos.pk in db.positions && EntryOk(form, e) && pos in db.positions
    requires pos != form.pos.pk || SlotOf(form, e) != Some(s)
    requires !s.AnswerSlot? || (s.pk < db.nextPk && SlotOf(form, e) != Some(s))
    ensures Read(ApplyEntry(db, form, e), pos, s) == Read(db, pos, s)
  {
  }

  /** Entries none of which writes `s` leave it alone. */
  lemma {:induction false} ApplyEntriesFrame(db: Db, form: Form, es: seq<Entry>, pos: int, s: Slot)
    requires form.pos.pk in db.positions && pos in db.positions
    requires EntriesOk(form, es)
    requires forall i :: 0 <= i < |es| ==> pos != form.pos.pk || SlotOf(form, es[i]) != Some(s)
    requires !s.AnswerSlot? || (s.pk < db.nextPk && forall i :: 0 <= i < |es| ==> SlotOf(form, es[i]) != Some(s))
    ensures Read(ApplyEntries(db, form, es), pos, s) == Read(db, pos, s)
    decreases |es|
  {
    if |es| > 0 {
      var init := es[..|es| - 1];
      ApplyEntriesFrame(db, form, init, pos, s);
      ApplyEntryFrame(ApplyEntries(db, form, init), form, es[|es| - 1], pos, s);
    }
  }

  lemma {:induction false} ApplyEntriesAppend(db: Db, form: Form, xs: seq<Entry>, ys: seq<Entry>)
    requires form.pos.pk in db.positions
    requires EntriesOk(form, xs) && EntriesOk(form, ys)
    ensures ApplyEntries(db, form, xs + ys) == ApplyEntries(ApplyEntries(db, form, xs), form, ys)
    decreases |ys|
  {
    if |ys| == 0 {
      assert xs + ys == xs;
    } else {
      var init := ys[..|ys| - 1];
      assert (xs + ys)[..|xs + ys| - 1] == xs + init;
      ApplyEntriesAppend(db, form, xs, init);
    }
  }

  /** Saving a valid form is: the entries before `i`, then entry `i`, then the entries after it. */
  lemma SaveFormSplit(db: Db, form: Form, i: int)
    requires form.pos.pk in db.positions && WellFormed(form) && form.valid
    requires 0 <= i < |form.cleaned|
    ensures var es := form.cleaned;
      SaveForm(db, form) == ApplyEntries(ApplyEntry(ApplyEntries(db, form, es[..i]), form, es[i]), form, es[i + 1..])
  {
    var es := form.cleaned;
    var xs, ys := es[..i + 1], es[i + 1..];
    assert es == xs + ys;
    ApplyEntriesAppend(db, form, xs, ys);
    assert xs[..i] == es[..i];
  }

  /**
   * After a valid form is saved, each cleaned entry whose slot is known
   * has left its slot as Expected says: later entries never overwrite it.
   */
  lemma SaveFormWrites(db: Db, form: Form, i: int)
    requires form.pos.pk in db.positions && WellFormed(form) && form.valid
    requires CachedBelow(form, db.nextPk)
    requires 0 <= i < |form.cleaned| && SlotOf(form, form.cleaned[i]).Some?
    ensures Read(SaveForm(db, form), form.pos.pk, SlotOf(form, form.cleaned[i]).value) == Expected(form, form.cleaned[i])
  {
    var es := form.cleaned;
    var s := SlotOf(form, es[i]).value;
    var before := ApplyEntries(db, form, es[..i]);
    var mid := ApplyEntry(before, form, es[i]);
    var ys := es[i + 1..];
    SaveFormSplit(db, form, i);
    ApplyEntryWrites(before, form, es[i]);
    LaterEntriesMissSlot(form, i);
    ApplyEntriesFrame(mid, form, ys, form.pos.pk, s);
  }

  /** The entries after one that writes a slot are all storable and write other slots. */
  lemma LaterEntriesMissSlot(form: Form, i: int)
    requires WellFormed(form)
    requires 0 <= i < |form.cleaned| && SlotOf(form, form.cleaned[i]).Some?
    ensures var ys := form.cleaned[i + 1..];
      forall j :: 0 <= j < |ys| ==> EntryOk(form, ys[j]) && SlotOf(form, ys[j]) != SlotOf(form, form.cleaned[i])
  {
    var ys := form.cleaned[i + 1..];
    forall j | 0 <= j < |ys| ensures EntryOk(form, ys[j]) && SlotOf(form, ys[j]) != SlotOf(form, form.cleaned[i]) {
      assert ys[j] == form.cleaned[i + 1 + j];
      SlotsDistinct(form, i, i + 1 + j);
    }
  }

  /** Distinct cleaned entries of a well-formed form write distinct slots. */
  lemma SlotsDistinct(form: Form, i: int, j: int)
    requires WellFormed(form)
    requires 0 <= i < |form.cleaned| && 0 <= j < |form.cleaned| && i != j
    requires SlotOf(form, form.cleaned[i]).Some?
    ensures SlotOf(form, form.cleaned[j]) != SlotOf(form, form.cleaned[i])
  {
    var a, b := form.cleaned[i], form.cleaned[j];
    assert a.key != b.key;
  }

  /**
   * A question without a stored answer gets a new one under the next free
   * key, for the form's question and position, unless the value is empty.
   */
  lemma NewAnswerIsFresh(db: Db, form: Form, e: Entry)
    requires form.pos.pk in db.positions && EntryOk(form, e) && AnswersKeyed(db)
    requires IsAnswerEntry(e) && e.key != NamePartsKey && e.key != EmailKey && form.fields[e.key].cached.None?
    ensures var r := ApplyEntry(db, form, e);
      db.nextPk !in db.answers &&
      (e.value == VText("") ==> r == db) &&
      (e.value != VText("") ==>
         r.nextPk == db.nextPk + 1 && r.answers.Keys == db.answers.Keys + {db.nextPk} &&
         r.answers[db.nextPk].question == form.fields[e.key].question &&
         r.answers[db.nextPk].position == form.pos.pk)
  {
  }

  lemma SaveAllStep(db: Db, forms: seq<Form>, i: int)
    requires FormsFit(db, forms) && 0 <= i < |forms|
    ensures FormsFit(db, forms[..i]) && FormsFit(db, forms[..i + 1])
    ensures forms[i].pos.pk in SaveAll(db, forms[..i]).positions && WellFormed(forms[i])
    ensures SaveAll(db, forms[..i + 1]) == SaveForm(SaveAll(db, forms[..i]), forms[i])
  {
    assert forms[..i + 1][..i] == forms[..i];
  }

  /** Every form validates (`form.is_valid()` for each). */
  predicate AllValid(forms: seq<Form>) {
    forall i :: 0 <= i < |forms| ==> forms[i].valid
  }

  lemma AllValidSnoc(forms: seq<Form>, i: int)
    requires 0 <= i < |forms|
    ensures AllValid(forms[..i + 1]) <==> AllValid(forms[..i]) && forms[i].valid
  {
    assert forms[..i + 1] == forms[..i] + [forms[i]];
  }

  /** An invalid form leaves the saved state as the forms before it left it. */
  lemma SaveAllSkip(db: Db, forms: seq<Form>, i: int)
    requires FormsFit(db, forms) && 0 <= i < |forms| && !forms[i].valid
    ensures FormsFit(db, forms[..i]) && FormsFit(db, forms[..i + 1])
    ensures SaveAll(db, forms[..i + 1]) == SaveAll(db, forms[..i])
  {
    SaveAllStep(db, forms, i);
  }

  /** Storing one more cleaned entry extends the stored prefix by that entry. */
  lemma ApplyEntriesStep(db: Db, form: Form, j: int)
    requires form.pos.pk in db.positions && WellFormed(form) && 0 <= j < |form.cleaned|
    ensures EntryOk(form, form.cleaned[j])
    ensures ApplyEntries(db, form, form.cleaned[..j + 1]) == ApplyEntry(ApplyEntries(db, form, form.cleaned[..j]), form, form.cleaned[j])
  {
    assert form.cleaned[..j + 1][..j] == form.cleaned[..j];
  }

  lemma CachedBelowMonotone(form: Form, n: int, m: int)
    requires CachedBelow(form, n) && n <= m
    ensures CachedBelow(form, m)
  {
  }

  // ---------------------------------------------------------------------
  // The stored positions and answers, updated in place

  class QuestionStore {
    var positions: map<int, PosState>
    var answers: map<int, Answer>
    var nextPk: int

    function State(): Db
      reads this
    {
      Db(positions, answers, nextPk)
    }

    predicate Valid()
      reads this
    {
      AnswersKeyed(State())
    }

    constructor (db: Db)
      requires AnswersKeyed(db)
      ensures State() == db && Valid()
    {
      positions, answers, nextPk := db.positions, db.answers, db.nextPk;
    }

    /** Stores one cleaned entry of a valid form (the body of the inner loop of `save`). */
    method SaveEntry(form: Form, e: Entry)
      requires form.pos.pk in positions && EntryOk(form, e)
      requires Valid() && CachedBelow(form, nextPk)
      modifies this
      ensures State() == ApplyEntry(old(State()), form, e)
      ensures Valid()
    {
      ApplyEntryKeyed(State(), form, e);
      var pk := form.pos.pk;
      var p := positions[pk];
      var v := e.value;
      if e.key == NamePartsKey {
        positions := positions[pk := p.(nameParts := if Truthy(v) then v else VNone)];
      } else if e.key == EmailKey {
        positions := positions[pk := p.(email := if v == VText("") then VNone else v)];
      } else if IsAnswerEntry(e) {
        var f := form.fields[e.key];
        match f.cached
        case Some(a) =>
          if Deletes(f, v) {
            answers := answers - {a.pk};
          } else {
            answers := answers[a.pk := SaveToAnswer(f.kind, a, v)];
          }
        case None =>
          if v != VText("") {
            var created := SaveToAnswer(f.kind, Answer(nextPk, f.question, pk, VText(""), {}, false), v);
            answers := answers[nextPk := created];
            nextPk := nextPk + 1;
          }
      } else {
        var data := p.formData.GetOr(map[]);
        if v == VNone {
          data := data - {e.key};
        } else {
          data := data[e.key := v];
        }
        positions := positions[pk := p.(formData := Some(data))];
      }
    }

    /** Stores the cleaned data of one valid form (the inner loop of `save`). */
    method SaveValidForm(form: Form)
      requires form.pos.pk in positions && WellFormed(form) && form.valid
      requires Valid() && CachedBelow(form, nextPk)
      modifies this
      ensures State() == SaveForm(old(State()), form)
      ensures Valid()
    {
      ghost var db := State();
      for j := 0 to |form.cleaned|
        invariant Valid() && form.pos.pk in positions && nextPk >= db.nextPk
        invariant State() == ApplyEntries(db, form, form.cleaned[..j])
      {
        ApplyEntriesStep(db, form, j);
        CachedBelowMonotone(form, db.nextPk, nextPk);
        SaveEntry(form, form.cleaned[j]);
      }
      assert form.cleaned[..|form.cleaned|] == form.cleaned;
    }

    /** One turn of the outer loop of `save`, for a valid form. */
    method SaveFormAt(ghost db: Db, forms: seq<Form>, i: int)
      requires FormsFit(db, forms) && 0 <= i < |forms| && forms[i].valid
      requires forall j :: 0 <= j < |forms| ==> CachedBelow(forms[j], db.nextPk)
      requires Valid() && nextPk >= db.nextPk && State() == SaveAll(db, forms[..i])
      modifies this
      ensures Valid() && nextPk >= db.nextPk
      ensures FormsFit(db, forms[..i + 1]) && State() == SaveAll(db, forms[..i + 1])
    {
      SaveAllStep(db, forms, i);
      CachedBelowMonotone(forms[i], db.nextPk, nextPk);
      SaveValidForm(forms[i]);
    }

    /**
     * `save`: stores every valid form in turn and reports whether all of
     * them were valid.
     */
    method Save(forms: seq<Form>) returns (ok: bool)
      requires Valid() && FormsFit(State(), forms)
      requires forall i :: 0 <= i < |forms| ==> CachedBelow(forms[i], nextPk)
      modifies this
      ensures Valid()
      ensures ok <==> AllValid(forms)
      ensures State() == SaveAll(old(State()), forms)
    {
      ghost var db := State();
      var failed := false;
      for i := 0 to |forms|
        invariant Valid() && nextPk >= db.nextPk
        invariant FormsFit(db, forms[..i])
        invariant State() == SaveAll(db, forms[..i])
        invariant !failed <==> AllValid(forms[..i])
      {
        AllValidSnoc(forms, i);
        if !forms[i].valid {
          failed := true;
          SaveAllSkip(db, forms, i);
        } else {
          SaveFormAt(db, forms, i);
        }
      }
      assert forms[..|forms|] == forms;
      ok := !failed;
    }
  }
}
