/** The quote editor: the working quote it holds, the operations on its item
    list, the total, and the submission that seals a snapshot and appends it to
    the store. */
module QuoteForm {
  import opened Quotes

  /** The item `addItem` appends and the form starts with. */
  const BlankItem := QuoteItem("", 1, 0)

  /** The company data of a form that was not seeded. */
  const EmptyCompany := CompanyData("", "", "", "")

  /** The `initialData` prop: the five fields a form can be seeded with. */
  datatype InitialData = InitialData(
    clientName: string,
    clientPhone: string,
    items: seq<QuoteItem>,
    notes: string,
    companyData: CompanyData)

  /** The part of a quote object the form reads when it is passed as `initialData`;
      its total, date and document type are ignored. */
  function SeedFrom(q: QuoteData): (d: InitialData)
    ensures d.clientName == q.clientName && d.clientPhone == q.clientPhone
    ensures d.items == q.items && d.notes == q.notes && d.companyData == q.companyData
  {
    InitialData(q.clientName, q.clientPhone, q.items, q.notes, q.companyData)
  }

  // ---------------------------------------------------------------------------
  // Item operations

  /** `addItem`: one blank item after all existing ones. */
  function AppendBlank(items: seq<QuoteItem>): (r: seq<QuoteItem>)
    ensures |r| == |items| + 1
    ensures r[..|items|] == items && r[|items|] == BlankItem
  {
    items + [BlankItem]
  }

  /** The `filter((_, i) => i !== index)` walk: `at` is the position in the whole
      list of the head of `s`, and the element at position `index` is dropped. */
  function KeepOthers(s: seq<QuoteItem>, index: int, at: int): (r: seq<QuoteItem>)
    ensures |r| == if at <= index < at + |s| then |s| - 1 else |s|
    decreases |s|
  {
    if s == [] then []
    else (if at == index then [] else [s[0]]) + KeepOthers(s[1..], index, at + 1)
  }

  /** `removeItem(index)`: no guard, so any integer is accepted. */
  function RemoveAt(items: seq<QuoteItem>, index: int): (r: seq<QuoteItem>)
    ensures 0 <= index < |items| ==> r == items[..index] + items[index + 1..]
    ensures !(0 <= index < |items|) ==> r == items
  {
    KeepOthersSlices(items, index, 0);
    KeepOthers(items, index, 0)
  }

  lemma {:induction false} KeepOthersSlices(s: seq<QuoteItem>, index: int, at: int)
    ensures KeepOthers(s, index, at)
         == if at <= index < at + |s| then s[..index - at] + s[index - at + 1..] else s
    decreases |s|
  {
    if s != [] {
      var rest := KeepOthers(s[1..], index, at + 1);
      assert KeepOthers(s, index, at) == (if at == index then [] else [s[0]]) + rest;
      KeepOthersSlices(s[1..], index, at + 1);
      if at == index {
        assert s[..0] + s[1..] == s[1..];
      } else if at < index < at + |s| {
        var j := index - at;
        assert rest == s[1..][..j - 1] + s[1..][j..];
        assert s[1..][..j - 1] == s[1..j] && s[1..][j..] == s[j + 1..];
        assert [s[0]] + s[1..j] == s[..j];
      } else {
        assert [s[0]] + s[1..] == s;
      }
    }
  }

  /** Position by position: removing an in-range item makes the list one
      shorter, keeps the items before it and shifts the ones after it down by
      one; no item before `index` ever moves. */
  lemma RemoveItemSpec(items: seq<QuoteItem>, index: int)
    ensures 0 <= index < |items| ==> |RemoveAt(items, index)| == |items| - 1
    ensures forall k :: 0 <= k < |items| && k < index ==> RemoveAt(items, index)[k] == items[k]
    ensures 0 <= index < |items| ==>
      forall k :: index <= k < |items| - 1 ==> RemoveAt(items, index)[k] == items[k + 1]
  {
    KeepOthersSlices(items, index, 0);
  }

  /** The value an `updateItem` call writes, tagged by the field it writes:
      the description text, the parsed quantity or the parsed price. */
  datatype ItemEdit = EditDescription(text: string) | EditQuantity(count: int) | EditPrice(cents: Cents)

  /** `{ ...item, [field]: value }`: the named field replaced, the others kept. */
  function Edited(item: QuoteItem, edit: ItemEdit): (r: QuoteItem)
    ensures edit.EditDescription? ==>
      r.description == edit.text && r.quantity == item.quantity && r.price == item.price
    ensures edit.EditQuantity? ==>
      r.quantity == edit.count && r.description == item.description && r.price == item.price
    ensures edit.EditPrice? ==>
      r.price == edit.cents && r.description == item.description && r.quantity == item.quantity
  {
    match edit
    case EditDescription(t) => item.(description := t)
    case EditQuantity(n) => item.(quantity := n)
    case EditPrice(p) => item.(price := p)
  }

  /** `updateItem(index, field, value)`: only item `index` changes. */
  function UpdateAt(items: seq<QuoteItem>, index: int, edit: ItemEdit): (r: seq<QuoteItem>)
    requires 0 <= index < |items|
    ensures |r| == |items|
    ensures r[index] == Edited(items[index], edit)
    ensures forall k :: 0 <= k < |items| && k != index ==> r[k] == items[k]
  {
    items[index := Edited(items[index], edit)]
  }

  // ---------------------------------------------------------------------------
  // The total

  /** `reduce((sum, item) => sum + item.quantity * item.price, sum)`: a left fold. */
  function Reduce(sum: Cents, items: seq<QuoteItem>): (total: Cents)
    decreases |items|
  {
    if items == [] then sum else Reduce(sum + LineTotal(items[0]), items[1..])
  }

  /** `calculateTotal`: the fold started from zero. */
  function CalculateTotal(items: seq<QuoteItem>): (total: Cents)
    ensures total == SumOfLines(items)
  {
    ReduceIsSum(0, items);
    Reduce(0, items)
  }

  /** Reference definition of the total: the sum of the line totals. */
  function SumOfLines(items: seq<QuoteItem>): (total: Cents)
  {
    if items == [] then 0 else LineTotal(items[0]) + SumOfLines(items[1..])
  }

  lemma {:induction false} ReduceIsSum(sum: Cents, items: seq<QuoteItem>)
    ensures Reduce(sum, items) == sum + SumOfLines(items)
    decreases |items|
  {
    if items != [] {
      ReduceIsSum(sum + LineTotal(items[0]), items[1..]);
    }
  }

  lemma {:induction false} SumOfLinesConcat(a: seq<QuoteItem>, b: seq<QuoteItem>)
    ensures SumOfLines(a + b) == SumOfLines(a) + SumOfLines(b)
    decreases |a|
  {
    if a == [] {
      assert a + b == b;
    } else {
      assert (a + b)[1..] == a[1..] + b;
      SumOfLinesConcat(a[1..], b);
    }
  }

  /** The total is additive over concatenation of item lists. */
  lemma TotalConcat(a: seq<QuoteItem>, b: seq<QuoteItem>)
    ensures CalculateTotal(a + b) == CalculateTotal(a) + CalculateTotal(b)
  {
    SumOfLinesConcat(a, b);
  }

  lemma TotalOfOne(item: QuoteItem)
    ensures CalculateTotal([item]) == LineTotal(item)
  {
    assert [item][1..] == [];
    assert SumOfLines([item]) == LineTotal(item) + SumOfLines([]);
  }

  /** A blank item is worth nothing, so `addItem` keeps the total. */
  lemma AddItemKeepsTotal(items: seq<QuoteItem>)
    ensures CalculateTotal(AppendBlank(items)) == CalculateTotal(items)
  {
    TotalConcat(items, [BlankItem]);
    TotalOfOne(BlankItem);
  }

  /** Removing an in-range item takes its line total off the total. */
  lemma RemoveItemTotal(items: seq<QuoteItem>, index: int)
    ensures CalculateTotal(RemoveAt(items, index))
         == if 0 <= index < |items| then CalculateTotal(items) - LineTotal(items[index])
            else CalculateTotal(items)
  {
    RemoveItemSpec(items, index);
    if 0 <= index < |items| {
      var front, back := items[..index], items[index + 1..];
      assert items == front + ([items[index]] + back);
      TotalConcat(front, [items[index]] + back);
      TotalConcat([items[index]], back);
      TotalConcat(front, back);
      TotalOfOne(items[index]);
    }
  }

  /** Editing one item changes the total by the change in that item's line total. */
  lemma UpdateItemTotal(items: seq<QuoteItem>, index: int, edit: ItemEdit)
    requires 0 <= index < |items|
    ensures CalculateTotal(UpdateAt(items, index, edit))
         == CalculateTotal(items) - LineTotal(items[index]) + LineTotal(Edited(items[index], edit))
  {
    var r := UpdateAt(items, index, edit);
    var front, back := items[..index], items[index + 1..];
    assert items == front + ([items[index]] + back);
    assert r == front + ([r[index]] + back);
    TotalConcat(front, [items[index]] + back);
    TotalConcat([items[index]], back);
    TotalConcat(front, [r[index]] + back);
    TotalConcat([r[index]], back);
    TotalOfOne(items[index]);
    TotalOfOne(r[index]);
  }

  // ---------------------------------------------------------------------------
  // What the rendered form lets an operator do to the item list

  /** A click or an edit on the item list. */
  datatype ItemAction = ClickAdd | ClickRemove(index: int) | ChangeItem(index: int, edit: ItemEdit)

  /** Whether the form offers `a`: "add" always; the remove button of a row only
      while there is more than one item; edits only on rendered rows. */
  predicate Offered(items: seq<QuoteItem>, a: ItemAction)
  {
    match a
    case ClickAdd => true
    case ClickRemove(i) => |items| > 1 && 0 <= i < |items|
    case ChangeItem(i, _) => 0 <= i < |items|
  }

  function Perform(items: seq<QuoteItem>, a: ItemAction): (r: seq<QuoteItem>)
    requires Offered(items, a)
  {
    match a
    case ClickAdd => AppendBlank(items)
    case ClickRemove(i) => RemoveAt(items, i)
    case ChangeItem(i, e) => UpdateAt(items, i, e)
  }

  /** The item list after a sequence of actions, or `None` if one of them was
      not offered at the point it was taken. */
  function Replay(items: seq<QuoteItem>, trace: seq<ItemAction>): (r: Option<seq<QuoteItem>>)
    decreases |trace|
  {
    if trace == [] then Some(items)
    else if !Offered(items, trace[0]) then None
    else Replay(Perform(items, trace[0]), trace[1..])
  }

  /** Driven through the rendered form, the item list never becomes empty. */
  lemma {:induction false} UiKeepsAnItem(items: seq<QuoteItem>, trace: seq<ItemAction>)
    requires |items| >= 1
    ensures Replay(items, trace).Some? ==> |Replay(items, trace).value| >= 1
    decreases |trace|
  {
    if trace != [] && Offered(items, trace[0]) {
      var a := trace[0];
      if a.ClickRemove? {
        RemoveItemSpec(items, a.index);
      }
      UiKeepsAnItem(Perform(items, a), trace[1..]);
    }
  }

  // ---------------------------------------------------------------------------
  // The component

  /** The editor component: five pieces of state that event handlers replace. */
  class Form {
    var clientName: string
    var clientPhone: string
    var items: seq<QuoteItem>
    var notes: string
    var companyData: CompanyData

    /** The five state fields, in the shape of `initialData`. */
    function Fields(): (f: InitialData)
      reads this
    {
      InitialData(clientName, clientPhone, items, notes, companyData)
    }

    /** Mounting: the default state, then the seeding effect when `initialData`
        is given. */
    constructor (initialData: Option<InitialData>)
      ensures initialData.None? ==>
        Fields() == InitialData("", "", [BlankItem], "", EmptyCompany)
      ensures initialData.Some? ==> Fields() == initialData.value
    {
      if initialData.Some? {
        var d := initialData.value;
        clientName, clientPhone, items, notes, companyData :=
          d.clientName, d.clientPhone, d.items, d.notes, d.companyData;
      } else {
        clientName, clientPhone, items, notes, companyData :=
          "", "", [BlankItem], "", EmptyCompany;
      }
    }

    method SetClientName(value: string)
      modifies this
      ensures Fields() == old(Fields()).(clientName := value)
    {
      clientName := value;
    }

    method SetClientPhone(value: string)
      modifies this
      ensures Fields() == old(Fields()).(clientPhone := value)
    {
      clientPhone := value;
    }

    method SetNotes(value: string)
      modifies this
      ensures Fields() == old(Fields()).(notes := value)
    {
      notes := value;
    }

    method SetCompanyName(value: string)
      modifies this
      ensures Fields() == old(Fields()).(companyData := old(companyData).(name := value))
    {
      companyData := companyData.(name := value);
    }

    method SetCompanyPhone(value: string)
      modifies this
      ensures Fields() == old(Fields()).(companyData := old(companyData).(phone := value))
    {
      companyData := companyData.(phone := value);
    }

    method SetCompanyAddress(value: string)
      modifies this
      ensures Fields() == old(Fields()).(companyData := old(companyData).(address := value))
    {
      companyData := companyData.(address := value);
    }

    method SetCompanyCnpj(value: string)
      modifies this
      ensures Fields() == old(Fields()).(companyData := old(companyData).(cnpj := value))
    {
      companyData := companyData.(cnpj := value);
    }

    method AddItem()
      modifies this
      ensures Fields() == old(Fields()).(items := AppendBlank(old(items)))
      ensures CalculateTotal(items) == CalculateTotal(old(items))
    {
      AddItemKeepsTotal(items);
      items := AppendBlank(items);
    }

    method RemoveItem(index: int)
      modifies this
      ensures Fields() == old(Fields()).(items := RemoveAt(old(items), index))
      ensures 0 <= index < |old(items)| ==>
        items == old(items)[..index] + old(items)[index + 1..]
      ensures !(0 <= index < |old(items)|) ==> items == old(items)
    {
      items := RemoveAt(items, index);
    }

    /** Copies the list into a fresh array, overwrites one slot, and stores the copy. */
    method UpdateItem(index: int, edit: ItemEdit)
      requires 0 <= index < |items|
      modifies this
      ensures Fields() == old(Fields()).(items := UpdateAt(old(items), index, edit))
    {
      var current := items;
      var newItems := new QuoteItem[|current|](k requires 0 <= k < |current| => current[k]);
      newItems[index] := Edited(newItems[index], edit);
      items := newItems[..];
    }

    /** The record `handleSubmit` builds, stamped with the time `now`. */
    function Snapshot(now: string): (q: QuoteData)
      reads this
      ensures q.clientName == clientName && q.clientPhone == clientPhone
      ensures q.items == items && q.notes == notes && q.companyData == companyData
      ensures q.total == SumOfLines(items)
      ensures q.date == now && q.documentType == None
    {
      QuoteData(clientName, clientPhone, items, notes, CalculateTotal(items), now, companyData, None)
    }

    /** `handleSubmit`: no validation; the snapshot is appended to `store`, and
        only when the append succeeds is it handed to the completion callback
        (returned as `generated`). The form's own state never changes. */
    method Submit(now: string, store: seq<QuoteData>, appendSucceeds: bool)
      returns (newStore: seq<QuoteData>, generated: Option<QuoteData>)
      ensures appendSucceeds ==>
        newStore == store + [Snapshot(now)] && generated == Some(Snapshot(now))
      ensures !appendSucceeds ==> newStore == store && generated == None
    {
      var quoteData := Snapshot(now);
      if appendSucceeds {
        newStore := store + [quoteData];
        generated := Some(quoteData);
      } else {
        newStore := store;
        generated := None;
      }
    }
  }

  /** Entering edit mode on a submitted quote and submitting at once appends a
      new record with the same client, items, notes and company, and the total
      recomputed from those items. */
  method ResubmitUnchanged(q: QuoteData, now: string, store: seq<QuoteData>, appendSucceeds: bool)
    returns (newStore: seq<QuoteData>, generated: Option<QuoteData>)
    ensures generated.Some? <==> appendSucceeds
    ensures appendSucceeds ==> |newStore| == |store| + 1 && newStore[..|store|] == store
    ensures !appendSucceeds ==> newStore == store
    ensures generated.Some? ==>
      var g := generated.value;
      g.clientName == q.clientName && g.clientPhone == q.clientPhone &&
      g.items == q.items && g.notes == q.notes && g.companyData == q.companyData &&
      g.total == SumOfLines(q.items) && g.date == now &&
      (q.total == CalculateTotal(q.items) ==> g.total == q.total) &&
      newStore[|store|] == g
  {
    var form := new Form(Some(SeedFrom(q)));
    newStore, generated := form.Submit(now, store, appendSucceeds);
  }
}
