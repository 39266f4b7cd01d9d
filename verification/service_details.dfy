/** The booking form of the service page (frontend/src/pages/ServiceDetails.jsx): its field
    updates, the selection toggle, the price total and the checks made before posting. */
module ServiceDetails {
  import opened Common
  import opened Seqs

  /** An entry of `selectedServices`. The main service is built with `_id` and
      `isMainService`, an add-on with `extraServiceId` and `description` and no `_id`. */
  datatype Item = Item(
    id: Option<Id>,
    title: string,
    basePrice: int,
    description: Option<string>,
    isMainService: bool,
    extraServiceId: Option<string>)

  /** The value of a plain form field: text inputs hold strings, the checkbox a boolean. */
  datatype Value = Text(s: string) | Flag(b: bool)

  predicate TruthyValue(v: Value)
  {
    match v
    case Text(s) => s != ""
    case Flag(b) => b
  }

  /** `formData`: the plain fields by name, and the selection list. */
  datatype Form = Form(fields: map<string, Value>, selectedServices: seq<Item>)

  /** The initial `formData`. */
  function InitialForm(): (f: Form)
    ensures f.selectedServices == []
    ensures "notRobot" in f.fields && !TruthyValue(f.fields["notRobot"])
  {
    Form(map["name" := Text(""), "email" := Text(""), "phone" := Text(""), "date" := Text(""),
             "notes" := Text(""), "location" := Text(""), "notRobot" := Flag(false)], [])
  }

  /** `handleChange`: the field named by the input becomes its `checked` state for a checkbox and
      its `value` otherwise. No input of the page is named `selectedServices`. */
  function HandleChange(f: Form, name: string, inputType: string, value: string, checked: bool): (g: Form)
    requires name != "selectedServices"
    ensures name in g.fields && g.fields[name] == (if inputType == "checkbox" then Flag(checked) else Text(value))
    ensures forall k :: k in f.fields && k != name ==> k in g.fields && g.fields[k] == f.fields[k]
    ensures g.fields.Keys == f.fields.Keys + {name}
    ensures g.selectedServices == f.selectedServices
  {
    f.(fields := f.fields[name := if inputType == "checkbox" then Flag(checked) else Text(value)])
  }

  /** The toggle, for the identity `key` the entries are compared by: when some entry has the
      toggled item's key, every entry with that key is dropped; otherwise the item is appended. */
  function ToggleBy<K(==)>(s: seq<Item>, item: Item, key: Item -> K): (r: seq<Item>)
    ensures (exists x :: x in s && key(x) == key(item)) ==>
              r == Filter(s, x => key(x) != key(item))
    ensures !(exists x :: x in s && key(x) == key(item)) ==> r == s + [item]
  {
    if exists x :: x in s && key(x) == key(item) then Filter(s, x => key(x) != key(item))
    else s + [item]
  }

  /** Dropping: nothing with the item's key is left, and the rest keep their order. */
  lemma ToggleByDrops<K>(s: seq<Item>, item: Item, key: Item -> K)
    requires exists x :: x in s && key(x) == key(item)
    ensures forall x :: x in ToggleBy(s, item, key) <==> x in s && key(x) != key(item)
    ensures SubsequenceOf(ToggleBy(s, item, key), s)
  {
  }

  /** Toggling an item whose key is not selected, and then toggling it again, gives back the
      selection. */
  lemma {:induction false} ToggleByTwice<K>(s: seq<Item>, item: Item, key: Item -> K)
    requires !exists x :: x in s && key(x) == key(item)
    ensures ToggleBy(ToggleBy(s, item, key), item, key) == s
  {
    var t := s + [item];
    assert item in t;
    var p := (x: Item) => key(x) != key(item);
    FilterAppend(s, [item], p);
    FilterKeepsAll(s, p);
    assert Filter([item], p) == [];
  }

  /** The page's identity of an entry: its `_id` (`s._id === service._id`). */
  function ItemId(x: Item): Option<Id>
  {
    x.id
  }

  /** `handleServiceToggle` on the selection. */
  function ToggleSelection(s: seq<Item>, item: Item): (r: seq<Item>)
    ensures (exists x :: x in s && x.id == item.id) ==>
              forall x :: x in r <==> x in s && x.id != item.id
    ensures !(exists x :: x in s && x.id == item.id) ==> r == s + [item]
  {
    var r := ToggleBy(s, item, ItemId);
    if exists x :: x in s && ItemId(x) == ItemId(item) then
      ToggleByDrops(s, item, ItemId);
      r
    else r
  }

  /** Toggling an item whose `_id` is not selected, and then toggling it again, gives back the
      selection. */
  lemma ToggleSelectionTwice(s: seq<Item>, item: Item)
    requires !exists x :: x in s && x.id == item.id
    ensures ToggleSelection(ToggleSelection(s, item), item) == s
  {
    ToggleByTwice(s, item, ItemId);
  }

  /** The add-on entry the page builds for the extra service at `index`. */
  function AddOn(index: string, title: string, price: int, description: Option<string>): (x: Item)
    ensures x.id.None? && x.extraServiceId == Some("extra-" + index)
  {
    Item(None, title, price, description, false, Some("extra-" + index))
  }

  /** Add-ons have no `_id`, so they all compare equal under `ItemId`: with one add-on selected,
      toggling a different add-on removes the first instead of adding the second. */
  lemma ToggleAddOnsCollide(a: Item, b: Item)
    requires a.id.None? && b.id.None? && a != b
    ensures ToggleSelection([a], b) == []
    ensures b !in ToggleSelection([a], b)
  {
    assert a in [a];
  }

  /** What the selection's checkboxes compare by: an entry with an `extraServiceId` (an add-on)
      by that id, any other entry (the main service) by its `_id`. */
  datatype SelectionKey = MainKey(id: Option<Id>) | ExtraKey(extraServiceId: string)

  function KeyOf(x: Item): SelectionKey
  {
    if x.extraServiceId.Some? then ExtraKey(x.extraServiceId.value) else MainKey(x.id)
  }

  /** The toggle matching entries as the checkboxes identify them. */
  function ToggleSelectionByKey(s: seq<Item>, item: Item): (r: seq<Item>)
    ensures (exists x :: x in s && KeyOf(x) == KeyOf(item)) ==>
              forall x :: x in r <==> x in s && KeyOf(x) != KeyOf(item)
    ensures !(exists x :: x in s && KeyOf(x) == KeyOf(item)) ==> r == s + [item]
  {
    var r := ToggleBy(s, item, KeyOf);
    if exists x :: x in s && KeyOf(x) == KeyOf(item) then
      ToggleByDrops(s, item, KeyOf);
      r
    else r
  }

  /** With the checkbox identity, add-ons at different indices accumulate, and toggling one
      twice restores the selection. */
  lemma AddOnsAccumulate(i: string, j: string, t1: string, t2: string, p1: int, p2: int)
    requires i != j
    ensures var a := AddOn(i, t1, p1, None);
            var b := AddOn(j, t2, p2, None);
            ToggleSelectionByKey([a], b) == [a, b] && ToggleSelectionByKey([a, b], b) == [a]
  {
    var a := AddOn(i, t1, p1, None);
    var b := AddOn(j, t2, p2, None);
    assert "extra-" + i != "extra-" + j by {
      assert ("extra-" + i)[6..] == i && ("extra-" + j)[6..] == j;
    }
    assert !exists x :: x in [a] && KeyOf(x) == KeyOf(b);
    ToggleByTwice([a], b, KeyOf);
  }

  /** `handleServiceToggle`: only `selectedServices` changes; every plain field is kept. The
      selection is toggled by the checkbox identity (see `ToggleSelectionByKey`). */
  function HandleServiceToggle(f: Form, item: Item): (g: Form)
    ensures g.fields == f.fields
    ensures g.selectedServices == ToggleSelectionByKey(f.selectedServices, item)
  {
    f.(selectedServices := ToggleSelectionByKey(f.selectedServices, item))
  }

  /** Toggling an unselected item twice restores the form. */
  lemma ToggleTwiceRestores(f: Form, item: Item)
    requires !exists x :: x in f.selectedServices && KeyOf(x) == KeyOf(item)
    ensures HandleServiceToggle(HandleServiceToggle(f, item), item) == f
  {
    ToggleByTwice(f.selectedServices, item, KeyOf);
  }

  /** `selectedServices.reduce((sum, s) => sum + s.basePrice, 0)`. */
  function Total(s: seq<Item>): (t: int)
    ensures s == [] ==> t == 0
    ensures (forall x :: x in s ==> x.basePrice >= 0) ==> t >= 0
    decreases |s|
  {
    if s == [] then 0 else Total(s[..|s| - 1]) + s[|s| - 1].basePrice
  }

  lemma {:induction false} TotalAppend(s: seq<Item>, t: seq<Item>)
    ensures Total(s + t) == Total(s) + Total(t)
    decreases |t|
  {
    if t == [] {
      assert s + t == s;
    } else {
      assert (s + t)[..|s + t| - 1] == s + t[..|t| - 1];
      TotalAppend(s, t[..|t| - 1]);
    }
  }

  /** Selecting a new item adds its price to the total. */
  lemma ToggleTotal(s: seq<Item>, item: Item)
    requires !exists x :: x in s && KeyOf(x) == KeyOf(item)
    ensures Total(ToggleSelectionByKey(s, item)) == Total(s) + item.basePrice
  {
    TotalAppend(s, [item]);
  }

  /** The request body of a booking: the form, the service and vendor ids, and the total. */
  datatype BookingRequest = BookingRequest(form: Form, serviceId: Option<Id>, vendorId: Option<Id>, totalPrice: int)

  /** The details fetched for the page; `null` until the fetch completes. */
  datatype Details = Details(vendorId: Option<Id>)

  datatype SubmitOutcome =
    | NotRobot            // "Please verify you are not a robot"
    | NothingSelected     // "Please select at least one service"
    | SubmitFailed        // reading `vendorId` of null throws inside the try
    | Post(request: BookingRequest)

  /** `handleSubmit` up to the post: the robot check comes first, then the empty selection; both
      stop before anything is sent. */
  function HandleSubmit(f: Form, serviceId: Option<Id>, details: Option<Details>): (o: SubmitOutcome)
    ensures !("notRobot" in f.fields && TruthyValue(f.fields["notRobot"])) ==> o == NotRobot
    ensures "notRobot" in f.fields && TruthyValue(f.fields["notRobot"]) && f.selectedServices == [] ==> o == NothingSelected
    ensures o.Post? <==> "notRobot" in f.fields && TruthyValue(f.fields["notRobot"]) && f.selectedServices != [] && details.Some?
    ensures o.Post? ==> o.request == BookingRequest(f, serviceId, details.value.vendorId, Total(f.selectedServices))
  {
    if !("notRobot" in f.fields && TruthyValue(f.fields["notRobot"])) then NotRobot
    else if |f.selectedServices| == 0 then NothingSelected
    else if details.None? then SubmitFailed
    else Post(BookingRequest(f, serviceId, details.value.vendorId, Total(f.selectedServices)))
  }

  /** The initial form cannot be posted. */
  lemma InitialFormRejected(serviceId: Option<Id>, details: Option<Details>)
    ensures HandleSubmit(InitialForm(), serviceId, details) == NotRobot
  {
  }
}
