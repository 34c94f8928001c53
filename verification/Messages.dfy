/** Maps nested by height, round and sender, as messages.rs keeps them, and the flat maps they stand for. */
module NestedMaps {
  import opened Types
  import opened Stores

  type Rounds<T> = map<nat, T>
  type ByView<T> = map<nat, Rounds<T>>
  type Inbox<T> = map<Address, T>
  type BySender<T> = ByView<Inbox<T>>

  function RoundsAt<T>(m: ByView<T>, height: nat): Rounds<T> {
    if height in m then m[height] else map[]
  }

  /** Missing levels read as empty maps. */
  function InboxAt<T>(m: BySender<T>, view: View): Inbox<T> {
    var rounds := RoundsAt(m, view.height);
    if view.round in rounds then rounds[view.round] else map[]
  }

  /** `view_entry(view)` filled with a value; the levels above are created on the way. */
  function SetAt<T>(m: ByView<T>, view: View, value: T): ByView<T> {
    m[view.height := RoundsAt(m, view.height)[view.round := value]]
  }

  function RemoveAt<T>(m: ByView<T>, view: View): ByView<T> {
    m[view.height := RoundsAt(m, view.height) - {view.round}]
  }

  // ---------- the flat maps they stand for ----------

  ghost predicate HasView<T>(m: ByView<T>, view: View) {
    view.round in RoundsAt(m, view.height)
  }

  ghost predicate HasSlot<T>(m: BySender<T>, slot: Slot) {
    slot.sender in InboxAt(m, slot.view)
  }

  /** Same keys, same values; empty inner maps do not show. */
  ghost predicate RepresentsViews<T(!new)>(flat: map<View, T>, m: ByView<T>) {
    forall view: View {:trigger HasView(m, view)} ::
      && (view in flat <==> HasView(m, view))
      && (view in flat ==> flat[view] == RoundsAt(m, view.height)[view.round])
  }

  ghost predicate Represents<T(!new)>(flat: map<Slot, T>, m: BySender<T>) {
    forall slot: Slot {:trigger HasSlot(m, slot)} ::
      && (slot in flat <==> HasSlot(m, slot))
      && (slot in flat ==> flat[slot] == InboxAt(m, slot.view)[slot.sender])
  }

  /** Every level by round, empty ones included, fits an array indexed by round. */
  ghost predicate RoundsBounded<T(!new)>(m: ByView<T>) {
    forall h, r :: h in m && r in m[h] ==> r < ROUND_ARRAY_SIZE
  }

  // ---------- what each operation on the nested maps does to the flat ones ----------

  lemma SetViewRepresents<T(!new)>(flat: map<View, T>, m: ByView<T>, view: View, value: T)
    requires RepresentsViews(flat, m)
    ensures RepresentsViews(flat[view := value], SetAt(m, view, value))
  {
    forall other: View
      ensures other in flat[view := value] <==> HasView(SetAt(m, view, value), other)
      ensures other in flat[view := value] ==>
                flat[view := value][other] == RoundsAt(SetAt(m, view, value), other.height)[other.round]
    {
      assert HasView(m, other) <==> other in flat;
    }
  }

  lemma RemoveViewRepresents<T(!new)>(flat: map<View, T>, m: ByView<T>, view: View)
    requires RepresentsViews(flat, m)
    ensures RepresentsViews(Remove(flat, view), RemoveAt(m, view))
  {
    forall other: View
      ensures other in Remove(flat, view) <==> HasView(RemoveAt(m, view), other)
      ensures other in Remove(flat, view) ==> flat[other] == RoundsAt(RemoveAt(m, view), other.height)[other.round]
    {
      assert HasView(m, other) <==> other in flat;
    }
  }

  /** `split_off` by height. */
  lemma FromViewsRepresents<T(!new)>(flat: map<View, T>, m: ByView<T>, height: nat)
    requires RepresentsViews(flat, m)
    ensures RepresentsViews(ViewsFrom(flat, height), HeightsFrom(m, height))
  {
    forall view: View
      ensures view in ViewsFrom(flat, height) <==> HasView(HeightsFrom(m, height), view)
      ensures view in ViewsFrom(flat, height) ==>
                flat[view] == RoundsAt(HeightsFrom(m, height), view.height)[view.round]
    {
      assert HasView(m, view) <==> view in flat;
    }
  }

  lemma FromRepresents<T(!new)>(flat: map<Slot, T>, m: BySender<T>, height: nat)
    requires Represents(flat, m)
    ensures Represents(SlotsFrom(flat, height), HeightsFrom(m, height))
  {
    forall slot: Slot
      ensures slot in SlotsFrom(flat, height) <==> HasSlot(HeightsFrom(m, height), slot)
      ensures slot in SlotsFrom(flat, height) ==> flat[slot] == InboxAt(HeightsFrom(m, height), slot.view)[slot.sender]
    {
      assert HasSlot(m, slot) <==> slot in flat;
    }
  }

  /** Replacing one inbox replaces exactly the slots of its view. */
  lemma SetInboxRepresents<T(!new)>(flat: map<Slot, T>, m: BySender<T>, view: View, inbox: Inbox<T>,
                                    flat': map<Slot, T>)
    requires Represents(flat, m)
    requires forall slot: Slot :: slot.view == view ==> (slot in flat' <==> slot.sender in inbox)
    requires forall slot: Slot :: slot.view == view && slot in flat' ==> flat'[slot] == inbox[slot.sender]
    requires forall slot: Slot :: slot.view != view ==> (slot in flat' <==> slot in flat)
    requires forall slot: Slot :: slot.view != view && slot in flat' ==> flat'[slot] == flat[slot]
    ensures Represents(flat', SetAt(m, view, inbox))
  {
    forall slot: Slot
      ensures slot in flat' <==> HasSlot(SetAt(m, view, inbox), slot)
      ensures slot in flat' ==> flat'[slot] == InboxAt(SetAt(m, view, inbox), slot.view)[slot.sender]
    {
      assert HasSlot(m, slot) <==> slot in flat;
    }
  }

  /** The messages of an inbox are the view's part of the flat map. */
  lemma InboxRepresents<T(!new)>(flat: map<Slot, T>, m: BySender<T>, view: View)
    requires Represents(flat, m)
    ensures forall slot: Slot :: slot in At(flat, view) <==> slot.view == view && slot.sender in InboxAt(m, view)
    ensures forall slot :: slot in At(flat, view) ==> flat[slot] == InboxAt(m, view)[slot.sender]
    ensures |At(flat, view)| == |InboxAt(m, view)|
  {
    forall slot: Slot
      ensures slot in At(flat, view) <==> slot.view == view && slot.sender in InboxAt(m, view)
      ensures slot in At(flat, view) ==> flat[slot] == InboxAt(m, view)[slot.sender]
    {
      assert HasSlot(m, slot) <==> slot in flat;
    }
    InboxSize(InboxAt(m, view), view, At(flat, view));
  }

  /** `entry(sender).or_insert`: the first message of a sender stays. */
  lemma InsertRepresents<T(!new)>(flat: map<Slot, T>, m: BySender<T>, view: View, sender: Address, message: T)
    requires Represents(flat, m)
    ensures Slot(view, sender) in flat <==> sender in InboxAt(m, view)
    ensures Represents(Insert(flat, Slot(view, sender), message),
        SetAt(m, view, Insert(InboxAt(m, view), sender, message)))
  {
    InboxRepresents(flat, m, view);
    assert Slot(view, sender) in At(flat, view) <==> sender in InboxAt(m, view);
    InsertedSlots(flat, InboxAt(m, view), view, sender, message);
    SetInboxRepresents(flat, m, view, Insert(InboxAt(m, view), sender, message),
        Insert(flat, Slot(view, sender), message));
  }

  lemma InsertedSlots<T(!new)>(flat: map<Slot, T>, inbox: Inbox<T>, view: View, sender: Address, message: T)
    requires forall slot: Slot :: slot in At(flat, view) <==> slot.view == view && slot.sender in inbox
    requires forall slot :: slot in At(flat, view) ==> flat[slot] == inbox[slot.sender]
    ensures var flat' := Insert(flat, Slot(view, sender), message);
            forall slot: Slot :: slot.view == view ==>
              && (slot in flat' <==> slot.sender in Insert(inbox, sender, message))
              && (slot in flat' ==> flat'[slot] == Insert(inbox, sender, message)[slot.sender])
  {
    var flat' := Insert(flat, Slot(view, sender), message);
    forall slot: Slot | slot.view == view
      ensures slot in flat' <==> slot.sender in Insert(inbox, sender, message)
      ensures slot in flat' ==> flat'[slot] == Insert(inbox, sender, message)[slot.sender]
    {
      assert slot in At(flat, view) <==> slot in flat;
      assert slot == Slot(view, slot.sender);
      assert Slot(view, sender) in At(flat, view) <==> Slot(view, sender) in flat;
    }
  }

  function Kept<T>(inbox: Inbox<T>, keep: T -> bool): Inbox<T> {
    map a | a in inbox && keep(inbox[a]) :: inbox[a]
  }

  lemma RetainRepresents<T(!new)>(flat: map<Slot, T>, m: BySender<T>, view: View, keep: T -> bool)
    requires Represents(flat, m)
    ensures Represents(Retain(flat, view, keep), SetAt(m, view, Kept(InboxAt(m, view), keep)))
  {
    InboxRepresents(flat, m, view);
    forall slot: Slot | slot.view == view
      ensures slot in Retain(flat, view, keep) <==> slot.sender in Kept(InboxAt(m, view), keep)
      ensures slot in Retain(flat, view, keep) ==> flat[slot] == InboxAt(m, view)[slot.sender]
    {
      assert slot in At(flat, view) <==> slot in flat;
    }
    SetInboxRepresents(flat, m, view, Kept(InboxAt(m, view), keep), Retain(flat, view, keep));
  }

  lemma EmptyRepresents<T(!new)>(flat: map<Slot, T>, m: BySender<T>, view: View)
    requires Represents(flat, m)
    ensures Represents(Without(flat, view), SetAt(m, view, map[]))
  {
    SetInboxRepresents(flat, m, view, map[], Without(flat, view));
  }

  lemma RemoveRepresents<T(!new)>(flat: map<Slot, T>, m: BySender<T>, view: View)
    requires Represents(flat, m)
    ensures Represents(Without(flat, view), RemoveAt(m, view))
  {
    forall slot: Slot
      ensures slot in Without(flat, view) <==> HasSlot(RemoveAt(m, view), slot)
      ensures slot in Without(flat, view) ==> flat[slot] == InboxAt(RemoveAt(m, view), slot.view)[slot.sender]
    {
      assert HasSlot(m, slot) <==> slot in flat;
    }
  }

  /** One slot for each sender. */
  lemma {:induction false} InboxSize<T>(inbox: Inbox<T>, view: View, here: map<Slot, T>)
    requires forall slot :: slot in here <==> slot.view == view && slot.sender in inbox
    ensures |inbox| == |here|
    decreases |inbox|
  {
    if inbox.Keys == {} {
      assert here.Keys == {};
      assert |here| == |here.Keys| && |inbox| == |inbox.Keys|;
    } else {
      var a :| a in inbox;
      assert inbox.Keys == (inbox - {a}).Keys + {a};
      assert here.Keys == (here - {Slot(view, a)}).Keys + {Slot(view, a)};
      assert |inbox| == |inbox.Keys| && |here| == |here.Keys|;
      assert |inbox - {a}| == |(inbox - {a}).Keys| && |here - {Slot(view, a)}| == |(here - {Slot(view, a)}).Keys|;
      InboxSize(inbox - {a}, view, here - {Slot(view, a)});
    }
  }

  /** `into_values`: the messages of an inbox in the order its hash map yields them. */
  method Drain<T>(inbox: Inbox<T>, view: View, ghost here: map<Slot, T>)
    returns (values: seq<T>, ghost order: seq<Slot>)
    requires forall slot :: slot in here <==> slot.view == view && slot.sender in inbox
    requires forall slot :: slot in here ==> here[slot] == inbox[slot.sender]
    ensures Orders(order, here) && values == Values(order, here)
  {
    values, order := [], [];
    var left := inbox.Keys;
    while left != {}
      invariant left <= inbox.Keys && |values| == |order|
      invariant forall i :: 0 <= i < |order| ==>
                order[i] in here && order[i].sender !in left && values[i] == here[order[i]]
      invariant forall i, j :: 0 <= i < j < |order| ==> order[i] != order[j]
      invariant forall a :: a in inbox && a !in left ==> Slot(view, a) in order
      decreases left
    {
      var a :| a in left;
      values, order := values + [inbox[a]], order + [Slot(view, a)];
      left := left - {a};
    }
  }
}
