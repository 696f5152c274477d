/**
 * The viewer plugin of app/hand-pose-detection-copy/disableScrollPlugin.tsx: `renderViewer`
 * walks the slot tree the PDF viewer hands it and, through `applyStyle`, forces
 * `overflow: 'hidden'` onto every slot that carries a style, in place.
 */
module ScrollPlugin {
  import opened Wrappers

  /** A CSS style object: property name to value. */
  type Style = map<string, string>

  const OverflowKey := "overflow"
  const HiddenValue := "hidden"

  /** `slot.attrs`: the style object, if any, and the remaining attributes. */
  datatype Attrs = Attrs(style: Option<Style>, others: map<string, string>)

  /**
   * `slot.children`: absent, present but not an array (a single element, which
   * `applyStyle` does not enter), or an array of child slots.
   */
  datatype Children<S> = NoChildren | NonArray(content: string) | Many(slots: seq<S>)

  /** The value of a slot tree: what a slot object and everything below it hold. */
  datatype SlotValue = SlotValue(attrs: Option<Attrs>, children: Children<SlotValue>)

  /** The rewrite of one `attrs`: a fresh style with `overflow` forced, other keys kept. */
  function HideOverflow(attrs: Option<Attrs>): Option<Attrs>
  {
    match attrs
    case Some(Attrs(Some(style), others)) => Some(Attrs(Some(style[OverflowKey := HiddenValue]), others))
    case _ => attrs
  }

  /** `attrs` with `overflow` removed from its style: everything the rewrite must keep. */
  function ForgetOverflow(attrs: Option<Attrs>): Option<Attrs>
  {
    match attrs
    case Some(Attrs(Some(style), others)) => Some(Attrs(Some(style - {OverflowKey}), others))
    case _ => attrs
  }

  /** The tree with `overflow` dropped from every style. */
  function Skeleton(v: SlotValue): SlotValue
    decreases v
  {
    SlotValue(ForgetOverflow(v.attrs),
      match v.children
      case Many(slots) => Many(seq(|slots|, i requires 0 <= i < |slots| => Skeleton(slots[i])))
      case other => other)
  }

  /** Every slot of the tree that has a style has `overflow: 'hidden'`. */
  predicate AllHidden(v: SlotValue)
    decreases v
  {
    (v.attrs.Some? && v.attrs.value.style.Some? ==>
       OverflowKey in v.attrs.value.style.value && v.attrs.value.style.value[OverflowKey] == HiddenValue)
    && (v.children.Many? ==> forall i :: 0 <= i < |v.children.slots| ==> AllHidden(v.children.slots[i]))
  }

  /**
   * The tree `applyStyle` leaves behind. Its contract characterises it: only
   * `overflow` keys change (shape, child order, attributes, styleless slots and
   * non-array children are kept), and every styled slot ends up hidden.
   */
  function Styled(v: SlotValue): (r: SlotValue)
    ensures Skeleton(r) == Skeleton(v)
    ensures AllHidden(r)
    decreases v
  {
    ForgetHiddenOverflow(v.attrs);
    var children :=
      match v.children
      case Many(slots) => Many(seq(|slots|, i requires 0 <= i < |slots| => Styled(slots[i])))
      case other => other;
    var r := SlotValue(HideOverflow(v.attrs), children);
    assert Skeleton(r).children == Skeleton(v).children by {
      if v.children.Many? {
        assert Skeleton(r).children.slots == Skeleton(v).children.slots;
      }
    }
    r
  }

  /** Forcing `overflow` changes nothing but `overflow`. */
  lemma ForgetHiddenOverflow(attrs: Option<Attrs>)
    ensures ForgetOverflow(HideOverflow(attrs)) == ForgetOverflow(attrs)
  {
    if attrs.Some? && attrs.value.style.Some? {
      var style := attrs.value.style.value;
      assert style[OverflowKey := HiddenValue] - {OverflowKey} == style - {OverflowKey};
    }
  }

  /** A tree with the skeleton of `v` in which every style is hidden is `Styled(v)`. */
  lemma {:induction false} StyledUnique(v: SlotValue, w: SlotValue)
    requires Skeleton(w) == Skeleton(v) && AllHidden(w)
    ensures w == Styled(v)
    decreases v
  {
    if v.attrs.Some? && v.attrs.value.style.Some? {
      var style := v.attrs.value.style.value;
      var ws := w.attrs.value.style.value;
      assert ws - {OverflowKey} == style - {OverflowKey};
      forall k | k in ws ensures k in style[OverflowKey := HiddenValue] {
        if k != OverflowKey { assert k in ws - {OverflowKey}; }
      }
      forall k | k in style[OverflowKey := HiddenValue]
        ensures k in ws && ws[k] == style[OverflowKey := HiddenValue][k]
      {
        if k != OverflowKey { assert k in style - {OverflowKey}; assert (ws - {OverflowKey})[k] == ws[k]; }
      }
      assert ws == style[OverflowKey := HiddenValue];
    }
    if v.children.Many? {
      var slots, wslots := v.children.slots, w.children.slots;
      assert |wslots| == |slots| by { assert Skeleton(w).children.slots == Skeleton(v).children.slots; }
      forall i | 0 <= i < |slots| ensures wslots[i] == Styled(slots[i]) {
        assert Skeleton(wslots[i]) == Skeleton(w).children.slots[i];
        StyledUnique(slots[i], wslots[i]);
      }
      assert wslots == Styled(v).children.slots;
    }
  }

  /** Applying the rewrite a second time changes nothing. */
  lemma StyledIdempotent(v: SlotValue)
    ensures Styled(Styled(v)) == Styled(v)
  {
    StyledUnique(Styled(v), Styled(v));
  }

  /** A slot object of the viewer's tree, with the value it currently represents. */
  class Slot {
    var attrs: Option<Attrs>
    var children: Children<Slot>

    ghost var model: SlotValue
    ghost var Repr: set<object>

    /** The slots form a tree (children own disjoint parts) and `model` is its value. */
    ghost predicate Valid()
      reads this, Repr
      decreases Repr
    {
      && this in Repr
      && model.attrs == attrs
      && match children
         case NoChildren => model.children == NoChildren
         case NonArray(content) => model.children == NonArray(content)
         case Many(kids) =>
           && model.children.Many?
           && |model.children.slots| == |kids|
           && (forall i :: 0 <= i < |kids| ==>
                 && kids[i] in Repr && kids[i].Repr <= Repr && this !in kids[i].Repr
                 && kids[i].model == model.children.slots[i]
                 && kids[i].Valid())
           && (forall i, j :: 0 <= i < j < |kids| ==> kids[i].Repr !! kids[j].Repr)
    }

    /** `applyStyle(slot)`: rewrites this slot's style and then each array child, in order. */
    method ApplyStyle()
      requires Valid()
      modifies Repr
      ensures Valid() && Repr == old(Repr)
      ensures children == old(children)
      ensures model == Styled(old(model))
      decreases Repr
    {
      ghost var before := model;
      if attrs.Some? && attrs.value.style.Some? {
        attrs := Some(attrs.value.(style := Some(attrs.value.style.value[OverflowKey := HiddenValue])));
      }
      if children.Many? {
        var kids := children.slots;
        var i := 0;
        while i < |kids|
          invariant 0 <= i <= |kids|
          invariant children == Many(kids) && model == before && Repr == old(Repr)
          invariant attrs == HideOverflow(before.attrs)
          invariant forall j :: 0 <= j < |kids| ==>
                      kids[j] in Repr && kids[j].Repr <= Repr && this !in kids[j].Repr && kids[j].Valid()
          invariant forall j, k :: 0 <= j < k < |kids| ==> kids[j].Repr !! kids[k].Repr
          invariant forall j :: 0 <= j < i ==> kids[j].model == Styled(before.children.slots[j])
          invariant forall j :: i <= j < |kids| ==> kids[j].model == before.children.slots[j]
        {
          kids[i].ApplyStyle();
          i := i + 1;
        }
      }
      model := Styled(before);
    }
  }

  /** `renderViewer`: styles the slot it is given and hands back that same slot object. */
  method RenderViewer(slot: Slot) returns (r: Slot)
    requires slot.Valid()
    modifies slot.Repr
    ensures r == slot && r.Valid() && r.Repr == old(slot.Repr)
    ensures r.model == Styled(old(slot.model))
  {
    slot.ApplyStyle();
    r := slot;
  }
}
