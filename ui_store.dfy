/** The UI store: the records of the "fly to cart" animations in flight and
    the reference to the cart icon they fly towards. */
module UiStore {
  import opened Types
  import Seqs

  /** The on-screen rectangle an animation starts from (pixels). */
  datatype Rect = Rect(left: int, top: int, width: int, height: int)

  /** An opaque handle on a rendered element. */
  datatype ElementRef = ElementRef(handle: nat)

  datatype FlyingItem = FlyingItem(id: string, imageUrl: string, sourceRect: Rect)

  /** The filter of `removeFlyingItem`: keep the records with another id. */
  function OtherThan(id: string): FlyingItem -> bool
  {
    (item: FlyingItem) => item.id != id
  }

  /** Removing an id that no record carries changes nothing. */
  lemma RemoveAbsentIsNoop(items: seq<FlyingItem>, id: string)
    requires forall k :: 0 <= k < |items| ==> items[k].id != id
    ensures Seqs.Filter(items, OtherThan(id)) == items
  {
    Seqs.FilterKeepsAll(items, OtherThan(id));
  }

  /** Adding a record with a fresh id and then removing that id restores the list. */
  lemma AddThenRemoveRestores(items: seq<FlyingItem>, item: FlyingItem)
    requires forall k :: 0 <= k < |items| ==> items[k].id != item.id
    ensures Seqs.Filter(items + [item], OtherThan(item.id)) == items
  {
    Seqs.FilterAppend(items, [item], OtherThan(item.id));
    Seqs.FilterKeepsAll(items, OtherThan(item.id));
    assert Seqs.Filter([item], OtherThan(item.id)) == [];
  }

  class UiState {
    var cartIconRef: Option<ElementRef>
    var flyingItems: seq<FlyingItem>

    constructor ()
      ensures cartIconRef == None && flyingItems == []
    {
      cartIconRef := None;
      flyingItems := [];
    }

    /** `setCartIconRef`: only the reference changes. */
    method SetCartIconRef(ref: ElementRef)
      modifies this
      ensures cartIconRef == Some(ref) && flyingItems == old(flyingItems)
    {
      cartIconRef := Some(ref);
    }

    /** `addFlyingItem`: one record at the end; `freshId` stands for the uuid
        the store generates. */
    method AddFlyingItem(imageUrl: string, sourceRect: Rect, freshId: string)
      modifies this
      ensures flyingItems == old(flyingItems) + [FlyingItem(freshId, imageUrl, sourceRect)]
      ensures cartIconRef == old(cartIconRef)
    {
      flyingItems := flyingItems + [FlyingItem(freshId, imageUrl, sourceRect)];
    }

    /** `removeFlyingItem`: every record with the id goes, the others stay in order. */
    method RemoveFlyingItem(id: string)
      modifies this
      ensures flyingItems == Seqs.Filter(old(flyingItems), OtherThan(id))
      ensures Seqs.IsSubsequence(flyingItems, old(flyingItems))
      ensures forall x :: x in flyingItems <==> x in old(flyingItems) && x.id != id
      ensures (forall k :: 0 <= k < |old(flyingItems)| ==> old(flyingItems)[k].id != id) ==>
        flyingItems == old(flyingItems)
      ensures cartIconRef == old(cartIconRef)
    {
      if forall k :: 0 <= k < |flyingItems| ==> flyingItems[k].id != id {
        RemoveAbsentIsNoop(flyingItems, id);
      }
      flyingItems := Seqs.Filter(flyingItems, OtherThan(id));
    }
  }
}
