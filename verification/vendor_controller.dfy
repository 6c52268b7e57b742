/**
 * `VendorController.deleteVendor`: a vendor is deleted only when no item references it;
 * otherwise, or when the deletion fails, the user is told why. Every outcome redirects
 * to the vendor list.
 */
module Vendors {
  import opened Common
  import opened Text
  import opened Seqs
  import opened Inventory

  /** The flash attributes set for the next page: an error, a success message, or neither. */
  datatype Flash = Flash(error: Option<string>, success: Option<string>)

  /**
   * What the repositories do when called, which the controller cannot see: nothing goes
   * wrong, reading the items throws, or the delete throws a data-integrity violation or
   * another exception (with its possibly-null message).
   */
  datatype Fault =
    | NoFault
    | ReadFails(readMessage: Option<string>)
    | DeleteViolatesIntegrity
    | DeleteFails(deleteMessage: Option<string>)

  const VendorList: string := "redirect:/vendors"
  const DeletedMessage: string := "Vendor deleted successfully!"
  const IntegrityMessage: string :=
    "Cannot delete vendor. This vendor has associated items. Please delete or reassign those items first."
  const GuardPrefix: string := "Cannot delete vendor. There are "
  const GuardSuffix: string := " item(s) associated with this vendor. Please delete or reassign those items first."
  const FailurePrefix: string := "An error occurred while deleting the vendor: "

  /** An item references the vendor when it has a vendor with that id. */
  predicate References(item: Item, vendorId: int) {
    item.vendor.Some? && item.vendor.value.id == vendorId
  }

  /** The number of items referencing the vendor. */
  function AssociatedItemCount(items: seq<Item>, vendorId: int): nat {
    Count((item: Item) => References(item, vendorId), items)
  }

  function GuardMessage(count: nat): string {
    GuardPrefix + NatToString(count) + GuardSuffix
  }

  /** No item references the vendor exactly when every item has no vendor or another one. */
  lemma NoAssociatedItems(items: seq<Item>, vendorId: int)
    ensures AssociatedItemCount(items, vendorId) == 0
            <==> forall item :: item in items ==> item.vendor.None? || item.vendor.value.id != vendorId
  {
    CountZeroIff((item: Item) => References(item, vendorId), items);
  }

  /** Items without a vendor never count, whatever the id. */
  lemma VendorlessItemsNeverCount(items: seq<Item>, vendorId: int)
    ensures AssociatedItemCount(items, vendorId) == AssociatedItemCount(Filter((item: Item) => item.vendor.Some?, items), vendorId)
  {
    CountWithinFilter((item: Item) => References(item, vendorId), (item: Item) => item.vendor.Some?, items);
  }

  /** The guard's message states the count, which can be read back from it. */
  lemma GuardMessageStatesCount(count: nat)
    ensures Contains(GuardMessage(count), NatToString(count))
    ensures GuardMessage(count)[|GuardPrefix|..|GuardMessage(count)| - |GuardSuffix|] == NatToString(count)
    ensures ParseDigits(GuardMessage(count)[|GuardPrefix|..|GuardMessage(count)| - |GuardSuffix|]) == count
  {
    ContainsInfix(GuardPrefix, NatToString(count), GuardSuffix);
    ParseNatToString(count);
  }

  /** The vendor and item tables the controller works on. */
  class VendorController {
    /** The vendor table, by id. */
    var vendors: map<int, Vendor>
    /** The item table. */
    var items: seq<Item>

    constructor (vendors: map<int, Vendor>, items: seq<Item>)
      ensures this.vendors == vendors && this.items == items
    {
      this.vendors := vendors;
      this.items := items;
    }

    /**
     * `deleteVendor`: with referencing items, refuses and states their number; without,
     * deletes exactly that vendor and reports success. A failed read or delete leaves
     * the vendors as they were and reports an error, never a success. The items are
     * never written, and the answer is always the vendor list.
     */
    method DeleteVendor(id: int, fault: Fault) returns (view: string, flash: Flash)
      modifies this
      ensures view == VendorList
      ensures items == old(items)
      ensures fault.ReadFails? ==>
                vendors == old(vendors) && flash == Flash(Some(FailurePrefix + ShowNullable(fault.readMessage)), None)
      ensures !fault.ReadFails? && AssociatedItemCount(items, id) > 0 ==>
                vendors == old(vendors) && flash == Flash(Some(GuardMessage(AssociatedItemCount(items, id))), None)
      ensures fault.NoFault? && AssociatedItemCount(items, id) == 0 ==>
                vendors == old(vendors) - {id} && flash == Flash(None, Some(DeletedMessage))
      ensures fault.DeleteViolatesIntegrity? && AssociatedItemCount(items, id) == 0 ==>
                vendors == old(vendors) && flash == Flash(Some(IntegrityMessage), None)
      ensures fault.DeleteFails? && AssociatedItemCount(items, id) == 0 ==>
                vendors == old(vendors) && flash == Flash(Some(FailurePrefix + ShowNullable(fault.deleteMessage)), None)
    {
      view := VendorList;
      flash := Flash(None, None);
      if fault.ReadFails? {
        flash := Flash(Some(FailurePrefix + ShowNullable(fault.readMessage)), None);
        return;
      }
      var itemCount := AssociatedItemCount(items, id);
      if itemCount > 0 {
        flash := Flash(Some(GuardMessage(itemCount)), None);
        return;
      }
      if fault.DeleteViolatesIntegrity? {
        flash := Flash(Some(IntegrityMessage), None);
      } else if fault.DeleteFails? {
        flash := Flash(Some(FailurePrefix + ShowNullable(fault.deleteMessage)), None);
      } else {
        vendors := vendors - {id};
        flash := Flash(None, Some(DeletedMessage));
      }
    }
  }
}
