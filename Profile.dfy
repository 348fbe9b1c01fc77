/** The profile page's listing management: marking a listing sold or active again,
    deleting one after confirmation, the busy markers shown meanwhile, and the count caption.
    `deleteProduct` and `updateProductStatus` belong to the backend store; the page only
    sees their results, which are parameters here. */
module Profile {
  import opened Wrappers
  import Text

  /** The status a listing is switched to: "sold" becomes "active", anything else "sold". */
  function NextStatus(current: string): (next: string)
    ensures next == "active" || next == "sold"
    ensures next == "active" <==> current == "sold"
  {
    if current == "sold" then "active" else "sold"
  }

  /** Two presses restore the status exactly when it was "active" or "sold"; any other
      status ends up "active". */
  lemma NextStatusTwice(current: string)
    ensures NextStatus(NextStatus(current)) == current <==> current == "active" || current == "sold"
    ensures NextStatus(NextStatus(current)) == "active" <==> current != "sold"
  {
  }

  /** `{ success, error? }` as returned by the store's operations. */
  datatype OpResult = OpResult(success: bool, error: Option<string>)

  datatype Toast = SuccessToast(message: string) | ErrorToast(message: string)

  /** `result.error || fallback`: the store's message unless it is missing or empty. */
  function ErrorText(result: OpResult, fallback: string): (msg: string)
    ensures result.error.Some? && result.error.value != "" ==> msg == result.error.value
    ensures result.error.None? || result.error.value == "" ==> msg == fallback
  {
    if result.error.Some? && result.error.value != "" then result.error.value else fallback
  }

  function DeleteToast(result: OpResult): (t: Toast)
    ensures t.SuccessToast? <==> result.success
    ensures t.SuccessToast? ==> t.message == "Product deleted"
    ensures t.ErrorToast? ==> t.message == ErrorText(result, "Failed to delete product")
  {
    if result.success then SuccessToast("Product deleted")
    else ErrorToast(ErrorText(result, "Failed to delete product"))
  }

  function StatusToast(newStatus: string, result: OpResult): (t: Toast)
    ensures t.SuccessToast? <==> result.success
    ensures t.SuccessToast? ==> t.message == if newStatus == "sold" then "Marked as sold" else "Marked as active"
    ensures t.ErrorToast? ==> t.message == ErrorText(result, "Failed to update status")
  {
    if result.success then SuccessToast(if newStatus == "sold" then "Marked as sold" else "Marked as active")
    else ErrorToast(ErrorText(result, "Failed to update status"))
  }

  /** "<n> product" or "<n> products": the plural ending is dropped exactly for one. */
  function CountLabel(n: nat): string {
    Text.NatToString(n) + " product" + (if n != 1 then "s" else "")
  }

  lemma CountLabelSingular(n: nat)
    ensures CountLabel(n)[|CountLabel(n)| - 1] == 's' <==> n != 1
    ensures CountLabel(n)[..|Text.NatToString(n)|] == Text.NatToString(n)
  {
  }

  /** The page's busy markers; a listing's buttons are disabled while its id is held. */
  class ProfilePage {
    var deletingId: Option<string>
    var updatingId: Option<string>

    constructor ()
      ensures deletingId == None && updatingId == None
    {
      deletingId, updatingId := None, None;
    }

    /** First half of `handleDeleteProduct`, up to the awaited delete. A declined
        confirmation stops here and asks for nothing. */
    method BeginDelete(productId: string, confirmed: bool) returns (request: Option<string>)
      modifies this
      ensures request == if confirmed then Some(productId) else None
      ensures deletingId == if confirmed then Some(productId) else old(deletingId)
      ensures updatingId == old(updatingId)
    {
      if !confirmed {
        return None;
      }
      deletingId := Some(productId);
      request := Some(productId);
    }

    /** Second half: the toast for the store's answer; the marker is cleared whatever it was. */
    method FinishDelete(result: OpResult) returns (toast: Toast)
      modifies this
      ensures toast == DeleteToast(result)
      ensures deletingId == None && updatingId == old(updatingId)
    {
      toast := DeleteToast(result);
      deletingId := None;
    }

    /** First half of `handleToggleSold`: the status to ask for, with the listing marked busy. */
    method BeginToggleSold(productId: string, currentStatus: string) returns (newStatus: string)
      modifies this
      ensures newStatus == NextStatus(currentStatus)
      ensures updatingId == Some(productId) && deletingId == old(deletingId)
    {
      newStatus := if currentStatus == "sold" then "active" else "sold";
      updatingId := Some(productId);
    }

    /** Second half: the toast for the store's answer; the marker is cleared whatever it was. */
    method FinishToggleSold(newStatus: string, result: OpResult) returns (toast: Toast)
      modifies this
      ensures toast == StatusToast(newStatus, result)
      ensures updatingId == None && deletingId == old(deletingId)
    {
      toast := StatusToast(newStatus, result);
      updatingId := None;
    }
  }
}
