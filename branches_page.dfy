/** The branches page of `src/pages/Branches.tsx`: loading the list, the
    edit and delete handlers, and the message chosen for a failed delete.
    A `fetchBranches()` a handler starts without awaiting it is counted in
    `reloads`; its own run is a `FetchBranches`. */
module BranchesPage {
  import opened Wrappers
  import opened Types
  import opened Http
  import Api

  const LoadFailedText := "Failed to load branches. Please try again."
  const UpdatedText := "Branch updated successfully!"
  const UpdateFailedText := "Failed to update branch. Please try again."
  const DeletedText := "Branch deleted successfully!"
  const ConflictText := "Cannot delete branch due to associated users."
  const DeleteFailedText := "Failed to delete branch. Please try again."

  /** The toast for a failed delete: on a 409 the `x-error-message` header
      when it is non-empty, else the fixed conflict text; otherwise the
      generic failure text. */
  function DeleteFailureText(e: Failure): (m: string)
    ensures m != ""
    ensures (e.AxiosFailure? && e.response.Some? && e.response.value.status == 409
             && Api.Truthy(e.response.value.errorHeader)) ==> m == e.response.value.errorHeader.value
    ensures (e.AxiosFailure? && e.response.Some? && e.response.value.status == 409
             && !Api.Truthy(e.response.value.errorHeader)) ==> m == ConflictText
    ensures !(e.AxiosFailure? && e.response.Some? && e.response.value.status == 409) ==> m == DeleteFailedText
  {
    if e.AxiosFailure? && e.response.Some? && e.response.value.status == 409 then
      var header := e.response.value.errorHeader;
      if Api.Truthy(header) then header.value else ConflictText
    else DeleteFailedText
  }

  /** A 409 whose header says why: the user sees the header's text
      verbatim; without the header, the fixed conflict text. */
  lemma ConflictHeaderShown(message: Option<string>, axiosMessage: string)
    ensures DeleteFailureText(AxiosFailure(Some(ErrorResponse(409, message, Some("Branch has users"))), axiosMessage))
      == "Branch has users"
    ensures DeleteFailureText(AxiosFailure(Some(ErrorResponse(409, message, None)), axiosMessage)) == ConflictText
    ensures DeleteFailureText(AxiosFailure(Some(ErrorResponse(409, message, Some(""))), axiosMessage)) == ConflictText
  {
  }

  class BranchesPageState {
    const world: World
    var data: seq<Branch>
    var isLoading: bool
    var error: Option<string>
    var isEditDialogOpen: bool
    var isDeleteDialogOpen: bool
    var currentBranch: Option<Branch>
    var editForm: BranchData
    var isSubmitting: bool
    var reloads: nat

    constructor (world: World)
      ensures this.world == world
      ensures data == [] && !isLoading && error == None
      ensures !isEditDialogOpen && !isDeleteDialogOpen && currentBranch == None
      ensures editForm == BranchData("", "", "") && !isSubmitting && reloads == 0
    {
      this.world := world;
      data, isLoading, error := [], false, None;
      isEditDialogOpen, isDeleteDialogOpen, currentBranch := false, false, None;
      editForm, isSubmitting, reloads := BranchData("", "", ""), false, 0;
    }

    /** `fetchBranches`: replace the list and clear the error on success;
        keep the list and set the fixed error on failure. */
    method FetchBranches(outcome: Result<seq<Branch>, Failure>)
      modifies this`data, this`isLoading, this`error, world
      ensures !isLoading
      ensures data == (if outcome.Success? then outcome.value else old(data))
      ensures error == (if outcome.Success? then None else Some(LoadFailedText))
      ensures world.token == Api.TokenAfter(old(world.token), outcome)
      ensures world.events == old(world.events) + Api.RequestEvents(old(world.token), Api.AllBranches(), outcome)
    {
      isLoading := true;
      var r := Api.MakeRequest(world, Api.AllBranches(), outcome);
      if r.Success? {
        data := r.value;
        error := None;
      } else {
        error := Some(LoadFailedText);
      }
      isLoading := false;
    }

    /** `handleEdit`: select the branch and copy its fields into the form. */
    method HandleEdit(b: Branch)
      modifies this`currentBranch, this`editForm, this`isEditDialogOpen
      ensures currentBranch == Some(b) && isEditDialogOpen
      ensures editForm == BranchData(b.name, b.email, b.location)
    {
      currentBranch := Some(b);
      editForm := BranchData(b.name, b.email, b.location);
      isEditDialogOpen := true;
    }

    /** `handleDelete`: select the branch and open the confirmation. */
    method HandleDelete(b: Branch)
      modifies this`currentBranch, this`isDeleteDialogOpen
      ensures currentBranch == Some(b) && isDeleteDialogOpen
    {
      currentBranch := Some(b);
      isDeleteDialogOpen := true;
    }

    /** `handleEditSubmit`: nothing without a selected branch; otherwise
        send the form; toast the outcome, reload only on success. */
    method HandleEditSubmit(outcome: Result<(), Failure>)
      modifies this`isSubmitting, this`isEditDialogOpen, this`reloads, world
      ensures currentBranch.None? ==>
        && isSubmitting == old(isSubmitting) && isEditDialogOpen == old(isEditDialogOpen)
        && reloads == old(reloads) && world.token == old(world.token) && world.events == old(world.events)
      ensures currentBranch.Some? ==>
        && !isSubmitting
        && isEditDialogOpen == (old(isEditDialogOpen) && outcome.Failure?)
        && reloads == old(reloads) + (if outcome.Success? then 1 else 0)
        && world.token == Api.TokenAfter(old(world.token), outcome)
        && world.events == old(world.events)
           + Api.RequestEvents(old(world.token), Api.UpdateBranch(currentBranch.value.id, editForm), outcome)
           + [Toast(if outcome.Success? then SuccessToast else ErrorToast,
                    if outcome.Success? then UpdatedText else UpdateFailedText)]
    {
      if currentBranch.None? {
        return;
      }
      isSubmitting := true;
      var r := Api.MakeRequest(world, Api.UpdateBranch(currentBranch.value.id, editForm), outcome);
      if r.Success? {
        isEditDialogOpen := false;
        world.events := world.events + [Toast(SuccessToast, UpdatedText)];
        reloads := reloads + 1;
      } else {
        world.events := world.events + [Toast(ErrorToast, UpdateFailedText)];
      }
      isSubmitting := false;
    }

    /** `handleDeleteConfirm`: nothing without a selected branch; only a
        successful delete closes the dialog and reloads; a failure toasts
        `DeleteFailureText`. */
    method HandleDeleteConfirm(outcome: Result<(), Failure>)
      modifies this`isSubmitting, this`isDeleteDialogOpen, this`reloads, world
      ensures currentBranch.None? ==>
        && isSubmitting == old(isSubmitting) && isDeleteDialogOpen == old(isDeleteDialogOpen)
        && reloads == old(reloads) && world.token == old(world.token) && world.events == old(world.events)
      ensures currentBranch.Some? ==>
        && !isSubmitting
        && isDeleteDialogOpen == (old(isDeleteDialogOpen) && outcome.Failure?)
        && reloads == old(reloads) + (if outcome.Success? then 1 else 0)
        && world.token == Api.TokenAfter(old(world.token), outcome)
        && world.events == old(world.events)
           + Api.RequestEvents(old(world.token), Api.DeleteBranch(currentBranch.value.id), outcome)
           + (if outcome.Success? then [Toast(SuccessToast, DeletedText)]
              else [Toast(ErrorToast, DeleteFailureText(outcome.error))])
    {
      if currentBranch.None? {
        return;
      }
      isSubmitting := true;
      var r := Api.MakeRequest(world, Api.DeleteBranch(currentBranch.value.id), outcome);
      if r.Success? {
        isDeleteDialogOpen := false;
        world.events := world.events + [Toast(SuccessToast, DeletedText)];
        reloads := reloads + 1;
      } else {
        world.events := world.events + [Toast(ErrorToast, DeleteFailureText(r.error))];
      }
      isSubmitting := false;
    }
  }
}
