/** The users page of `src/pages/Users.tsx`: the combined load of users and
    branches, the role badge, the edit prefill and the update and delete
    handlers.  A `fetchData()` a handler starts without awaiting it is
    counted in `reloads`; its own run is a `FetchData`. */
module UsersPage {
  import opened Wrappers
  import opened Types
  import opened Http
  import Text
  import Api

  const LoadFailedText := "Failed to load users or branches. Please try again."
  const UpdatedText := "User updated successfully!"
  const UpdateFailedText := "Failed to update user. Please try again."
  const DeletedText := "User deleted successfully!"
  const DeleteFailedText := "Failed to delete user. Please try again."

  const AdminBadge := "bg-red-100 text-red-800"
  const ManagerBadge := "bg-blue-100 text-blue-800"
  const TrainerBadge := "bg-green-100 text-green-800"
  const OtherBadge := "bg-gray-100 text-gray-800"

  /** `getRoleBadgeClass`: the badge colour for a role, ignoring its case. */
  function RoleBadgeClass(role: string): (c: string)
    ensures c == AdminBadge <==> Text.Upper(role) == "ADMIN"
    ensures c == ManagerBadge <==> Text.Upper(role) == "MANAGER"
    ensures c == TrainerBadge <==> Text.Upper(role) == "TRAINER"
    ensures c == OtherBadge <==> Text.Upper(role) !in {"ADMIN", "MANAGER", "TRAINER"}
  {
    match Text.Upper(role)
    case "ADMIN" => AdminBadge
    case "MANAGER" => ManagerBadge
    case "TRAINER" => TrainerBadge
    case _ => OtherBadge
  }

  /** Only the letters of the role decide the badge, not their case. */
  lemma RoleBadgeIgnoresCase(role: string)
    ensures RoleBadgeClass(Text.Lower(role)) == RoleBadgeClass(role)
    ensures RoleBadgeClass(Text.Upper(role)) == RoleBadgeClass(role)
  {
    Text.UpperOfLower(role);
    Text.UpperOfLower(Text.Upper(role));
    Text.LowerOfUpper(role);
    assert Text.Upper(Text.Upper(role)) == Text.Upper(role) by {
      Text.UpperOfLower(Text.Upper(role));
      Text.UpperOfLower(role);
    }
  }

  lemma RoleBadgeExamples()
    ensures RoleBadgeClass("admin") == AdminBadge
    ensures RoleBadgeClass("Trainer") == TrainerBadge
    ensures RoleBadgeClass("MEMBER") == OtherBadge
  {
    var a := "admin";
    assert Text.Upper(a) == "ADMIN" by {
      assert forall i | 0 <= i < |a| :: Text.Upper(a)[i] == "ADMIN"[i];
    }
    var t := "Trainer";
    assert Text.Upper(t) == "TRAINER" by {
      assert forall i | 0 <= i < |t| :: Text.Upper(t)[i] == "TRAINER"[i];
    }
    var m := "MEMBER";
    assert Text.Upper(m) == "MEMBER" by {
      assert forall i | 0 <= i < |m| :: Text.Upper(m)[i] == "MEMBER"[i];
    }
  }

  /** `user.branch?.id || 0`. */
  function BranchIdOrZero(u: User): (id: int)
    ensures id == 0 <==> u.branch.None? || u.branch.value.id.None? || u.branch.value.id.value == 0
    ensures id != 0 ==> u.branch.Some? && u.branch.value.id == Some(id)
  {
    if u.branch.Some? && u.branch.value.id.Some? && u.branch.value.id.value != 0 then u.branch.value.id.value
    else 0
  }

  class UsersPageState {
    const world: World
    var users: seq<User>
    var branches: seq<Branch>
    var isLoading: bool
    var error: Option<string>
    var isEditDialogOpen: bool
    var isDeleteDialogOpen: bool
    var currentUser: Option<User>
    var editForm: UserEdit
    var isSubmitting: bool
    var reloads: nat

    constructor (world: World)
      ensures this.world == world
      ensures users == [] && branches == [] && !isLoading && error == None
      ensures !isEditDialogOpen && !isDeleteDialogOpen && currentUser == None
      ensures editForm == UserEdit("", "", 0) && !isSubmitting && reloads == 0
    {
      this.world := world;
      users, branches, isLoading, error := [], [], false, None;
      isEditDialogOpen, isDeleteDialogOpen, currentUser := false, false, None;
      editForm, isSubmitting, reloads := UserEdit("", "", 0), false, 0;
    }

    /** `fetchData`: both requests go out before either answer is handled;
        the lists are replaced only when both succeed. */
    method FetchData(usersOutcome: Result<seq<User>, Failure>, branchesOutcome: Result<seq<Branch>, Failure>)
      modifies this`users, this`branches, this`isLoading, this`error, world
      ensures !isLoading
      ensures usersOutcome.Success? && branchesOutcome.Success? ==>
        users == usersOutcome.value && branches == branchesOutcome.value && error == None
      ensures usersOutcome.Failure? || branchesOutcome.Failure? ==>
        users == old(users) && branches == old(branches) && error == Some(LoadFailedText)
      ensures world.token == Api.TokenAfter(Api.TokenAfter(old(world.token), usersOutcome), branchesOutcome)
      ensures world.events == old(world.events)
        + [Sent(Request(Api.AllUsers(), Api.AuthorizationHeader(old(world.token)))),
           Sent(Request(Api.AllBranches(), Api.AuthorizationHeader(old(world.token))))]
        + Api.ResponseEvents(usersOutcome) + Api.ResponseEvents(branchesOutcome)
    {
      isLoading := true;
      Api.Dispatch(world, Api.AllUsers());
      Api.Dispatch(world, Api.AllBranches());
      var u := Api.Receive(world, usersOutcome);
      var b := Api.Receive(world, branchesOutcome);
      if u.Success? && b.Success? {
        users := u.value;
        branches := b.value;
        error := None;
      } else {
        error := Some(LoadFailedText);
      }
      isLoading := false;
    }

    /** `handleEdit`: select the user and prefill email, role and branch id. */
    method HandleEdit(u: User)
      modifies this`currentUser, this`editForm, this`isEditDialogOpen
      ensures currentUser == Some(u) && isEditDialogOpen
      ensures editForm == UserEdit(u.email, u.role, BranchIdOrZero(u))
    {
      currentUser := Some(u);
      editForm := UserEdit(u.email, u.role, BranchIdOrZero(u));
      isEditDialogOpen := true;
    }

    /** `handleDelete`: select the user and open the confirmation. */
    method HandleDelete(u: User)
      modifies this`currentUser, this`isDeleteDialogOpen
      ensures currentUser == Some(u) && isDeleteDialogOpen
    {
      currentUser := Some(u);
      isDeleteDialogOpen := true;
    }

    /** `handleEditSubmit`: nothing without a selected user; reload only on success. */
    method HandleEditSubmit(outcome: Result<(), Failure>)
      modifies this`isSubmitting, this`isEditDialogOpen, this`reloads, world
      ensures currentUser.None? ==>
        && isSubmitting == old(isSubmitting) && isEditDialogOpen == old(isEditDialogOpen)
        && reloads == old(reloads) && world.token == old(world.token) && world.events == old(world.events)
      ensures currentUser.Some? ==>
        && !isSubmitting
        && isEditDialogOpen == (old(isEditDialogOpen) && outcome.Failure?)
        && reloads == old(reloads) + (if outcome.Success? then 1 else 0)
        && world.token == Api.TokenAfter(old(world.token), outcome)
        && world.events == old(world.events)
           + Api.RequestEvents(old(world.token), Api.UpdateUser(currentUser.value.id, editForm), outcome)
           + [Toast(if outcome.Success? then SuccessToast else ErrorToast,
                    if outcome.Success? then UpdatedText else UpdateFailedText)]
    {
      if currentUser.None? {
        return;
      }
      isSubmitting := true;
      var r := Api.MakeRequest(world, Api.UpdateUser(currentUser.value.id, editForm), outcome);
      if r.Success? {
        isEditDialogOpen := false;
        world.events := world.events + [Toast(SuccessToast, UpdatedText)];
        reloads := reloads + 1;
      } else {
        world.events := world.events + [Toast(ErrorToast, UpdateFailedText)];
      }
      isSubmitting := false;
    }

    /** `handleDeleteConfirm`: nothing without a selected user; reload only on success. */
    method HandleDeleteConfirm(outcome: Result<(), Failure>)
      modifies this`isSubmitting, this`isDeleteDialogOpen, this`reloads, world
      ensures currentUser.None? ==>
        && isSubmitting == old(isSubmitting) && isDeleteDialogOpen == old(isDeleteDialogOpen)
        && reloads == old(reloads) && world.token == old(world.token) && world.events == old(world.events)
      ensures currentUser.Some? ==>
        && !isSubmitting
        && isDeleteDialogOpen == (old(isDeleteDialogOpen) && outcome.Failure?)
        && reloads == old(reloads) + (if outcome.Success? then 1 else 0)
        && world.token == Api.TokenAfter(old(world.token), outcome)
        && world.events == old(world.events)
           + Api.RequestEvents(old(world.token), Api.DeleteUser(currentUser.value.id), outcome)
           + [Toast(if outcome.Success? then SuccessToast else ErrorToast,
                    if outcome.Success? then DeletedText else DeleteFailedText)]
    {
      if currentUser.None? {
        return;
      }
      isSubmitting := true;
      var r := Api.MakeRequest(world, Api.DeleteUser(currentUser.value.id), outcome);
      if r.Success? {
        isDeleteDialogOpen := false;
        world.events := world.events + [Toast(SuccessToast, DeletedText)];
        reloads := reloads + 1;
      } else {
        world.events := world.events + [Toast(ErrorToast, DeleteFailedText)];
      }
      isSubmitting := false;
    }
  }
}
