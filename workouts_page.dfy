/** The workouts page of `src/pages/Workouts.tsx`: the form validator and
    the add, edit and delete handlers.  JavaScript's `Number(text)` and
    `String(number)` are the page's `numberOf` (`None` for `NaN`) and
    `numberText`.  A `refetch()` the handlers start without awaiting it is
    counted in `reloads`; its own run is a `UseApi.FetchHook.Execute`. */
module WorkoutsPage {
  import opened Wrappers
  import opened Types
  import opened Http
  import Api

  datatype WorkoutField = TypeField | DurationField

  const TypeRequired := "Workout type is required"
  const DurationRequired := "Duration is required"
  const DurationNotPositive := "Duration must be a positive number"
  const AddedText := "Workout added successfully!"
  const UpdatedText := "Workout updated successfully!"
  const DeletedText := "Workout deleted successfully!"

  /** Neither `isNaN(n)` nor `n <= 0`. */
  predicate Positive(n: Option<real>) {
    n.Some? && n.value > 0.0
  }

  /** The error map `validateForm(type, duration)` builds. */
  function WorkoutErrors(workoutType: string, duration: string, numberOf: string -> Option<real>)
    : (m: map<WorkoutField, string>)
    ensures TypeField in m <==> workoutType == ""
    ensures TypeField in m ==> m[TypeField] == TypeRequired
    ensures DurationField in m <==> duration == "" || !Positive(numberOf(duration))
    ensures duration == "" ==> m[DurationField] == DurationRequired
    ensures duration != "" && !Positive(numberOf(duration)) ==> m[DurationField] == DurationNotPositive
  {
    (if workoutType == "" then map[TypeField := TypeRequired] else map[])
    + (if duration == "" then map[DurationField := DurationRequired]
       else if !Positive(numberOf(duration)) then map[DurationField := DurationNotPositive]
       else map[])
  }

  /** `validateForm`. */
  method ValidateForm(workoutType: string, duration: string, numberOf: string -> Option<real>)
    returns (errors: map<WorkoutField, string>, isValid: bool)
    ensures errors == WorkoutErrors(workoutType, duration, numberOf)
    ensures isValid <==> errors == map[]
  {
    errors := map[];
    isValid := true;
    if workoutType == "" {
      errors := errors[TypeField := TypeRequired];
      isValid := false;
    }
    if duration == "" {
      errors := errors[DurationField := DurationRequired];
      isValid := false;
    } else if !Positive(numberOf(duration)) {
      errors := errors[DurationField := DurationNotPositive];
      isValid := false;
    }
    assert !isValid ==> (TypeField in errors || DurationField in errors);
  }

  /** A form passes exactly with a type and a positive duration. */
  lemma WorkoutValidIff(workoutType: string, duration: string, numberOf: string -> Option<real>)
    ensures WorkoutErrors(workoutType, duration, numberOf) == map[]
        <==> workoutType != "" && duration != "" && Positive(numberOf(duration))
  {
    if workoutType == "" {
      assert TypeField in WorkoutErrors(workoutType, duration, numberOf);
    } else if duration == "" || !Positive(numberOf(duration)) {
      assert DurationField in WorkoutErrors(workoutType, duration, numberOf);
    }
  }

  /** When `Number(String(d))` gives `d` back, the edit form prefilled from
      a workout passes exactly when the workout has a type and a positive duration. */
  lemma PrefillValidates(w: Workout, numberOf: string -> Option<real>, numberText: real -> string)
    requires numberOf(numberText(w.duration)) == Some(w.duration) && numberText(w.duration) != ""
    ensures WorkoutErrors(w.workoutType, numberText(w.duration), numberOf) == map[]
        <==> w.workoutType != "" && w.duration > 0.0
  {
    WorkoutValidIff(w.workoutType, numberText(w.duration), numberOf);
  }

  /** `!currentWorkout?.id` is false: a workout is selected and its id is neither missing nor 0. */
  predicate HasId(current: Option<Workout>) {
    current.Some? && current.value.id.Some? && current.value.id.value != 0
  }

  function SuccessEvents(outcome: Result<(), Failure>, text: string): seq<Event> {
    if outcome.Success? then [Toast(SuccessToast, text)] else []
  }

  class WorkoutsPageState {
    const world: World
    const numberOf: string -> Option<real>
    const numberText: real -> string
    var workoutType: string
    var duration: string
    var isSubmitting: bool
    var errors: map<WorkoutField, string>
    var isEditDialogOpen: bool
    var isDeleteDialogOpen: bool
    var currentWorkout: Option<Workout>
    var editType: string
    var editDuration: string
    var reloads: nat

    constructor (world: World, numberOf: string -> Option<real>, numberText: real -> string)
      ensures this.world == world && this.numberOf == numberOf && this.numberText == numberText
      ensures workoutType == "" && duration == "" && !isSubmitting && errors == map[]
      ensures !isEditDialogOpen && !isDeleteDialogOpen && currentWorkout == None
      ensures editType == "" && editDuration == "" && reloads == 0
    {
      this.world := world;
      this.numberOf := numberOf;
      this.numberText := numberText;
      workoutType, duration, isSubmitting, errors := "", "", false, map[];
      isEditDialogOpen, isDeleteDialogOpen, currentWorkout := false, false, None;
      editType, editDuration, reloads := "", "", 0;
    }

    /** `handleSubmit`: add a valid workout; on success reset the form and reload. */
    method HandleSubmit(outcome: Result<(), Failure>)
      modifies this, world
      ensures errors == WorkoutErrors(old(workoutType), old(duration), numberOf)
      ensures errors != map[] ==>
        && workoutType == old(workoutType) && duration == old(duration)
        && isSubmitting == old(isSubmitting) && reloads == old(reloads)
        && world.token == old(world.token) && world.events == old(world.events)
      ensures errors == map[] ==>
        && !isSubmitting
        && (if outcome.Success? then workoutType == "" && duration == "" && reloads == old(reloads) + 1
            else workoutType == old(workoutType) && duration == old(duration) && reloads == old(reloads))
        && world.token == Api.TokenAfter(old(world.token), outcome)
        && world.events == old(world.events)
           + Api.RequestEvents(old(world.token),
               Api.AddWorkout(WorkoutData(old(workoutType), numberOf(old(duration)).value)), outcome)
           + SuccessEvents(outcome, AddedText)
      ensures isEditDialogOpen == old(isEditDialogOpen) && isDeleteDialogOpen == old(isDeleteDialogOpen)
      ensures currentWorkout == old(currentWorkout) && editType == old(editType) && editDuration == old(editDuration)
    {
      var newErrors, isValid := ValidateForm(workoutType, duration, numberOf);
      errors := newErrors;
      if !isValid {
        return;
      }
      isSubmitting := true;
      var r := Api.MakeRequest(world, Api.AddWorkout(WorkoutData(workoutType, numberOf(duration).value)), outcome);
      if r.Success? {
        workoutType := "";
        duration := "";
        errors := map[];
        reloads := reloads + 1;
        world.events := world.events + [Toast(SuccessToast, AddedText)];
      }
      isSubmitting := false;
    }

    /** `handleEdit`: select the workout, prefill the form, open the dialog. */
    method HandleEdit(w: Workout)
      modifies this
      ensures currentWorkout == Some(w) && isEditDialogOpen
      ensures editType == w.workoutType && editDuration == numberText(w.duration)
      ensures isDeleteDialogOpen == old(isDeleteDialogOpen) && isSubmitting == old(isSubmitting)
      ensures workoutType == old(workoutType) && duration == old(duration) && errors == old(errors)
      ensures reloads == old(reloads)
    {
      currentWorkout := Some(w);
      editType := w.workoutType;
      editDuration := numberText(w.duration);
      isEditDialogOpen := true;
    }

    /** `handleDelete`: select the workout and open the confirmation. */
    method HandleDelete(w: Workout)
      modifies this
      ensures currentWorkout == Some(w) && isDeleteDialogOpen
      ensures isEditDialogOpen == old(isEditDialogOpen) && isSubmitting == old(isSubmitting)
      ensures editType == old(editType) && editDuration == old(editDuration)
      ensures workoutType == old(workoutType) && duration == old(duration) && errors == old(errors)
      ensures reloads == old(reloads)
    {
      currentWorkout := Some(w);
      isDeleteDialogOpen := true;
    }

    /** `handleEditSubmit`: nothing without a workout id; otherwise validate
        the edit form and update. */
    method HandleEditSubmit(outcome: Result<(), Failure>)
      modifies this, world
      ensures !HasId(currentWorkout) ==>
        && errors == old(errors) && isSubmitting == old(isSubmitting) && isEditDialogOpen == old(isEditDialogOpen)
        && reloads == old(reloads) && world.token == old(world.token) && world.events == old(world.events)
      ensures HasId(currentWorkout) ==> errors == WorkoutErrors(editType, editDuration, numberOf)
      ensures HasId(currentWorkout) && errors != map[] ==>
        && isSubmitting == old(isSubmitting) && isEditDialogOpen == old(isEditDialogOpen)
        && reloads == old(reloads) && world.token == old(world.token) && world.events == old(world.events)
      ensures HasId(currentWorkout) && errors == map[] ==>
        && !isSubmitting
        && isEditDialogOpen == (old(isEditDialogOpen) && outcome.Failure?)
        && reloads == old(reloads) + (if outcome.Success? then 1 else 0)
        && world.token == Api.TokenAfter(old(world.token), outcome)
        && world.events == old(world.events)
           + Api.RequestEvents(old(world.token),
               Api.UpdateWorkout(currentWorkout.value.id.value, WorkoutData(editType, numberOf(editDuration).value)),
               outcome)
           + SuccessEvents(outcome, UpdatedText)
      ensures currentWorkout == old(currentWorkout) && editType == old(editType) && editDuration == old(editDuration)
      ensures workoutType == old(workoutType) && duration == old(duration)
      ensures isDeleteDialogOpen == old(isDeleteDialogOpen)
    {
      if !HasId(currentWorkout) {
        return;
      }
      var newErrors, isValid := ValidateForm(editType, editDuration, numberOf);
      errors := newErrors;
      if !isValid {
        return;
      }
      isSubmitting := true;
      var id := currentWorkout.value.id.value;
      var r := Api.MakeRequest(world, Api.UpdateWorkout(id, WorkoutData(editType, numberOf(editDuration).value)), outcome);
      if r.Success? {
        isEditDialogOpen := false;
        world.events := world.events + [Toast(SuccessToast, UpdatedText)];
        reloads := reloads + 1;
      }
      isSubmitting := false;
    }

    /** `handleDeleteConfirm`: nothing without a workout id; otherwise delete. */
    method HandleDeleteConfirm(outcome: Result<(), Failure>)
      modifies this, world
      ensures !HasId(currentWorkout) ==>
        && isSubmitting == old(isSubmitting) && isDeleteDialogOpen == old(isDeleteDialogOpen)
        && reloads == old(reloads) && world.token == old(world.token) && world.events == old(world.events)
      ensures HasId(currentWorkout) ==>
        && !isSubmitting
        && isDeleteDialogOpen == (old(isDeleteDialogOpen) && outcome.Failure?)
        && reloads == old(reloads) + (if outcome.Success? then 1 else 0)
        && world.token == Api.TokenAfter(old(world.token), outcome)
        && world.events == old(world.events)
           + Api.RequestEvents(old(world.token), Api.DeleteWorkout(currentWorkout.value.id.value), outcome)
           + SuccessEvents(outcome, DeletedText)
      ensures currentWorkout == old(currentWorkout) && errors == old(errors)
      ensures editType == old(editType) && editDuration == old(editDuration)
      ensures workoutType == old(workoutType) && duration == old(duration)
      ensures isEditDialogOpen == old(isEditDialogOpen)
    {
      if !HasId(currentWorkout) {
        return;
      }
      isSubmitting := true;
      var r := Api.MakeRequest(world, Api.DeleteWorkout(currentWorkout.value.id.value), outcome);
      if r.Success? {
        isDeleteDialogOpen := false;
        world.events := world.events + [Toast(SuccessToast, DeletedText)];
        reloads := reloads + 1;
      }
      isSubmitting := false;
    }
  }
}
