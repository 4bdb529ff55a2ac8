/** The entities the pages show and the payloads they send. */
module Types {
  import opened Wrappers

  datatype Branch = Branch(id: int, name: string, email: string, location: string)

  /** The branch a user belongs to, as the users endpoint embeds it; its id may be missing. */
  datatype UserBranch = UserBranch(id: Option<int>, name: string)

  /** `branch` is `None` when the server sends `null` for it. */
  datatype User = User(id: int, email: string, role: string, branch: Option<UserBranch>)

  /** A workout as listed; a workout that was never saved has no id. */
  datatype Workout = Workout(id: Option<int>, workoutType: string, duration: real)

  /** `{name, email, location}`: the branch part of a registration and the branch edit form. */
  datatype BranchData = BranchData(name: string, email: string, location: string)

  /** `{email, password, role}`: the user part of a registration. */
  datatype UserData = UserData(email: string, password: string, role: string)

  /** `{email, role, branchId}`: the user edit form. */
  datatype UserEdit = UserEdit(email: string, role: string, branchId: int)

  /** `{type, duration}` as sent to the workouts endpoint. */
  datatype WorkoutData = WorkoutData(workoutType: string, duration: real)

  /** The body of a successful login. */
  datatype LoginReply = LoginReply(token: string)
}
