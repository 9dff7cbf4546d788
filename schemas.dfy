/** The request body of a plan request. */
module Schemas {
  import opened Wrappers

  /** `PlanRequest`: the user's profile as sent with a plan request. Lists
      default to empty, the dietary style to "" and the budget to
      "Moderate"; the tracker readings are optional. */
  datatype PlanRequest = PlanRequest(
    age: int,
    gender: string,
    heightCm: real,
    weightKg: real,
    goal: string,
    activity: string,
    medicalConditions: seq<string>,
    dietaryStyle: string,
    proteins: seq<string>,
    allergies: seq<string>,
    cuisines: seq<string>,
    budget: string,
    stepsToday: Option<int>,
    caloriesBurned: Option<int>,
    activeMinutes: Option<int>)
}
