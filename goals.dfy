/**
 * The goal store: savings goals of which at most one is the current
 * ("completed") one, and the settings the monthly planner reads.
 */
module Goals {

  datatype Goal = Goal(id: string, title: string, amount: string, description: string, isCompleted: bool)

  /** Amounts and counts are kept as the text the user typed. */
  datatype DateSettings = DateSettings(
    monthlyBudget: string,
    datesPerMonth: string,
    preferredVibe: string,
    userPreferences: seq<string>)

  /** The goals `GoalProvider` starts with. */
  const InitialGoals: seq<Goal> := [
    Goal("1", "No-Spend Weekend", "0", "Let's enjoy a movie night at home!", false),
    Goal("2", "Anniversary Dinner", "50", "Saving $50/week for that nice place.", true),
    Goal("3", "Coffee Date", "15", "Budget: $15. Just a quick catchup.", false)
  ]

  const InitialSettings: DateSettings := DateSettings("200", "4", "Balanced", [])

  /** The goal `addGoal` creates; an empty field falls back to its default (`x || default`). */
  function NewGoal(id: string, title: string, amount: string, description: string): Goal {
    Goal(id,
         if title == "" then "New Goal" else title,
         if amount == "" then "0" else amount,
         if description == "" then "Together" else description,
         false)
  }

  /** `toggleGoal`'s update: the target flips, every other goal is unchecked. */
  function Toggled(gs: seq<Goal>, id: string): seq<Goal> {
    seq(|gs|, i requires 0 <= i < |gs| =>
      if gs[i].id == id then gs[i].(isCompleted := !gs[i].isCompleted) else gs[i].(isCompleted := false))
  }

  predicate UniqueIds(gs: seq<Goal>) {
    forall i, j :: 0 <= i < j < |gs| ==> gs[i].id != gs[j].id
  }

  predicate AtMostOneCompleted(gs: seq<Goal>) {
    forall i, j :: 0 <= i < |gs| && 0 <= j < |gs| && gs[i].isCompleted && gs[j].isCompleted ==> i == j
  }

  /** The initial goals have distinct ids and one completed goal. */
  lemma InitialGoalsWellFormed()
    ensures UniqueIds(InitialGoals) && AtMostOneCompleted(InitialGoals)
    ensures InitialGoals[1].isCompleted
  {
  }

  /** With distinct ids, toggling leaves exactly the target completed if it was not, and nothing completed if it was. */
  lemma ToggleIsExclusive(gs: seq<Goal>, id: string, k: nat)
    requires UniqueIds(gs) && k < |gs| && gs[k].id == id
    ensures forall i :: 0 <= i < |gs| ==> (Toggled(gs, id)[i].isCompleted <==> i == k && !gs[k].isCompleted)
  {
  }

  /** Toggling an id that no goal has unchecks every goal. */
  lemma ToggleUnknownClearsAll(gs: seq<Goal>, id: string)
    requires forall i :: 0 <= i < |gs| ==> gs[i].id != id
    ensures forall i :: 0 <= i < |gs| ==> !Toggled(gs, id)[i].isCompleted
  {
  }

  /** Toggling changes nothing but `isCompleted`: same length, order, ids, titles, amounts and descriptions. */
  lemma ToggleKeepsGoals(gs: seq<Goal>, id: string)
    ensures |Toggled(gs, id)| == |gs|
    ensures forall i :: 0 <= i < |gs| ==> Toggled(gs, id)[i].(isCompleted := gs[i].isCompleted) == gs[i]
  {
  }

  /** The in-memory store of `GoalProvider`. */
  class GoalStore {
    var goals: seq<Goal>
    var dateSettings: DateSettings

    /** Goal ids are distinct and at most one goal is completed. */
    ghost predicate Valid()
      reads this
    {
      UniqueIds(goals) && AtMostOneCompleted(goals)
    }

    constructor ()
      ensures Valid()
      ensures goals == InitialGoals && dateSettings == InitialSettings
    {
      goals := InitialGoals;
      dateSettings := InitialSettings;
    }

    /** Prepends a new unchecked goal; `id` stands in for the timestamp id, assumed not yet in use. */
    method AddGoal(id: string, title: string, amount: string, description: string)
      requires Valid()
      requires forall i :: 0 <= i < |goals| ==> goals[i].id != id
      modifies this`goals
      ensures Valid()
      ensures goals == [NewGoal(id, title, amount, description)] + old(goals)
      ensures !goals[0].isCompleted
    {
      goals := [NewGoal(id, title, amount, description)] + goals;
    }

    method ToggleGoal(id: string)
      requires Valid()
      modifies this`goals
      ensures Valid()
      ensures goals == Toggled(old(goals), id)
      ensures |goals| == |old(goals)|
      ensures forall i :: 0 <= i < |goals| ==>
        goals[i].isCompleted == (old(goals)[i].id == id && !old(goals)[i].isCompleted)
      ensures forall i :: 0 <= i < |goals| ==> goals[i].(isCompleted := old(goals)[i].isCompleted) == old(goals)[i]
    {
      goals := Toggled(goals, id);
    }

    method UpdateDateSettings(settings: DateSettings)
      modifies this`dateSettings
      ensures dateSettings == settings
    {
      dateSettings := settings;
    }
  }
}
