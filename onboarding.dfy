/** The six-step onboarding wizard of components/Onboarding.tsx: step 1 asks for a name, step 2
    for age, weight and height, steps 3 to 5 for the objective, diet and activity level, and
    step 6 builds the profile handed to the app. The wizard is a class over the `step` counter
    and the `data` record; each button is a method that requires the step that shows it. */
module Onboarding {
  import opened Types
  import App

  /** The wizard's form data. */
  datatype WizardData = WizardData(
    name: string,
    age: int,
    weight: int,
    height: int,
    objective: string,
    diet: string,
    activity: string)

  const WeightLoss := "Weight Loss"
  const MuscleGain := "Muscle Gain"

  /** The choices offered on steps 3, 4 and 5. */
  const Objectives: seq<string> := [WeightLoss, MuscleGain, "Health Maintenance", "Peak Performance"]
  const Diets: seq<string> := ["No Preference", "Vegan", "Keto", "Paleo", "Intermittent Fasting"]
  const Activities: seq<string> :=
    ["Sedentary", "Lightly Active", "Moderately Active", "Very Active", "Pro Athlete"]

  const FirstStep := 1
  const LastStep := 6

  /** The slider ranges of step 2. */
  predicate InSliderRanges(d: WizardData)
  {
    13 <= d.age <= 100 && 40 <= d.weight <= 200 && 100 <= d.height <= 220
  }

  /** `baseCals`: the daily calorie target for an objective. */
  function BaseCalories(objective: string): (cals: int)
    ensures objective == WeightLoss <==> cals == 1800
    ensures objective == MuscleGain <==> cals == 2600
    ensures objective != WeightLoss && objective != MuscleGain <==> cals == 2200
  {
    if objective == WeightLoss then 1800 else if objective == MuscleGain then 2600 else 2200
  }

  /** `finish`'s profile: fresh counters, a free account, the fixed macro and water goals,
      and everything else copied from the form. The id is filled in later by the app. */
  function BuildProfile(d: WizardData): (p: UserProfile)
    ensures p.onboarded && p.scan_count == 0 && p.daily_scan_count == 0
    ensures p.last_scan_date == "" && !p.is_pro && p.id == ""
    ensures p.name == d.name
    ensures p.goals.calories == BaseCalories(d.objective)
    ensures p.goals.protein == 150 && p.goals.carbs == 200 && p.goals.fat == 70 && p.goals.water_ml == 2500
    ensures p.goals.primary_objective == d.objective
    ensures p.dietary_preference == d.diet && p.activity_level == d.activity
    ensures p.stats == Stats(d.weight, d.height, d.age)
  {
    UserProfile(
      id := "", name := d.name, onboarded := true, scan_count := 0, daily_scan_count := 0,
      last_scan_date := "", is_pro := false, dietary_preference := d.diet, activity_level := d.activity,
      goals := Goals(BaseCalories(d.objective), 150, 200, 70, 2500, d.objective),
      stats := Stats(d.weight, d.height, d.age))
  }

  /** A freshly onboarded user may scan: the empty last-scan date is never today's date. */
  lemma OnboardedUserMayScan(d: WizardData, today: string)
    requires today != ""
    ensures App.CanUserScan(Some(BuildProfile(d)), today)
  {
  }

  /** After onboarding, a reload reads back the upserted name, calorie goal, stats, diet and
      activity, with fresh counters when no scans were stored. The objective is not part of
      the upsert, so it comes back as whatever was stored before, or "Weight Loss". */
  lemma ReloadAfterOnboarding(stored: App.ProfileRow, userId: string, d: WizardData, today: string)
    requires d.name != "" && InSliderRanges(d) && d.diet != "" && d.activity != ""
    requires stored.id == userId && stored.scan_count.None? && stored.daily_scan_count.None?
    requires stored.last_scan_date.None?
    ensures var row := App.ApplyUpsert(stored, App.OnboardingUpsert(userId, BuildProfile(d)));
            var reloaded := App.ProfileFromRow(row, today);
            && reloaded == BuildProfile(d).(
                 id := userId, last_scan_date := today,
                 goals := BuildProfile(d).goals.(primary_objective := StringOr(stored.primary_objective, WeightLoss)))
  {
  }

  class Wizard {
    var step: int
    var data: WizardData

    /** The step is one of the six, the form stays within the sliders' ranges and the listed
        choices, and no step after the first is reached without a name. */
    ghost predicate Valid()
      reads this
    {
      FirstStep <= step <= LastStep &&
      InSliderRanges(data) &&
      data.objective in Objectives && data.diet in Diets && data.activity in Activities &&
      (step > FirstStep ==> data.name != "")
    }

    /** The initial state: step 1 and the form defaults. */
    constructor ()
      ensures Valid()
      ensures step == FirstStep
      ensures data == WizardData("", 25, 70, 175, WeightLoss, "No Preference", "Moderately Active")
    {
      step := FirstStep;
      data := WizardData("", 25, 70, 175, WeightLoss, "No Preference", "Moderately Active");
    }

    /** The name field of step 1. */
    method EditName(name: string)
      requires Valid() && step == 1
      modifies this`data
      ensures Valid()
      ensures data == old(data).(name := name)
    {
      data := data.(name := name);
    }

    /** Step 1's button, disabled while the name is empty. */
    method ContinueFromName()
      requires Valid() && step == 1
      modifies this`step
      ensures Valid()
      ensures old(data.name) == "" ==> step == old(step)
      ensures old(data.name) != "" ==> step == old(step) + 1
    {
      if data.name != "" {
        step := step + 1;
      }
    }

    /** The three sliders of step 2, each within its range. */
    method SetAge(v: int)
      requires Valid() && step == 2 && 13 <= v <= 100
      modifies this`data
      ensures Valid()
      ensures data == old(data).(age := v)
    {
      data := data.(age := v);
    }

    method SetWeight(v: int)
      requires Valid() && step == 2 && 40 <= v <= 200
      modifies this`data
      ensures Valid()
      ensures data == old(data).(weight := v)
    {
      data := data.(weight := v);
    }

    method SetHeight(v: int)
      requires Valid() && step == 2 && 100 <= v <= 220
      modifies this`data
      ensures Valid()
      ensures data == old(data).(height := v)
    {
      data := data.(height := v);
    }

    /** Step 2's continue button. */
    method ContinueSync()
      requires Valid() && step == 2
      modifies this`step
      ensures Valid()
      ensures step == old(step) + 1
    {
      step := step + 1;
    }

    /** The back buttons of steps 2 and 3. */
    method Back()
      requires Valid() && (step == 2 || step == 3)
      modifies this`step
      ensures Valid()
      ensures step == old(step) - 1
    {
      step := step - 1;
    }

    /** An objective button of step 3: records the choice and advances. */
    method ChooseObjective(g: string)
      requires Valid() && step == 3 && g in Objectives
      modifies this`step, this`data
      ensures Valid()
      ensures data == old(data).(objective := g) && step == old(step) + 1
    {
      data := data.(objective := g);
      step := step + 1;
    }

    /** A diet button of step 4: records the choice and advances. */
    method ChooseDiet(diet: string)
      requires Valid() && step == 4 && diet in Diets
      modifies this`step, this`data
      ensures Valid()
      ensures data == old(data).(diet := diet) && step == old(step) + 1
    {
      data := data.(diet := diet);
      step := step + 1;
    }

    /** An activity button of step 5: records the choice and advances. */
    method ChooseActivity(activity: string)
      requires Valid() && step == 5 && activity in Activities
      modifies this`step, this`data
      ensures Valid()
      ensures data == old(data).(activity := activity) && step == old(step) + 1
    {
      data := data.(activity := activity);
      step := step + 1;
    }

    /** Step 6's button: the profile handed to the app, named, with a calorie goal of 1800,
        2200 or 2600 and stats within the sliders' ranges. */
    method Finish() returns (profile: UserProfile)
      requires Valid() && step == LastStep
      ensures profile == BuildProfile(data)
      ensures profile.name != ""
      ensures profile.goals.calories in {1800, 2200, 2600}
      ensures 13 <= profile.stats.age <= 100 && 40 <= profile.stats.weight <= 200
      ensures 100 <= profile.stats.height <= 220
    {
      profile := BuildProfile(data);
    }
  }
}
