/**
 * The meal-entry page's logic: the list of selected (food id, amount) pairs,
 * adding and removing foods, and the checks and construction of submit.
 * Date-time parsing, fresh ids and the API call are parameters.
 */
module MealEntry {
  import opened Wrappers
  import opened Models
  import opened AppRoutes

  /** The selected foods: (food id, amount) pairs in the order added. */
  type Selection = seq<(string, F32)>

  /** No food id occurs twice. */
  predicate DistinctIds(sel: Selection) {
    forall i, j | 0 <= i < j < |sel| :: sel[i].0 != sel[j].0
  }

  /** Whether some entry has the given food id. */
  predicate Selected(sel: Selection, id: string) {
    exists i | 0 <= i < |sel| :: sel[i].0 == id
  }

  /**
   * The specification of the update in `on_add_food`: the first entry with
   * the id gets the new amount, or the pair is appended when there is none.
   */
  function Upsert(sel: Selection, id: string, amount: F32): Selection {
    if sel == [] then [(id, amount)]
    else if sel[0].0 == id then [(id, amount)] + sel[1..]
    else [sel[0]] + Upsert(sel[1..], id, amount)
  }

  /** The loop of `on_add_food`: overwrite the first matching amount and stop, else push. */
  method UpsertSelection(sel: Selection, id: string, amount: F32) returns (updated: Selection)
    ensures updated == Upsert(sel, id, amount)
  {
    updated := sel;
    var found := false;
    var i := 0;
    while i < |updated|
      invariant 0 <= i <= |updated| == |sel|
      invariant updated == sel
      invariant forall j | 0 <= j < i :: sel[j].0 != id
      invariant Upsert(sel, id, amount) == sel[..i] + Upsert(sel[i..], id, amount)
    {
      if updated[i].0 == id {
        updated := updated[i := (id, amount)];
        found := true;
        break;
      }
      assert sel[i..] == [sel[i]] + sel[i + 1..];
      assert sel[..i + 1] == sel[..i] + [sel[i]];
      i := i + 1;
    }
    if !found {
      assert sel[i..] == [];
      updated := updated + [(id, amount)];
    } else {
      assert sel[i..] == [sel[i]] + sel[i + 1..];
      assert updated == sel[..i] + [(id, amount)] + sel[i + 1..];
    }
  }

  /** A food already selected keeps its place: only the first entry with its id changes, and only its amount. */
  lemma {:induction false} UpsertOverwrites(sel: Selection, id: string, amount: F32)
    requires Selected(sel, id)
    ensures var k := FirstIndex(sel, id);
      Upsert(sel, id, amount) == sel[k := (id, amount)] && sel[k].0 == id
  {
    var k := FirstIndex(sel, id);
    if sel[0].0 != id {
      var i :| 0 <= i < |sel| && sel[i].0 == id;
      assert sel[1..][i - 1].0 == id;
      UpsertOverwrites(sel[1..], id, amount);
    }
  }

  /** The position of the first entry with the id. */
  function FirstIndex(sel: Selection, id: string): (k: nat)
    requires Selected(sel, id)
    ensures k < |sel| && sel[k].0 == id
    ensures forall j | 0 <= j < k :: sel[j].0 != id
  {
    if sel[0].0 == id then 0
    else
      var i :| 0 <= i < |sel| && sel[i].0 == id;
      assert sel[1..][i - 1].0 == id;
      1 + FirstIndex(sel[1..], id)
  }

  /** A food not yet selected is appended at the end. */
  lemma {:induction false} UpsertAppends(sel: Selection, id: string, amount: F32)
    requires !Selected(sel, id)
    ensures Upsert(sel, id, amount) == sel + [(id, amount)]
  {
    if sel != [] {
      assert !Selected(sel[1..], id) by {
        forall i | 0 <= i < |sel[1..]|
          ensures sel[1..][i].0 != id
        {
          assert sel[1..][i] == sel[i + 1];
        }
      }
      UpsertAppends(sel[1..], id, amount);
      assert [sel[0]] + sel[1..] == sel;
    }
  }

  /** Adding never introduces a second entry for a food. */
  lemma UpsertKeepsDistinct(sel: Selection, id: string, amount: F32)
    requires DistinctIds(sel)
    ensures DistinctIds(Upsert(sel, id, amount))
  {
    if Selected(sel, id) {
      UpsertOverwrites(sel, id, amount);
    } else {
      UpsertAppends(sel, id, amount);
    }
  }

  /** The specification of `retain`: the entries whose id differs, in their order. */
  function Without(sel: Selection, id: string): (rest: Selection)
    ensures |rest| <= |sel|
  {
    if sel == [] then []
    else (if sel[0].0 == id then [] else [sel[0]]) + Without(sel[1..], id)
  }

  /** `retain(|(f, _)| f != id)` as a loop over the selection. */
  method RetainOthers(sel: Selection, id: string) returns (kept: Selection)
    ensures kept == Without(sel, id)
  {
    kept := [];
    var i := |sel|;
    while i > 0
      invariant 0 <= i <= |sel|
      invariant kept == Without(sel[i..], id)
    {
      i := i - 1;
      assert sel[i..][1..] == sel[i + 1..];
      if sel[i].0 != id {
        kept := [sel[i]] + kept;
      }
    }
  }

  /** Removing distributes over concatenation: the remaining entries keep their relative order. */
  lemma {:induction false} WithoutAppend(a: Selection, b: Selection, id: string)
    ensures Without(a + b, id) == Without(a, id) + Without(b, id)
  {
    if a != [] {
      WithoutAppend(a[1..], b, id);
      assert (a + b)[0] == a[0] && (a + b)[1..] == a[1..] + b;
    } else {
      assert a + b == b;
    }
  }

  /** An entry survives removal exactly when it was there and has another id. */
  lemma {:induction false} WithoutMembers(sel: Selection, id: string, x: (string, F32))
    ensures x in Without(sel, id) <==> x in sel && x.0 != id
  {
    if sel != [] {
      WithoutMembers(sel[1..], id, x);
      assert sel == [sel[0]] + sel[1..];
    }
  }

  /** Removing an id that is not selected changes nothing. */
  lemma {:induction false} WithoutAbsent(sel: Selection, id: string)
    requires !Selected(sel, id)
    ensures Without(sel, id) == sel
  {
    if sel != [] {
      assert !Selected(sel[1..], id) by {
        forall i | 0 <= i < |sel[1..]|
          ensures sel[1..][i].0 != id
        {
          assert sel[1..][i] == sel[i + 1];
        }
      }
      WithoutAbsent(sel[1..], id);
      assert [sel[0]] + sel[1..] == sel;
    }
  }

  /** Whether the food database knows the id (`foods.iter().any(|f| f.id == id)`). */
  predicate Known(foods: seq<FoodItem>, id: string) {
    exists i | 0 <= i < |foods| :: foods[i].id == id
  }

  /** The meal items of a selection, one for one and in order. */
  function ItemsOf(sel: Selection): (items: seq<MealItem>)
    ensures |items| == |sel|
    ensures forall i | 0 <= i < |sel| :: items[i].foodId == sel[i].0 && items[i].amount == sel[i].1
  {
    seq(|sel|, i requires 0 <= i < |sel| => MealItem(sel[i].0, sel[i].1))
  }

  /** The text handed to the RFC 3339 parser: `format!("{}T{}:00", date, time)`. */
  function DateTimeText(date: string, time: string): (s: string)
    ensures |s| == |date| + |time| + 4
  {
    date + "T" + time + ":00"
  }

  /** A time-offset suffix as section 5.6 of RFC 3339 requires one: "Z" or "+hh:mm" / "-hh:mm". */
  predicate HasOffset(s: string) {
    (|s| >= 1 && s[|s| - 1] in {'Z', 'z'}) || (|s| >= 6 && s[|s| - 6] in {'+', '-'})
  }

  /**
   * The submitted text never carries an offset when the time field holds
   * "HH:MM", so a parser that insists on one (as RFC 3339 does) rejects
   * every submission.
   */
  lemma DateTimeTextHasNoOffset(date: string, time: string)
    requires |time| == 5 && time[2] == ':'
    ensures !HasOffset(DateTimeText(date, time))
  {
    var s := DateTimeText(date, time);
    assert s[|s| - 1] == '0';
    assert s[|s| - 6] == time[2];
  }

  /** Where the submitted meal goes once the API answers. */
  datatype Navigation = Stay | GoTo(route: Route)

  /** The form's state handles. */
  class MealForm {
    var name: string
    var date: string
    var time: string
    var notes: string
    var foods: seq<FoodItem>
    var selected: Selection
    var selectedFoodId: string
    var selectedAmount: F32
    var errorMessage: string
    var isSubmitting: bool

    constructor (date: string, time: string, defaultAmount: F32)
      ensures this.date == date && this.time == time && selectedAmount == defaultAmount
      ensures name == "" && notes == "" && foods == [] && selected == [] && selectedFoodId == ""
      ensures errorMessage == "" && !isSubmitting
    {
      name := "";
      this.date := date;
      this.time := time;
      notes := "";
      foods := [];
      selected := [];
      selectedFoodId := "";
      selectedAmount := defaultAmount;
      errorMessage := "";
      isSubmitting := false;
    }

    /**
     * `on_add_food`: nothing happens without a chosen id or for an id the food
     * database does not know; otherwise the chosen amount is upserted.
     */
    method AddFood()
      modifies this`selected
      ensures selectedFoodId == "" || !Known(foods, selectedFoodId) ==> selected == old(selected)
      ensures selectedFoodId != "" && Known(foods, selectedFoodId) ==>
        selected == Upsert(old(selected), selectedFoodId, selectedAmount)
    {
      if selectedFoodId == "" {
        return;
      }
      if !Known(foods, selectedFoodId) {
        return;
      }
      selected := UpsertSelection(selected, selectedFoodId, selectedAmount);
    }

    /** `on_remove_food`: drop every entry with the id. */
    method RemoveFood(id: string)
      modifies this`selected
      ensures selected == Without(old(selected), id)
    {
      selected := RetainOthers(selected, id);
    }

    /**
     * `on_submit`: an empty name, then an empty selection, then an unparsable
     * date-time each set their message and build nothing; otherwise the meal
     * is built (the id from the page's props, else a fresh one) and
     * submission starts.
     */
    method Submit(parse: string -> Option<Instant>, propsId: Option<string>, freshId: string) returns (meal: Option<Meal>)
      modifies this`errorMessage, this`isSubmitting
      ensures name == "" ==> meal.None? && errorMessage == "Please enter a meal name" && isSubmitting == old(isSubmitting)
      ensures name != "" && selected == [] ==>
        meal.None? && errorMessage == "Please add at least one food item" && isSubmitting == old(isSubmitting)
      ensures name != "" && selected != [] && parse(DateTimeText(date, time)).None? ==>
        meal.None? && errorMessage == "Invalid date or time format" && isSubmitting == old(isSubmitting)
      ensures meal.Some? <==> name != "" && selected != [] && parse(DateTimeText(date, time)).Some?
      ensures meal.Some? ==>
        && meal.value == Meal(propsId.GetOr(freshId), "current_user", name, parse(DateTimeText(date, time)).value,
                              ItemsOf(selected), if notes == "" then None else Some(notes))
        && isSubmitting && errorMessage == old(errorMessage)
    {
      if name == "" {
        errorMessage := "Please enter a meal name";
        return None;
      }
      if selected == [] {
        errorMessage := "Please add at least one food item";
        return None;
      }
      var timestamp := parse(DateTimeText(date, time));
      if timestamp.None? {
        errorMessage := "Invalid date or time format";
        return None;
      }
      var id := if propsId.Some? then propsId.value else freshId;
      meal := Some(Meal(id, "current_user", name, timestamp.value, ItemsOf(selected),
                        if notes == "" then None else Some(notes)));
      isSubmitting := true;
    }

    /** The end of the submission: to the meal list on success, else an error message; submitting stops. */
    method Submitted<E>(result: Result<Meal, E>) returns (nav: Navigation)
      modifies this`errorMessage, this`isSubmitting
      ensures !isSubmitting
      ensures result.Ok? ==> nav == GoTo(MealList) && errorMessage == old(errorMessage)
      ensures result.Err? ==> nav == Stay && errorMessage == "Failed to save meal. Please try again."
    {
      if result.Ok? {
        nav := GoTo(MealList);
      } else {
        errorMessage := "Failed to save meal. Please try again.";
        nav := Stay;
      }
      isSubmitting := false;
    }
  }
}
