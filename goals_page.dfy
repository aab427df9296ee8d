/** The onboarding goal page (src/components/GoalsPage.tsx): asks whether to add a goal now,
    and if so collects one and appends it to the stored list before moving on. */
module GoalsPage {
  import opened Wrappers
  import opened Numbers
  import opened Text
  import opened GoalModal

  /** Which half of the page is showing. */
  datatype View = Ask | Form

  class Page {
    var view: View
    var goals: seq<Goal>
    var name: string
    var price: real
    var image: string

    /** The list starts from the stored goals, or empty when nothing is stored;
        the form fields start from '', 0 and ''. */
    constructor (stored: Option<seq<Goal>>)
      ensures stored.None? ==> goals == []
      ensures stored.Some? ==> goals == stored.value
      ensures view == Ask && name == "" && price == 0.0 && image == ""
    {
      goals := stored.GetOr([]);
      view := Ask;
      name, price, image := "", 0.0, "";
    }

    /** The "Now" button. */
    method ChooseNow()
      modifies this`view
      ensures view == Form
    {
      view := Form;
    }

    method InputName(text: string)
      modifies this`name
      ensures name == text
    {
      name := text;
    }

    method InputPrice(parsed: Option<real>)
      modifies this`price
      ensures price == OrZero(parsed)
    {
      price := OrZero(parsed);
    }

    method LoadImage(dataUrl: string)
      modifies this`image
      ensures image == dataUrl
    {
      image := dataUrl;
    }

    /** `addGoal`: when the guard fails the list is unchanged and `onNext` is not called
        (`next` is false); otherwise exactly one goal, the trimmed one, is appended at the
        end and `onNext` is called. */
    method AddGoal() returns (next: bool)
      modifies this`goals
      ensures next <==> Accepts(name, price, image)
      ensures !next ==> goals == old(goals)
      ensures next ==> goals == old(goals) + [Goal(Trim(name), price, image)]
      ensures next ==> |goals| == |old(goals)| + 1 && goals[..|old(goals)|] == old(goals)
      ensures next ==> IsValidGoal(goals[|goals| - 1])
    {
      var built := Validate(name, price, image);
      match built
      case None =>
        next := false;
      case Some(g) =>
        goals := goals + [g];
        next := true;
    }
  }
}
