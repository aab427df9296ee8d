/** The goal editor dialog (src/components/GoalModal.tsx): three input fields seeded from an
    optional initial goal, and a submit guard that builds the goal handed to `onSave`. */
module GoalModal {
  import opened Wrappers
  import opened Numbers
  import opened Text

  /** A goal as the dialog produces it; `image` is an opaque picture reference. */
  datatype Goal = Goal(name: string, price: real, image: string)

  /** The callbacks `submit` fires, in the order it fires them. */
  datatype ModalEvent = OnSave(goal: Goal) | OnClose

  /** The guard shared by `submit` and the onboarding page's `addGoal`: the name is not blank
      once trimmed, the price is positive and an image was chosen. */
  predicate Accepts(name: string, price: real, image: string)
  {
    Trim(name) != [] && price > 0.0 && image != []
  }

  /** A goal the guard can have produced: a non-empty name with nothing left to trim,
      a positive price and an image. */
  predicate IsValidGoal(g: Goal)
  {
    g.name != [] && Trim(g.name) == g.name && g.price > 0.0 && g.image != []
  }

  /** The guard followed by the goal construction `{ name: name.trim(), price, image }`.
      Nothing is built when the guard fails; what is built keeps price and image as entered,
      carries the trimmed name, and is a valid goal. */
  function Validate(name: string, price: real, image: string): (r: Option<Goal>)
    ensures r.Some? <==> Accepts(name, price, image)
    ensures r.Some? ==> r.value.name == Trim(name) && r.value.price == price && r.value.image == image
    ensures r.Some? ==> IsValidGoal(r.value)
  {
    if Accepts(name, price, image) then
      TrimIdempotent(name);
      Some(Goal(Trim(name), price, image))
    else
      None
  }

  /** The dialog's form state: the `name`, `price` and `image` signals. */
  class Modal {
    var name: string
    var price: real
    var image: string

    /** Fields start from `initial` when one is given, else from '', 0 and ''. */
    constructor (initial: Option<Goal>)
      ensures initial.Some? ==> name == initial.value.name && price == initial.value.price && image == initial.value.image
      ensures initial.None? ==> name == "" && price == 0.0 && image == ""
    {
      match initial
      case Some(g) =>
        name, price, image := g.name, g.price, g.image;
      case None =>
        name, price, image := "", 0.0, "";
    }

    /** The effect that runs whenever `initial` changes: a present `initial` overwrites all
        three fields, an absent one leaves them as they were. */
    method Reset(initial: Option<Goal>)
      modifies this
      ensures initial.Some? ==> name == initial.value.name && price == initial.value.price && image == initial.value.image
      ensures initial.None? ==> name == old(name) && price == old(price) && image == old(image)
    {
      if initial.Some? {
        name, price, image := initial.value.name, initial.value.price, initial.value.image;
      }
    }

    /** Typing in the name field. */
    method InputName(text: string)
      modifies this`name
      ensures name == text
    {
      name := text;
    }

    /** Typing in the price field: `parseFloat(value) || 0`. */
    method InputPrice(parsed: Option<real>)
      modifies this`price
      ensures price == OrZero(parsed)
    {
      price := OrZero(parsed);
    }

    /** The image chosen, once the file has been read into a data URL. */
    method LoadImage(dataUrl: string)
      modifies this`image
      ensures image == dataUrl
    {
      image := dataUrl;
    }

    /** `submit`: when the guard fails no callback runs; otherwise `onSave` receives the
        trimmed goal and `onClose` runs after it. Every saved goal is valid. */
    method Submit() returns (calls: seq<ModalEvent>)
      ensures !Accepts(name, price, image) ==> calls == []
      ensures Accepts(name, price, image) ==> calls == [OnSave(Goal(Trim(name), price, image)), OnClose]
      ensures forall e :: e in calls && e.OnSave? ==> IsValidGoal(e.goal)
    {
      var built := Validate(name, price, image);
      match built
      case None =>
        calls := [];
      case Some(g) =>
        calls := [OnSave(g), OnClose];
    }
  }
}
