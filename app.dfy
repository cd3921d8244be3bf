/** The root of the app: which category is selected (if any), the window
    orientation, and the choice between the Categories screen and the
    Flashcards screen. */
module App {
  import opened FlashcardsData

  datatype Option<T> = None | Some(value: T)

  /** The selection state. It starts as null and is set back to null by the
      back action; a lookup that finds no category stores undefined. Both are
      falsy; a category object is truthy. */
  datatype Selection = Null | Undefined | Chosen(category: Category)
  {
    predicate Truthy() { Chosen? }
  }

  datatype Orientation = Portrait | Landscape

  /** The screen on display, with what it is given. */
  datatype Screen =
    | CategoriesScreen(categories: seq<Category>)
    | FlashcardsScreen(category: Category, orientation: Orientation)

  /** The first category whose id equals `id`, or nothing when none does. */
  function Find(categories: seq<Category>, id: int): (r: Option<Category>)
    ensures r.None? <==> forall c :: c in categories ==> c.id != id
    ensures r.Some? ==> r.value in categories && r.value.id == id
    ensures forall i :: 0 <= i < |categories| && categories[i].id == id ==>
                          (forall j :: 0 <= j < i ==> categories[j].id != id) ==> r == Some(categories[i])
  {
    if categories == [] then None
    else if categories[0].id == id then Some(categories[0])
    else Find(categories[1..], id)
  }

  /** The orientation for a window of the given size: landscape exactly when it
      is wider than tall, so a square window is portrait. */
  function OrientationOf(width: int, height: int): (o: Orientation)
    ensures o == Landscape <==> width > height
    ensures width == height ==> o == Portrait
  {
    if width > height then Landscape else Portrait
  }

  /** The screen shown for a selection: the Flashcards screen, for the selected
      category, exactly when the selection is truthy. */
  function ScreenFor(selected: Selection, categories: seq<Category>, orientation: Orientation): (s: Screen)
    ensures s.FlashcardsScreen? <==> selected.Truthy()
    ensures s.FlashcardsScreen? ==> s.category == selected.category && s.orientation == orientation
    ensures s.CategoriesScreen? ==> s.categories == categories
  {
    if selected.Truthy() then FlashcardsScreen(selected.category, orientation)
    else CategoriesScreen(categories)
  }

  /** The app's root component over the dataset's categories. */
  class Root {
    const categories: seq<Category>
    var selected: Selection
    var orientation: Orientation

    /** Nothing is selected and the orientation is portrait until the first
        window-size change. */
    constructor (categories: seq<Category>)
      ensures this.categories == categories
      ensures selected == Null && orientation == Portrait
      ensures Shown() == CategoriesScreen(categories)
    {
      this.categories := categories;
      selected := Null;
      orientation := Portrait;
    }

    function Shown(): Screen
      reads this
    {
      ScreenFor(selected, categories, orientation)
    }

    /** A tap on a category tile: the selection becomes the first category
        with that id, or undefined when none has it. */
    method Select(id: int)
      modifies this
      ensures selected == match Find(categories, id) case Some(c) => Chosen(c) case None => Undefined
      ensures orientation == old(orientation)
      ensures Shown().FlashcardsScreen? <==> exists i :: 0 <= i < |categories| && categories[i].id == id
      ensures Shown().FlashcardsScreen? ==> Shown().category.id == id && Shown().category in categories
    {
      var found := Find(categories, id);
      selected := if found.Some? then Chosen(found.value) else Undefined;
    }

    /** The back action of the Flashcards screen: the selection is cleared,
        whatever it was, and the Categories screen is shown. */
    method Back()
      modifies this
      ensures selected == Null && orientation == old(orientation)
      ensures Shown() == CategoriesScreen(categories)
    {
      selected := Null;
    }

    /** A window-size change: the orientation follows the new size; the
        selection is kept. */
    method UpdateOrientation(width: int, height: int)
      modifies this
      ensures orientation == OrientationOf(width, height)
      ensures orientation == Landscape <==> width > height
      ensures selected == old(selected)
    {
      orientation := OrientationOf(width, height);
    }
  }
}
