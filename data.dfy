/** The records of the static dataset the app is built over: categories, each
    owning an ordered list of flashcards. Both are immutable values. */
module FlashcardsData {

  /** One flashcard. `image` stands for the asset reference the renderer
      resolves; the model never looks inside it. */
  datatype Card = Card(id: int, name: string, image: string)

  /** A category and its cards, in the order they are shown. */
  datatype Category = Category(id: int, name: string, flashcards: seq<Card>)
}
