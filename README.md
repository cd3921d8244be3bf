# Flashcards app: card stack and root selection, in Dafny

The app shows a horizontal list of categories; tapping one opens a stack of
its flashcards, which the user swipes away one at a time (or, on the web,
advances with a "Next" button), and a back button returns to the list. Two
pieces of it hold state logic, and this project models and proves both:

- **The card-stack controller** (`components/Flashcards.js`), module
  `Flashcards` in `flashcards.dfy`. Class `CardStack` holds the remaining
  cards (`data`) and the drag offset of the front card (`offset`), over the
  category's immutable card list (`source`) and the window size captured when
  the gesture handlers are created (`width`, `height`). Its methods are the
  pointer move, the pointer release, `removeCard`, the "Next" button and the
  reload effect. Each animation is atomic: it reaches its target, and its
  completion callback runs at once. The pure parts are functions. `Decide` is
  the release decision and its target. `CardViews` and `Render` are the render
  map (zIndex, drag handlers and transform for the front card only) and its
  `.reverse()`. `Step` and `Run` give the same controller as a state machine
  over events. The class invariant and `RunKeepsSuffix` state that the
  remaining list is always a suffix of the category's cards.
- **The root selection state** (`App.js`), module `App` in `app.dfy`. Class
  `Root` holds the selection and the orientation over a fixed list of
  categories. `Find` is `categories.find` by id. `OrientationOf` is the
  `width > height` test. `ScreenFor` chooses the screen on the truthiness of
  the selection.
- `data.dfy` (module `FlashcardsData`) declares the `Card` and `Category`
  records.

The selection keeps JavaScript's two falsy values apart. `Null` is the
initial value and the value after back. `Undefined` is what a lookup stores
when no category has the id. Both show the Categories screen.

`Next` always dismisses toward `(width, 0)` and then removes the front card.
It never goes through the release threshold (components/Flashcards.js:59-74).

## Model

| member | source | states |
|---|---|---|
| Flashcards.Decide | components/Flashcards.js:33-49 | Dismiss exactly when max(abs(dx), abs(dy)) > 100. Both magnitudes ≤ 100, including exactly 100, snap back. The target x is `width` when dx > 0 and `-width` otherwise (so dx == 0 heads left). The target y is `height` when dy > 0 and `-height` otherwise. |
| Flashcards.Dropped | components/Flashcards.js:55 | `slice(1)`: an empty list stays empty. Putting the old front card back in front of the result gives the old list. The result is a suffix of the old list. |
| Flashcards.DroppedKeepsSuffix | components/Flashcards.js:54-57 | Removing the front card keeps the list a suffix of the category's cards. The list loses exactly one card, or none when already empty. |
| Flashcards.ReloadedKeepsSuffix | components/Flashcards.js:21-25 | The reload effect keeps the list a suffix of the source. It restores the full source once the list is empty. It leaves the list empty only when the source is empty. |
| Flashcards.Reloaded | components/Flashcards.js:21-25 | The reload effect keeps a nonempty list as it is. The result is empty only when both the list and the category's cards are empty. `ReloadedKeepsSuffix` states the rest: the full list is restored once the list is empty. |
| Flashcards.RemoveFront | components/Flashcards.js:54-57 | `removeCard` on the controller state: the offset returns to (0,0). An empty list stays empty. Otherwise the old front card followed by the new list gives the old list. |
| Flashcards.Step | components/Flashcards.js:21-74 | A move sets the offset to (dx, dy) and keeps the list. A release or Next ends at offset (0,0). A snap-back keeps the list. Next, and a release that `Decide` dismisses, drop the front card. The effect keeps the offset and a nonempty list, and reloads an empty one. Every event except the effect leaves a suffix of the list it started from. |
| Flashcards.Run | components/Flashcards.js:21-74 | Events applied in order. A run with no reload effect leaves a suffix of the starting list: without the effect, cards are only ever removed from the front. |
| Flashcards.StepKeepsSuffix | components/Flashcards.js:21-74 | No event (move, release, Next, effect) takes the list outside the suffixes of the category's cards. |
| Flashcards.RunKeepsSuffix | components/Flashcards.js:17-74 | From the initial list (the category's cards) or any suffix of it, every sequence of events leaves the list a suffix of the category's cards. |
| Flashcards.NextPressesDropPrefix | components/Flashcards.js:59-74 | k presses of Next remove exactly the first min(k, length(data)) cards. The rest keep their order. |
| Flashcards.CardViews | components/Flashcards.js:99-111 | The render map keeps card order. zIndex takes values in 1..length(data) and strictly decreases with the index. Only index 0 gets the drag handlers and a transform, and that transform is the live drag offset. |
| Flashcards.Reverse | components/Flashcards.js:120 | `.reverse()`: same length, and element k is the input's element length(s)-1-k. |
| Flashcards.Render | components/Flashcards.js:99-120 | In the rendered list, position k carries zIndex k+1, so drawing order matches stacking order. The last element is the front card with the drag handlers and the live offset. All other elements are static and not draggable. |
| Flashcards.ExactlyOneInteractive | components/Flashcards.js:100-101 | A nonempty stack renders exactly one card with drag handlers. |
| Flashcards.CardStack.constructor | components/Flashcards.js:16-18 | The list starts as the category's cards, at offset (0,0). |
| Flashcards.CardStack.Move | components/Flashcards.js:30-32 | While dragging, the offset equals the latest reported (dx, dy). The list is unchanged. |
| Flashcards.CardStack.RemoveCard | components/Flashcards.js:54-57 | The new state is `RemoveFront` of the old one: the list becomes the old list without its first element, or stays empty, and the offset resets to (0,0). The suffix invariant is kept. |
| Flashcards.CardStack.Release | components/Flashcards.js:33-50 | Returns `Decide(dx, dy, width, height)`. A dismiss ends with the front card removed. A snap-back keeps the list unchanged. Either way the offset ends at (0,0). |
| Flashcards.CardStack.Next | components/Flashcards.js:59-74 | A dismiss toward (width, 0), followed by the same removal of exactly one front card. |
| Flashcards.CardStack.ReloadIfEmpty | components/Flashcards.js:21-25 | An empty list is reloaded with the full category list. A nonempty list and the offset are untouched. |
| App.Find | App.js:29-31 | The result is nothing exactly when no category has the id. Otherwise it is the FIRST category in list order with that id. |
| App.OrientationOf | App.js:17-20 | Landscape exactly when width > height, so a square window is portrait. |
| App.ScreenFor | App.js:41-62 | The Flashcards screen, given the selected category and the orientation, is shown exactly when the selection is truthy. Otherwise the Categories screen is shown with the category list. |
| App.Root.constructor | App.js:13-14 | The selection starts null and the orientation starts portrait, so the Categories screen is shown. |
| App.Root.Select | App.js:29-32 | The selection becomes the first category with the id, or undefined when there is none. The Flashcards screen is shown exactly when some category has the id. The orientation is unchanged. |
| App.Root.Back | App.js:34-36 | The selection becomes null, whatever it was, and the Categories screen is shown. |
| App.Root.UpdateOrientation | App.js:17-20 | The orientation becomes landscape exactly when width > height. The selection is unchanged. |

## Left out

- components/Categories.js: press-feedback animation and a scroll list. Its
  only behaviour is calling `onSelectCategory(id)` when the release animation
  ends. That call is `App.Root.Select`.
- Animation timing, easing and native-driver details (durations 500 and
  100, spring friction and tension). They are floating point inside a
  foreign library. Every animation is modelled as reaching its target at once,
  with its completion callback run immediately.
- Gesture plumbing: `PanResponder` creation and `onMoveShouldSetPanResponder`.
  The `Dimensions` event subscription and unsubscription (App.js:22-26) is
  also left out. The window size is a parameter: `CardStack`'s `width` and
  `height`, and the arguments of `UpdateOrientation`.
- Overlapping gestures while an animation is in flight. Each release, with
  its removal, is one atomic step, so a second release before `removeCard`
  runs (possible in the code) is not modelled.
- React scheduling: the reload effect is the method `ReloadIfEmpty`, which
  the environment calls after a render. The model does not capture when
  React runs it, nor re-render or stale-closure semantics.
- Pointer deltas and window dimensions are JavaScript numbers, modelled as
  unbounded integers. Fractional deltas are not modelled.
- `Platform.OS`: the "Next" button exists only on the web, while the model
  always offers `Next`. Styles, image resolution (`../utils`), `console.log`
  and the back button's opacity feedback are left out. The back button's
  press-out ends in `onBack`, which is `App.Root.Back`.
- The dataset module (`data/flashcardsData`) is not part of this model. The
  categories are a constructor parameter of `App.Root`.
