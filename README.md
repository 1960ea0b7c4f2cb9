# Screenshot Beautifier — verified model of its logic

Screenshot Beautifier is a browser tool that puts a screenshot or a code
snippet on a gradient background and exports the result as a PNG. Nearly all
of it is layout. This project models the four pieces of it that compute
something, and proves what each one promises:

- **Custom-gradient library** (`gradient_library.dfy`, module `GradientLibrary`).
  The page keeps a most-recent-first list of CSS background strings. It also
  keeps the selected background and a storage slot that stands for
  `localStorage["custom_gradients"]`. `Add` prepends and keeps at most 12
  entries, writes the list and selects the new entry. `Delete` filters one
  position out and writes the rest. It leaves the selection alone. At start-up
  a stored text that is present, non-empty and parseable replaces the list.
  JSON is modelled as a pair of function values (`Json`). `RoundTrips` states
  JSON's guarantee that a written list of strings parses back to itself.
- **Fit scaler** (`fit_scaler.dfy`, module `FitScaler`). It computes
  `scale = min((wrapperW - 80) / contentW, (wrapperH - 80) / contentH, 1)`.
  Pixel sizes are `nat` and the arithmetic is exact, over `real`. The `Canvas`
  class holds the `scale` state. Its `UpdateScale` method skips the update
  when image mode has no image or when an element is missing.
- **Token renderer** (`prism_render.dfy`, module `PrismRender`). It maps a Prism
  token tree to spans. Each span's class comes from the first token type looked
  up in the colour table, or is `""`. Language names are normalised (`html` to
  `markup`), and an unknown grammar falls back to javascript. The tokenizer and
  the grammar table are parameters.
- **Gradient builder** (`gradient_builder.dfy`, module `GradientBuilder`). It
  serialises (colour1, colour2, angle) to
  `linear-gradient(<angle>deg, <c1> 0%, <c2> 100%)`. The angle is written in
  decimal, as a JavaScript template literal does. `Parse` is its inverse on
  colours a colour picker produces. `Library.AddFromBuilder` connects the
  builder to the library.

`options.dfy` holds the `Option` datatype that the other modules share.

Behaviour of the code worth knowing:

- The fit factor has no positivity guard: it is positive exactly when both
  wrapper sides exceed 80 px (`FitScaler.PositiveIff`), and zero or negative
  otherwise.
- Zero-sized content does not skip the recompute; only image mode without an
  image, or a missing element, does (`FitScaler.Skipped`).
- The inset is 80 px, so a 520×420 container in a 300×300 wrapper gets the
  factor 220/520 (`FitScaler.ResizeScenario`).
- Only adding truncates the library to 12 entries. Loading restores a stored
  list of any length as it is (`GradientLibrary.PersistThenReload`).
- The colour table's key is `attr`, so Prism's `attr-name` and `attr-value`
  tokens get no class (`PrismRender.ClassExamples`).

## Model

| member | source | states |
|---|---|---|
| `GradientLibrary.Take` | src/app/page.tsx:38 | `slice(0, n)`: the result has min(len, n) entries, each the input's entry at the same position |
| `GradientLibrary.WithAdded` | src/app/page.tsx:38 | the added list has length min(n+1, 12), starts with the new entry, and entry k+1 is the old entry k |
| `GradientLibrary.AddShape` | src/app/page.tsx:38 | adding gives exactly `[g] + old[..min(n, 11)]` |
| `GradientLibrary.AddToFull` | src/app/page.tsx:38 | adding to a full list of 12 keeps 12 entries and evicts the old last one; as a multiset, the new entry replaces the evicted one |
| `GradientLibrary.AddBelowCap` | src/app/page.tsx:38 | below the cap nothing is dropped: the result is `[g] + old`, and its multiset gains exactly one `g` |
| `GradientLibrary.AddKeepsDuplicates` | src/app/page.tsx:38 | add does not deduplicate: re-adding an entry that survives the cut leaves at least two copies |
| `GradientLibrary.WithoutIndex` | src/app/page.tsx:45 | filtering out position i gives `old[..i] + old[i+1..]` when 0 <= i < n, and the list unchanged for any other index |
| `GradientLibrary.DeleteInRange` | src/app/page.tsx:45 | a valid delete leaves n-1 entries; those before i stay in place and those after i move down one, in order |
| `GradientLibrary.DeleteRemovesOne` | src/app/page.tsx:45 | a valid delete removes exactly one copy of the deleted entry from the multiset |
| `GradientLibrary.Loaded` | src/app/page.tsx:26-35 | the stored value replaces the list iff it is present, non-empty and parses; the replacement is the parsed list as is |
| `GradientLibrary.PersistThenReload` | src/app/page.tsx:26-41 | for a round-tripping JSON, the text written for any list, of any length, loads back as that same list |
| `GradientLibrary.Library.constructor` | src/app/page.tsx:15-17 | the list starts empty, the background is the default radial gradient, and storage holds what the browser had |
| `GradientLibrary.Library.LoadSaved` | src/app/page.tsx:26-35 | the mount effect replaces the list with the loaded one, or keeps it when loading fails; background and storage are unchanged |
| `GradientLibrary.Library.Add` | src/app/page.tsx:37-42 | the new list is `WithAdded(old, g)`, storage holds its JSON text, and the background becomes `g` |
| `GradientLibrary.Library.Delete` | src/app/page.tsx:44-48 | the new list is `WithoutIndex(old, i)`, storage holds its JSON text, and the background is unchanged even if it was the deleted entry |
| `GradientLibrary.Library.AddFromBuilder` | src/components/GradientBuilder.tsx:75 | the string the builder previews becomes the first library entry and the background, and it is stored |
| `GradientLibrary.Startup` | src/app/page.tsx:15-35 | first render followed by the mount effect: the list is the loaded one, or empty when there is nothing valid to load |
| `GradientLibrary.AddThenReload` | src/app/page.tsx:26-42 | after an add, a fresh page started from the written storage shows the same list, with the new entry first and at most 12 entries |
| `FitScaler.FitScale` | src/components/Canvas.tsx:90-99 | the factor is at most 1 and keeps both scaled sides within the wrapper minus 80; either it is 1 or one of the two sides is tight |
| `FitScaler.FitIsLargest` | src/components/Canvas.tsx:97-99 | every factor <= 1 that keeps both sides inside the inset is <= the computed one, so it is the minimum of the three candidates |
| `FitScaler.FitsMeansNatural` | src/components/Canvas.tsx:97-99 | the factor is exactly 1 iff the content already fits inside the 80 px inset |
| `FitScaler.PositiveIff` | src/components/Canvas.tsx:90-99 | the factor is positive iff both wrapper sides exceed 80; nothing guards the other case |
| `FitScaler.ResizeScenario` | src/components/Canvas.tsx:90-99 | a 520×420 container gets factor 1 in an 800×600 wrapper and 220/520 in a 300×300 wrapper |
| `FitScaler.PercentLabel` | src/components/Canvas.tsx:262 | the label is `scale*100` rounded half up to an integer |
| `FitScaler.LabelRange` | src/components/Canvas.tsx:262 | for a factor in [0, 1] the label is between 0 and 100, and it is 100 at natural size |
| `FitScaler.Skipped` | src/components/Canvas.tsx:83-88 | the recompute is skipped in image mode without an image or when the wrapper or container element is missing; when it runs, both sizes are present |
| `FitScaler.Canvas.constructor` | src/components/Canvas.tsx:54 | the scale starts at 1 |
| `FitScaler.Canvas.UpdateScale` | src/components/Canvas.tsx:83-101 | in image mode without an image, or with an element missing, the previous scale is kept; otherwise the scale becomes `FitScale` of the measured sizes; scale <= 1 is preserved |
| `PrismRender.PrimaryType` | src/components/Canvas.tsx:144 | a single type is the token's type; of an array of types the first is used, and an empty array gives none |
| `PrismRender.ClassOf` | src/components/Canvas.tsx:144-145 | a token's class is `TOKEN_COLORS[first type]` when that key exists, and `""` otherwise (including an empty type list) |
| `PrismRender.ClassExamples` | src/components/Canvas.tsx:30-48 | only the first of several types decides; `attr-name` gets `""` while `attr` is coloured |
| `PrismRender.RenderAll` | src/components/Canvas.tsx:138-156 | the rendered stream has one item per input item, in order, each the rendering of the item at the same position |
| `PrismRender.RenderNode` | src/components/Canvas.tsx:139-154 | the `map` callback: a string comes out unchanged, a token becomes a span with `ClassOf` its type |
| `PrismRender.RenderContent` | src/components/Canvas.tsx:149-151 | a string content is one text child, a lone token one child, and a nested stream one child per item |
| `PrismRender.RenderShape` | src/components/Canvas.tsx:139-148 | top-level strings come out unchanged, and every token becomes a span with its class |
| `PrismRender.RenderKeepsText` | src/components/Canvas.tsx:149-151 | the depth-first text of the rendered tree equals the depth-first text of the token tree |
| `PrismRender.RenderUsesTable` | src/components/Canvas.tsx:144-148 | every class anywhere in the rendered tree is `""` or a value of the colour table |
| `PrismRender.PrismLanguage` | src/components/Canvas.tsx:162-163 | `html` becomes `markup`, and every other name passes through unchanged |
| `PrismRender.GrammarFor` | src/components/Canvas.tsx:165 | the grammar of the normalised name when it is loaded, and the javascript grammar otherwise |
| `PrismRender.Highlight` | src/components/Canvas.tsx:158-169 | empty text yields null; otherwise the output has one item per token, and its text is the tokenizer's text for the chosen grammar |
| `PrismRender.OfferedLanguagesHaveGrammars` | src/components/Canvas.tsx:7-14 | with the imported grammars loaded, `html` uses the markup grammar and no language in the sidebar's list falls back to javascript |
| `PrismRender.CodeWindow` | src/components/Canvas.tsx:242 | the code window always renders something: an empty editor shows the placeholder comment's tokens |
| `GradientBuilder.Generate` | src/components/GradientBuilder.tsx:15-17 | `generateGradient`: its body is the template literal term for term; its ensures give the `linear-gradient(` prefix and ` 100%)` suffix, and `Shape` and `RoundTrip` are its full contract |
| `GradientBuilder.Decimal` | src/components/GradientBuilder.tsx:16 | the angle is written as a non-empty string of digits with no leading zero |
| `GradientBuilder.DecimalRoundTrip` | src/components/GradientBuilder.tsx:16 | reading the written angle back gives the angle |
| `GradientBuilder.Shape` | src/components/GradientBuilder.tsx:16 | the output begins with `linear-gradient(`, ends with ` 100%)`, and holds the angle, then colour 1, then colour 2, at fixed offsets |
| `GradientBuilder.InitialGradient` | src/components/GradientBuilder.tsx:11-16 | the initial state renders `linear-gradient(45deg, #3b82f6 0%, #8b5cf6 100%)` |
| `GradientBuilder.RoundTrip` | src/components/GradientBuilder.tsx:15-17 | for picker colours, parsing the generated string gives back the angle and both colours |
| `GradientBuilder.Injective` | src/components/GradientBuilder.tsx:15-17 | two builder states with picker colours that generate the same string are equal |

## Left out

- DOM measurement and `ResizeObserver` (Canvas.tsx:86-95, 104-108). The four sizes are inputs to `UpdateScale`, and observer set-up and teardown are not modelled.
- FitScaler.FitScale: requires positive content sizes. Division by zero (Infinity or NaN in JavaScript) is not modelled. The container's minimum width (300 or 600 px) rules out zero width; zero height is not ruled out.
- FitScaler.Canvas.UpdateScale: requires positive content sizes when the container is present, for the same reason.
- FitScaler.PercentLabel: rounds exact reals. It does not model the floating-point error of `scale * 100`.
- Image ingestion by file picker, drag and drop, and paste (Canvas.tsx:58-79, 111-133). These are browser I/O callbacks. Whether an image is loaded is a boolean input.
- PNG export (page.tsx:50-71). `toPng`, the anchor download and `Date.now` are foreign and asynchronous.
- Share and clipboard (Sidebar.tsx:81-101). These are asynchronous platform calls.
- GradientLibrary.Library.Add: assumes the storage write succeeds. `localStorage.setItem` can throw (quota exceeded, storage disabled); at page.tsx:39-41 such a throw would leave the list updated in memory while storage and the background stay as they were. The same holds for `Library.Delete`, whose list is updated before the write (page.tsx:46-47).
- GradientLibrary.Library.LoadSaved: assumes reading storage succeeds. `localStorage.getItem` at page.tsx:27 is outside the `try`, so a throw from it would escape the effect uncaught.
- Concrete `localStorage` and JSON. Storage is one field. `JSON.stringify` and `JSON.parse` are function parameters, and a parse that throws is `None`.
- GradientLibrary.Loaded: stored JSON that parses to something other than an array of strings (a number, say) is folded into the parse result. In the code such a value would become the list state.
- PrismRender.ClassOf: keys inherited from JavaScript's object prototype (`constructor`, `toString`) are not modelled. Prism emits no token type by those names.
- PrismRender.GrammarFor: methods on `Prism.languages` (`extend`, `insertBefore`) that a name could address are not modelled. The sidebar offers only grammar names.
- `Prism.tokenize` and the grammar definitions are a foreign library. The tokenizer is a function parameter and grammars are an opaque type parameter. Rendering is deterministic because it is a function.
- React `key` attributes on spans, and the difference between a span holding one string and one holding a one-string array. Both display the same.
- Presentation-only files (Sidebar.tsx apart from its language list, Header.tsx, AdPlaceholder.tsx, layout.tsx). Also left out: selecting a preset background, and the sliders for padding, rounding and shadow.
