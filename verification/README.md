# Pedigree chart core, modelled in Dafny

This project models the computational core of a pedigree (ancestor) chart
module for the webtrees genealogy application:

- **`PedigreeModule`** (`pedigree_module.dfy`, from `src/Module.php`): the
  recursive builder `buildJsonTree`, which walks an individual's parents
  depth-first. It stops at an unknown individual or past the configured number
  of generations. It follows only the first family in which the individual is a
  child, and it appends the father's subtree, then the mother's, each only when
  it is non-empty. Also modelled is the choice of the theme key in `getColor`.
  The host's person graph is a parameter `childFamilies: Individual -> seq<Family>`.
  It may be cyclic; the recursion is bounded by the generation count.
- **`TreeDrawing`** (`tree_drawing.dfy`, from `js/modules/tree.js`): the `Tree`
  class with its layout constants (box 250 × 80, node size 200 × 0, separation
  0.5). Its `Draw` method fails with "Missing root" when there is no root.
  Otherwise it places every generation at `depth * 300` (a loop updating each
  node object), then draws the connectors and the person boxes. Also here: the
  `elbow` connector as a list of SVG path commands (`M`, `H`, `V`, `H`) with a
  point semantics (`Trace`), the person box centred on its node, and `getName`,
  which abbreviates the first name to an initial.
- **`Chart`** (`chart.dfy`, from `resources/js/modules/chart.js`): the
  arithmetic of `updateViewBox`. It takes the chart's bounding box and the
  container's size and yields the integer view box. The view box is at least
  the container's size and `MIN_HEIGHT` = 500 tall. It centres a chart that is
  smaller than the container, adds `MIN_PADDING` = 10 on every side, and rounds
  up with `Math.ceil` (here `Ceil`, defined through `Floor`).
- **`Wrappers`** (`wrappers.dfy`): `Option` and `Result`.

Modelling choices:

- PHP's `buildJsonTree` returns an array. It is modelled as `JsonTree`: `Empty`
  for `[]`, or `Node(data, children)`. The `children` key is created only by an
  append, so an absent key is the empty sequence.
- The record that `getIndividualData` builds is opaque here:
  `IndividualData(individual, generation)`. It is assumed to be a non-empty
  (truthy) array, so a node is always appended when it exists.
- The JavaScript numbers are `real`. The path is a sequence of commands, not a
  formatted string.
- The layout constants of `Tree` are `const` fields. The source assigns them
  only in the constructor.
- A name is a `seq<char>`. `substring(0, 1)` takes the first character.

Behaviour of the code worth knowing:

- Only non-empty subtrees are appended to `children`, so with an unknown father
  the mother's subtree is at index 0 (`ChildrenFollowFirstFamily`).
- The generation count is not validated. Below 1 the builder returns the empty
  array (`BuildRootTree`).
- Only the connectors are multiplied by `direction`. The boxes are translated by
  `(d.y, d.x)` with no `direction`. So when drawn backwards, a connector ends
  away from its target box (`BackwardElbowMissesTargetBox`). Drawn forwards, it
  meets both boxes (`ForwardElbowJoinsBoxes`).

## Model

| member | source | states |
|---|---|---|
| `PedigreeModule.FirstFamily` | src/Module.php:299 | `childFamilies()->first()`: nothing exactly when the individual is a child in no family, otherwise the first such family |
| `PedigreeModule.Entry` | src/Module.php:310-316 | a subtree becomes an entry of `children` exactly when it is a non-empty array, and then it is the whole subtree |
| `PedigreeModule.BuildJsonTree` | src/Module.php:291-319 | the result is the empty array exactly when the individual is null or the generation exceeds the configured count; otherwise it is that individual's record at that generation |
| `PedigreeModule.BuildRootTree` | src/Module.php:266-281 | the chart's request (default generation 1) yields a node exactly when the individual exists and the generation count is at least 1; the count is not validated |
| `PedigreeModule.BuildJsonTreeShaped` | src/Module.php:294-316 | every node of a built tree sits at its generation, never above the limit, and has at most two children; each child is non-empty and one generation further out |
| `PedigreeModule.HeightBound` | src/Module.php:294-307 | a built tree is at most `generations - generation + 1` levels high, whatever the person graph (cycles included) |
| `PedigreeModule.GenerationsWithinLimit` | src/Module.php:294-307 | every record in a built tree has a generation between the starting generation and the configured count |
| `PedigreeModule.ChildrenFollowFirstFamily` | src/Module.php:298-318 | a node has no children without a family or at the last generation; otherwise it has one child per known parent of the first family: the father's whole subtree first and the mother's whole subtree last, so an unknown father puts the mother at index 0 |
| `PedigreeModule.OnlyFirstFamilyMatters` | src/Module.php:299-307 | two person graphs that agree on every individual's first child family build the same tree: later families are ignored |
| `PedigreeModule.OwnFatherReachesLimit` | src/Module.php:294-311 | on a cyclic graph (an individual who is their own father) the tree reaches exactly the height bound, so the generation limit alone stops the recursion |
| `PedigreeModule.LowerChar` | src/Module.php:367 | `strtolower` on a character maps ASCII upper-case letters to lower-case and leaves every other character alone |
| `PedigreeModule.ToLower` | src/Module.php:367 | `strtolower` keeps the length and lower-cases each character in place |
| `PedigreeModule.ToLowerIdempotent` | src/Module.php:367 | lower-casing twice is lower-casing once |
| `PedigreeModule.ColorKey` | src/Module.php:365-368 | the theme key is `chart-background-` followed by `u` for a null individual and by the lower-cased sex code otherwise |
| `PedigreeModule.GetColor` | src/Module.php:365-369 | the colour is `#` followed by the theme's value for the key `ColorKey(individual)` |
| `PedigreeModule.ColorKeyBySex` | src/Module.php:365-369 | individuals whose sex codes agree up to case get the same colour, a null individual gets the colour of sex `U`, and equal keys mean equal lower-cased sex codes |
| `TreeDrawing.Elbow` | js/modules/tree.js:255-266 | the connector is exactly four commands, in the order M, H, V, H |
| `TreeDrawing.LinesAreOrthogonal` | js/modules/tree.js:262-265 | horizontal and vertical line commands never draw a diagonal segment |
| `TreeDrawing.ElbowRoute` | js/modules/tree.js:255-266 | the connector is three axis-parallel segments from `(dir*(source.y + boxWidth/2), source.x)` to `(dir*(target.y - boxWidth/2), target.x)`; its vertical leg stands at `dir` times the midpoint of the two ends |
| `TreeDrawing.ElbowMirror` | js/modules/tree.js:255-266 | negating `direction` negates every horizontal coordinate of the connector and leaves every vertical one unchanged |
| `TreeDrawing.PersonBox` | js/modules/tree.js:104-109 | the person box is `boxWidth` by `boxHeight` and centred on its node |
| `TreeDrawing.NodeBox` | js/modules/tree.js:85-109 | placed through the node's translation, the box is centred on `(node.y, node.x)` |
| `TreeDrawing.ForwardElbowJoinsBoxes` | js/modules/tree.js:255-266 | with direction 1 the connector starts on the right edge of the source box and ends on the left edge of the target box |
| `TreeDrawing.BackwardElbowMissesTargetBox` | js/modules/tree.js:255-266 | with direction -1 and a target further out than half a box width, the connector ends left of the target box, because boxes are not mirrored |
| `TreeDrawing.NormalizedY` | js/modules/tree.js:59 | the normalised depth coordinate is non-negative and consecutive generations are exactly 300 apart |
| `TreeDrawing.NormalizedElbowCrossesGap` | js/modules/tree.js:28-59 | with the class constants and normalised depths, a forward connector runs from 125 to 175 past its parent's depth coordinate and turns at 150 |
| `TreeDrawing.Split` | js/modules/tree.js:169 | `split(" ")` yields at least one piece, and no piece contains a space |
| `TreeDrawing.Join` | js/modules/tree.js:174 | `join(" ")`: a single piece is returned as it is; otherwise the result starts with the first piece, followed by a space when more pieces follow |
| `TreeDrawing.JoinSplit` | js/modules/tree.js:169-174 | joining the pieces of a split with single spaces gives back the name |
| `TreeDrawing.SplitJoin` | js/modules/tree.js:169-174 | splitting the join of space-free pieces gives back the pieces |
| `TreeDrawing.GetName` | js/modules/tree.js:167-177 | the abbreviated name has as many pieces as the name and the same pieces after the first; its first piece is the first character and a full stop, or just a full stop when the first piece is empty |
| `TreeDrawing.Tree.constructor` | js/modules/tree.js:26-45 | the box is 250 by 80, the node size 200 by 0, the separation 0.5 (constant fields), and the direction, root and laid-out nodes and links are those given |
| `TreeDrawing.Tree.Draw` | js/modules/tree.js:52-68 | without a root it fails with "Missing root" and changes nothing; otherwise every node's depth coordinate becomes `depth * 300` with its other coordinate kept, and one connector per link and one box and name per node are drawn from the new positions; drawn forwards, each connector between consecutive generations leaves its parent's box at `depth * 300 + 125`, turns at `+ 150` and enters the child's box at `+ 175` |
| `Chart.Ceil` | resources/js/modules/chart.js:67-72 | `Math.ceil` gives the least integer not below its argument |
| `Chart.FittedWidth` | resources/js/modules/chart.js:59 | the unpadded width is the larger of the container's width and the chart's width |
| `Chart.FittedHeight` | resources/js/modules/chart.js:60 | the unpadded height is the largest of the container's height, the chart's height and `MIN_HEIGHT` = 500 |
| `Chart.CentringOffset` | resources/js/modules/chart.js:63-64 | the offset is half the difference between the fitted size and the chart's size: non-negative when the fitted size is the larger, zero exactly when the two are equal |
| `Chart.UpdateViewBox` | resources/js/modules/chart.js:52-81 | the four view-box values are integers; the width and height are at least the container's, the chart's (and 500 for the height) plus `2 * MIN_PADDING`, and less than one unit above the padded fitted size |
| `Chart.OffsetsAreHalfTheSlack` | resources/js/modules/chart.js:59-64 | the centring offsets are half the slack, never negative, and zero exactly when the chart is at least as large as the container on that axis (and, vertically, at least `MIN_HEIGHT`) |
| `Chart.ViewBoxContainsContent` | resources/js/modules/chart.js:63-72 | the view box contains the chart, with at least `MIN_PADDING` to the right and below and more than `MIN_PADDING - 1` to the left and above |
| `Chart.ViewBoxCentresContent` | resources/js/modules/chart.js:62-72 | the centre of the view box is the centre of the chart, moved right or down by less than 1.5 units by the rounding |
| `Chart.ViewBoxMonotonic` | resources/js/modules/chart.js:59-72 | enlarging the chart or the container never shrinks the view box's width or height |
| `Chart.ViewBoxFollowsIntegerShift` | resources/js/modules/chart.js:63-72 | moving the chart by whole units moves the view box by the same amounts and keeps its size |

## Left out

- The tree layout of the charting library (`d3.tree().nodeSize(...).separation(...)`, `d3.hierarchy`, `descendants()`, `links()`, js/modules/tree.js:37-44, 55-56). Its code is not part of this model. The laid-out nodes (`x`, `y`, `depth`) and links are given to the `Tree` constructor, so sibling separation and the midpoint placement of parents are not modelled.
- All DOM and SVG work: the selections and `enter()`/`append()` calls of `drawNodes`, `drawLinks` and `addImage`, the text offsets and the silhouette image, the `male`/`female` class of a box, the `Chart` class's `draw`, `Svg`, `Overlay` and events, and the final `viewBox` attribute write. `getBBox()` and `getBoundingClientRect()` are the input records `BoundingBox` and `ClientSize`.
- HTTP and host plumbing in `src/Module.php`: `boot`, `handle`, `getUpdateAction`'s request handling and access checks, `getUpdateRoute`, `title`, `description`, `resourcesFolder`, `getPageTitle`, `getChartParameters`, `isRtl`, `getChartFontColor`. The theme's colour values are a function parameter of `GetColor`.
- `getIndividualData` and `Configuration` are not part of this model. They are the opaque record `IndividualData` and the integer parameter `generations`.
- IEEE floating point (rounding, NaN, infinities) and the formatting of numbers into the path string.
- PHP strings are bytes, and `strtolower` depended on the locale before PHP 8.2. `ToLower` lower-cases ASCII letters in a sequence of characters, which agrees with PHP for the ASCII sex codes (`M`, `F`, `U`).
- JavaScript strings are UTF-16. `substring(0, 1)` on a name that starts with a character outside the Basic Multilingual Plane takes half a surrogate pair, which the model does not capture.
- The commented-out code and the empty `personClick` and `redirectToIndividual`.
