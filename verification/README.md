# Neural-network diagram: neuron colouring and the hover/selection controller

This project models the two pieces of logic in an interactive diagram of a feed-forward
neural network. The diagram shows four layers of circular neurons, and the user can hover
a neuron or pick one of four canned examples: cat or dog image classification, and
starter-house or luxury-house price regression.

- **Neuron colouring** (module `NetworkLayer`, from `src/components/NetworkLayer.tsx`).
  `NeuronColorOf` is the component's first-match rule. The five outcomes are the
  constructors of `NeuronColor`:
  - `Active`: the hovered neuron.
  - `Weighted(opacity)`: the accent colour weighted by the neuron's activation.
  - `Future`: a layer after the hovered one.
  - `Past`: a layer before it.
  - `Idle`: the grey.

  An omitted activation list is the empty list, and an index past its end reads as
  absent. `Emphasized` is the scale-up rule.
- **Catalog, lookups and controller** (module `NeuralNetwork`, from
  `src/components/NeuralNetwork.tsx`):
  - The four layer tables are datatype constants. The dog table is built from the cat
    table by datatype update, as the source builds it by object spread.
  - `ExampleLayers`, `ExampleImage`, `IsAnimalExample`/`IsHouseExample`, and the per-layer
    props (`ActivationStrengthsFor`, `IsLastLayer`) are pure functions.
  - The three state fields live in the class `Controller`, whose handler methods update
    them in place. Each method is specified by the pure transition function `Step` over
    `UiState`.
  - `Run` folds `Step` over a sequence of interactions.
  - `Enabled` says which interactions the page offers: the per-example buttons are shown
    only while their category is selected.

Activations are integer percentages: each literal of the tables times 100. Every literal
has at most two decimals, so these values are exact. The colouring rule only passes them on.

The per-example buttons are rendered only while their category is active
(`src/components/NeuralNetwork.tsx:219`, `:244`). So from 'none', the dog and the luxury
house each take two clicks (`SecondExamplesNeedTwoClicks`, `PathTo`).

## Model

| member | source | states |
|---|---|---|
| NetworkLayer.NeuronColorOf | src/components/NetworkLayer.tsx:30-53 | First match wins, each rule stated as an if-and-only-if: active exactly when the neuron is the hovered coordinate; otherwise weighted by exactly its activation when the (defaulted) list has one at that index; otherwise future/past when a layer is hovered and this layer lies after/before it; idle in every other case, including the hovered layer's other neurons |
| NetworkLayer.Emphasized | src/components/NetworkLayer.tsx:75-77 | A neuron is scaled up exactly when it receives the active colour, for every activation list |
| NetworkLayer.HoveredIgnoresActivations | src/components/NetworkLayer.tsx:38-40 | The hovered neuron is active whatever the activation list is |
| NetworkLayer.ActivationIgnoresHoverLayer | src/components/NetworkLayer.tsx:42-45 | A non-hovered neuron with an activation shows exactly that activation under any hover state |
| NetworkLayer.LayerRelativeToHover | src/components/NetworkLayer.tsx:47-49 | Without an activation, a layer after the hovered layer is future and one before it is past |
| NetworkLayer.SiblingsStayIdle | src/components/NetworkLayer.tsx:47-52 | Non-hovered neurons of the hovered layer without an activation are idle, neither past nor future |
| NetworkLayer.NoHoverNoActivationIsIdle | src/components/NetworkLayer.tsx:52 | With no hovered layer and no activation list the neuron is idle |
| NetworkLayer.MissingActivationFallsThrough | src/components/NetworkLayer.tsx:30-45 | An omitted list, the empty list and a list too short for the index all give the same colour, and it is never weighted |
| NeuralNetwork.IsAnimalExample | src/components/NeuralNetwork.tsx:179 | An animal selection is never 'none' and always has a picture |
| NeuralNetwork.IsHouseExample | src/components/NeuralNetwork.tsx:180 | A house selection is never an animal one, and neither category holds exactly for 'none': the two categories partition the four examples |
| NeuralNetwork.ExampleLayers | src/components/NeuralNetwork.tsx:10-160 | Every example's table has four layers, each with as many feature labels and activations as neurons and every activation in [0, 100] percent; 'none' falls back to the cat table |
| NeuralNetwork.ExampleImage | src/components/NeuralNetwork.tsx:164-177 | The picture is the empty string exactly for 'none' |
| NeuralNetwork.ExampleImageInjective | src/components/NeuralNetwork.tsx:5-8 | The four examples have four distinct pictures |
| NeuralNetwork.ActivationStrengthsFor | src/components/NeuralNetwork.tsx:303 | A layer receives no activation list exactly when 'none' is selected, and otherwise its own table's activations |
| NeuralNetwork.IsLastLayer | src/components/NeuralNetwork.tsx:304 | The flag falls exactly on a drawn layer with no layer after it |
| NeuralNetwork.OnlyFourthLayerIsLast | src/components/NeuralNetwork.tsx:304 | In every example exactly layer index 3 is flagged as the last layer |
| NeuralNetwork.Step | src/components/NeuralNetwork.tsx:142-302 | The handlers at :142-145, :198, :208, :222-257 and :299-302 as one transition: hover sets both coordinates, leave clears both, and clicks leave them alone. The animal button sends cat/dog to 'none' and anything else, a house example included, to cat. The house button sends the houses to 'none' and anything else to the starter house. A per-example button selects its example whatever came before. A state with both coordinates or neither keeps that property |
| NeuralNetwork.RunKeepsHoverPaired | src/components/NeuralNetwork.tsx:138-145 | After any sequence of interactions from a paired state, hovered layer and neuron are both present or both absent |
| NeuralNetwork.ClicksKeepHover | src/components/NeuralNetwork.tsx:198-257 | Any sequence of button clicks leaves the hovered coordinate unchanged |
| NeuralNetwork.CategoryTwice | src/components/NeuralNetwork.tsx:198-208 | Two presses of a category button end at 'none' exactly when that category was not selected first, and at its default example otherwise |
| NeuralNetwork.SubButtonSelectsDirectly | src/components/NeuralNetwork.tsx:219-257 | An offered per-example button selects its example at once, from a non-'none' state, so switching siblings never passes through 'none' and the shown table is replaced in one step |
| NeuralNetwork.SecondExamplesNeedTwoClicks | src/components/NeuralNetwork.tsx:196-267 | From 'none' no single offered click selects the dog or the luxury house |
| NeuralNetwork.PathTo | src/components/NeuralNetwork.tsx:196-267 | Every example is reachable from every state by at most two offered clicks |
| NeuralNetwork.ColorIn | src/components/NeuralNetwork.tsx:291-305 | The colour the page gives a neuron of the current example: active exactly for the hovered coordinate, and any activation shown is that example's own catalog value for a drawn neuron, in [0, 100], never under 'none' |
| NeuralNetwork.NoneSelectedShowsNoActivations | src/components/NeuralNetwork.tsx:157-158 | With 'none' the cat table is drawn, but no neuron in any layer is weighted by an activation |
| NeuralNetwork.SelectedShowsCatalogActivations | src/components/NeuralNetwork.tsx:291-305 | With an example selected, every non-hovered neuron shows its own catalog activation, which lies in [0, 100] |
| NeuralNetwork.CatOutputOpacities | src/components/NeuralNetwork.tsx:41 | With the cat example, the output neurons show 92% and 8% unless that very neuron is hovered |
| NeuralNetwork.HoverOneTwoWithoutExample | src/components/NeuralNetwork.tsx:291-305 | Hovering (1, 2) from the initial state: layer 0 past, layers 2 and 3 future, the rest of layer 1 idle, (1, 2) active |
| NeuralNetwork.Controller.constructor | src/components/NeuralNetwork.tsx:138-140 | Starts with nothing hovered and 'none' selected |
| NeuralNetwork.Controller.Hover | src/components/NeuralNetwork.tsx:142-145 | Sets both hover fields to the given coordinate, keeps the selection, and follows `Step` |
| NeuralNetwork.Controller.Leave | src/components/NeuralNetwork.tsx:299-302 | Clears both hover fields, keeps the selection, and follows `Step` |
| NeuralNetwork.Controller.ClickAnimalCategory | src/components/NeuralNetwork.tsx:198 | Toggles between 'none' (from cat/dog) and cat (from anything else), and follows `Step` |
| NeuralNetwork.Controller.ClickHouseCategory | src/components/NeuralNetwork.tsx:208 | Toggles between 'none' (from either house) and the starter house (from anything else), and follows `Step` |
| NeuralNetwork.Controller.ClickSub | src/components/NeuralNetwork.tsx:222-257 | Sets the chosen example whatever the prior selection, and follows `Step` |

## Left out

- Layout, class strings, icons, headings and explanatory text are presentation. The layer
  icons are therefore not fields of `Layer`.
- The rgb/rgba strings are not modelled; colours are the five abstract outcomes.
- The percentage label (`Math.round(activation * 100)`) and floating-point activations are
  not modelled: activations are exact integer percentages.
- The image URLs are kept as string constants and are never fetched.
- React state batching, re-render timing and event dispatch are framework behaviour and
  are not modelled. Each handler is one atomic transition.
- The per-neuron render loop and the feature-label display are not modelled. Only the
  alignment of labels and activations with the neuron count is stated, in
  `WellFormedLayer`.
- Hovering is modelled as available at any coordinate. The model does not tie the
  hovered coordinate to the neurons actually drawn for the current example.
