/**
 * The diagram component (src/components/NeuralNetwork.tsx): the static catalog of four
 * example networks, the lookups keyed by the selected example, and the controller that
 * owns the hovered coordinate and the selected example.
 */
module NeuralNetwork {
  import opened Wrappers
  import NetworkLayer

  // ---------------------------------------------------------------------------
  // Examples and the catalog
  // ---------------------------------------------------------------------------

  /** The selectable examples; NoExample is the initial 'none'. */
  datatype Example = NoExample | Cat | Dog | StarterHouse | LuxuryHouse

  /** One layer descriptor; activations are percentages (the table's fractions times 100). */
  datatype Layer = Layer(
    name: string,
    neurons: nat,
    features: seq<string>,
    description: string,
    activations: seq<NetworkLayer.Activation>)

  const CAT_LAYERS: seq<Layer> := [
    Layer("Input Layer", 4,
      ["RGB: 255,220,180", "RGB: 190,165,140", "RGB: 220,198,175", "RGB: 245,210,188"],
      "Raw pixel values from the input image", [80, 60, 70, 50]),
    Layer("Hidden Layer 1", 4, ["Edges", "Colors", "Shapes", "Texture"],
      "Detects fundamental visual features", [90, 70, 80, 60]),
    Layer("Hidden Layer 2", 4, ["Whiskers", "Ears", "Fur", "Eyes"],
      "Combines into complex patterns", [95, 85, 90, 80]),
    Layer("Output Layer", 2, ["Cat", "Dog"], "Final classification", [92, 8])
  ]

  /** The dog example reuses each cat layer and overrides some of its fields. */
  const DOG_LAYERS: seq<Layer> := [
    CAT_LAYERS[0].(
      features := ["RGB: 120,98,75", "RGB: 180,155,130", "RGB: 200,178,155", "RGB: 165,140,118"],
      activations := [70, 80, 60, 75]),
    CAT_LAYERS[1].(activations := [85, 75, 90, 80]),
    CAT_LAYERS[2].(activations := [30, 40, 95, 85]),
    CAT_LAYERS[3].(activations := [15, 85])
  ]

  const STARTER_HOUSE_LAYERS: seq<Layer> := [
    Layer("Input Layer", 4, ["1,200 sqft", "2 beds", "Suburban", "1985"],
      "Raw numerical input features", [45, 40, 50, 40]),
    Layer("Hidden Layer 1", 4, ["Living Space", "Family Size", "Neighborhood", "Age Factor"],
      "Basic feature combinations", [50, 45, 55, 50]),
    Layer("Hidden Layer 2", 4, ["Luxury Level", "Family Appeal", "Location Value", "Investment Age"],
      "High-level property aspects", [40, 60, 50, 45]),
    Layer("Output Layer", 1, ["$275,000"], "Predicted house price", [45])
  ]

  const LUXURY_HOUSE_LAYERS: seq<Layer> := [
    Layer("Input Layer", 4, ["4,500 sqft", "5 beds", "Beachfront", "2022"],
      "Raw numerical input features", [95, 90, 98, 85]),
    Layer("Hidden Layer 1", 4, ["Living Space", "Family Size", "Neighborhood", "Age Factor"],
      "Basic feature combinations", [92, 85, 95, 90]),
    Layer("Hidden Layer 2", 4, ["Luxury Level", "Family Appeal", "Location Value", "Investment Age"],
      "High-level property aspects", [95, 85, 98, 90]),
    Layer("Output Layer", 1, ["$2,450,000"], "Predicted house price", [95])
  ]

  /** Labels and activations are aligned with the neurons, and every activation is in [0, 100]. */
  predicate WellFormedLayer(layer: Layer) {
    && |layer.features| == layer.neurons
    && |layer.activations| == layer.neurons
    && forall i :: 0 <= i < |layer.activations| ==> 0 <= layer.activations[i] <= 100
  }

  /** A catalog entry: four well-formed layers. */
  predicate WellFormedCatalog(layers: seq<Layer>) {
    |layers| == 4 && forall i :: 0 <= i < |layers| ==> WellFormedLayer(layers[i])
  }

  // ---------------------------------------------------------------------------
  // Lookups keyed by the selected example
  // ---------------------------------------------------------------------------

  /** The cat-vs-dog category is selected. */
  predicate IsAnimalExample(e: Example): (b: bool)
    ensures b ==> e != NoExample && ExampleImage(e) != ""
  {
    e == Cat || e == Dog
  }

  /** The house-price category is selected: never together with the animal one. */
  predicate IsHouseExample(e: Example): (b: bool)
    ensures b ==> !IsAnimalExample(e)
    ensures !b && !IsAnimalExample(e) <==> e == NoExample
  {
    e == StarterHouse || e == LuxuryHouse
  }

  /** The layers shown for an example; with 'none' the cat layers are shown. */
  function ExampleLayers(e: Example): (layers: seq<Layer>)
    ensures WellFormedCatalog(layers)
    ensures e == NoExample ==> layers == CAT_LAYERS
  {
    match e
    case Dog => DOG_LAYERS
    case Cat => CAT_LAYERS
    case StarterHouse => STARTER_HOUSE_LAYERS
    case LuxuryHouse => LUXURY_HOUSE_LAYERS
    case NoExample => CAT_LAYERS
  }

  const CAT_IMAGE_URL: string :=
    "https://images.unsplash.com/photo-1514888286974-6c03e2ca1dba?auto=format&fit=crop&w=400&h=400"
  const DOG_IMAGE_URL: string :=
    "https://images.unsplash.com/photo-1517849845537-4d257902454a?auto=format&fit=crop&w=400&h=400"
  const LUXURY_HOUSE_URL: string :=
    "https://images.unsplash.com/photo-1512917774080-9991f1c4c750?auto=format&fit=crop&w=400&h=400"
  const STARTER_HOUSE_URL: string :=
    "https://images.unsplash.com/photo-1518780664697-55e3ad937233?auto=format&fit=crop&w=400&h=400"

  /** The picture shown for an example; the empty string for 'none'. */
  function ExampleImage(e: Example): (url: string)
    ensures url == "" <==> e == NoExample
  {
    match e
    case Dog => DOG_IMAGE_URL
    case Cat => CAT_IMAGE_URL
    case StarterHouse => STARTER_HOUSE_URL
    case LuxuryHouse => LUXURY_HOUSE_URL
    case NoExample => ""
  }

  /** Each of the four examples has a picture of its own. */
  lemma ExampleImageInjective(e1: Example, e2: Example)
    requires ExampleImage(e1) == ExampleImage(e2)
    ensures e1 == e2
  {
  }

  /** The activation list handed to each layer: none at all while 'none' is selected. */
  function ActivationStrengthsFor(selected: Example, layer: Layer): (strengths: Option<seq<NetworkLayer.Activation>>)
    ensures strengths.None? <==> selected == NoExample
    ensures strengths.Some? ==> strengths.value == layer.activations
  {
    if selected != NoExample then Some(layer.activations) else None
  }

  /** The layer at layerIndex is flagged as the last one. */
  predicate IsLastLayer(layerIndex: nat, layers: seq<Layer>): (b: bool)
    ensures b <==> layerIndex < |layers| && layers[layerIndex + 1..] == []
  {
    layerIndex == |layers| - 1
  }

  /** In every example exactly the fourth layer (index 3) is flagged as the last one. */
  lemma OnlyFourthLayerIsLast(e: Example, layerIndex: nat)
    requires layerIndex < |ExampleLayers(e)|
    ensures IsLastLayer(layerIndex, ExampleLayers(e)) <==> layerIndex == 3
  {
  }

  // ---------------------------------------------------------------------------
  // Controller state and its transitions
  // ---------------------------------------------------------------------------

  /** The three state fields of the component. */
  datatype UiState = UiState(activeNeuron: Option<nat>, activeLayer: Option<nat>, selectedExample: Example)

  const INITIAL: UiState := UiState(None, None, NoExample)

  /** The user interactions the component reacts to. */
  datatype Event =
    | Hover(layerIndex: nat, neuronIndex: nat)  // pointer enters a neuron
    | Leave                                     // pointer leaves a neuron
    | ClickAnimalCategory                       // "Cat vs Dog Example"
    | ClickHouseCategory                        // "House Price Example"
    | ClickSub(example: Example)                // one of the four per-example buttons

  /** The hovered layer and neuron are both present or both absent. */
  predicate HoverPaired(s: UiState) {
    s.activeLayer.Some? <==> s.activeNeuron.Some?
  }

  /** The state after one interaction. */
  function Step(s: UiState, ev: Event): (t: UiState)
    ensures ev.Hover? ==> t == s.(activeNeuron := Some(ev.neuronIndex), activeLayer := Some(ev.layerIndex))
    ensures ev.Leave? ==> t == s.(activeNeuron := None, activeLayer := None)
    ensures !ev.Hover? && !ev.Leave? ==> t.activeNeuron == s.activeNeuron && t.activeLayer == s.activeLayer
    // the category buttons deselect their own category and otherwise select its first example,
    // so a house example switches straight to the cat and an animal one to the starter house
    ensures ev.ClickAnimalCategory? ==>
      t.selectedExample == if s.selectedExample in {Cat, Dog} then NoExample else Cat
    ensures ev.ClickHouseCategory? ==>
      t.selectedExample == if s.selectedExample in {StarterHouse, LuxuryHouse} then NoExample else StarterHouse
    // a per-example button selects its example whatever was selected before
    ensures ev.ClickSub? ==> t.selectedExample == ev.example
    ensures HoverPaired(s) ==> HoverPaired(t)
  {
    match ev
    case Hover(l, n) => s.(activeNeuron := Some(n), activeLayer := Some(l))
    case Leave => s.(activeNeuron := None, activeLayer := None)
    case ClickAnimalCategory =>
      s.(selectedExample := if IsAnimalExample(s.selectedExample) then NoExample else Cat)
    case ClickHouseCategory =>
      s.(selectedExample := if IsHouseExample(s.selectedExample) then NoExample else StarterHouse)
    case ClickSub(e) => s.(selectedExample := e)
  }

  /**
   * An interaction the page offers in state s: the per-example buttons are shown only
   * while their category is selected; hovering, leaving and the two category buttons
   * are always available.
   */
  predicate Enabled(s: UiState, ev: Event) {
    match ev
    case ClickSub(e) =>
      (IsAnimalExample(e) && IsAnimalExample(s.selectedExample)) ||
      (IsHouseExample(e) && IsHouseExample(s.selectedExample))
    case _ => true
  }

  /** The state after a sequence of interactions, first to last. */
  function Run(s: UiState, evs: seq<Event>): UiState
    decreases |evs|
  {
    if evs == [] then s else Run(Step(s, evs[0]), evs[1..])
  }

  /** Every interaction of evs is offered at the moment it happens. */
  predicate AllEnabled(s: UiState, evs: seq<Event>)
    decreases |evs|
  {
    evs == [] || (Enabled(s, evs[0]) && AllEnabled(Step(s, evs[0]), evs[1..]))
  }

  /** Whatever happens, the hovered layer and neuron stay both present or both absent. */
  lemma {:induction false} RunKeepsHoverPaired(s: UiState, evs: seq<Event>)
    requires HoverPaired(s)
    ensures HoverPaired(Run(s, evs))
    decreases |evs|
  {
    if evs != [] {
      RunKeepsHoverPaired(Step(s, evs[0]), evs[1..]);
    }
  }

  /** Category and sub-buttons never touch the hover state, over any sequence of clicks. */
  lemma {:induction false} ClicksKeepHover(s: UiState, evs: seq<Event>)
    requires forall i :: 0 <= i < |evs| ==> !evs[i].Hover? && !evs[i].Leave?
    ensures Run(s, evs).activeLayer == s.activeLayer
    ensures Run(s, evs).activeNeuron == s.activeNeuron
    decreases |evs|
  {
    if evs != [] {
      ClicksKeepHover(Step(s, evs[0]), evs[1..]);
    }
  }

  /**
   * Pressing a category button twice ends at 'none' exactly when that category was not
   * selected to begin with; from inside the category it ends at its default example.
   */
  lemma CategoryTwice(s: UiState)
    ensures Run(s, [ClickAnimalCategory, ClickAnimalCategory]).selectedExample ==
            if IsAnimalExample(s.selectedExample) then Cat else NoExample
    ensures Run(s, [ClickHouseCategory, ClickHouseCategory]).selectedExample ==
            if IsHouseExample(s.selectedExample) then StarterHouse else NoExample
  {
  }

  /** A sub-button selects its example directly: switching to a sibling never passes through 'none'. */
  lemma SubButtonSelectsDirectly(s: UiState, e: Example)
    requires Enabled(s, ClickSub(e))
    ensures e != NoExample && s.selectedExample != NoExample
    ensures Step(s, ClickSub(e)).selectedExample == e
    ensures ExampleLayers(Step(s, ClickSub(e)).selectedExample) == ExampleLayers(e)
  {
  }

  /** From 'none' no single offered click selects the dog or the luxury house. */
  lemma SecondExamplesNeedTwoClicks(s: UiState, ev: Event)
    requires s.selectedExample == NoExample
    requires Enabled(s, ev)
    ensures Step(s, ev).selectedExample != Dog
    ensures Step(s, ev).selectedExample != LuxuryHouse
  {
  }

  /** Offered clicks that reach example e from state s: at most two of them. */
  function PathTo(s: UiState, e: Example): (evs: seq<Event>)
    ensures |evs| <= 2
    ensures AllEnabled(s, evs)
    ensures Run(s, evs).selectedExample == e
  {
    var sel := s.selectedExample;
    match e
    case NoExample =>
      if IsAnimalExample(sel) then [ClickAnimalCategory]
      else if IsHouseExample(sel) then [ClickHouseCategory]
      else []
    case Cat =>
      if IsAnimalExample(sel) then [ClickSub(Cat)] else [ClickAnimalCategory]
    case Dog =>
      if IsAnimalExample(sel) then [ClickSub(Dog)] else [ClickAnimalCategory, ClickSub(Dog)]
    case StarterHouse =>
      if IsHouseExample(sel) then [ClickSub(StarterHouse)] else [ClickHouseCategory]
    case LuxuryHouse =>
      if IsHouseExample(sel) then [ClickSub(LuxuryHouse)] else [ClickHouseCategory, ClickSub(LuxuryHouse)]
  }

  // ---------------------------------------------------------------------------
  // What one state shows
  // ---------------------------------------------------------------------------

  /** The fill of neuron (layerIndex, neuronIndex) as the component renders it in state s. */
  function ColorIn(s: UiState, layerIndex: nat, neuronIndex: nat): (c: NetworkLayer.NeuronColor)
    requires layerIndex < |ExampleLayers(s.selectedExample)|
    ensures c == NetworkLayer.Active <==>
      NetworkLayer.IsHovered(layerIndex, neuronIndex, s.activeLayer, s.activeNeuron)
    // an activation shown is the selected example's own catalog value, a percentage
    ensures c.Weighted? ==>
      && s.selectedExample != NoExample
      && neuronIndex < ExampleLayers(s.selectedExample)[layerIndex].neurons
      && c.opacity == ExampleLayers(s.selectedExample)[layerIndex].activations[neuronIndex]
      && 0 <= c.opacity <= 100
  {
    NetworkLayer.NeuronColorOf(layerIndex, neuronIndex, s.activeLayer, s.activeNeuron,
      ActivationStrengthsFor(s.selectedExample, ExampleLayers(s.selectedExample)[layerIndex]))
  }

  /** With 'none' selected the cat layers are drawn, yet no activation reaches any neuron. */
  lemma NoneSelectedShowsNoActivations(s: UiState, layerIndex: nat, neuronIndex: nat)
    requires s.selectedExample == NoExample
    requires layerIndex < |ExampleLayers(s.selectedExample)|
    ensures ExampleLayers(s.selectedExample) == CAT_LAYERS
    ensures !ColorIn(s, layerIndex, neuronIndex).Weighted?
  {
  }

  /**
   * With an example selected, every neuron except the hovered one shows its own
   * activation from the catalog, whatever is hovered.
   */
  lemma SelectedShowsCatalogActivations(s: UiState, layerIndex: nat, neuronIndex: nat)
    requires s.selectedExample != NoExample
    requires layerIndex < |ExampleLayers(s.selectedExample)|
    requires neuronIndex < ExampleLayers(s.selectedExample)[layerIndex].neurons
    requires !NetworkLayer.IsHovered(layerIndex, neuronIndex, s.activeLayer, s.activeNeuron)
    ensures ColorIn(s, layerIndex, neuronIndex) ==
            NetworkLayer.Weighted(ExampleLayers(s.selectedExample)[layerIndex].activations[neuronIndex])
    ensures 0 <= ColorIn(s, layerIndex, neuronIndex).opacity <= 100
  {
  }

  /** The cat example's output neurons show 92% and 8% unless that very neuron is hovered. */
  lemma CatOutputOpacities(s: UiState)
    requires s.selectedExample == Cat
    ensures !NetworkLayer.IsHovered(3, 0, s.activeLayer, s.activeNeuron) ==>
            ColorIn(s, 3, 0) == NetworkLayer.Weighted(92)
    ensures !NetworkLayer.IsHovered(3, 1, s.activeLayer, s.activeNeuron) ==>
            ColorIn(s, 3, 1) == NetworkLayer.Weighted(8)
  {
  }

  /**
   * Hovering neuron (1, 2) with nothing selected: layer 0 is past, layers 2 and 3 are
   * future, the other neurons of layer 1 are idle and (1, 2) itself is active.
   */
  lemma HoverOneTwoWithoutExample(layerIndex: nat, neuronIndex: nat)
    requires layerIndex < 4
    ensures var s := Step(INITIAL, Hover(1, 2));
      ColorIn(s, layerIndex, neuronIndex) ==
        if layerIndex == 0 then NetworkLayer.Past
        else if layerIndex >= 2 then NetworkLayer.Future
        else if neuronIndex == 2 then NetworkLayer.Active
        else NetworkLayer.Idle
  {
  }

  // ---------------------------------------------------------------------------
  // The component's state, updated in place by its handlers
  // ---------------------------------------------------------------------------

  class Controller {
    var activeNeuron: Option<nat>
    var activeLayer: Option<nat>
    var selectedExample: Example

    function State(): UiState
      reads this
    {
      UiState(activeNeuron, activeLayer, selectedExample)
    }

    ghost predicate Valid()
      reads this
    {
      HoverPaired(State())
    }

    /** Nothing hovered and no example selected. */
    constructor ()
      ensures Valid() && State() == INITIAL
    {
      activeNeuron := None;
      activeLayer := None;
      selectedExample := NoExample;
    }

    /** The pointer enters neuron (layerIndex, neuronIndex). */
    method Hover(layerIndex: nat, neuronIndex: nat)
      requires Valid()
      modifies this
      ensures Valid()
      ensures State() == Step(old(State()), Event.Hover(layerIndex, neuronIndex))
      ensures activeLayer == Some(layerIndex) && activeNeuron == Some(neuronIndex)
      ensures selectedExample == old(selectedExample)
    {
      activeNeuron := Some(neuronIndex);
      activeLayer := Some(layerIndex);
    }

    /** The pointer leaves a neuron. */
    method Leave()
      requires Valid()
      modifies this
      ensures Valid()
      ensures State() == Step(old(State()), Event.Leave)
      ensures activeLayer.None? && activeNeuron.None?
      ensures selectedExample == old(selectedExample)
    {
      activeNeuron := None;
      activeLayer := None;
    }

    /** The "Cat vs Dog Example" button. */
    method ClickAnimalCategory()
      requires Valid()
      modifies this
      ensures Valid()
      ensures State() == Step(old(State()), Event.ClickAnimalCategory)
      ensures selectedExample == if IsAnimalExample(old(selectedExample)) then NoExample else Cat
    {
      selectedExample := if IsAnimalExample(selectedExample) then NoExample else Cat;
    }

    /** The "House Price Example" button. */
    method ClickHouseCategory()
      requires Valid()
      modifies this
      ensures Valid()
      ensures State() == Step(old(State()), Event.ClickHouseCategory)
      ensures selectedExample == if IsHouseExample(old(selectedExample)) then NoExample else StarterHouse
    {
      selectedExample := if IsHouseExample(selectedExample) then NoExample else StarterHouse;
    }

    /** One of the four per-example buttons: "Cat Image", "Dog Image", "Starter Home", "Luxury Home". */
    method ClickSub(e: Example)
      requires Valid()
      requires e != NoExample
      modifies this
      ensures Valid()
      ensures State() == Step(old(State()), Event.ClickSub(e))
      ensures selectedExample == e
    {
      selectedExample := e;
    }
  }
}
