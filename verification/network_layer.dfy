/**
 * One rendered layer of the diagram (src/components/NetworkLayer.tsx): the rule that
 * picks the fill of each neuron and the rule that enlarges the hovered one.
 *
 * Colours are kept abstract: the five outcomes of the rule are the constructors of
 * NeuronColor, not the rgb strings the component formats.
 */
module NetworkLayer {
  import opened Wrappers

  /** An activation strength, as an integer percentage; the rule only passes it on. */
  type Activation = int

  datatype NeuronColor =
    | Active                        // the hovered neuron: the saturated base colour
    | Weighted(opacity: Activation) // the accent colour with the activation as its opacity
    | Future                        // a layer after the hovered one
    | Past                          // a layer before the hovered one
    | Idle                          // the neutral grey

  /** The activation list a layer works with: an omitted prop defaults to the empty list. */
  function Strengths(activationStrengths: Option<seq<Activation>>): seq<Activation> {
    activationStrengths.GetOr([])
  }

  /** Reading `strengths[i]`: None where JavaScript reads `undefined` (an index past the end). */
  function ActivationAt(strengths: seq<Activation>, i: nat): Option<Activation> {
    if i < |strengths| then Some(strengths[i]) else None
  }

  /** The neuron at (layerIndex, neuronIndex) is the one under the pointer. */
  predicate IsHovered(layerIndex: nat, neuronIndex: nat, activeLayer: Option<nat>, activeNeuron: Option<nat>) {
    activeLayer == Some(layerIndex) && activeNeuron == Some(neuronIndex)
  }

  /**
   * The fill of one neuron. The rules are tried in order and the first that applies
   * wins: the hovered neuron, then the neuron's own activation, then the position of
   * its layer relative to the hovered layer, then the neutral grey.
   */
  function NeuronColorOf(
    layerIndex: nat, neuronIndex: nat,
    activeLayer: Option<nat>, activeNeuron: Option<nat>,
    activationStrengths: Option<seq<Activation>>
  ): (c: NeuronColor)
    // rule 1: the hovered neuron is active, whatever the activations are
    ensures c == Active <==> IsHovered(layerIndex, neuronIndex, activeLayer, activeNeuron)
    // rule 2: otherwise a neuron with an activation shows exactly that activation
    ensures c.Weighted? <==>
      !IsHovered(layerIndex, neuronIndex, activeLayer, activeNeuron) &&
      neuronIndex < |Strengths(activationStrengths)|
    ensures c.Weighted? ==> c.opacity == Strengths(activationStrengths)[neuronIndex]
    // rule 3: otherwise, with a hovered layer, later layers are future and earlier ones past
    ensures c == Future <==>
      neuronIndex >= |Strengths(activationStrengths)| &&
      activeLayer.Some? && layerIndex > activeLayer.value
    ensures c == Past <==>
      neuronIndex >= |Strengths(activationStrengths)| &&
      activeLayer.Some? && layerIndex < activeLayer.value
    // rule 4: everything else, including the hovered layer's other neurons, is idle
    ensures c == Idle <==>
      !IsHovered(layerIndex, neuronIndex, activeLayer, activeNeuron) &&
      neuronIndex >= |Strengths(activationStrengths)| &&
      (activeLayer.None? || activeLayer.value == layerIndex)
  {
    if IsHovered(layerIndex, neuronIndex, activeLayer, activeNeuron) then
      Active
    else
      match ActivationAt(Strengths(activationStrengths), neuronIndex)
      case Some(opacity) => Weighted(opacity)
      case None =>
        if activeLayer.Some? && layerIndex > activeLayer.value then Future
        else if activeLayer.Some? && layerIndex < activeLayer.value then Past
        else Idle
  }

  /**
   * The scale-up of a neuron (drawn at 110% instead of 100%): it is enlarged exactly
   * when it gets the active colour, whatever the activations are.
   */
  function Emphasized(layerIndex: nat, neuronIndex: nat, activeLayer: Option<nat>, activeNeuron: Option<nat>): (b: bool)
    ensures forall strengths :: b <==>
      NeuronColorOf(layerIndex, neuronIndex, activeLayer, activeNeuron, strengths) == Active
  {
    activeLayer == Some(layerIndex) && activeNeuron == Some(neuronIndex)
  }

  /** Rule 1 overrides rule 2: two activation lists cannot tell the hovered neuron apart. */
  lemma HoveredIgnoresActivations(
    layerIndex: nat, neuronIndex: nat,
    activeLayer: Option<nat>, activeNeuron: Option<nat>,
    strengths1: Option<seq<Activation>>, strengths2: Option<seq<Activation>>
  )
    requires IsHovered(layerIndex, neuronIndex, activeLayer, activeNeuron)
    ensures NeuronColorOf(layerIndex, neuronIndex, activeLayer, activeNeuron, strengths1) ==
            NeuronColorOf(layerIndex, neuronIndex, activeLayer, activeNeuron, strengths2) == Active
  {
  }

  /** Rule 2 overrides rule 3: a non-hovered neuron with an activation shows it under any hover. */
  lemma ActivationIgnoresHoverLayer(
    layerIndex: nat, neuronIndex: nat,
    activeLayer1: Option<nat>, activeNeuron1: Option<nat>,
    activeLayer2: Option<nat>, activeNeuron2: Option<nat>,
    strengths: seq<Activation>
  )
    requires !IsHovered(layerIndex, neuronIndex, activeLayer1, activeNeuron1)
    requires !IsHovered(layerIndex, neuronIndex, activeLayer2, activeNeuron2)
    requires neuronIndex < |strengths|
    ensures NeuronColorOf(layerIndex, neuronIndex, activeLayer1, activeNeuron1, Some(strengths)) ==
            NeuronColorOf(layerIndex, neuronIndex, activeLayer2, activeNeuron2, Some(strengths)) ==
            Weighted(strengths[neuronIndex])
  {
  }

  /** Without an activation, a hovered layer splits the others into future (after) and past (before). */
  lemma LayerRelativeToHover(
    layerIndex: nat, neuronIndex: nat, hoveredLayer: nat, activeNeuron: Option<nat>,
    activationStrengths: Option<seq<Activation>>
  )
    requires neuronIndex >= |Strengths(activationStrengths)|
    requires layerIndex != hoveredLayer
    ensures NeuronColorOf(layerIndex, neuronIndex, Some(hoveredLayer), activeNeuron, activationStrengths) ==
            if layerIndex > hoveredLayer then Future else Past
  {
  }

  /** The hovered neuron's siblings without an activation stay idle: neither past nor future. */
  lemma SiblingsStayIdle(
    layerIndex: nat, neuronIndex: nat, hoveredNeuron: nat,
    activationStrengths: Option<seq<Activation>>
  )
    requires neuronIndex != hoveredNeuron
    requires neuronIndex >= |Strengths(activationStrengths)|
    ensures NeuronColorOf(layerIndex, neuronIndex, Some(layerIndex), Some(hoveredNeuron), activationStrengths) == Idle
  {
  }

  /** With nothing hovered and no activation, every neuron is idle. */
  lemma NoHoverNoActivationIsIdle(layerIndex: nat, neuronIndex: nat, activeNeuron: Option<nat>)
    ensures NeuronColorOf(layerIndex, neuronIndex, None, activeNeuron, None) == Idle
  {
  }

  /**
   * An omitted activation list behaves as the empty one, and an index past the end of a
   * list behaves as an omitted list: the neuron falls through to the layer or idle rules.
   */
  lemma MissingActivationFallsThrough(
    layerIndex: nat, neuronIndex: nat,
    activeLayer: Option<nat>, activeNeuron: Option<nat>,
    strengths: seq<Activation>
  )
    requires neuronIndex >= |strengths|
    ensures NeuronColorOf(layerIndex, neuronIndex, activeLayer, activeNeuron, Some(strengths)) ==
            NeuronColorOf(layerIndex, neuronIndex, activeLayer, activeNeuron, Some([])) ==
            NeuronColorOf(layerIndex, neuronIndex, activeLayer, activeNeuron, None)
    ensures !NeuronColorOf(layerIndex, neuronIndex, activeLayer, activeNeuron, None).Weighted?
  {
  }
}
