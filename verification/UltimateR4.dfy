/**
 * The UltimateR4 controller mode: its SOCD direction pairs, fixed when the
 * mode is constructed, and the per-frame update that evaluates the profile's
 * rule list into the caller's OutputState.
 */
module UltimateR4Mode {
  import Inputs
  import opened Outputs
  import opened Rules
  import DefaultProfile

  /**
   * The SOCD resolution policy a pair carries. Only the second-input-priority
   * policy appears in the sources modelled here; any other policy is an
   * opaque tag, and no resolution behaviour is attached to either.
   */
  datatype SocdType = Socd2IP | OtherSocdType(tag: nat)

  /** Two opposing buttons, named by the InputState field each designates, and the policy between them. */
  datatype SocdPair = SocdPair(button1: Inputs.Button, button2: Inputs.Button, socdType: SocdType)

  /**
   * The four pairs the mode installs, all with the policy `t`: left and
   * right, down and up, C-left and C-right, C-down and C-up.
   */
  function ModeSocdPairs(t: SocdType): (pairs: seq<SocdPair>)
    ensures |pairs| == 4
    ensures forall i :: 0 <= i < |pairs| ==> pairs[i].socdType == t
  {
    [ SocdPair(Inputs.Left, Inputs.Right, t),
      SocdPair(Inputs.Down, Inputs.Up, t),
      SocdPair(Inputs.CLeft, Inputs.CRight, t),
      SocdPair(Inputs.CDown, Inputs.CUp, t) ]
  }

  /** The buttons a list of pairs involves. */
  function PairedButtons(pairs: seq<SocdPair>): set<Inputs.Button>
  {
    (set i | 0 <= i < |pairs| :: pairs[i].button1) + (set i | 0 <= i < |pairs| :: pairs[i].button2)
  }

  /**
   * The mode's pairs are disjoint: no button is in two pairs or paired with
   * itself, so eight distinct buttons are paired.
   */
  lemma ModeSocdPairsDisjoint(t: SocdType)
    ensures forall i :: 0 <= i < 4 ==> ModeSocdPairs(t)[i].button1 != ModeSocdPairs(t)[i].button2
    ensures forall i, j :: 0 <= i < j < 4 ==>
      var p, q := ModeSocdPairs(t)[i], ModeSocdPairs(t)[j];
      p.button1 != q.button1 && p.button1 != q.button2 &&
      p.button2 != q.button1 && p.button2 != q.button2
  {
    var pairs := ModeSocdPairs(t);
    forall i, j | 0 <= i < j < 4
      ensures pairs[i].button1 != pairs[j].button1 && pairs[i].button1 != pairs[j].button2
      ensures pairs[i].button2 != pairs[j].button1 && pairs[i].button2 != pairs[j].button2
    {
      assert i == 0 || i == 1 || i == 2;
    }
  }

  /** The paired buttons are exactly the four left-stick and four C-stick directions. */
  lemma ModeSocdPairsCoverDirections(t: SocdType)
    ensures PairedButtons(ModeSocdPairs(t)) ==
      {Inputs.Left, Inputs.Right, Inputs.Down, Inputs.Up, Inputs.CLeft, Inputs.CRight, Inputs.CDown, Inputs.CUp}
  {
    var pairs := ModeSocdPairs(t);
    assert pairs[0].button1 == Inputs.Left && pairs[0].button2 == Inputs.Right;
    assert pairs[1].button1 == Inputs.Down && pairs[1].button2 == Inputs.Up;
    assert pairs[2].button1 == Inputs.CLeft && pairs[2].button2 == Inputs.CRight;
    assert pairs[3].button1 == Inputs.CDown && pairs[3].button2 == Inputs.CUp;
  }

  /** The controller mode. */
  class UltimateR4 {
    var socdPairCount: int
    var socdPairs: array<SocdPair>
    /** The profile's rule list, which every instance reads: the default profile's. */
    const inputMap: seq<Rule>

    /** Every value in the rule list has the kind its field needs. */
    predicate Valid()
    {
      WellKinded(inputMap)
    }

    constructor (socdType: SocdType)
      ensures fresh(socdPairs)
      ensures socdPairCount == socdPairs.Length == 4
      ensures socdPairs[..] == ModeSocdPairs(socdType)
      ensures inputMap == DefaultProfile.InputMap
      ensures Valid()
    {
      inputMap := DefaultProfile.InputMap;
      DefaultProfile.InputMapWellKinded();
      socdPairCount := 4;
      socdPairs := new SocdPair[4] [
        SocdPair(Inputs.Left, Inputs.Right, socdType),
        SocdPair(Inputs.Down, Inputs.Up, socdType),
        SocdPair(Inputs.CLeft, Inputs.CRight, socdType),
        SocdPair(Inputs.CDown, Inputs.CUp, socdType)];
    }

    /** The digital update of this mode does nothing: all outputs come from the analog update. */
    method UpdateDigitalOutputs(inputs: Inputs.InputState, outputs: OutputState)
      ensures outputs.report == old(outputs.report)
    {
    }

    /**
     * Stores `value` in the field that `key` names, converted to the field's
     * type; an unrecognised key changes nothing.
     */
    method AssignValue(outputs: OutputState, key: string, value: Value)
      requires EntryFits(Entry(key, value))
      modifies outputs
      ensures outputs.report == Assign(old(outputs.report), key, value)
    {
      match KeyToField(key)
      case Some(f) =>
        // A digital field takes the value as a bool, an analog one as an 8-bit level.
        outputs.Write(f, Stored(f, value));
      case None =>
    }

    /**
     * Walks the profile's rule list in order. A rule whose buttons are not
     * all pressed is skipped as soon as one is found released; a rule whose
     * buttons are all pressed has each of its output members assigned.
     */
    method UpdateAnalogOutputs(inputs: Inputs.InputState, outputs: OutputState)
      requires Valid()
      modifies outputs
      ensures outputs.report == Apply(inputMap, inputs, old(outputs.report))
    {
      var i := 0;
      while i < |inputMap|
        invariant 0 <= i <= |inputMap|
        invariant WellKinded(inputMap[..i])
        invariant outputs.report == Apply(inputMap[..i], inputs, old(outputs.report))
      {
        var input := inputMap[i];
        var buttons := input.buttons;
        var matched := true;
        var j := 0;
        while j < |buttons|
          invariant 0 <= j <= |buttons|
          invariant forall k :: 0 <= k < j ==> Inputs.Pressed(inputs, buttons[k])
        {
          if !Inputs.Pressed(inputs, buttons[j]) {
            // Not every required button is pressed: go on to the next rule.
            matched := false;
            break;
          }
          j := j + 1;
        }
        assert matched <==> Fires(input, inputs);

        ghost var before := outputs.report;
        if matched {
          var output := input.output;
          var k := 0;
          while k < |output|
            invariant 0 <= k <= |output|
            invariant outputs.report == AssignAll(before, output[..k])
          {
            AssignValue(outputs, output[k].key, output[k].value);
            assert output[..k + 1][..k] == output[..k];
            k := k + 1;
          }
          assert output[..|output|] == output;
        }
        PrefixWellKinded(inputMap, i + 1);
        assert inputMap[..i + 1][..i] == inputMap[..i];
        i := i + 1;
      }
      assert inputMap[..|inputMap|] == inputMap;
    }
  }
}
