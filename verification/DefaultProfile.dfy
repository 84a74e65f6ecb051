/**
 * The built-in default profile's rule list (the "inputMap" array of the
 * embedded profile document) and what it produces for given button
 * combinations.
 */
module DefaultProfile {
  import Inputs
  import opened Outputs
  import opened Rules

  /** The L trigger and the four left-stick directions, one button each: left and right deflect the stick fully on X, down fully on Y. */
  const TriggerAndStickRules: seq<Rule> := [
    Rule([1], [Entry("l", Bool(true))]),
    Rule([2], [Entry("leftStickX", Num(28))]),
    Rule([3], [Entry("leftStickY", Num(28))]),
    Rule([4], [Entry("leftStickX", Num(228))])
  ]

  /** Start, the R trigger and the face and shoulder buttons, one button each. */
  const ButtonRules: seq<Rule> := [
    Rule([7], [Entry("start", Bool(true))]),
    Rule([8], [Entry("r", Bool(true))]),
    Rule([9], [Entry("y", Bool(true))]),
    Rule([11], [Entry("zl", Bool(true))]),
    Rule([12], [Entry("b", Bool(true))]),
    Rule([13], [Entry("x", Bool(true))]),
    Rule([14], [Entry("zr", Bool(true))])
  ]

  /** Up, the C-stick directions and A, one button each. */
  const UpAndCStickRules: seq<Rule> := [
    Rule([15], [Entry("leftStickY", Num(228))]),
    Rule([16], [Entry("rightStickX", Num(28))]),
    Rule([17], [Entry("rightStickY", Num(228))]),
    Rule([18], [Entry("rightStickY", Num(28))]),
    Rule([19], [Entry("a", Bool(true))]),
    Rule([20], [Entry("rightStickX", Num(228))])
  ]

  /** Modifier X (button 5) with left, right or down: reduced left-stick deflection. */
  const ModXRules: seq<Rule> := [
    Rule([2, 5], [Entry("leftStickX", Num(75))]),
    Rule([4, 5], [Entry("leftStickX", Num(181))]),
    Rule([3, 5], [Entry("leftStickY", Num(63))])
  ]

  /** Modifier Y (button 6) with left, right or down. */
  const ModYRules: seq<Rule> := [
    Rule([2, 6], [Entry("leftStickX", Num(75))]),
    Rule([4, 6], [Entry("leftStickX", Num(156))]),
    Rule([3, 6], [Entry("leftStickY", Num(63))])
  ]

  /** Both modifiers with a C-stick direction: the D-pad. */
  const DpadLayer: seq<Rule> := [
    Rule([5, 6, 16], [Entry("dpadLeft", Bool(true))]),
    Rule([5, 6, 17], [Entry("dpadUp", Bool(true))]),
    Rule([5, 6, 18], [Entry("dpadDown", Bool(true))]),
    Rule([5, 6, 20], [Entry("dpadRight", Bool(true))])
  ]

  /** Both modifiers with start: home; modifier X with start: select. Each also releases start. */
  const Shortcuts: seq<Rule> := [
    Rule([5, 6, 7], [Entry("home", Bool(true)), Entry("start", Bool(false))]),
    Rule([5, 7], [Entry("select", Bool(true)), Entry("start", Bool(false))])
  ]

  /**
   * The default profile's rule list, in document order: the groups above,
   * one after another.
   */
  const InputMap: seq<Rule> :=
    TriggerAndStickRules + ButtonRules + UpAndCStickRules + ModXRules + ModYRules + DpadLayer + Shortcuts

  /*
   * Each group is reasoned about on its own: that it is well kinded, which
   * fields it never names, and, for the fields it does name, the last match
   * for every input. The groups are then put together by
   * LastMatchOfSevenGroups, which knows nothing about their contents.
   */

  lemma TriggerAndStickRulesWellKinded() ensures WellKinded(TriggerAndStickRules) {}
  lemma ButtonRulesWellKinded() ensures WellKinded(ButtonRules) {}
  lemma UpAndCStickRulesWellKinded() ensures WellKinded(UpAndCStickRules) {}
  lemma ModXRulesWellKinded() ensures WellKinded(ModXRules) {}
  lemma ModYRulesWellKinded() ensures WellKinded(ModYRules) {}
  lemma DpadLayerWellKinded() ensures WellKinded(DpadLayer) {}
  lemma ShortcutsWellKinded() ensures WellKinded(Shortcuts) {}

  lemma TriggerAndStickRulesSilent(inputs: Inputs.InputState, f: Field)
    requires f !in {TriggerLDigital, LeftStickX, LeftStickY}
    ensures WellKinded(TriggerAndStickRules)
    ensures LastMatch(TriggerAndStickRules, inputs, f).None?
  {
    TriggerAndStickRulesWellKinded();
    forall j | 0 <= j < |TriggerAndStickRules|
      ensures !Writes(TriggerAndStickRules[j], inputs, f)
    {
      SingleEntrySilent(TriggerAndStickRules[j], inputs, f);
    }
    NoWriterNoMatch(TriggerAndStickRules, inputs, f);
  }

  lemma ButtonRulesSilent(inputs: Inputs.InputState, f: Field)
    requires f !in {Start, TriggerRDigital, Y, ButtonL, B, X, ButtonR}
    ensures WellKinded(ButtonRules)
    ensures LastMatch(ButtonRules, inputs, f).None?
  {
    ButtonRulesWellKinded();
    forall j | 0 <= j < |ButtonRules|
      ensures !Writes(ButtonRules[j], inputs, f)
    {
      SingleEntrySilent(ButtonRules[j], inputs, f);
    }
    NoWriterNoMatch(ButtonRules, inputs, f);
  }

  lemma UpAndCStickRulesSilent(inputs: Inputs.InputState, f: Field)
    requires f !in {LeftStickY, RightStickX, RightStickY, A}
    ensures WellKinded(UpAndCStickRules)
    ensures LastMatch(UpAndCStickRules, inputs, f).None?
  {
    UpAndCStickRulesWellKinded();
    forall j | 0 <= j < |UpAndCStickRules|
      ensures !Writes(UpAndCStickRules[j], inputs, f)
    {
      SingleEntrySilent(UpAndCStickRules[j], inputs, f);
    }
    NoWriterNoMatch(UpAndCStickRules, inputs, f);
  }

  lemma ModXRulesSilent(inputs: Inputs.InputState, f: Field)
    requires f !in {LeftStickX, LeftStickY}
    ensures WellKinded(ModXRules)
    ensures LastMatch(ModXRules, inputs, f).None?
  {
    ModXRulesWellKinded();
    forall j | 0 <= j < |ModXRules|
      ensures !Writes(ModXRules[j], inputs, f)
    {
      SingleEntrySilent(ModXRules[j], inputs, f);
    }
    NoWriterNoMatch(ModXRules, inputs, f);
  }

  lemma ModYRulesSilent(inputs: Inputs.InputState, f: Field)
    requires f !in {LeftStickX, LeftStickY}
    ensures WellKinded(ModYRules)
    ensures LastMatch(ModYRules, inputs, f).None?
  {
    ModYRulesWellKinded();
    forall j | 0 <= j < |ModYRules|
      ensures !Writes(ModYRules[j], inputs, f)
    {
      SingleEntrySilent(ModYRules[j], inputs, f);
    }
    NoWriterNoMatch(ModYRules, inputs, f);
  }

  lemma DpadLayerSilent(inputs: Inputs.InputState, f: Field)
    requires f !in {DpadLeft, DpadUp, DpadDown, DpadRight}
    ensures WellKinded(DpadLayer)
    ensures LastMatch(DpadLayer, inputs, f).None?
  {
    DpadLayerWellKinded();
    forall j | 0 <= j < |DpadLayer|
      ensures !Writes(DpadLayer[j], inputs, f)
    {
      SingleEntrySilent(DpadLayer[j], inputs, f);
    }
    NoWriterNoMatch(DpadLayer, inputs, f);
  }

  lemma ShortcutsSilent(inputs: Inputs.InputState, f: Field)
    requires f !in {Home, Start, Select}
    ensures WellKinded(Shortcuts)
    ensures LastMatch(Shortcuts, inputs, f).None?
  {
    ShortcutsWellKinded();
    LastWritePair(Shortcuts[0].output, f);
    LastWritePair(Shortcuts[1].output, f);
    NoWriterNoMatch(Shortcuts, inputs, f);
  }

  /** Left and right set the stick's X to its extremes, right winning when both are held. */
  lemma TriggerAndStickRulesLeftStickX(inputs: Inputs.InputState)
    ensures WellKinded(TriggerAndStickRules)
    ensures LastMatch(TriggerAndStickRules, inputs, LeftStickX) ==
      if inputs.right then Some(Num(228)) else if inputs.left then Some(Num(28)) else None
  {
    TriggerAndStickRulesWellKinded();
    if inputs.right {
      LastMatchIsLastWriter(TriggerAndStickRules, inputs, LeftStickX, 3);
    } else {
      assert !Inputs.Pressed(inputs, TriggerAndStickRules[3].buttons[0]);
      if inputs.left {
        LastMatchIsLastWriter(TriggerAndStickRules, inputs, LeftStickX, 1);
      } else {
        assert !Inputs.Pressed(inputs, TriggerAndStickRules[1].buttons[0]);
        NoWriterNoMatch(TriggerAndStickRules, inputs, LeftStickX);
      }
    }
  }

  lemma TriggerAndStickRulesLeftStickY(inputs: Inputs.InputState)
    ensures WellKinded(TriggerAndStickRules)
    ensures LastMatch(TriggerAndStickRules, inputs, LeftStickY) ==
      if inputs.down then Some(Num(28)) else None
  {
    TriggerAndStickRulesWellKinded();
    if inputs.down {
      LastMatchIsLastWriter(TriggerAndStickRules, inputs, LeftStickY, 2);
    } else {
      assert !Inputs.Pressed(inputs, TriggerAndStickRules[2].buttons[0]);
      NoWriterNoMatch(TriggerAndStickRules, inputs, LeftStickY);
    }
  }

  lemma ButtonRulesStart(inputs: Inputs.InputState)
    ensures WellKinded(ButtonRules)
    ensures LastMatch(ButtonRules, inputs, Start) == if inputs.start then Some(Bool(true)) else None
  {
    ButtonRulesWellKinded();
    if inputs.start {
      LastMatchIsLastWriter(ButtonRules, inputs, Start, 0);
    } else {
      assert !Inputs.Pressed(inputs, ButtonRules[0].buttons[0]);
      NoWriterNoMatch(ButtonRules, inputs, Start);
    }
  }

  lemma UpAndCStickRulesLeftStickY(inputs: Inputs.InputState)
    ensures WellKinded(UpAndCStickRules)
    ensures LastMatch(UpAndCStickRules, inputs, LeftStickY) == if inputs.up then Some(Num(228)) else None
  {
    UpAndCStickRulesWellKinded();
    if inputs.up {
      LastMatchIsLastWriter(UpAndCStickRules, inputs, LeftStickY, 0);
    } else {
      assert !Inputs.Pressed(inputs, UpAndCStickRules[0].buttons[0]);
      NoWriterNoMatch(UpAndCStickRules, inputs, LeftStickY);
    }
  }

  lemma UpAndCStickRulesRightStickX(inputs: Inputs.InputState)
    ensures WellKinded(UpAndCStickRules)
    ensures LastMatch(UpAndCStickRules, inputs, RightStickX) ==
      if inputs.cRight then Some(Num(228)) else if inputs.cLeft then Some(Num(28)) else None
  {
    UpAndCStickRulesWellKinded();
    if inputs.cRight {
      LastMatchIsLastWriter(UpAndCStickRules, inputs, RightStickX, 5);
    } else {
      assert !Inputs.Pressed(inputs, UpAndCStickRules[5].buttons[0]);
      if inputs.cLeft {
        LastMatchIsLastWriter(UpAndCStickRules, inputs, RightStickX, 1);
      } else {
        assert !Inputs.Pressed(inputs, UpAndCStickRules[1].buttons[0]);
        NoWriterNoMatch(UpAndCStickRules, inputs, RightStickX);
      }
    }
  }

  lemma ModXRulesLeftStickX(inputs: Inputs.InputState)
    ensures WellKinded(ModXRules)
    ensures LastMatch(ModXRules, inputs, LeftStickX) ==
      if inputs.modX && inputs.right then Some(Num(181))
      else if inputs.modX && inputs.left then Some(Num(75))
      else None
  {
    ModXRulesWellKinded();
    if inputs.modX && inputs.right {
      LastMatchIsLastWriter(ModXRules, inputs, LeftStickX, 1);
    } else {
      assert !Inputs.Pressed(inputs, ModXRules[1].buttons[0]) || !Inputs.Pressed(inputs, ModXRules[1].buttons[1]);
      if inputs.modX && inputs.left {
        LastMatchIsLastWriter(ModXRules, inputs, LeftStickX, 0);
      } else {
        assert !Inputs.Pressed(inputs, ModXRules[0].buttons[0]) || !Inputs.Pressed(inputs, ModXRules[0].buttons[1]);
        NoWriterNoMatch(ModXRules, inputs, LeftStickX);
      }
    }
  }

  lemma ModXRulesLeftStickY(inputs: Inputs.InputState)
    ensures WellKinded(ModXRules)
    ensures LastMatch(ModXRules, inputs, LeftStickY) ==
      if inputs.modX && inputs.down then Some(Num(63)) else None
  {
    ModXRulesWellKinded();
    if inputs.modX && inputs.down {
      LastMatchIsLastWriter(ModXRules, inputs, LeftStickY, 2);
    } else {
      assert !Inputs.Pressed(inputs, ModXRules[2].buttons[0]) || !Inputs.Pressed(inputs, ModXRules[2].buttons[1]);
      NoWriterNoMatch(ModXRules, inputs, LeftStickY);
    }
  }

  lemma ModYRulesLeftStickX(inputs: Inputs.InputState)
    ensures WellKinded(ModYRules)
    ensures LastMatch(ModYRules, inputs, LeftStickX) ==
      if inputs.modY && inputs.right then Some(Num(156))
      else if inputs.modY && inputs.left then Some(Num(75))
      else None
  {
    ModYRulesWellKinded();
    if inputs.modY && inputs.right {
      LastMatchIsLastWriter(ModYRules, inputs, LeftStickX, 1);
    } else {
      assert !Inputs.Pressed(inputs, ModYRules[1].buttons[0]) || !Inputs.Pressed(inputs, ModYRules[1].buttons[1]);
      if inputs.modY && inputs.left {
        LastMatchIsLastWriter(ModYRules, inputs, LeftStickX, 0);
      } else {
        assert !Inputs.Pressed(inputs, ModYRules[0].buttons[0]) || !Inputs.Pressed(inputs, ModYRules[0].buttons[1]);
        NoWriterNoMatch(ModYRules, inputs, LeftStickX);
      }
    }
  }

  lemma ModYRulesLeftStickY(inputs: Inputs.InputState)
    ensures WellKinded(ModYRules)
    ensures LastMatch(ModYRules, inputs, LeftStickY) ==
      if inputs.modY && inputs.down then Some(Num(63)) else None
  {
    ModYRulesWellKinded();
    if inputs.modY && inputs.down {
      LastMatchIsLastWriter(ModYRules, inputs, LeftStickY, 2);
    } else {
      assert !Inputs.Pressed(inputs, ModYRules[2].buttons[0]) || !Inputs.Pressed(inputs, ModYRules[2].buttons[1]);
      NoWriterNoMatch(ModYRules, inputs, LeftStickY);
    }
  }

  lemma DpadLayerDpadLeft(inputs: Inputs.InputState)
    ensures WellKinded(DpadLayer)
    ensures LastMatch(DpadLayer, inputs, DpadLeft) ==
      if inputs.modX && inputs.modY && inputs.cLeft then Some(Bool(true)) else None
  {
    DpadLayerWellKinded();
    if inputs.modX && inputs.modY && inputs.cLeft {
      LastMatchIsLastWriter(DpadLayer, inputs, DpadLeft, 0);
    } else {
      assert !Inputs.Pressed(inputs, DpadLayer[0].buttons[0]) || !Inputs.Pressed(inputs, DpadLayer[0].buttons[1])
        || !Inputs.Pressed(inputs, DpadLayer[0].buttons[2]);
      NoWriterNoMatch(DpadLayer, inputs, DpadLeft);
    }
  }

  lemma DpadLayerDpadUp(inputs: Inputs.InputState)
    ensures WellKinded(DpadLayer)
    ensures LastMatch(DpadLayer, inputs, DpadUp) ==
      if inputs.modX && inputs.modY && inputs.cUp then Some(Bool(true)) else None
  {
    DpadLayerWellKinded();
    if inputs.modX && inputs.modY && inputs.cUp {
      LastMatchIsLastWriter(DpadLayer, inputs, DpadUp, 1);
    } else {
      assert !Inputs.Pressed(inputs, DpadLayer[1].buttons[0]) || !Inputs.Pressed(inputs, DpadLayer[1].buttons[1])
        || !Inputs.Pressed(inputs, DpadLayer[1].buttons[2]);
      NoWriterNoMatch(DpadLayer, inputs, DpadUp);
    }
  }

  lemma DpadLayerDpadDown(inputs: Inputs.InputState)
    ensures WellKinded(DpadLayer)
    ensures LastMatch(DpadLayer, inputs, DpadDown) ==
      if inputs.modX && inputs.modY && inputs.cDown then Some(Bool(true)) else None
  {
    DpadLayerWellKinded();
    if inputs.modX && inputs.modY && inputs.cDown {
      LastMatchIsLastWriter(DpadLayer, inputs, DpadDown, 2);
    } else {
      assert !Inputs.Pressed(inputs, DpadLayer[2].buttons[0]) || !Inputs.Pressed(inputs, DpadLayer[2].buttons[1])
        || !Inputs.Pressed(inputs, DpadLayer[2].buttons[2]);
      NoWriterNoMatch(DpadLayer, inputs, DpadDown);
    }
  }

  lemma DpadLayerDpadRight(inputs: Inputs.InputState)
    ensures WellKinded(DpadLayer)
    ensures LastMatch(DpadLayer, inputs, DpadRight) ==
      if inputs.modX && inputs.modY && inputs.cRight then Some(Bool(true)) else None
  {
    DpadLayerWellKinded();
    if inputs.modX && inputs.modY && inputs.cRight {
      LastMatchIsLastWriter(DpadLayer, inputs, DpadRight, 3);
    } else {
      assert !Inputs.Pressed(inputs, DpadLayer[3].buttons[0]) || !Inputs.Pressed(inputs, DpadLayer[3].buttons[1])
        || !Inputs.Pressed(inputs, DpadLayer[3].buttons[2]);
      NoWriterNoMatch(DpadLayer, inputs, DpadRight);
    }
  }

  lemma ShortcutsHome(inputs: Inputs.InputState)
    ensures WellKinded(Shortcuts)
    ensures LastMatch(Shortcuts, inputs, Home) ==
      if inputs.modX && inputs.modY && inputs.start then Some(Bool(true)) else None
  {
    ShortcutsWellKinded();
    LastWritePair(Shortcuts[0].output, Home);
    LastWritePair(Shortcuts[1].output, Home);
    if inputs.modX && inputs.modY && inputs.start {
      LastMatchIsLastWriter(Shortcuts, inputs, Home, 0);
    } else {
      assert !Inputs.Pressed(inputs, Shortcuts[0].buttons[0]) || !Inputs.Pressed(inputs, Shortcuts[0].buttons[1])
        || !Inputs.Pressed(inputs, Shortcuts[0].buttons[2]);
      NoWriterNoMatch(Shortcuts, inputs, Home);
    }
  }

  lemma ShortcutsSelect(inputs: Inputs.InputState)
    ensures WellKinded(Shortcuts)
    ensures LastMatch(Shortcuts, inputs, Select) ==
      if inputs.modX && inputs.start then Some(Bool(true)) else None
  {
    ShortcutsWellKinded();
    LastWritePair(Shortcuts[0].output, Select);
    LastWritePair(Shortcuts[1].output, Select);
    if inputs.modX && inputs.start {
      LastMatchIsLastWriter(Shortcuts, inputs, Select, 1);
    } else {
      assert !Inputs.Pressed(inputs, Shortcuts[1].buttons[0]) || !Inputs.Pressed(inputs, Shortcuts[1].buttons[1]);
      NoWriterNoMatch(Shortcuts, inputs, Select);
    }
  }

  lemma ShortcutsStart(inputs: Inputs.InputState)
    ensures WellKinded(Shortcuts)
    ensures LastMatch(Shortcuts, inputs, Start) ==
      if inputs.modX && inputs.start then Some(Bool(false)) else None
  {
    ShortcutsWellKinded();
    LastWritePair(Shortcuts[0].output, Start);
    LastWritePair(Shortcuts[1].output, Start);
    if inputs.modX && inputs.start {
      LastMatchIsLastWriter(Shortcuts, inputs, Start, 1);
    } else {
      assert !Inputs.Pressed(inputs, Shortcuts[0].buttons[0]) || !Inputs.Pressed(inputs, Shortcuts[0].buttons[2]);
      assert !Inputs.Pressed(inputs, Shortcuts[1].buttons[0]) || !Inputs.Pressed(inputs, Shortcuts[1].buttons[1]);
      NoWriterNoMatch(Shortcuts, inputs, Start);
    }
  }

  /** Seven well-kinded lists, concatenated, are well kinded. */
  lemma WellKindedOfSevenGroups(g1: seq<Rule>, g2: seq<Rule>, g3: seq<Rule>, g4: seq<Rule>,
                                g5: seq<Rule>, g6: seq<Rule>, g7: seq<Rule>)
    requires WellKinded(g1) && WellKinded(g2) && WellKinded(g3) && WellKinded(g4)
    requires WellKinded(g5) && WellKinded(g6) && WellKinded(g7)
    ensures WellKinded(g1 + g2 + g3 + g4 + g5 + g6 + g7)
  {
    WellKindedConcat(g1, g2);
    WellKindedConcat(g1 + g2, g3);
    WellKindedConcat(g1 + g2 + g3, g4);
    WellKindedConcat(g1 + g2 + g3 + g4, g5);
    WellKindedConcat(g1 + g2 + g3 + g4 + g5, g6);
    WellKindedConcat(g1 + g2 + g3 + g4 + g5 + g6, g7);
  }

  /** The last match in seven concatenated lists comes from the last list that has one. */
  lemma LastMatchOfSevenGroups(g1: seq<Rule>, g2: seq<Rule>, g3: seq<Rule>, g4: seq<Rule>,
                               g5: seq<Rule>, g6: seq<Rule>, g7: seq<Rule>,
                               inputs: Inputs.InputState, f: Field)
    requires WellKinded(g1) && WellKinded(g2) && WellKinded(g3) && WellKinded(g4)
    requires WellKinded(g5) && WellKinded(g6) && WellKinded(g7)
    ensures WellKinded(g1 + g2 + g3 + g4 + g5 + g6 + g7)
    ensures LastMatch(g1 + g2 + g3 + g4 + g5 + g6 + g7, inputs, f) ==
      if LastMatch(g7, inputs, f).Some? then LastMatch(g7, inputs, f)
      else if LastMatch(g6, inputs, f).Some? then LastMatch(g6, inputs, f)
      else if LastMatch(g5, inputs, f).Some? then LastMatch(g5, inputs, f)
      else if LastMatch(g4, inputs, f).Some? then LastMatch(g4, inputs, f)
      else if LastMatch(g3, inputs, f).Some? then LastMatch(g3, inputs, f)
      else if LastMatch(g2, inputs, f).Some? then LastMatch(g2, inputs, f)
      else LastMatch(g1, inputs, f)
  {
    LastMatchConcat(g1, g2, inputs, f);
    LastMatchConcat(g1 + g2, g3, inputs, f);
    LastMatchConcat(g1 + g2 + g3, g4, inputs, f);
    LastMatchConcat(g1 + g2 + g3 + g4, g5, inputs, f);
    LastMatchConcat(g1 + g2 + g3 + g4 + g5, g6, inputs, f);
    LastMatchConcat(g1 + g2 + g3 + g4 + g5 + g6, g7, inputs, f);
  }

  /** Evaluating seven concatenated lists is evaluating them one after another. */
  lemma ApplyOfSevenGroups(g1: seq<Rule>, g2: seq<Rule>, g3: seq<Rule>, g4: seq<Rule>,
                           g5: seq<Rule>, g6: seq<Rule>, g7: seq<Rule>,
                           inputs: Inputs.InputState, o: OutputSnapshot)
    requires WellKinded(g1) && WellKinded(g2) && WellKinded(g3) && WellKinded(g4)
    requires WellKinded(g5) && WellKinded(g6) && WellKinded(g7)
    ensures WellKinded(g1 + g2 + g3 + g4 + g5 + g6 + g7)
    ensures Apply(g1 + g2 + g3 + g4 + g5 + g6 + g7, inputs, o) ==
      Apply(g7, inputs, Apply(g6, inputs, Apply(g5, inputs, Apply(g4, inputs,
        Apply(g3, inputs, Apply(g2, inputs, Apply(g1, inputs, o)))))))
  {
    ApplyConcat(g1, g2, inputs, o);
    ApplyConcat(g1 + g2, g3, inputs, o);
    ApplyConcat(g1 + g2 + g3, g4, inputs, o);
    ApplyConcat(g1 + g2 + g3 + g4, g5, inputs, o);
    ApplyConcat(g1 + g2 + g3 + g4 + g5, g6, inputs, o);
    ApplyConcat(g1 + g2 + g3 + g4 + g5 + g6, g7, inputs, o);
  }

  lemma GroupsWellKinded()
    ensures WellKinded(TriggerAndStickRules) && WellKinded(ButtonRules) && WellKinded(UpAndCStickRules)
    ensures WellKinded(ModXRules) && WellKinded(ModYRules) && WellKinded(DpadLayer) && WellKinded(Shortcuts)
  {
    TriggerAndStickRulesWellKinded();
    ButtonRulesWellKinded();
    UpAndCStickRulesWellKinded();
    ModXRulesWellKinded();
    ModYRulesWellKinded();
    DpadLayerWellKinded();
    ShortcutsWellKinded();
  }

  /** Every value in the default profile has the kind its field needs. */
  lemma InputMapWellKinded()
    ensures WellKinded(InputMap)
  {
    GroupsWellKinded();
    WellKindedOfSevenGroups(TriggerAndStickRules, ButtonRules, UpAndCStickRules, ModXRules, ModYRules,
                            DpadLayer, Shortcuts);
  }

  /** The default profile evaluated on one frame, starting from output `o`. */
  function Run(inputs: Inputs.InputState, o: OutputSnapshot): OutputSnapshot
  {
    InputMapWellKinded();
    Apply(InputMap, inputs, o)
  }

  /** Field `f`'s last match in the default profile: the one from the last group that has one. */
  lemma InputMapLastMatch(inputs: Inputs.InputState, f: Field)
    ensures WellKinded(TriggerAndStickRules) && WellKinded(ButtonRules) && WellKinded(UpAndCStickRules)
    ensures WellKinded(ModXRules) && WellKinded(ModYRules) && WellKinded(DpadLayer) && WellKinded(Shortcuts)
    ensures WellKinded(InputMap)
    ensures LastMatch(InputMap, inputs, f) ==
      if LastMatch(Shortcuts, inputs, f).Some? then LastMatch(Shortcuts, inputs, f)
      else if LastMatch(DpadLayer, inputs, f).Some? then LastMatch(DpadLayer, inputs, f)
      else if LastMatch(ModYRules, inputs, f).Some? then LastMatch(ModYRules, inputs, f)
      else if LastMatch(ModXRules, inputs, f).Some? then LastMatch(ModXRules, inputs, f)
      else if LastMatch(UpAndCStickRules, inputs, f).Some? then LastMatch(UpAndCStickRules, inputs, f)
      else if LastMatch(ButtonRules, inputs, f).Some? then LastMatch(ButtonRules, inputs, f)
      else LastMatch(TriggerAndStickRules, inputs, f)
  {
    GroupsWellKinded();
    LastMatchOfSevenGroups(TriggerAndStickRules, ButtonRules, UpAndCStickRules, ModXRules, ModYRules,
                           DpadLayer, Shortcuts, inputs, f);
  }

  lemma LeftStickXMatch(inputs: Inputs.InputState)
    ensures WellKinded(InputMap)
    ensures LastMatch(InputMap, inputs, LeftStickX) ==
      if inputs.modY && inputs.right then Some(Num(156))
      else if inputs.modY && inputs.left then Some(Num(75))
      else if inputs.modX && inputs.right then Some(Num(181))
      else if inputs.modX && inputs.left then Some(Num(75))
      else if inputs.right then Some(Num(228))
      else if inputs.left then Some(Num(28))
      else None
  {
    InputMapLastMatch(inputs, LeftStickX);
    TriggerAndStickRulesLeftStickX(inputs);
    ButtonRulesSilent(inputs, LeftStickX);
    UpAndCStickRulesSilent(inputs, LeftStickX);
    ModXRulesLeftStickX(inputs);
    ModYRulesLeftStickX(inputs);
    DpadLayerSilent(inputs, LeftStickX);
    ShortcutsSilent(inputs, LeftStickX);
  }

  /**
   * The left stick's X axis under the default profile: a modifier Y rule
   * beats a modifier X rule, which beats a plain direction, and right beats
   * left at each level. With neither left nor right held the axis keeps its
   * previous value.
   */
  lemma LeftStickXOnDefaultProfile(inputs: Inputs.InputState, o: OutputSnapshot)
    ensures Get(Run(inputs, o), LeftStickX) == Analog(
      if inputs.modY && inputs.right then 156
      else if inputs.modY && inputs.left then 75
      else if inputs.modX && inputs.right then 181
      else if inputs.modX && inputs.left then 75
      else if inputs.right then 228
      else if inputs.left then 28
      else o.leftStickX)
  {
    LeftStickXMatch(inputs);
    LastMatchWins(InputMap, inputs, o, LeftStickX);
  }

  lemma LeftStickYMatch(inputs: Inputs.InputState)
    ensures WellKinded(InputMap)
    ensures LastMatch(InputMap, inputs, LeftStickY) ==
      if inputs.modY && inputs.down then Some(Num(63))
      else if inputs.modX && inputs.down then Some(Num(63))
      else if inputs.up then Some(Num(228))
      else if inputs.down then Some(Num(28))
      else None
  {
    InputMapLastMatch(inputs, LeftStickY);
    TriggerAndStickRulesLeftStickY(inputs);
    ButtonRulesSilent(inputs, LeftStickY);
    UpAndCStickRulesLeftStickY(inputs);
    ModXRulesLeftStickY(inputs);
    ModYRulesLeftStickY(inputs);
    DpadLayerSilent(inputs, LeftStickY);
    ShortcutsSilent(inputs, LeftStickY);
  }

  /**
   * The left stick's Y axis: down with either modifier gives 63, otherwise
   * up gives 228 (beating down) and down alone gives 28.
   */
  lemma LeftStickYOnDefaultProfile(inputs: Inputs.InputState, o: OutputSnapshot)
    ensures Get(Run(inputs, o), LeftStickY) == Analog(
      if (inputs.modX || inputs.modY) && inputs.down then 63
      else if inputs.up then 228
      else if inputs.down then 28
      else o.leftStickY)
  {
    LeftStickYMatch(inputs);
    LastMatchWins(InputMap, inputs, o, LeftStickY);
  }

  lemma RightStickXMatch(inputs: Inputs.InputState)
    ensures WellKinded(InputMap)
    ensures LastMatch(InputMap, inputs, RightStickX) ==
      if inputs.cRight then Some(Num(228)) else if inputs.cLeft then Some(Num(28)) else None
  {
    InputMapLastMatch(inputs, RightStickX);
    TriggerAndStickRulesSilent(inputs, RightStickX);
    ButtonRulesSilent(inputs, RightStickX);
    UpAndCStickRulesRightStickX(inputs);
    ModXRulesSilent(inputs, RightStickX);
    ModYRulesSilent(inputs, RightStickX);
    DpadLayerSilent(inputs, RightStickX);
    ShortcutsSilent(inputs, RightStickX);
  }

  /**
   * The C-stick's X axis depends on C-left and C-right alone: the D-pad
   * layer, which reuses those buttons with both modifiers, does not
   * recentre it.
   */
  lemma RightStickXOnDefaultProfile(inputs: Inputs.InputState, o: OutputSnapshot)
    ensures Get(Run(inputs, o), RightStickX) == Analog(
      if inputs.cRight then 228 else if inputs.cLeft then 28 else o.rightStickX)
  {
    RightStickXMatch(inputs);
    LastMatchWins(InputMap, inputs, o, RightStickX);
  }

  /** Start is pressed through, except that modifier X with start releases it. */
  lemma StartOnDefaultProfile(inputs: Inputs.InputState, o: OutputSnapshot)
    ensures Get(Run(inputs, o), Start) == Digital(
      if inputs.modX && inputs.start then false
      else if inputs.start then true
      else o.start)
  {
    InputMapLastMatch(inputs, Start);
    LastMatchWins(InputMap, inputs, o, Start);
    TriggerAndStickRulesSilent(inputs, Start);
    ButtonRulesStart(inputs);
    UpAndCStickRulesSilent(inputs, Start);
    ModXRulesSilent(inputs, Start);
    ModYRulesSilent(inputs, Start);
    DpadLayerSilent(inputs, Start);
    ShortcutsStart(inputs);
  }

  /** Home is set by both modifiers with start, select by modifier X with start. */
  lemma HomeAndSelectOnDefaultProfile(inputs: Inputs.InputState, o: OutputSnapshot)
    ensures Get(Run(inputs, o), Home) ==
      Digital(if inputs.modX && inputs.modY && inputs.start then true else o.home)
    ensures Get(Run(inputs, o), Select) ==
      Digital(if inputs.modX && inputs.start then true else o.select)
  {
    InputMapLastMatch(inputs, Home);
    LastMatchWins(InputMap, inputs, o, Home);
    TriggerAndStickRulesSilent(inputs, Home);
    ButtonRulesSilent(inputs, Home);
    UpAndCStickRulesSilent(inputs, Home);
    ModXRulesSilent(inputs, Home);
    ModYRulesSilent(inputs, Home);
    DpadLayerSilent(inputs, Home);
    ShortcutsHome(inputs);
    InputMapLastMatch(inputs, Select);
    LastMatchWins(InputMap, inputs, o, Select);
    TriggerAndStickRulesSilent(inputs, Select);
    ButtonRulesSilent(inputs, Select);
    UpAndCStickRulesSilent(inputs, Select);
    ModXRulesSilent(inputs, Select);
    ModYRulesSilent(inputs, Select);
    DpadLayerSilent(inputs, Select);
    ShortcutsSelect(inputs);
  }

  lemma DpadLeftOnDefaultProfile(inputs: Inputs.InputState, o: OutputSnapshot)
    ensures Get(Run(inputs, o), DpadLeft) ==
      Digital(if inputs.modX && inputs.modY && inputs.cLeft then true else o.dpadLeft)
  {
    InputMapLastMatch(inputs, DpadLeft);
    LastMatchWins(InputMap, inputs, o, DpadLeft);
    TriggerAndStickRulesSilent(inputs, DpadLeft);
    ButtonRulesSilent(inputs, DpadLeft);
    UpAndCStickRulesSilent(inputs, DpadLeft);
    ModXRulesSilent(inputs, DpadLeft);
    ModYRulesSilent(inputs, DpadLeft);
    DpadLayerDpadLeft(inputs);
    ShortcutsSilent(inputs, DpadLeft);
  }

  lemma DpadUpOnDefaultProfile(inputs: Inputs.InputState, o: OutputSnapshot)
    ensures Get(Run(inputs, o), DpadUp) ==
      Digital(if inputs.modX && inputs.modY && inputs.cUp then true else o.dpadUp)
  {
    InputMapLastMatch(inputs, DpadUp);
    LastMatchWins(InputMap, inputs, o, DpadUp);
    TriggerAndStickRulesSilent(inputs, DpadUp);
    ButtonRulesSilent(inputs, DpadUp);
    UpAndCStickRulesSilent(inputs, DpadUp);
    ModXRulesSilent(inputs, DpadUp);
    ModYRulesSilent(inputs, DpadUp);
    DpadLayerDpadUp(inputs);
    ShortcutsSilent(inputs, DpadUp);
  }

  lemma DpadDownOnDefaultProfile(inputs: Inputs.InputState, o: OutputSnapshot)
    ensures Get(Run(inputs, o), DpadDown) ==
      Digital(if inputs.modX && inputs.modY && inputs.cDown then true else o.dpadDown)
  {
    InputMapLastMatch(inputs, DpadDown);
    LastMatchWins(InputMap, inputs, o, DpadDown);
    TriggerAndStickRulesSilent(inputs, DpadDown);
    ButtonRulesSilent(inputs, DpadDown);
    UpAndCStickRulesSilent(inputs, DpadDown);
    ModXRulesSilent(inputs, DpadDown);
    ModYRulesSilent(inputs, DpadDown);
    DpadLayerDpadDown(inputs);
    ShortcutsSilent(inputs, DpadDown);
  }

  lemma DpadRightOnDefaultProfile(inputs: Inputs.InputState, o: OutputSnapshot)
    ensures Get(Run(inputs, o), DpadRight) ==
      Digital(if inputs.modX && inputs.modY && inputs.cRight then true else o.dpadRight)
  {
    InputMapLastMatch(inputs, DpadRight);
    LastMatchWins(InputMap, inputs, o, DpadRight);
    TriggerAndStickRulesSilent(inputs, DpadRight);
    ButtonRulesSilent(inputs, DpadRight);
    UpAndCStickRulesSilent(inputs, DpadRight);
    ModXRulesSilent(inputs, DpadRight);
    ModYRulesSilent(inputs, DpadRight);
    DpadLayerDpadRight(inputs);
    ShortcutsSilent(inputs, DpadRight);
  }

  /**
   * The modifier overrides: a later two-button rule replaces the value a
   * single direction wrote, and the shortcuts replace the start that the
   * start rule wrote.
   */
  lemma ModifierOverrides(inputs: Inputs.InputState, o: OutputSnapshot)
    ensures inputs.left && inputs.modX && !inputs.right ==> Get(Run(inputs, o), LeftStickX) == Analog(75)
    ensures inputs.right && inputs.modX && !inputs.modY ==> Get(Run(inputs, o), LeftStickX) == Analog(181)
    ensures inputs.right && inputs.modY ==> Get(Run(inputs, o), LeftStickX) == Analog(156)
    ensures inputs.down && (inputs.modX || inputs.modY) ==> Get(Run(inputs, o), LeftStickY) == Analog(63)
    ensures inputs.modX && inputs.modY && inputs.start ==>
      Get(Run(inputs, o), Home) == Digital(true) && Get(Run(inputs, o), Select) == Digital(true) &&
      Get(Run(inputs, o), Start) == Digital(false)
  {
    LeftStickXOnDefaultProfile(inputs, o);
    LeftStickYOnDefaultProfile(inputs, o);
    HomeAndSelectOnDefaultProfile(inputs, o);
    StartOnDefaultProfile(inputs, o);
  }

  lemma GroupsNeedAButton()
    ensures forall i :: 0 <= i < |TriggerAndStickRules| ==> |TriggerAndStickRules[i].buttons| > 0
    ensures forall i :: 0 <= i < |ButtonRules| ==> |ButtonRules[i].buttons| > 0
    ensures forall i :: 0 <= i < |UpAndCStickRules| ==> |UpAndCStickRules[i].buttons| > 0
    ensures forall i :: 0 <= i < |ModXRules| ==> |ModXRules[i].buttons| > 0
    ensures forall i :: 0 <= i < |ModYRules| ==> |ModYRules[i].buttons| > 0
    ensures forall i :: 0 <= i < |DpadLayer| ==> |DpadLayer[i].buttons| > 0
    ensures forall i :: 0 <= i < |Shortcuts| ==> |Shortcuts[i].buttons| > 0
  {
  }

  /** With no button held no rule of the default profile fires, so the outputs are left as they were. */
  lemma NoneHeldOnDefaultProfile(o: OutputSnapshot)
    ensures Run(Inputs.NoneHeld, o) == o
  {
    GroupsWellKinded();
    GroupsNeedAButton();
    ApplyOfSevenGroups(TriggerAndStickRules, ButtonRules, UpAndCStickRules, ModXRules, ModYRules,
                       DpadLayer, Shortcuts, Inputs.NoneHeld, o);
    NoneHeldLeavesOutputs(TriggerAndStickRules, o);
    NoneHeldLeavesOutputs(ButtonRules, o);
    NoneHeldLeavesOutputs(UpAndCStickRules, o);
    NoneHeldLeavesOutputs(ModXRules, o);
    NoneHeldLeavesOutputs(ModYRules, o);
    NoneHeldLeavesOutputs(DpadLayer, o);
    NoneHeldLeavesOutputs(Shortcuts, o);
  }
}
