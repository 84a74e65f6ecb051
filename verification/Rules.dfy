/**
 * The profile's rule list and what evaluating it does to the output report.
 * A rule is a conjunction of required button numbers plus the output fields
 * it assigns. Rules are evaluated in list order; a rule that fires writes each
 * of its fields, so for every field the last firing rule that names it wins.
 */
module Rules {
  import Inputs
  import opened Outputs

  /** A literal from a rule's output object, as parsed: a JSON boolean or integer. */
  datatype Value = Bool(b: bool) | Num(n: int)

  /** One `"key": value` member of a rule's output object. */
  datatype Entry = Entry(key: string, value: Value)

  /** `{ "buttons": [...], "output": {...} }`, with the output members in iteration order. */
  datatype Rule = Rule(buttons: seq<int>, output: seq<Entry>)

  /**
   * The conversion of a JSON value into an 8-bit analog field: an integer is
   * cast to uint8 (kept modulo 256), a boolean becomes 1 or 0.
   */
  function ToLevel(v: Value): (level: uint8)
    ensures v.Num? ==> (level as int - v.n) % 256 == 0
    ensures v.Num? && 0 <= v.n < 256 ==> level as int == v.n
    ensures v.Bool? ==> (level == 1 <==> v.b) && level <= 1
  {
    match v
    case Bool(b) => if b then 1 else 0
    case Num(n) => (n % 256) as uint8
  }

  /**
   * Whether `v` can be stored into field `f`: a digital field accepts only a
   * boolean (converting a JSON number to bool is a type error), an analog
   * field accepts either kind.
   */
  predicate Fits(f: Field, v: Value)
  {
    !IsAnalog(f) ==> v.Bool?
  }

  /** What field `f` holds after `v` is assigned to it. */
  function Stored(f: Field, v: Value): (s: Slot)
    requires Fits(f, v)
    ensures SlotFits(f, s)
    ensures s.Digital? ==> s.on == v.b
    ensures s.Analog? ==> s.level == ToLevel(v)
  {
    if IsAnalog(f) then Analog(ToLevel(v)) else Digital(v.b)
  }

  /** An entry whose key is unknown fits trivially: it is never converted. */
  predicate EntryFits(e: Entry)
  {
    KeyToField(e.key).Some? ==> Fits(KeyToField(e.key).value, e.value)
  }

  predicate RuleFits(r: Rule)
  {
    forall j :: 0 <= j < |r.output| ==> EntryFits(r.output[j])
  }

  /** Every value in the rule list has the kind its field needs. */
  predicate WellKinded(rules: seq<Rule>)
  {
    forall i :: 0 <= i < |rules| ==> RuleFits(rules[i])
  }

  /** Assigns one output member: a recognised key writes its field, an unknown key does nothing. */
  function Assign(o: OutputSnapshot, key: string, v: Value): OutputSnapshot
    requires EntryFits(Entry(key, v))
  {
    match KeyToField(key)
    case None => o
    case Some(f) => Set(o, f, Stored(f, v))
  }

  /** Assigns the members of an output object one after another. */
  function AssignAll(o: OutputSnapshot, entries: seq<Entry>): OutputSnapshot
    requires forall j :: 0 <= j < |entries| ==> EntryFits(entries[j])
  {
    if |entries| == 0 then o
    else
      var last := entries[|entries| - 1];
      Assign(AssignAll(o, entries[..|entries| - 1]), last.key, last.value)
  }

  /** A rule fires when every button number it lists is pressed. */
  predicate Fires(r: Rule, inputs: Inputs.InputState)
  {
    forall j :: 0 <= j < |r.buttons| ==> Inputs.Pressed(inputs, r.buttons[j])
  }

  /** One rule's effect: its output members if it fires, nothing otherwise. */
  function ApplyRule(o: OutputSnapshot, r: Rule, inputs: Inputs.InputState): OutputSnapshot
    requires RuleFits(r)
  {
    if Fires(r, inputs) then AssignAll(o, r.output) else o
  }

  /** The rule list evaluated in order, starting from output `o`. */
  function Apply(rules: seq<Rule>, inputs: Inputs.InputState, o: OutputSnapshot): OutputSnapshot
    requires WellKinded(rules)
  {
    if |rules| == 0 then o
    else ApplyRule(Apply(rules[..|rules| - 1], inputs, o), rules[|rules| - 1], inputs)
  }

  /**
   * Reference definition: the value of the last member of `entries` that
   * names field `f`, if any.
   */
  function LastWrite(entries: seq<Entry>, f: Field): (w: Option<Value>)
    requires forall j :: 0 <= j < |entries| ==> EntryFits(entries[j])
    ensures w.Some? ==> Fits(f, w.value)
  {
    if |entries| == 0 then None
    else
      var last := entries[|entries| - 1];
      assert EntryFits(last);
      if KeyToField(last.key) == Some(f) then Some(last.value)
      else LastWrite(entries[..|entries| - 1], f)
  }

  /**
   * Reference definition: the value that the last firing rule naming field
   * `f` gives it, if any rule does.
   */
  function LastMatch(rules: seq<Rule>, inputs: Inputs.InputState, f: Field): (w: Option<Value>)
    requires WellKinded(rules)
    ensures w.Some? ==> Fits(f, w.value)
  {
    if |rules| == 0 then None
    else
      var r := rules[|rules| - 1];
      if Writes(r, inputs, f) then LastWrite(r.output, f)
      else LastMatch(rules[..|rules| - 1], inputs, f)
  }

  /** Rule `r` fires on `inputs` and names field `f`. */
  predicate Writes(r: Rule, inputs: Inputs.InputState, f: Field)
    requires RuleFits(r)
  {
    Fires(r, inputs) && LastWrite(r.output, f).Some?
  }

  /** A rule with one output member that names a field other than `f` never writes `f`. */
  lemma SingleEntrySilent(r: Rule, inputs: Inputs.InputState, f: Field)
    requires RuleFits(r) && |r.output| == 1 && KeyToField(r.output[0].key) != Some(f)
    ensures !Writes(r, inputs, f)
  {
    assert r.output[..|r.output| - 1] == [];
    assert LastWrite(r.output, f) == LastWrite([], f);
  }

  /** LastWrite on an output object of two members. */
  lemma LastWritePair(entries: seq<Entry>, f: Field)
    requires |entries| == 2 && EntryFits(entries[0]) && EntryFits(entries[1])
    ensures LastWrite(entries, f) ==
      if KeyToField(entries[1].key) == Some(f) then Some(entries[1].value)
      else if KeyToField(entries[0].key) == Some(f) then Some(entries[0].value)
      else None
  {
    var first := entries[..1];
    assert first[..0] == [];
    assert LastWrite(first, f) == if KeyToField(entries[0].key) == Some(f) then Some(entries[0].value) else None;
  }

  /** What field `f` of `o` holds after a write of `w`, or no write at all. */
  function Overlay(o: OutputSnapshot, f: Field, w: Option<Value>): Slot
    requires w.Some? ==> Fits(f, w.value)
  {
    match w
    case None => Get(o, f)
    case Some(v) => Stored(f, v)
  }

  lemma PrefixWellKinded(rules: seq<Rule>, n: nat)
    requires WellKinded(rules) && n <= |rules|
    ensures WellKinded(rules[..n])
  {
    assert forall i :: 0 <= i < n ==> rules[..n][i] == rules[i];
  }

  /**
   * Assigning one member changes at most one field: the field its key names
   * (to the converted value), and nothing when the key is unknown.
   */
  lemma AssignChangesOnlyNamedField(o: OutputSnapshot, key: string, v: Value, g: Field)
    requires EntryFits(Entry(key, v))
    ensures KeyToField(key) == Some(g) ==> Get(Assign(o, key, v), g) == Stored(g, v)
    ensures KeyToField(key) != Some(g) ==> Get(Assign(o, key, v), g) == Get(o, g)
    ensures KeyToField(key).None? ==> Assign(o, key, v) == o
  {
    match KeyToField(key)
    case None =>
    case Some(f) =>
      if f == g {
        GetSetSame(o, f, Stored(f, v));
      } else {
        GetSetOther(o, f, Stored(f, v), g);
      }
  }

  /** Within one output object, each field ends up with the last member that names it. */
  lemma {:induction false} AssignAllLastWriteWins(o: OutputSnapshot, entries: seq<Entry>, g: Field)
    requires forall j :: 0 <= j < |entries| ==> EntryFits(entries[j])
    ensures Get(AssignAll(o, entries), g) == Overlay(o, g, LastWrite(entries, g))
  {
    if |entries| > 0 {
      var prefix := entries[..|entries| - 1];
      var last := entries[|entries| - 1];
      assert forall j :: 0 <= j < |prefix| ==> prefix[j] == entries[j];
      AssignAllLastWriteWins(o, prefix, g);
      AssignChangesOnlyNamedField(AssignAll(o, prefix), last.key, last.value, g);
    }
  }

  /**
   * Last match wins: after evaluating the rule list, every field holds the
   * value from the last firing rule that names it, or its value before the
   * evaluation if no firing rule names it.
   */
  lemma {:induction false} LastMatchWins(rules: seq<Rule>, inputs: Inputs.InputState, o: OutputSnapshot, g: Field)
    requires WellKinded(rules)
    ensures Get(Apply(rules, inputs, o), g) == Overlay(o, g, LastMatch(rules, inputs, g))
  {
    if |rules| > 0 {
      var prefix := rules[..|rules| - 1];
      var r := rules[|rules| - 1];
      PrefixWellKinded(rules, |rules| - 1);
      LastMatchWins(prefix, inputs, o, g);
      if Fires(r, inputs) {
        AssignAllLastWriteWins(Apply(prefix, inputs, o), r.output, g);
      }
    }
  }

  /**
   * The last match is the write of rule `i` whenever rule `i` fires and
   * names `f` and no later rule does.
   */
  lemma {:induction false} LastMatchIsLastWriter(rules: seq<Rule>, inputs: Inputs.InputState, f: Field, i: int)
    requires WellKinded(rules) && 0 <= i < |rules|
    requires Writes(rules[i], inputs, f)
    requires forall j :: i < j < |rules| ==> !Writes(rules[j], inputs, f)
    ensures LastMatch(rules, inputs, f) == LastWrite(rules[i].output, f)
  {
    if i < |rules| - 1 {
      var prefix := rules[..|rules| - 1];
      PrefixWellKinded(rules, |rules| - 1);
      assert forall j :: 0 <= j < |prefix| ==> prefix[j] == rules[j];
      LastMatchIsLastWriter(prefix, inputs, f, i);
    }
  }

  /** When no rule both fires and names `f`, there is no match for `f`. */
  lemma {:induction false} NoWriterNoMatch(rules: seq<Rule>, inputs: Inputs.InputState, f: Field)
    requires WellKinded(rules)
    requires forall j :: 0 <= j < |rules| ==> !Writes(rules[j], inputs, f)
    ensures LastMatch(rules, inputs, f).None?
  {
    if |rules| > 0 {
      var prefix := rules[..|rules| - 1];
      PrefixWellKinded(rules, |rules| - 1);
      assert forall j :: 0 <= j < |prefix| ==> prefix[j] == rules[j];
      NoWriterNoMatch(prefix, inputs, f);
    }
  }

  /** A firing rule at the end of the list decides every field it names, whatever came before. */
  lemma LaterRuleOverrides(rules: seq<Rule>, r: Rule, inputs: Inputs.InputState, o: OutputSnapshot, g: Field)
    requires WellKinded(rules) && RuleFits(r)
    requires Writes(r, inputs, g)
    ensures WellKinded(rules + [r])
    ensures Get(Apply(rules + [r], inputs, o), g) == Stored(g, LastWrite(r.output, g).value)
  {
    assert forall i :: 0 <= i < |rules + [r]| ==> (rules + [r])[i] == if i < |rules| then rules[i] else r;
    LastMatchWins(rules + [r], inputs, o, g);
    assert (rules + [r])[..|rules|] == rules;
  }

  /** Evaluating two lists one after the other is evaluating their concatenation. */
  lemma {:induction false} ApplyConcat(a: seq<Rule>, b: seq<Rule>, inputs: Inputs.InputState, o: OutputSnapshot)
    requires WellKinded(a) && WellKinded(b)
    ensures WellKinded(a + b)
    ensures Apply(a + b, inputs, o) == Apply(b, inputs, Apply(a, inputs, o))
  {
    assert forall i :: 0 <= i < |a + b| ==> (a + b)[i] == if i < |a| then a[i] else b[i - |a|];
    if |b| > 0 {
      var prefix := b[..|b| - 1];
      PrefixWellKinded(b, |b| - 1);
      ApplyConcat(a, prefix, inputs, o);
      assert (a + b)[..|a + b| - 1] == a + prefix;
    } else {
      assert a + b == a;
    }
  }

  lemma WellKindedConcat(a: seq<Rule>, b: seq<Rule>)
    requires WellKinded(a) && WellKinded(b)
    ensures WellKinded(a + b)
  {
    assert forall i :: 0 <= i < |a + b| ==> (a + b)[i] == if i < |a| then a[i] else b[i - |a|];
  }

  /**
   * The last match in a concatenation is the last match in the second part
   * if there is one there, and the last match in the first part otherwise.
   */
  lemma {:induction false} LastMatchConcat(a: seq<Rule>, b: seq<Rule>, inputs: Inputs.InputState, f: Field)
    requires WellKinded(a) && WellKinded(b)
    ensures WellKinded(a + b)
    ensures LastMatch(a + b, inputs, f) ==
            if LastMatch(b, inputs, f).Some? then LastMatch(b, inputs, f) else LastMatch(a, inputs, f)
  {
    WellKindedConcat(a, b);
    if |b| > 0 {
      var prefix := b[..|b| - 1];
      PrefixWellKinded(b, |b| - 1);
      LastMatchConcat(a, prefix, inputs, f);
      assert (a + b)[..|a + b| - 1] == a + prefix;
      assert (a + b)[|a + b| - 1] == b[|b| - 1];
    } else {
      assert a + b == a;
    }
  }

  /** A rule that does not fire has no effect, wherever it stands in the list. */
  lemma NonFiringRuleIsInert(a: seq<Rule>, r: Rule, b: seq<Rule>, inputs: Inputs.InputState, o: OutputSnapshot)
    requires WellKinded(a) && RuleFits(r) && WellKinded(b)
    requires !Fires(r, inputs)
    ensures WellKinded(a + [r] + b) && WellKinded(a + b)
    ensures Apply(a + [r] + b, inputs, o) == Apply(a + b, inputs, o)
  {
    assert WellKinded([r]);
    ApplyConcat(a, [r], inputs, o);
    assert Apply(a + [r], inputs, o) == Apply(a, inputs, o) by {
      assert (a + [r])[..|a + [r]| - 1] == a;
    }
    ApplyConcat(a + [r], b, inputs, o);
    ApplyConcat(a, b, inputs, o);
  }

  /**
   * A rule fires exactly when each of its numbers is between 1 and 20 and
   * the button bound to default index number - 1 is held. In particular a
   * rule naming 0 or a number above 20 never fires, and a rule naming no
   * buttons always fires.
   */
  lemma FiresIffAllBoundButtonsHeld(r: Rule, inputs: Inputs.InputState)
    ensures Fires(r, inputs) <==>
      forall j :: 0 <= j < |r.buttons| ==>
        1 <= r.buttons[j] <= Inputs.ButtonCount &&
        Inputs.Held(inputs, Inputs.ButtonAt(r.buttons[j] - 1))
    ensures |r.buttons| == 0 ==> Fires(r, inputs)
  {
    forall j | 0 <= j < |r.buttons| {
      Inputs.IsPressedMatchesTable(inputs, r.buttons[j] - 1);
    }
  }

  /** A rule listing a number outside 1 .. 20 never fires. */
  lemma OutOfRangeNumberNeverFires(r: Rule, inputs: Inputs.InputState, j: int)
    requires 0 <= j < |r.buttons|
    requires r.buttons[j] < 1 || r.buttons[j] > Inputs.ButtonCount
    ensures !Fires(r, inputs)
  {
  }

  /**
   * With no button held, a list in which every rule requires at least one
   * button leaves the output exactly as it was.
   */
  lemma {:induction false} NoneHeldLeavesOutputs(rules: seq<Rule>, o: OutputSnapshot)
    requires WellKinded(rules)
    requires forall i :: 0 <= i < |rules| ==> |rules[i].buttons| > 0
    ensures Apply(rules, Inputs.NoneHeld, o) == o
  {
    if |rules| > 0 {
      var r := rules[|rules| - 1];
      PrefixWellKinded(rules, |rules| - 1);
      NoneHeldLeavesOutputs(rules[..|rules| - 1], o);
      Inputs.NothingPressedWhenNoneHeld(r.buttons[0] - 1);
      assert !Fires(r, Inputs.NoneHeld);
    }
  }
}
