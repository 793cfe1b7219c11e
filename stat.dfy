/** The Stat type (Assets/Scripts/Stats/Stat.cs): a base value plus an
    additive and a multiplicative list of modifiers. A Stat is a reference
    object: tables hand it out and callers change it in place. */
module StatSystem {

  /** A named modifier as it appears in item and enemy configuration. */
  datatype StatModifier = StatModifier(statName: string, value: real, isMultiplicative: bool)

  /** The full state of one Stat, as a value. */
  datatype StatState = StatState(baseValue: real, additive: seq<real>, multiplicative: seq<real>)

  /** Left-to-right sum of a modifier list (LINQ `Sum`). */
  function Sum(s: seq<real>): real
  {
    if s == [] then 0.0 else s[0] + Sum(s[1..])
  }

  /** The value a Stat reports: base plus the additive bonuses, scaled by one
      plus the SUM of the multiplicative bonuses. */
  function ValueOf(st: StatState): real
  {
    (st.baseValue + Sum(st.additive)) * (1.0 + Sum(st.multiplicative))
  }

  /** `List<float>.Remove`: drops the first element equal to `v`, if any. */
  function RemoveFirst(s: seq<real>, v: real): seq<real>
  {
    if s == [] then []
    else if s[0] == v then s[1..]
    else [s[0]] + RemoveFirst(s[1..], v)
  }

  /** The state after `AddModifier(v, isMultiplicative)`. */
  function WithModifier(st: StatState, v: real, isMultiplicative: bool): StatState
  {
    if isMultiplicative then st.(multiplicative := st.multiplicative + [v])
    else st.(additive := st.additive + [v])
  }

  /** The state after `RemoveModifier(v, isMultiplicative)`. */
  function WithoutModifier(st: StatState, v: real, isMultiplicative: bool): StatState
  {
    if isMultiplicative then st.(multiplicative := RemoveFirst(st.multiplicative, v))
    else st.(additive := RemoveFirst(st.additive, v))
  }

  class Stat {
    var baseValue: real
    var additiveModifiers: seq<real>
    var multiplicativeModifiers: seq<real>

    /** `new Stat(baseValue)`: both modifier lists start empty. */
    constructor (baseValue: real)
      ensures State() == StatState(baseValue, [], [])
      ensures GetValue() == baseValue
    {
      this.baseValue := baseValue;
      additiveModifiers := [];
      multiplicativeModifiers := [];
    }

    function State(): StatState
      reads this
    {
      StatState(baseValue, additiveModifiers, multiplicativeModifiers)
    }

    /** Computed on every read; never cached and never changes the Stat. */
    function GetValue(): (r: real)
      reads this
      ensures additiveModifiers == [] && multiplicativeModifiers == [] ==> r == baseValue
      ensures multiplicativeModifiers == [] ==> r == baseValue + Sum(additiveModifiers)
      ensures additiveModifiers == [] ==> r == baseValue * (1.0 + Sum(multiplicativeModifiers))
    {
      ValueOf(State())
    }

    /** Appends to exactly one list; the other list and the base are kept. */
    method AddModifier(modifier: real, isMultiplicative: bool)
      modifies this
      ensures State() == WithModifier(old(State()), modifier, isMultiplicative)
      ensures isMultiplicative ==> additiveModifiers == old(additiveModifiers)
      ensures !isMultiplicative ==> multiplicativeModifiers == old(multiplicativeModifiers)
      ensures baseValue == old(baseValue)
    {
      if isMultiplicative {
        multiplicativeModifiers := multiplicativeModifiers + [modifier];
      } else {
        additiveModifiers := additiveModifiers + [modifier];
      }
    }

    /** Removes the first equal value from the chosen list; a value that is
        not there leaves the Stat as it was. */
    method RemoveModifier(modifier: real, isMultiplicative: bool)
      modifies this
      ensures State() == WithoutModifier(old(State()), modifier, isMultiplicative)
      ensures baseValue == old(baseValue)
      ensures isMultiplicative && modifier !in old(multiplicativeModifiers) ==> State() == old(State())
      ensures !isMultiplicative && modifier !in old(additiveModifiers) ==> State() == old(State())
    {
      if isMultiplicative {
        RemoveFirstAbsent(multiplicativeModifiers, modifier);
        multiplicativeModifiers := RemoveFirst(multiplicativeModifiers, modifier);
      } else {
        RemoveFirstAbsent(additiveModifiers, modifier);
        additiveModifiers := RemoveFirst(additiveModifiers, modifier);
      }
    }

    /** Not part of Stat.cs (DamageReceiver calls it): overwrites the base
        value and keeps the modifiers. */
    method SetValue(v: real)
      modifies this
      ensures State() == old(State()).(baseValue := v)
    {
      baseValue := v;
    }
  }

  // ---------------------------------------------------------------------
  // Properties of the modifier lists

  lemma {:induction false} SumAppend(a: seq<real>, b: seq<real>)
    ensures Sum(a + b) == Sum(a) + Sum(b)
  {
    if a == [] {
      assert a + b == b;
    } else {
      assert (a + b)[1..] == a[1..] + b;
      SumAppend(a[1..], b);
    }
  }

  /** Removing a value that is absent changes nothing. */
  lemma {:induction false} RemoveFirstAbsent(s: seq<real>, v: real)
    ensures v !in s ==> RemoveFirst(s, v) == s
  {
    if s != [] && v !in s {
      assert v !in s[1..];
      RemoveFirstAbsent(s[1..], v);
      assert [s[0]] + s[1..] == s;
    }
  }

  /** Removing drops exactly one copy of a present value and nothing else. */
  lemma {:induction false} RemoveFirstMultiset(s: seq<real>, v: real)
    ensures v in s ==> multiset(RemoveFirst(s, v)) == multiset(s) - multiset{v}
    ensures v in s ==> |RemoveFirst(s, v)| == |s| - 1
  {
    if s != [] && v in s {
      assert s == [s[0]] + s[1..];
      if s[0] != v {
        assert v in s[1..];
        RemoveFirstMultiset(s[1..], v);
      }
    }
  }

  /** Removing a present value lowers the sum by exactly that value. */
  lemma {:induction false} RemoveFirstSum(s: seq<real>, v: real)
    ensures v in s ==> Sum(RemoveFirst(s, v)) == Sum(s) - v
  {
    if s != [] && v in s && s[0] != v {
      assert v in s[1..];
      RemoveFirstSum(s[1..], v);
      assert ([s[0]] + RemoveFirst(s[1..], v))[1..] == RemoveFirst(s[1..], v);
    }
  }

  /** The sum depends only on the multiset of modifiers, not their order. */
  lemma {:induction false} SumOfPermutation(a: seq<real>, b: seq<real>)
    requires multiset(a) == multiset(b)
    ensures Sum(a) == Sum(b)
  {
    if a == [] {
      assert |b| == |multiset(b)| == 0;
    } else {
      assert a[0] in multiset(b);
      assert a == [a[0]] + a[1..];
      RemoveFirstMultiset(b, a[0]);
      RemoveFirstSum(b, a[0]);
      assert multiset(a[1..]) == multiset(a) - multiset{a[0]};
      SumOfPermutation(a[1..], RemoveFirst(b, a[0]));
    }
  }

  /** GetValue is independent of the order in which modifiers were added. */
  lemma ValueIgnoresModifierOrder(s: StatState, t: StatState)
    requires s.baseValue == t.baseValue
    requires multiset(s.additive) == multiset(t.additive)
    requires multiset(s.multiplicative) == multiset(t.multiplicative)
    ensures ValueOf(s) == ValueOf(t)
  {
    SumOfPermutation(s.additive, t.additive);
    SumOfPermutation(s.multiplicative, t.multiplicative);
  }

  /** Multiplicative bonuses are summed, never multiplied together: a stat
      with base b and bonuses m1, m2 is worth b * (1 + m1 + m2). */
  lemma MultiplicativeBonusesAdd(b: real, m1: real, m2: real)
    ensures ValueOf(StatState(b, [], [m1, m2])) == b * (1.0 + m1 + m2)
  {
    assert [m1, m2][1..] == [m2];
    assert Sum([m2]) == m2 by { assert [m2][1..] == []; }
    assert Sum([m1, m2]) == m1 + m2;
  }

  /** The worked example of the design: base 100, additive [10, -5],
      multiplicative [0.1, 0.2] is worth 136.5. */
  lemma ValueExample()
    ensures ValueOf(StatState(100.0, [10.0, -5.0], [0.1, 0.2])) == 136.5
  {
    assert [10.0, -5.0][1..] == [-5.0];
    assert [0.1, 0.2][1..] == [0.2];
  }

  /** Adding a modifier and then removing the same value gives back the
      same multiset of modifiers (though maybe in another order). */
  lemma AddThenRemoveSameModifiers(st: StatState, v: real, isMultiplicative: bool)
    ensures var r := WithoutModifier(WithModifier(st, v, isMultiplicative), v, isMultiplicative);
            r.baseValue == st.baseValue
            && multiset(r.additive) == multiset(st.additive)
            && multiset(r.multiplicative) == multiset(st.multiplicative)
  {
    if isMultiplicative {
      var s := st.multiplicative + [v];
      assert s[|s| - 1] == v;
      RemoveFirstMultiset(s, v);
    } else {
      var s := st.additive + [v];
      assert s[|s| - 1] == v;
      RemoveFirstMultiset(s, v);
    }
  }

  /** AddModifier(v, m) followed by RemoveModifier(v, m) restores GetValue. */
  lemma AddThenRemoveRestoresValue(st: StatState, v: real, isMultiplicative: bool)
    ensures ValueOf(WithoutModifier(WithModifier(st, v, isMultiplicative), v, isMultiplicative)) == ValueOf(st)
  {
    AddThenRemoveSameModifiers(st, v, isMultiplicative);
    ValueIgnoresModifierOrder(WithoutModifier(WithModifier(st, v, isMultiplicative), v, isMultiplicative), st);
  }

  /** The four base stat names that both stat tables create are pairwise
      different (their lengths differ). */
  lemma BaseStatNamesDistinct()
    ensures "Strength" != "Dexterity" && "Strength" != "Intelligence" && "Strength" != "Life"
    ensures "Dexterity" != "Intelligence" && "Dexterity" != "Life" && "Intelligence" != "Life"
  {
    assert |"Strength"| == 8 && |"Dexterity"| == 9 && |"Intelligence"| == 12 && |"Life"| == 4;
  }

  /** Four successive dictionary writes leave what a union with the four
      written entries gives: a later write to the same key wins either way. */
  lemma FourWritesAsUnion<K, V>(v: map<K, V>, a: K, x: V, b: K, y: V, c: K, z: V, d: K, w: V)
    ensures v[a := x][b := y][c := z][d := w] == v + map[a := x, b := y, c := z, d := w]
  {
  }
}
