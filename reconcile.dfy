/**
 * The two list computations of the embed job: which selected cartridges are not
 * embedded yet (to add), and which embedded cartridges are no longer selected (to
 * remove). Membership is Java's `List.contains`, that is, equality.
 */
module Reconcile {

  /**
   * The selected cartridges that the embedded list does not contain, in selection
   * order, duplicates kept.
   */
  function ToAdd<C(==,!new)>(selected: seq<C>, embedded: seq<C>): (r: seq<C>)
    ensures forall c :: c in r <==> c in selected && c !in embedded
    ensures |r| <= |selected|
    decreases |selected|
  {
    if selected == [] then []
    else
      var init, last := selected[..|selected| - 1], selected[|selected| - 1];
      assert selected == init + [last];
      ToAdd(init, embedded) + (if last in embedded then [] else [last])
  }

  /**
   * The embedded cartridges that the selection does not contain, in embedded
   * order, duplicates kept.
   */
  function ToRemove<C(==,!new)>(selected: seq<C>, embedded: seq<C>): (r: seq<C>)
    ensures forall c :: c in r <==> c in embedded && c !in selected
    ensures |r| <= |embedded|
    decreases |embedded|
  {
    if embedded == [] then []
    else
      var init, last := embedded[..|embedded| - 1], embedded[|embedded| - 1];
      assert embedded == init + [last];
      ToRemove(selected, init) + (if last in selected then [] else [last])
  }

  /** Each selected cartridge that is not embedded is added as often as it is selected; no other is added. */
  lemma {:induction false} ToAddCounts<C(!new)>(selected: seq<C>, embedded: seq<C>)
    ensures forall c :: multiset(ToAdd(selected, embedded))[c] == if c in embedded then 0 else multiset(selected)[c]
    decreases |selected|
  {
    if selected != [] {
      var init, last := selected[..|selected| - 1], selected[|selected| - 1];
      assert selected == init + [last];
      ToAddCounts(init, embedded);
    }
  }

  /** Each embedded cartridge that is not selected is removed as often as it is embedded; no other is removed. */
  lemma {:induction false} ToRemoveCounts<C(!new)>(selected: seq<C>, embedded: seq<C>)
    ensures forall c :: multiset(ToRemove(selected, embedded))[c] == if c in selected then 0 else multiset(embedded)[c]
    decreases |embedded|
  {
    if embedded != [] {
      var init, last := embedded[..|embedded| - 1], embedded[|embedded| - 1];
      assert embedded == init + [last];
      ToRemoveCounts(selected, init);
    }
  }

  /** The add list of a concatenated selection is the concatenation of the add lists: order is kept. */
  lemma {:induction false} ToAddAppend<C(!new)>(a: seq<C>, b: seq<C>, embedded: seq<C>)
    ensures ToAdd(a + b, embedded) == ToAdd(a, embedded) + ToAdd(b, embedded)
    decreases |b|
  {
    if b != [] {
      var init, last := b[..|b| - 1], b[|b| - 1];
      assert (a + b)[..|a + b| - 1] == a + init;
      assert (a + b)[|a + b| - 1] == last;
      ToAddAppend(a, init, embedded);
    } else {
      assert a + b == a;
    }
  }

  /** The remove list of a concatenated embedded list is the concatenation of the remove lists. */
  lemma {:induction false} ToRemoveAppend<C(!new)>(selected: seq<C>, a: seq<C>, b: seq<C>)
    ensures ToRemove(selected, a + b) == ToRemove(selected, a) + ToRemove(selected, b)
    decreases |b|
  {
    if b != [] {
      var init, last := b[..|b| - 1], b[|b| - 1];
      assert (a + b)[..|a + b| - 1] == a + init;
      assert (a + b)[|a + b| - 1] == last;
      ToRemoveAppend(selected, a, init);
    } else {
      assert a + b == a;
    }
  }

  /** A selection with nothing embedded yet is added whole, in its own order. */
  lemma {:induction false} ToAddNothingEmbedded<C(!new)>(selected: seq<C>, embedded: seq<C>)
    requires forall c :: c in selected ==> c !in embedded
    ensures ToAdd(selected, embedded) == selected
    decreases |selected|
  {
    if selected != [] {
      var init := selected[..|selected| - 1];
      assert selected == init + [selected[|selected| - 1]];
      forall c | c in init ensures c !in embedded { assert c in selected; }
      ToAddNothingEmbedded(init, embedded);
    }
  }

  /** Nothing is added that is to be removed, and the other way round. */
  lemma AddAndRemoveDisjoint<C(!new)>(selected: seq<C>, embedded: seq<C>)
    ensures forall c :: !(c in ToAdd(selected, embedded) && c in ToRemove(selected, embedded))
  {
  }

  /** When selection and embedded list hold the same cartridges there is nothing to add or remove. */
  lemma InSyncNothingToDo<C(!new)>(selected: seq<C>, embedded: seq<C>)
    requires forall c :: c in selected <==> c in embedded
    ensures ToAdd(selected, embedded) == []
    ensures ToRemove(selected, embedded) == []
  {
    ToAddCounts(selected, embedded);
    ToRemoveCounts(selected, embedded);
    assert multiset(ToAdd(selected, embedded)) == multiset{};
    assert multiset(ToRemove(selected, embedded)) == multiset{};
  }
}
