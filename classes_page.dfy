/** The public classes page's filter (src/components/classes/classes-page-content.tsx). */
module ClassesPage {
  import opened Types
  import Seqs

  /** A filter select: 'all' or one value. */
  datatype Choice<T> = All | Only(value: T)

  predicate Admits<T(==)>(choice: Choice<T>, x: T) {
    choice.All? || choice.value == x
  }

  predicate ClassMatches(c: Class, activeType: Choice<ClassType>, activeLevel: Choice<ClassLevel>) {
    Admits(activeType, c.classType) && Admits(activeLevel, c.level)
  }

  /** `filteredClasses`: the classes of the chosen type and level, in their order. */
  function FilterClasses(classes: seq<Class>, activeType: Choice<ClassType>, activeLevel: Choice<ClassLevel>): (r: seq<Class>)
    ensures forall c :: c in r <==> c in classes && ClassMatches(c, activeType, activeLevel)
  {
    Seqs.Filter(classes, (c: Class) => ClassMatches(c, activeType, activeLevel))
  }

  /** The filtered list keeps the classes' order: it is a subsequence of the input. */
  lemma FilterKeepsOrder(classes: seq<Class>, activeType: Choice<ClassType>, activeLevel: Choice<ClassLevel>)
    ensures Seqs.IsSubsequence(FilterClasses(classes, activeType, activeLevel), classes)
  {
    Seqs.FilterIsSubsequence(classes, (c: Class) => ClassMatches(c, activeType, activeLevel));
  }

  /** With both selects at their initial 'all', every class is shown. */
  lemma InitialShowsAll(classes: seq<Class>)
    ensures FilterClasses(classes, All, All) == classes
  {
    Seqs.FilterAll(classes, (c: Class) => ClassMatches(c, All, All));
  }

  /** The "no classes" message shows exactly when no class matches. */
  lemma EmptyMessageIff(classes: seq<Class>, activeType: Choice<ClassType>, activeLevel: Choice<ClassLevel>)
    ensures FilterClasses(classes, activeType, activeLevel) == []
      <==> forall i :: 0 <= i < |classes| ==> !ClassMatches(classes[i], activeType, activeLevel)
  {
    var r := FilterClasses(classes, activeType, activeLevel);
    if r != [] {
      assert r[0] in r;
    }
  }
}
