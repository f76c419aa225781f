/**
 * The server side of the pedigree chart: the recursive ancestor builder that
 * turns an individual's ancestry into nested records, bounded by the configured
 * number of generations, and the choice of the theme key for a box colour.
 */
module PedigreeModule {
  import opened Wrappers

  /** An individual of the host's genealogy database, reduced to what the chart reads. */
  datatype Individual = Individual(xref: string, sex: string)

  /** A family record; the husband or the wife may be unknown. */
  datatype Family = Family(husband: Option<Individual>, wife: Option<Individual>)

  /**
   * The record the host builds for one individual at one generation. Its fields
   * (name, dates, ...) come from code that is not part of this model, so it is
   * kept opaque: it is determined by the individual and the generation.
   */
  datatype IndividualData = IndividualData(individual: Individual, generation: int)

  /**
   * The PHP array the builder returns: either the empty array `[]`, or the
   * individual's record with the list under the `children` key. The key exists
   * only once something has been appended to it, so an absent key is the empty
   * sequence here.
   */
  datatype JsonTree = Empty | Node(data: IndividualData, children: seq<JsonTree>)

  /** `childFamilies()->first()`: the first family in which the individual is a child, if any. */
  function FirstFamily(families: seq<Family>): (first: Option<Family>)
    ensures first.None? <==> families == []
    ensures first.Some? ==> first.value == families[0]
  {
    if families == [] then None else Some(families[0])
  }

  /** The subtree as an entry of `children`: appended only when it is a non-empty array. */
  function Entry(subtree: JsonTree): (entry: seq<JsonTree>)
    ensures |entry| <= 1
    ensures entry != [] <==> subtree.Node?
    ensures forall i :: 0 <= i < |entry| ==> entry[i] == subtree
  {
    if subtree.Node? then [subtree] else []
  }

  /**
   * `buildJsonTree`: the ancestor tree of `individual`, who sits at `generation`,
   * cut off above `generations` (the configured generation count, not validated).
   * `childFamilies` is the host's person graph, which may even be cyclic.
   */
  function BuildJsonTree(individual: Option<Individual>, generation: int, generations: int,
                         childFamilies: Individual -> seq<Family>): (tree: JsonTree)
    ensures tree.Empty? <==> individual.None? || generation > generations
    ensures tree.Node? ==> tree.data == IndividualData(individual.value, generation)
    decreases generations - generation
  {
    if individual.None? || generation > generations then Empty
    else
      var data := IndividualData(individual.value, generation);
      match FirstFamily(childFamilies(individual.value))
      case None => Node(data, [])
      case Some(family) =>
        var fatherTree := BuildJsonTree(family.husband, generation + 1, generations, childFamilies);
        var motherTree := BuildJsonTree(family.wife, generation + 1, generations, childFamilies);
        Node(data, Entry(fatherTree) + Entry(motherTree))
  }

  /** The tree the chart requests: the root individual at the default generation 1. */
  function BuildRootTree(individual: Option<Individual>, generations: int,
                         childFamilies: Individual -> seq<Family>): (tree: JsonTree)
    ensures tree.Node? <==> individual.Some? && generations >= 1
  {
    BuildJsonTree(individual, 1, generations, childFamilies)
  }

  /**
   * The shape every built tree has: each node sits at its generation, never above
   * the limit; it has at most two children, none of them empty, each one
   * generation further out.
   */
  ghost predicate Shaped(tree: JsonTree, generation: int, generations: int)
  {
    match tree
    case Empty => true
    case Node(data, children) =>
      && data.generation == generation
      && generation <= generations
      && |children| <= 2
      && forall i :: 0 <= i < |children| ==>
           children[i].Node? && Shaped(children[i], generation + 1, generations)
  }

  /** The number of levels of a tree; the empty array has none. */
  function Height(tree: JsonTree): nat
  {
    match tree
    case Empty => 0
    case Node(_, children) => 1 + MaxHeight(children)
  }

  function MaxHeight(trees: seq<JsonTree>): nat
  {
    if trees == [] then 0
    else
      var rest := MaxHeight(trees[1..]);
      var first := Height(trees[0]);
      if first > rest then first else rest
  }

  /** The records of all nodes, in the order a depth-first walk visits them. */
  function Records(tree: JsonTree): seq<IndividualData>
  {
    match tree
    case Empty => []
    case Node(data, children) => [data] + RecordsOf(children)
  }

  function RecordsOf(trees: seq<JsonTree>): seq<IndividualData>
  {
    if trees == [] then [] else Records(trees[0]) + RecordsOf(trees[1..])
  }

  /** 1 for a known parent, 0 for an unknown one. */
  function Known(parent: Option<Individual>): nat
  {
    if parent.Some? then 1 else 0
  }

  /** Every tree the builder returns has the shape described by `Shaped`. */
  lemma {:induction false} BuildJsonTreeShaped(individual: Option<Individual>, generation: int,
                                               generations: int, childFamilies: Individual -> seq<Family>)
    ensures Shaped(BuildJsonTree(individual, generation, generations, childFamilies), generation, generations)
    decreases generations - generation
  {
    if individual.Some? && generation <= generations {
      var families := childFamilies(individual.value);
      if families != [] {
        BuildJsonTreeShaped(families[0].husband, generation + 1, generations, childFamilies);
        BuildJsonTreeShaped(families[0].wife, generation + 1, generations, childFamilies);
      }
    }
  }

  /** A shaped tree whose root is at `generation` is at most `generations - generation + 1` levels high. */
  lemma {:induction false} ShapedHeight(tree: JsonTree, generation: int, generations: int)
    requires Shaped(tree, generation, generations)
    ensures Height(tree) <= if generation > generations then 0 else generations - generation + 1
    decreases tree
  {
    match tree
    case Empty =>
    case Node(data, children) =>
      ShapedMaxHeight(tree, children, generation + 1, generations);
  }

  lemma {:induction false} ShapedMaxHeight(parent: JsonTree, trees: seq<JsonTree>, generation: int, generations: int)
    requires forall i :: 0 <= i < |trees| ==> trees[i] < parent && Shaped(trees[i], generation, generations)
    ensures MaxHeight(trees) <= if generation > generations then 0 else generations - generation + 1
    decreases parent, |trees|
  {
    if trees != [] {
      ShapedHeight(trees[0], generation, generations);
      ShapedMaxHeight(parent, trees[1..], generation, generations);
    }
  }

  /** The tree is at most `generations - generation + 1` levels high, whatever the person graph. */
  lemma HeightBound(individual: Option<Individual>, generation: int, generations: int,
                    childFamilies: Individual -> seq<Family>)
    ensures Height(BuildJsonTree(individual, generation, generations, childFamilies))
            <= if generation > generations then 0 else generations - generation + 1
  {
    BuildJsonTreeShaped(individual, generation, generations, childFamilies);
    ShapedHeight(BuildJsonTree(individual, generation, generations, childFamilies), generation, generations);
  }

  /** Every record in a shaped tree lies between the tree's own generation and the limit. */
  lemma {:induction false} ShapedRecords(tree: JsonTree, generation: int, generations: int)
    requires Shaped(tree, generation, generations)
    ensures forall r :: r in Records(tree) ==> generation <= r.generation <= generations
    decreases tree
  {
    match tree
    case Empty =>
    case Node(data, children) =>
      ShapedRecordsOf(tree, children, generation + 1, generations);
  }

  lemma {:induction false} ShapedRecordsOf(parent: JsonTree, trees: seq<JsonTree>, generation: int, generations: int)
    requires forall i :: 0 <= i < |trees| ==> trees[i] < parent && Shaped(trees[i], generation, generations)
    ensures forall r :: r in RecordsOf(trees) ==> generation <= r.generation <= generations
    decreases parent, |trees|
  {
    if trees != [] {
      ShapedRecords(trees[0], generation, generations);
      ShapedRecordsOf(parent, trees[1..], generation, generations);
    }
  }

  /** No record in any built tree has a generation above the configured count. */
  lemma GenerationsWithinLimit(individual: Option<Individual>, generation: int, generations: int,
                               childFamilies: Individual -> seq<Family>)
    ensures forall r :: r in Records(BuildJsonTree(individual, generation, generations, childFamilies))
                        ==> generation <= r.generation <= generations
  {
    BuildJsonTreeShaped(individual, generation, generations, childFamilies);
    ShapedRecords(BuildJsonTree(individual, generation, generations, childFamilies), generation, generations);
  }

  /**
   * The children of a built node: none without a family or at the last generation;
   * otherwise one per known parent of the FIRST family, the father's before the
   * mother's, so that a missing father puts the mother at index 0.
   */
  lemma ChildrenFollowFirstFamily(individual: Individual, generation: int, generations: int,
                                  childFamilies: Individual -> seq<Family>)
    requires generation <= generations
    ensures var tree := BuildJsonTree(Some(individual), generation, generations, childFamilies);
            var families := childFamilies(individual);
            && tree.Node?
            && (families == [] || generation == generations ==> tree.children == [])
            && (families != [] && generation < generations ==>
                  var family := families[0];
                  && |tree.children| == Known(family.husband) + Known(family.wife)
                  && (family.husband.Some? ==>
                        tree.children[0].data == IndividualData(family.husband.value, generation + 1))
                  && (family.husband.Some? ==>
                        tree.children[0] == BuildJsonTree(family.husband, generation + 1, generations, childFamilies))
                  && (family.wife.Some? ==>
                        tree.children[|tree.children| - 1]
                        == BuildJsonTree(family.wife, generation + 1, generations, childFamilies))
                  && (family.wife.Some? ==>
                        tree.children[|tree.children| - 1].data == IndividualData(family.wife.value, generation + 1)))
  {
  }

  /** Only the first family is followed: lookups that agree on it build the same tree. */
  lemma {:induction false} OnlyFirstFamilyMatters(individual: Option<Individual>, generation: int, generations: int,
                                                  lookup: Individual -> seq<Family>, other: Individual -> seq<Family>)
    requires forall p :: FirstFamily(lookup(p)) == FirstFamily(other(p))
    ensures BuildJsonTree(individual, generation, generations, lookup)
            == BuildJsonTree(individual, generation, generations, other)
    decreases generations - generation
  {
    if individual.Some? && generation <= generations {
      var first := FirstFamily(lookup(individual.value));
      assert first == FirstFamily(other(individual.value));
      if first.Some? {
        OnlyFirstFamilyMatters(first.value.husband, generation + 1, generations, lookup, other);
        OnlyFirstFamilyMatters(first.value.wife, generation + 1, generations, lookup, other);
      }
    }
  }

  /**
   * The bound on the height is reached even on a cyclic graph: an individual
   * recorded as their own father yields exactly `generations - generation + 1` levels.
   */
  lemma {:induction false} OwnFatherReachesLimit(individual: Individual, generation: int, generations: int,
                                                 childFamilies: Individual -> seq<Family>)
    requires forall p :: childFamilies(p) == [Family(Some(p), None)]
    requires generation <= generations
    ensures Height(BuildJsonTree(Some(individual), generation, generations, childFamilies))
            == generations - generation + 1
    decreases generations - generation
  {
    var tree := BuildJsonTree(Some(individual), generation, generations, childFamilies);
    var father := BuildJsonTree(Some(individual), generation + 1, generations, childFamilies);
    var mother := BuildJsonTree(None, generation + 1, generations, childFamilies);
    assert tree.children == Entry(father) + Entry(mother);
    if generation < generations {
      OwnFatherReachesLimit(individual, generation + 1, generations, childFamilies);
      assert tree.children == [father];
      assert MaxHeight(tree.children) == Height(father) by {
        assert tree.children[1..] == [];
      }
    } else {
      assert tree.children == [];
    }
  }

  /** PHP's `strtolower` on one character: ASCII upper-case letters only. */
  function LowerChar(c: char): (l: char)
    ensures !('A' <= l <= 'Z')
    ensures 'A' <= c <= 'Z' ==> l as int == c as int + 32
    ensures !('A' <= c <= 'Z') ==> l == c
  {
    if 'A' <= c <= 'Z' then (c as int + 32) as char else c
  }

  /** PHP's `strtolower`. */
  function ToLower(s: string): (l: string)
    ensures |l| == |s|
    ensures forall i :: 0 <= i < |s| ==> l[i] == LowerChar(s[i])
  {
    if s == [] then [] else [LowerChar(s[0])] + ToLower(s[1..])
  }

  /** Lower-casing twice is lower-casing once. */
  lemma ToLowerIdempotent(s: string)
    ensures ToLower(ToLower(s)) == ToLower(s)
  {
    var once := ToLower(s);
    assert forall i :: 0 <= i < |s| ==> LowerChar(once[i]) == once[i];
  }

  /** The theme parameter that `getColor` looks up: `u` for no individual, else the lower-cased sex. */
  function ColorKey(individual: Option<Individual>): (key: string)
    ensures |key| >= 17 && key[..17] == "chart-background-"
    ensures individual.None? ==> key[17..] == "u"
    ensures individual.Some? ==> key[17..] == ToLower(individual.value.sex)
  {
    "chart-background-" + if individual.None? then "u" else ToLower(individual.value.sex)
  }

  /**
   * `getColor`: `#` followed by the theme's value for the colour key. The theme
   * is the host's and is passed in as `themeParameter`.
   */
  function GetColor(individual: Option<Individual>, themeParameter: string -> string): (color: string)
    ensures |color| >= 1 && color[0] == '#'
    ensures color[1..] == themeParameter(ColorKey(individual))
  {
    "#" + themeParameter(ColorKey(individual))
  }

  /**
   * The colour depends on the sex only up to case, and a missing individual gets
   * the colour of the unknown sex `U`.
   */
  lemma ColorKeyBySex(a: Individual, b: Individual, themeParameter: string -> string)
    ensures ToLower(a.sex) == ToLower(b.sex) ==> GetColor(Some(a), themeParameter) == GetColor(Some(b), themeParameter)
    ensures ToLower(a.sex) == "u" ==> GetColor(Some(a), themeParameter) == GetColor(None, themeParameter)
    ensures ColorKey(Some(a)) == ColorKey(Some(b)) ==> ToLower(a.sex) == ToLower(b.sex)
  {
    if ColorKey(Some(a)) == ColorKey(Some(b)) {
      assert ColorKey(Some(a))[17..] == ColorKey(Some(b))[17..];
    }
  }
}
