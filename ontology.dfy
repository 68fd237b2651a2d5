/** The read-only view of the Human Phenotype Ontology the converter consults:
    a term map keyed by primary and alternate ids, and the child edges
    (the sources of the is-a edges into a term). */
module Ontology {

  /** An ontology term id, such as HP:0012823: a prefix and a local id. */
  datatype TermId = TermId(prefix: string, local: string)

  /** TermId.getIdWithPrefix. */
  function IdWithPrefix(t: TermId): string
  {
    t.prefix + ":" + t.local
  }

  const HpPrefix: string := "HP"

  /** Root of the Clinical modifier subhierarchy. */
  const ClinicalModifierRoot: TermId := TermId(HpPrefix, "0012823")

  /** An ontology term: its primary id and its label. */
  datatype Term = Term(id: TermId, name: string)

  datatype HpoOntology = HpoOntology(termMap: map<TermId, Term>, kids: map<TermId, set<TermId>>)
  {
    /** The terms with an is-a edge into parent. */
    function Children(parent: TermId): set<TermId>
    {
      if parent in kids then kids[parent] else {}
    }

    /** The term map sends an alternate id to the same term as its primary
        id, and every child in the graph is a known term. */
    ghost predicate Valid()
    {
      && (forall t :: t in termMap ==> termMap[t].id in termMap && termMap[termMap[t].id] == termMap[t])
      && (forall p, c :: p in kids && c in kids[p] ==> c in termMap)
    }
  }

  /** t is the primary id of a term in the ontology. */
  ghost predicate IsPrimary(o: HpoOntology, t: TermId)
  {
    t in o.termMap && o.termMap[t].id == t
  }

  /** rank strictly decreases along every child edge, so the graph has no cycle. */
  ghost predicate Ranked(o: HpoOntology, rank: TermId -> nat)
  {
    forall p, c :: p in o.kids && c in o.kids[p] ==> rank(c) < rank(p)
  }

  /** path follows child edges from its first to its last term. */
  ghost predicate IsDescent(o: HpoOntology, path: seq<TermId>)
  {
    |path| > 0 && forall i :: 1 <= i < |path| ==> path[i] in o.Children(path[i - 1])
  }

  /** t is root or reachable from root by child edges. */
  ghost predicate Descends(o: HpoOntology, root: TermId, t: TermId)
  {
    exists path :: IsDescent(o, path) && path[0] == root && path[|path| - 1] == t
  }

  lemma DescendsFromItself(o: HpoOntology, root: TermId)
    ensures Descends(o, root, root)
  {
    assert IsDescent(o, [root]);
  }

  lemma DescendsStep(o: HpoOntology, root: TermId, parent: TermId, child: TermId)
    requires Descends(o, root, parent) && child in o.Children(parent)
    ensures Descends(o, root, child)
  {
    var path :| IsDescent(o, path) && path[0] == root && path[|path| - 1] == parent;
    var longer := path + [child];
    assert IsDescent(o, longer);
  }

  /** Every term on a descent that starts in a set closed under children lies in that set. */
  lemma {:induction false} DescentStaysInClosedSet(o: HpoOntology, closed: set<TermId>, path: seq<TermId>)
    requires IsDescent(o, path) && path[0] in closed
    requires forall d, k :: d in closed && k in o.Children(d) ==> k in closed
    ensures path[|path| - 1] in closed
    decreases |path|
  {
    if |path| > 1 {
      var prefix := path[..|path| - 1];
      assert IsDescent(o, prefix);
      DescentStaysInClosedSet(o, closed, prefix);
      assert path[|path| - 1] in o.Children(prefix[|prefix| - 1]);
    }
  }

  /** A set that holds root and is closed under children holds every descendant of root. */
  lemma ClosedSetHoldsDescendants(o: HpoOntology, root: TermId, closed: set<TermId>)
    requires root in closed
    requires forall d, k :: d in closed && k in o.Children(d) ==> k in closed
    ensures forall t :: Descends(o, root, t) ==> t in closed
  {
    forall t | Descends(o, root, t) ensures t in closed {
      var path :| IsDescent(o, path) && path[0] == root && path[|path| - 1] == t;
      DescentStaysInClosedSet(o, closed, path);
    }
  }

  /** In a valid ontology, every descendant of a known root is a known term. */
  lemma DescendantIsKnown(o: HpoOntology, root: TermId, t: TermId)
    requires o.Valid() && root in o.termMap && Descends(o, root, t)
    ensures t in o.termMap
  {
    var path :| IsDescent(o, path) && path[0] == root && path[|path| - 1] == t;
    if |path| > 1 {
      assert t in o.Children(path[|path| - 2]);
    }
  }

  /** Number of terms a depth-first walk without a visited set pushes when it
      starts from t: one for t and, recursively, those of each child. */
  ghost function Unfolding(o: HpoOntology, rank: TermId -> nat, t: TermId): nat
    requires Ranked(o, rank)
    decreases rank(t), 1
  {
    1 + UnfoldingOfChildren(o, rank, t, o.Children(t))
  }

  /** Sum of Unfolding over some children of parent. */
  ghost function UnfoldingOfChildren(o: HpoOntology, rank: TermId -> nat, parent: TermId, s: set<TermId>): nat
    requires Ranked(o, rank) && s <= o.Children(parent)
    decreases rank(parent), 0, s
  {
    if s == {} then 0
    else
      var x :| x in s;
      Unfolding(o, rank, x) + UnfoldingOfChildren(o, rank, parent, s - {x})
  }

  /** The sum may take out any child first. */
  lemma {:induction false} UnfoldingOfChildrenSplit(o: HpoOntology, rank: TermId -> nat, parent: TermId, s: set<TermId>, y: TermId)
    requires Ranked(o, rank) && s <= o.Children(parent) && y in s
    ensures UnfoldingOfChildren(o, rank, parent, s)
         == Unfolding(o, rank, y) + UnfoldingOfChildren(o, rank, parent, s - {y})
    decreases s
  {
    var x :| x in s && UnfoldingOfChildren(o, rank, parent, s)
                       == Unfolding(o, rank, x) + UnfoldingOfChildren(o, rank, parent, s - {x});
    if x != y {
      UnfoldingOfChildrenSplit(o, rank, parent, s - {x}, y);
      UnfoldingOfChildrenSplit(o, rank, parent, s - {y}, x);
      assert s - {x} - {y} == s - {y} - {x};
    }
  }

  /** Sum of Unfolding over a stack of terms. */
  ghost function UnfoldingOfStack(o: HpoOntology, rank: TermId -> nat, stack: seq<TermId>): nat
    requires Ranked(o, rank)
    decreases |stack|
  {
    if stack == [] then 0
    else UnfoldingOfStack(o, rank, stack[..|stack| - 1]) + Unfolding(o, rank, stack[|stack| - 1])
  }

  /** Pushing a term adds its unfolding to the stack's. */
  lemma UnfoldingOfStackPush(o: HpoOntology, rank: TermId -> nat, stack: seq<TermId>, t: TermId)
    requires Ranked(o, rank)
    ensures UnfoldingOfStack(o, rank, stack + [t]) == UnfoldingOfStack(o, rank, stack) + Unfolding(o, rank, t)
  {
    assert (stack + [t])[..|stack|] == stack;
  }
}
