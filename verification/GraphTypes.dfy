/** Node and edge taxonomy of a canvas, and the fixed edge-direction table. */
module GraphTypes {
  import opened Reachability

  datatype Option<+T> = None | Some(value: T)

  datatype NodeKind =
    | Goal | Constraint | Strategy | Source | Claim | Opportunity
    | Assumption | Risk | ValidationExperiment | GenerationPlaceholder

  datatype EdgeKind =
    | Supports | Contradicts | DerivedFrom | ConstrainedBy
    | EvolvesInto | RequiresValidation | ExtractedFrom

  /** A JSON string: the canonical text of an identity, another spelling that parses as one (upper case, braces,
      no dashes), one of the words the code compares with, or any other. */
  datatype Token =
    | IdText(id: Id)
    | IdSpelling(id: Id, spelling: nat)
    | Provisional | Accepted | Rejected
    | GlobalScope | BranchScope | NodeScope | Parallel
    | Word(text: string)

  /** `uuid.UUID` accepts the string. */
  predicate SpellsId(token: Token) {
    token.IdText? || token.IdSpelling?
  }

  datatype Value = Text(token: Token) | Flag(b: bool) | Number(n: int) | Items(items: seq<Value>)
                 | IdSet(ids: set<Id>) | TokenSet(tokens: set<Token>)

  /** The metadata fields the code reads or owns; every other field is Other. */
  datatype Field =
    | ReviewStatus | ContextScope | Pinned | IndependenceKey
    | EligibleSourceIds | EligibleIndependenceKeys | IndependentSupportCount
    | ReviewedBy | RejectedBy | SupportReviewedBy
    | SourcePatch | GeneratedByRun | ProvenanceNodes
    | RegeneratedFrom | RegenerationScope | LineageMode
    | Other(name: string)

  type Metadata = map<Field, Value>

  function Get(metadata: Metadata, field: Field): Option<Value> {
    if field in metadata then Some(metadata[field]) else None
  }

  predicate HasReview(metadata: Metadata, status: Token) {
    Get(metadata, ReviewStatus) == Some(Text(status))
  }

  datatype Edge = Edge(source: Id, target: Id, kind: EdgeKind, metadata: Metadata, version: nat)

  /** (ancestor, descendant): constrained_by and extracted_from point against the dependency. */
  function DependencyPair(source: Id, target: Id, kind: EdgeKind): (Id, Id) {
    if kind.ConstrainedBy? || kind.ExtractedFrom? then (target, source) else (source, target)
  }

  function PairOf(edge: Edge): (Id, Id) {
    DependencyPair(edge.source, edge.target, edge.kind)
  }

  function Dependencies(edges: map<Id, Edge>): (rel: Relation)
    ensures forall e :: e in edges ==> PairOf(edges[e]) in rel
  {
    set e | e in edges :: PairOf(edges[e])
  }

  lemma DependenciesGrow(few: map<Id, Edge>, many: map<Id, Edge>)
    requires forall e :: e in few ==> e in many && many[e] == few[e]
    ensures Dependencies(few) <= Dependencies(many)
  {
    forall p | p in Dependencies(few) ensures p in Dependencies(many) {
      var e :| e in few && PairOf(few[e]) == p;
      assert PairOf(many[e]) in Dependencies(many);
    }
  }

  /** Everything reached from the roots; the roots themselves only on request. */
  ghost function Dependents(rel: Relation, roots: set<Id>, includeRoots: bool, excluded: set<Id>): (r: set<Id>)
    ensures forall y :: y in r <==>
      ReachedFrom(rel, roots, y) && (includeRoots || y !in roots) && y !in excluded
  {
    forall y | ReachedFrom(rel, roots, y) ensures y in roots + Heads(rel) {
      var x :| x in roots && Reaches(rel, x, y);
      StrictImpliesReaches(rel, x, y);
    }
    set y | y in roots + Heads(rel) && ReachedFrom(rel, roots, y)
            && (includeRoots || y !in roots) && y !in excluded
  }

  function Heads(rel: Relation): (r: set<Id>)
    ensures forall x, y :: (x, y) in rel ==> y in r
  {
    set p | p in rel :: p.1
  }
}
