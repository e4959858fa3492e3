/**
 * The component registry: eight independent name-to-component tables, one per category,
 * filled by registration decorators and read by getters.
 */
module Registry {
  import opened Wrappers

  /** The eight component categories, in the order `list_all` lists them. */
  datatype Category = Reranker | Retriever | Reformulator | Assembler | Scheduler | Estimator | Indexer | Feedback {
    /** The key `list_all` uses for the category. */
    function Key(): (k: string)
      ensures k in CategoryKeys
    {
      match this
      case Reranker => "reranker"
      case Retriever => "retriever"
      case Reformulator => "reformulator"
      case Assembler => "assembler"
      case Scheduler => "scheduler"
      case Estimator => "estimator"
      case Indexer => "indexer"
      case Feedback => "feedback"
    }
  }

  const CategoryKeys: set<string> :=
    {"reranker", "retriever", "reformulator", "assembler", "scheduler", "estimator", "indexer", "feedback"}

  /** Different categories have different keys, and every key names a category. */
  lemma KeysDistinct(a: Category, b: Category)
    ensures a.Key() == b.Key() <==> a == b
    ensures forall k :: k in CategoryKeys ==> exists c: Category :: c.Key() == k
  {
    assert Reranker.Key() == "reranker" && Retriever.Key() == "retriever";
    assert Reformulator.Key() == "reformulator" && Assembler.Key() == "assembler";
    assert Scheduler.Key() == "scheduler" && Estimator.Key() == "estimator";
    assert Indexer.Key() == "indexer" && Feedback.Key() == "feedback";
  }

  /** `Registry`, over components of any type `C` (a class or a function in Python). */
  class ComponentRegistry<C> {
    var rerankers: map<string, C>
    var retrievers: map<string, C>
    var reformulators: map<string, C>
    var assemblers: map<string, C>
    var schedulers: map<string, C>
    var estimators: map<string, C>
    var indexers: map<string, C>
    var feedback: map<string, C>

    /** Every table starts empty. */
    constructor()
      ensures forall c: Category :: Table(c) == map[]
    {
      rerankers, retrievers, reformulators, assemblers := map[], map[], map[], map[];
      schedulers, estimators, indexers, feedback := map[], map[], map[], map[];
    }

    /** The table of one category. */
    function Table(c: Category): map<string, C>
      reads this
    {
      match c
      case Reranker => rerankers
      case Retriever => retrievers
      case Reformulator => reformulators
      case Assembler => assemblers
      case Scheduler => schedulers
      case Estimator => estimators
      case Indexer => indexers
      case Feedback => feedback
    }

    /**
     * The decorator `reranker(name)`, `retriever(name)`, … applied to `x`: the entry for `name`
     * in the category's table becomes `x`, overwriting an earlier one, and `x` is returned.
     * No other table changes.
     */
    method Register(c: Category, name: string, x: C) returns (r: C)
      modifies this
      ensures r == x
      ensures Table(c) == old(Table(c))[name := x]
      ensures forall d: Category :: d != c ==> Table(d) == old(Table(d))
      ensures Get(c, name) == Some(x)
      ensures forall d: Category, n :: (d != c || n != name) ==> Get(d, n) == old(Get(d, n))
    {
      r := x;
      match c
      case Reranker => rerankers := rerankers[name := x];
      case Retriever => retrievers := retrievers[name := x];
      case Reformulator => reformulators := reformulators[name := x];
      case Assembler => assemblers := assemblers[name := x];
      case Scheduler => schedulers := schedulers[name := x];
      case Estimator => estimators := estimators[name := x];
      case Indexer => indexers := indexers[name := x];
      case Feedback => feedback := feedback[name := x];
    }

    /** `get_reranker(name)`, …: the registered component, or None (Python's `dict.get`). */
    function Get(c: Category, name: string): (r: Option<C>)
      reads this
      ensures r.Some? <==> name in Table(c)
      ensures r.Some? ==> r.value == Table(c)[name]
    {
      if name in Table(c) then Some(Table(c)[name]) else None
    }

    /** `list_all`: the eight tables under their category keys. */
    function ListAll(): (r: map<string, map<string, C>>)
      reads this
      ensures r.Keys == CategoryKeys
    {
      map["reranker" := rerankers, "retriever" := retrievers, "reformulator" := reformulators,
          "assembler" := assemblers, "scheduler" := schedulers, "estimator" := estimators,
          "indexer" := indexers, "feedback" := feedback]
    }

    /** Under each category's key `list_all` shows that category's table. */
    lemma ListAllTables(c: Category)
      ensures c.Key() in ListAll() && ListAll()[c.Key()] == Table(c)
    {
    }
  }

  /** A registry with one reranker registered: the getter hands it back and the other tables know nothing. */
  method RegisterExample() returns (found: Option<string>, other: Option<string>)
    ensures found == Some("simulated") && other == None
  {
    var reg := new ComponentRegistry<string>();
    var _ := reg.Register(Reranker, "simulated", "simulated");
    found := reg.Get(Reranker, "simulated");
    other := reg.Get(Retriever, "simulated");
  }

  /** Registering the same name twice keeps the second component. */
  method OverwriteExample() returns (found: Option<string>)
    ensures found == Some("second")
  {
    var reg := new ComponentRegistry<string>();
    var _ := reg.Register(Scheduler, "active", "first");
    var _ := reg.Register(Scheduler, "active", "second");
    found := reg.Get(Scheduler, "active");
  }
}
