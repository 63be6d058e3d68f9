/** The service as a state machine: one call at a time, with a thrown exception
    leaving the service as it was. */
module Session {
  import opened Wrappers
  import opened Backends
  import opened Products
  import opened ProductService

  /** One public call of the service. */
  datatype Command =
    | Configure(dbType: string)
    | GetCurrent
    | GetDatabases
    | Clear
    | Add(product: Product)
    | List
    | Update(id: Id, patch: Product)
    | Find(id: Id)
    | DeleteAll
    | Delete(id: Id)
    | DeleteIncomplete
    | MySqlList

  /** What a call returns to its caller, or the exception it throws. */
  datatype Response =
    | Done
    | Names(names: seq<string>)
    | Selector(name: Option<string>)
    | Records(records: seq<Product>)
    | Found(product: Option<Product>)
    | Thrown(error: Error)

  /** A call that is refused unless a database is selected. */
  predicate IsDataCommand(c: Command) {
    !(c.Configure? || c.GetCurrent? || c.GetDatabases? || c.MySqlList?)
  }

  /** Lifts an operation that yields a new state. */
  function Apply(s: State, r: Result<State, Error>): (State, Response) {
    match r
    case Success(t) => (t, Done)
    case Failure(e) => (s, Thrown(e))
  }

  /** Performs one call on `s`: the next state and the response. A thrown exception
      leaves the state as it was, and only `Configure` can move the selector. */
  function Step(s: State, c: Command): (r: (State, Response))
    ensures r.1.Thrown? ==> r.0 == s
    ensures !c.Configure? ==> r.0.current == s.current
    ensures c.Configure? && !r.1.Thrown? ==> r.0.current == Parse(c.dbType)
  {
    match c
    case Configure(name) => Apply(s, ConfigureDB(s, name))
    case GetCurrent => (s, Selector(GetCurrentDB(s)))
    case GetDatabases => (s, Names(AvailableDatabases()))
    case Clear => Apply(s, ClearDB(s))
    case Add(p) => Apply(s, AddProduct(s, p))
    case List =>
      (match ListProducts(s)
       case Success(rs) => (s, Records(rs))
       case Failure(e) => (s, Thrown(e)))
    case Update(id, p) => Apply(s, UpdateProduct(s, id, p))
    case Find(id) =>
      (match FindProductById(s, id)
       case Success(q) => (s, Found(q))
       case Failure(e) => (s, Thrown(e)))
    case DeleteAll => Apply(s, DeleteProducts(s))
    case Delete(id) => Apply(s, DeleteProduct(s, id))
    case DeleteIncomplete => Apply(s, DeleteIncompleteProducts(s))
    case MySqlList => (s, Records(MySqlProducts(s)))
  }

  /** The state after performing `cs` in order from `s`. */
  function Run(s: State, cs: seq<Command>): State
    decreases |cs|
  {
    if |cs| == 0 then s else Run(Step(s, cs[0]).0, cs[1..])
  }

  /** A call that throws leaves the service unchanged; only `Configure` and the data
      calls can throw, and each throws only its own error. */
  lemma StepThrowKeepsState(s: State, c: Command)
    ensures Step(s, c).1.Thrown? ==> Step(s, c).0 == s
    ensures Step(s, c).1.Thrown? && c.Configure? ==> Step(s, c).1.error == UnsupportedBackend(c.dbType)
    ensures Step(s, c).1.Thrown? && !c.Configure? ==> IsDataCommand(c) && Step(s, c).1.error == NotConfigured
  {
    if c.Configure? {
      assert Step(s, c) == Apply(s, ConfigureDB(s, c.dbType));
    } else if !IsDataCommand(c) {
      assert !Step(s, c).1.Thrown?;
    } else if s.current.Some? {
      StepConfigured(s, c);
    } else {
      StepUnconfigured(s, c);
    }
  }

  /** Before any database is selected, every data call throws `NotConfigured`. */
  lemma StepUnconfigured(s: State, c: Command)
    requires s.current.None? && IsDataCommand(c)
    ensures Step(s, c) == (s, Thrown(NotConfigured))
  {
  }

  /** Once a database is selected, no data call throws. */
  lemma StepConfigured(s: State, c: Command)
    requires s.current.Some? && IsDataCommand(c)
    ensures !Step(s, c).1.Thrown?
  {
  }

  /** No call other than `Configure` moves the selector or touches the list of the
      database that is not selected. */
  lemma StepIsolation(s: State, c: Command)
    requires !c.Configure?
    ensures Step(s, c).0.current == s.current
    ensures s.current.Some? ==> OnlySelectedChanged(s, Step(s, c).0)
    ensures s.current.None? ==> Step(s, c).0 == s
  {
  }

  /** `Configure` changes only the selector. */
  lemma ConfigureKeepsLists(s: State, name: string, b: Backend)
    ensures Step(s, Configure(name)).0.Records(b) == s.Records(b)
  {
  }

  /** Along any run without `Configure`, the selector stays put and the list of the
      database that is not selected is never touched. */
  lemma {:induction false} RunIsolation(s: State, cs: seq<Command>)
    requires forall i :: 0 <= i < |cs| ==> !cs[i].Configure?
    ensures Run(s, cs).current == s.current
    ensures s.current.Some? ==> OnlySelectedChanged(s, Run(s, cs))
    decreases |cs|
  {
    if |cs| > 0 {
      StepIsolation(s, cs[0]);
      RunIsolation(Step(s, cs[0]).0, cs[1..]);
    }
  }

  /** Before any `Configure`, every run leaves a fresh service as it was. */
  lemma {:induction false} RunUnconfigured(s: State, cs: seq<Command>)
    requires s.current.None?
    requires forall i :: 0 <= i < |cs| ==> !cs[i].Configure?
    ensures Run(s, cs) == s
    decreases |cs|
  {
    if |cs| > 0 {
      StepIsolation(s, cs[0]);
      RunUnconfigured(s, cs[1..]);
    }
  }

  /** Adding a product under MySQL and then switching to Oracle: a search there finds
      exactly what the Oracle list held before, so the product is not visible. */
  lemma BackendsAreIsolated(s: State, p: Product, id: Id)
    ensures
      var t := Run(s, [Configure("mysql"), Add(p), Configure("Oracle")]);
      && t.current == Some(Oracle)
      && t.Records(MySQL) == s.Records(MySQL) + [p]
      && Step(t, Find(id)).1 == Found(FirstWithId(s.Records(Oracle), id))
  {
    var s1 := s.(current := Some(MySQL));
    var s2 := s1.(mysql := s.mysql + [p]);
    var s3 := s2.(current := Some(Oracle));
    ParseExamples();
    ConfigureSelects(s, "mysql", MySQL);
    AddAppends(s1, p);
    ParseName(Oracle);
    ConfigureSelects(s2, "Oracle", Oracle);
    RunOfThree(s, Configure("mysql"), Add(p), Configure("Oracle"));
    FindSearches(s3, id);
  }

  /** `Add` appends to the selected list. */
  lemma AddAppends(s: State, p: Product)
    requires s.current.Some?
    ensures Step(s, Add(p)).0 == s.WithRecords(s.current.value, s.Records(s.current.value) + [p])
  {
  }

  /** `Find` searches the selected list. */
  lemma FindSearches(s: State, id: Id)
    requires s.current.Some?
    ensures Step(s, Find(id)).1 == Found(FirstWithId(s.Records(s.current.value), id))
  {
  }

  /** A name that parses selects that backend and nothing else changes. */
  lemma ConfigureSelects(s: State, name: string, b: Backend)
    requires Parse(name) == Some(b)
    ensures Step(s, Configure(name)) == (s.(current := Some(b)), Done)
  {
  }

  /** A run of three calls is three steps. */
  lemma RunOfThree(s: State, a: Command, b: Command, c: Command)
    ensures Run(s, [a, b, c]) == Step(Step(Step(s, a).0, b).0, c).0
  {
    var cs := [a, b, c];
    assert cs[1..] == [b, c] && [b, c][1..] == [c] && [c][1..] == [];
    var s1 := Step(s, a).0;
    var s2 := Step(s1, b).0;
    assert Run(s2, [c]) == Step(s2, c).0;
    assert Run(s1, [b, c]) == Run(s2, [c]);
  }
}
