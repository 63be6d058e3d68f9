/** The product service: a selector naming the current database and one product
    list per database. Every operation returns either a new value or the error the
    service would throw. */
module ProductService {
  import opened Wrappers
  import opened Backends
  import opened Products

  /** The three exceptions the service throws. */
  datatype Error =
    | UnsupportedBackend(name: string)  // `IllegalArgumentException` from `configureDB`
    | NotConfigured                     // `IllegalStateException`: no database configured yet
    | UnknownBackend                    // `IllegalStateException`: the selector names no database

  datatype State = State(current: Option<Backend>, mysql: seq<Product>, oracle: seq<Product>) {

    /** The list backing database `b`. */
    function Records(b: Backend): seq<Product> {
      match b
      case MySQL => mysql
      case Oracle => oracle
    }

    /** This state with the list of `b` replaced by `rs`. */
    function WithRecords(b: Backend, rs: seq<Product>): (t: State)
      ensures t.current == current
      ensures t.Records(b) == rs
      ensures t.Records(b.Other()) == Records(b.Other())
    {
      match b
      case MySQL => this.(mysql := rs)
      case Oracle => this.(oracle := rs)
    }
  }

  /** `r` is what a data operation returns on `s`: it fails, with `NotConfigured`,
      exactly when no database is selected. */
  predicate Gated<T>(s: State, r: Result<T, Error>) {
    && (r.Failure? <==> s.current.None?)
    && (r.Failure? ==> r.error == NotConfigured)
  }

  /** `t` differs from `s` at most in the list of the selected database. */
  predicate OnlySelectedChanged(s: State, t: State)
    requires s.current.Some?
  {
    t.current == s.current && t.Records(s.current.value.Other()) == s.Records(s.current.value.Other())
  }

  /** A fresh service: nothing selected and both lists empty. */
  function Init(): (s: State)
    ensures s.current.None?
    ensures forall b: Backend :: s.Records(b) == []
  {
    State(None, [], [])
  }

  /** The supported database names, in the order the service lists them: MySQL
      first. These are the names a caller may pass to `ConfigureDB`. */
  function AvailableDatabases(): (r: seq<string>)
    ensures |r| == 2
    ensures Parse(r[0]) == Some(MySQL) && Parse(r[1]) == Some(Oracle)
    ensures forall b: Backend :: b.Name() in r
    ensures forall i :: 0 <= i < |r| ==> Parse(r[i]).Some? && Parse(r[i]).value.Name() == r[i]
  {
    [MySQL.Name(), Oracle.Name()]
  }

  /** The stored selector: null before any configuration, otherwise a canonical name. */
  function GetCurrentDB(s: State): (r: Option<string>)
    ensures r.None? <==> s.current.None?
    ensures r.Some? ==> r.value in AvailableDatabases() && Parse(r.value) == s.current
  {
    match s.current
    case None => None
    case Some(b) =>
      ParseName(b);
      Some(b.Name())
  }

  /** The null check and string `switch` every data operation starts with: a null
      selector is "not configured", a canonical name reaches its backend, and any
      other string falls into the `default` branch. */
  function Route(selector: Option<string>): (r: Result<Backend, Error>)
    ensures r == Failure(NotConfigured) <==> selector.None?
    ensures r.Success? <==> selector.Some? && selector.value in AvailableDatabases()
    ensures r.Success? ==> selector == Some(r.value.Name())
    ensures selector.Some? && selector.value !in AvailableDatabases() ==> r == Failure(UnknownBackend)
  {
    match selector
    case None => Failure(NotConfigured)
    case Some(name) =>
      if name == "MySQL" then Success(MySQL)
      else if name == "Oracle" then Success(Oracle)
      else Failure(UnknownBackend)
  }

  /** The backend a data operation works on. The `UnknownBackend` branch of the
      switch is never taken, because the selector only ever holds a canonical name. */
  function Selected(s: State): (r: Result<Backend, Error>)
    ensures Gated(s, r)
    ensures r.Success? ==> s.current == Some(r.value)
  {
    Route(GetCurrentDB(s))
  }

  /** Selects a database by name, ignoring ASCII case; the lists are untouched. */
  function ConfigureDB(s: State, dbType: string): (r: Result<State, Error>)
    ensures r.Success? <==> exists b: Backend :: EqualsIgnoreCase(dbType, b.Name())
    ensures r.Success? ==> r.value.current.Some? && EqualsIgnoreCase(dbType, r.value.current.value.Name())
    ensures r.Success? ==> forall b: Backend :: r.value.Records(b) == s.Records(b)
    ensures r.Failure? ==> r.error == UnsupportedBackend(dbType)
  {
    match Parse(dbType)
    case Some(b) => Success(s.(current := Some(b)))
    case None => Failure(UnsupportedBackend(dbType))
  }

  /** Empties the selected list. */
  function ClearDB(s: State): (r: Result<State, Error>)
    ensures Gated(s, r)
    ensures r.Success? ==> OnlySelectedChanged(s, r.value) && r.value.Records(s.current.value) == []
  {
    var b :- Selected(s);
    Success(s.WithRecords(b, []))
  }

  /** Appends `p` to the end of the selected list. */
  function AddProduct(s: State, p: Product): (r: Result<State, Error>)
    ensures Gated(s, r)
    ensures r.Success? ==> OnlySelectedChanged(s, r.value)
    ensures r.Success? ==> r.value.Records(s.current.value) == s.Records(s.current.value) + [p]
  {
    var b :- Selected(s);
    Success(s.WithRecords(b, s.Records(b) + [p]))
  }

  /** The selected list itself. */
  function ListProducts(s: State): (r: Result<seq<Product>, Error>)
    ensures Gated(s, r)
    ensures r.Success? ==> r.value == s.Records(s.current.value)
  {
    var b :- Selected(s);
    Success(s.Records(b))
  }

  /** Gives every record of the selected list whose identifier is `id` the name and
      price of `p`. */
  function UpdateProduct(s: State, id: Id, p: Product): (r: Result<State, Error>)
    ensures Gated(s, r)
    ensures r.Success? ==> OnlySelectedChanged(s, r.value)
    ensures r.Success? ==>
      var before, after := s.Records(s.current.value), r.value.Records(s.current.value);
      && |after| == |before|
      && (forall i :: 0 <= i < |before| ==> after[i].id == before[i].id)
      && (forall i :: 0 <= i < |before| && before[i].id == id ==>
            after[i].name == p.name && after[i].price == p.price)
      && (forall i :: 0 <= i < |before| && before[i].id != id ==> after[i] == before[i])
  {
    var b :- Selected(s);
    Success(s.WithRecords(b, Patched(s.Records(b), id, p)))
  }

  /** The first record of the selected list whose identifier is `id`, or none. */
  function FindProductById(s: State, id: Id): (r: Result<Option<Product>, Error>)
    ensures Gated(s, r)
    ensures r.Success? ==>
      var rs := s.Records(s.current.value);
      && (r.value.None? <==> forall i :: 0 <= i < |rs| ==> rs[i].id != id)
      && (r.value.Some? ==> exists i :: 0 <= i < |rs| && rs[i] == r.value.value && rs[i].id == id
                                        && forall j :: 0 <= j < i ==> rs[j].id != id)
  {
    var b :- Selected(s);
    Success(FirstWithId(s.Records(b), id))
  }

  /** Deletes every record of the selected list. */
  function DeleteProducts(s: State): (r: Result<State, Error>)
    ensures Gated(s, r)
    ensures r.Success? ==> OnlySelectedChanged(s, r.value) && r.value.Records(s.current.value) == []
  {
    var b :- Selected(s);
    Success(s.WithRecords(b, []))
  }

  /** Deletes every record of the selected list whose identifier is `id`, keeping the
      rest in order. */
  function DeleteProduct(s: State, id: Id): (r: Result<State, Error>)
    ensures Gated(s, r)
    ensures r.Success? ==>
      var before, after := s.Records(s.current.value), r.value.Records(s.current.value);
      && OnlySelectedChanged(s, r.value)
      && (forall q :: q in after ==> q.id != id)
      && (forall q :: multiset(after)[q] == if q.id == id then 0 else multiset(before)[q])
      && Seqs.IsSubsequence(after, before)
  {
    var b :- Selected(s);
    Success(s.WithRecords(b, WithoutId(s.Records(b), id)))
  }

  /** Deletes every record of the selected list whose name or price is null, keeping
      the rest in order. */
  function DeleteIncompleteProducts(s: State): (r: Result<State, Error>)
    ensures Gated(s, r)
    ensures r.Success? ==>
      var before, after := s.Records(s.current.value), r.value.Records(s.current.value);
      && OnlySelectedChanged(s, r.value)
      && (forall q :: q in after ==> IsComplete(q))
      && (forall q :: multiset(after)[q] == if IsComplete(q) then multiset(before)[q] else 0)
      && Seqs.IsSubsequence(after, before)
  {
    var b :- Selected(s);
    Success(s.WithRecords(b, Completes(s.Records(b))))
  }

  /** The MySQL list, whatever database is selected. */
  function MySqlProducts(s: State): (r: seq<Product>)
    ensures ListProducts(s.(current := Some(MySQL))) == Success(r)
  {
    s.mysql
  }

  /** Clearing the database and deleting all its products are the same operation. */
  lemma ClearIsDeleteAll(s: State)
    ensures ClearDB(s) == DeleteProducts(s)
  {
  }

  /** Names that differ only in ASCII case configure the same database. */
  lemma ConfigureIgnoresCase(s: State, a: string, b: string)
    requires EqualsIgnoreCase(a, b)
    ensures ConfigureDB(s, a).Success? <==> ConfigureDB(s, b).Success?
    ensures ConfigureDB(s, a).Success? ==> ConfigureDB(s, a) == ConfigureDB(s, b)
  {
  }

  /** Deleting the same identifier twice is the same as deleting it once. */
  lemma DeleteProductTwice(s: State, id: Id)
    requires s.current.Some?
    ensures DeleteProduct(DeleteProduct(s, id).value, id) == DeleteProduct(s, id)
  {
    WithoutIdIdempotent(s.Records(s.current.value), id);
  }

  /** Purging incomplete records twice is the same as purging once. */
  lemma DeleteIncompleteTwice(s: State)
    requires s.current.Some?
    ensures DeleteIncompleteProducts(DeleteIncompleteProducts(s).value) == DeleteIncompleteProducts(s)
  {
    CompletesIdempotent(s.Records(s.current.value));
  }

  /** An update whose identifier matches no record of the selected list changes nothing. */
  lemma UpdateWithoutMatch(s: State, id: Id, p: Product)
    requires s.current.Some?
    requires forall i :: 0 <= i < |s.Records(s.current.value)| ==> s.Records(s.current.value)[i].id != id
    ensures UpdateProduct(s, id, p) == Success(s)
  {
    PatchedNoMatch(s.Records(s.current.value), id, p);
  }

  /** A product just added is found by its identifier: it is the product itself unless
      the list already held a record with that identifier. */
  lemma FindAfterAdd(s: State, p: Product)
    requires s.current.Some?
    ensures FindProductById(AddProduct(s, p).value, p.id).value.Some?
    ensures FindProductById(AddProduct(s, p).value, p.id).value.value.id == p.id
    ensures (forall i :: 0 <= i < |s.Records(s.current.value)| ==> s.Records(s.current.value)[i].id != p.id)
            ==> FindProductById(AddProduct(s, p).value, p.id) == Success(Some(p))
  {
    FindAfterAppend(s.Records(s.current.value), p);
  }

  /** After a deletion by identifier, no record with that identifier is found. */
  lemma FindAfterDelete(s: State, id: Id)
    requires s.current.Some?
    ensures FindProductById(DeleteProduct(s, id).value, id) == Success(None)
  {
  }

  /** After an update, a search for that identifier finds the old first match with the new fields. */
  lemma FindAfterUpdate(s: State, id: Id, p: Product)
    requires s.current.Some?
    ensures FindProductById(UpdateProduct(s, id, p).value, id)
         == match FindProductById(s, id).value
            case None => Success(None)
            case Some(q) => Success(Some(Patch(q, p)))
  {
    FindAfterPatch(s.Records(s.current.value), id, p);
  }
}
