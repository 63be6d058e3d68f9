/** Product records and the per-list scans the service runs over them. */
module Products {
  import opened Wrappers
  import opened Seqs

  type Id = int

  /** The product class itself is not part of this model: the price is an integer amount. */
  type Price = int

  /** A stored record: the identifier the caller supplied and two nullable fields. */
  datatype Product = Product(id: Id, name: Option<string>, price: Option<Price>)

  /** Neither the name nor the price is null. */
  predicate IsComplete(p: Product) {
    p.name.Some? && p.price.Some?
  }

  /** `p` with its name and price overwritten by those of `patch`; the identifier is kept. */
  function Patch(p: Product, patch: Product): (q: Product)
    ensures q.id == p.id && q.name == patch.name && q.price == patch.price
  {
    p.(name := patch.name, price := patch.price)
  }

  /** The list after removing every record whose identifier is `id`. */
  function WithoutId(s: seq<Product>, id: Id): (r: seq<Product>)
    ensures forall p :: p in r ==> p.id != id
    ensures forall p :: p in s && p.id != id ==> p in r
    ensures forall p :: multiset(r)[p] == if p.id == id then 0 else multiset(s)[p]
    ensures IsSubsequence(r, s)
  {
    var r := Filter(s, (p: Product) => p.id != id);
    forall p | p in s && p.id != id
      ensures p in r
    {
      FilterKeeps(s, (p: Product) => p.id != id, p);
    }
    r
  }

  /** The list after removing every record with a null name or a null price. */
  function Completes(s: seq<Product>): (r: seq<Product>)
    ensures forall p :: p in r ==> IsComplete(p)
    ensures forall p :: p in s && IsComplete(p) ==> p in r
    ensures forall p :: multiset(r)[p] == if IsComplete(p) then multiset(s)[p] else 0
    ensures IsSubsequence(r, s)
  {
    var r := Filter(s, IsComplete);
    forall p | p in s && IsComplete(p)
      ensures p in r
    {
      FilterKeeps(s, IsComplete, p);
    }
    r
  }

  /** The list with every record whose identifier is `id` patched from `patch`. */
  function Patched(s: seq<Product>, id: Id, patch: Product): (r: seq<Product>)
    ensures |r| == |s|
    ensures forall i :: 0 <= i < |s| ==> r[i].id == s[i].id
    ensures forall i :: 0 <= i < |s| && s[i].id == id ==> r[i] == Patch(s[i], patch)
    ensures forall i :: 0 <= i < |s| && s[i].id != id ==> r[i] == s[i]
    decreases |s|
  {
    if |s| == 0 then []
    else
      var head := if s[0].id == id then Patch(s[0], patch) else s[0];
      [head] + Patched(s[1..], id, patch)
  }

  /** The first record, in list order, whose identifier is `id`. */
  function FirstWithId(s: seq<Product>, id: Id): (r: Option<Product>)
    ensures r.None? <==> forall i :: 0 <= i < |s| ==> s[i].id != id
    ensures r.Some? ==> exists i :: 0 <= i < |s| && s[i] == r.value && s[i].id == id
                                    && forall j :: 0 <= j < i ==> s[j].id != id
    decreases |s|
  {
    if |s| == 0 then None
    else if s[0].id == id then Some(s[0])
    else
      var r := FirstWithId(s[1..], id);
      assert r.Some? ==> exists i :: 0 <= i < |s| && s[i] == r.value && s[i].id == id
                                     && forall j :: 0 <= j < i ==> s[j].id != id by {
        if r.Some? {
          var k :| 0 <= k < |s| - 1 && s[1..][k] == r.value && s[1..][k].id == id
                   && forall j :: 0 <= j < k ==> s[1..][j].id != id;
          assert s[k + 1] == r.value && forall j :: 0 <= j < k + 1 ==> s[j].id != id;
        }
      }
      r
  }

  /** Deleting an identifier that no record carries leaves the list as it was. */
  lemma WithoutAbsentId(s: seq<Product>, id: Id)
    requires forall i :: 0 <= i < |s| ==> s[i].id != id
    ensures WithoutId(s, id) == s
  {
    FilterAllKept(s, (p: Product) => p.id != id);
  }

  /** Deleting the same identifier a second time changes nothing. */
  lemma WithoutIdIdempotent(s: seq<Product>, id: Id)
    ensures WithoutId(WithoutId(s, id), id) == WithoutId(s, id)
  {
    var r := WithoutId(s, id);
    forall i | 0 <= i < |r|
      ensures r[i].id != id
    {
      assert r[i] in r;
    }
    WithoutAbsentId(r, id);
  }

  /** Purging incomplete records a second time changes nothing. */
  lemma CompletesIdempotent(s: seq<Product>)
    ensures Completes(Completes(s)) == Completes(s)
  {
    var r := Completes(s);
    forall i | 0 <= i < |r|
      ensures IsComplete(r[i])
    {
      assert r[i] in r;
    }
    FilterAllKept(r, IsComplete);
  }

  /** Deleting by identifier and purging incomplete records keep the relative order of
      survivors: each distributes over concatenation. */
  lemma ScansDistribute(a: seq<Product>, b: seq<Product>, id: Id)
    ensures WithoutId(a + b, id) == WithoutId(a, id) + WithoutId(b, id)
    ensures Completes(a + b) == Completes(a) + Completes(b)
  {
    FilterConcat(a, b, (p: Product) => p.id != id);
    FilterConcat(a, b, IsComplete);
  }

  /** The three-record purge example: only the record with both fields survives. */
  lemma CompletesExample()
    ensures Completes([Product(1, Some("A"), Some(10)), Product(2, None, Some(20)),
                       Product(3, Some("C"), None)])
         == [Product(1, Some("A"), Some(10))]
  {
  }

  /** An update that matches no record leaves the list as it was. */
  lemma PatchedNoMatch(s: seq<Product>, id: Id, patch: Product)
    requires forall i :: 0 <= i < |s| ==> s[i].id != id
    ensures Patched(s, id, patch) == s
  {
  }

  /** Repeating the same update changes nothing further. */
  lemma PatchedIdempotent(s: seq<Product>, id: Id, patch: Product)
    ensures Patched(Patched(s, id, patch), id, patch) == Patched(s, id, patch)
  {
  }

  /** After an update, the first record with that identifier is the old first record, patched. */
  lemma FindAfterPatch(s: seq<Product>, id: Id, patch: Product)
    ensures FirstWithId(Patched(s, id, patch), id)
         == match FirstWithId(s, id)
            case None => None
            case Some(p) => Some(Patch(p, patch))
  {
  }

  /** A search over a concatenation finds the hit in the first part, if there is one. */
  lemma {:induction false} FindInConcat(a: seq<Product>, b: seq<Product>, id: Id)
    ensures FirstWithId(a + b, id) == if FirstWithId(a, id).Some? then FirstWithId(a, id) else FirstWithId(b, id)
    decreases |a|
  {
    if |a| == 0 {
      assert a + b == b;
    } else {
      assert (a + b)[0] == a[0] && (a + b)[1..] == a[1..] + b;
      FindInConcat(a[1..], b, id);
    }
  }

  /** After appending `p`, a search for its identifier succeeds, and yields `p` itself
      unless an earlier record already carried that identifier. */
  lemma FindAfterAppend(s: seq<Product>, p: Product)
    ensures FirstWithId(s + [p], p.id).Some?
    ensures FirstWithId(s + [p], p.id).value.id == p.id
    ensures (forall i :: 0 <= i < |s| ==> s[i].id != p.id) ==> FirstWithId(s + [p], p.id) == Some(p)
  {
    FindInConcat(s, [p], p.id);
  }

  /** Deleting one identifier does not change what a search for a different one finds. */
  lemma {:induction false} FindAfterOtherDelete(s: seq<Product>, id: Id, other: Id)
    requires id != other
    ensures FirstWithId(WithoutId(s, other), id) == FirstWithId(s, id)
    decreases |s|
  {
    if |s| > 0 {
      assert s == [s[0]] + s[1..];
      ScansDistribute([s[0]], s[1..], other);
      FindAfterOtherDelete(s[1..], id, other);
      FindInConcat(WithoutId([s[0]], other), WithoutId(s[1..], other), id);
      if s[0].id != other {
        WithoutAbsentId([s[0]], other);
      } else {
        assert WithoutId([s[0]], other) == [];
      }
    }
  }
}
