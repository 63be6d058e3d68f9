# ProductService — a Dafny model

This project models `ProductService`, the in-memory product store of the
e-commerce sample. The store simulates two databases, "MySQL" and "Oracle".
Each database is an ordered list of products. A nullable selector, `currentDB`,
decides which list every operation works on. `configureDB` sets the selector by
matching the name without regard to case. The eight data operations throw
"Base de datos no configurada." until a database has been configured. They are:
clear, add, list, update by id, find by id, delete all, delete by id, and purge
records with a null name or price.

Layout:

- `wrappers.dfy`: `Option`, which models Java's `null`, and `Result`, which models a call that either returns or throws.
- `seqs.dfy`: `Filter`, the order-preserving filter behind `removeIf`, with its multiset, subsequence, idempotence and concatenation laws.
- `backends.dfy`: the `Backend` enumeration, ASCII `equalsIgnoreCase`, and the parsing of configuration names.
- `products.dfy`: the `Product` record and the four list scans: delete by id, purge incomplete, patch by id, and first match by id.
- `product_service.dfy`: the service state `State(current, mysql, oracle)` and one function per public method. Each function returns `Result<…, Error>`.
- `session.dfy`: the service as a state machine. A `Step` is one call. Every exception the model covers is thrown before any field changes, and `Step` makes explicit that such a call leaves the state as it was. `Run` performs a sequence of calls. Lemmas cover isolation between the two databases.

The Java code keeps the selector as a `String` and dispatches with a string
`switch` that has a defensive `default ->` branch. The model stores the selector
as `Option<Backend>`. `GetCurrentDB` turns it back into the canonical string,
and `Route` models the `switch`, including the `default` branch, over that
string. `Selected` proves that the `default` branch is never taken.

`FindProductById` returns the FIRST record with the identifier, just as
`findFirst` does. So after an `add`, a search for the new product's identifier
returns the new product only if no earlier record had that identifier.
`FindAfterAdd` states both parts of this.

## Model

| member | source | states |
|---|---|---|
| `Seqs.Filter` | src/main/java/com/design/patterns/abstract_factory_ecommerce/service/ProductService.java:158-160 | `removeIf` keeps exactly the elements that pass the test, with their multiplicities, as a subsequence (original relative order) of the input. |
| `Seqs.FilterConcat` | src/main/java/com/design/patterns/abstract_factory_ecommerce/service/ProductService.java:145-147 | Removing elements in one pass over `a + b` equals filtering `a` and `b` separately and concatenating, so survivors keep their relative order. |
| `Seqs.FilterIdempotent` | src/main/java/com/design/patterns/abstract_factory_ecommerce/service/ProductService.java:158-160 | A second `removeIf` with the same test removes nothing. |
| `Backends.Parse` | src/main/java/com/design/patterns/abstract_factory_ecommerce/service/ProductService.java:32-39 | A name selects a backend exactly when it equals one of the canonical names ignoring case, and the backend it selects is the one it matches. |
| `Backends.EqualsIgnoreCase` | src/main/java/com/design/patterns/abstract_factory_ecommerce/service/ProductService.java:33-35 | The ASCII form of `equalsIgnoreCase` holds exactly when both strings have the same lower-case form, and every string matches itself. |
| `Backends.ParseIgnoresCase` | src/main/java/com/design/patterns/abstract_factory_ecommerce/service/ProductService.java:33-36 | Two names that differ only in ASCII case select the same backend, or both select none. |
| `Backends.ParseLower` | src/main/java/com/design/patterns/abstract_factory_ecommerce/service/ProductService.java:33-36 | Lower-casing a name does not change which backend it selects. |
| `Backends.ParseName` | src/main/java/com/design/patterns/abstract_factory_ecommerce/service/ProductService.java:33-36 | Each canonical name stored in the selector selects its own backend again. |
| `Backends.ParseExamples` | src/main/java/com/design/patterns/abstract_factory_ecommerce/service/ProductService.java:32-39 | "mysql", "MYSQL" and "oRaClE" are accepted. "Postgres" and "MySQL " (with a trailing space) are rejected. |
| `Products.Patch` | src/main/java/com/design/patterns/abstract_factory_ecommerce/service/ProductService.java:98-99 | A patched record keeps its identifier and takes the name and the price of the patch. |
| `Products.WithoutId` | src/main/java/com/design/patterns/abstract_factory_ecommerce/service/ProductService.java:146-147 | After deletion by id, no record with that id remains. Every record with another id is kept, with its multiplicity, in its original relative order. |
| `Products.Completes` | src/main/java/com/design/patterns/abstract_factory_ecommerce/service/ProductService.java:159-160 | After the purge, only records with a non-null name and a non-null price remain, each with its multiplicity, in their original relative order. |
| `Products.Patched` | src/main/java/com/design/patterns/abstract_factory_ecommerce/service/ProductService.java:97-104 | The update keeps the length and every identifier. Records with the id are patched and every other record is unchanged. |
| `Products.FirstWithId` | src/main/java/com/design/patterns/abstract_factory_ecommerce/service/ProductService.java:117-120 | The result is null exactly when no record has the id. Otherwise it is the record with the id at the lowest position. |
| `Products.WithoutAbsentId` | src/main/java/com/design/patterns/abstract_factory_ecommerce/service/ProductService.java:146-147 | Deleting an id that no record carries leaves the list as it was. |
| `Products.WithoutIdIdempotent` | src/main/java/com/design/patterns/abstract_factory_ecommerce/service/ProductService.java:146-147 | Deleting the same id twice is the same as deleting it once. |
| `Products.CompletesIdempotent` | src/main/java/com/design/patterns/abstract_factory_ecommerce/service/ProductService.java:159-160 | Purging twice is the same as purging once. |
| `Products.ScansDistribute` | src/main/java/com/design/patterns/abstract_factory_ecommerce/service/ProductService.java:145-160 | Deletion by id and the purge each distribute over concatenation of lists. |
| `Products.CompletesExample` | src/main/java/com/design/patterns/abstract_factory_ecommerce/service/ProductService.java:159 | The purge turns `[{1,"A",10}, {2,null,20}, {3,"C",null}]` into `[{1,"A",10}]`. |
| `Products.PatchedNoMatch` | src/main/java/com/design/patterns/abstract_factory_ecommerce/service/ProductService.java:97-104 | An update whose id matches no record leaves the list identical. |
| `Products.PatchedIdempotent` | src/main/java/com/design/patterns/abstract_factory_ecommerce/service/ProductService.java:97-104 | Repeating an update changes nothing further. |
| `Products.FindAfterPatch` | src/main/java/com/design/patterns/abstract_factory_ecommerce/service/ProductService.java:97-120 | After an update, a search for the id finds the old first match carrying the new name and price. If there was no match before, it finds none. |
| `Products.FindInConcat` | src/main/java/com/design/patterns/abstract_factory_ecommerce/service/ProductService.java:117 | A search over `a + b` returns the hit in `a` if there is one, and otherwise the hit in `b`. |
| `Products.FindAfterAppend` | src/main/java/com/design/patterns/abstract_factory_ecommerce/service/ProductService.java:66-117 | After a product is appended, a search for its id always finds a record with that id. That record is the appended product when no earlier record had the id. |
| `Products.FindAfterOtherDelete` | src/main/java/com/design/patterns/abstract_factory_ecommerce/service/ProductService.java:117-147 | Deleting one id does not change what a search for another id finds. |
| `ProductService.Init` | src/main/java/com/design/patterns/abstract_factory_ecommerce/service/ProductService.java:13-24 | A new service has no database selected, and both lists are empty. |
| `ProductService.AvailableDatabases` | src/main/java/com/design/patterns/abstract_factory_ecommerce/service/ProductService.java:18-29 | The listed names are exactly the two canonical names, in the order MySQL then Oracle, each of which `configureDB` accepts. |
| `ProductService.GetCurrentDB` | src/main/java/com/design/patterns/abstract_factory_ecommerce/service/ProductService.java:56-58 | The selector is null exactly when nothing has been configured. Otherwise it is one of the listed database names, and that name selects the current backend. |
| `ProductService.Route` | src/main/java/com/design/patterns/abstract_factory_ecommerce/service/ProductService.java:44-52 | A null selector fails with "not configured". A string that is one of the listed names reaches the backend it names. Any other string falls into the `default` branch and fails with "unknown database". |
| `ProductService.Selected` | src/main/java/com/design/patterns/abstract_factory_ecommerce/service/ProductService.java:44-52 | The null check fails with "not configured" exactly when the selector is unset. Otherwise the `switch` reaches the selected backend and never its `default` branch. |
| `ProductService.ConfigureDB` | src/main/java/com/design/patterns/abstract_factory_ecommerce/service/ProductService.java:32-40 | It succeeds exactly when the name matches a backend ignoring case, and then selects a backend that the name matches. Both lists are untouched. Any other name fails with the unsupported-database error that carries the name. |
| `ProductService.ClearDB` | src/main/java/com/design/patterns/abstract_factory_ecommerce/service/ProductService.java:43-53 | It fails exactly when unconfigured. Otherwise the selected list becomes empty, and the selector and the other list are unchanged. |
| `ProductService.AddProduct` | src/main/java/com/design/patterns/abstract_factory_ecommerce/service/ProductService.java:61-71 | It fails exactly when unconfigured. Otherwise the product is appended to the end of the selected list, and the selector and the other list are unchanged. |
| `ProductService.ListProducts` | src/main/java/com/design/patterns/abstract_factory_ecommerce/service/ProductService.java:74-88 | It fails exactly when unconfigured. Otherwise it returns the selected backend's list. |
| `ProductService.UpdateProduct` | src/main/java/com/design/patterns/abstract_factory_ecommerce/service/ProductService.java:91-107 | It fails exactly when unconfigured. Otherwise the length and the ids stay the same, matching records take the patch's name and price, other records are unchanged, and the other list is unchanged. |
| `ProductService.FindProductById` | src/main/java/com/design/patterns/abstract_factory_ecommerce/service/ProductService.java:110-124 | It fails exactly when unconfigured. Otherwise it returns null exactly when no record has the id, and else the first record in list order that has it. |
| `ProductService.DeleteProducts` | src/main/java/com/design/patterns/abstract_factory_ecommerce/service/ProductService.java:127-137 | It fails exactly when unconfigured. Otherwise the selected list becomes empty, and the selector and the other list are unchanged. |
| `ProductService.DeleteProduct` | src/main/java/com/design/patterns/abstract_factory_ecommerce/service/ProductService.java:140-150 | It fails exactly when unconfigured. Otherwise no record with the id remains, the others are kept in order with their multiplicities, and the other list is unchanged. |
| `ProductService.DeleteIncompleteProducts` | src/main/java/com/design/patterns/abstract_factory_ecommerce/service/ProductService.java:153-163 | It fails exactly when unconfigured. Otherwise exactly the records with a non-null name and a non-null price remain, in order, and the other list is unchanged. |
| `ProductService.MySqlProducts` | src/main/java/com/design/patterns/abstract_factory_ecommerce/service/ProductService.java:165-167 | In every state it returns the MySQL list, whatever database is selected: exactly what the listing call would return with MySQL selected. |
| `ProductService.ClearIsDeleteAll` | src/main/java/com/design/patterns/abstract_factory_ecommerce/service/ProductService.java:127-137 | `eliminarProductos` has the same effect as `clearDB` in every state. |
| `ProductService.ConfigureIgnoresCase` | src/main/java/com/design/patterns/abstract_factory_ecommerce/service/ProductService.java:32-39 | Names that differ only in case either both fail or configure the same state. |
| `ProductService.DeleteProductTwice` | src/main/java/com/design/patterns/abstract_factory_ecommerce/service/ProductService.java:140-150 | Deleting the same id again is a no-op. |
| `ProductService.DeleteIncompleteTwice` | src/main/java/com/design/patterns/abstract_factory_ecommerce/service/ProductService.java:153-163 | A second purge is a no-op. |
| `ProductService.UpdateWithoutMatch` | src/main/java/com/design/patterns/abstract_factory_ecommerce/service/ProductService.java:91-107 | With no matching id, the update leaves the state identical. |
| `ProductService.FindAfterAdd` | src/main/java/com/design/patterns/abstract_factory_ecommerce/service/ProductService.java:61-124 | After an add, a search for the product's id finds a record with that id. The record is the product itself when the id was new to the list. |
| `ProductService.FindAfterDelete` | src/main/java/com/design/patterns/abstract_factory_ecommerce/service/ProductService.java:110-150 | After deleting an id, a search for it returns null. |
| `ProductService.FindAfterUpdate` | src/main/java/com/design/patterns/abstract_factory_ecommerce/service/ProductService.java:91-124 | After an update, a search finds the previous first match carrying the new name and price. |
| `Session.Step` | src/main/java/com/design/patterns/abstract_factory_ecommerce/service/ProductService.java:27-167 | One public call, including `getProductosMySQL`: a call that throws leaves the service as it was, only `configureDB` moves the selector, and a successful `configureDB` selects the backend the name parses to. |
| `Session.StepThrowKeepsState` | src/main/java/com/design/patterns/abstract_factory_ecommerce/service/ProductService.java:32-163 | A call that throws leaves the service unchanged. `configureDB` throws only the unsupported-database error, and the data calls throw only "not configured". |
| `Session.StepUnconfigured` | src/main/java/com/design/patterns/abstract_factory_ecommerce/service/ProductService.java:42-163 | With nothing selected, each of the eight data calls throws "not configured" and changes nothing. |
| `Session.StepConfigured` | src/main/java/com/design/patterns/abstract_factory_ecommerce/service/ProductService.java:42-163 | With a database selected, no data call throws. |
| `Session.StepIsolation` | src/main/java/com/design/patterns/abstract_factory_ecommerce/service/ProductService.java:42-163 | No call other than `configureDB` moves the selector or touches the list of the database that is not selected. |
| `Session.ConfigureKeepsLists` | src/main/java/com/design/patterns/abstract_factory_ecommerce/service/ProductService.java:32-40 | Switching databases leaves both lists untouched, whether it succeeds or throws. |
| `Session.RunIsolation` | src/main/java/com/design/patterns/abstract_factory_ecommerce/service/ProductService.java:42-163 | In any sequence of calls without `configureDB`, the selector stays fixed and the unselected list never changes. |
| `Session.RunUnconfigured` | src/main/java/com/design/patterns/abstract_factory_ecommerce/service/ProductService.java:42-163 | Before the first `configureDB`, no sequence of calls changes the service. |
| `Session.BackendsAreIsolated` | src/main/java/com/design/patterns/abstract_factory_ecommerce/service/ProductService.java:32-124 | Configure "mysql", add a product, then configure "Oracle". A search under Oracle then finds exactly what the Oracle list held before, while the MySQL list has gained the product. |

## Left out

- Spring's `@Service` wiring and the controllers and DTOs that call the service are framework plumbing, so they are not modelled.
- `ProductService.ListProducts`, `ProductService.MySqlProducts` and `ProductService.AvailableDatabases` return the list as a value. The Java methods return the live `ArrayList`, so later changes a caller makes through it (an `add` or a `clear`) reach the store or change what later calls of `obtenerBasesDeDatos` return. That heap aliasing is not modelled.
- `ProductService.UpdateProduct` maps over a list of immutable records, while the Java code mutates the stored `Product` objects in place. The difference shows whenever one `Product` object is reachable from two places. That object can sit in both lists, or the caller can still hold it after `agregarProducto` stored the caller's own reference or after a search returned the stored object. The update then also changes the caller's copy. A setter call by the caller also changes the store: `p.setNombre(null)` after `agregarProducto(p)` makes the next purge remove `p`. Object identity and mutation by the caller are not modelled.
- Identifiers are unified as unbounded, non-null `int`. The `Long.equals` of update and delete versus `getId() == id` with an `int` argument in find is not modelled. A null `id` argument to update or delete throws nothing in Java: `Long.equals(null)` is false, so the call silently matches no record. A stored product whose own id is null makes update and delete by id throw a `NullPointerException`. Find throws only when its scan reaches that record before a match: `findFirst` stops at the first match. Neither case is modelled.
- Null products are not modelled, because a `Product` in the model is always a value. In Java, `agregarProducto(null)` succeeds, since `ArrayList` accepts null. Afterwards, update, find, delete by id and the purge throw a `NullPointerException` when their scan reaches that element. `actualizarProducto(id, null)` throws only when some record has the id, because the patch is read only for matching records. These null-pointer paths are also the only ones on which Java throws after changing the store. `actualizarProducto` streams the list lazily and patches each matching record as it reaches it. So with `[{1,…}, {null,…}]` selected, `actualizarProducto(1L, q)` patches record 1 and only then throws.
- `configureDB(null)`, which throws a `NullPointerException`, is not modelled because strings in the model are never null.
- Backends.EqualsIgnoreCase: folds ASCII letters only. Java's `equalsIgnoreCase` also uses Unicode case mapping, so it would accept, for example, U+017F (long s) in place of 's' in "MySQL". The model rejects such names.
- The `Product` class is not part of this model. Its price is taken as an integer amount, not a floating-point number, and its other members are left out.
- The exception messages are modelled by the `Error` kind, together with the rejected name for the unsupported-database error. The Spanish message text is not modelled.
- Concurrent callers are not modelled: the model is a single-threaded sequence of calls.
