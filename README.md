# Item repositories over JdbcTemplate

This project models the two JdbcTemplate-based item repositories of a small Spring item service
and proves properties of them. `JdbcTemplateItemRepositoryV2` uses a named-parameter template with
a generated-key holder. `JdbcTemplateItemRepositoryV3` inserts through a generated-key insert
helper. Both offer four operations on the `item` table:

- **save**: inserts name, price and quantity, takes the generated id and sets it on the same `Item`,
  which it then returns.
- **update**: overwrites name, price and quantity of the row whose id matches.
- **findById**: selects by id. It returns the item or an empty optional.
- **findAll**: builds the search statement step by step from an `ItemSearchCond` and returns the
  rows it selects.

The search statement starts from `select id, item_name, price, quantity from item`. It appends
` where` when a name with text or a price bound is given. It appends the name predicate only when
the name has text. When a price bound is given, it appends ` and` if the name predicate was
appended, and then the price predicate. With neither filter, the statement is the plain select.

The project is organised as follows:

- `wrappers.dfy`: `Option` and `Result`.
- `text.dfy`: Java's whitespace test, Spring's `hasText`, and substring containment.
- `domain.dfy`: `Item` is a class, because save sets its id in place. `ItemValue` is its value as
  compared by equality. `ItemSearchCond` and `ItemUpdateDto` are values.
- `search_sql.dfy`:
  - `BuildSearchSql` is the imperative builder, with its `andFlag`.
  - `Render` is the declarative description of the text it builds.
  - `ParseSearchSql` reads the text back into the predicates it contains.
- `item_table.dfy`: `Table` is a class. It holds the `item` table as a sequence of rows and a
  monotonic `nextId` counter. Its four statements are insert with generated key, update by id,
  select by id and search select. This file also defines the semantic predicate `Matches`, the
  rows a search promises.
- `repository_v2.dfy` and `repository_v3.dfy`: the two repositories, each a class over a `Table`.
- `repository_test.dfy`: the repository test's scenarios as client methods. Their assertions follow
  from the repository contracts alone.

Nullable Java values are `Option`. Java exceptions are `Err` values:
- a null dereference, or `Map.of` with a null value, gives `NullPointer`;
- a generated-key insert without a key gives `DataIntegrityViolation`;
- a single-row query that finds several rows gives `IncorrectResultSize`.

The store's capacity to return generated keys is the table's constant `returnsGeneratedKeys`.

The name of the id field differs between files:
- `Item` in `src/main/java/hello/itemservice/domain/Item.java:13` declares its id field as `key`.
- Both repositories and the test call `setId`/`getId`: `JdbcTemplateItemRepositoryV2.java:64`,
  `JdbcTemplateItemRepositoryV3.java:58` and `ItemRepositoryTest.java:48,57`.
- The select returns an `id` column (V2:93, V2:118), which the bean row mapper (V2:147) can only
  map onto a property named `id`; it matches columns to properties by name.

The model follows the repositories and the test: the field is `id`. With the field named `key`,
the calls to `setId`/`getId` would not resolve.

The name filter is modelled as plain substring containment, `Text.Contains`. This is what
`like concat('%', :itemName, '%')` means for a name without `%` or `_` under a case-sensitive
collation.

## Model

Paths are relative to the repository root. V2 is
`src/main/java/hello/itemservice/repository/jdbctemplate/JdbcTemplateItemRepositoryV2.java` and V3
the same directory's `JdbcTemplateItemRepositoryV3.java`.

| member | source | states |
|---|---|---|
| Domain.SameValue | src/main/java/hello/itemservice/domain/Item.java:10 | Item.Value is the equality Lombok generates: two items are equal iff id, name, price and quantity all are |
| Domain.Item.constructor | src/main/java/hello/itemservice/domain/Item.java:22-26 | a new item has the given name, price and quantity and no id yet |
| Text.IsWhitespace | src/main/java/hello/itemservice/repository/jdbctemplate/JdbcTemplateItemRepositoryV2.java:120 | Java's whitespace test as `hasText` applies it: space, tab, newline and carriage return are whitespace; the non-breaking spaces U+00A0, U+2007 and U+202F are not, and neither are letters or digits |
| Text.HasText | src/main/java/hello/itemservice/repository/jdbctemplate/JdbcTemplateItemRepositoryV2.java:120-124 | a name with text is not null and not empty; a non-empty name whose last character is not whitespace has text |
| Text.Contains | src/main/java/hello/itemservice/repository/jdbctemplate/JdbcTemplateItemRepositoryV2.java:125 | the `like concat('%', :itemName, '%')` match: an occurrence is never longer than the name, and a prefix always occurs |
| Text.HasTextExactly | src/main/java/hello/itemservice/repository/jdbctemplate/JdbcTemplateItemRepositoryV2.java:120-124 | a null name has no text; an all-whitespace name (Java whitespace) has no text; a name whose first character is not whitespace has text |
| Text.HasTextExamples | src/test/java/hello/itemservice/domain/ItemRepositoryTest.java:81-86 | "itemA" and "temA" have text, the empty string and a whitespace-only string do not |
| Text.ContainsItemA | src/test/java/hello/itemservice/domain/ItemRepositoryTest.java:85 | "itemA" occurs in "itemA-1" and "itemA-2" and not in "itemB-1" |
| Text.ContainsTemA | src/test/java/hello/itemservice/domain/ItemRepositoryTest.java:86 | "temA" occurs in "itemA-1" and "itemA-2" (not as a prefix) and not in "itemB-1" |
| Text.ContainsItemB | src/test/java/hello/itemservice/domain/ItemRepositoryTest.java:87 | "itemB" occurs in "itemB-1" only |
| SearchSql.BuildSearchSql | src/main/java/hello/itemservice/repository/jdbctemplate/JdbcTemplateItemRepositoryV2.java:118-134 | the text built step by step with the and-flag is the select followed by exactly the active predicates, and parsing it back yields exactly those predicates in order |
| SearchSql.LeadingClause | src/main/java/hello/itemservice/repository/jdbctemplate/JdbcTemplateItemRepositoryV2.java:125-133 | a recognised predicate's text is a prefix of what was read |
| SearchSql.ConjunctionRoundTrip | src/main/java/hello/itemservice/repository/jdbctemplate/JdbcTemplateItemRepositoryV2.java:129-133 | predicates joined by " and" parse back to the same non-empty list |
| SearchSql.RenderRoundTrip | src/main/java/hello/itemservice/repository/jdbctemplate/JdbcTemplateItemRepositoryV2.java:118-134 | every statement the builder can render parses back to its predicate list: " where" appears exactly when a predicate follows, " and" exactly between two predicates |
| SearchSql.RenderInjective | src/main/java/hello/itemservice/repository/jdbctemplate/JdbcTemplateItemRepositoryV2.java:118-134 | two different predicate lists never render the same statement |
| SearchSql.SearchSqlShape | src/main/java/hello/itemservice/repository/jdbctemplate/JdbcTemplateItemRepositoryV2.java:118-122 | the statement always starts with the base select; it is exactly the base select iff no filter is active; otherwise " where" follows the base select |
| SearchSql.Clauses | src/main/java/hello/itemservice/repository/jdbctemplate/JdbcTemplateItemRepositoryV2.java:120-134 | the name predicate is present iff the name has text, the price predicate iff a bound is given, both means name first then price, none iff no filter |
| SearchSql.Render | src/main/java/hello/itemservice/repository/jdbctemplate/JdbcTemplateItemRepositoryV2.java:118-122 | the statement always starts with the base select, and is exactly the base select iff there is no predicate |
| SearchSql.ParseSearchSql | src/main/java/hello/itemservice/repository/jdbctemplate/JdbcTemplateItemRepositoryV2.java:118-134 | whatever the store reads as a search statement starts with the base select; it reads no predicate iff the text is exactly the base select; otherwise " where" follows the base select |
| SearchSql.ParameterInClauseText | src/main/java/hello/itemservice/repository/jdbctemplate/JdbcTemplateItemRepositoryV2.java:125-133 | each predicate's text carries the placeholder of the parameter it binds: `:itemName` in the name predicate, `:maxPrice` in the price predicate |
| SearchSql.PlaceholdersInStatement | src/main/java/hello/itemservice/repository/jdbctemplate/JdbcTemplateItemRepositoryV2.java:118-134 | every predicate of the built statement has its placeholder in the statement text: `:itemName` when the name has text, `:maxPrice` when a bound is given |
| SearchSql.SearchSqlTexts | src/main/java/hello/itemservice/repository/jdbctemplate/JdbcTemplateItemRepositoryV3.java:112-128 | the four possible statements, written out exactly, one per combination of active filters |
| SearchSql.BlankNameIsAbsent | src/main/java/hello/itemservice/repository/jdbctemplate/JdbcTemplateItemRepositoryV3.java:114-121 | a name without text builds the same statement as a null name |
| ItemTable.Matches | src/main/java/hello/itemservice/repository/jdbctemplate/JdbcTemplateItemRepositoryV2.java:120-134 | with no active filter every row matches (the search promise, related to the built predicates by PredicatesMeanMatches) |
| ItemTable.Holds | src/main/java/hello/itemservice/repository/jdbctemplate/JdbcTemplateItemRepositoryV2.java:137 | the price predicate never holds with a NULL bound, since comparing with NULL is unknown; a NULL name takes the `'%%'` reading and holds on every row; with a name bound, the name predicate holds iff the row's name contains it |
| ItemTable.ToItems | src/main/java/hello/itemservice/repository/jdbctemplate/JdbcTemplateItemRepositoryV2.java:146-148 | the row mapper yields one item per row in row order, each carrying its row's id, and distinct rows never map to equal items |
| ItemTable.UpdateById | src/main/java/hello/itemservice/repository/jdbctemplate/JdbcTemplateItemRepositoryV2.java:75 | the update keeps the number of rows (ids kept and target rewritten: UpdateKeepsIds, UpdateThenLookup) |
| ItemTable.Filter | src/main/java/hello/itemservice/repository/jdbctemplate/JdbcTemplateItemRepositoryV2.java:137 | a selection never returns more rows than the table holds |
| ItemTable.FilterMembers | src/main/java/hello/itemservice/repository/jdbctemplate/JdbcTemplateItemRepositoryV2.java:137 | a row is in the result iff it is in the table and the WHERE clause selects it |
| ItemTable.FilterKeepsOrder | src/main/java/hello/itemservice/repository/jdbctemplate/JdbcTemplateItemRepositoryV2.java:137 | a selection from a table with increasing ids has increasing ids |
| ItemTable.OrderedRowsDetermined | src/test/java/hello/itemservice/domain/ItemRepositoryTest.java:97-101 | two id-ordered row lists with the same members are equal, so an exact, ordered expectation is well defined |
| ItemTable.FilterAgrees | src/main/java/hello/itemservice/repository/jdbctemplate/JdbcTemplateItemRepositoryV2.java:137 | two WHERE clauses that agree on every row select the same rows |
| ItemTable.Lookup | src/main/java/hello/itemservice/repository/jdbctemplate/JdbcTemplateItemRepositoryV2.java:92-101 | a found row is in the table with that id; nothing found means no row has the id |
| ItemTable.Table.constructor | src/test/java/hello/itemservice/domain/ItemRepositoryTest.java:18-25 | the fresh embedded store each test starts from: an empty, valid table; that its identity column starts at 1 is this model's assumption about the store, not something the repositories decide |
| ItemTable.Table.Insert | src/main/java/hello/itemservice/repository/jdbctemplate/JdbcTemplateItemRepositoryV2.java:58-63 | the row is appended with the next id; the counter advances; the key is returned iff the store returns generated keys; ids stay increasing |
| ItemTable.Table.UpdateWhereId | src/main/java/hello/itemservice/repository/jdbctemplate/JdbcTemplateItemRepositoryV2.java:75-82 | every row with that id gets the new fields; the count is the number of selected rows; the counter is unchanged and ids stay increasing |
| ItemTable.Table.SelectWhereId | src/main/java/hello/itemservice/repository/jdbctemplate/JdbcTemplateItemRepositoryV2.java:93-97 | the result is the rows whose id equals the parameter |
| ItemTable.Table.Query | src/main/java/hello/itemservice/repository/jdbctemplate/JdbcTemplateItemRepositoryV2.java:137 | a statement that does not parse is a grammar error; otherwise the result is the rows satisfying all its predicates with the condition's properties bound |
| ItemTable.PredicatesMeanMatches | src/main/java/hello/itemservice/repository/jdbctemplate/JdbcTemplateItemRepositoryV2.java:120-134 | a row satisfies the built predicates iff it matches the condition |
| ItemTable.SearchSelectsMatches | src/main/java/hello/itemservice/repository/jdbctemplate/JdbcTemplateItemRepositoryV2.java:112-137 | the built statement selects exactly the matching rows, in table order |
| ItemTable.SearchResultExact | src/main/java/hello/itemservice/repository/jdbctemplate/JdbcTemplateItemRepositoryV3.java:106-131 | the search result holds exactly the matching rows, in increasing id order, and is the only such list |
| ItemTable.NoFilterReturnsAll | src/test/java/hello/itemservice/domain/ItemRepositoryTest.java:81-82 | with no name text and no price bound, the search returns the whole table |
| ItemTable.UniqueIdSelectsAtMostOne | src/main/java/hello/itemservice/repository/jdbctemplate/JdbcTemplateItemRepositoryV2.java:96-97 | in a table with increasing ids, selecting by id finds at most one row, so the single-row query never fails on size |
| ItemTable.LookupIsFirstSelected | src/main/java/hello/itemservice/repository/jdbctemplate/JdbcTemplateItemRepositoryV2.java:92-101 | the lookup is empty iff the select by id finds nothing, and is otherwise its first row |
| ItemTable.InsertThenLookup | src/test/java/hello/itemservice/domain/ItemRepositoryTest.java:41-49 | a row appended with an id larger than every existing id is found by that id |
| ItemTable.InsertKeepsLookups | src/main/java/hello/itemservice/repository/jdbctemplate/JdbcTemplateItemRepositoryV2.java:57-65 | inserting a row does not change the lookup of any other id |
| ItemTable.UpdateKeepsIds | src/main/java/hello/itemservice/repository/jdbctemplate/JdbcTemplateItemRepositoryV2.java:75 | an update keeps the number of rows and every row's id |
| ItemTable.UpdateThenLookup | src/test/java/hello/itemservice/domain/ItemRepositoryTest.java:53-67 | after an update by id, the lookup of that id shows the new name, price and quantity with the same id, or stays empty |
| ItemTable.UpdateKeepsOtherRows | src/main/java/hello/itemservice/repository/jdbctemplate/JdbcTemplateItemRepositoryV2.java:75-82 | an update does not change the lookup of any other id |
| ItemTable.UpdateMissingIsNoOp | src/main/java/hello/itemservice/repository/jdbctemplate/JdbcTemplateItemRepositoryV2.java:75-82 | an update whose id selects no row, a null id included, leaves the table unchanged |
| RepositoryV2.JdbcTemplateItemRepositoryV2.constructor | src/main/java/hello/itemservice/repository/jdbctemplate/JdbcTemplateItemRepositoryV2.java:46-48 | the repository works on the given store |
| RepositoryV2.JdbcTemplateItemRepositoryV2.Save | src/main/java/hello/itemservice/repository/jdbctemplate/JdbcTemplateItemRepositoryV2.java:57-66 | the row is appended with the next id; with a generated key the same item is returned with that id set; without one the call fails with a null dereference after the insert and the item keeps its id |
| RepositoryV2.JdbcTemplateItemRepositoryV2.Update | src/main/java/hello/itemservice/repository/jdbctemplate/JdbcTemplateItemRepositoryV2.java:74-83 | the table becomes the update of the old table by that id, and the id counter is unchanged |
| RepositoryV2.JdbcTemplateItemRepositoryV2.FindById | src/main/java/hello/itemservice/repository/jdbctemplate/JdbcTemplateItemRepositoryV2.java:92-102 | a null id fails with a null dereference; otherwise the item with that id or empty; more than one row fails with the actual row count |
| RepositoryV2.JdbcTemplateItemRepositoryV2.FindAll | src/main/java/hello/itemservice/repository/jdbctemplate/JdbcTemplateItemRepositoryV2.java:112-138 | the result is exactly the items whose rows match the condition, in table order |
| RepositoryV3.JdbcTemplateItemRepositoryV3.constructor | src/main/java/hello/itemservice/repository/jdbctemplate/JdbcTemplateItemRepositoryV3.java:41-46 | the repository works on the given store |
| RepositoryV3.JdbcTemplateItemRepositoryV3.Save | src/main/java/hello/itemservice/repository/jdbctemplate/JdbcTemplateItemRepositoryV3.java:55-60 | the row is appended with the next id; with a generated key the same item is returned with that id set; without one the insert reports a data-integrity violation and the item keeps its id |
| RepositoryV3.JdbcTemplateItemRepositoryV3.Update | src/main/java/hello/itemservice/repository/jdbctemplate/JdbcTemplateItemRepositoryV3.java:68-77 | the table becomes the update of the old table by that id, and the id counter is unchanged |
| RepositoryV3.JdbcTemplateItemRepositoryV3.FindById | src/main/java/hello/itemservice/repository/jdbctemplate/JdbcTemplateItemRepositoryV3.java:86-96 | a null id fails with a null dereference; otherwise the item with that id or empty; more than one row fails with the actual row count |
| RepositoryV3.JdbcTemplateItemRepositoryV3.FindAll | src/main/java/hello/itemservice/repository/jdbctemplate/JdbcTemplateItemRepositoryV3.java:106-132 | the result is exactly the items whose rows match the condition, in table order |
| RepositoryTest.SaveThenFind | src/test/java/hello/itemservice/domain/ItemRepositoryTest.java:40-50 | on any valid store that returns keys, save returns the same item with the next id set, and findById of that id returns an item equal to it |
| RepositoryTest.UpdateThenFind | src/test/java/hello/itemservice/domain/ItemRepositoryTest.java:52-68 | on any valid store that returns keys, after save and update by the new id, findById returns the new name, price and quantity under that id |
| RepositoryTest.SaveThenFindById | src/test/java/hello/itemservice/domain/ItemRepositoryTest.java:40-50 | the save scenario on a fresh store: the item is found with id 1 and its own fields |
| RepositoryTest.UpdateThenFindById | src/test/java/hello/itemservice/domain/ItemRepositoryTest.java:52-68 | the update scenario on a fresh store: id 1 is found with "item2", 20000, 20 |
| RepositoryTest.FindAllWithoutFilter | src/test/java/hello/itemservice/domain/ItemRepositoryTest.java:81-82 | a null name and an empty name without a bound both return all three saved items in save order |
| RepositoryTest.FindItemsByItemA | src/test/java/hello/itemservice/domain/ItemRepositoryTest.java:85 | findAll with "itemA" returns exactly the first two saved items |
| RepositoryTest.FindItemsByTemA | src/test/java/hello/itemservice/domain/ItemRepositoryTest.java:86 | findAll with "temA" returns exactly the first two saved items |
| RepositoryTest.FindItemsByItemB | src/test/java/hello/itemservice/domain/ItemRepositoryTest.java:87 | findAll with "itemB" returns exactly the third saved item |
| RepositoryTest.FindItemsByMaxPrice | src/test/java/hello/itemservice/domain/ItemRepositoryTest.java:90 | findAll with the bound 10000 returns exactly the first saved item |
| RepositoryTest.FindItemsByBoth | src/test/java/hello/itemservice/domain/ItemRepositoryTest.java:94 | findAll with "itemA" and the bound 10000 returns exactly the first saved item |
| RepositoryTest.SaveThree | src/test/java/hello/itemservice/domain/ItemRepositoryTest.java:73-79 | saving the three items on a fresh table stores them with ids 1, 2, 3 in save order |
| RepositoryTest.SearchByItemA | src/test/java/hello/itemservice/domain/ItemRepositoryTest.java:85 | searching "itemA" selects the first two rows |
| RepositoryTest.SearchByTemA | src/test/java/hello/itemservice/domain/ItemRepositoryTest.java:86 | searching "temA" selects the first two rows |
| RepositoryTest.SearchByItemB | src/test/java/hello/itemservice/domain/ItemRepositoryTest.java:87 | searching "itemB" selects the third row only |
| RepositoryTest.SearchByMaxPrice | src/test/java/hello/itemservice/domain/ItemRepositoryTest.java:90 | a bound of 10000 selects the first row only, since the bound is inclusive |
| RepositoryTest.SearchByBoth | src/test/java/hello/itemservice/domain/ItemRepositoryTest.java:94 | "itemA" with a bound of 10000 selects the first row only |

## Left out

- The row mapper's reflection is left out. The mapper is the fixed function `ToItem`, column by column.
- The LIKE pattern language is left out: `%` and `_` inside the name filter, escape characters,
  collations, case-insensitive comparison and trailing-space rules. The name filter is substring
  containment.
- Null item names, prices and quantities in `Item` and `ItemUpdateDto` are left out. The model
  takes them as values, and the insert and update bind them as given.
- Integer widths are left out. `Long` ids, `Integer` prices and quantities, and identity-column
  exhaustion are unbounded integers.
- Search results carry no ORDER BY. The model returns rows in insertion order, which is
  increasing id order; a real store may return them in any order.
- The search statement's logging is left out (output only).
- Transactions, rollback after a test, connection handling and concurrency between callers are
  left out. Every call is atomic on one table.
- The generated-key insert helper reads table metadata at first use. This is left out: the
  helper is modelled as the same insert as version 2's statement.
- Other store failures are left out: connection loss, constraint violations, a key holder with
  several keys. Only the failures listed above are modelled, plus `BadSqlGrammar`, which the
  table's query raises for a statement it cannot read; the built search statement never causes it.
- Null arguments to the repository methods are left out: a null `Item` to save, a null
  `ItemUpdateDto` to update and a null `ItemSearchCond` to findAll. Each fails before the store
  is touched. A null `Item` fails an argument assertion when its bean parameter source is built
  (an IllegalArgumentException, V2:60 and V3:56). A null update object or search condition fails
  with a null dereference on its first getter (V2:78, V2:113, V3:72, V3:107). The model's types
  are values and cannot be null. A null id is modelled.
- ItemTable.Holds: for a NULL name the model takes the `'%%'` reading, so a NULL name holds on
  every row. H2, the test's embedded store, reads it this way. MySQL's `concat` gives NULL there
  and would select nothing; that reading is not modelled. The search never binds a NULL name,
  because it emits the name predicate only when the name has text (V2:124-125).
- SearchSql.PlaceholdersInStatement: states that each active predicate's placeholder occurs in
  the statement text, not that an inactive predicate's placeholder is absent from it. The
  absence holds at the predicate level through RenderRoundTrip and SearchSql.Clauses.
- Each object that a search or lookup returns is a fresh `Item` in the source. Here it is an
  `ItemValue`, and only its field values are modelled.
- The memory repository and the repository interface are not part of this model.
