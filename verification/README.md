# Masking-level classification of PostgreSQL queries, and the member store

This project models two parts of Bytebase in Dafny.

**The masking-level classifier.** `GetMaskedFields(statement, defaultDatabase, schemaInfo)` takes a query and a catalog in which every column carries a masking level, `NONE < PARTIAL < FULL`. For each output column of the query it returns the column's name and the level that data reaching that column must be masked at.

The model covers the classifier's behaviour:
- Column references resolve through stacked FROM scopes. The innermost scope with a candidate decides, and a correlated subquery reads its enclosing block's columns.
- Literals are `NONE`.
- Function calls and operators take the maximum level of every column they reference. A single function call is named by its lower-cased function name. Other unaliased compound expressions are named `?column?`.
- An alias renames but keeps the level.
- Joins:
  - ON and comma joins concatenate both sides.
  - NATURAL and USING joins merge the shared columns, then list each side's remaining columns.
- Set operations take names from the left branch and the position-wise maximum level.
- CTEs:
  - Non-recursive CTEs bind their body's fields, optionally renamed by position.
  - Nested `WITH` blocks shadow by scope.
  - A recursive CTE is solved to a fixpoint. Its member is classified against the current binding, and the result is raised position-wise until nothing changes.
  - The fixpoint loop terminates because every effective round raises at least one level, and levels are bounded by `FULL`.
  - The result is the least binding above the anchor that one more round leaves unchanged. This holds because raising a binding's levels never lowers any level computed from it.

The engine's own Go implementation is not part of this model. Its behaviour is pinned by the fixture table in `backend/plugin/parser/pg/masking_test.go`: a catalog with one table `public.t(a FULL, b NONE, c NONE, d PARTIAL)` and 23 statements with their expected field lists. The model works over a small hand-built query AST instead of SQL text. Each fixture statement is written as a value of that AST, and one lemma per fixture proves that the model returns exactly the expected list.

**The member store** (`frontend/src/store/modules/member.ts`) is the frontend's list of project members:
- lookup by the principal a member stands for, with placeholder members for the empty id and for "not found";
- replacing the first member with a given id;
- appending;
- deleting by id as a filter.

Files:
- `masking_level.dfy`: the level lattice.
- `fields.dfy`: field lists, renaming, position-wise merging, and the fixpoint's termination measure.
- `catalog.dfy`: the catalog and table lookup.
- `syntax.dfy`: the query AST.
- `scopes.dfy`: FROM scopes, column resolution and the CTE environment.
- `joins.dfy`: join column lists.
- `classifier.dfy`: the classifier.
- `classifier_laws.dfy`: general laws about the classifier.
- `classifier_monotone.dfy`: monotonicity of the classifier in the levels it reads, and leastness of the recursive-CTE fixpoint.
- `fixture_support.dfy`, `fixtures.dfy`, `join_fixtures.dfy`, `expression_fixtures.dfy`, `recursive_fixtures.dfy`: the fixture table.
- `seqs.dfy`: `findIndex`, `find` and `filter`.
- `member_store.dfy`: the member store.
- `wrappers.dfy`: `Option` and `Result`.

## Model

| member | source | states |
|---|---|---|
| MaskingLevels.Combine | backend/plugin/parser/pg/masking_test.go:251-273 | Combining two levels gives one of them, and it is at least each of them: the stricter level wins. |
| MaskingLevels.CombineLaws | backend/plugin/parser/pg/masking_test.go:251-296 | Combining is commutative, associative and idempotent, has `NONE` as identity and `FULL` as absorbing element, and is the least upper bound. |
| MaskingLevels.MaxLevel | backend/plugin/parser/pg/masking_test.go:435-461 | The maximum of a list of levels is at least every element and is one of them; for no levels it is `NONE`. |
| MaskingLevels.MaxLevelAppend | backend/plugin/parser/pg/masking_test.go:435-461 | The maximum over two concatenated lists is the combination of the two maxima. |
| Catalog.TableFields | backend/plugin/parser/pg/masking_test.go:17-51 | A table's fields are its columns in declaration order, with each column's name and masking level. |
| Catalog.TableCandidatesSound | backend/plugin/parser/pg/masking_test.go:297-307 | Every candidate for an unqualified table name is a table of that name in a schema of the database, paired with that schema's name. |
| Catalog.TableCandidatesEmpty | backend/plugin/parser/pg/masking_test.go:297-307 | There is no candidate exactly when no schema holds a table of that name. |
| Catalog.ResolveTable | backend/plugin/parser/pg/masking_test.go:297-307 | A resolved table has the requested name and is a table of a schema of the default database. With an explicit schema it lies in that schema; without one there is exactly one candidate for the name. |
| Catalog.TableCandidatesSingle | backend/plugin/parser/pg/masking_test.go:297-307 | There is exactly one candidate for an unqualified name exactly when exactly one schema of the database holds a table of that name. |
| Catalog.UnqualifiedResolution | backend/plugin/parser/pg/masking_test.go:297-307 | An unqualified table name resolves exactly when the default database exists and exactly one of its schemas holds a table of that name, and it then resolves to that schema and its table. |
| Fields.Rename | backend/plugin/parser/pg/masking_test.go:148-170 | A column-name list renames by position. It succeeds exactly when it has no more names than there are fields, keeps every level and the width, and leaves fields past the list with their own names. |
| Fields.RenameToOwnNames | backend/plugin/parser/pg/masking_test.go:148-170 | Renaming a field list to its own names changes nothing. |
| Fields.MergeBranches | backend/plugin/parser/pg/masking_test.go:251-273 | Two set-operation branches merge exactly when they have the same width; names come from the left branch and each level is the position-wise combination. |
| Fields.MergeSelf | backend/plugin/parser/pg/masking_test.go:274-296 | Merging a branch with itself gives the branch back. |
| Fields.MergeLevelsCommute | backend/plugin/parser/pg/masking_test.go:251-273 | The merged levels do not depend on the order of the branches. |
| Fields.MergeAssociative | backend/plugin/parser/pg/masking_test.go:171-193 | Raising by position is associative, so a chain of set operations merges the same whichever way it is grouped. |
| Fields.Upper | backend/plugin/parser/pg/masking_test.go:88-117 | One fixpoint step keeps the binding's names and width and raises each level to its combination with the round's level at that position. |
| Fields.UpperAbsorbs | backend/plugin/parser/pg/masking_test.go:88-117 | Raising twice by the same round is raising once. |
| Fields.UpperIsAbove | backend/plugin/parser/pg/masking_test.go:88-117 | A fixpoint step never lowers a level. |
| Fields.RenameUpper | backend/plugin/parser/pg/masking_test.go:88-117 | Renaming by a CTE's column list commutes with raising levels. |
| Fields.UpperLowersPotential | backend/plugin/parser/pg/masking_test.go:88-147 | A fixpoint step never raises the room left below `FULL`, and lowers it strictly whenever the step changes anything: the loop terminates. |
| Scopes.LookupName | backend/plugin/parser/pg/masking_test.go:323-361 | A found name stands for a field of exactly that name and level in the list. |
| Scopes.LookupNameMeaning | backend/plugin/parser/pg/masking_test.go:323-361 | A name lookup in a column list is Missing exactly when no column has the name, Found only when exactly one has it, and Ambiguous only when two do. |
| Scopes.LookupAppend | backend/plugin/parser/pg/masking_test.go:118-147 | In a joined column list, a name absent from one side is looked up in the other side alone. |
| Scopes.LookupCte | backend/plugin/parser/pg/masking_test.go:217-227 | A CTE name is unbound exactly when no binding has it; otherwise the last, innermost, binding of it is used. |
| Scopes.MatchingRanges | backend/plugin/parser/pg/masking_test.go:323-361 | The ranges a qualifier designates are exactly the scope's ranges that carry that table name (and schema, when given). |
| Scopes.ResolveInScopeMeaning | backend/plugin/parser/pg/masking_test.go:308-322 | One scope has a candidate for an unqualified name exactly when it has a column of that name, and for a qualified one exactly when a range is designated by the qualifier; a resolved level belongs to a column of that name, in the designated range when qualified. |
| Scopes.ResolveColumnInnermost | backend/plugin/parser/pg/masking_test.go:308-322 | A column reference is decided by the innermost scope that has a candidate for it, whatever the scopes outside it hold. |
| Scopes.ResolveColumnUnplaced | backend/plugin/parser/pg/masking_test.go:308-322 | A column reference that no scope of the stack has a candidate for is an error. |
| Joins.Without | backend/plugin/parser/pg/masking_test.go:385-419 | Removing the USING columns keeps exactly the fields whose names are not listed, each in its original order and as often as before. |
| Joins.CommonNames | backend/plugin/parser/pg/masking_test.go:362-384 | The columns a NATURAL join merges are exactly the left side's names that the right side also has, in left order. |
| Joins.MergedColumns | backend/plugin/parser/pg/masking_test.go:385-419 | A successful merge has exactly one column per listed name. |
| Joins.MergedColumnsMeaning | backend/plugin/parser/pg/masking_test.go:385-419 | The merged USING columns exist exactly when each listed name is found once on each side; the `i`-th merged column carries the `i`-th name at the stricter of its two sides' levels. |
| Joins.UsingJoin | backend/plugin/parser/pg/masking_test.go:385-419 | A USING join's columns are the merged columns, then the left side's remaining fields, then the right side's; the names must be distinct. |
| Joins.UsingJoinWidth | backend/plugin/parser/pg/masking_test.go:385-419 | A USING join's width is the number of names plus both sides' remaining widths. |
| Joins.JoinColumns | backend/plugin/parser/pg/masking_test.go:323-361 | A join with ON has both sides' fields, left first, duplicates kept. |
| Joins.NaturalSelfJoin | backend/plugin/parser/pg/masking_test.go:362-384 | A NATURAL join of a column list with distinct names with itself yields one copy of it. |
| Classifier.LowerAscii | backend/plugin/parser/pg/masking_test.go:435-461 | Lower-casing keeps the length and lower-cases each ASCII capital, leaving every other character as it is. |
| Classifier.RecursiveFixpoint | backend/plugin/parser/pg/masking_test.go:58-147 | A recursive CTE's fixpoint keeps the start's names and width and never lowers a level of it. |
| Classifier.GetMaskedFields | backend/plugin/parser/pg/masking_test.go:560-565 | A statement that is not a query, EXPLAIN included, yields no fields. |
| ClassifierLaws.TargetsCompose | backend/plugin/parser/pg/masking_test.go:508-530 | A select list's fields are the concatenation of its items' fields, in order. |
| ClassifierLaws.FromListCompose | backend/plugin/parser/pg/masking_test.go:118-147 | A FROM list's scope merges its items' scopes left to right. |
| ClassifierLaws.ArgsCompose | backend/plugin/parser/pg/masking_test.go:435-461 | The level of a call's arguments is the maximum of the arguments' levels. |
| ClassifierLaws.WildcardLaw | backend/plugin/parser/pg/masking_test.go:531-553 | `*` over a single catalog table yields that table's columns in declaration order, names and levels unchanged, whatever its alias. |
| ClassifierLaws.SelfSetOp | backend/plugin/parser/pg/masking_test.go:274-296 | A set operation of a query with itself classifies as the query alone. |
| ClassifierLaws.LimitIgnored | backend/plugin/parser/pg/masking_test.go:462-484 | A trailing LIMIT changes nothing. |
| ClassifierLaws.StarFromCte | backend/plugin/parser/pg/masking_test.go:228-250 | `*` over a CTE yields the CTE's bound fields. |
| ClassifierLaws.CtePassThrough | backend/plugin/parser/pg/masking_test.go:194-216 | `WITH n(cols) AS (b) SELECT * FROM n` is `b` renamed by position by `cols`, and fails exactly when `b` or the renaming fails. |
| ClassifierLaws.DerivedPassThrough | backend/plugin/parser/pg/masking_test.go:462-484 | `*` over a derived table is its subquery's fields renamed by the table's column list. |
| ClassifierLaws.CommaIsCrossJoin | backend/plugin/parser/pg/masking_test.go:118-147 | A comma-separated FROM list of two items builds the same scope as their join with ON. |
| ClassifierLaws.QualifiedRefsAgree | backend/plugin/parser/pg/masking_test.go:508-530 | `t.c` and `public.t.c` designate the same column as `c`. |
| ClassifierLaws.OuterReference | backend/plugin/parser/pg/masking_test.go:308-322 | A reference the inner scope cannot place resolves exactly as in the enclosing scopes. |
| ClassifierLaws.AliasKeepsLevel | backend/plugin/parser/pg/masking_test.go:508-530 | An alias replaces the name and keeps the level; without an alias the expression's own name is used. |
| ClassifierLaws.DefaultNaming | backend/plugin/parser/pg/masking_test.go:435-461 | A column is named by its column, a call by its lower-cased function name, a literal or operator by `?column?`; a literal is `NONE`. |
| ClassifierLaws.ExprLevelIsMaxOfRefs | backend/plugin/parser/pg/masking_test.go:435-461 | A subquery-free expression classifies exactly when all of its column references resolve, and its level is the maximum of theirs. |
| ClassifierLaws.ArgsLevelIsMaxOfRefs | backend/plugin/parser/pg/masking_test.go:435-461 | The same law for the remaining arguments of a call or operator. |
| ClassifierLaws.ResolveRefsAppend | backend/plugin/parser/pg/masking_test.go:435-461 | Resolving two lists of references one after the other is resolving their concatenation. |
| ClassifierLaws.FixpointIsStable | backend/plugin/parser/pg/masking_test.go:88-117 | The recursive-CTE result is a fixpoint: one more round of the member over it raises no level. |
| ClassifierLaws.FixpointOfIndependentMember | backend/plugin/parser/pg/masking_test.go:58-87 | A member that does not depend on the binding yields, after one round, the position-wise maximum of the start list and the member's fields. |
| ClassifierMonotone.ClassifyQueryMono | backend/plugin/parser/pg/masking_test.go:58-147 | Raising the levels of CTE bindings and of enclosing scopes, names unchanged, never lowers a query's result level, never changes its names, and keeps success and failure as they were. |
| ClassifierMonotone.BindCteMono | backend/plugin/parser/pg/masking_test.go:58-250 | The same for the fields a CTE binds, recursive or not. |
| ClassifierMonotone.ResolveFromItemMono | backend/plugin/parser/pg/masking_test.go:118-147 | The same for the scope a FROM item builds: its ranges and columns keep their names and never lose strictness. |
| ClassifierMonotone.ResolveFromListMono | backend/plugin/parser/pg/masking_test.go:118-147 | The same for a whole FROM list. |
| ClassifierMonotone.ClassifyTargetMono | backend/plugin/parser/pg/masking_test.go:508-553 | The same for a select-list item, `*` included. |
| ClassifierMonotone.ClassifyExprMono | backend/plugin/parser/pg/masking_test.go:435-461 | The same for an expression's field. |
| ClassifierMonotone.ResolveColumnMono | backend/plugin/parser/pg/masking_test.go:308-322 | Raising the levels of a scope stack never lowers a column reference's level and keeps whether it resolves. |
| ClassifierMonotone.JoinColumnsMono | backend/plugin/parser/pg/masking_test.go:323-419 | Raising the levels of either join side never lowers a joined column's level and keeps the joined names and whether the join succeeds. |
| ClassifierMonotone.FixpointSucceeds | backend/plugin/parser/pg/masking_test.go:58-147 | The fixpoint succeeds exactly when the member's first round over the start succeeds with the start's width. |
| ClassifierMonotone.FixpointMono | backend/plugin/parser/pg/masking_test.go:58-147 | A fixpoint from a lower start, in lower bindings and scopes, succeeds exactly when the higher one does and is position-wise below it. |
| ClassifierMonotone.FixpointBounded | backend/plugin/parser/pg/masking_test.go:88-117 | Every binding above the start that one more round leaves unchanged bounds the fixpoint from that start from above. |
| ClassifierMonotone.FixpointIsLeast | backend/plugin/parser/pg/masking_test.go:88-117 | The recursive-CTE result is the least binding above the anchor that one more round of the member leaves unchanged. Together with `FixpointIsStable`, this determines the result. |
| ClassifierMonotone.RaisingBindingRaisesResult | backend/plugin/parser/pg/masking_test.go:88-147 | Raising the levels of one CTE binding never lowers the level of any column of a query that reads it. |
| MaskingFixtures.Star | backend/plugin/parser/pg/masking_test.go:531-553 | `select * from t` yields a FULL, b NONE, c NONE, d PARTIAL. |
| MaskingFixtures.FieldName | backend/plugin/parser/pg/masking_test.go:508-530 | `select a, t.b, public.t.c, d as d1 from t` yields a FULL, b NONE, c NONE, d1 PARTIAL. |
| MaskingFixtures.CteFixture | backend/plugin/parser/pg/masking_test.go:228-250 | `with t1 as (select * from t) select * from t1` yields `t`'s four fields. |
| MaskingFixtures.RenameT | backend/plugin/parser/pg/masking_test.go:148-170 | Renaming `t`'s fields to `d, c, b, a` gives d FULL, c NONE, b NONE, a PARTIAL. |
| MaskingFixtures.CteRename | backend/plugin/parser/pg/masking_test.go:148-170 | `with t1(d, c, b, a) as (select * from t) select * from t1` yields d FULL, c NONE, b NONE, a PARTIAL. |
| MaskingFixtures.CteReference | backend/plugin/parser/pg/masking_test.go:194-216 | A CTE reading an earlier CTE passes `t`'s fields through. |
| MaskingFixtures.CteUnion | backend/plugin/parser/pg/masking_test.go:171-193 | The UNION ALL of two CTEs over `t` yields `t`'s fields. |
| MaskingFixtures.UnionSelf | backend/plugin/parser/pg/masking_test.go:274-296 | `select * from t UNION ALL select * from t` yields `t`'s fields. |
| MaskingFixtures.SubqueryLimit | backend/plugin/parser/pg/masking_test.go:462-484 | `select * from (select * from t) result LIMIT 100000` yields `t`'s fields. |
| MaskingFixtures.NoFrom | backend/plugin/parser/pg/masking_test.go:554-559 | `select 1` against an empty catalog yields one field `?column?` at NONE. |
| MaskingFixtures.ExplainYieldsNothing | backend/plugin/parser/pg/masking_test.go:560-565 | `explain select 1` yields no fields. |
| JoinFixtures.JoinOn | backend/plugin/parser/pg/masking_test.go:323-361 | `t as t1 join t as t2 on t1.a = t2.a` yields `t`'s fields twice, left first. |
| JoinFixtures.NaturalJoin | backend/plugin/parser/pg/masking_test.go:362-384 | `t as t1 natural join t as t2` yields `t`'s fields once. |
| JoinFixtures.JoinUsing | backend/plugin/parser/pg/masking_test.go:385-419 | `t as t1 join t as t2 using(a)` yields a FULL, then b, c, d of the left, then b, c, d of the right. |
| ExpressionFixtures.Literals | backend/plugin/parser/pg/masking_test.go:251-273 | `select 1 as c1, 2 as c2, 3 as c3, 4` yields c1, c2, c3 and `?column?`, all NONE. |
| ExpressionFixtures.UnionWithLiterals | backend/plugin/parser/pg/masking_test.go:251-273 | That select UNION ALL `select * from t` yields c1 FULL, c2 NONE, c3 NONE, `?column?` PARTIAL. |
| ExpressionFixtures.ExplicitSchema | backend/plugin/parser/pg/masking_test.go:297-307 | `select concat(public.t.a, public.t.b, public.t.c) from t` yields one field `concat` at FULL. |
| ExpressionFixtures.CorrelatedInnerFields | backend/plugin/parser/pg/masking_test.go:308-322 | The correlated subquery `select max(b) > y.a from t as x` reads `y.a` from the enclosing block and is FULL. |
| ExpressionFixtures.CorrelatedSubquery | backend/plugin/parser/pg/masking_test.go:308-322 | `select a, (select max(b) > y.a from t as x) from t as y` yields a FULL and `?column?` FULL. |
| ExpressionFixtures.UncorrelatedSubquery | backend/plugin/parser/pg/masking_test.go:420-434 | `select t.a, (select max(a) from t) from t as t1 join t on t.a = t1.b` yields a FULL and max FULL. |
| ExpressionFixtures.Functions | backend/plugin/parser/pg/masking_test.go:435-461 | `select max(a), a-b as c1, a=b as c2, a>b, b in (a, c, d) from (select * from t) result` yields max, c1, c2, `?column?`, `?column?`, all FULL. |
| ExpressionFixtures.SubSelect | backend/plugin/parser/pg/masking_test.go:485-507 | A LIMITed `*` over the derived `select a, t.b, public.t.c, d as d1 from public.t` yields a FULL, b NONE, c NONE, d1 PARTIAL. |
| ExpressionFixtures.NestedCte | backend/plugin/parser/pg/masking_test.go:217-227 | An outer `tt2` bound to a block with its own inner `tt2` yields that block's single field max FULL. |
| RecursiveFixtures.PlainFixpoint | backend/plugin/parser/pg/masking_test.go:58-87 | The member `select a, b, d, c from t` raises the literal anchor to c1 FULL, c2 NONE, c3 PARTIAL, n NONE, where it stays. |
| RecursiveFixtures.RecursiveWithoutSelfReference | backend/plugin/parser/pg/masking_test.go:58-87 | A RECURSIVE CTE whose member never reads it yields the anchor's names with the position-wise maximum levels: c1 FULL, c2 NONE, c3 PARTIAL, n NONE. |
| RecursiveFixtures.ClosureRound | backend/plugin/parser/pg/masking_test.go:88-117 | One round of `cc1 * cc2, cc2 + cc1, cc3 * cc2, n + 1` over any binding gives, position by position, the stricter of each product's two factors, and `n`'s level for `n + 1`. |
| RecursiveFixtures.ClosureRounds | backend/plugin/parser/pg/masking_test.go:88-117 | FULL spreads from `cc1` to `cc2` in the first round and on to `cc3` only in the second, after which the binding is stable. |
| RecursiveFixtures.ClosureNeedsSecondRound | backend/plugin/parser/pg/masking_test.go:88-117 | After the first round `cc3` is still NONE, while the fixpoint makes it FULL: a single pass is not enough. |
| RecursiveFixtures.RecursiveClosure | backend/plugin/parser/pg/masking_test.go:88-117 | The dependent-closure CTE yields cc1 FULL, cc2 FULL, cc3 FULL, n NONE. |
| RecursiveFixtures.JoinedRound | backend/plugin/parser/pg/masking_test.go:118-147 | One round of `c1 * a, c2 * b, c3 * d, n + 1 from t1, t` raises each column to the level of its partner column of `t`. |
| RecursiveFixtures.JoinedFixpoint | backend/plugin/parser/pg/masking_test.go:118-147 | From the literal anchor the joined member raises the binding to c1 FULL, c2 NONE, c3 PARTIAL, n NONE in one round, and a second round changes nothing. |
| RecursiveFixtures.RecursiveCte | backend/plugin/parser/pg/masking_test.go:118-147 | The recursive CTE joined with `t` yields c1 FULL, c2 NONE, c3 PARTIAL, n NONE. |
| Seqs.FirstIndex | frontend/src/store/modules/member.ts:131-133 | `findIndex` gives the first index whose element satisfies the test, and nothing exactly when no element does. |
| Seqs.Find | frontend/src/store/modules/member.ts:53-56 | `find` gives the element at the first satisfying index, and nothing exactly when no element satisfies the test. |
| Seqs.Filter | frontend/src/store/modules/member.ts:113-115 | `filter` keeps exactly the satisfying elements, each as often as in the input. |
| Seqs.FilterAppend | frontend/src/store/modules/member.ts:113-115 | Filtering distributes over concatenation, so relative order is kept. |
| Seqs.FilterIdempotent | frontend/src/store/modules/member.ts:113-115 | Filtering twice by the same test is filtering once. |
| MemberStore.InitialState | frontend/src/store/modules/member.ts:38-40 | The store starts with an empty member list. |
| MemberStore.MemberByPrincipalId | frontend/src/store/modules/member.ts:46-57 | The placeholder id gives the empty member before any search. Otherwise the result is the first member standing for the principal, or the unknown member when none does. |
| MemberStore.LookupAfterAppend | frontend/src/store/modules/member.ts:46-57 | After an append, a principal that already had a member still finds the earlier one; otherwise it finds the new member if that stands for it, else the unknown member. |
| MemberStore.SetMemberList | frontend/src/store/modules/member.ts:122-124 | Setting the list makes the state hold exactly that list. |
| MemberStore.AppendMember | frontend/src/store/modules/member.ts:126-128 | Appending grows the list by one, keeps the existing prefix and puts the new member last. |
| MemberStore.ReplaceMemberInList | frontend/src/store/modules/member.ts:130-137 | Only the first member with the updated member's id is overwritten. The length and every other position are unchanged, and with no such member the state is unchanged. |
| MemberStore.ReplaceIdempotent | frontend/src/store/modules/member.ts:130-137 | Replacing twice with the same member is replacing once. |
| MemberStore.LookupAfterReplace | frontend/src/store/modules/member.ts:130-137 | After a replacement that found its member, looking up the new member's principal finds a member standing for it. |
| MemberStore.DeleteMemberById | frontend/src/store/modules/member.ts:113-117 | Deleting by id keeps exactly the members with another id, each as often as before, and leaves none with that id. |
| MemberStore.DeleteKeepsOrder | frontend/src/store/modules/member.ts:113-115 | Deleting distributes over a split of the list, so the kept members stay in their relative order. |
| MemberStore.DeleteIdempotent | frontend/src/store/modules/member.ts:113-115 | Deleting an id twice is deleting it once. |
| MemberStore.DeleteAfterAppend | frontend/src/store/modules/member.ts:113-128 | Deleting the id of a just-appended member undoes the append's effect on the result; deleting another id keeps the new member last. |
| MemberStore.DeleteIgnoresMembersWithId | frontend/src/store/modules/member.ts:113-115 | Two lists that differ only at members with the deleted id give the same list after the delete. |
| MemberStore.DeleteAfterReplace | frontend/src/store/modules/member.ts:113-137 | Replacing a member and then deleting its id gives the same list as deleting alone. |

## Left out

- SQL parsing. The classifier reads statement text. The model takes a hand-built query AST, and each fixture statement is written as an AST value.
- The Go implementation of `GetMaskedFields` in `backend/plugin/parser/pg` is not part of this model. The model follows the behaviour that the fixture table fixes.
- WHERE, GROUP BY and ORDER BY clauses, and the `where n < 5` guards of the recursive fixtures. They add no output columns, so the fixtures' levels do not depend on them; they are dropped from the AST.
- Join kinds and ON expressions. The AST has no LEFT, RIGHT or FULL joins, only the join's form: ON (which also covers cross and comma joins), NATURAL, or USING. The form alone decides the columns.
- NATURAL and USING joins whose two sides carry different levels for a shared column. The merged column takes the stricter level. This is an assumption, because every fixture joins `t` with itself.
- A CTE that references a later CTE of the same WITH, and mutual recursion between CTEs. Each CTE sees only the ones declared before it. Under RECURSIVE, only the right arm of the CTE's top-level UNION also sees the CTE itself; see the two `Classifier.BindCte` lines below.
- Classifier.BindCte: under RECURSIVE, a self-reference that is not in the right arm of the body's top-level UNION is resolved as an ordinary table name. This covers the anchor, and a body that is not a UNION. For example, `with recursive t as (select a from t union select a from t)` reads a catalog table `t` if there is one, or fails as a missing table. The expected behaviour is an error for every self-reference in the anchor; PostgreSQL also rejects these shapes.
- Classifier.BindCte: the body `A UNION B UNION C` groups as `(A UNION B) UNION C`, so the anchor is `A UNION B` and only `C` is iterated. A self-reference in `B` is therefore handled as in the line above. The expected behaviour takes `A` as the anchor and both `B` and `C` as recursive members.
- Case folding of identifiers. The AST holds table and column names as the parser leaves them after folding, and compares them as written. Only a function's output name is lower-cased by the model.
- Error messages. The model returns a `Result` with an error for unknown or ambiguous references and for width mismatches, but no error property is claimed: the fixtures only ever expect success.
- The protobuf catalog and level types are replaced by Dafny datatypes of the same shape: database, schema, table, column with a level.
- MaskingFixtures.ExplainYieldsNothing: the fixture expects a nil list. Dafny sequences have no nil distinct from the empty list, so the model's empty list stands for it.
- The `memberList` getter (member.ts:43-45) only returns the state's list; it has no member of its own.
- MemberStore.SetMemberList: the store keeps the caller's array itself (member.ts:122-124), and `fetchMemberList` returns that same array (member.ts:67-68). A later `push` in `appendMember` (member.ts:127) or the in-place assignment in `replaceMemberInList` (member.ts:135) therefore also changes the array the caller holds. The `memberList` getter (member.ts:43-45) hands out the same array again. The model's lists are values, so this sharing is not modelled.
- MemberStore.DeleteMemberById: `convert` builds ids with `parseInt` (member.ts:31), which gives `NaN` for a non-numeric id. Such a member is never matched by `replaceMemberInList`, and `item.id != id` (member.ts:114) keeps it under every delete. The model's ids are integers, so it has no such member and `DeleteMemberById` always removes the members with that id.
- The HTTP calls in the store's actions, `convert` (`parseInt` plus an untyped attribute spread), and the Vuex wiring. A member is modelled by its id, its principal and one opaque attribute.
- `EMPTY_ID`, `empty("MEMBER")` and `unknown("MEMBER")` are defined in the frontend's types module, which is not part of this model. They are passed to the lookup as a `Sentinels` parameter.
- `bin/server/cmd/profile_dev.go` only builds constant configuration values and has no logic to model.
