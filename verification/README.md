# Financial dashboard core, modelled in Dafny

This project models the core of a personal-finance API: the four services and the repositories below them.

- **Transaction summary.** For one user and a period (by default the current month), the summary gives:
  - the totals of income, expenses and investments;
  - the net cashflow and the savings rate;
  - the expenses grouped by category, with each group's share of the expenses;
  - the number of transactions.
- **Category merge.** Every transaction of a source category moves to a target category, and then the source is deleted, all or nothing.
- **Bulk tag creation.** A list of names is normalised, the user's existing tags are looked up, and the missing ones are inserted, all or nothing.
- **User registration and updates.** Registration fills in default values; an update changes the active flag or the password.
- **User validation hooks.** The after-hooks of the user create and update requests enforce the admin/manager hierarchy.

The repositories are modelled under the same rules:
- The finders of every repository are modelled with the query scopes they chain.
- The tag/transaction pivot is modelled with attach and detach.

## How the model is organised

- Tables: `BaseRepository.Repository<F>` is a class holding `rows` (key and attributes) and an auto-increment counter `nextId`. `Create`, `Update`, `Delete` and `UpdateWhere` (a mass `where(...)->update(...)`) change it in place.
- Reads: queries are pure functions over `rows`. A finder's contract is `Selects(r, rows, p)`: the result holds exactly the rows of the table that satisfy the conjunction of its `where` clauses and scopes.
- Services: the services are stateless wrappers, so each operation is a module-level method that takes the repositories it touches.
- Money: amounts are integer cents, matching the `decimal:2` cast.
- Dates: `Date(year, month, day)`, compared chronologically.
- The current day is a parameter `today`.
- Password hashing is a parameter `hash`.
- An exception inside a database transaction is a parameter:
  - `storeError` for the merge;
  - `failAt`, the position of the insert that throws, for the bulk tag creation.

## Model

| member | source | states |
|---|---|---|
| `Entities.RoleFromValue` | app/Enums/RoleEnum.php:5-10 | a string parses to a role exactly when it is "admin", "manager" or "user", and the role's value is that string |
| `Entities.RoleValueRoundTrip` | app/Enums/RoleEnum.php:5-10 | parsing a role's stored value gives the role back |
| `Entities.DaysInMonth` | app/Services/TransactionService.php:150 | `date('t')` is 28 to 31, and February has 29 days exactly in leap years |
| `BaseRepository.Find` | app/Repositories/BaseRepository.php:82-85 | null exactly when no row has the key; otherwise a row of the table with that key, and the only one when keys are increasing |
| `BaseRepository.FindWhere` | app/Repositories/BaseRepository.php:94-97 | selects exactly the rows satisfying every condition |
| `BaseRepository.FilterSelects` | app/Repositories/BaseRepository.php:94-97 | a filter keeps exactly the rows of the table that satisfy its predicate |
| `BaseRepository.FilterIncreasing` | app/Repositories/BaseRepository.php:70-73 | removing rows keeps the keys increasing |
| `BaseRepository.FindFilter` | app/Repositories/BaseRepository.php:70-73 | after rows are removed, `find` sees a key exactly when its row was there and was kept |
| `BaseRepository.FindAppend` | app/Repositories/BaseRepository.php:46-49 | after an insert, the new key finds the new row and every other key finds what it found before |
| `BaseRepository.FindPatched` | app/Repositories/BaseRepository.php:58-62 | after an update, the key finds its patched row and every other key is unaffected |
| `BaseRepository.PatchedKeys` | app/Repositories/BaseRepository.php:58-62 | single and mass updates keep the keys and their order |
| `BaseRepository.WithoutCount` | app/Repositories/BaseRepository.php:70-73 | deleting a present key removes exactly one row |
| `BaseRepository.Repository.Create` | app/Repositories/BaseRepository.php:46-49 | appends one row under the next unused key, and keys stay increasing |
| `BaseRepository.Repository.Update` | app/Repositories/BaseRepository.php:58-62 | needs the key to exist, since the source dereferences `find`; only that row changes, by exactly the patch |
| `BaseRepository.Repository.Delete` | app/Repositories/BaseRepository.php:70-73 | needs the key to exist; removes exactly that row and the table shrinks by one |
| `BaseRepository.Repository.UpdateWhere` | app/Services/CategoryService.php:132-133 | rewrites every matching row and only those, and reports how many matched |
| `Seqs.FilterMembers` | app/Models/Transaction.php:81-84 | the rows a `where` keeps all come from the table, and every satisfying row is kept |
| `Seqs.FilterPartition` | app/Models/Category.php:99-114 | a scope and its complement split a table: the counts add up and the multisets recombine |
| `Seqs.FilterFilter` | app/Repositories/TransactionRepository.php:37-46 | chaining two scopes equals one scope on their conjunction |
| `Seqs.Unique` | app/Services/TagService.php:84 | `array_unique` returns distinct values |
| `Seqs.UniqueMembers` | app/Services/TagService.php:84 | `array_unique` keeps exactly the values of its input |
| `Seqs.UniqueOfDistinct` | app/Services/TagService.php:84 | deduplicating a list without duplicates changes nothing |
| `Seqs.UniqueFirstOccurrenceOrder` | app/Services/TransactionService.php:178-185 | grouping keys come in the order of their first occurrence |
| `CategoryModel.SystemCustomPartition` | app/Models/Category.php:99-114 | each category is either system or custom, never both |
| `TransactionModel.OneCategoryType` | app/Models/Transaction.php:108-113 | a transaction whose category exists has exactly one of the three category types |
| `TransactionModel.AttachLinks` | app/Repositories/TransactionRepository.php:128-138 | attach links every listed tag, adds one link per id, and leaves other transactions' tags alone |
| `TransactionModel.DetachLinks` | app/Repositories/TransactionRepository.php:147-157 | detach removes the listed pairs, or all pairs for null; with a list, the transaction keeps exactly its links to unlisted tags, in order; other transactions' tags are left alone |
| `TransactionModel.DetachedTagIds` | app/Repositories/TransactionRepository.php:155 | detaching a list keeps exactly the transaction's links to the tags not listed |
| `TransactionModel.DetachOneOfThree` | tests/Unit/Services/TransactionServiceTest.php:196-213 | three tags attached and the first removed: the other two remain |
| `TransactionModel.TagTransactionPivot.Attach` | app/Models/Transaction.php:68-71 | inserts one pivot row per listed id, in order |
| `TransactionModel.TagTransactionPivot.Detach` | app/Models/Transaction.php:68-71 | deletes exactly the transaction's pivot rows for the listed tags, or all of them |
| `TagModel.SearchExcludesRestaurant` | app/Models/Tag.php:76-79 | searching "o" does not match "Restaurant" |
| `TagModel.ContainsSelf` | app/Models/Tag.php:76-79 | a name matches a search for itself and for the empty string |
| `TagModel.InsertByCount` | app/Models/Tag.php:62-66 | inserting into a list sorted by descending count keeps it sorted and adds exactly that element |
| `TagModel.ByFrequency` | app/Models/Tag.php:62-66 | `byFrequency` orders by non-increasing transaction count and is a permutation of its input |
| `TransactionRepository.ScopeToUserSelects` | app/Repositories/TransactionRepository.php:41-43 | a null user adds no condition; otherwise only the user's rows stay |
| `TransactionRepository.FindTransactionsByUser` | app/Repositories/TransactionRepository.php:24-27 | exactly the user's transactions |
| `TransactionRepository.FindTransactionsBetweenDates` | app/Repositories/TransactionRepository.php:37-46 | exactly the visible transactions dated inside the period, both ends included |
| `TransactionRepository.BetweenDatesIsConjunction` | app/Repositories/TransactionRepository.php:37-46 | the chained scopes equal one filter on the conjunction, in table order |
| `TransactionRepository.FindTransactionsByCategoryType` | app/Repositories/TransactionRepository.php:55-64 | exactly the visible transactions whose category exists and has that type |
| `TransactionRepository.FindTransactionsByCategory` | app/Repositories/TransactionRepository.php:73-82 | exactly the visible transactions of that category |
| `TransactionRepository.FindTransactionsByTag` | app/Repositories/TransactionRepository.php:91-102 | exactly the visible transactions that some pivot row links to the tag, provided the tag row exists (`whereHas` joins `tags` with the pivot) |
| `TransactionRepository.DanglingLinkSelectsNothing` | app/Repositories/TransactionRepository.php:93-95 | pivot rows left behind by a deleted tag select no transaction |
| `TransactionRepository.FindRecurringTransactions` | app/Repositories/TransactionRepository.php:110-119 | exactly the visible recurring transactions |
| `TransactionRepository.AttachTags` | app/Repositories/TransactionRepository.php:128-138 | false with no change for a missing transaction; otherwise true and the tags attached |
| `TransactionRepository.DetachTags` | app/Repositories/TransactionRepository.php:147-157 | false with no change for a missing transaction; otherwise true and the tags detached |
| `CategoryRepository.FindCategoriesForUser` | app/Repositories/CategoryRepository.php:25-28 | exactly the user's own categories plus every system category |
| `CategoryRepository.FindCategoriesByType` | app/Repositories/CategoryRepository.php:37-46 | exactly the categories of that type; with a user, only the user's own or system ones |
| `CategoryRepository.FindSystemCategories` | app/Repositories/CategoryRepository.php:53-56 | exactly the system categories |
| `CategoryRepository.FindCustomCategories` | app/Repositories/CategoryRepository.php:64-73 | exactly the non-system categories; with a user, only that user's |
| `CategoryRepository.SystemAndCustomCoverAll` | app/Repositories/CategoryRepository.php:53-73 | with no user, system and custom categories split the table |
| `CategoryRepository.FindCategoriesWithTransactionCount` | app/Repositories/CategoryRepository.php:81-86 | every category visible to the user, each counted with its transactions, of every user |
| `CategoryRepository.FindCategoryWithTransactions` | app/Repositories/CategoryRepository.php:94-97 | null exactly for a missing id; otherwise the category with exactly its transactions |
| `TagRepository.FindTagsForUser` | app/Repositories/TagRepository.php:23-26 | exactly the user's tags |
| `TagRepository.FindTagsWithTransactionCount` | app/Repositories/TagRepository.php:63-68 | every tag of the user, once and in table order, each with its number of pivot rows to existing transactions |
| `TagRepository.FindTagsByFrequency` | app/Repositories/TagRepository.php:34-37 | the user's counted tags reordered by non-increasing count |
| `TagRepository.FindTagsBySearch` | app/Repositories/TagRepository.php:46-55 | exactly the tags whose name contains the search; with a user, only that user's |
| `TagRepository.FindTagsByNames` | app/Repositories/TagRepository.php:77-82 | exactly the user's tags whose name is listed |
| `UserRepository.FindUsersByRole` | app/Repositories/UserRepository.php:24-27 | exactly the users with that role |
| `UserRepository.FindUsersByManager` | app/Repositories/UserRepository.php:35-38 | exactly the users whose manager is that id |
| `UserRepository.FindActiveUsers` | app/Repositories/UserRepository.php:45-48 | exactly the active users |
| `UserRepository.FindByEmail` | app/Repositories/UserRepository.php:56-59 | null exactly when no user has the email; otherwise the first user with it |
| `TransactionService.ResolvePeriod` | app/Services/TransactionService.php:147-151 | both dates when both are given; otherwise the first to the last day of today's month, a valid period containing today |
| `TransactionService.TotalAppend` | app/Services/TransactionService.php:172-174 | `sum('amount')` is additive over concatenation |
| `TransactionService.PartitionByType` | app/Services/TransactionService.php:156-174 | when every category resolves, each transaction falls in exactly one of the three filters: the counts and the totals add up |
| `TransactionService.CategoryIds` | app/Services/TransactionService.php:178 | lists the `category_id` of every transaction, in order |
| `TransactionService.GroupEntriesAt` | app/Services/TransactionService.php:179-185 | each group holds its category's name, the total of its transactions and a percentage of 0 |
| `TransactionService.GroupTotals` | app/Services/TransactionService.php:178-185 | the groups' amounts add up to the total of the grouped transactions |
| `TransactionService.ExpenseGroups` | app/Services/TransactionService.php:178-185 | one group per distinct category id, in first-occurrence order, covering every expense, with the right names and totals, adding up to the expenses' total |
| `TransactionService.WithPercentages` | app/Services/TransactionService.php:188-192 | keeps one entry per group |
| `TransactionService.PercentagesSumTo100` | app/Services/TransactionService.php:188-192 | when the amounts add up to a positive total, the percentages add up to 100 |
| `TransactionService.PercentagePass` | app/Services/TransactionService.php:188-192 | only percentages change; nothing changes without positive expenses; otherwise each percentage is the amount's share of the total times 100 |
| `TransactionService.SavingsRateMeaning` | app/Services/TransactionService.php:204 | 0 without positive income; otherwise the net cashflow as a percentage of the income |
| `TransactionService.Summarize` | app/Services/TransactionService.php:145-209 | succeeds exactly when every windowed transaction's category exists, and then is the summary of the user's transactions in the resolved period |
| `TransactionService.SummaryTotals` | app/Services/TransactionService.php:172-207 | the three totals add up to the window's total; net cashflow is income minus expenses minus investments; the count is the window's size |
| `TransactionService.SummaryExpenses` | app/Services/TransactionService.php:178-192 | the groups' amounts add up to the total expenses, with percentages of 0 when there are none and adding up to 100 otherwise |
| `TransactionService.FillPercentages` | app/Services/TransactionService.php:188-192 | the loop sets each group's percentage to its share of the total expenses |
| `TransactionService.GetTransactionSummary` | app/Services/TransactionService.php:145-209 | computes `Summarize` from the two tables |
| `TransactionService.ScenarioWindow` | tests/Unit/Services/TransactionServiceTest.php:217-258 | the test's four transactions all fall in January 2025 |
| `TransactionService.SummaryScenario` | tests/Unit/Services/TransactionServiceTest.php:217-266 | the test's expected figures: income 1000, expenses 500, investments 100, net 400, savings rate 40, four transactions, one group |
| `TransactionService.ScenarioSummarize` | tests/Unit/Services/TransactionServiceTest.php:254-258 | the test's summary call succeeds with that summary |
| `TransactionService.AddTagsToTransaction` | app/Services/TransactionService.php:104-115 | not-found for a missing transaction, with no change; otherwise true and one pivot row per listed tag |
| `TransactionService.RemoveTagsFromTransaction` | app/Services/TransactionService.php:124-135 | not-found for a missing transaction, with no change; otherwise true and the listed tags, or all tags, detached |
| `CategoryService.MovedTarget` | app/Services/CategoryService.php:132-133 | after the mass update the target holds its own and the source's transactions, by count and by sum, and the source holds none |
| `CategoryService.MovedOthers` | app/Services/CategoryService.php:132-133 | other categories keep exactly their transactions, and no transaction outside the source changes |
| `CategoryService.SourceDeleted` | app/Services/CategoryService.php:136 | after the delete the source is gone and every other category is found as before |
| `CategoryService.MergeCategories` | app/Services/CategoryService.php:113-143 | true exactly when both categories exist, the source is not a system category and nothing throws; then transactions are moved and the source deleted; otherwise nothing changes |
| `TagService.TrimStart` | app/Services/TagService.php:83 | strips exactly the leading whitespace |
| `TagService.TrimEnd` | app/Services/TagService.php:83 | strips exactly the trailing whitespace |
| `TagService.Trim` | app/Services/TagService.php:83 | the result neither starts nor ends with whitespace |
| `TagService.TrimCuts` | app/Services/TagService.php:83 | the result is the name with a whitespace prefix and a whitespace suffix cut off |
| `TagService.TrimIdempotent` | app/Services/TagService.php:83 | trimming twice is trimming once |
| `TagService.TrimBlank` | app/Services/TagService.php:83 | a whitespace-only name trims to the empty string |
| `TagService.TrimUntouched` | app/Services/TagService.php:83 | a name without surrounding whitespace trims to itself |
| `TagService.TrimAll` | app/Services/TagService.php:83 | trims every name, in place |
| `TagService.NormalisedNamesMeaning` | app/Services/TagService.php:83-85 | the normalised names are distinct, trimmed and truthy, and they are exactly the truthy trimmed inputs |
| `TagService.ExistingTagsSelects` | app/Services/TagService.php:88-91 | the lookup finds exactly the user's tags whose name is listed |
| `TagService.TagNames` | app/Services/TagService.php:93 | `pluck('name')` keeps each row's name, in order |
| `TagService.ExistingNamesMeaning` | app/Services/TagService.php:88-93 | a listed name is among the existing names exactly when the user owns a tag with it |
| `TagService.NewTagNamesMeaning` | app/Services/TagService.php:96 | the names to create are distinct and are exactly the normalised names the user owns no tag under |
| `TagService.Created` | app/Services/TagService.php:105-110 | one row per new name, under consecutive keys, owned by the user |
| `TagService.InsertTags` | app/Services/TagService.php:98-120 | the loop inserts one tag per name, in order; if an insert throws, the table is rolled back and nothing is created |
| `TagService.CreateMultipleTags` | app/Services/TagService.php:78-121 | the existing tags followed by the created ones; or empty with the table unchanged when an insert throws |
| `TagService.SecondCallCreatesNothing` | app/Services/TagService.php:88-96 | after a successful call, the same names leave nothing to create |
| `TagService.BlankNamesTrimmed` | tests/Unit/Services/TagServiceTest.php:150-163 | the test's names trim to themselves and blanks |
| `TagService.BlankNamesDeduplicated` | tests/Unit/Services/TagServiceTest.php:150-163 | the two blanks collapse into one |
| `TagService.BlankNamesFiltered` | tests/Unit/Services/TagServiceTest.php:150-163 | the empty name is dropped |
| `TagService.BlankNamesDropped` | tests/Unit/Services/TagServiceTest.php:150-163 | the empty and blank names are dropped and two names remain |
| `TagService.RepeatedNamesNormalised` | tests/Unit/Services/TagServiceTest.php:123-148 | the repeated name is kept once, at its first position |
| `TagService.ExistingTagFound` | tests/Unit/Services/TagServiceTest.php:127-133 | the existing tag is found by the lookup |
| `TagService.ExistingAndRepeatedNames` | tests/Unit/Services/TagServiceTest.php:123-148 | one existing tag plus two to create: three tags answered, three owned afterwards |
| `UserService.PrepareUserData` | app/Services/UserService.php:80-91 | the password is hashed when present; a given manager id wins over the input's; `is_active` defaults to true and `role` to user; given values are kept |
| `UserService.RegisterUser` | app/Services/UserService.php:77-94 | inserts the prepared record as a new row: hashed or absent password, the given manager over the input's, `is_active` true and role user by default |
| `UserService.UpdateUserStatus` | app/Services/UserService.php:103-106 | only the user's `is_active` changes |
| `UserService.ChangePassword` | app/Services/UserService.php:115-120 | only the user's password changes, to the hash of the new one |
| `UserService.StatusToggleRestores` | tests/Unit/Services/UserServiceTest.php:128-145 | deactivating and then reactivating an active user gives back the table as it was |
| `StoreUserRequest.RoleRule` | app/Http/Requests/User/StoreUserRequest.php:31 | no error exactly when the role is present and is a role value; at most one error, on `role` |
| `StoreUserRequest.AfterErrors` | app/Http/Requests/User/StoreUserRequest.php:40-60 | the admin error exactly when an admin is given a manager; the role error exactly when a manager creates a non-user; no other errors |
| `StoreUserRequest.BothErrorsReported` | app/Http/Requests/User/StoreUserRequest.php:42-59 | both checks run and both errors are reported together |
| `StoreUserRequest.NonManagerUnrestricted` | app/Http/Requests/User/StoreUserRequest.php:52-58 | an actor who is not a manager may create any role |
| `UpdateUserRequest.AfterErrors` | app/Http/Requests/User/UpdateUserRequest.php:43-67 | each of the three errors (own manager, admin with a manager, manager under a manager) is reported exactly when its condition holds, all on `manager_id`, and no others |
| `UpdateUserRequest.NoManagerNoErrors` | app/Http/Requests/User/UpdateUserRequest.php:47-60 | an absent or null manager raises no error |
| `UpdateUserRequest.ManagerUnderAdmin` | app/Http/Requests/User/UpdateUserRequest.php:60-65 | a manager may be placed under an admin |

## Left out

- HTTP controllers, routes, authentication and authorisation policies are not part of this model. The same goes for `all`/`paginate` and the pass-through methods of the base service. The declarative validation rules are left out too (unique email, password strength, `exists:users,id`), except the role rule.
- The clock: `date('Y-m-01')`/`date('Y-m-t')` read the server's day, which here is the parameter `today`.
- Hashing: `Hash::make` is the parameter `hash`, and `Hash::check` is not modelled.
- Logging is not modelled. Database isolation under concurrent requests is not modelled either.
- An exception inside a transaction is modelled only through the parameters `storeError` and `failAt`.
- Rollback also restores the auto-increment counter in the model. Some database engines keep the keys consumed by a rolled-back insert.
- Rounding:
  - Percentages and the savings rate are exact reals. The source applies `round(..., 2)`.
  - Summed floating-point amounts are modelled as exact cents.
- `TransactionService.Summarize`: the source dereferences each transaction's category and fails when it is missing. The model returns `Err(MissingCategory)` for that case instead of an exception.
- `TagModel.Search`: `like '%search%'` is modelled as case-sensitive substring containment, without `%` or `_` wildcards in the search string. The effective case-sensitivity depends on the database collation.
- `TagService.ExistingTags`: the condition `['name', 'in', $tagNames]` is read as a membership test, which is the meaning the service's test relies on. How the query builder treats an `in` operator inside a `where` array is framework behaviour and is not part of this model.
- `searchTags` in app/Services/TagService.php:55-58 calls a repository method that does not exist. The model covers the existing `findTagsBySearch` (app/Repositories/TagRepository.php:46-55).
- `UpdateUserRequest.AfterErrors`: the own-manager check uses PHP's strict `===`. A `manager_id` submitted as a numeric string would never equal the integer id. The model takes the input as an integer.
- The `tag_transaction` pivot's own id and timestamps are not modelled.
- `TransactionModel.TagIdsOf` lists the pivot rows of a transaction, so `AttachLinks` and `DetachLinks` speak of pivot rows. Reading `$transaction->tags` also joins with `tags`, which hides pivot rows whose tag was deleted (the pivot has no foreign keys); that join is modelled only in `FindTransactionsByTag`.
- Records hold only their mass-assignable attributes, without timestamps.
- `CategoryService.MergeCategories` does not reject a source equal to the target; only the merge request does. With equal ids, the model keeps the transactions in place and deletes the category, as the service would. The counting lemma `MovedTarget` assumes the ids differ.
- `createMultipleTags` looks up the existing tags before `DB::beginTransaction()` (app/Services/TagService.php:88-99), so only the inserts are undone on a failure; the model does the same.
- `array_filter` also drops the name "0" as falsy (app/Services/TagService.php:85), and so does `TagService.NormalisedNames`.
