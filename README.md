# Federated search gateway: deterministic core

This project models the sequential logic of a small federated-search HTTP
gateway written in Rust (actix-web). Three pieces are modelled:

- **Federated search** (`src/federated_search.rs`). Two stub providers, Google
  and Amazon, each return two result lines built from the query. The search
  puts one task per provider in a vector, waits for all tasks with `join_all`,
  and flattens the per-task lists into one list. The scheduler appears in the
  model only as the order in which the tasks finish: a parameter of
  `FederatedSearch.PerformFederatedSearch`. The model proves that the merged
  list is Google's lines followed by Amazon's, whatever that order is.
- **Credential check** (`src/middleware/auth.rs`). `Auth.ValidateBasicAuth`
  takes a user name and an optional password. A missing password counts as
  the empty string. The check accepts exactly the stored pair
  `"user"`/`"password"`. Anything else gets the 401 error "Invalid credentials".
- **Mock simple search** (`src/search_service.rs`). A service with no fields
  whose `search` returns three lines, "Result 1/2/3 for '<query>'".

All three files are pure, so the model uses datatypes, functions and lemmas.
The result lines come from Rust `format!` calls. Module `Results` renders them
as string concatenation (`Render`). It also defines their inverse, `Parse`. The
round trip `Parse(Render(h)) == Some(h)` is the specification every search
function is stated against: line `k` of a result parses back to (source,
rank `k + 1`, query).

The crate's `src/main.rs` declares only the modules `middleware`, `routes` and
`services`. So `src/federated_search.rs` and `src/search_service.rs` are not
part of the compiled crate. They look like copies of `services` modules that
are not part of this model. They are modelled as written.

Files: `wrappers.dfy` (Option, Result), `results.dfy` (line format and its
parser), `federated_search.dfy`, `auth.dfy`, `search_service.dfy`.

## Model

| member | source | states |
|---|---|---|
| Results.ParseRender | src/federated_search.rs:13-14 | a line built as `<source>Result <n> for '<q>'` parses back to exactly its source, rank and query |
| Results.RenderInjective | src/federated_search.rs:25-26 | two result lines are equal if and only if they have the same source, rank and query |
| Results.ParseSound | src/federated_search.rs:13-14 | a line that parses is exactly the rendering of what it parses to, so the parser accepts nothing but result lines |
| Results.ParseIff | src/search_service.rs:21-23 | a line parses to a given hit if and only if it is that hit's rendering |
| Results.RenderContainsQuery | src/search_service.rs:21-23 | every result line contains the query, unchanged, as a piece of its text |
| FederatedSearch.SearchGoogle | src/federated_search.rs:8-16 | exactly two lines; line k parses to (Google, rank k+1, query) |
| FederatedSearch.GoogleLines | src/federated_search.rs:12-15 | the Google list is exactly ["Google Result 1 for '" + q + "'", "Google Result 2 for '" + q + "'"] |
| FederatedSearch.SearchAmazon | src/federated_search.rs:20-28 | exactly two lines; line k parses to (Amazon, rank k+1, query) |
| FederatedSearch.AmazonLines | src/federated_search.rs:24-27 | the Amazon list is exactly ["Amazon Result 1 for '" + q + "'", "Amazon Result 2 for '" + q + "'"] |
| FederatedSearch.SearchTasks | src/federated_search.rs:38-41 | one task output per provider; every line of task i names provider i of the task vector (Google, Amazon) and carries the same unchanged query |
| FederatedSearch.Complete | src/federated_search.rs:44 | after tasks finish in a given order, each finished task's output sits in that task's own slot; the other slots are unchanged |
| FederatedSearch.JoinAll | src/federated_search.rs:44 | when every task finishes once, in any order, the collected outputs equal the outputs in task order |
| FederatedSearch.Flatten | src/federated_search.rs:47 | the flattened length is the sum of the list lengths |
| FederatedSearch.TotalLengthAppend | src/federated_search.rs:47 | the total length of two concatenated lists of lists is the sum of their total lengths |
| FederatedSearch.FlattenAppend | src/federated_search.rs:47 | flattening distributes over concatenation of the outer list |
| FederatedSearch.FlattenAt | src/federated_search.rs:47 | item k of list i lands at position offset(i) + k: flattening keeps every list's internal order |
| FederatedSearch.OffsetsOrdered | src/federated_search.rs:47 | all items of an earlier list come before the start of every later list |
| FederatedSearch.FlattenMembers | src/federated_search.rs:47 | an item is in the flattened list if and only if it is in one of the lists |
| FederatedSearch.PerformFederatedSearch | src/federated_search.rs:32-48 | for every completion order, the result is Google's lines followed by Amazon's; its length is the sum of the provider lengths, 4 |
| FederatedSearch.OrderIndependent | src/federated_search.rs:38-44 | two different completion orders give the same merged list |
| FederatedSearch.MergeIsFlattenOfTasks | src/federated_search.rs:44-47 | the merged list is the flatten of the task outputs in task order, and its length is their total length |
| FederatedSearch.MergedLine | src/federated_search.rs:38-47 | merged line k is (Google, rank k+1) for k < 2 and (Amazon, rank k-1) otherwise, always for the given query |
| FederatedSearch.GoogleBeforeAmazon | src/federated_search.rs:38-44 | every Google line comes before every Amazon line, although Amazon's stub waits longer |
| FederatedSearch.RanksAscendWithinProvider | src/federated_search.rs:47 | within one provider, the line at the earlier position has the lower rank |
| FederatedSearch.MergedLinesCarryQuery | src/federated_search.rs:39-40 | every merged line carries the query unchanged and contains it as text |
| FederatedSearch.QueriesDoNotMix | src/federated_search.rs:38-47 | searches for two different queries share no line |
| Auth.EffectivePassword | src/middleware/auth.rs:13 | the password compared against the store equals "password" exactly when the request carried the password "password" (an absent one never does) |
| Auth.MissingPasswordIsEmpty | src/middleware/auth.rs:13 | validating with no password gives the same outcome as validating with the empty password, for every user name |
| Auth.ValidateBasicAuth | src/middleware/auth.rs:10-23 | Ok if and only if the user name is "user" and the password is present and equal to "password"; every rejection is the 401 error "Invalid credentials" |
| Auth.MissingPasswordRejected | src/middleware/auth.rs:13-16 | a request with no password is rejected, whatever the user name |
| Auth.OtherUserRejected | src/middleware/auth.rs:16-21 | any user name other than "user" gets the 401 "Invalid credentials" error, whatever the password |
| Auth.StoredPairAccepted | src/middleware/auth.rs:6-7 | the stored pair "user"/"password" is accepted |
| Auth.TwoOutcomes | src/middleware/auth.rs:16-22 | the outcome is Ok or the one 401 error; there is no third outcome |
| Auth.UniqueAcceptedPair | src/middleware/auth.rs:16 | any two accepted credential pairs are equal: exactly one pair is accepted |
| SimpleSearch.SearchService.Search | src/search_service.rs:18-25 | exactly three lines; line k parses to (mock, rank k+1, query), so "Result 1/2/3 for '<q>'" in ascending order |
| SimpleSearch.SearchLines | src/search_service.rs:20-24 | the mock list is exactly ["Result 1 for '" + q + "'", "Result 2 for '" + q + "'", "Result 3 for '" + q + "'"] |
| SimpleSearch.SearchLinesContainQuery | src/search_service.rs:21-23 | every mock line contains the query unchanged |
| SimpleSearch.SearchDependsOnlyOnQuery | src/search_service.rs:5-14 | the result depends on the query alone: any service value, including the one `new` builds, answers the same |
| SimpleSearch.SearchLinesAreMockOnly | src/search_service.rs:20-24 | the three mock lines are pairwise distinct, and none of them starts with a provider prefix ("Google " / "Amazon ") |

`SimpleSearch.SearchService.New` (src/search_service.rs:10-14) is modelled by a
function with no contract. The service has no fields, so there is only one
value it could return. Likewise `Wrappers.Option.UnwrapOr` models Rust's
`unwrap_or` (src/middleware/auth.rs:13) with no contract of its own; what the
validator does with a missing password is stated by `Auth.EffectivePassword`,
`Auth.MissingPasswordIsEmpty` and `Auth.ValidateBasicAuth`.

## Left out

- The simulated network delays (`sleep` of 100 ms and 150 ms) and the `join_all`
  scheduling: these concern timing only. The model keeps only the order in which
  the tasks finish, as a parameter, and proves it irrelevant to the result.
- The `println!` log lines of each provider: output to the console.
- HTTP routing, JSON request and response types, and the OpenAPI/Swagger
  documentation (`src/routes/`): transport glue over actix, serde and utoipa.
- Server start-up, middleware wiring and binding to 127.0.0.1:8080
  (`src/main.rs`): I/O and framework glue.
- The `services::search_service` facade (`src/services/search_service.rs`): it
  only delegates to `services::federated_search` and `services::tantivy_search`,
  which are not part of this model.
- The `BasicAuth` header extractor (`user_id()`, `password()`): library code.
  The model takes the user name and the optional password as inputs.
- Deadlines, failures and query validation: the code has no shared deadline,
  no per-provider timeouts, no provider failures, no empty-query check and no
  "all providers failed" error. Its stub providers cannot fail, and an empty
  query is passed through like any other, so the model has none of these either.
- Rust strings are UTF-8 byte strings; the model treats them as sequences of
  characters, which does not change any comparison or concatenation here.
