# Voting backend: a Dafny model

This project models the decision logic of a small voting service
(`server.js`, an Express application over a MongoDB `votes` collection).
Each voter is identified by a twelve-digit Aadhar number, and the
collection has a unique index on that number, so the store is a map from
Aadhar number to party.

- `POST /check-aadhar` says whether a number is malformed, has already
  voted, or may vote.
- `POST /vote` checks for missing fields, then the format, then whether the
  number is already in the store. Only when all three checks pass does it
  save the record.
- `GET /counts` groups the records by party, counts each group and sorts
  the groups by count, largest first.

The project has three modules:

- `Validation` (`validation.dfy`): JavaScript truthiness of a request
  field, the pattern `^\d+$` matched one character at a time, and the
  Aadhar test that both handlers use.
- `Aggregate` (`aggregate.dfy`): the group, count and sort pipeline.
  `IsTallyOf` is the specification. Ties between equal counts may appear
  in any order, and the predicate allows every such order. `Tally` is one
  result that meets it. The lemmas show that counts are positive and that
  they add up to the number of records.
- `Server` (`server.dfy`): the reply datatype with the service's exact
  statuses and messages, and the class `VoteStore`. Its field `votes` is
  the collection. `CheckAadhar` only reads it; `Vote` may add one record;
  `Counts` is the aggregate over it. The class invariant `Valid` says that
  every stored record has a valid Aadhar number and a non-empty party;
  `Counts` uses it to show that no row of the tally names an empty party.
  `Vote` also keeps `Keeps(old(votes), votes)`: no existing record is ever
  changed or removed. The file ends with the concrete request sequences
  the service is meant to handle.

A fault of the database (the `catch` blocks that reply 500) is a boolean
parameter of the handler that would meet it: `lookupFails` for `findOne`,
`saveFails` for `save`, `aggregateFails` for `aggregate`. A faulting
step writes nothing.

JavaScript's `.length` counts UTF-16 code units, while a Dafny `string`
counts characters. This cannot change the result of the Aadhar test:
that test also requires every character to be an ASCII digit, and each
ASCII digit is one code unit.

Every exception from `save`, a duplicate-key error included, becomes the
500 "Server error" reply (server.js:65-67). The model follows this. In the sequential model the
lookup at server.js:55 always sees every earlier record, so the insert
never violates the index. `saveFails` therefore stands only for an
external fault.

## Model

| member | source | states |
|---|---|---|
| `Validation.MatchesDigitsIff` | server.js:26 | `^\d+$` (with `\d` as ASCII 0-9) accepts a string exactly when it is non-empty and every character is a digit |
| `Validation.ValidAadharIff` | server.js:50 | the handlers' test (truthy, length 12, matches `^\d+$`) holds exactly for present strings of twelve ASCII digits; the emptiness test adds nothing beyond the length test |
| `Server.VoteStore.constructor` | server.js:15-20 | a new store holds no records and satisfies the store invariant |
| `Server.VoteStore.CheckAadhar` | server.js:23-40 | a malformed or missing number gives 400 "Invalid Aadhar number" whatever the store holds; for a valid number, a lookup fault gives 500; otherwise the reply is 400 "already used" exactly when a record exists and 200 "Aadhar number is valid" exactly when none does; the store is never modified |
| `Server.VoteStore.Vote` | server.js:43-68 | a missing or empty field gives 400 "Aadhar number and party are required", taking precedence over the format check; a present but malformed number gives 400 "must be 12 digits"; a lookup fault gives 500; an existing number gives 400 "already used" and leaves its record untouched; otherwise a save fault gives 500 and the success path adds exactly the record aadhar to party; the store changes exactly when the reply is "Vote recorded successfully", grows by at most one record, keeps every earlier record unchanged and keeps the invariant |
| `Server.VoteStore.Counts` | server.js:71-82 | an aggregate fault gives 500 "Server error"; otherwise the reply is 200 with rows that form a permitted tally of the current records; on a store that keeps its invariant, no row names the empty party |
| `Aggregate.Tally` | server.js:73-76 | the pipeline result is a permitted tally: parties distinct, exactly the parties present, each with its record count, sorted by count non-increasing |
| `Aggregate.MaxParty` | server.js:75 | the party chosen for the head of the sorted rows has a count at least as large as every other group's count |
| `Aggregate.SortByCountSpec` | server.js:75 | sorting the group map by descending count lists every party exactly once, with its count, in non-increasing count order |
| `Aggregate.CountsPositive` | server.js:74 | every row of a grouping has a count of at least 1 |
| `Aggregate.GroupingSum` | server.js:74 | the counts of any grouping add up to the number of stored records |
| `Aggregate.RowsPerParty` | server.js:74 | a grouping has exactly as many rows as there are distinct parties in the store |
| `Aggregate.CountAfterInsert` | server.js:61-62 | saving a record for a new Aadhar number raises its party's count by one and leaves every other party's count unchanged |
| `Server.VoteTwice` | server.js:55-62 | two votes under one Aadhar number never both record; the store grows by at most one record; if the first one records, its party stays and the second gets "already used", or 400 "required" or 500 by the earlier checks |
| `Server.RevoteScenario` | server.js:43-68 | on an empty store, for any valid Aadhar number: a vote for A is recorded; voting again under that number for B gives "already used"; the store then holds only that number, for A |
| `Server.MalformedScenario` | server.js:26-48 | checking "12345" gives "Invalid Aadhar number"; voting without a party gives the missing-field reply, even for a well-formed number |
| `Server.TallyOfTwoToOne` | server.js:73-76 | with records for three distinct numbers, two for A and one for B, the only permitted tally is A:2 followed by B:1 |
| `Server.TallyScenario` | server.js:71-78 | starting from an empty store, three votes under distinct valid numbers, two for A and one for B, each get "Vote recorded successfully"; the store then holds exactly those three records; every permitted `/counts` result is then A:2 followed by B:1 |

## Left out

- Express setup, body parsing, CORS, the port taken from the environment and `app.listen` (server.js:1-10, 83) are transport wiring.
- The MongoDB connection and the Mongoose schema and model runtime (server.js:13-20) are not modelled as a library. The store is the map `VoteStore.votes`. The schema's unique index is what makes it a map. Its `required` flags are reflected in the invariant `Valid`.
- Concurrency: the model is sequential. Two requests could both pass the lookup at server.js:55 before either saves, and the unique index would then fail the second save with a 500. The model does not capture that race.
- Non-string JSON values for `aadhar` or `party`, such as numbers whose `.length` is undefined, are not modelled. Fields are `Option<string>`, with `None` for a missing or `null` field.
- JSON serialisation of replies is not modelled. A reply is a `Response` value that carries the status and the message, or the rows.
- Database faults are not modelled by their cause. A fault is a boolean parameter of the handler that meets it, and it only selects the 500 reply.
- The tie order of `/counts` is not fixed. `Aggregate.Tally` is a ghost function that makes one arbitrary choice among tied counts. Any tie order that `$sort` may produce satisfies `IsTallyOf`, and every lemma about the counts result is stated over `IsTallyOf`.
