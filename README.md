# Portfolio backend store, modelled in Dafny

The backend in `index.js` keeps two tables in process memory: `projects`, a list of
portfolio project records seeded with two entries, and `messages`, a log of contact-form
submissions. Six HTTP route handlers read and change them: list all projects, get one by
id, create, update (a field-by-field merge), delete, and submit a contact message.

This project models that state and those handlers:

- `wrappers.dfy`: `Option`, used for request fields that may be absent and for lookups.
- `projects.dfy` (module `Projects`): the project record, the request body, JavaScript
  truthiness of string and array fields, the `find`/`findIndex` and `filter` lookups by id,
  the record a create builds and the merge an update performs, and the seed table.
- `project_facts.dfy` (module `ProjectFacts`): lemmas about those functions.
- `parse_int.dfy` (module `ParseInt`): `parseInt` of a path id for plain decimal strings.
- `store.dfy` (module `Server`): class `PortfolioStore` with the fields `projects` and
  `messages` and one method per handler. Each method states its reply and the complete
  new state. The object invariant `Valid()` says three things. Every id is at least 1.
  Every stored project has a non-empty `imageUrl` and `liveUrl`. Every logged message has
  non-empty name, email and message.
- `scenarios.dfy` (module `Scenarios`): request sequences run on a freshly started store.

Behaviour the model states rather than hides:

- Create assigns `projects.length + 1` as the id. While the ids are still 1..n, deleting
  any record but the last makes the next create reuse an id that is still live
  (`ProjectFacts.NewIdCollidesAfterDelete`, `Scenarios.IdReuseAfterDelete`). After that,
  get and update act on the first record with the id, and delete removes all of them.
- In JavaScript an empty array is truthy. So an update carrying `technologies: []`
  replaces the list. An empty string for a text field keeps the old value
  (`ProjectFacts.MergeCannotClear`).
- In the plain decimal case that is modelled, a path id that does not start with a digit
  parses to `NaN`, modelled as `None`. It matches no record, so get, update and delete
  answer 404 and change nothing.

Later revisions of this backend change several of these behaviours. The model follows
`index.js` as it stands, which does the following:

- Ids are length-based, not one more than the maximum, so they are not unique.
- List returns insertion order. There is no sort by creation time.
- Create validates nothing. Projects carry no creation or update timestamps.
- Update replaces a list with an empty array instead of ignoring it.
- Contact checks only that the three fields are present and non-empty. It does no email
  check and no rate limiting, and it stores no origin address.

## Model

| member | source | states |
|---|---|---|
| `Projects.ShopProject` | index.js:15-22 | the first seed record has id 1 and two non-empty links |
| `Projects.TaskProject` | index.js:23-31 | the second seed record has id 2 and two non-empty links |
| `Projects.Seed` | index.js:14-32 | the initial table has two well-formed records, with ids 1 and 2 |
| `Projects.OrText` | index.js:68-69 | JavaScript `or` on strings: the result is truthy exactly when either operand is, and it is `a` when `a` is truthy, else `b` |
| `Projects.OrList` | index.js:70 | JavaScript `or` on arrays: the result is present exactly when either operand is, and it is `a` whenever `a` is present, the empty array included |
| `Projects.OrDefault` | index.js:56-57 | JavaScript `or` with a fallback gives a non-empty string: `a` when it is truthy, else the fallback |
| `Projects.FindIndex` | index.js:79 | gives the first index whose record has the id, or none, and none exactly when no record has the id |
| `Projects.Locate` | index.js:44 | the same search against a parsed id; a NaN id (None) finds nothing |
| `Projects.RemoveId` | index.js:82 | the filtered table holds no record with the id, holds only records of the input, and holds every input record with another id; their order is given by `ProjectFacts.RemoveIdConcat` |
| `Projects.NewProject` | index.js:51-58 | the new record carries the given id and the body's title, description and technologies; each link is the body's value when non-empty, else the placeholder image or `"#"`; with an id of at least 1 it is well-formed |
| `Projects.Merge` | index.js:68-72 | the id is kept; each text field takes the body's value when that is non-empty, else keeps the old one; technologies takes any array the body sends |
| `Projects.FindRecord` | index.js:44 | the record `find` returns exists exactly when some record has the id, and then it is the first stored record with that id |
| `ProjectFacts.FindRecordCons` | index.js:44 | `find` returns the first record when it has the id, and otherwise searches the rest |
| `ProjectFacts.RemoveIdConcat` | index.js:82 | filtering distributes over concatenation, so the kept records keep their relative order |
| `ProjectFacts.RemoveIdSingle` | index.js:82 | filtering one record keeps it exactly when its id differs |
| `ProjectFacts.RemoveIdAbsent` | index.js:82 | filtering an id no record has leaves the table unchanged |
| `ProjectFacts.RemoveIdOneMatch` | index.js:82 | filtering an id that exactly one record has shortens the table by one |
| `ProjectFacts.FindAfterRemoveGone` | index.js:79-82 | after a delete, the deleted id is not found |
| `ProjectFacts.FindAfterRemoveOther` | index.js:79-82 | after a delete, every other id finds the same record as before |
| `ProjectFacts.FindAfterUpdate` | index.js:65-72 | after an update, the id is found at the same index and gives the merged record |
| `ProjectFacts.MergeEmptyBody` | index.js:68-72 | an update with no fields leaves the record unchanged |
| `ProjectFacts.MergeIdempotent` | index.js:68-72 | sending the same update twice has the effect of sending it once |
| `ProjectFacts.MergeCannotClear` | index.js:68-72 | a non-empty title or description stays non-empty; an empty technologies array replaces the list; well-formedness is kept |
| `ProjectFacts.UpdatePreservesWellFormed` | index.js:68-72 | merging into one record of a well-formed table keeps the table well-formed |
| `ProjectFacts.NewIdFreshWithoutDeletes` | index.js:52 | while the ids are 1..n, the id n + 1 that create assigns is not yet in use |
| `ProjectFacts.NewIdCollidesAfterDelete` | index.js:52 | after deleting any id but the last from 1..n, the id that create assigns next is still in use |
| `ParseInt.DigitPrefixLength` | index.js:44 | gives the length of the longest prefix of decimal digits: those characters are digits and the next one is not |
| `ParseInt.ParseId` | index.js:44 | non-numeric input (empty, or not starting with a digit) is NaN, and otherwise the result is a non-negative number |
| `ParseInt.DecimalStringValue` | index.js:44 | the decimal rendering of n denotes n |
| `ParseInt.DigitPrefixOfDigits` | index.js:44 | the digit prefix of digits followed by a non-digit is exactly those digits |
| `ParseInt.LeadingZero` | index.js:44 | a leading zero does not change the number a digit string denotes |
| `ParseInt.ParseIdDigits` | index.js:44 | any non-empty run of digits, optionally followed by text starting with a non-digit, parses to the number the digits denote, zero-padded ids included |
| `ParseInt.ParseIdDecimal` | index.js:44 | an id written in decimal, optionally followed by text starting with a non-digit, parses back to that id |
| `Server.PortfolioStore.constructor` | index.js:14-34 | the store starts with the seed table and an empty message log |
| `Server.PortfolioStore.List` | index.js:38-40 | answers 200 with the table exactly as stored and changes nothing; every returned record has an id of at least 1 and two non-empty links |
| `Server.PortfolioStore.Get` | index.js:43-47 | 404 exactly when the id is NaN or no record has it; otherwise 200 with the first record that has the id, which is the record `Projects.FindRecord` gives and is well-formed; the store is not changed |
| `Server.PortfolioStore.Create` | index.js:50-61 | 201 with the new record, which gets id length + 1 and is appended after the unchanged earlier records; the log is untouched |
| `Server.PortfolioStore.Update` | index.js:64-75 | an unknown id gives 404 and no change; otherwise the first matching record is replaced by its merge with the body, every other record and the order are kept, and the merged record is returned |
| `Server.PortfolioStore.Delete` | index.js:78-84 | an unknown id gives 404 and no change; otherwise every record with the id is removed, the rest are kept in order, and the reply is the confirmation text |
| `Server.PortfolioStore.Contact` | index.js:87-95 | 400 with the log unchanged when name, email or message is missing or empty; otherwise 201, and exactly one entry with the three fields and the given time is appended |
| `Scenarios.IdReuseAfterDelete` | index.js:50-84 | from the seed, deleting id 1 and then creating gives two records with id 2; get then answers with the older one, and deleting id 2 empties the table |
| `Scenarios.CreateWithDefaults` | index.js:50-61 | from the seed, a create with only title, description and technologies answers 201 with id 3 and both default links |
| `Scenarios.ContactRefusesEmptyField` | index.js:87-95 | a submission with an empty email gets 400 and logs nothing; a complete one gets 201 and is the only entry in the log |

## Left out

- Express wiring is not modelled: the framework, CORS and body-parser setup, route
  registration, JSON serialisation of replies, and the listener with its log line. Each
  reply is the `Reply` datatype: a status and the body value.
- The clock: `new Date()` in the contact handler is the `now` argument of `Contact`.
- `parseInt` in full is not modelled: leading whitespace, a sign, a `0x` prefix, and
  float rounding of very long digit strings. The handler methods take the parsed id as
  `Option<int>`. `ParseInt.ParseId` covers the plain decimal case.
- Request bodies of other dynamic types (a number as a title, a string as technologies,
  `null`) are not modelled. Each field is a string, a list of strings, or absent.
- `PortfolioStore.Update` does not model object aliasing. JavaScript mutates the stored
  object in place. The model replaces the element at that index. No other reference to
  the object survives a request, so the two agree.
- The second seed record's `imageUrl` literal spans a line break inside a double-quoted
  string, which JavaScript rejects. The model keeps a one-line URL. Only the ids and the
  field structure of the seed matter.
