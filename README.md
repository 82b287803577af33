# Diary entry handler — a Dafny model

This project models the request handler of a small serverless diary service
(`diary_handler.py`). An authenticated user can list, create and delete their
own diary entries. The entries live in a key-value table keyed by
(UserID, EntryID). One invocation goes through these steps:

1. It reads the caller's identity, the `sub` claim that an upstream authorizer
   attached. A missing or empty claim gets 401 `Unauthorized`.
2. It routes on the HTTP method, matched exactly and case-sensitively:
   - `GET` lists the caller's partition.
   - `POST` decodes the JSON body, trims the `content` field and stores a new
     entry under a fresh id. It answers 400 `Invalid JSON` if decoding fails.
   - `DELETE` removes the entry named by the `id` path parameter. It answers
     400 `Missing entry id` if that parameter is absent or empty.
   - Any other method gets 400 `Unsupported method`.
3. Every response goes through one builder, which adds three fixed CORS headers.

Layout:

- `wrappers.dfy` (`Wrappers`) holds `Option`.
- `json.dfy` (`Json`) holds the decoded JSON value and the decoder's type,
  `string -> Option<Json>`.
- `sanitizer.dfy` (`Sanitizer`) holds `sanitize_content`. It models Python's
  `str.strip()` as a forward scan for the first non-whitespace character,
  then a backward scan for the last one, and proves the algebraic properties
  of the result.
- `entries.dfy` (`Entries`) holds the stored `Item`, the key and the
  `DiaryTable` class. The class is an in-memory table: a `map` field changed in
  place by `PutItem` and `DeleteItem` and read by `Query`.
- `responses.dfy` (`Responses`) holds `response_builder`.
- `handler.dfy` (`Handler`) holds the dispatcher in two forms:
  - `Dispatch`, a pure function from the table contents before a request to
    the response and the contents after it;
  - `LambdaHandler`, a method that does the work on a `DiaryTable` and is
    proved to agree with `Dispatch`.
- `handler_properties.dfy` (`HandlerProperties`) holds the handler's promises
  as lemmas about `Dispatch`.

Inputs the source takes from its environment become parameters:

- The fresh entry id (`uuid.uuid4()`) and the timestamp
  (`datetime.utcnow().isoformat()`) are passed in as strings.
- The JSON decoder (`json.loads`) is passed in as a function.
- The table (`boto3` / DynamoDB) is the injected `DiaryTable`.

Two behaviours come from Python truthiness tests in the code. An "absent"
value there also covers an empty string:

- An identity claim that is present but empty is refused with 401, because
  the code tests `not user_id`.
- A DELETE whose `id` is present but empty is refused with 400, because the
  code tests `not entry_id`.

## Model

| member | source | states |
|---|---|---|
| `Handler.LambdaHandler` | diary_handler.py:22-39 | running the handler on a valid table keeps it valid and yields exactly the response and table contents `Dispatch` gives for the old contents |
| `Handler.Dispatch` | diary_handler.py:22-39 | every response comes from `ResponseBuilder` with status 200, 400 or 401; a non-200 answer or a missing identity leaves the table unchanged; keys outside the caller's partition never change; key consistency is preserved |
| `Handler.GetUserId` | diary_handler.py:94-103 | an identity is found exactly when the claims object exists and has a `sub` member, and it is that member's value; a missing level yields nothing instead of an error |
| `Handler.CallerId` | diary_handler.py:26-28 | the gate accepts an identity exactly when `GetUserId` finds one and it is non-empty |
| `Handler.BodyText` | diary_handler.py:55 | the decoder sees the body when it is present and non-empty, and exactly "{}" when it is absent or empty |
| `Handler.PathId` | diary_handler.py:76 | the `id` path parameter is found exactly when the parameter object exists and holds `id`, and it is that value |
| `Handler.NewItem` | diary_handler.py:59-69 | the stored item has the caller's id, the fresh id and the timestamp; its content is `SanitizeContent` of the `content` member when present, so "" for a non-string and the stripped text for a string, and "" when `content` is absent |
| `Handler.ListOutcome` | diary_handler.py:46-50 | GET gives 200 with exactly the items whose UserID is the caller's (given consistent keys) and leaves the table unchanged |
| `Handler.GetEntries` | diary_handler.py:46-50 | the method answers 200 with exactly the caller's items and agrees with `ListOutcome` |
| `Handler.CreateOutcome` | diary_handler.py:53-72 | a decoding failure gives 400 "Invalid JSON" with the table unchanged; otherwise 200 "Saved successfully", the key (caller, fresh id) holds the new item, and every other key is unchanged |
| `Handler.CreateEntry` | diary_handler.py:53-72 | the method keeps the table valid and leaves the response and contents `CreateOutcome` gives |
| `Handler.DeleteOutcome` | diary_handler.py:75-87 | a missing or empty id gives 400 "Missing entry id" with the table unchanged; otherwise 200 "Deleted successfully", key (caller, id) is absent afterwards, and every other key is unchanged |
| `Handler.DeleteEntry` | diary_handler.py:75-87 | the method keeps the table valid and leaves the response and contents `DeleteOutcome` gives |
| `Json.Member` | diary_handler.py:59 | a member lookup with a default returns the member when present and the default otherwise |
| `Entries.Partition` | diary_handler.py:47-49 | the query result holds only stored items; with consistent keys it holds exactly the items whose UserID is the queried user; it is empty exactly when no key has that partition |
| `Entries.DiaryTable.constructor` | diary_handler.py:15-16 | a handle on the table holds whatever consistent contents the table already has, so entries persist across requests |
| `Entries.KeyOf` | diary_handler.py:64-66 | an item is filed under the composite key made of its own UserID and EntryID attributes |
| `Entries.DiaryTable.Query` | diary_handler.py:47-49 | the query returns exactly the stored items of the given user and changes nothing |
| `Entries.DiaryTable.PutItem` | diary_handler.py:63-70 | the item is written under its own key, overwriting any previous item; nothing else changes |
| `Entries.DiaryTable.DeleteItem` | diary_handler.py:80-85 | the key is removed, or nothing happens if it was absent; nothing else changes |
| `Sanitizer.StartIndex` | diary_handler.py:113 | the start of the stripped text: the first index at or after `i` that is not whitespace (or the length); everything skipped is whitespace |
| `Sanitizer.EndIndex` | diary_handler.py:113 | the end of the stripped text: scanning back from `j` but never below `lo`, the position after the last non-whitespace character; everything skipped is whitespace |
| `Sanitizer.StartIndexUnique` | diary_handler.py:113 | any index with those two defining properties is the one `StartIndex` returns |
| `Sanitizer.EndIndexUnique` | diary_handler.py:113 | any index with those two defining properties is the one `EndIndex` returns |
| `Sanitizer.Strip` | diary_handler.py:113 | the result is no longer than the input and has no leading or trailing whitespace |
| `Sanitizer.SanitizeContent` | diary_handler.py:106-113 | a non-string gives ""; a string gives its `Strip`: a contiguous substring `s[i..j]` with only whitespace before `i` and after `j`, with no edge whitespace itself, and the string unchanged when it has no edge whitespace |
| `Sanitizer.StripSplits` | diary_handler.py:113 | the stripped string is a contiguous substring `s[i..j]` of the input, and everything before `i` and after `j` is whitespace |
| `Sanitizer.StripSurrounded` | diary_handler.py:113 | stripping whitespace + text + whitespace gives the text, when the text has no edge whitespace |
| `Sanitizer.StripIdempotent` | diary_handler.py:113 | stripping twice gives the same result as stripping once |
| `Sanitizer.StripFixesUnspaced` | diary_handler.py:113 | strip leaves a string unchanged if and only if it has no edge whitespace |
| `Sanitizer.StripEmptyIffAllSpace` | diary_handler.py:113 | strip yields "" if and only if every character is whitespace |
| `Sanitizer.SanitizeIdempotent` | diary_handler.py:106-113 | sanitizing already sanitized content changes nothing |
| `Responses.ResponseBuilder` | diary_handler.py:116-125 | the status and body are kept; the headers are exactly `Access-Control-Allow-Origin: *`, `Access-Control-Allow-Headers: Content-Type,Authorization` and `Access-Control-Allow-Methods: GET,POST,DELETE` |
| `Responses.HeadersFixed` | diary_handler.py:119-123 | any two built responses carry identical headers |
| `HandlerProperties.UnauthorizedWins` | diary_handler.py:26-28 | without an accepted identity the response is 401 "Unauthorized" and the table is unchanged, whatever the method, body or path |
| `HandlerProperties.EmptyOrMissingClaimRefused` | diary_handler.py:27 | a missing claims object, a missing `sub` claim and an empty `sub` claim are all refused |
| `HandlerProperties.UnsupportedMethod` | diary_handler.py:30-39 | with an identity, any method other than exactly "GET", "POST" or "DELETE" gives 400 "Unsupported method" and leaves the table unchanged |
| `HandlerProperties.GetListsOwnPartition` | diary_handler.py:46-50 | GET answers 200 with exactly the stored items whose UserID is the caller's, and leaves the table unchanged |
| `HandlerProperties.GetEmptyPartition` | diary_handler.py:50 | GET for a user with no entries answers 200 with an empty list |
| `HandlerProperties.PostInvalidJson` | diary_handler.py:54-57 | a body the decoder rejects gives 400 "Invalid JSON" and leaves the table unchanged |
| `HandlerProperties.PostStoresOneItem` | diary_handler.py:59-72 | a decoded POST writes exactly one item under (caller, fresh id), with the sanitized `content` or "" if absent, and answers 200 "Saved successfully" |
| `HandlerProperties.PostWithoutBody` | diary_handler.py:55 | when "{}" decodes to the empty object, an absent or empty body succeeds and stores empty content |
| `HandlerProperties.PostGrowsByOne` | diary_handler.py:61-70 | a successful POST with a fresh key adds exactly that key, so the table grows by one entry |
| `HandlerProperties.DeleteMissingId` | diary_handler.py:76-78 | a DELETE without a usable id gives 400 "Missing entry id" and leaves the table unchanged |
| `HandlerProperties.DeleteRemovesOnlyKey` | diary_handler.py:80-87 | a DELETE with an id removes only the key (caller, id) and answers 200 "Deleted successfully" |
| `HandlerProperties.DeleteAbsentIsNoop` | diary_handler.py:80-87 | deleting an absent key leaves the table unchanged and still answers 200 |
| `HandlerProperties.PostThenGetSeesEntry` | diary_handler.py:46-72 | after a successful POST, a GET by the same user lists the new entry with its sanitized content and timestamp |
| `HandlerProperties.OtherUsersIsolated` | diary_handler.py:22-87 | no request by one user changes what another user's GET returns |
| `HandlerProperties.PartitionUnchanged` | diary_handler.py:47-49 | a change confined to one user's partition leaves every other user's query result unchanged |
| `HandlerProperties.TwoPostsTwoEntries` | diary_handler.py:59-70 | two successful POSTs by one user with distinct fresh ids leave both entries stored, each with its own id and timestamp |

## Left out

- Table construction and configuration are not modelled: the `boto3` resource and the `DIARY_TABLE_NAME` environment lookup (lines 13-16). An injected `DiaryTable` replaces them.
- The external table's own behaviour is not modelled: query pagination and truncation, throttling, network and service errors. The query result is a set, because the order of items is unspecified.
- The JSON decoder and encoder are not modelled. `json.loads` is a parameter, and `json.dumps` is dropped: response bodies stay values. JSON numbers are abstracted to integers.
- Entry ids and timestamps are parameters: `uuid.uuid4()` and `datetime.utcnow().isoformat()` are randomness and a clock. The freshness of an id is assumed where a lemma needs it, not derived.
- JWT verification and the nested event shape are not modelled. The event holds the authorizer's claims as an optional string map, the method, the optional body and the optional path parameters. A request without `requestContext.http.method` would raise before the gate; this cannot be expressed, because the method is always present in `Event`.
- Paths where the source raises are excluded, not modelled:
  - a body that decodes to something other than a JSON object (`body.get` fails). `Handled` rules this out for authenticated POSTs.
  - `pathParameters` present but null. The model's `Option` cannot express it.
  - table errors.
- `Sanitizer.IsSpace` is a fixed list of the characters Python's `str.isspace` accepts. It does not follow changes in the Unicode database.
- Concurrency between invocations is not modelled. Each call is one sequential step on the table.
