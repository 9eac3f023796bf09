# SwiftStack: question hydration and the answers and sites endpoints

SwiftStack is a Swift client for the Stack Exchange REST API. This project models three of
its pieces in Dafny and proves properties of them:

- **Hydration of a `Question`** from one item of an API response (`Question.init(dictionary:)`).
  This includes its nested `ClosedDetails` value and the failable `init?(jsonString:)`
  initialisers. A JSON value is the `Json` datatype (module `Json`), which has the six kinds of
  RFC 8259 section 3. A dictionary is a `map<string, Json>`. Swift's checked casts
  `dictionary[key] as? T` become the functions `AsInt`, `AsBool`, `AsString`, `AsDouble`,
  `AsObject`, `AsStringArray` and `AsObjectArray` applied to `Lookup(d, key)`. Each cast gives a
  value exactly when the key is present with the matching kind, and never fails otherwise.
  `Question` is a class whose constructor writes its optional fields. The predicate
  `Question.HydratedFrom(d)` states the whole resulting state. `ClosedDetails` is a value type
  (a datatype). Its `FromDictionary` method keeps the source's loop: the loop hydrates a
  Question from every element of `original_questions` and then throws the list away.
- **Path construction for the answers endpoints** (module `AnswerPaths`). The path is
  `"answers/"` followed by the IDs in decimal, joined by `";"`. Its partners are a parser that
  reads the ID list back and a separator count.
- **The parameter rewrite of the sites endpoint** (module `ApiClient`). The caller's
  parameters are copied, `"site"` is forced to `""`, and the request is made on path `"sites"`.

`performAPIRequest` (APIClient.swift is not part of this model) becomes
`APIClient.PerformAPIRequest`, which only appends `(path, parameters, backoff behaviour)` to
the `requests` log. Each endpoint method states exactly which request it adds.

Behaviour modelled exactly as the code has it:

- `favorited` is read from the key `"favorites"`.
- `ClosedDetails.original_questions` is never assigned.
- The ID-less answers request uses the singular literal path `"answer"`.
- `fetchSites` overwrites any caller-supplied `"site"` with `""`.

## Model

| member | source | states |
|---|---|---|
| `Json.Lookup` | Sources/Question.swift:94 | `dictionary[key]` holds a value exactly when the key is present, and that value is the stored one |
| `Json.AsInt` | Sources/Question.swift:94-95 | `as? Int` succeeds exactly for a number that is integral and within 64-bit `Int` range, and gives back that number |
| `Json.AsDouble` | Sources/Question.swift:99 | `as? Double` succeeds exactly for a number, and gives back that number |
| `Json.AsBool` | Sources/Question.swift:104-105 | `as? Bool` succeeds exactly for a JSON boolean; a number is never a Bool |
| `Json.AsString` | Sources/Question.swift:117 | `as? String` succeeds exactly for a JSON string, and gives back its text |
| `Json.AsObject` | Sources/Question.swift:112 | `as? [String: Any]` succeeds exactly for an object, and gives back its members |
| `Json.AsStringArray` | Sources/Question.swift:149 | `as? [String]` succeeds exactly for an array all of whose elements are strings, and lists those strings in order |
| `Json.AsObjectArray` | Sources/Question.swift:41 | `as? [[String: Any]]` succeeds exactly for an array all of whose elements are objects, and lists their members in order |
| `Json.StringsOfRoundTrip` | Sources/Question.swift:149 | an array written from a list of strings casts back to exactly that list |
| `Json.KindsAreDisjoint` | Sources/Question.swift:94-151 | for every pair of casts: `as? Int` implies `as? Double`; the two array casts both succeed exactly on the empty array; every other pair never succeeds together |
| `Questions.DateAt` | Sources/Question.swift:99-101 | a timestamp is set exactly when its key holds a number, and is then that many seconds after the epoch, converted once from the dictionary value |
| `Questions.ClosedDetailsAt` | Sources/Question.swift:112-114 | `closed_details` is set exactly when its key holds an object, and is then the ClosedDetails hydration of that object |
| `Questions.NoticeAt` | Sources/Question.swift:139-141 | `notice` is set exactly when its key holds an object, and is then hydrated from that object |
| `Questions.ClosedDetails.FromDictionary` | Sources/Question.swift:36-51 | total hydration of ClosedDetails: description, on_hold and reason come from their casts; `by_users` and `original_questions` stay unset, even after the loop hydrates a Question from each array element |
| `Questions.ClosedDetails.FromJsonString` | Sources/Question.swift:24-34 | nil exactly when the text does not parse, or parses to something other than an object; otherwise the hydration of that object |
| `Questions.Question.constructor` | Sources/Question.swift:89-152 | total hydration: the base part is the object's own Post hydration; every field holds its key's checked cast (`favorited` from "favorites"); `answers`, `bounty_user`, `migrated_from` and `migrated_to` stay unset |
| `Questions.Question.ClosedDetailsField` | Sources/Question.swift:112-114 | the `closed_details` field step gives exactly the ClosedDetails hydration of the object under that key, or unset |
| `Questions.Question.FromJsonString` | Sources/Question.swift:77-87 | null exactly when the text does not parse to a top-level object; otherwise a fresh question hydrated from that object |
| `Questions.ScalarFieldsFollowKinds` | Sources/Question.swift:94-151 | each of the 14 Int, Bool and String fields (`favorited` under "favorites") is set exactly when its key holds the matching kind (for Int, an integral number in 64-bit range), and then holds that value |
| `Questions.TimestampsFollowNumbers` | Sources/Question.swift:99-145 | each of the 6 timestamp fields is set exactly when its key holds a number, to that number of seconds after the epoch |
| `Questions.FavoritedReadsFavorites` | Sources/Question.swift:129 | `favorited` follows the key "favorites"; changing the key "favorited" leaves it unchanged |
| `Questions.TagsNeedAllStrings` | Sources/Question.swift:149 | `tags` is set exactly for an array of strings only, and then lists them in order |
| `Questions.ClosedDetailsFollowObject` | Sources/Question.swift:41-51 | a question's closed details come from the `closed_details` object, and their `original_questions` and `by_users` are always unset |
| `Questions.EmptyObjectLeavesAllUnset` | Sources/Question.swift:89-152 | hydrating an empty object never fails and sets no question field |
| `Questions.ExampleItemHydration` | Sources/Question.swift:123-147 | `{"question_id": 1, "creation_date": 1000000000}` sets exactly question_id = 1 and creation_date = 1e9 seconds after the epoch |
| `AnswerPaths.Decimal` | Sources/RequestsAnswers.swift:96 | `String(Int)` is non-empty, never contains the separator ";", starts with "-" exactly for a negative number, and has no leading zero (so no "-0") |
| `AnswerPaths.DecimalRoundTrip` | Sources/RequestsAnswers.swift:96 | reading a decimal rendering back gives the original integer, negative ones included |
| `AnswerPaths.AnswersPath` | Sources/RequestsAnswers.swift:96 | for a non-empty ID list, the path starts with "answers/" and has more after it |
| `AnswerPaths.PathPieces` | Sources/RequestsAnswers.swift:96 | after the prefix, splitting on ";" gives each ID in decimal, in input order |
| `AnswerPaths.AnswersPathRoundTrip` | Sources/RequestsAnswers.swift:96 | parsing the path back gives the original ID list |
| `AnswerPaths.AnswersPathInjective` | Sources/RequestsAnswers.swift:96 | different ID lists give different paths |
| `AnswerPaths.AnswersPathSeparators` | Sources/RequestsAnswers.swift:96 | the path for n IDs holds exactly n - 1 ";" separators |
| `AnswerPaths.SingleAnswerPath` | Sources/RequestsAnswers.swift:155 | the one-element list gives the path "answers/" followed by the ID in decimal |
| `ApiClient.SiteForcedEmptyIsUnique` | Sources/RequestsSites.swift:36-37 | the rewrite contract (keys are the caller's plus "site", "site" is "", others unchanged) determines the sent parameter map |
| `ApiClient.CallerSiteIsIgnored` | Sources/RequestsSites.swift:36-37 | a caller-supplied "site" value has no effect on the parameters sent |
| `ApiClient.APIClient.PerformAPIRequest` | Sources/RequestsAnswers.swift:95-99 | each call records exactly one request with its path, parameters and backoff behaviour |
| `ApiClient.APIClient.FetchAllAnswers` | Sources/RequestsAnswers.swift:29-38 | one request on the literal path "answer", with parameters and backoff behaviour passed through unchanged |
| `ApiClient.APIClient.FetchAnswers` | Sources/RequestsAnswers.swift:85-100 | an empty ID list is refused before any request; otherwise exactly one request on the answers path of the IDs, with parameters and backoff behaviour unchanged |
| `ApiClient.APIClient.FetchAnswer` | Sources/RequestsAnswers.swift:150-156 | behaves as the one-element fetch: one request on "answers/" followed by the ID in decimal |
| `ApiClient.APIClient.FetchSites` | Sources/RequestsSites.swift:31-44 | exactly one request, on path "sites", with the backoff behaviour unchanged; the parameters are the caller's with "site" forced to "" and every other key kept |
| `ApiClient.APIClient.FetchSitesAsync` | Sources/RequestsSites.swift:55-68 | the async variant's work item makes the same rewrite and the same request as the synchronous one |

## Left out

- Threads and callbacks: `queue.async`, `DispatchQueue(...).async` and the completion handlers of the async variants (Sources/RequestsAnswers.swift:51-68, 115-134, 171-178; Sources/RequestsSites.swift:55-68). They exist for concurrency. `FetchSitesAsync` runs the sites work item inline. The async answers wrappers only forward to the synchronous ones, so they are not modelled.
- `performAPIRequest` and the response it returns: `APIResponse`, its decoding into `Answer` or `Site`, errors thrown by the transport, and backoff handling. APIClient.swift is not part of this model, so `PerformAPIRequest` only records its arguments. `BackoffBehavior` is also defined outside this model: Sources/RequestsAnswers.swift and Sources/RequestsSites.swift only use `.wait`, as the default argument; the other two cases (`Fail`, `Ignore`) are assumed. The answers requests call `performAPIRequest` with a `parameters:` label and the sites requests without one, which in Swift are two declarations; the single recorder `PerformAPIRequest` models both.
- Post and Notice hydration: Post.swift and Notice.swift are not part of this model. A Post and a Notice are each represented by the dictionary they are hydrated from. The base-level fields therefore cannot be compared field by field.
- Questions.Question.constructor: no contract states the base-before-variant order. In the constructor, `post` is written before any field read from the dictionary (only the nil defaults precede it). Nothing in the model can observe the order, because both parts are pure functions of the dictionary. The nested `closed_details` value is computed before the scalar fields, but it neither reads nor writes the question.
- `JSONSerialization.jsonObject`: a foreign parser, so every `FromJsonString` takes it as a parameter `parse: string -> Option<Json>`. `None` stands for a thrown parse error. The `data(using: .utf8)!` step is left out because it cannot fail for a Swift string.
- Floating point: numbers are exact reals, and `Date(timeIntervalSince1970:)` is the instant `Date(seconds)`. `as? Double` accepts every number. Foundation's rounding of long numbers, and its refusal of integers that no `Double` represents exactly, are not modelled.
- Foundation `NSNumber` bridging (a JSON boolean cast to `Int`, or a number cast to `Bool`): the JSON kinds are treated as disjoint.
- Json.AsInt: it follows the exact bridging of Swift 4 and later (integral and within 64-bit range). Swift 3 truncated a non-integral number in `as? Int`, and that behaviour is not modelled.
- `fatalError` on an empty ID list: it is the precondition of `FetchAnswers`, not a process exit.
- The `by_users`, `answers`, `bounty_user`, `migrated_from` and `migrated_to` fields have element types (`Any`) that the source never fills. They are modelled as raw `Json` values that always stay unset.
