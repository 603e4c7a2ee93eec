# Book and user services, and the request-collection cleaner, in Dafny

This project models three pieces of decision logic from a small Express/MongoDB backend and proves properties of them:

- **Book service** (`api/services/book.service.ts`). `createBookService` checks that the body has a truthy author, genre and title. It normalises `genre` to a list of trimmed strings and defaults `description` to the title. It then saves the document and answers with a `{status, message, data?}` envelope: 400, 201 or 500. A 500 comes from a throwing `save` or from a `String(g)` that throws. `String(g)` throws on an object with its own `toString` entry, which a JSON body can give only as a non-callable value. `listBooksService` goes through `locateBook` and answers 200 or 404. The book collection is the field `books: seq<Book>` of class `BookStore`, which the methods update. `Types.ObjectId.isValid` is an abstract predicate given to the store. Whether a database call throws is a parameter of each method.
- **User service** (`api/services/user.service.ts`). `registerService` answers 400, 409, 201 or 500, and `loginService` answers 400, 404, 401, 200 or 500. They run over class `UserStore`, whose field is a map from email to user record. `bcrypt.hash`, `bcrypt.compare` and `jwt.sign` are function-valued constants of the store, and nothing is assumed about what they return. In particular the model does not assume that `compare(p, hash(p, s))` holds. What jsonwebtoken adds to the payload is assumed: it sets `iat` to the current time and `exp` to `iat` plus the timespan `expiresIn` denotes. The model builds those claims itself, so `createJWT`'s one-day expiry follows from that assumption together with `ExpiresInIsOneDay`. The salt from `bcrypt.genSalt(10)`, the generated document id, the clock and the call that throws, if any, are parameters.
- **Request-collection cleaner** (`scripts/convert_requests.py`). `clean_item` rewrites a YAML-loaded tree. Every `request.url` dict collapses to `{"raw": ...}`: it keeps a truthy `raw`, or rebuilds `raw` from `host` and `path`, or leaves the url alone. The function recurses into every list-valued field. The top level runs it over `data["item"]`. A Python dict is a sequence of `(key, value)` fields in insertion order. A `TypeError` the script does not catch becomes the `TypeError` result. Such an error comes from `str.join` on a non-string, iterating a non-iterable, or the top-level `in` test and `data["item"]` on non-dicts. The pure function `Clean` is the specification. The methods `CleanItem`, `CleanEach` and `ConvertCollection` follow the script's loops and are proved equal to it.

Files: `common.dfy` (module `Envelopes`: `Option`, `Envelope<D>`), `js_values.dfy` (module `JsValues`: JavaScript truthiness, `String(x)`, `trim`), `book_service.dfy`, `user_service.dfy`, `convert_requests.dfy`.

Points where the code does something a reader might not expect; the model follows the code as written:
- Listing answers 200 with `[]` for an empty collection, because an empty array is truthy. It answers 404 only when the query throws, which `locateBook` turns into `null`.
- Create does not set an owner or a status and checks no enumeration itself. Its 400 message is fixed and does not list the missing fields.
- There is no get-by-id, update, patch or delete service.
- The token payload is `{id}` with `expiresIn: "1d"`.
- `api/models/User.ts` declares only `username` (required and unique) and `password`, while the user service reads and writes `name`, `email` and `password`. Under Mongoose's strict mode that schema would drop `name` and `email`, and the missing `username` would make every `save` fail. The model follows the service as written: a stored user has the fields the service gives it, and a failing save is the `SaveFails` fault.

## Model

| member | source | states |
|---|---|---|
| JsValues.LeadingSpace | api/services/book.service.ts:37 | the count stays within the string, every counted character is ECMAScript whitespace, and the first uncounted character is not |
| JsValues.TrailingStart | api/services/book.service.ts:37 | every character from the returned index on is whitespace, and the character just before it is not |
| JsValues.TrimShape | api/services/book.service.ts:37 | `trim` keeps a contiguous middle slice, removes only whitespace on both sides, and leaves no whitespace at either end |
| JsValues.TrimOfTrimmed | api/services/book.service.ts:37 | a string with no whitespace at either end is left unchanged by `trim` |
| JsValues.TrimIdempotent | api/services/book.service.ts:37 | trimming twice equals trimming once |
| JsValues.NumberStringIsTrimmed | api/services/book.service.ts:37-38 | `String(n).trim()` of a number is `String(n)` |
| BookService.NormaliseGenresShape | api/services/book.service.ts:36-38 | an array genre gives a list of the same length and order whose element i is `String(g[i]).trim()`; a scalar gives a one-element list; no element has surrounding whitespace |
| BookService.NormaliseGenresIdempotent | api/services/book.service.ts:36-38 | normalising an already normalised genre list, given back as a string array, returns the same list |
| BookService.TrimPadded | api/services/book.service.ts:37 | a non-empty word with one space on each side trims back to the word |
| BookService.NormaliseGenresExample | api/services/book.service.ts:36-38 | `["Fantasy", " Sci-Fi "]` becomes `["Fantasy", "Sci-Fi"]` |
| BookService.ObjectGenres | api/services/book.service.ts:36-38 | a plain object genre becomes `["[object Object]"]`; an object with its own `toString`, alone or inside a genre array, makes `String(g)` throw |
| BookService.EmptyGenreArrayPassesGuard | api/services/book.service.ts:32-38 | an empty genre array passes the required-field guard and is stored as an empty genre list |
| BookService.NewBookFields | api/services/book.service.ts:40-47 | the document copies title and author unchanged; its description is `data.description` when truthy and the title otherwise, so it is always truthy; its genre is the normalised list |
| BookService.BookStore.FindById | api/services/book.service.ts:18 | a returned book is in the store and has the id; `None` means no stored book has it |
| BookService.BookStore.Save | api/services/book.service.ts:49 | a save appends exactly the document unless the database raises or the id is already stored; it keeps ids unique |
| BookService.BookStore.LocateBook | api/services/book.service.ts:7-26 | an empty id gives all books; an id failing `isValid` gives null whatever the store holds; otherwise the `findById` result or null; a throwing query gives null |
| BookService.BookStore.CreateBookService | api/services/book.service.ts:28-58 | status 400 with the fixed message and no store change when the body is absent or author, genre or title is falsy; 500 "Internal Server Error." with the `TypeError` as data and no store change when a genre's `String(g)` throws; 500 with the error as data and no store change when the save throws; otherwise 201 with `data.id` the new id and the one new document appended; 201 exactly when the store changed |
| BookService.BookStore.ListBooksService | api/services/book.service.ts:60-78 | a failing query gives 404 "No books found."; otherwise 200 with all stored books, `[]` included; never 500 |
| BookService.CreateThenList | api/services/book.service.ts:28-78 | creating a valid book with a fresh id and then listing gives 201, then 200 with the new document last |
| UserService.UserStore.LocateUserByEmail | api/services/user.service.ts:19-21 | the lookup finds a user exactly when one is stored under the email, and returns that record, hash included |
| UserService.UserStore.Save | api/services/user.service.ts:43-48 | saving stores exactly the new record under its email, unless the save throws or the id is taken |
| UserService.UserStore.RegisterService | api/services/user.service.ts:26-53 | 400 when the body is absent or name, password or email is empty; 409 when the email is stored; 500 when a call throws; each of these leaves the store unchanged; otherwise 201 with only name and email as data, and exactly one user added, holding `hash(password, salt)` and not the password |
| UserService.UserStore.LoginService | api/services/user.service.ts:55-83 | 400 when email or password is empty (name is not needed); 404 for an unknown email; 401 when `compare` rejects the stored hash; 500 when a call throws; otherwise 200 with name, email and `createJWT(user._id)`; data only on 200; the store is only read |
| UserService.DecimalRoundTrip | api/services/user.service.ts:16 | reading back the decimal digits of a number gives the number |
| UserService.TimespanRoundTrip | api/services/user.service.ts:16 | an `expiresIn` string of n followed by a unit letter stands for n times that unit's seconds |
| UserService.ExpiresInIsOneDay | api/services/user.service.ts:16 | `"1d"` denotes 86400 seconds, the lifetime `createJWT` gives its tokens |
| UserService.TokenClaims | api/services/user.service.ts:14-17 | the token signs a payload whose id is the string form of the uid, whose `iat` is the issue time, and whose `exp` lies 86400 s later, which follows from what `expiresIn: "1d"` denotes |
| UserService.TokenIdForm | api/services/user.service.ts:15 | an ObjectId and its string form produce the same token |
| UserService.RegisterTwice | api/services/user.service.ts:35-49 | registering the same email twice with valid data gives 201, then 409, and only the first adds a user |
| UserService.RegisterThenLogin | api/services/user.service.ts:40-77 | login right after registration gives 200 exactly when `compare(password, hash(password, salt))` holds, and 401 otherwise |
| ConvertRequests.KeyIndex | scripts/convert_requests.py:12-16 | the position of a key in a dict is that of its first occurrence, or the length when absent |
| ConvertRequests.StrItems | scripts/convert_requests.py:25 | `str.join` succeeds exactly when every list element is a string |
| ConvertRequests.RewriteRequest | scripts/convert_requests.py:12-30 | a non-dict request is untouched, and so is a request whose `url` is missing or not a dict; a rewritten request is a dict with the same keys, and every entry other than `url` keeps its value |
| ConvertRequests.CleanRequest | scripts/convert_requests.py:12-30 | the url step keeps every key, changes no field other than `request`, and changes no list-valued field and no field that does not end up a dict |
| ConvertRequests.CleanField | scripts/convert_requests.py:32-35 | a field keeps its key; a non-list value is not visited; a list stays a list |
| ConvertRequests.CleanFields | scripts/convert_requests.py:32-35 | the field loop succeeds exactly when every field does, and then replaces each field by its cleaned form, in place |
| ConvertRequests.CleanList | scripts/convert_requests.py:34-35 | cleaning a list succeeds exactly when every element is cleaned, and then holds the cleaned elements in order |
| ConvertRequests.CleanRequestThenFields | scripts/convert_requests.py:10-35 | doing the url step first and the field loop second, as the script does, gives exactly `Clean` |
| ConvertRequests.CleanLeavesNonDict | scripts/convert_requests.py:10 | a non-dict is returned unchanged |
| ConvertRequests.CleanUrlIdempotent | scripts/convert_requests.py:14-30 | a rewritten url is a dict that a second rewrite leaves unchanged |
| ConvertRequests.CleanListIdempotent | scripts/convert_requests.py:33-35 | cleaning a cleaned list changes nothing |
| ConvertRequests.CleanIdempotent | scripts/convert_requests.py:9-36 | applying `clean_item` twice gives the same tree as applying it once |
| ConvertRequests.CleanDictFields | scripts/convert_requests.py:31-35 | every key stays in place; every list-valued field, under any key, has each element cleaned; the request dict gets its url rewritten and keeps its keys, and its entries other than `url` keep their values; every other field is neither visited nor changed |
| ConvertRequests.RequestUrlAfterClean | scripts/convert_requests.py:12-30 | a dict url comes out as the url rewrite makes it; a url whose rewrite raises makes the call raise |
| ConvertRequests.UrlKeepsRaw | scripts/convert_requests.py:16-19 | with a truthy `raw` the url becomes exactly `{"raw": raw}` |
| ConvertRequests.UrlRebuiltFromHost | scripts/convert_requests.py:21-27 | without a truthy `raw`, a non-empty host list makes `raw` the hosts joined by ".", followed by "/" and the path joined by "/" when `path` is truthy |
| ConvertRequests.UrlLeftAsIs | scripts/convert_requests.py:28-30 | without a truthy `raw` or a non-empty host list the url stays exactly as it was |
| ConvertRequests.ConvertTouchesOnlyItem | scripts/convert_requests.py:39-41 | the top level cleans each element of the `"item"` list in order and changes no other field; without such a list the document is unchanged |
| ConvertRequests.ConvertIdempotent | scripts/convert_requests.py:39-41 | converting a converted document changes nothing |
| ConvertRequests.CleanItem | scripts/convert_requests.py:9-36 | the step-by-step `clean_item`, url step and field loop, returns exactly `Clean(item)` |
| ConvertRequests.CleanEach | scripts/convert_requests.py:34-35 | the element loop returns exactly the cleaned list |
| ConvertRequests.ConvertCollection | scripts/convert_requests.py:39-41 | the top-level loop returns exactly `Convert(data)`, `TypeError` included |

## Left out

- Process bootstrap, port binding, the database connection and `process.exit` (`api/index.ts`, `src/index.js`, `src/database/configdb.js`): I/O with no decision logic.
- The book controller (`api/controllers/book.controller.ts`): it copies status and message, and its other handlers are empty.
- The Mongoose schemas (`api/models/*.ts`). Their casting, `trim`, `required` and the genre enumeration are folded into the outcome of `save`, given as a parameter. The stored document is the one the service builds, before any casting. `api/types/genres.type.ts` is not part of this model.
- bcrypt and jsonwebtoken: `hash`, `compare` and `sign` are uninterpreted. No randomness is modelled: the salt rounds (10) do not appear, and the salt is a parameter.
- The current time and `process.env.JWT_SECRET` are inputs, with "" standing for an unset variable.
- Numbers are integers. JavaScript floating point, `NaN` and `-0` are not modelled, and neither are YAML floats, dates or other tags.
- User request fields are strings, with "" for a missing field. A non-string JSON field, and the error bcrypt would then raise, are not modelled.
- Error details are not modelled. Which call throws is a parameter, and a Python exception is a single `TypeError`.
- Logging (`console.log`, `console.error`), YAML loading, JSON writing, the file reads and writes, and `print`.
- Object identity in the cleaner. `clean_item` mutates dicts in place and returns the object it was given. The model returns the cleaned value instead, so it does not capture an object that a YAML anchor makes reachable twice.
- UserService.UserStore.Save: requires the email to be new, because the store is a map keyed by email. `registerService` saves only after a lookup that found nothing, so the requires holds as long as requests run one at a time. Saving under an existing email is not modelled.
- The unreachable `catch` of `listBooksService`: `locateBook` catches every error itself. `ListBooksService` states that the result is never 500.
- Concurrency. Each request runs to completion before the next one starts. `registerService` awaits the duplicate lookup, `genSalt`, `hash` and `save`, so two registrations with the same email can both find nothing and both save, and nothing in `api/models/User.ts` makes emails unique. This check-then-save race is not captured: the store is a map keyed by email, which cannot hold two users with one email.
- BookService.BookStore.FindById: compares ids as exact strings. `Book.findById` casts the id to an ObjectId first, so it matches hex digits regardless of case, and `isValid` also accepts any 12-character string as raw bytes. `listBooksService` never reaches this path.
- JsValues.IntToDecimal: gives the plain decimal digits of every integer. JavaScript prints numbers of magnitude 10^21 or more in exponent form, and a JSON body rounds integers above 2^53 to the nearest double; neither is modelled.
- UserService.TimespanSeconds: reads only the form `<digits><unit>` with a one-letter unit s, m, h, d, w or y. The `ms` package also accepts bare numbers (milliseconds), `ms`, long unit names, spaces, fractions and signs, and jsonwebtoken rejects strings `ms` cannot read; none of these are needed for `"1d"`.
- Dict keys in the cleaner are strings. YAML can also load integer, boolean and null keys, and for a dict-valued `path` with such keys `"/".join` raises; the model always joins the keys successfully.
