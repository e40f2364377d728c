# Bungalow reservations backend — a Dafny model

This project models the core rules of an Express/Mongoose backend for a
bungalow (cabin) hotel:

- the query language of its REST API (`APIFeatures`) and the generic
  controller (`ApiController`) that combines it with route nesting,
  ownership and role restrictions;
- the booking rules: overlap detection on UTC days, end dates, the
  paid-when-checked-in rule, set-once prices and the total, PNR lookups and
  the restore mapping;
- the small stores with invariants: settings (a single active record),
  cabins (discount, images, delete blocked while booked), guests
  (find-or-create with an identity match), users and the login log;
- the account state machine: login with its attempt counter and lock,
  token refresh, activation, `updateMe`, `updatePassword`, `autoLogin`, role
  restriction and visibility, the `protect` middleware;
- the key sanitiser for `$` and `.` keys;
- the error plumbing: `AppError`, the error handler and the translation
  tables.

Request bodies and stored documents are JSON values whose objects are lists
of entries in insertion order (`Json.Value`). Typed records stand in for
the schemas (`Booking`, `Cabin`, `Guest`, `Setting`, `User`, `LoginLog`).
Every store is a class whose field is a sequence of records; its methods
are the Mongoose calls the controllers make (`create`, `findOne`, `save`,
`deleteMany`, …). A controller whose handlers update state of its own is
a class: the generic controller keeps the restrictions it stores on
itself, the users controller the mail it sends, and the authentication
controller holds the users and login-log stores. The handlers of the
bookings, guests and settings controllers are methods that take the store
they change. Each handler is proved against a function that computes the
answer and the new store contents from the request and the old contents. Time is
an integer number of milliseconds, and a day is 86 400 000 of them. Money
is an exact integer.

The libraries the code calls, and the parts of the database the model does
not compute, are parameters of the model:
- JWT signing and verification;
- bcrypt and sha256;
- mail delivery;
- the `isEmail` and `isStrongPassword` predicates, and Mongoose's
  `isObjectId` test of an `_id` string;
- `JSON.parse` of the `filter` query parameter (`parse`);
- the database's verdict on query operators other than `$eq`, `$ne`, `$in`
  and the logical ones (`OpOracle`), and the query runner of the list
  handler (`run`);
- the `save` and `create` calls of the generic controller, which give the
  stored document or the error;
- Mongoose's cast of a string to a `Date` (`parseDate`), the cabin and guest
  lookups by id that the booking hooks and the populate make (`rates`,
  `guests`), and the ids and PNR codes given to new documents;
- the `roleHierarchy` table of the users controller;
- the clock.

## Model

| member | source | states |
|---|---|---|
| `AppErrors.NewAppError` | utils/appError.js:3-11 | the message and the status code are kept as given; the error is operational; its status is "fail" exactly when the rendered code starts with '4' |
| `AppErrors.LeadingFourRange` | utils/appError.js:7 | a natural number's rendering starts with '4' exactly when it lies in [4·10^k, 5·10^k) for some k |
| `AppErrors.LeadingFourWitness` | utils/appError.js:7 | a number leading with 4 lies in some [4·10^k, 5·10^k) |
| `AppErrors.LeadingFourFromRange` | utils/appError.js:7 | a number in [4·10^k, 5·10^k) leads with 4 |
| `AppErrors.FirstCharIsLeadingDigit` | utils/appError.js:7 | the first character of the rendering of a number is its leading decimal digit |
| `AppErrors.StatusFailIff` | utils/appError.js:7 | an `AppError` gets status "fail" exactly when its code is in [4·10^k, 5·10^k) for some k: every 4xx code, but also 4, 40 and 4000 |
| `AppErrors.ClientErrorsFail` | utils/appError.js:7 | every code from 400 to 499 gives "fail" |
| `AppErrors.ServerErrorsAndMissingError` | utils/appError.js:6-7 | every 5xx code, and a missing code, give "error" |
| `AppErrors.PlainError` | controllers/errorController.js:50-56 | `new Error(message)` is not operational and has no status code or status |
| `AppErrors.TypeError` | controllers/errorController.js:50-56 | a runtime `TypeError` is named so, is not operational and has no status code |
| `AppErrors.ValidationError` | controllers/errorController.js:77-78 | a Mongoose validation error carries its messages in order and is not operational |
| `AppErrors.DuplicateKeyError` | controllers/errorController.js:76 | a duplicate key error has code 11000 and its `keyValue` keys, and is not operational |
| `AppErrors.CastError` | controllers/errorController.js:75 | a cast error carries its path and value and is not operational |
| `AppErrors.JsonWebTokenError` | controllers/errorController.js:79 | a token error is named `JsonWebTokenError` and is not operational |
| `ErrorController.WithDefaults` | controllers/errorController.js:68-69 | a missing or zero status code becomes 500 and a missing or empty status becomes "error"; no other property changes |
| `ErrorController.CastErrorMessage` | controllers/errorController.js:6-9 | the message is "Invalid ", the path, ": ", the value and "." — exactly 11 characters longer than path and value together |
| `ErrorController.ValidationMessage` | controllers/errorController.js:23-29 | "Invalid input data. " followed by the messages joined by ". "; nothing after it without messages |
| `ErrorController.StatusAndMessage` | controllers/errorController.js:53 | the body holds the status, when there is one, and the message, in that order and nothing else |
| `ErrorController.ErrJson` | controllers/errorController.js:42-45 | the error as `JSON.stringify` shows it: its code and status, `isOperational` exactly when it is operational, and neither message nor name |
| `ErrorController.DuplicateMessage` | controllers/errorController.js:11-21 | one duplicated key gives "Duplicate field value: <key>. Please use another value." with the key trimmed; no `keyValue` gives the generic text |
| `ErrorController.SendDev` | controllers/errorController.js:40-47 | development answers with the error's code, or 500 without one, and a body carrying its status, its message and the stack |
| `ErrorController.Classified` | controllers/errorController.js:73-81 | the production chain ends in the upload error whenever the original's code is `LIMIT_FILE_SIZE`; otherwise the result is the error unchanged or an operational one |
| `ErrorController.SendProd` | controllers/errorController.js:49-57 | an operational error is sent with its own code, status and message; anything else is the generic 500 "Something went wrong!" |
| `ErrorController.HandleError` | controllers/errorController.js:59-84 | there is no answer exactly when the environment is neither development nor production; development sends the defaulted error with its details; production sends the classified defaulted error |
| `ErrorController.DevelopmentKeepsCode` | controllers/errorController.js:40-47 | in development the answer carries the error's code, or 500, and its message |
| `ErrorController.ProductionOperational` | controllers/errorController.js:49-53 | an unrecognised `AppError` is answered with its own code, status and message |
| `ErrorController.ProductionMissingCode` | controllers/errorController.js:68-69 | an `AppError` built without a code is answered 500 with status "error" and its own message |
| `ErrorController.ProductionHidesProgrammingErrors` | controllers/errorController.js:54-56 | a plain `Error` or a `TypeError` is hidden behind the generic 500 |
| `ErrorController.ProductionCastError` | controllers/errorController.js:6-9 | a cast error is answered 400 "fail" "Invalid <path>: <value>." |
| `ErrorController.ProductionDuplicateKey` | controllers/errorController.js:11-16 | a duplicate key error is answered 400 with its keys joined by ", " |
| `ErrorController.ProductionDuplicateWithoutKeys` | controllers/errorController.js:17-19 | without `keyValue` the duplicate message is the generic one |
| `ErrorController.ProductionValidation` | controllers/errorController.js:23-29 | a validation error is answered 400 "Invalid input data. " followed by its messages joined by ". " |
| `ErrorController.ProductionTokenErrors` | controllers/errorController.js:31-35 | both token errors are answered 401 with their fixed messages |
| `ErrorController.ProductionFileTooLarge` | controllers/errorController.js:37-38 | an upload over the size limit is answered 400 "File is too large to upload!" |
| `ErrorController.LaterMatchWins` | controllers/errorController.js:77-81 | a validation error that also carries `LIMIT_FILE_SIZE` is answered as the upload error: the later test wins |
| `ErrorController.ProductionAnswers` | controllers/errorController.js:49-57 | every production answer is the generic 500 or the status and message of an operational error |
| `ErrorController.Production401Sources` | controllers/errorController.js:72-82 | a production 401 comes only from a token error or an operational 401 |
| `ApiTranslation.Lookup` | utils/apiTranslation.js:12 | a key missing from a table gives `undefined`; a found text is the text of an entry with that key |
| `ApiTranslation.TableOf` | utils/apiTranslation.js:12 | the table of an own language is the table written for it |
| `ApiTranslation.EnglishAndTurkish` | utils/apiTranslation.js:16-116 | the texts object owns exactly "en" and "tr", with the two tables |
| `ApiTranslation.EnFields` | utils/apiTranslation.js:17-63 | the English table lists the message fields in the order they are written |
| `ApiTranslation.TrFields` | utils/apiTranslation.js:64-115 | the Turkish table lists the same fields in the same order |
| `ApiTranslation.EnglishFirstNoUser` | utils/apiTranslation.js:35 | the first English `noUser` text is "There is no user registered with this email." |
| `ApiTranslation.EnglishNoUserLaterEntryWins` | utils/apiTranslation.js:61 | the English lookup of `noUser` gives the later text "There is no user with this id." |
| `ApiTranslation.LastButOne` | utils/apiTranslation.js:12 | a key in the last-but-one entry that the last entry does not repeat is looked up there |
| `ApiTranslation.TurkishFirstNoUser` | utils/apiTranslation.js:83-84 | the Turkish table's first `noUser` text |
| `ApiTranslation.TurkishNoUserLaterEntryWins` | utils/apiTranslation.js:113 | the Turkish lookup of `noUser` gives the later text "Kullanıcı bulunamadı." |
| `ApiTranslation.ApiTranslation.constructor` | utils/apiTranslation.js:6-8 | the instance keeps the texts it is given |
| `ApiTranslation.ApiTranslation.ChosenLanguage` | utils/apiTranslation.js:10-11 | the table read is the given language when the texts own it; otherwise, and when the language is omitted, it is "en" |
| `ApiTranslation.ApiTranslation.Translate` | utils/apiTranslation.js:10-13 | the text is `undefined` exactly when the field is missing from the chosen language's table; a found text is one that table pairs with the field |
| `ApiTranslation.FallbackToEnglish` | utils/apiTranslation.js:10-12 | a language without a table reads the same texts as an omitted language, and those are the English ones |
| `ApiTranslation.TranslateFound` | utils/apiTranslation.js:12 | when all tables have the same fields, a field is found in any language exactly when it is a field of the English table |
| `TzHelpers.ToUtcMidnight` | helpers/tz-helpers.js:26-30 | the result is a multiple of a day, at most t and more than t minus a day |
| `TzHelpers.MidnightUnique` | helpers/tz-helpers.js:26-30 | the start of t's day is the only multiple of a day in (t − day, t] |
| `TzHelpers.MidnightIdempotent` | helpers/tz-helpers.js:26-30 | truncating twice is truncating once |
| `TzHelpers.MidnightMonotone` | helpers/tz-helpers.js:26-30 | t1 ≤ t2 implies midnight(t1) ≤ midnight(t2) |
| `TzHelpers.MidnightShift` | helpers/tz-helpers.js:26-30 | adding whole days moves the day start by as many days |
| `TzHelpers.IsPastUtc` | helpers/tz-helpers.js:41-44 | a past date lies before the current instant |
| `TzHelpers.IsFutureUtc` | helpers/tz-helpers.js:46-49 | a future date lies after the current instant |
| `TzHelpers.PastFutureToday` | helpers/tz-helpers.js:41-49 | a date is never both past and future; it is neither exactly when it lies in today's UTC day |
| `TzHelpers.PastIffBeforeToday` | helpers/tz-helpers.js:41-49 | past means before the start of today; future means at or after the start of tomorrow |
| `Coercions.StringToNumber` | utils/apiFeatures.js:89-90 | `+s` of a string of decimal digits is the value of those digits |
| `Coercions.DigitsTrimmed` | utils/apiFeatures.js:89-90 | a string of digits has no white space for `+s` to skip |
| `Coercions.SpacesAroundDigits` | utils/apiFeatures.js:89-90 | white space around digits does not change the value of `+s` |
| `Coercions.Stringify` | controllers/errorController.js:7 | `String(v)`: a string is itself, a number's rendering reads back as that number, a plain object is "[object Object]" and the empty array the empty string |
| `Coercions.ToNumber` | utils/apiFeatures.js:89-90 | `+v`: `undefined` is NaN; `null`, `false`, "" and `[]` are 0; a number is itself; a string is read as `Number(s)`; a one-number array is that number |
| `Coercions.DigitsRoundTrip` | utils/apiFeatures.js:89-90 | the decimal digits of a natural number are all digits and read back as that number |
| `Coercions.NumberOfRendering` | utils/apiFeatures.js:89-90 | `+String(n)` is `n` for every integer |
| `Coercions.NegativeRendering` | utils/apiFeatures.js:89-90 | a minus sign followed by the digits of m > 0 reads as −m |
| `Strings.ToLower` | models/cabinsModel.js:104 | `toLowerCase()` leaves no upper-case letter, keeps the empty string empty and never shortens a string |
| `Strings.ToLowerIdempotent` | models/cabinsModel.js:104 | lowercasing twice is lowercasing once |
| `Strings.TrimStart` | utils/apiFeatures.js:108-109 | exactly the leading white space is removed: what goes is white space and what stays does not start with it |
| `Strings.TrimEnd` | utils/apiFeatures.js:108-109 | exactly the trailing white space is removed: what goes is white space and what stays does not end with it |
| `Strings.Trim` | utils/apiFeatures.js:108-109 | `trim()` gives a slice of the string that neither starts nor ends with white space |
| `Strings.TrimIdempotent` | utils/apiFeatures.js:108-109 | trimming a trimmed string changes nothing |
| `Strings.Utf16Length` | models/bookingsModel.js:101 | `s.length` counts UTF-16 units: between the number of characters and twice it, and exactly that number when every character is in the basic plane |
| `Strings.Split` | utils/apiFeatures.js:48 | `split` on one character gives at least one piece and no piece holds the separator |
| `Strings.JoinSplit` | utils/apiFeatures.js:48 | joining the pieces with the separator gives back the string |
| `Strings.SplitWithoutSeparator` | utils/apiFeatures.js:48 | a string without the separator is one piece |
| `Strings.ReplaceChar` | utils/apiFeatures.js:70 | `replaceAll` of one character by another keeps the length, replaces every occurrence and changes nothing else |
| `Json.Truthy` | controllers/authController.js:264 | a value is falsy exactly when it is `null`, `false`, 0 or "" |
| `Json.TruthyOpt` | controllers/authController.js:264 | a possibly missing value is falsy exactly when it is missing, `null`, `false`, 0 or "" |
| `Casts.CastString` | models/bookingsModel.js:47-50 | a `String` path keeps a string, renders a number or a boolean, and takes a document's id; it is empty exactly for a missing key, `null`, an array or a plain object that is no document |
| `Casts.StringFailure` | models/bookingsModel.js:47-50 | a cast error is recorded exactly when the `String` cast refuses, with the message "Cast to string failed for value … at path …" |
| `Casts.CastNumber` | models/bookingsModel.js:42-46 | a `Number` path keeps a number, reads booleans as 1 and 0 and a numeric string as `Number(s)`; it is empty exactly for a missing key, `null`, "" or a refused value |
| `Casts.NumberFailure` | models/bookingsModel.js:42-46 | a cast error is recorded exactly when the `Number` cast refuses |
| `Casts.CastNumberOfRendering` | models/cabinsModel.js:16-20 | a number sent as its decimal text casts to that number |
| `Casts.CastDecimal` | models/bookingsModel.js:57-65 | a `Decimal128` path keeps a number and reads a signed digit string as its value; it is empty exactly for a missing key, `null` or a refused value |
| `Casts.CastDecimalOfRendering` | models/cabinsModel.js:21-25 | a price sent as its decimal text casts to that amount |
| `Casts.DecimalFailure` | models/bookingsModel.js:57-65 | a cast error is recorded exactly when the `Decimal128` cast refuses, naming `BSONError` for a string |
| `Casts.BoolValue` | models/bookingsModel.js:83-92 | true, "true", 1, "1" and "yes" read as true; false, "false", 0, "0" and "no" as false; `null` and every other value as no value |
| `Casts.CastBool` | models/bookingsModel.js:83-92 | a missing key or a refused value leaves the default; any other value is read as a boolean |
| `Casts.BoolFailure` | models/bookingsModel.js:83-92 | a cast error naming the inner `CastError` is recorded exactly when the `Boolean` cast refuses |
| `Casts.TimeClip` | models/bookingsModel.js:38-41 | a time is a valid date exactly within 8.64e15 ms of the epoch, and is then kept |
| `Casts.DateOf` | models/bookingsModel.js:38-41 | a number is milliseconds, clipped to the valid range; a boolean makes no date |
| `Casts.CastDate` | models/bookingsModel.js:38-41 | a `Date` path is empty exactly for a missing key, `null`, "" or a value that makes no valid date; a number is milliseconds; a non-numeric string goes to the date parser; a boolean never casts |
| `Casts.DateFailure` | models/bookingsModel.js:38-41 | a cast error is recorded exactly when the `Date` cast refuses |
| `Casts.DocumentId` | models/bookingsModel.js:103-114 | an object stands for a document exactly when it has a non-empty string `_id` |
| `Casts.CastObjectId` | models/bookingsModel.js:103-114 | an `ObjectId` path holds a value only when its `String` form passes the ObjectId test; a string that passes is kept; a missing key and `null` give none |
| `Casts.ObjectIdFailure` | models/bookingsModel.js:103-114 | a cast error naming `BSONError` is recorded exactly when the `ObjectId` cast refuses |
| `Casts.Quoted` | controllers/errorController.js:23-29 | a string is quoted in single quotes, or in double quotes when it holds a single quote and no double quote |
| `Casts.Inspect` | controllers/errorController.js:23-29 | a string is inspected quoted and a number as its rendering |
| `Casts.Shown` | controllers/errorController.js:23-29 | a value in a cast message is shown starting with a double quote |
| `Casts.ShownString` | controllers/errorController.js:23-29 | a string without a single quote is shown as itself between double quotes |
| `Casts.CastMessage` | controllers/errorController.js:23-29 | a cast message names the kind, the value as shown, its type and the path, then the inner error's name exactly when there is one |
| `Casts.FailedPaths` | models/bookingsModel.js:38-114 | the paths of the recorded cast errors, one per error, in order |
| `Casts.FailureMessages` | controllers/errorController.js:23-29 | the messages of the recorded cast errors, one per error, in order |
| `Casts.Unless` | models/bookingsModel.js:38-114 | a path whose cast failed reports no validator message; any other path reports its validators' messages |
| `Casts.WithDefault` | models/bookingsModel.js:83-92 | a default fills only a missing key, never a `null` |
| `Casts.QueryItem` | controllers/guestsController.js:21 | one query value is `null` exactly when it was sent as `null` |
| `Casts.QueryItems` | controllers/guestsController.js:21 | one cast value per list item, in order |
| `Casts.FirstRefused` | controllers/guestsController.js:21 | the first list item the `String` cast refuses; none exactly when every item casts |
| `Casts.StringQuery` | controllers/guestsController.js:21 | a query value on a `String` path: missing means no condition; a scalar is one cast value; a list is any of its items, each cast; a plain object, or a list holding a refused item, rejects with a `CastError` on the path |
| `Casts.StringMeetsItself` | controllers/authController.js:273-276 | a string query asks for exactly the string through the setters, and a stored value equal to it meets it |
| `Casts.ArrayMeetsEachItem` | controllers/authController.js:273-276 | a list of strings is met by a stored value equal to any item through the setters |
| `ApiFeatures.NumberOr` | utils/apiFeatures.js:89-90 | `+v \|\| fallback`: `NaN` and 0 give the fallback, any other number stands for itself, so the result is the fallback or non-zero |
| `ApiFeatures.WordRun` | utils/apiFeatures.js:26 | the length of the leading run of word characters: all of them are word characters and the next one is not |
| `ApiFeatures.WithoutDollarsConcat` | utils/apiFeatures.js:24-29 | erasing `$` distributes over concatenation |
| `ApiFeatures.DollarFreeConcat` | utils/apiFeatures.js:24-29 | strings that agree once `$` are erased still agree when extended by such strings |
| `ApiFeatures.TaggedWord` | utils/apiFeatures.js:26-27 | tagging a word with `$` changes nothing once `$` are erased |
| `ApiFeatures.PrefixOnlyInsertsDollars` | utils/apiFeatures.js:24-29 | the operator rewriting only inserts `$`: erase them and the input is back |
| `ApiFeatures.WordRunOfWord` | utils/apiFeatures.js:26 | the word run of a word followed by a non-word character is that word |
| `ApiFeatures.PrefixWord` | utils/apiFeatures.js:26-27 | a whole word is rewritten on its own: `$` is added exactly when it is gt, gte, lt, lte, eq or regex |
| `ApiFeatures.PrefixOperatorWord` | utils/apiFeatures.js:26-27 | `gte` becomes `$gte` |
| `ApiFeatures.LongerWordUntouched` | utils/apiFeatures.js:26 | `gtex` is not an operator word and stays as it is |
| `ApiFeatures.UnderscoreJoinsWords` | utils/apiFeatures.js:26 | `_` is a word character, so `price_gte` stays as it is |
| `ApiFeatures.PrefixAfterPunctuation` | utils/apiFeatures.js:26 | a word boundary need not be white space: `a-lt` becomes `a-$lt` |
| `ApiFeatures.PrefixSingleEntry` | utils/apiFeatures.js:24-29 | the rewriting of the serialised query reaches keys and values alike |
| `ApiFeatures.DigitsUntouched` | utils/apiFeatures.js:26 | a number is left alone |
| `ApiFeatures.PriceUntouched` | utils/apiFeatures.js:26 | a field name that is not an operator word is left alone |
| `ApiFeatures.BracketOperatorPrefixed` | utils/apiFeatures.js:24-29 | `price[gte]=100` arrives as `{price: {gte: "100"}}` and leaves as `{price: {$gte: "100"}}` |
| `ApiFeatures.WithoutDirectives` | utils/apiFeatures.js:31-39 | no directive key (page, sort, limit, fields, lang, populate) is left; every other key reads as before; every entry left is an old one |
| `ApiFeatures.FilterEntries` | utils/apiFeatures.js:31-41 | the query object of `filter()` has its operators rewritten and never keeps a directive key (`page`, `sort`, `limit`, `fields`, `lang`, `populate`) |
| `ApiFeatures.ClauseFor` | utils/apiFeatures.js:46-55 | an entry makes an `$or` group exactly when its value is a string holding `|`; otherwise a clause on its key alone, the value as sent unless it is a `$regex` object |
| `ApiFeatures.Alternatives` | utils/apiFeatures.js:48 | one `{key: piece}` clause per piece, in order |
| `ApiFeatures.OrGroupPieces` | utils/apiFeatures.js:47-49 | a string with `\|` becomes one `$or` group with one clause per `split("\|")` piece, at least two, and the pieces joined by `\|` give the value back |
| `ApiFeatures.RegexCaseInsensitive` | utils/apiFeatures.js:50-51 | a `$regex` condition becomes an and-clause with `$options: "i"` and keeps its other operators |
| `ApiFeatures.PlainValueUnchanged` | utils/apiFeatures.js:52-53 | any other value becomes the equality clause `{key: value}` unchanged |
| `ApiFeatures.Groups` | utils/apiFeatures.js:43-55 | every entry gives exactly one or-group or one and-clause |
| `ApiFeatures.FinalFilter` | utils/apiFeatures.js:57-60 | the filter is `{$and: orGroups ++ andGroups}`, or `{}` when there are no clauses |
| `ApiFeatures.AllMatchInsert` | utils/apiFeatures.js:57-60 | inserting a group into the `$and` list adds exactly its own demand |
| `ApiFeatures.GroupsMeaning` | utils/apiFeatures.js:43-55 | the or-groups followed by the and-clauses all hold of a document exactly when every entry holds |
| `ApiFeatures.FinalFilterMeaning` | utils/apiFeatures.js:43-63 | the final filter holds of a document exactly when every entry of the query object holds: a `\|` value through one of its pieces, any other value as its clause |
| `ApiFeatures.FilterOutcome` | utils/apiFeatures.js:11-66 | without `filter` the applied filter is the final filter of the rewritten entries; a truthy `filter` is applied as parsed, and invalid JSON gives the plain Error "Invalid filter parameter format" |
| `ApiFeatures.GrammarFilterMeaning` | utils/apiFeatures.js:24-63 | without a `filter` parameter the filter applied holds of a document exactly when every rewritten entry holds |
| `ApiFeatures.BuildFilter` | utils/apiFeatures.js:41-60 | the loop over the entries pushes into the or- and and-lists so that the result is the final filter of the groups |
| `ApiFeatures.APIFeatures.constructor` | utils/apiFeatures.js:4-9 | the query, query string, default sort and whitelist are kept; no filter has been applied yet |
| `ApiFeatures.APIFeatures.Filter` | utils/apiFeatures.js:11-66 | an applied filter is both appended as a `find` and kept as `filterQuery`; on the error neither changes |
| `ApiFeatures.SortOrder` | utils/apiFeatures.js:68-76 | a falsy `sort` gives the default order; a string `sort` gives the same string with every comma turned into a space; any other truthy `sort` is the TypeError `replaceAll` throws |
| `ApiFeatures.APIFeatures.Sort` | utils/apiFeatures.js:68-76 | the order is appended to the query, or the query is unchanged on the error |
| `ApiFeatures.Projection` | utils/apiFeatures.js:78-86 | a falsy `fields` gives `-__v`; a string `fields` gives the same string with every comma turned into a space; any other truthy `fields` is the TypeError `replaceAll` throws |
| `ApiFeatures.APIFeatures.LimitFields` | utils/apiFeatures.js:78-86 | the projection is appended to the query, or the query is unchanged on the error |
| `ApiFeatures.Window` | utils/apiFeatures.js:88-94 | the limit is `+limit \|\| 100`, never 0, and skip is (page − 1) · limit with page `+page \|\| 1` |
| `ApiFeatures.DefaultWindow` | utils/apiFeatures.js:89-91 | no page and no limit give the first hundred; `limit=0` falls back to 100 too |
| `ApiFeatures.SecondPageOfTen` | utils/apiFeatures.js:89-91 | `page=2&limit=10` skips 10 and takes 10 |
| `ApiFeatures.APIFeatures.Paginate` | utils/apiFeatures.js:88-94 | the skip and the limit of the window are appended to the query |
| `ApiFeatures.Allowed` | utils/apiFeatures.js:104-106 | the subfields a whitelisted path allows are those written for it |
| `ApiFeatures.WhitelistKeys` | utils/apiFeatures.js:100 | the paths the whitelist names (no ensures: the definition is the set of its first components) |
| `ApiFeatures.Keep` | utils/apiFeatures.js:101-105 | a subfield is kept exactly when it was requested and is allowed |
| `ApiFeatures.EntryDirective` | utils/apiFeatures.js:98-111 | an entry is dropped exactly when its path is neither a whitelist key nor an inherited key of `Object.prototype`; it throws a TypeError exactly when the path is only inherited; otherwise its directive has the path trimmed |
| `ApiFeatures.EntryDirectiveFields` | utils/apiFeatures.js:101-110 | requested subfields are intersected with the whitelist; no subfields select every whitelisted one |
| `ApiFeatures.Directives` | utils/apiFeatures.js:98-113 | the map succeeds exactly when no entry throws, and then the surviving directives are exactly those of the whitelisted entries; otherwise the error is that of the first entry that threw |
| `ApiFeatures.PopulateList` | utils/apiFeatures.js:96-118 | no truthy `populate` gives no directive; a non-string one is the TypeError `split` throws; with no whitelist the TypeError the first entry's `in` test throws, whose message names that entry's path; otherwise the directives of its `;`-entries |
| `ApiFeatures.PopulateWithoutWhitelist` | utils/apiFeatures.js:97-99 | without a whitelist, a `populate` of the form `path:fields;rest` fails with the TypeError `Cannot use 'in' operator to search for 'path' in undefined`, naming the first entry's path |
| `ApiFeatures.InUndefined` | utils/apiFeatures.js:99 | the message of the TypeError `path in undefined` throws (no ensures: a definition) |
| `ApiFeatures.PopulateOnlyWhitelisted` | utils/apiFeatures.js:98-113 | every populated path comes from an entry whose path is a whitelist key |
| `ApiFeatures.PopulateSteps` | utils/apiFeatures.js:113-115 | one `populate` call per directive, in order |
| `ApiFeatures.PopulateStepsSnoc` | utils/apiFeatures.js:113-115 | one more directive adds its `populate` call at the end |
| `ApiFeatures.APIFeatures.PopulateFields` | utils/apiFeatures.js:96-118 | the loop appends exactly the populate calls of the surviving directives, or leaves the query unchanged on the error |
| `ApiFeatures.PrefixOperators` | utils/apiFeatures.js:25-28 | the rewriting never shortens a string, and only the empty string stays empty |
| `ApiFeatures.PrefixValue` | utils/apiFeatures.js:24-29 | the rewritten value has the same kind: a string is rewritten, an array element by element with its length kept, and numbers, booleans and null are unchanged |
| `ApiFeatures.EntryOutcomes` | utils/apiFeatures.js:98-111 | one outcome per `;`-entry, in order, each that entry's directive |
| `ApiFeatures.Collect` | utils/apiFeatures.js:98-113 | the collection succeeds exactly when every outcome does, keeping exactly the present directives; otherwise it fails with the error of the first failed outcome |
| `ApiFeatures.CollectedMembers` | utils/apiFeatures.js:98-113 | a directive survives exactly when some entry produced it |
| `ApiFeatures.InheritedPathThrows` | utils/apiFeatures.js:100-106 | an entry naming an inherited key the whitelist lacks makes the whole populate throw a TypeError |
| `ApiFeatures.NoInheritedPathInEmpty` | utils/apiFeatures.js:97-99 | an entry with an inherited path comes from a non-empty `populate` string |
| `ApiFeatures.PopulateOfString` | utils/apiFeatures.js:97-98 | a non-empty string `populate` with a whitelist gives the directives of its `;`-entries |
| `ApiFeatures.DirectivesFailWith` | utils/apiFeatures.js:98-111 | one throwing entry makes the whole map throw, and what it throws is a TypeError |
| `ApiFeatures.EntryThrows` | utils/apiFeatures.js:100-106 | an entry throws exactly when its path is inherited and not on the whitelist, and it throws a TypeError |
| `ApiControllers.RestrictedTo` | controllers/apiController.js:17-28 | `next()` is called exactly when the caller's role is one of the roles; otherwise 403 unAuthorized |
| `ApiControllers.OwnershipFor` | controllers/apiController.js:30-36 | no ownership restriction exactly for admin and superAdmin; `{_id: user._id}` for every other role |
| `ApiControllers.IsAdmin` | controllers/apiController.js:31 | admin and superAdmin are the roles without ownership restriction (no ensures: a definition) |
| `ApiControllers.ApiController.SetUserRestriction` | controllers/apiController.js:30-36 | the field holds the ownership restriction of the caller, and `next` is never called |
| `ApiControllers.NestedFilter` | controllers/apiController.js:38-47 | the nested-route filter has at most one key |
| `ApiControllers.NestedFilterMeaning` | controllers/apiController.js:40-44 | the filter asks for `doc[resourceName] == req.params[filter]` when the parameter is a non-empty string, and for nothing when it is empty |
| `ApiControllers.ApiController.SetNestedRouteFilter` | controllers/apiController.js:38-47 | a truthy parameter gives `{resourceName: param}`, a falsy one `{}`, and `next` is called |
| `ApiControllers.ApiController.RestrictedFieldsForUpdate` | controllers/apiController.js:49-55 | the flag is set exactly when some key of the object is a restricted field |
| `ApiControllers.NestedOverridesClient` | controllers/apiController.js:64-67 | in the created body a nested-route key overrides the client's value; every other key keeps the client's |
| `ApiControllers.CreateFields` | controllers/apiController.js:60-67 | `{ ...obj, ...nested }` (no ensures: `NestedOverridesClient` states its meaning) |
| `ApiControllers.CreateBodies` | controllers/apiController.js:58-68 | an array body gives one merged body per element, in order; any other body gives one |
| `ApiControllers.CreateAll` | controllers/apiController.js:70 | `create` succeeds exactly when every body is accepted, and then yields one document per body in order; a failure is the error of some body |
| `ApiControllers.CreateAllStep` | controllers/apiController.js:70 | accepting one more body appends its document |
| `ApiControllers.CreateAllPrefixFail` | controllers/apiController.js:70 | the first refused body decides the error |
| `ApiControllers.ApiController.CreateOne` | controllers/apiController.js:57-72 | on success the created documents are appended and the answer is 201 with them (an array for an array body); on a failure nothing is stored and the error is passed on |
| `ApiControllers.ListBody` | controllers/apiController.js:123-128 | the list answer has exactly four fields: status "succes", the count as `allDocsNumber`, the page length as `results`, and the page under `data.docs` |
| `ApiControllers.ListQuery` | controllers/apiController.js:75-95 | the query is `find(restrictions)`, then the populate calls, the filter, the sort, the projection, skip and limit, in that order |
| `ApiControllers.ListQueryParts` | controllers/apiController.js:75-95 | the steps of the query in their three parts: start, populate calls, the rest |
| `ApiControllers.StartList` | controllers/apiController.js:75-86 | a fresh builder whose steps are `find(restrictions)`, the populate calls and the filter, with `filterQuery` set; or the first error |
| `ApiControllers.ShapeList` | controllers/apiController.js:87-94 | the sort, projection, skip and limit are appended, or the first error is returned |
| `ApiControllers.BuildListQuery` | controllers/apiController.js:75-95 | the builder chain yields the query and filter of the list plan, or its first error |
| `ApiControllers.ApiController.GetAllDocuments` | controllers/apiController.js:74-129 | the answer is the builder error, the database error, or 200 with the page and the count of documents matching the restrictions spread with `filterQuery` |
| `ApiControllers.ListPlan` | controllers/apiController.js:75-104 | the query is built exactly when populate, filter, sort and projection all succeed; the first failing builder's error is the result; the filter it keeps is `filterQuery` |
| `ApiControllers.ListReply` | controllers/apiController.js:93-128 | a builder error or a database error is passed on; otherwise 200 with `results` the page size and `allDocsNumber` the count of documents matching the restrictions spread with `filterQuery` |
| `ApiControllers.ApiController.Restrictions` | controllers/apiController.js:76-80 | `{ ...nested, ...ownership, ...roles }` (no ensures: a definition) |
| `ApiControllers.ApiController.TargetFilter` | controllers/apiController.js:157-161 | `{ _id, ...ownership, ...roles }` (no ensures: a definition) |
| `ApiControllers.SpreadDisjoint` | controllers/apiController.js:99-104 | spreading an object with fresh keys appends its entries |
| `ApiControllers.GrammarFilterKeys` | utils/apiFeatures.js:57-60 | without `filter`, `filterQuery` has no key or just `$and` |
| `ApiControllers.AndKeysFresh` | controllers/apiController.js:99-104 | a filter with only `$and` adds a fresh key to restrictions without `$and` |
| `ApiControllers.CountMeansConjunction` | controllers/apiController.js:99-108 | without a `filter` parameter, a document is counted exactly when it meets the restrictions and every query entry |
| `ApiControllers.VerbatimFilterOverridesInCount` | controllers/apiController.js:99-104 | a key of a verbatim `filter` overrides the same key of a restriction in the count: a later spread wins |
| `ApiControllers.OwnershipReplacesRequestedId` | controllers/apiController.js:133-136 | for a non-admin, `{_id: params.id, ...{_id: own}}` asks only for the caller's own id |
| `ApiControllers.IdCastError` | controllers/apiController.js:133-142 | the query fails with a CastError exactly when its `_id` condition is a string that is no ObjectId, and the error names `_id` and that string |
| `ApiControllers.AdminInvalidIdIsCastError` | controllers/apiController.js:131-142 | an administrator asking for an id that is no ObjectId gets the CastError |
| `ApiControllers.OwnIdIsCast` | controllers/apiController.js:133-142 | for anyone else only the caller's own id is cast, whatever id was requested |
| `ApiControllers.ApiController.GetOne` | controllers/apiController.js:131-154 | a populate error, or the CastError of an `_id` that is no ObjectId, goes to `next`; otherwise the document matching `_id` and the ownership restriction (not the role restriction) is answered 200 and `next` is called, or 404 noDocument |
| `ApiControllers.ApiController.UpdateOne` | controllers/apiController.js:156-173 | an `_id` that is no ObjectId gives the CastError and nothing changes; otherwise the first document matching `_id`, ownership and role is replaced by the save of its shallow merge with the body and answered 200; 404 noDocument, or the save error, and nothing changed otherwise |
| `ApiControllers.ApiController.DeleteOne` | controllers/apiController.js:175-189 | an `_id` that is no ObjectId gives the CastError and nothing changes; otherwise the first document matching `_id`, ownership and role is removed and 204 answered; 404 noDocument and nothing changed otherwise |
| `ApiControllers.DeleteRemovesOneMatch` | controllers/apiController.js:176-180 | the removal takes out exactly one matching document and keeps all the others |
| `ApiControllers.ApiController.DeleteAll` | controllers/apiController.js:191-194 | the collection is empty and the answer is 204 |
| `ApiControllers.ApiController.constructor` | controllers/apiController.js:9-15 | a controller starts with its collection and settings and with no restriction set |
| `Sanitizer.Renamed` | utils/customMongoSenitizer.js:13 | the renamed key has the same length, every `$` and `.` replaced by `_` and every other character kept, and is no longer dangerous |
| `Sanitizer.Dangerous` | utils/customMongoSenitizer.js:12 | a key is rewritten when it starts with `$` or holds a `.` (no ensures: a definition) |
| `Sanitizer.NewKey` | utils/customMongoSenitizer.js:8-16 | the new key is never dangerous, and it equals the old key exactly when the old key neither starts with `$` nor contains `.` |
| `Sanitizer.ItemsDepth` | utils/customMongoSenitizer.js:28-29 | the nesting depth bound of an array covers every element |
| `Sanitizer.FieldsDepth` | utils/customMongoSenitizer.js:28-29 | the nesting depth bound of an object covers every value |
| `Sanitizer.ItemsDepthLeast` | utils/customMongoSenitizer.js:28-29 | the array bound is the least one: any bound of the elements bounds it |
| `Sanitizer.FieldsDepthLeast` | utils/customMongoSenitizer.js:28-29 | the object bound is the least one: any bound of the values bounds it |
| `Sanitizer.Sanitized` | utils/customMongoSenitizer.js:2-32 | sanitising never deepens a value |
| `Sanitizer.Fold` | utils/customMongoSenitizer.js:5-31 | the pass over the keys, carrying whether the `__proto__` setter is still reached, keeps every value below the depth bound |
| `Sanitizer.FoldOpen` | utils/customMongoSenitizer.js:5-31 | whether the setter is still reached after the pass: once it is not, it never is again |
| `Sanitizer.Step` | utils/customMongoSenitizer.js:6-30 | one key's step keeps every value below the depth bound |
| `Sanitizer.StepOpen` | utils/customMongoSenitizer.js:12-15 | whether the setter is still reached after one step: only a value given to the setter can change it, and only from reached to not reached |
| `Sanitizer.ToProto` | utils/customMongoSenitizer.js:12-13 | a key the step renames to `__proto__` (no ensures: a definition; `ProtoRenames` gives instances) |
| `Sanitizer.ProtoSetter` | utils/customMongoSenitizer.js:12-15 | the assignment of a key renamed to `__proto__` reaches the prototype setter, and creates no key, exactly when the object owns no `__proto__` and its prototype chain still reaches the setter (no ensures: a definition; `ProtoSetterStep`, `StepKeys`, `StepProtoKey` and `SanitizedKeys` state its effect) |
| `Sanitizer.KeepsSetter` | utils/customMongoSenitizer.js:14-29 | after the setter is given a value, it is still reached for a scalar or an array, not for `null` or an object owning `__proto__`, and for another object only when sanitising it leaves it without an own `__proto__` and with the setter reached (no ensures: a definition; `NullPrototypeFreesKey`, `ScalarKeepsSetter` and `OwnedPrototypeFreesKey` show its cases) |
| `Sanitizer.Moved` | utils/customMongoSenitizer.js:12-16 | the object after re-keying: unchanged for a safe key, the old key deleted when the prototype setter takes the value, otherwise the value copied to the new key and the old key deleted (no ensures: `MovedFacts` states its meaning) |
| `Sanitizer.SetBelow` | utils/customMongoSenitizer.js:14 | writing a shallower value keeps the object below its bound |
| `Sanitizer.Sanitize` | utils/customMongoSenitizer.js:2-4 | the recursive `sanitize` computes the sanitised value: objects key by key, arrays element by element, other values unchanged |
| `Sanitizer.SanitizeFields` | utils/customMongoSenitizer.js:5-31 | the `forEach` over the original keys of a freshly parsed object computes the fold over those keys, and whether the setter is still reached afterwards |
| `Sanitizer.SanitizeStep` | utils/customMongoSenitizer.js:6-30 | one key: an unsafe key is re-keyed and deleted, and the value under the new key is sanitised when it is an object; when the copy reaches the prototype setter the key is only deleted, an object prototype without an own `__proto__` is sanitised, and the result says whether the setter is still reached |
| `Sanitizer.BelowDepth` | utils/customMongoSenitizer.js:2-32 | every value of an object lies below the object's depth |
| `Sanitizer.SanitizedClean` | utils/customMongoSenitizer.js:2-32 | after sanitising, no key at any depth starts with `$` or contains `.`, and keys stay unique |
| `Sanitizer.FoldClean` | utils/customMongoSenitizer.js:5-31 | the pass over the keys leaves every key safe and every value clean, keys unique |
| `Sanitizer.MovedFacts` | utils/customMongoSenitizer.js:12-16 | after re-keying, the value sits under the new key, unless the prototype setter took it and nothing is there, and every other entry is an old one |
| `Sanitizer.StepClean` | utils/customMongoSenitizer.js:6-30 | one step makes its key safe and its value clean and keeps the keys already done clean |
| `Sanitizer.StepCleanNested` | utils/customMongoSenitizer.js:12-29 | the step for an object or array value: the sanitised value is under the new key, or nothing is when the prototype setter took it; keys stay safe and unique |
| `Sanitizer.StepCleanScalar` | utils/customMongoSenitizer.js:12-25 | the step for any other value: its key becomes safe, and the value is stored under the new key as it was, not rewritten, or discarded when the prototype setter took it |
| `Sanitizer.ProtoSetterStep` | utils/customMongoSenitizer.js:12-16 | when the copy reaches the prototype setter the step only deletes the old key: nothing is stored under `__proto__` and the done keys stay clean |
| `Sanitizer.CleanUnchanged` | utils/customMongoSenitizer.js:2-32 | a value already clean is left as it is |
| `Sanitizer.FoldUnchanged` | utils/customMongoSenitizer.js:5-31 | an object whose keys are safe and whose values are clean is left as it is |
| `Sanitizer.SanitizeIdempotent` | utils/customMongoSenitizer.js:2-32 | sanitising twice is sanitising once |
| `Sanitizer.UniqueKeysNoDup` | utils/customMongoSenitizer.js:5 | the keys of an object are distinct |
| `Sanitizer.NewKeys` | utils/customMongoSenitizer.js:12-16 | the renamed keys of a pass, one per key and in the same order |
| `Sanitizer.StepProtoKey` | utils/customMongoSenitizer.js:12-16 | after a step the object owns `__proto__` exactly when it owned it before, or the step renamed its key to `__proto__` once the setter was no longer reached |
| `Sanitizer.StepKeys` | utils/customMongoSenitizer.js:12-16 | after one step the keys are the old ones, except an unsafe key being removed, plus the new key unless the prototype setter took the value (which depends on whether the setter is still reached) |
| `Sanitizer.FoldKeys` | utils/customMongoSenitizer.js:5-31 | after the pass, every key other than `__proto__` is there exactly when it is a safe old key or the new key of a key passed |
| `Sanitizer.RenamedWhileClosed` | utils/customMongoSenitizer.js:12-15 | the key at a position of the pass is renamed to `__proto__` and comes after the setter stopped being reached (no ensures: a definition) |
| `Sanitizer.FoldOpenPrefix` | utils/customMongoSenitizer.js:5-31 | whether the setter is reached after a prefix of the pass is the first step followed by the rest of that prefix |
| `Sanitizer.ClosedAfterStep` | utils/customMongoSenitizer.js:5-31 | a key renamed to `__proto__` after the setter stopped being reached is the first key, with the setter already not reached, or such a key of the rest of the pass |
| `Sanitizer.FoldProtoKey` | utils/customMongoSenitizer.js:5-31 | after the pass the object owns `__proto__` exactly when it owned it before, or some key renamed to `__proto__` came after the setter stopped being reached |
| `Sanitizer.SanitizedKeys` | utils/customMongoSenitizer.js:2-32 | the keys of a sanitised object other than `__proto__` are exactly the new keys of its keys; it owns `__proto__` exactly when it owned it before, or a key renamed to `__proto__` came after a `null`, or an object owning `__proto__`, took the setter away |
| `Sanitizer.OldKeyIsNewKey` | utils/customMongoSenitizer.js:12 | a safe key of the pass is its own new key |
| `Sanitizer.ProtoRenameLost` | utils/customMongoSenitizer.js:12-16 | `{"$_proto__": 1}` becomes `{}`: the prototype setter discards the value and the old key is deleted |
| `Sanitizer.ProtoRenames` | utils/customMongoSenitizer.js:12-13 | `$_proto__` and `$$proto__` are both renamed to `__proto__` |
| `Sanitizer.RenamedOwnOnceClosed` | utils/customMongoSenitizer.js:12-16 | once the setter is no longer reached, `{"$$proto__": 1}` becomes `{"__proto__": 1}` |
| `Sanitizer.NullPrototypeFreesKey` | utils/customMongoSenitizer.js:12-16 | `{"$_proto__": null, "$$proto__": 1}` becomes `{"__proto__": 1}`: after `null` is the prototype the second key is an own key |
| `Sanitizer.ScalarKeepsSetter` | utils/customMongoSenitizer.js:12-16 | `{"$_proto__": 1, "$$proto__": 2}` becomes `{}`: the setter ignores a scalar and takes the second value too |
| `Sanitizer.OwnedPrototypeFreesKey` | utils/customMongoSenitizer.js:12-29 | `{"$_proto__": {"__proto__": null}, "$$proto__": 1}` becomes `{"__proto__": 1}`: a prototype owning `__proto__` stops the lookup |
| `Sanitizer.OwnProtoOverwritten` | utils/customMongoSenitizer.js:12-16 | with an own `__proto__` key, `{"__proto__": 1, "$_proto__": 2}` becomes `{"__proto__": 2}` |
| `Sanitizer.RenamedKeyOverwrites` | utils/customMongoSenitizer.js:14 | `{_a: 1, $a: 2}` and `{$a: 2, _a: 1}` both become `{_a: 2}`: the renamed key overwrites |
| `Sanitizer.RenamedAfterKey` | utils/customMongoSenitizer.js:14 | `{_a: 1, $a: 2}` becomes `{_a: 2}` |
| `Sanitizer.RenamedBeforeKey` | utils/customMongoSenitizer.js:14 | `{$a: 2, _a: 1}` becomes `{_a: 2}` |
| `Sanitizer.OperatorKeyRenamed` | utils/customMongoSenitizer.js:12-16 | `{$gt: ""}` becomes `{_gt: ""}` |
| `Sanitizer.NestedOperatorDefused` | utils/customMongoSenitizer.js:28-29 | `{email: {$gt: ""}}` becomes `{email: {_gt: ""}}` |
| `Sanitizer.InnerDollarKept` | utils/customMongoSenitizer.js:12 | a key with `$` only inside keeps its name, and string values are never rewritten |
| `Sanitizer.Request.constructor` | utils/customMongoSenitizer.js:34 | a request keeps its body, parameters and query |
| `Sanitizer.Request.CustomMongoSanitize` | utils/customMongoSenitizer.js:34-35 | the body and the parameters are sanitised, the query is not, and `next` is called once |
| `BookingsModel.DecimalOf` | models/bookingsModel.js:57-65 | a price path is stored as a Decimal128 exactly when a value is given |
| `BookingsModel.AddDays` | models/bookingsModel.js:143 | `addDays` keeps the time of day: the UTC midnight of the result is n days after that of the start |
| `BookingsModel.EndDateValid` | models/bookingsModel.js:51 | the end date validator (no ensures: a definition; `DerivedEndAlwaysValid` states that the derived end passes) |
| `BookingsModel.StatusPaid` | models/bookingsModel.js:72-78 | a checked-in or checked-out booking must be paid (no ensures: a definition) |
| `BookingsModel.Admissible` | models/bookingsModel.js:38-114 | no cast error and every validator passes (no ensures: `ValidationMessages` states that it holds exactly when nothing is reported) |
| `BookingsModel.FailureReported` | models/bookingsModel.js:38-114 | every recorded cast error is among the reported messages, and a booking that recorded one is refused |
| `BookingsModel.SetEndDateUtc` | models/bookingsModel.js:153-160 | an end date exists exactly when the start is set and `numNights > 0`, and it is the start plus that many days |
| `BookingsModel.PreValidate` | models/bookingsModel.js:204-207 | the pre-validate hook always overwrites `endDateUtc` with the derived end and touches nothing else |
| `BookingsModel.DerivedEndAlwaysValid` | models/bookingsModel.js:209-212 | the derived end always passes the end-date validator |
| `BookingsModel.ClientEndIgnored` | models/bookingsModel.js:204-207 | an end date sent by the client makes no difference after pre-validation |
| `BookingsModel.StayMessages` | models/bookingsModel.js:38-56 | the stay paths pass exactly when the start is set, `numNights ≥ 1`, the time zone is given, the end is later than the start's day and `numGuests` is set |
| `BookingsModel.StatusMessages` | models/bookingsModel.js:66-82 | at most one status message; none exactly when the status is given, is one of unconfirmed/checked-in/checked-out, and is paid when checked in or out |
| `BookingsModel.RecordMessages` | models/bookingsModel.js:66-114 | the other paths pass exactly when the status is valid and paid when it must be, the PNR is given, observations have at most 250 characters, and cabin and guest are set |
| `BookingsModel.ValidationMessages` | models/bookingsModel.js:38-114 | validation reports nothing exactly when the document is admissible |
| `BookingsModel.Overlap` | models/bookingsModel.js:142-149 | two stays without a night never clash; two stays of at least one night starting on the same UTC day always do |
| `BookingsModel.OverlapMeansSharedInstant` | models/bookingsModel.js:142-149 | two stays of at least one night clash, `!(bEnd <= cStart \|\| cEnd <= bStart)`, exactly when some instant lies in both of them (whole UTC days) |
| `BookingsModel.OverlapSymmetric` | models/bookingsModel.js:142-149 | the clash test does not depend on which stay is the new one |
| `BookingsModel.AdjacentStaysDoNotClash` | models/bookingsModel.js:149 | a stay starting on the day another ends does not clash with it |
| `BookingsModel.SameDaySameVerdict` | models/bookingsModel.js:142-146 | only the UTC day of a start matters to the clash test |
| `BookingsModel.ClashesWith` | models/bookingsModel.js:137-149 | another booking of the same cabin whose stay overlaps (no ensures: a definition; `OverlapMeansSharedInstant` states its meaning) |
| `BookingsModel.TotalPrice` | models/bookingsModel.js:198-202 | the total is the cabin price plus the extra price, either one counting as 0 when absent (and 0 when both are) |
| `BookingsModel.Thrown` | models/bookingsModel.js:184-196 | a price lookup that reads through a missing record throws a non-operational `TypeError` without a code |
| `BookingsModel.CabinCost` | models/bookingsModel.js:184-191 | no nights, or a discount equal to the regular price, cost nothing; with a discount between 0 and the regular price the cost lies between 0 and regular price · nights |
| `BookingsModel.BreakfastCost` | models/bookingsModel.js:193-196 | no nights or no guests cost nothing, and non-negative inputs never give a negative cost |
| `BookingsModel.Priced` | models/bookingsModel.js:214-231 | only the three prices change; a set cabin price and a set extra price are kept; without breakfast the extra price is kept as it is; the total is recomputed from the parts |
| `BookingsModel.FirstSavePrices` | models/bookingsModel.js:184-196 | a first save prices the cabin at (regular − discount) · nights, and breakfast, when chosen, at price · nights · guests |
| `BookingsModel.ResavePricesStable` | models/bookingsModel.js:219-230 | re-saving a priced booking keeps both prices and recomputes the total as their sum |
| `BookingsModel.ToNumber` | models/bookingsModel.js:236-241 | a present price becomes a number of the same amount; an absent one stays absent |
| `BookingsModel.Converted` | models/bookingsModel.js:234-242 | `convertDecimal128Fields` converts the three prices and nothing else |
| `BookingsModel.ConvertedKeepsAmounts` | models/bookingsModel.js:234-242 | the conversion keeps every amount and the total, is idempotent, and changes no other field |
| `BookingsModel.ConvertAll` | models/bookingsModel.js:244-245 | converting an array converts every element in place |
| `BookingsModel.IndexOfId` | models/bookingsModel.js:137-138 | the position of the document with that `_id`, or none when no document has it |
| `BookingsModel.Upsert` | models/bookingsModel.js:214-232 | a save replaces the document with the same `_id`, or appends a new one |
| `BookingsModel.RemoveId` | models/bookingsModel.js:264 | deleting by `_id` removes that document and keeps the rest in order |
| `BookingsModel.RemoveInserted` | models/bookingsModel.js:264 | deleting a just-inserted document gives the old store back |
| `BookingsModel.SaveError` | models/bookingsModel.js:214-217 | a refused save rejects with the validation error, the 409 operational error, the lookup's `TypeError`, or the duplicate-key error on `pnrCode` |
| `BookingsModel.SaveOutcome` | models/bookingsModel.js:204-232 | an inadmissible document is refused with its messages; a clash with another booking of the cabin is refused 409; a saved document passed validation, clashes with nobody, holds a PNR nobody else holds and is priced |
| `BookingsModel.BookingsTable.constructor` | models/bookingsModel.js:264 | the collection starts empty and consistent |
| `BookingsModel.BookingsTable.DeleteById` | models/bookingsModel.js:264 | the document with the id is removed and the store stays consistent |
| `BookingsModel.BookingsTable.DeleteAll` | models/bookingsModel.js:264 | `deleteMany({})` leaves the store empty |
| `BookingsModel.BookingsTable.Save` | models/bookingsModel.js:204-258 | a refused save changes nothing; a saved document is upserted and read back converted; the store stays consistent |
| `BookingsModel.SaveKeepsConsistent` | models/bookingsModel.js:214-217 | a successful save keeps every stored booking admissible, ids unique and no two stays of a cabin clashing |
| `BookingsModel.RemoveKeepsConsistent` | models/bookingsModel.js:264 | removing a booking keeps the store consistent |
| `BookingsModel.PricesIrrelevant` | models/bookingsModel.js:136-151 | prices play no part in validation or in the clash test |
| `BookingsModel.UpsertKeepsInvariant` | models/bookingsModel.js:214-232 | upserting an admissible booking that clashes with nobody keeps the invariant |
| `BookingsModel.UpsertShape` | models/bookingsModel.js:214-232 | an upsert writes the document at one position and leaves the others unchanged |
| `BookingsModel.UpsertKeepsIds` | models/bookingsModel.js:214-232 | an upsert keeps ids unique |
| `BookingsModel.UpsertKeepsApart` | models/bookingsModel.js:136-151 | an upsert of a non-clashing booking keeps every pair of stays of a cabin apart |
| `BookingsController.CastBooking` | models/bookingsModel.js:38-114 | a body becomes a booking with the given `_id` and the cast errors of its paths; each path holds its value cast to the path's type; status is the lowercased cast status, "unconfirmed" when the key is missing or the value does not cast; the flags default to false the same way; a PNR code that does not cast is replaced by the generated one |
| `BookingsController.BookingCastErrors` | models/bookingsModel.js:38-114 | no cast error is recorded exactly when every path's value casts; the end date is left out because the pre-validate hook overwrites it |
| `BookingsController.StatusOf` | models/bookingsModel.js:66-82 | a status that is missing or does not cast leaves the lowercased default; a string is lowercased; `null` clears it |
| `BookingsController.PnrOf` | models/bookingsModel.js:93-97 | a PNR code that is missing or does not cast is the generated one; a string is kept |
| `BookingsController.GuestCountAsText` | models/bookingsModel.js:52-56 | a party size sent as text casts to the number and records no error |
| `BookingsController.UncastPaidFlag` | models/bookingsModel.js:88-92 | an `isPaid` that does not cast leaves the booking unpaid, and the save is refused reporting the cast error |
| `BookingsController.PaidFailureRecorded` | models/bookingsModel.js:88-92 | the cast error of an `isPaid` that does not cast is among the recorded ones |
| `BookingsController.CastEach` | controllers/bookingsController.js:41 | one booking per body, in order, each with its own generated id and PNR |
| `BookingsController.SaveEach` | controllers/bookingsController.js:41 | the run of saves never removes a booking and adds at most one per body; with no bodies it changes nothing and fails nowhere |
| `BookingsController.BookingJson` | models/bookingsModel.js:16-133 | the serialised booking is an object carrying its `_id` |
| `BookingsController.BookingJsonIsDocument` | models/bookingsModel.js:16-133 | the serialised booking lists the schema paths in order, each with its value, leaving out the absent ones |
| `BookingsController.BookingJsonShowsStay` | models/bookingsModel.js:38-65 | the start, nights, time zone, end and guest count are shown as stored |
| `BookingsController.BookingJsonShowsPrices` | models/bookingsModel.js:57-65 | the three prices are shown as their amounts, or not at all when absent |
| `BookingsController.BookingJsonShowsState` | models/bookingsModel.js:66-114 | the status, breakfast and payment flags, PNR, observations and cabin are shown as stored |
| `BookingsController.BookingJsonShowsGuest` | controllers/bookingsController.js:43-46 | `guestId` shows the populated guest when there is one, and the stored id otherwise |
| `BookingsController.BookingJsonShowsNothingElse` | models/bookingsModel.js:16-133 | no key outside the schema paths is shown |
| `BookingsController.SaveEachConsistent` | controllers/bookingsController.js:186 | saving the bodies of an array one after another keeps the store consistent |
| `BookingsController.SaveEachStops` | controllers/bookingsController.js:186 | after the first refused body no further body is saved |
| `BookingsController.SaveEachStep` | controllers/bookingsController.js:186 | one more body is upserted when saved, and a refusal ends the run with that failure |
| `BookingsController.SaveAll` | controllers/bookingsController.js:186 | the loop of saves leaves the store and the first failure exactly as the sequential run of saves does, and keeps the store consistent |
| `BookingsController.CreatedReply` | controllers/bookingsController.js:43-56 | a created booking is answered 201 with status "succes" and `data.populatedNewBooking`: the booking with its guest populated to `_id`, email and national id |
| `BookingsController.PopulatedGuest` | controllers/bookingsController.js:43-46 | no guest id gives no populate; an id without a guest gives `null`; a found guest is shown with only its `_id`, email and national id |
| `BookingsController.CreateNewBooking` | controllers/bookingsController.js:26-66 | the answer and the new store are those of `createNewBooking` on the old store |
| `BookingsController.ArrayCreate` | controllers/bookingsController.js:28-43 | an array body always ends with an error; the store is that of saving the elements in turn, at most one new booking per element, and the error is the `populate` TypeError when every element was saved |
| `BookingsController.ObjectCreate` | controllers/bookingsController.js:32-65 | a refused save is passed on with the store unchanged; a saved booking with the email sent is upserted and answered 201; with the email failing the answer is the 500 error |
| `BookingsController.AfterSave` | controllers/bookingsController.js:41-65 | a refusal is passed on with nothing stored; on success, when the email went out and the guest is found, the created reply and the upsert; otherwise the 500 emailSendError and the store with the new booking deleted again |
| `BookingsController.CreateFromArray` | controllers/bookingsController.js:28-31 | an array body: every element is saved in turn, then the call fails |
| `BookingsController.CreateFromObject` | controllers/bookingsController.js:32-65 | an object body: the save's refusal, or the 201, or the compensating delete when the email fails |
| `BookingsController.ObjectBody` | controllers/bookingsController.js:32-39 | the status of an object body is "unconfirmed", whatever the client sent |
| `BookingsController.NewBookingReply` | controllers/bookingsController.js:26-66 | an array body is created element by element, an object body as one booking (no ensures: `ArrayCreate` and `ObjectCreate` state the two cases) |
| `BookingsController.ObjectBodyUnconfirmed` | controllers/bookingsController.js:32-39 | an object body is stored as "unconfirmed", whatever status the client sent |
| `BookingsController.ArrayElementKeepsStatus` | controllers/bookingsController.js:28-39 | for an array body `status` lands on the array itself, so each element keeps the client's status, lowercased |
| `BookingsController.ArrayBodyNeverSucceeds` | controllers/bookingsController.js:41-43 | an array body always ends with an error (`populate` is not a method of an array), yet the bookings saved before stay stored |
| `BookingsController.EmailFailureUndoesCreate` | controllers/bookingsController.js:57-64 | when the email fails the store is as before and an error is passed on |
| `BookingsController.CreateAppends` | controllers/bookingsController.js:41-56 | when the email goes out, a saved booking is appended and answered 201; a refused save changes nothing |
| `BookingsController.BookingByPnr` | controllers/bookingsController.js:77-78 | the found booking has the PNR; none is found exactly when no booking has it |
| `BookingsController.GuestById` | controllers/bookingsController.js:79-84 | the populated guest is the one whose `_id` the booking holds |
| `BookingsController.MatchedGuest` | controllers/bookingsController.js:79-84 | a guest is populated only when it is the booking's guest and has both the given email and the given national id |
| `BookingsController.PnrFound` | controllers/bookingsController.js:77-92 | a found booking is answered 200 with status "success" and `data.booking`: the converted booking with the whole matched guest in place of `guestId` |
| `BookingsController.PnrLookup` | controllers/bookingsController.js:68-93 | a missing email, PNR or national id fails with bookingDataMissing before any lookup; a PNR code sent as a plain object rejects with its `CastError`; a booking is answered 200 only when its PNR meets the code's condition and its guest meets both the email's and the national id's |
| `BookingsController.NoBooking` | controllers/bookingsController.js:87-90 | no booking is an operational `AppError` without a code, status "error", message `noBooking` |
| `BookingsController.FirstWithPnr` | controllers/bookingsController.js:77-78 | the lookup of one PNR code finds the first booking holding it |
| `BookingsController.PnrLookupFound` | controllers/bookingsController.js:77-92 | past the guards, the booking the code finds and the guest meeting both conditions are answered |
| `BookingsController.PnrObjectRefused` | controllers/bookingsController.js:77-78 | a PNR code sent as a plain object rejects with a `CastError` on `pnrCode` |
| `BookingsController.PnrListMatchesEither` | controllers/bookingsController.js:77-78 | a PNR code sent twice asks for a booking holding either code |
| `BookingsController.PnrLookupFinds` | controllers/bookingsController.js:77-92 | a unique PNR whose guest matches both fields is answered |
| `BookingsController.WrongEmailHidesBooking` | controllers/bookingsController.js:87-90 | a correct PNR with a wrong email never reveals the booking |
| `BookingsController.OfCabin` | controllers/bookingsController.js:193-195 | the bookings of the cabin are exactly those with that `cabinId` |
| `BookingsController.Stays` | controllers/bookingsController.js:195 | one start-and-nights record per booking, in order |
| `BookingsController.StayJson` | controllers/bookingsController.js:195 | `.select("startDateUtc numNights")` shows the id, the start and the nights, and no other key |
| `BookingsController.OccupiedDays` | controllers/bookingsController.js:191-198 | a valid cabin id gives the stays of that cabin; an invalid one the cast error; a missing one the stays of all bookings |
| `BookingsController.At` | controllers/bookingsController.js:168 | `xs.at(k)`: a negative index counts from the end, and an index out of range gives `undefined` |
| `BookingsController.RestoredStatusByDay` | controllers/bookingsController.js:139-164 | when "today" means the current UTC day: a stay starting today or later is unconfirmed; a started stay ending today or later is checked-in and paid; one that ended before today is checked-out and paid |
| `BookingsController.RestoredStatusValid` | controllers/bookingsController.js:139-164 | every restored status passes the status validators |
| `BookingsController.RestoredStatus` | controllers/bookingsController.js:139-164 | a checked-in or checked-out record is paid; no status means no payment flag; every status is a valid one |
| `BookingsController.Clamp` | controllers/bookingsController.js:165-174 | the guest count is clamped to at most the capacity and is the given count whenever it fits |
| `BookingsController.Put` | controllers/bookingsController.js:175-182 | the mapped record has the written key and every other key of the seed |
| `BookingsController.SeedFieldsClampGuests` | controllers/bookingsController.js:165-179 | a restored record's guest count is at most the capacity of its cabin and is the seed's whenever that fits |
| `BookingsController.SeedFieldsStatus` | controllers/bookingsController.js:175-182 | a restored record names the cabin at the seed's position and carries the status the rules give |
| `BookingsController.SeedFields` | controllers/bookingsController.js:165-182 | the record built from one seed (no ensures: `SeedFieldsClampGuests` and `SeedFieldsStatus` state its properties) |
| `BookingsController.CabinNumberZeroIsLastCabin` | controllers/bookingsController.js:168 | cabin number 0 reads `at(-1)`, the last cabin |
| `BookingsController.MapSeeds` | controllers/bookingsController.js:139-183 | the mapping fails exactly when some seed names no cabin; otherwise it gives one record per seed |
| `BookingsController.ReloadBookingsData` | controllers/bookingsController.js:132-189 | a seed without a cabin throws before anything is deleted; otherwise the store is the run of saves of the records over an empty store, answered 201 or with the first failure |
| `CabinsModel.CastCabin` | models/cabinsModel.js:7-55 | a body becomes a cabin with the given id and the cast errors of its paths: the name cast to a string and trimmed, the capacity cast to a number (a numeric string included), the prices cast to decimals with `null` kept apart, the image list taken as sent; the required paths the body leaves out stay unset |
| `CabinsModel.UnsetRequired` | models/cabinsModel.js:9-25 | a required path (name, capacity, price) stays in Mongoose's `require` state exactly when the body does not set it |
| `CabinsModel.CabinCastErrors` | models/cabinsModel.js:7-55 | no cast error is recorded exactly when every path's value casts |
| `CabinsModel.NullablePrice` | models/cabinsModel.js:21-37 | `null` is kept apart from a missing price; any other value is the `Decimal128` cast |
| `CabinsModel.FormNumbersCast` | models/cabinsModel.js:16-25 | a capacity and a price sent as text cast like the numbers themselves |
| `CabinsModel.AbcIsNoNumber` | models/cabinsModel.js:16-20 | "abc" does not cast to a number |
| `CabinsModel.Admissible` | models/cabinsModel.js:7-51 | no cast error and every validator passes (no ensures: `CabinMessages` states that it holds exactly when nothing is reported) |
| `CabinsModel.ImageList` | models/cabinsModel.js:42-51 | no `images` means an empty list |
| `CabinsModel.NameMessages` | models/cabinsModel.js:9-14 | the name passes exactly when it is present, not empty after trimming, and has at most 20 UTF-16 units |
| `CabinsModel.DiscountMessages` | models/cabinsModel.js:26-37 | the discount passes exactly when it is absent, or the price is given and the discount is at most the price |
| `CabinsModel.ImagesMessages` | models/cabinsModel.js:42-51 | the images pass exactly when there is a list of at most 5 |
| `CabinsModel.CabinMessages` | models/cabinsModel.js:7-51 | validation reports nothing exactly when the cabin is admissible; the recorded cast errors come first; without cast errors and with every required path set, the messages are those of name, capacity, price, discount and images in schema order |
| `CabinsModel.CabinMessagesParts` | models/cabinsModel.js:7-51 | the messages are, in this order: the cast errors, the unset required paths in `requiredPaths()` order (price, capacity, name), the set required paths in schema order, the discount, the images |
| `CabinsModel.RequiredGroupOnce` | models/cabinsModel.js:9-25 | without cast errors each required path is validated exactly once, either with the unset paths or with the set ones |
| `CabinsModel.ValidatorsMessages` | models/cabinsModel.js:7-51 | without cast errors the validators report nothing exactly when the cabin is admissible, whatever paths are unset |
| `CabinsModel.ValidatorsInSchemaOrder` | models/cabinsModel.js:7-51 | without cast errors and with every required path set, the validators run in schema order: name, capacity, price, discount, images |
| `CabinsModel.DiscountAbovePriceRefused` | models/cabinsModel.js:29-35 | a discount above the price is refused with "Discount should be less than regular price." |
| `CabinsModel.SixImagesRefused` | models/cabinsModel.js:45-49 | six images are refused with "Only 5 images for each cabin." |
| `CabinsModel.BlankNameRefused` | models/cabinsModel.js:9-25 | a name of blanks, sent with a capacity and a price and no cast error, is refused first with "A cabin must have a name." |
| `CabinsModel.NamelessFirstMessage` | models/cabinsModel.js:9-14 | without cast errors and with every required path set, a cabin without a name reports "A cabin must have a name." first |
| `CabinsModel.UnsetPathsFirst` | models/cabinsModel.js:9-25 | a body holding only a blank name is refused with exactly the price message, the capacity message and the name message, in that order: the unset paths first, in `requiredPaths()` order |
| `CabinsModel.BlankNameOnlyCast` | models/cabinsModel.js:9-55 | a body holding only a blank name casts without error to an empty name, with the price and capacity unset and the image list empty |
| `CabinsModel.BlankNameNoCastErrors` | models/cabinsModel.js:9-55 | a body holding only a string name records no cast error |
| `CabinsModel.PriceAndCapacityUnsetMessages` | models/cabinsModel.js:9-25 | a nameless cabin that never set its price and capacity reports the price, the capacity, then the name |
| `CabinsModel.UncastCapacityRefused` | models/cabinsModel.js:16-25 | a capacity that is no number, sent alone, is reported by exactly its cast error, then the missing price, then the missing name; its own `required` check is skipped |
| `CabinsModel.UncastCapacityOnlyCast` | models/cabinsModel.js:9-55 | a body holding only an uncastable capacity records that one cast error and leaves the price and name unset |
| `CabinsModel.OnlyCapacityFailedMessages` | models/cabinsModel.js:9-25 | a cabin whose capacity alone failed to cast, with price and name unset, reports the cast error, the price, then the name |
| `CabinsModel.LowerCharSpace` | models/cabinsModel.js:15 | lowercasing a character does not change whether it is white space |
| `CabinsModel.LowerOfTrimmed` | models/cabinsModel.js:15 | a lowercased trimmed name is already trimmed |
| `CabinsModel.WithLowerCaseName` | models/cabinsModel.js:103-106 | every save sets `nameLowerCase` to the lowercased name (trimmed by its setter) and changes nothing else |
| `CabinsModel.LowerCaseNameOfCast` | models/cabinsModel.js:13-15 | for a name set from a body, `nameLowerCase` is exactly `name.toLowerCase()` |
| `CabinsModel.Converted` | models/cabinsModel.js:77-82 | `convertDecimal128Fields` turns a present price and discount into numbers and touches nothing else |
| `CabinsModel.ConvertedKeepsAmounts` | models/cabinsModel.js:77-82 | the conversion keeps validity and is idempotent |
| `CabinsModel.ConvertAll` | models/cabinsModel.js:83-84 | an array is converted element by element in place |
| `CabinsModel.IndexOfId` | models/cabinsModel.js:109 | the position of the cabin with that id, or none |
| `CabinsModel.Upsert` | models/cabinsModel.js:103-106 | a save replaces the cabin with the same id or appends a new one |
| `CabinsModel.UpsertKeepsConsistent` | models/cabinsModel.js:103-106 | saving an admissible cabin keeps every stored cabin admissible and ids unique |
| `CabinsModel.DeleteOutcome` | models/cabinsModel.js:90-113 | a cabin is deleted exactly when it exists and no booking names it; a booked cabin is refused 404 "This cabin can not be deleted…"; a missing cabin makes the hook throw |
| `CabinsModel.RemoveAt` | models/cabinsModel.js:108-113 | a deletion removes exactly one cabin |
| `CabinsModel.BookedCabinRefused` | models/cabinsModel.js:90-97 | a cabin some booking names is never deleted, and an existing one is refused with status 404 |
| `CabinsModel.CabinsTable.constructor` | models/cabinsModel.js:115 | the collection starts empty |
| `CabinsModel.CabinsTable.Save` | models/cabinsModel.js:7-106 | a cabin with a cast error or a failing validator is refused with its messages and nothing changes; otherwise it is stored with its lowercase name |
| `CabinsModel.CabinsTable.FindOneAndDelete` | models/cabinsModel.js:108-113 | the outcome is the delete rule; a refused delete changes nothing; an accepted one removes exactly that cabin |
| `CabinsModel.RemoveKeepsConsistent` | models/cabinsModel.js:108-113 | removing a cabin keeps the store consistent and keeps every other cabin |
| `SettingsModel.CastSetting` | models/settingsModel.js:3-37 | a body becomes a setting with the given id and the cast errors of its paths; the lengths and guest limit are cast to numbers; `isActive` is true when the key is missing, stays `null` when sent as `null`, and reads the true and false values Mongoose accepts |
| `SettingsModel.SettingCastErrors` | models/settingsModel.js:3-37 | no cast error is recorded exactly when every path's value casts |
| `SettingsModel.UncastFlagRecorded` | models/settingsModel.js:34-37 | `isActive: "abc"` records a cast error and the setting cannot be saved |
| `SettingsModel.Admissible` | models/settingsModel.js:3-33 | no cast error, the three numbers given and the maximum at least the minimum (no ensures: `SettingMessages` states that it holds exactly when nothing is reported) |
| `SettingsModel.MaxMessages` | models/settingsModel.js:10-24 | the maximum passes exactly when both lengths are given and the maximum is at least the minimum |
| `SettingsModel.SettingMessages` | models/settingsModel.js:5-33 | validation reports nothing exactly when the three required numbers are given and the maximum is at least the minimum |
| `SettingsModel.MaxBelowMinRefused` | models/settingsModel.js:14-23 | a maximum below the minimum is refused with "Maximum booking days should be more than minimum booking days." |
| `SettingsModel.AdmissibleIgnoresActive` | models/settingsModel.js:34-37 | whether a setting is admissible does not depend on `isActive` |
| `SettingsModel.Converted` | models/settingsModel.js:59-63 | a present breakfast price becomes a number and nothing else changes |
| `SettingsModel.ConvertAll` | models/settingsModel.js:65-69 | an array is converted element by element in place |
| `SettingsModel.IndexOfId` | models/settingsModel.js:75 | the position of the setting with that id, or none |
| `SettingsModel.IndexOfUnique` | models/settingsModel.js:75 | with unique ids, a stored setting is found at its own position |
| `SettingsModel.Upsert` | models/settingsModel.js:72 | a save replaces the setting with the same id or appends it |
| `SettingsModel.UpsertKeepsConsistent` | models/settingsModel.js:72 | saving an admissible setting keeps the store admissible with unique ids |
| `SettingsModel.SwitchedOff` | models/settingsModel.js:75-78 | every other setting is switched off; only `isActive` changes |
| `SettingsModel.Cascade` | models/settingsModel.js:73-80 | the post-save hook applies that switch to every stored setting |
| `SettingsModel.ActiveSaveIsSoleActive` | models/settingsModel.js:72-82 | after saving an active setting it is stored and is the only active one |
| `SettingsModel.InactiveSaveTouchesNoOther` | models/settingsModel.js:73 | saving an inactive setting leaves every other setting as it was |
| `SettingsModel.CascadeOnlySwitchesOff` | models/settingsModel.js:76-78 | the cascade only turns `isActive` off and never turns it on |
| `SettingsModel.WithoutInactive` | controllers/settngsController.js:12 | `deleteMany({ isActive: false })` keeps at most the settings it had; a setting whose flag is `null` is not matched |
| `SettingsModel.WithoutInactiveMembers` | controllers/settngsController.js:12 | a setting remains exactly when it was stored and active |
| `SettingsModel.WithoutInactiveIdempotent` | controllers/settngsController.js:12 | deleting inactive settings twice is the same as once |
| `SettingsModel.WithoutInactiveConsistent` | controllers/settngsController.js:12 | the deletion keeps the store consistent |
| `SettingsModel.SettingsTable.constructor` | models/settingsModel.js:88 | the collection starts empty |
| `SettingsModel.SettingsTable.Save` | models/settingsModel.js:3-82 | an inadmissible setting is refused with its messages and nothing changes; otherwise it is stored and the cascade runs |
| `SettingsModel.SettingsTable.DeleteInactive` | controllers/settngsController.js:12 | the store keeps exactly its active settings |
| `SettingsController.DeleteInactiveSettings` | controllers/settngsController.js:11-17 | removes every inactive setting and answers 204 with `data: null` |
| `SettingsController.DeleteKeepsExactlyActive` | controllers/settngsController.js:11-17 | after the handler, a setting is stored exactly when it was stored and active |
| `UserLoginModel.CastLog` | models/userLoginModal.js:13-45 | a record without `loginAt` carries the schema-definition timestamp; `wasSuccessful` defaults to true; the reason is copied |
| `UserLoginModel.LogMessages` | models/userLoginModal.js:31-45 | validation reports nothing exactly when a failed attempt has a reason and any reason is one of the seven listed |
| `UserLoginModel.ReasonRequiredIffFailed` | models/userLoginModal.js:42-44 | without a reason, a record passes exactly when the attempt succeeded |
| `UserLoginModel.DefaultTimestampShared` | models/userLoginModal.js:13-17 | two records created without `loginAt` carry the same timestamp, whenever they were created |
| `UserLoginModel.LoginLogs.constructor` | models/userLoginModal.js:13-17 | the log starts empty and fixes the definition time |
| `UserLoginModel.LoginLogs.Create` | models/userLoginModal.js:5-55 | a record that passes validation is appended and returned; any other is refused with its messages and the log is unchanged |
| `Protect.VerifyToken` | utils/verifyToken.js:4-15 | a token that verifies gives its claims; a failing access token gives null; a failing refresh token rethrows the error |
| `Protect.ExtractToken` | middlewares/protect.js:9-16 | a header starting with "Bearer" supplies the second space-separated piece and then the cookie is never read; otherwise the cookie, when non-empty |
| `Protect.ProtectRequest` | middlewares/protect.js:7-42 | the request passes exactly when a user is attached; without a usable token or with a refused one it is 401 "Not Authorized"; a passing user is the stored user the token names, and the token is not older than the last password change |
| `Protect.IndexAfterPrefix` | middlewares/protect.js:11 | the first space after "Bearer" is found right after it |
| `Protect.BearerHeaderWins` | middlewares/protect.js:9-13 | "Bearer t" yields t whatever the cookie holds |
| `Protect.BareBearerIgnoresCookie` | middlewares/protect.js:9-20 | a header that is just "Bearer" yields no token even when a cookie is set, and the request is refused 401 |
| `Protect.UnknownUserForbidden` | middlewares/protect.js:23-31 | a verified token of a user nobody stores is refused 403 `notExistUser` |
| `Protect.StaleTokenForbidden` | middlewares/protect.js:32-37 | a token issued before the last password change is refused 403 `changedPassword` |
| `Protect.UnstampedUserThrows` | middlewares/protect.js:32 | a user whose password change was never stamped makes the check throw |
| `Protect.FreshTokenPasses` | middlewares/protect.js:7-42 | a bearer token issued at or after the save that stamped the password lets the request through with that user |
| `GuestsModel.GuestValidationMessages` | models/guestsModel.js:8-44 | validation reports nothing exactly when every required field is present, within its length, and the email is valid |
| `GuestsModel.NameMessages` | models/guestsModel.js:8-23 | the name fields pass exactly when the full name is present with at most 50 characters and its lowercase copy is present |
| `GuestsModel.IdentityMessages` | models/guestsModel.js:24-44 | the identity fields pass exactly when the email is present and valid, the national id has at most 30 characters and the nationality at most 50 |
| `GuestsModel.CastGuest` | models/guestsModel.js:8-44 | a body becomes a guest with the given id: names and national id trimmed, email and nationality trimmed and lowercased, the lowercase name defaulted from the full name; a body without `fullName` or `fullNameLowerCase` makes the default throw |
| `GuestsModel.GuestCastErrors` | models/guestsModel.js:8-48 | no cast error is recorded exactly when every path's value casts |
| `GuestsModel.EmailListRefused` | models/guestsModel.js:24-31 | an email sent as a list does not cast: the guest is refused and the cast error is reported |
| `GuestsModel.AdmissibleGuest` | models/guestsModel.js:8-44 | no cast error and every validator passes (no ensures: `GuestValidationMessages` states that it holds exactly when nothing is reported) |
| `GuestsModel.CreateError` | models/guestsModel.js:8-44 | an invalid guest gives the validation messages, a taken email a duplicate-key error on `email`, a missing full name a TypeError |
| `GuestsModel.Admit` | models/guestsModel.js:24-31 | a cast guest is created exactly when it is admissible and its email is not taken |
| `GuestsModel.CreateOutcome` | models/guestsModel.js:6-55 | a created guest is the cast of the body, admissible, with an email nobody has yet |
| `GuestsModel.AdmitKeepsConsistent` | models/guestsModel.js:30 | admitting a guest keeps every stored guest admissible with unique emails |
| `GuestsModel.CreateKeepsConsistent` | models/guestsModel.js:30 | creating a guest keeps the store consistent |
| `GuestsModel.CreatedGuestNormalised` | models/guestsModel.js:8-44 | a created guest's name and national id are trimmed and its email and nationality are lowercase |
| `GuestsModel.DefaultLowerCaseName` | models/guestsModel.js:19-21 | without `fullNameLowerCase` the created guest stores the lowercased full name |
| `GuestsModel.GuestsTable.constructor` | models/guestsModel.js:57 | the collection starts empty |
| `GuestsModel.GuestsTable.Create` | models/guestsModel.js:6-55 | the create rule decides; a created guest is appended and a rejected one leaves the store unchanged |
| `GuestsModel.GuestsTable.DeleteAll` | controllers/guestsController.js:45 | `deleteMany({})` empties the store |
| `GuestsModel.GuestJson` | models/guestsModel.js:6-55 | the JSON of a guest is an object carrying its `_id` |
| `GuestsModel.GuestJsonIsDocument` | models/guestsModel.js:6-55 | the JSON of a guest lists the schema paths in order, each with its value, leaving out the absent ones |
| `GuestsModel.GuestJsonShowsEachPath` | models/guestsModel.js:8-48 | every stored path is shown as stored, the lowercase name only when it is selected, and no key outside the schema paths is shown |
| `GuestsController.EmailFilter` | controllers/guestsController.js:21 | no email gives no condition; a string is trimmed and lowercased as the schema casts it; `null` asks for a missing email; a plain object rejects the query with a `CastError` on `email` |
| `GuestsController.FindGuest` | controllers/guestsController.js:21 | `findOne` gives the first guest whose email meets the condition, or none exactly when no guest does |
| `GuestsController.EmailObjectRefused` | controllers/guestsController.js:21 | an email sent as a plain object is a `CastError`: nothing is looked up or written |
| `GuestsController.EmailListFindsAny` | controllers/guestsController.js:21 | an email sent as a list finds a guest holding any item, trimmed and lowercased |
| `GuestsController.Differs` | controllers/guestsController.js:23-26 | `!==` between a stored field and a sent one (no ensures: a definition) |
| `GuestsController.IdentityMismatch` | controllers/guestsController.js:23-26 | the full name, national id or nationality differs from the one sent (no ensures: a definition) |
| `GuestsController.CreateGuestReply` | controllers/guestsController.js:20-41 | a found guest whose name, national id or nationality differs is refused 403 `guestNotMatch`, otherwise returned with 200; without one the guest is created with 201 or the create error is passed on, and only a creation changes the store |
| `GuestsController.CreateGuest` | controllers/guestsController.js:20-41 | the handler's reply and new store are exactly those of the rule above |
| `GuestsController.ReturningGuestFound` | controllers/guestsController.js:22-36 | a returning guest whose identity matches is answered 200 and nothing is stored |
| `GuestsController.ImpostorRefused` | controllers/guestsController.js:23-34 | a request whose identity differs from the stored guest is refused 403 and nothing is stored |
| `GuestsController.NationalityCaseMatters` | controllers/guestsController.js:26 | the stored lowercase nationality "turkish" does not match a submitted "Turkish" |
| `GuestsController.MissingEmailSelectsFirstGuest` | controllers/guestsController.js:21 | a request without an email matches the first stored guest |
| `GuestsController.CastAll` | controllers/guestsController.js:44-46 | each dataset entry is cast with its own id |
| `GuestsController.RestoreAll` | controllers/guestsController.js:46 | the insertion run never stores more guests than there are entries |
| `GuestsController.Restored` | controllers/guestsController.js:43-48 | at most one guest per dataset entry is stored; when nothing fails every entry is stored, each as the cast of that entry with its own id |
| `GuestsController.RestoreAllIsCasts` | controllers/guestsController.js:46 | when nothing fails, the restored guests are exactly the casts, in order |
| `GuestsController.RestoredIsDataset` | controllers/guestsController.js:44-46 | when nothing fails, the store holds the cast of every dataset entry in order |
| `GuestsController.RestoreAllConsistent` | controllers/guestsController.js:46 | whatever happens, the restored store is consistent |
| `GuestsController.RestoreAllStops` | controllers/guestsController.js:46 | after the first failure no later entry is inserted |
| `GuestsController.RestoreAllStep` | controllers/guestsController.js:46 | one insertion step either appends the admitted guest or stops with its failure |
| `GuestsController.ReloadGuestsData` | controllers/guestsController.js:43-48 | the store is emptied and refilled with the dataset up to the first failure; the reply is 201 "Guests reloaded!" or that failure |
| `UsersModel.IdentityMessages` | models/usersModel.js:7-20 | the identity paths pass exactly when the email is present and valid and the full name is present with at most 70 characters |
| `UsersModel.RoleMessages` | models/usersModel.js:31-39 | the role passes exactly when it is present and one of the four listed roles |
| `UsersModel.PasswordMessages` | models/usersModel.js:43-75 | the password paths pass exactly when the password is truthy and strong and the confirmation is present and equal to it |
| `UsersModel.UserMessages` | models/usersModel.js:5-109 | validation reports nothing exactly when every validator of the schema accepts the document |
| `UsersModel.ConfirmationMustMatch` | models/usersModel.js:69-74 | a confirmation that differs from the password is refused with "Passwords are not the same." |
| `UsersModel.UnknownRoleRefused` | models/usersModel.js:34-37 | the role "guest" is refused with "Please submit a valid role" |
| `UsersModel.LanguageCodeLength` | models/usersModel.js:80-89 | a language code whose length is not 2 is refused, and "Language code should be 2 digit!" is among the reported messages |
| `UsersModel.PreSave` | models/usersModel.js:127-135 | a save holding a truthy password replaces it by its hash, clears the confirmation and stamps the change one second before now; no other path changes, and without a password nothing changes |
| `UsersModel.Seconds` | models/usersModel.js:123 | `parseInt(ms / 1000)` truncates toward zero, also for negative times |
| `UsersModel.PasswordChangedAfter` | models/usersModel.js:122-125 | the check throws exactly when the user has no `passwordChangeAt` |
| `UsersModel.TokenAfterSaveIsFresh` | models/usersModel.js:122-135 | a token issued no earlier than the saving moment is never stale |
| `UsersModel.StaleTokenIff` | models/usersModel.js:122-135 | after a password save at `now`, a token is stale exactly when it was issued before `now / 1000 - 1` |
| `UsersModel.StampTruncatesTowardZero` | models/usersModel.js:123 | a stamp of -1500 ms reads as -1 second |
| `UsersModel.PasswordMatches` | models/usersModel.js:111-116 | a candidate matches exactly when it is a string whose hash is stored; a missing hash or a non-string candidate makes bcrypt throw |
| `UsersModel.SavingAHashRehashes` | models/usersModel.js:127-135 | saving a document whose password is already hashed hashes it again, so the old password stops matching |
| `UsersModel.PasswordValue` | models/usersModel.js:43-44 | a `String` path receiving a value: present exactly when the value casts to a string |
| `UsersModel.CounterValue` | models/usersModel.js:94-101 | a counter takes a number as sent; `null` and "", which the `Number` cast makes `null`, are stored as 0 |
| `UsersModel.Admissible` | models/usersModel.js:5-109 | every validator on a validating save passes (no ensures: `UserMessages` states that it holds exactly when nothing is reported) |
| `UsersModel.StampValue` | models/usersModel.js:76 | the `Date` path takes a number as that many milliseconds, is cleared by `null` or the empty string, and keeps its stamp for any other value |
| `UsersModel.NewUser` | controllers/usersController.js:48-57 | a new user has the submitted email and trimmed name, role receptionist, inactive, the activation hash, no password and the schema defaults; a missing full name makes the lowercase default throw |
| `UsersModel.SetPath` | controllers/usersController.js:122 | assigning one key keeps the id and every one of the other fifteen paths; a refused value or an unknown key changes nothing; an email is trimmed, a password kept as plain text until saved, a `null` string path cleared, `isActive` read as a boolean, a stamp of milliseconds kept when it is a valid date |
| `UsersModel.AssignBody` | controllers/usersController.js:122 | `Object.assign(doc, body)` never changes the id |
| `UsersModel.AssignKeepsUnnamed` | controllers/usersController.js:122 | a role, password, email or activation token the body does not name is kept |
| `UsersModel.AssignSetsRole` | controllers/usersController.js:122 | a body naming `role` sets the role to its cast |
| `UsersModel.UserFields` | models/usersModel.js:5-109 | the JSON of a user carries its `_id` and its role as stored |
| `UsersModel.UserFieldsIsDocument` | models/usersModel.js:5-109 | the JSON of a user lists the schema paths in order, each with its value, leaving out the absent ones and the unselected ones |
| `UsersModel.UserFieldsShowProfile` | models/usersModel.js:7-101 | email, name, avatar, confirmation, `isActive`, language and dark mode are shown as stored |
| `UsersModel.UserFieldsShowSelected` | models/usersModel.js:76-100 | the `select: false` paths `passwordChangeAt` and `firstActivateToken` are shown exactly when the query selects them and they are set |
| `UsersModel.UserFieldsHideTheRest` | models/usersModel.js:5-109 | no key outside the schema paths is shown |
| `UsersModel.FindById` | middlewares/protect.js:23 | `findById` gives the first user with that id, or none when no user has it |
| `UsersModel.FindsTheUser` | middlewares/protect.js:23 | with unique ids a stored user is found at its own position |
| `UsersModel.Upsert` | models/usersModel.js:137 | a save replaces the user with the same id or appends it |
| `UsersModel.UpsertKeepsConsistent` | models/usersModel.js:11 | saving a user whose email is not taken keeps ids and emails unique |
| `UsersModel.SaveOutcome` | models/usersModel.js:5-135 | a validating save of an inadmissible user is refused with its messages; otherwise the save succeeds with the pre-saved document exactly when its email is free, and fails with a duplicate-key error on `email` when it is not |
| `UsersModel.SameEmailNotTaken` | models/usersModel.js:11 | re-saving a stored user with its own email does not collide |
| `UsersModel.SaveRewrites` | models/usersModel.js:11-135 | re-saving a stored user under its own email succeeds and rewrites exactly that user |
| `UsersModel.UsersTable.constructor` | models/usersModel.js:137 | the collection holds the given users with unique ids and emails |
| `UsersModel.UsersTable.Save` | models/usersModel.js:5-135 | the save rule decides; a success stores the pre-saved user and a failure changes nothing |
| `UsersModel.UsersTable.Resave` | models/usersModel.js:127-135 | re-saving a stored user rewrites exactly that entry with its pre-saved form |
| `UsersModel.UsersTable.Update` | controllers/authController.js:331-381 | an update that keeps id and email replaces exactly that entry |
| `UsersModel.UsersTable.Delete` | models/usersModel.js:137 | a delete removes exactly the user with that id, or nothing when there is none |
| `UsersControllers.OneClause` | controllers/usersController.js:27 | a filter of one ordinary key matches exactly when that field satisfies its condition |
| `UsersControllers.InMeaning` | controllers/usersController.js:27 | a `$in` condition holds exactly when the field is present and one of the listed values |
| `UsersControllers.RolesRestrictionFor` | controllers/usersController.js:20-28 | a superAdmin gets no restriction and every other caller a restriction of the single key `role` |
| `UsersControllers.RoleKey` | controllers/usersController.js:26 | the key the hierarchy is read with: the caller's role, or "undefined" (no ensures: a definition) |
| `UsersControllers.VisibleRoles` | controllers/usersController.js:26 | `roleHierarchy[role] || []` (no ensures: a definition; `RestrictionMeaning` states its use) |
| `UsersControllers.AsksHiddenRole` | controllers/usersController.js:29-33 | the body names a truthy role outside the visible ones (no ensures: a definition; `HiddenRoleRefused` states its use) |
| `UsersControllers.RestrictionMeaning` | controllers/usersController.js:20-28 | the stored restriction admits a user exactly when the caller is a superAdmin or the user's role is one the caller's role may see |
| `UsersControllers.RolesReply` | controllers/usersController.js:20-44 | the middleware either passes on or refuses 401 `unAuthorized` |
| `UsersControllers.SuperAdminSeesEveryone` | controllers/usersController.js:23-24 | a superAdmin is never refused and the restriction admits every user |
| `UsersControllers.UnlistedRoleSeesNobody` | controllers/usersController.js:26-27 | a role missing from the hierarchy sees no user |
| `UsersControllers.ReadsNeverRefused` | controllers/usersController.js:29-30 | a request that is not POST, PATCH or PUT always passes |
| `UsersControllers.PassedWriteNamesVisibleRole` | controllers/usersController.js:29-40 | a write that passes and names a role names a string role the caller may see |
| `UsersControllers.HiddenRoleRefused` | controllers/usersController.js:29-40 | a write naming a role the caller may not see is refused 401 `unAuthorized` |
| `UsersControllers.Docs` | controllers/usersController.js:98-105 | the documents a filter is matched against are the users' JSON, in order |
| `UsersControllers.UpdateFilter` | controllers/usersController.js:98-105 | `{ _id, ...roles }` (no ensures: `UpdateFilterMeaning` states its meaning) |
| `UsersControllers.UpdateFilterMeaning` | controllers/usersController.js:98-105 | the update filter admits exactly the user with that id whose role the caller may see |
| `UsersControllers.UpdateUserRefusal` | controllers/usersController.js:107-121 | no document is 404 `noDocument`; setting `isActive` on a user still holding an activation token is 401 `userNotRegistered`; otherwise nothing refuses |
| `UsersControllers.UpdateUserAnswer` | controllers/usersController.js:123-124 | a failed save is passed on with the store unchanged; a successful one answers 200 and stores the document |
| `UsersControllers.UpdateUserOutcome` | controllers/usersController.js:97-125 | only a 200 reply changes the store; no matching document is 404 `noDocument` |
| `UsersControllers.UpdateUserSaves` | controllers/usersController.js:122-124 | past the refusals, the handler assigns the body and saves without validation |
| `UsersControllers.UpdateUserResponded` | controllers/usersController.js:97-125 | a 200 reply means a user matched, no refusal applied, its email was free, and it answers and stores the assigned, pre-saved document |
| `UsersControllers.PendingUserNotActivated` | controllers/usersController.js:115-121 | activating a user who has not set a password is refused 401 and nothing changes |
| `UsersControllers.UpdateUserRewrites` | controllers/usersController.js:97-125 | an update that does not change the email rewrites exactly the matched user, keeping its id and email |
| `UsersControllers.PatchStaysWithinVisibleRoles` | controllers/usersController.js:20-125 | after a PATCH that passed the role check, the updated user was one the caller may see, and any role it is given is one the caller may see |
| `UsersControllers.PatchedRoleVisible` | controllers/usersController.js:29-40 | assigning a body that passed the role check and names a role yields a visible role |
| `UsersControllers.ActivationLink` | controllers/usersController.js:62 | the activation link ends with the raw token |
| `UsersControllers.WelcomeMail` | controllers/usersController.js:60-63 | the welcome mail goes to the new user with the link (no ensures: a definition) |
| `UsersControllers.CreatedBody` | controllers/usersController.js:64-76 | the 201 body with email, name and `activationMailSend` (no ensures: a definition) |
| `UsersControllers.CreateNewUserOutcome` | controllers/usersController.js:46-86 | a body without a full name throws; any reply other than 201 leaves the store as it was and sends no mail |
| `UsersControllers.CreatedAsInactiveReceptionist` | controllers/usersController.js:46-76 | a 201 reply means exactly one inactive receptionist with the activation hash and no password was appended, the welcome mail carries the link, and the reply shows its email and name |
| `UsersControllers.UnsentWelcomeUndoesCreation` | controllers/usersController.js:77-85 | when the welcome mail fails, the new user is deleted again and the reply is 500 `emailSendError` |
| `UsersControllers.TakenEmailRefused` | controllers/usersController.js:48-57 | an email another user holds ends in a duplicate-key error and nothing changes |
| `UsersControllers.WelcomeLinkActivates` | controllers/usersController.js:53-62 | the token in the welcome link selects the new user for activation |
| `UsersControllers.CreatedCannotLogIn` | controllers/usersController.js:48-57 | a newly created user's login is turned away as one without a password |
| `UsersControllers.FindByEmailAppended` | controllers/authController.js:273 | a user appended with an email nobody has is the one found by that email |
| `UsersControllers.ActivationFindsAppended` | controllers/authController.js:210-213 | an appended pending user is the one an activation with its hash selects |
| `UsersControllers.ResetUser` | controllers/usersController.js:146-156 | the reset keeps id, email, role and name |
| `UsersControllers.ResetRefusal` | controllers/usersController.js:131-142 | no target is 400 `noUser`; a caller role missing from the hierarchy throws; otherwise the reset proceeds exactly when the target's role is listed for the caller's role |
| `UsersControllers.ResetStore` | controllers/usersController.js:146-158 | the reset rewrites only the target |
| `UsersControllers.ResetMail` | controllers/usersController.js:160-164 | the reset mail goes to the target with the link (no ensures: a definition) |
| `UsersControllers.ResetBody` | controllers/usersController.js:165-168 | the 200 body with the `resetPassword` message (no ensures: a definition) |
| `UsersControllers.ResetUserPasswordOutcome` | controllers/usersController.js:127-177 | no target is 400 `noUser`; at most one mail is sent, exactly when the reply is 200 |
| `UsersControllers.HiddenTargetNotReset` | controllers/usersController.js:136-142 | a target whose role the caller may not manage is refused 401 and nothing changes |
| `UsersControllers.UnlistedCallerThrows` | controllers/usersController.js:136 | a caller whose role is missing from the hierarchy makes the handler throw |
| `UsersControllers.ResetClearsCredentials` | controllers/usersController.js:144-176 | a permitted reset clears password, confirmation and refresh token, deactivates, zeroes the counter and stores a new activation hash; it answers 200 with the mail sent, or 500 `emailSendError` with the reset kept |
| `UsersControllers.ResetBlocksLogin` | controllers/usersController.js:144-158 | after a reset the user's login is turned away as one without a password |
| `UsersControllers.ResetLinkActivates` | controllers/usersController.js:152-163 | the token in the reset mail selects exactly that user for activation |
| `UsersControllers.ProtectUserToDelete` | controllers/usersController.js:179-195 | deletion passes on exactly when the id is not one of the two protected ids, which are refused 403 `userCannotDeleted` |
| `UsersControllers.UsersController.constructor` | controllers/usersController.js:15-18 | the controller holds the users store and has sent no mail |
| `UsersControllers.UsersController.SetRolesRestriction` | controllers/usersController.js:20-44 | stores the caller's restriction and replies as the role rule says |
| `UsersControllers.UsersController.CreateNewUser` | controllers/usersController.js:46-86 | reply, store and sent mail are exactly those of the creation rule |
| `UsersControllers.UsersController.Withdraw` | controllers/usersController.js:78 | `deleteOne` of the user just appended restores the store |
| `UsersControllers.UsersController.UpdateUser` | controllers/usersController.js:97-125 | reply and store are exactly those of the update rule under the stored restrictions |
| `UsersControllers.UsersController.ResetUserPassword` | controllers/usersController.js:127-177 | reply, store and sent mail are exactly those of the reset rule |
| `UsersControllers.NewUserSave` | controllers/usersController.js:57 | a save without validation of a new user without a password stores it unchanged unless its email is taken |
| `UsersControllers.FindAppended` | controllers/usersController.js:78 | the appended user is found at the end |
| `UsersControllers.DeleteAppended` | controllers/usersController.js:78 | deleting the appended user gives back the earlier store |
| `AuthController.RestrictedTo` | controllers/authController.js:20-31 | the request passes exactly when the caller's role is one of the listed roles; otherwise 403 `unAuthorized` |
| `AuthController.RestrictedToAgrees` | controllers/authController.js:20-31 | this restriction agrees with the generic controller's `restrictedTo` on the user's JSON |
| `AuthController.FindByEmail` | controllers/authController.js:273-276 | `findOne({ email })` gives the first user whose email meets the condition the body's email puts, or none exactly when no user does |
| `AuthController.LoginEmail` | controllers/authController.js:273-276 | a missing email puts no condition; a string asks for itself trimmed; a plain object makes the query reject with a `CastError` on `email` |
| `AuthController.LoginEmailList` | controllers/authController.js:273-276 | an email sent as a list finds a user holding either item, trimmed |
| `AuthController.FindByEmailUnique` | controllers/authController.js:273-276 | with unique emails, a stored user is found by its own email |
| `AuthController.LoginDecision` | controllers/authController.js:262-381 | the login guards run in the order the handler checks them; a decision about a user names the user found by the submitted email, and "not submitted" is chosen exactly when email or password is missing |
| `AuthController.LoginFinds` | controllers/authController.js:273-289 | a submitted email that matches a user leads to a decision about that user |
| `AuthController.AfterAttempt` | controllers/authController.js:323-381 | an attempt never changes the user's id or email |
| `AuthController.LoginLogged` | controllers/authController.js:279-379 | every attempt past the submit check writes a login record, except when the password compare throws |
| `AuthController.NoUserAsWritten` | controllers/authController.js:285-288 | the unknown-email error as written: status code passed to `next`, so the error has none |
| `AuthController.NoUser` | controllers/authController.js:285-288 | the unknown-email error as intended: 401 `noUser` |
| `AuthController.LoginReply` | controllers/authController.js:260-382 | as intended: the login answers iff the password matched, 200 with status "success", the access token and the user as selected; a query the email makes reject, and a throwing compare, are passed on; a locked account is 423 `lockecAccount`; every other refusal is an operational 401, a wrong password with `tooManyWronAttempt` at the limit and `wrongPassword` below it |
| `AuthController.TokenBody` | controllers/authController.js:162-175 | the token answer has exactly three fields: status "success", the access token, and the user as selected under `data.user` |
| `AuthController.FailureReason` | controllers/authController.js:283-365 | a reason is logged exactly for an unknown email, a user without password, a locked account and a wrong password; a wrong password logs TOO_MANY_ATTEMPTS exactly when it locks |
| `AuthController.LoginBeforePassword` | controllers/authController.js:291-305 | a found user holding an activation token and no password is decided a user without password |
| `AuthController.LoginStore` | controllers/authController.js:323-381 | only a wrong or right password changes the store; no attempt changes an id or an email |
| `AuthController.LoginOutcome` | controllers/authController.js:260-382 | as intended: the store after the login is the one the decision writes |
| `AuthController.LoginOutcomeIs` | controllers/authController.js:260-382 | as intended: the login's reply, store and log record are those of its decision, the access token being the one signed for the decided user |
| `AuthController.ObjectEmailRefused` | controllers/authController.js:273-276 | an email sent as a plain object is passed on as a `CastError`: nothing is stored or logged |
| `AuthController.LoginStoreWrites` | controllers/authController.js:323-381 | a wrong password adds one to the counter and, at the limit, deactivates; a right one resets the counter and stores the hash of the new refresh token |
| `AuthController.WrongPasswordStore` | controllers/authController.js:323-359 | a wrong password rewrites only the user's counter and, at the limit, its `isActive` |
| `AuthController.UnsubmittedChangesNothing` | controllers/authController.js:264-271 | a missing email or password is refused 401 `emailPasswordNotSubmitted`, with nothing stored and nothing logged |
| `AuthController.UnknownEmailLogged` | controllers/authController.js:278-289 | as intended: an unknown email is answered with the 401 `noUser` error, logs a USER_NOT_FOUND failure without a user id and changes nothing |
| `AuthController.NewUserRefused` | controllers/authController.js:291-305 | a user with an activation token and no password is refused 401 `newUserNoPassword` and the failure is logged |
| `AuthController.InactiveRefusedBeforePassword` | controllers/authController.js:307-321 | an inactive user is refused 423 `lockecAccount` before the password is checked, and ACCOUNT_LOCKED is logged |
| `AuthController.WrongPasswordCountsOne` | controllers/authController.js:323-359 | a wrong password raises only that user's counter by one, and deactivates it exactly when the counter reaches `WRONG_ATTEMPT_RANGE` |
| `AuthController.DecidesWrongPassword` | controllers/authController.js:323-328 | an active user with a wrong password is decided a wrong attempt, locking exactly at the limit |
| `AuthController.WrongPasswordAnswer` | controllers/authController.js:328-373 | a wrong password is refused 401 `tooManyWronAttempt` at the limit and 401 `wrongPassword` below it, logging TOO_MANY_ATTEMPTS or INVALID_PASSWORD |
| `AuthController.RightPasswordResets` | controllers/authController.js:376-381 | a right password resets the counter, stores the refresh token's hash, logs a success and answers 200 with the access token |
| `AuthController.DecidesSuccess` | controllers/authController.js:323-381 | an active user with a matching password is decided a success |
| `AuthController.FindByEmailKeptByEmails` | controllers/authController.js:273-276 | two stores with the same emails find the same user |
| `AuthController.LockoutIsPermanent` | controllers/authController.js:307-352 | after the locking wrong attempt, every later login with that email is refused as a locked account |
| `AuthController.DecidesLocked` | controllers/authController.js:307-321 | a found user that is not active, and not a new user without password, is decided locked |
| `AuthController.LogFields` | controllers/authController.js:84-90 | the record names the user it is given; it is successful exactly when it has no failure reason, and the reason appears only when there is one |
| `AuthController.LoginLogsRecordable` | controllers/authController.js:84-122 | every record the login writes passes the log's validation |
| `AuthController.NoUserAsWrittenAnswers500` | controllers/authController.js:285-288 | as written, an unknown email is answered 500 by the error handler |
| `AuthController.NoUserAnswers401` | controllers/authController.js:285-288 | as intended, it is answered 401 "fail" |
| `AuthController.RefreshCookie` | controllers/authController.js:386-390 | the token is empty exactly when no non-empty REFRESH_TOKEN cookie is sent |
| `AuthController.RefreshChecks` | controllers/authController.js:409-449 | an operational refusal is 403; a non-operational one is reading a missing password stamp; a 200 reply means the stored user holds the token's hash and the token is not older than the last password change |
| `AuthController.RefreshAsWritten` | controllers/authController.js:384-450 | as written: no cookie is 498 `noRefreshToken`; a token that fails verification is passed on as the JWT error itself |
| `AuthController.RefreshAccessToken` | controllers/authController.js:384-450 | as intended: no error is ever 401; a missing or failing token is 498 `noRefreshToken`; a 200 reply means the token verified and named a user holding its hash |
| `AuthController.RefreshAsWrittenAnswers401` | controllers/authController.js:385-400 | as written, an expired or malformed refresh token is answered 401 by the error handler |
| `AuthController.RefreshNever401` | controllers/authController.js:385 | as intended, no reply of the refresh handler has status 401, in production or development |
| `AuthController.RefreshAccepted` | controllers/authController.js:409-449 | a verifying token of a stored user that holds its hash and has not changed password since is answered 200 with a new access token |
| `AuthController.LoginThenRefresh` | controllers/authController.js:137-161 | the refresh token issued by a successful login is accepted by the refresh handler |
| `AuthController.IssuedRefreshAccepted` | controllers/authController.js:153-161 | storing a refresh token's hash makes that token acceptable to refresh |
| `AuthController.ActivationTarget` | controllers/authController.js:205-208 | the user selected is one holding the token's hash and inactive, or none when there is none |
| `AuthController.ActivationRefusal` | controllers/authController.js:210-241 | no user is 498 `invalidActivateToken`; otherwise activation proceeds exactly when password and confirmation are truthy and strictly equal |
| `AuthController.StrictlyEqual` | controllers/authController.js:231 | `!==` on two body values: arrays and objects are never the same (no ensures: a definition) |
| `AuthController.ActivationAnswer` | controllers/authController.js:247-257 | a failed save is passed on unchanged; a successful one answers 200 and stores the document |
| `AuthController.ActivationOutcome` | controllers/authController.js:199-258 | activation never logs; any reply but 200 leaves the store unchanged; an unknown token is 498 |
| `AuthController.ActivatedAsSaved` | controllers/authController.js:243-247 | the saved user holds the hash of the new password and no confirmation, is active, has no activation token and a fresh stamp, and keeps id, email and role |
| `AuthController.ActivationSaves` | controllers/authController.js:243-247 | past the refusals, activation saves the activated user with validation |
| `AuthController.Activated` | controllers/authController.js:243-246 | the activated user is active, holds no activation token, and keeps its id, email, role and counter |
| `AuthController.ActivationAccepts` | controllers/authController.js:219-241 | equal non-empty string password and confirmation pass the guards |
| `AuthController.ActivationStoresHash` | controllers/authController.js:199-258 | an admissible activation answers 200 and rewrites exactly the selected user |
| `AuthController.ActivationValidates` | controllers/authController.js:247 | an activated user the validators refuse is passed on as their validation error and nothing changes |
| `AuthController.ActivationIsOneShot` | controllers/authController.js:205-247 | once activated, the same token is refused 498 |
| `AuthController.UpdateMeRefusal` | controllers/authController.js:490-514 | no document is 404; a body with a role is 401 `roleUpdateForbidden`; then one with a password 401 `passwordUpdateForbidden` |
| `AuthController.UpdateMeAnswer` | controllers/authController.js:516-518 | a failed save is passed on; a successful one answers 200 and stores the document |
| `AuthController.UpdateMeWith` | controllers/authController.js:485-519 | `updateMe` never logs; only a 200 reply changes the store; a missing user is 404 |
| `AuthController.UpdateMeAsWritten` | controllers/authController.js:498-514 | as written, a truthy role or password is refused and nothing changes |
| `AuthController.UpdateMeOutcome` | controllers/authController.js:498-514 | as intended, any role or password key is refused and nothing changes |
| `AuthController.UpdateMeSaves` | controllers/authController.js:516-517 | past the refusals, the body is assigned and saved without validation |
| `AuthController.UpdateMeRewrites` | controllers/authController.js:516-518 | a profile update rewrites exactly the caller with the assigned body |
| `AuthController.UpdateMeKeepsRoleAndPassword` | controllers/authController.js:485-519 | a successful profile update keeps the caller's id, role and password and every other user |
| `AuthController.ProfileSaveKeeps` | controllers/authController.js:517 | saving the caller's rewritten document rewrites only that entry |
| `AuthController.UpdateMeRefusesAnyPassword` | controllers/authController.js:507-514 | as intended, any password value is refused 401 and nothing changes |
| `AuthController.UpdateMeAsWrittenSetsZero` | controllers/authController.js:507-517 | as written, a body `{ password: 0 }` passes the guard and sets the password to "0" |
| `AuthController.ZeroAssignsZero` | controllers/authController.js:516 | assigning the number 0 to `password` stores the string "0" |
| `AuthController.AssignStamp` | controllers/authController.js:516 | assigning a number to `passwordChangeAt` sets the stamp to it and keeps everything else |
| `AuthController.UpdateMeResetsStamp` | controllers/authController.js:485-519 | a body `{ passwordChangeAt: 0 }` passes the guards and is saved without a password, so the pre-save hook keeps the stamp 0 and every earlier token counts as fresh again |
| `AuthController.PasswordRefusal` | controllers/authController.js:522-563 | any other key is 401 `onlyPasswordUpdate`; a falsy current password 401 `noCurrentPassword`; a missing new password or confirmation 401 `passwordConfirmNotSubmitted`; the guards pass exactly when all three are truthy and the new ones strictly equal |
| `AuthController.WithRefreshToken` | controllers/authController.js:153-161 | storing the refresh hash keeps id, email, password and stamp |
| `AuthController.PasswordStore` | controllers/authController.js:575-582 | the password change rewrites only the caller |
| `AuthController.UpdatePasswordOutcome` | controllers/authController.js:521-583 | any reply but 200 changes nothing and logs nothing; a guard's refusal is its reply; a caller that no longer exists makes the compare throw |
| `AuthController.UpdatePasswordAccepted` | controllers/authController.js:565-582 | a matching current password saves the new one, logs a success and answers 200 with new tokens |
| `AuthController.PasswordUpdated` | controllers/authController.js:575-577 | the updated user has its counter reset and keeps its id, email, role and activity |
| `AuthController.WrongCurrentPasswordCountsNothing` | controllers/authController.js:567-573 | a wrong current password is 401 `wrongPassword` and, unlike login, counts no attempt |
| `AuthController.PasswordSavedAs` | controllers/authController.js:575-579 | the saved user holds the hash of the new password, no confirmation, a zero counter and a fresh stamp, and keeps id, email, role and `isActive` |
| `AuthController.UpdatePasswordStoresNew` | controllers/authController.js:521-583 | after a password change only the caller is rewritten, with the new password's hash, a zero counter, a fresh stamp and the new refresh hash |
| `AuthController.RewriteKeepsIds` | controllers/authController.js:579 | rewriting a user under its own id keeps ids unique |
| `AuthController.RewriteKeepsEmails` | controllers/authController.js:579 | rewriting a user under its own email keeps emails unique |
| `AuthController.UpdatePasswordRevokesOldTokens` | controllers/authController.js:575-579 | after a password change, an access token issued before it is refused 403 `changedPassword` |
| `AuthController.AutoLoginRole` | controllers/authController.js:586 | the role is manager exactly for "/managerAutoLogin", receptionist otherwise |
| `AuthController.FirstMinimal` | controllers/authController.js:588-594 | the chosen user has the role; there is none only when nobody has it |
| `AuthController.FirstMinimalIsLeast` | controllers/authController.js:592-594 | the chosen user has the smallest counter, and is the first among equals as the stable sort leaves it |
| `AuthController.Assigned` | controllers/authController.js:596-597 | assigning a body key sets that key and keeps the others |
| `AuthController.Credentials` | controllers/authController.js:596-597 | the forwarded body carries the chosen email and `SECURE_PASSWORD` |
| `AuthController.AutoLoginOutcome` | controllers/authController.js:585-604 | no user with the role makes reading its email throw; any reply but `next` changes nothing |
| `AuthController.AutoLoginStore` | controllers/authController.js:599-601 | the chosen user's counter goes up by one and nothing else changes |
| `AuthController.AutoLoginRaisesOne` | controllers/authController.js:585-604 | auto-login raises only the chosen user's counter and forwards that user's credentials |
| `AuthController.AutoLoginThenLogin` | controllers/authController.js:585-604 | the login that follows auto-login selects the chosen user |
| `AuthController.Controller.constructor` | controllers/authController.js:19 | the controller holds the users and login-log stores |
| `AuthController.Controller.Log` | controllers/authController.js:84-122 | a record is appended when given |
| `AuthController.Controller.Login` | controllers/authController.js:260-382 | as intended: reply, store and log are exactly those of the login rule |
| `AuthController.Controller.Attempt` | controllers/authController.js:278-381 | carrying out a decision writes its store, record and reply |
| `AuthController.Controller.CountWrongAttempt` | controllers/authController.js:323-373 | a wrong attempt writes its store change and its record |
| `AuthController.Controller.RaiseWrongAttempts` | controllers/authController.js:324-359 | the counter update of a wrong attempt |
| `AuthController.Controller.Succeed` | controllers/authController.js:376-381 | a success resets the counter, logs and stores the refresh hash, returning the access token |
| `AuthController.Controller.Activate` | controllers/authController.js:199-258 | reply and store are exactly those of the activation rule |
| `AuthController.Controller.UpdateMe` | controllers/authController.js:485-519 | reply and store are exactly those of the intended profile rule |
| `AuthController.Controller.UpdatePassword` | controllers/authController.js:521-583 | reply, store and log are exactly those of the password rule |
| `AuthController.Controller.ChangePassword` | controllers/authController.js:575-582 | the accepted change saves, logs and answers with new tokens |
| `AuthController.Controller.StoreRefreshToken` | controllers/authController.js:580-582 | logs the success and stores the new refresh hash |
| `AuthController.Controller.AutoLogin` | controllers/authController.js:585-604 | reply, store and forwarded body are exactly those of the auto-login rule |
| `AuthController.Controller.RaiseCounter` | controllers/authController.js:599-601 | raises the chosen user's counter by one |

## Left out

- `logout` and `getMe` (controllers/authController.js:452-483, controllers/usersController.js:88-95): they only clear or read fields and are not part of the modelled rules.
- Avatar and image uploads (`uploadImages`, `resizeAndSaveImages`, the multer filter and size limit, the cabins controller): file system and image processing.
- `getDailyBookingStats`: an aggregation pipeline run by the database.
- Cookies and their options. A reply is its status and its JSON body.
- Document serialisation: a shown document lists its schema paths and values only. The `createdAt` and `updatedAt` timestamps, the `id` virtual of `toJSON` and `__v` are not shown.
- BookingsController.BookingJson: lists the booking's schema paths only; no timestamps, `id` virtual or `__v`.
- GuestsModel.GuestJson: lists the guest's schema paths only; no timestamps, `id` virtual or `__v`.
- UsersModel.UserFields: keys a body assigns that are not schema paths are not kept on the document, so they are never shown; the fields `_createAndSendToken` clears before answering (`password`, `refreshToken`, `wrongAttemptNumber`) are left out of the selection instead.
- ApiControllers.ApiController.GetOne: the populate directives are computed and their errors raised, but the answered document is the stored one, not populated; the `lean` virtuals are not shown.
- UsersControllers.UsersController.UpdateUser: an id that is no ObjectId is treated like an id nobody has (404 `noDocument`). The CastError Mongoose raises for it, answered 400 "Invalid _id: <id>.", is modelled only in the generic controller (`ApiControllers.IdCastError`).
- UsersControllers.UsersController.ResetUserPassword: an id that is no ObjectId is treated like an id nobody has (400 `noUser`). The CastError Mongoose raises for it, answered 400 "Invalid _id: <id>.", is modelled only in the generic controller (`ApiControllers.IdCastError`).
- BookingsModel.ValidationMessages: lists the failing paths in schema order. Mongoose validates the required paths the body never set first, from the last schema path back, and then the rest; the contract states which messages appear, not their order.
- GuestsModel.GuestValidationMessages: lists the failing paths in schema order, not in Mongoose's order (unset required paths first, from the last schema path back); the contract states which messages appear, not their order.
- UsersModel.UserMessages: lists the failing paths in schema order, not in Mongoose's order. Mongoose validates unset required paths first, from the last schema path back; on a loaded document such as the one the activation saves, it validates the stored paths before the modified ones. The contract states which messages appear, not their order, and so does `UsersModel.LanguageCodeLength`.
- SettingsModel.SettingMessages: lists the failing paths in schema order, not in Mongoose's order (unset required paths first, from the last schema path back); the contract states which messages appear, not their order.
- BookingsController.PnrFound: the `populate({ path: "cabinId", select: "name" })` is not applied; `cabinId` is shown as the stored id.
- The `createdAt` and `updatedAt` timestamps of `timestamps: true` are not part of the records: a body that assigns them changes nothing in the model, and a save does not set them.
- Object key order: a JSON object keeps its keys in insertion order, while JavaScript lists integer-like keys first. The only rule this affects is the order of the groups in a built filter.
- UsersModel.StampValue: a string assigned to `passwordChangeAt` is not parsed as a date; any non-empty string keeps the old stamp.
- ApiFeatures.PrefixValue: the rewrite is modelled on the parsed strings, not on the text `JSON.stringify` produces. In that text a control character is an escape whose letter is a word character, so the two disagree next to one: for the value "a", newline, "gt" the text reads `a\ngt`, no operator word stands alone and the value is kept, where the model gives "a", newline, "$gt" (a tab before `lt` behaves the same); and for a carriage return followed by "egex" the text reads `\regex`, the rewrite produces the invalid escape `\$` and `JSON.parse` throws, where the model keeps the value.
- Coercions.ToNumber: the unary `+` of a string is modelled for optional sign and decimal digits only, with surrounding white space trimmed; `"1e1"`, `"0x10"`, `"1.5"` and `"Infinity"` are read as `NaN`.
- Coercions.StringToNumber: reads only an optional sign and decimal digits, so exponent, hexadecimal, fractional and `Infinity` forms are `NaN`.
- ApiFeatures.NumberOr: through `ToNumber`, `?limit=1e1` or `?limit=0x10` gives the fallback where JavaScript gives 10 or 16.
- ApiFeatures.Window: through `NumberOr`, a limit or page written as `1e1`, `0x10` or `1.5` takes the default.
- Casts.CastNumber: through `Coercions.StringToNumber`, the strings "1e1", "0x10" and "1.5" do not cast and record a cast error, where Mongoose reads 10, 16 and 1.5.
- Casts.CastDecimal: only integer strings are read; "12.5", which `Decimal128.fromString` accepts, is refused.
- Casts.CastDate: the date parser is a parameter; only the number and numeric-string cases are spelled out.
- Casts.Inspect: every value is shown on one line; `util.inspect` breaks long values over several lines and escapes control characters, which the model does not.
- UsersModel.CounterValue: a counter assigned `null` or "" is stored as 0, where Mongoose stores `null`; the model's counters are always numbers.
- UsersModel.SetPath: through `CounterValue`, `wrongAttemptNumber` and `autoLoginCouter` assigned `null` or "" become 0 rather than `null`.
- BookingsModel.AddDays: adds whole 24-hour days. date-fns `addDays` steps calendar days in the process time zone, which differs by an hour across a daylight-saving change; the model holds for a time zone without one, such as UTC.
- AuthController.Controller.UpdateMe: as intended, a body naming `password` is refused 401 `passwordUpdateForbidden` whatever its value; as written, `{ "password": 0 }` passes the guard and saves the password "0" (see Findings).
- Strings.ToLower: the case mapping covers the characters up to U+017F (ASCII, Latin-1 and Latin Extended-A); every other character is kept.
- CabinsModel.WithLowerCaseName: `nameLowerCase` is exact only for names within the range of `Strings.ToLower`.
- CabinsModel.LowerCaseNameOfCast: `name.toLowerCase()` is exact only within the range of `Strings.ToLower`.
- GuestsModel.CastGuest: email, nationality and the default lowercase name are lowercased only within the range of `Strings.ToLower`.
- GuestsModel.CreatedGuestNormalised: "lowercase" means lowercase within the range of `Strings.ToLower`.
- GuestsModel.DefaultLowerCaseName: the default is lowercased only within the range of `Strings.ToLower`.
- GuestsController.EmailFilter: the email is lowercased only within the range of `Strings.ToLower`.
- AuthController.LoginReply: states the login as intended: an unknown email is the 401 `noUser` error. As written it is an error without a status code, answered 500 (see Findings).
- AuthController.LoginOutcome: as intended, through `LoginReply`, an unknown email is answered 401.
- AuthController.LoginOutcomeIs: as intended, through `LoginReply`, an unknown email is answered 401.
- AuthController.UnknownEmailLogged: as intended, the reply is the 401 `NoUser` error.
- AuthController.Controller.Login: as intended, through `LoginOutcome`, an unknown email is answered 401.
- The IP address, user agent, device type and location written to the login log: they come from request headers and a parser library.
- JWT signing and verification, bcrypt, sha256, random tokens, mail delivery and the validator library's `isEmail` and `isStrongPassword`: parameters of the model. bcrypt and sha256 are injective symbolic hashes.
- Mail text: a sent mail is its recipient, subject and link.
- The `roleHierarchy` table, the restore datasets and `isTodayUtc` (which depends on the process time zone): parameters of the model.
- Floating point: prices and amounts are exact integers, and `parseFloat` of a Decimal128 is that integer.
- Concurrency:
  - the settings cascade saves without awaiting, and the model applies it at once;
  - the check and the insert that follows it are not atomic;
  - `next(err)` without `return` in the booking pre-save hook;
  - array bodies given to `create` are saved in parallel by Mongoose. The model saves them in order and stops at the first failure, so which documents of a failing batch remain is not captured.
- Database errors: every save, update and delete not shown failing in a contract succeeds.
- ObjectId generation: new ids are given by the caller and assumed fresh.
- The key sanitiser is modelled as a method that returns the rewritten value, so in-place mutation and aliasing between `req.body` and other references are not captured.
- Sanitizer.Sanitized: an object is its own keys only. The model tracks whether a later assignment to `__proto__` still reaches the setter of `Object.prototype`, but not the prototype's contents: when an object value becomes the prototype, later reads such as `req.body.role` can see its properties through the prototype, and the model does not capture that. Two effects on the prototype alone are also not modelled: when a scalar reaches the setter, `obj[newKey]` reads the current prototype, which `sanitize` cleans again; and when the prototype owns `__proto__`, it is that own value which `sanitize` cleans. Neither changes the object's own keys.
- `convertDecimal128Fields` of bookings, cabins and settings is modelled on values, element by element over an array. It does not capture that the code mutates the documents returned by a query.
- Mongoose merges successive `find()` calls on one query. The query is modelled as the list of calls made, not as their merged result.
- A `filter` query parameter that parses to a non-object is treated like invalid JSON. Mongoose's handling of `find(null)` or `find(5)` is not modelled.
- The production copy `JSON.parse(JSON.stringify(err))` drops an inherited `name` in some runtimes. The error handler model keeps the name as set on the error.
- User validation does not check `fullNameLowerCase`, because the only validating save works on a document that did not select it.
- `lowerCase: true` on users' `email` and `fullNameLowerCase`, and guests' `fullNameLowerCase`, is not a Mongoose option, so the model does not lowercase those paths.
- `app.js`, the routes, the database connection and the logger: wiring only. The route order matters once: DELETE `/:id` reuses the `_rolesRestriction` the users controller stored on its last `setRolesRestriction`, and the model keeps that field on the controller.

## Findings

| source | as written | input that shows it | evidently intended | confidence | as-written member | corrected member |
|---|---|---|---|---|---|---|
| controllers/authController.js:285-288 | `next(new AppError(msg), 401)` passes 401 to `next`, so the error has no status code and the handler answers 500 "error" | a login with any email no user has | 401 "fail" `noUser`, like the other login refusals | high (not executed) | `AuthController.NoUserAsWritten`, `AuthController.NoUserAsWrittenAnswers500` | `AuthController.NoUser`, `AuthController.NoUserAnswers401` |
| controllers/authController.js:385-400 | `verifyToken` rethrows for refresh tokens, and the error handler maps `TokenExpiredError` and `JsonWebTokenError` to 401 | a REFRESH_TOKEN cookie holding an expired token | no refresh error is 401, as the handler's own comment demands; a failing token is 498 `noRefreshToken` | high (not executed) | `AuthController.RefreshAsWritten`, `AuthController.RefreshAsWrittenAnswers401` | `AuthController.RefreshAccessToken`, `AuthController.RefreshNever401` |
| controllers/authController.js:507-517 | `if (req.body.password)` tests truthiness, so a falsy password passes the guard and is assigned and hashed | `PATCH updateMe` with body `{ "password": 0 }` sets the password to "0" | any `password` key is refused 401 `passwordUpdateForbidden` | medium (not executed) | `AuthController.UpdateMeAsWritten`, `AuthController.UpdateMeAsWrittenSetsZero` | `AuthController.UpdateMeOutcome`, `AuthController.UpdateMeRefusesAnyPassword` |
