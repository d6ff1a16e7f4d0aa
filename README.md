# FeedMedia feed path builder

A Dafny model of the feed path builder of the mpx-php library: the
`Mpx\Services\FeedMedia\Client` object. The client holds the identifying
options of a theplatform Media feed request. These are the account pid, the
feed pid, an optional feed type (subfeed), a "feed" format flag, numeric item
IDs, an owner ID, GUIDs and SEO terms. `buildPath()` turns them into the
request path. It refuses numeric IDs together with GUIDs by throwing an
`MpxException`. Otherwise it appends, in a fixed order and with no separator
of its own: the account pid, the feed pid, the feed type, the literal `feed`,
the comma-joined IDs, `guid/` + owner slot + the comma-joined GUIDs, and the
comma-joined SEO terms.

Files:

- `php.dfy` (module `Php`): the PHP semantics the builder depends on. A
  `Value` datatype covers NULL, booleans, integers, strings and arrays.
  `Truthy` is PHP's conversion to boolean, so `''`, `'0'`, `0`, NULL, FALSE
  and the empty array are all false. `ToStr` is PHP's conversion to string,
  with integers written in decimal and arrays as `Array`. `Implode` is
  `implode()`. `SplitOnComma` splits a comma join of a non-empty list of
  comma-free texts back into that list.
- `feed_path.dfy` (module `FeedPath`): the path as a pure function
  `BuildPath` of the fields it reads, plus lemmas on segment order, falsy
  fields, the owner slot and worked examples.
- `feed_media_client.dfy` (module `FeedMedia`): the `Client` class. Its fields
  are assigned by the constructor. Its `BuildPath` method accumulates the
  path by successive appends, as the source does, and is proved equal to
  `FeedPath.BuildPath`. `create()`'s falsy-to-default mapping is modelled by
  `CreateConfig` over a record of container entries.

Behaviour modelled as the code has it, where the field doc comments
(src/Services/FeedMedia/Client.php, lines 78-112) or a natural reading of the
options would suggest otherwise:

- "Absent" means false in PHP's sense, not "empty". A feed type of `'0'`,
  of the integer `0` or of an empty string counts as absent. An account pid
  of `'0'` still leads the path, since it is appended without a truth test,
  but counts as absent in the GUID owner slot.
- The GUID owner slot is the account pid, or `-` when the account pid is
  false. The `ownerId` field is stored by the constructor, and its doc
  comment describes this very slot, but `buildPath()` never reads it.
- `create()` defaults false `guids` and `seo_terms` to NULL. The constructor
  defaults them to empty arrays. Both are false, so the path is the same.
- `create()` cannot tell an explicit false entry (`''`, `'0'`, `0`, FALSE,
  an empty array) from a NULL one: all take the default.

## Model

| member | source | states |
|---|---|---|
| Php.Truthy | src/Services/FeedMedia/Client.php:188-202 | PHP's conversion to boolean, as the tests at lines 188, 194-197, 199 and 202 apply it: false exactly for NULL, FALSE, `0`, `''`, `'0'` and the empty array |
| Php.Implode | src/Services/FeedMedia/Client.php:196-202 | `implode()`: the texts of the array's values in order with the glue between them (an empty array gives `''`, a one-element array that element's text); a non-array gives `''`, as PHP 5's NULL result appends |
| Php.ToStr | src/Services/FeedMedia/Client.php:192-194 | a field that is not an array is false exactly when the text `.=` appends for it is `''` or `'0'`; an array appends `Array` |
| Php.IntToDecimal | src/Services/FeedMedia/Client.php:192-193 | an integer field's appended text is never empty, and is `'0'` exactly for the integer 0 |
| Php.NatToDecimal | src/Services/FeedMedia/Client.php:192-193 | the decimal text of a number is a non-empty digit string that starts with `0` only for 0 (no leading zeros) |
| Php.DecimalRoundTrip | src/Services/FeedMedia/Client.php:192-193 | reading the decimal text of a number back gives that number |
| Php.CommaJoinRoundTrip | src/Services/FeedMedia/Client.php:196-202 | a non-empty list of comma-free texts, imploded with `,` as the IDs, GUIDs and SEO terms are, splits back on `,` into exactly that list |
| FeedPath.BuildPath | src/Services/FeedMedia/Client.php:187-205 | fails exactly when the IDs and the GUIDs are both true, and then with the message `Cannot provide IDs and GUIDs for the Mpx\Services\FeedMedia\Client client.`, with no path; otherwise the path begins with the account pid's text followed at once by the feed pid's |
| FeedPath.OwnerIdNeverRead | src/Services/FeedMedia/Client.php:187-205 | two configurations that differ only in the owner ID give the same result |
| FeedPath.OnlyPids | src/Services/FeedMedia/Client.php:192-204 | with every optional argument at the constructor's default the path is the account pid followed by the feed pid |
| FeedPath.FalsyFieldsAddNothing | src/Services/FeedMedia/Client.php:194-202 | a false feed type, feed flag or IDs may be reset to the constructor's default (NULL, FALSE, empty array), and false GUIDs or SEO terms to NULL (create()'s default), without changing the result |
| FeedPath.FeedTypeFollowsPids | src/Services/FeedMedia/Client.php:192-194 | a true feed type's text is inserted right after the two pids |
| FeedPath.FeedFlagFollowsFeedType | src/Services/FeedMedia/Client.php:194-195 | a true feed flag inserts `feed` right after what the pids and the feed type give |
| FeedPath.IdsFollowFeedFlag | src/Services/FeedMedia/Client.php:195-196 | true IDs insert their comma-joined list right after what the pids, feed type and feed flag give |
| FeedPath.GuidSegmentFollowsIds | src/Services/FeedMedia/Client.php:188-201 | true GUIDs (which force the IDs false) insert `guid/`, then the account pid's text if it is true or else `-`, then the comma-joined GUIDs, right after what the earlier fields give |
| FeedPath.SeoTermsComeLast | src/Services/FeedMedia/Client.php:202-204 | true SEO terms append their comma-joined list at the very end |
| FeedPath.OwnerSlot | src/Services/FeedMedia/Client.php:199 | the owner slot is the account pid's text when the account pid is true; it is never empty nor `0`, and is `-` exactly when the account pid is false (or is itself the string `-`) |
| FeedPath.ExampleAllSegments | src/Services/FeedMedia/Client.php:192-202 | `acct1`, `feed1`, type `type1`, flag on, IDs `1`,`2`, SEO term `termA` give `acct1feed1type1feed1,2termA` |
| FeedPath.ExampleGuids | src/Services/FeedMedia/Client.php:197-201 | `acct1`, `feed1`, GUIDs `g1`,`g2` give `acct1feed1guid/acct1g1,g2` |
| FeedPath.ExampleMissingAccount | src/Services/FeedMedia/Client.php:199 | an empty account pid with feed `feed1` and GUID `g1` gives `feed1guid/-g1` |
| FeedPath.ExampleZeroAccount | src/Services/FeedMedia/Client.php:192-199 | account pid `'0'` still leads the path but the owner slot falls back to `-`: `0feed1guid/-7` |
| FeedMedia.OrDefault | src/Services/FeedMedia/Client.php:153-158 | `$v ? $v : default`: a true value is kept and a false one becomes the default; the result is true exactly when one of the two is |
| FeedMedia.CreateConfig | src/Services/FeedMedia/Client.php:153-159 | both pids pass through; each true optional entry passes through unchanged and each false one becomes its default: NULL (feed type, owner ID, GUIDs, SEO terms), FALSE (feed flag), empty array (IDs) |
| FeedMedia.CreateKeepsPath | src/Services/FeedMedia/Client.php:153-158 | building from create()'s defaulted configuration gives the same result, path or error, as building from the raw container entries |
| FeedMedia.CreateDefaultsMatchConstructorDefaults | src/Services/FeedMedia/Client.php:153-158 | a container with all optional entries false yields NULL GUIDs and SEO terms, and the same path as the constructor's defaults: the two pids |
| FeedMedia.Client.constructor | src/Services/FeedMedia/Client.php:135-147 | every argument is stored unchanged in its field, with the source's parameter defaults |
| FeedMedia.Client.Create | src/Services/FeedMedia/Client.php:152-160 | returns a new client whose fields are create()'s defaulted configuration and whose base URL is the container's |
| FeedMedia.Client.BuildPath | src/Services/FeedMedia/Client.php:187-205 | the appends on a local string yield exactly `FeedPath.BuildPath` of the fields; it has no `modifies` clause, so it assigns no field and a repeated call returns the same result |
| FeedMedia.Client.Get | src/Services/FeedMedia/Client.php:165-167 | fails with the conflict error exactly when the IDs and GUIDs are both true, before any request; otherwise asks the collaborator to fetch the built path |
| FeedMedia.Client.Count | src/Services/FeedMedia/Client.php:172-176 | fails with the conflict error exactly when the IDs and GUIDs are both true, before any request; otherwise asks the collaborator to count the built path |

## Left out

- The MPX client collaborator itself is not modelled. That covers the `client` field, `setBaseUrl()` in the constructor (line 138) and what `get()`/`count()` receive back. These are calls into code outside this model. `Get` and `Count` return the request they would hand over.
- FeedMedia.Client.Count: does not model `$result['elements']`, because the collaborator's result shape is not part of this model.
- The Guzzle `Url` and `Query` types are not modelled. The base URL is kept as a plain string. `queryParams` is never assigned by the constructor or by `create()`, so it is left out.
- The Pimple `Container` lookup is not modelled. The container is a record of its entries. A missing entry, which Pimple reports with an exception, is not modelled.
- PHP floats and objects are not modelled among the values. Array keys are not modelled either, since `implode()` reads only the values, in order.
- `implode()` on a true value that is not an array is modelled as PHP 5 behaves: a warning and a NULL result, which appends nothing. PHP 8 would throw a `TypeError` instead.
- The notices PHP raises for array-to-string conversion are not modelled; only the text `Array` is.
