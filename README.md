# Coffee label printer: key derivation, drive search and downloads

The label printer reads a ShipStation API key pair from a text file and
joins the two keys into a Basic-authentication credential. It then pulls
the pending orders, and derives one search key per label:
`<storeId>#<sku>`, once per unit of quantity, with at least one per line
item. Orders that already carry a ship date are skipped. Each key is
searched on a shared Google Drive for PNG files whose name contains it, and
every file found is listed as `<fileId>#<fileName>`. Finally the i-th listed
file is downloaded to `.\Pictures\<i-th key without ':'>---<i+1>.png`.

This project models that pipeline:

- `Credentials`: the key-file tokenizer (the pattern `[^ :A-Z\r\n]+`) and
  the credential join, including the template written when the file is
  missing.
- `Orders`: the order fields the printer reads, and the search key of a
  line item.
- `KeyDerivation`: the nested loops that build the list of search keys.
  These are an imperative method proved against a specification function,
  with lemmas about counts, placement and the origin of every key.
- `DriveSearch`: the search loop that accumulates result entries. Each
  drive response is an input: a failed query, or the list of files
  returned.
- `Downloads`: the download loop. It cuts the file id at the first '#',
  builds the save path, and logs each failed download.
- `Driver`: one whole run, as a function from the key file, the order list
  and the drive responses to its outcome. Besides completion there are
  three outcomes. Two are fatal errors: bad keys, or no orders. The third
  is the index panic that happens when the search returns more files than
  there are keys.
- `Text`, `Seqs`, `Wrappers`: the string helpers the program uses
  (`strconv.Itoa`, `strings.ReplaceAll`, `strings.Split(..)[0]`),
  concatenation over a list, and `Option`.

The results of the drive search are paired with the keys by position, not
by which key found them. The model shows what follows:

- When every key finds exactly one file, the pairing is right
  (`Downloads.AlignedWhenOneMatchEach`).
- When the keys before position j found one file each and key j found
  none, the file found for key j + 1 is saved under key j's name
  (`Downloads.ZeroMatchMisnames`; `Driver.ExampleRun` shows it on a
  concrete run).
- When one key finds two files and every other key finds one, the loop
  indexes past the end of the key list (`Driver.TwoMatchesOverrun`).

In general the pairing depends on how many files every earlier key found;
`Driver.Run` states the outcome for any numbers of matches. All of this is
what the code does, and the model keeps it.

When the key file cannot be read, the program writes the template but goes
on to tokenize the empty contents of the failed read. `Credentials.KeyFileText`
models that. Tokenizing the template instead would give the same outcome,
since the template holds no token (`Credentials.TemplateRejected`).

## Model

| member | source | states |
|---|---|---|
| Text.Decimal | Driver/main.go:95 | definition of `strconv.Itoa` (also used at line 117); properties in Text.DecimalShape, Text.DecimalInjective, Text.DecimalHasNoSeparators |
| Text.DecimalShape | Driver/main.go:95 | the rendered store id is a non-empty run of digits, led by '-' exactly when the id is negative |
| Text.DecimalInjective | Driver/main.go:95 | distinct store ids render to distinct strings |
| Text.DecimalHasNoSeparators | Driver/main.go:117 | a rendered integer holds neither ':' nor '#', so the sequence number survives in the save path |
| Text.RemoveAll | Driver/main.go:117 | removing ':' from a key leaves no ':' and never lengthens it |
| Text.RemoveAllKeepsOthers | Driver/main.go:117 | every character other than the removed one keeps its count |
| Text.RemoveAllAppend | Driver/main.go:117 | removal distributes over concatenation, so kept characters keep their order |
| Text.RemoveAllAbsent | Driver/main.go:117 | a key without ':' is used unchanged in the file name |
| Text.RemoveAllIdempotent | Driver/main.go:117 | removing twice is removing once |
| Text.FieldBefore | Driver/main.go:116 | the first field of a split at '#' is the longest '#'-free prefix, followed by '#' when shorter than the entry |
| Text.FieldBeforeJoin | Driver/main.go:116 | splitting `a + "#" + b` gives back `a` when `a` has no '#' |
| Text.FieldBeforeAbsent | Driver/main.go:116 | an entry without '#' is its own first field |
| Orders.SearchKey | Driver/main.go:94-95 | definition of the search key; properties in Orders.SearchKeySplit, Orders.SearchKeyInjective |
| Orders.Copies | Driver/main.go:97-103 | definition of the number of keys per item, max(quantity, 1); properties in KeyDerivation.ItemKeysPlacement, KeyDerivation.DegenerateQuantities |
| Orders.SearchKeySplit | Driver/main.go:94-95 | a search key splits at its first '#' into the rendered store id and the SKU |
| Orders.SearchKeyInjective | Driver/main.go:94-95 | two search keys are equal if and only if their store ids are equal and their SKUs are equal |
| KeyDerivation.SearchKeys | Driver/main.go:87-105 | definition of the key list; the loop is proved equal to it in KeyDerivation.DeriveSearchKeys, properties in KeyDerivation.SearchKeysCount, KeyDerivation.KeyOrigin, KeyDerivation.ItemKeysPlacement |
| KeyDerivation.Repeat | Driver/main.go:97-103 | a line item's block holds exactly the requested number of keys |
| KeyDerivation.RepeatAt | Driver/main.go:98-100 | every key of a block is the item's search key |
| KeyDerivation.DeriveSearchKeys | Driver/main.go:87-105 | the order loop yields exactly the keys of the specification `SearchKeys`: per pending order, per item, max(quantity, 1) copies, in order |
| KeyDerivation.AppendItemKeys | Driver/main.go:93-104 | the item and quantity loops append exactly the keys of one order's items to the list built so far |
| KeyDerivation.SearchKeysAppend | Driver/main.go:89-105 | the keys of two order lists in a row are the keys of the first followed by those of the second |
| KeyDerivation.ShippedOrderSkipped | Driver/main.go:90-92 | an order with a ship date contributes no key, wherever it sits |
| KeyDerivation.ItemKeysPlacement | Driver/main.go:93-104 | each item's keys form one contiguous block of max(quantity, 1) copies, after all earlier keys and before all later ones |
| KeyDerivation.ItemKeysCount | Driver/main.go:96-103 | one order contributes the sum over its items of max(quantity, 1) keys |
| KeyDerivation.SearchKeysCount | Driver/main.go:89-105 | the key list has one entry per label of the pending orders, counted independently |
| KeyDerivation.ItemKeyOrigin | Driver/main.go:93-95 | every key of an order is the search key of one of its items |
| KeyDerivation.KeyOrigin | Driver/main.go:89-105 | every key is the search key of an item of an order without a ship date |
| KeyDerivation.ExampleStore100Keys | Driver/main.go:93-104 | store 100 with SKU1×1 and SKU2×2 gives `100#SKU1, 100#SKU2, 100#SKU2` |
| KeyDerivation.ExampleStore200Keys | Driver/main.go:93-104 | store 200 with SKU3×1 gives `200#SKU3` |
| KeyDerivation.ExampleKeys | Driver/main.go:87-105 | a shipped order followed by those two pending orders gives the four keys above, in order |
| KeyDerivation.DegenerateQuantities | Driver/main.go:96-103 | quantities 0 and -3 still yield one key each |
| Credentials.KeyFileText | Driver/main.go:44-56 | definition of the text tokenized: the file contents, or empty when the read failed; properties in Credentials.TemplateRejected |
| Credentials.Template | Driver/main.go:50 | definition of the template text; properties in Credentials.TemplateRejected |
| Credentials.RunLength | Driver/main.go:57 | the length of the longest separator-free prefix: no separator before it, a separator at it |
| Credentials.Tokens | Driver/main.go:57-58 | every match is non-empty and free of space, ':', 'A'-'Z', CR and LF |
| Credentials.RunLengthUnique | Driver/main.go:57 | the match length is uniquely determined by its characterization |
| Credentials.TokensOfRun | Driver/main.go:57-58 | a non-empty separator-free string is one single match |
| Credentials.TokensOfSeparators | Driver/main.go:57-58 | a string of separators holds no match |
| Credentials.TokensSplit | Driver/main.go:57-58 | a separator splits the matches: those of the left part, then those of the right |
| Credentials.TokensAfterSeparators | Driver/main.go:57-58 | leading separators do not change the matches |
| Credentials.LabelsAreSeparators | Driver/main.go:50 | the labels "PUBLIC KEY: " and "PRIVATE KEY: " consist of separators only |
| Credentials.KeyFileTokens | Driver/main.go:50-58 | a key file laid out as the template yields the public key's matches followed by the private key's |
| Credentials.Credential | Driver/main.go:56-71 | a credential exists exactly when there are two matches; it is the first, ':', the second, and splits back into them |
| Credentials.TemplateRejected | Driver/main.go:44-70 | the template is the layout with both keys blank, holds no match, and neither it nor a missing file gives a credential |
| Credentials.FilledKeyFile | Driver/main.go:50-71 | the template filled with two separator-free keys gives `public:private` |
| Credentials.UpperCaseSplitsKey | Driver/main.go:57-70 | an upper-case letter inside a key splits it into two matches, so no credential results |
| DriveSearch.Query | GoogleDrive/GoogleDriveCoffeeAccess.go:94 | the query embeds the search string whole at a fixed offset, with 43 characters of fixed text around it |
| DriveSearch.QueryInjective | GoogleDrive/GoogleDriveCoffeeAccess.go:94 | different search strings give different queries |
| DriveSearch.Entry | GoogleDrive/GoogleDriveCoffeeAccess.go:108 | definition of a result entry; properties in DriveSearch.EntryFileId |
| DriveSearch.Located | GoogleDrive/GoogleDriveCoffeeAccess.go:93-111 | definition of the result list; the loop is proved equal to it in DriveSearch.SearchFilesOnDrive, properties in DriveSearch.LocatedCount, DriveSearch.LocatedAt, DriveSearch.EmptyResponseSkipped |
| DriveSearch.EntryFileId | GoogleDrive/GoogleDriveCoffeeAccess.go:108 | the part of an entry before its first '#' is the file id, when the id has no '#' |
| DriveSearch.SearchFilesOnDrive | GoogleDrive/GoogleDriveCoffeeAccess.go:91-112 | one query per search string, in order, and the results are exactly the specification `Located`: the entries of every successful response, in order |
| DriveSearch.EntriesShape | GoogleDrive/GoogleDriveCoffeeAccess.go:106-110 | one entry per returned file, in the order returned |
| DriveSearch.LocatedAppend | GoogleDrive/GoogleDriveCoffeeAccess.go:93-111 | searching two lists in a row gives the first's results, then the second's |
| DriveSearch.EmptyResponseSkipped | GoogleDrive/GoogleDriveCoffeeAccess.go:102-110 | a failed query and a query with no file both leave the results unchanged |
| DriveSearch.LocatedCount | GoogleDrive/GoogleDriveCoffeeAccess.go:93-111 | the number of results is the number of files returned by successful queries |
| DriveSearch.LocatedAt | GoogleDrive/GoogleDriveCoffeeAccess.go:106-110 | the k-th file of the j-th response sits right after the results of the earlier responses |
| Downloads.FileIdOf | Driver/main.go:116 | definition of the file id cut from an entry; properties in Text.FieldBefore, DriveSearch.EntryFileId |
| Downloads.SanitizedKey | Driver/main.go:117 | definition of the key as used in a file name; properties in Text.RemoveAll, Text.RemoveAllKeepsOthers |
| Downloads.DownloadCalls | Driver/main.go:117 | definition of the downloads asked for; the loop is proved equal to it in Downloads.DownloadAll, properties in Downloads.DownloadPathsDistinct, Downloads.AlignedWhenOneMatchEach |
| Downloads.FailureMessage | Driver/main.go:119 | definition of the failure log line |
| Downloads.FailureLog | Driver/main.go:118-119 | definition of the failure log; properties in Downloads.FailureLogEntries |
| Downloads.OutputName | Driver/main.go:117 | a save path holds no ':' |
| Downloads.OutputNameDistinct | Driver/main.go:117 | save paths of different positions differ, whatever the keys |
| Downloads.DownloadAll | Driver/main.go:115-121 | one download per result, in order, of the id before '#', saved under the key at the same position; a failure is logged with that key and the loop goes on |
| Downloads.DownloadPathsDistinct | Driver/main.go:115-117 | no two downloads of a run share a save path |
| Downloads.AlignedWhenOneMatchEach | Driver/main.go:115-117 | when every key finds exactly one file, the i-th download fetches the file found for the i-th key and is named after it |
| Downloads.OneMatchEachCount | GoogleDrive/GoogleDriveCoffeeAccess.go:106-110 | one file per response gives one result per response |
| Downloads.ZeroMatchMisnames | Driver/main.go:115-117 | when keys 0..j-1 found one file each, key j found none and key j+1 found file f, the j-th download fetches f and saves it under key j's name |
| Downloads.FailureLogEntries | Driver/main.go:118-119 | the failure log holds exactly one message per failed download, naming that download's key, in download order |
| Driver.Run | Driver/main.go:56-121 | a run stops for bad keys exactly when there is no credential, and for no orders exactly when the order list is empty. Otherwise it completes with one download per match exactly when matches do not outnumber labels, and overruns after one download per label otherwise |
| Driver.ExampleRun | Driver/main.go:87-121 | on the example orders, with the third key matching nothing, the file found for `200#SKU3` is saved under `100#SKU2`'s name |
| Driver.ExampleResults | Driver/main.go:115-121 | the three results of the example go to positions 0, 1, 2 of the key list |
| Driver.ExampleEmptySkipped | GoogleDrive/GoogleDriveCoffeeAccess.go:106-110 | the empty response of the example adds no result |
| Driver.TwoMatchesOverrun | Driver/main.go:115-117 | when one key finds two files and every other key finds one, the run ends in the index overrun |

## Left out

- Reading and creating files, the log file, and the `Pictures` directory are file I/O. The key file is modelled as its text, or absent.
- The Google credentials file check, `ConfigFromJSON`, the OAuth token flow and `GetClient` are I/O with fatal error paths. They are not modelled.
- The base64 encoding of the credential (RFC 4648, section 4) and its use in the Basic `Authorization` header (RFC 7617, section 2) are not modelled. The model ends at the joined `public:private` string.
- The HTTP request and JSON decoding in `Connect` are not modelled. The decoded orders are an input. Of `Connect` only the empty-list error (CoffeeLabel/ShopfiyAccessOrders.go:170-172) is modelled, as `NoOrders`. Every order field except ship date, store id, SKU and quantity is unread.
- DriveSearch.SearchFilesOnDrive: the log line written for a failed query is not modelled, because its text is the error value returned by the network call.
- Drive API calls, the shared drive id, and the corpora and all-drives flags are network I/O. Each response is an input.
- The `DownloadFile` transfer is network and file I/O. Its success is an input to `Downloads.DownloadAll`.
- Query: the search string is spliced into the query text without escaping quotes. The model builds the same text and says nothing about how the drive reads it.
- Tokens: the pattern runs over UTF-8 runes. The model treats a string as a sequence of characters, with no decoding.
- Downloads.DownloadAll: the program's panic on running past the key list is not part of the method, which requires at most as many results as keys. `Driver.Run` models the panic as the `IndexOutOfRange` outcome.
- Decimal: Go's `int` is 64 bits wide. Store ids and quantities are unbounded integers here, since the program does no arithmetic that could overflow on them.
- Console messages printed on success are output only and are not modelled.
