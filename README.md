# Configuration loading for the question-answering backend

This project models `backend/utilities/ConfigHelper.py`, the configuration layer of a retrieval-augmented question-answering backend. The active configuration is a JSON document named `active.json` in the blob container `config`. It has four sections:

- `prompts`: three prompt templates;
- `messages`: the post-answering filter message;
- `chunking`: a list of entries, each a strategy, a size and an overlap;
- `logging`: two switches.

The constructors `Config`, `Prompts`, `Messages`, `Chunking` and `Logging` turn the decoded document into typed sections. They only subscript dictionaries and coerce the strategy through the `ChunkingStrategy` enum. `get_active_config_or_default` tries to fetch, decode and construct the document. If any step raises, it returns `get_default_config()`.

The code is pure, so the model is made of datatypes, functions and lemmas:

- `wrappers.dfy` holds `Option`.
- `config_helper.dfy` (module `ConfigHelper`) holds the following:
  - `Value`, a JSON-shaped value that also has an enum-member case, because the default document stores `ChunkingStrategy.FIXED_SIZE_OVERLAP` itself rather than its token;
  - the typed sections;
  - one parser per constructor, returning `None` where Python would raise;
  - `WellFormed`, the document schema stated declaratively;
  - the default document and `DefaultConfig`;
  - `LoadActiveOrDefault`.
- `config_properties.dfy` (module `ConfigProperties`) holds the properties that relate several calls: all-or-nothing failure, verbatim leaves, a round trip from every `Config` through its schema-exact document, and the load rule's fallback.

Fetching and decoding are external. `LoadActiveOrDefault` takes their outcome as `Option<Value>`: `None` means the blob client or `json.loads` raised, and `Some(doc)` is the decoded document.

The model follows the code where it is more lenient than the documented schema. The code checks no types or ranges, so leaf fields stay `Value`s, copied as they are, and `overlap >= size` is accepted. Python iterates `chunking` with a comprehension, so an empty dictionary or an empty string there gives an empty list. A non-empty one fails, because its items are strings and subscripting a string with `'strategy'` raises.

## Model

| member | source | states |
|---|---|---|
| ConfigHelper.ParseStrategy | backend/utilities/ConfigHelper.py:8-12 | coercion succeeds exactly for an enum member or one of the four tokens; the result's token (or the member) is the input |
| ConfigHelper.ParsePrompts | backend/utilities/ConfigHelper.py:21-25 | succeeds iff the input is a dictionary holding all three template keys; each template is copied unchanged |
| ConfigHelper.ParseMessages | backend/utilities/ConfigHelper.py:27-29 | succeeds iff `post_answering_filter` is present; it is copied unchanged |
| ConfigHelper.ParseChunking | backend/utilities/ConfigHelper.py:31-35 | succeeds iff strategy, size and overlap are present and the strategy coerces; size and overlap are copied with no check |
| ConfigHelper.ParseEntries | backend/utilities/ConfigHelper.py:18 | the comprehension succeeds iff every item constructs; the result has the items' length and entry i is built from item i |
| ConfigHelper.ParseChunkingList | backend/utilities/ConfigHelper.py:18 | succeeds exactly on arrays of good entries and on the empty dictionary or string, which give the empty list |
| ConfigHelper.ParseLogging | backend/utilities/ConfigHelper.py:37-40 | succeeds iff both switches are present; both are copied unchanged |
| ConfigHelper.ParseConfig | backend/utilities/ConfigHelper.py:14-19 | succeeds iff the document is well-formed (every subscripted key present, every strategy recognised); each section is what its constructor builds |
| ConfigHelper.DefaultShapeConstructs | backend/utilities/ConfigHelper.py:96-106 | a document shaped like the default, whatever its four texts, constructs to one FIXED_SIZE_OVERLAP 500/100 entry and both switches true |
| ConfigHelper.DefaultConfig | backend/utilities/ConfigHelper.py:59-106 | the default document constructs; one FIXED_SIZE_OVERLAP entry of size 500 and overlap 100, both switches true, the fixed templates and message |
| ConfigHelper.LoadActiveOrDefault | backend/utilities/ConfigHelper.py:43-52 | a failed fetch/decode or a malformed document gives the default; a well-formed document gives exactly its construction |
| ConfigProperties.StrategyTokensExactly | backend/utilities/ConfigHelper.py:8-12 | a string coerces iff it is `layout`, `page`, `fixed_size_overlap` or `paragraph` |
| ConfigProperties.StrategyRoundTrip | backend/utilities/ConfigHelper.py:8-12 | every member's token coerces to that member, and every member coerces to itself |
| ConfigProperties.StrategyInverse | backend/utilities/ConfigHelper.py:33 | coercion yields s exactly for the token of s and for the member s |
| ConfigProperties.MissingTopLevelKeyFails | backend/utilities/ConfigHelper.py:15-19 | a missing `prompts`, `messages`, `chunking` or `logging` key fails the whole construction |
| ConfigProperties.MissingSectionKeyFails | backend/utilities/ConfigHelper.py:21-40 | a missing key inside prompts, messages or logging fails the whole construction |
| ConfigProperties.BadEntryFailsWhole | backend/utilities/ConfigHelper.py:18 | one chunking entry that does not construct fails the whole Config and makes load return the default; it is never dropped |
| ConfigProperties.UnknownTopLevelKeyIgnored | backend/utilities/ConfigHelper.py:15-19 | keys other than the four sections do not change the construction |
| ConfigProperties.LeavesCopied | backend/utilities/ConfigHelper.py:21-40 | every leaf of a constructed Config equals the document's value; the chunking list keeps the array's length and order |
| ConfigProperties.ChunkingRoundTrip | backend/utilities/ConfigHelper.py:31-35 | every strategy, size and overlap make an entry, overlap >= size included |
| ConfigProperties.ConfigRoundTrip | backend/utilities/ConfigHelper.py:14-40 | the schema-exact document of any Config is well-formed and constructs back to that Config |
| ConfigProperties.LoadNeverPartial | backend/utilities/ConfigHelper.py:44-52 | load returns the default or a whole construction of the fetched document, nothing in between |
| ConfigProperties.LoadRoundTrip | backend/utilities/ConfigHelper.py:46-52 | loading the schema-exact document of a Config returns that Config |
| ConfigProperties.UnknownStrategyLoadsDefault | backend/utilities/ConfigHelper.py:33 | a stored entry naming an unknown strategy token makes load return the default |
| ConfigProperties.MissingBlobLoadsDefault | backend/utilities/ConfigHelper.py:49-51 | when fetching fails, load returns the default with its single 500/100 entry |
| ConfigProperties.StoredPageConfigLoads | backend/utilities/ConfigHelper.py:46-52 | a stored document with filter "X", one page entry 1000/0 and both switches off loads as written |

## Left out

- `save_config_as_active` (ConfigHelper.py:55-57) only serialises and uploads, with no logic of its own. The code also does not promise a save-then-load round trip: `json.dumps` raises on a `Config` object and on the default dictionary, which holds an enum member.
- The Azure blob client (`AzureBlobStorageClient`, `download_file`, `upload_file`) is foreign I/O. Its outcome is the `Option` parameter of `LoadActiveOrDefault`. The module `azureblobstorage` is not part of this model.
- `json.loads` text decoding is a library. The model starts from a decoded `Value`, and duplicate keys and text syntax are not modelled.
- JSON floating-point numbers are not modelled: `Value` has integers only. The code copies such leaves unchanged like any other value.
- The `print` diagnostic on fallback (ConfigHelper.py:50) is a console side effect.
- Which exception is raised, and in what order the lookups happen, is not kept. Every failure becomes `None`, which the load rule treats the same way.
- The prompt templates are kept as opaque string constants. Placeholder resolution happens elsewhere.
- The documented schema calls `chunk_size` positive and `chunk_overlap` a non-negative value below it. The code enforces none of this, and the model follows the code.
