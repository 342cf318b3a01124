# Hotel chatbot: knowledge ingestion and context assembly

A model of the two sequential pieces of a hotel-chatbot service: how a hotel's
knowledge base is built (the hotel profile handlers and the data-source
ingestion handler) and how that knowledge base becomes the system prompt of a
chat turn (context assembly, the provider request, reply extraction and the
mapping of failures to one 500 answer).

Modules:

- `Records` (`records.dfy`): the hotel document (`name`, `website`,
  `description`, `createdAt`, optional `updatedAt`, ordered `dataSources`),
  the `text`/`url` source kinds, and an id parameter that is either parsed or
  the message of the parser's exception.
- `Responses` (`responses.dfy`): a handler's answer as status plus JSON body.
- `Hotels` (`hotels.dfy`): `HotelStore`, a class over the `hotels` map with
  one method per handler; each method states the whole new map and the
  response. Ids come from a counter kept above every stored id.
- `Decimal` (`decimal.dfy`): the decimal numeral of `${index + 1}` and its
  inverse.
- `ChatContext` (`context.dfy`): the context string as a recursive
  specification (`Context`), the handler's `+=` loop (`BuildContext`) proved
  equal to it, and lemmas on block count, order and append.
- `Chat` (`chat.dfy`): reply extraction from the provider envelope, the 500
  answer, and the chat handler. The provider is an input value, not a call.

Behaviour the model keeps as the code has it:

- Every failure of the chat handler answers 500 with one fixed error string.
  This covers an unparsable id, any provider error and a malformed envelope.
  A provider error's own status is never passed through.
- `details` is present exactly in development mode.
- A missing `content` in the first choice is not a failure. The answer is 200
  with the reply absent.
- The chat handler has no 400 case. A missing `hotelId` makes the id
  constructor mint a fresh id, which matches no hotel, so the answer is 404.
- On ingestion, the type is checked first and the URL is fetched next. Only
  then is the id parsed and the hotel looked up, so a URL is fetched even for
  a hotel that does not exist (`fetchedUrl` records it).
- `name`, `website`, `description` and source contents are interpolated
  verbatim. No missing-field policy is applied.

## Model

| member | source | states |
|---|---|---|
| Records.ParseKind | routes/hotels.js:90-99 | only `"url"` and `"text"` are accepted, and a recognised kind renders back as the submitted string |
| Hotels.Normalize | routes/hotels.js:88-99 | text is stored unchanged; a url yields the extracted text or fails; any other type is an unsupported kind; on success the stored type equals the submitted one |
| Hotels.HotelStore.Create | routes/hotels.js:9-20 | 201; the new id is fresh; the record holds exactly the supplied name, website and description, the creation time, no `updatedAt` and no data sources; other records unchanged |
| Hotels.HotelStore.List | routes/hotels.js:27-30 | 200; every stored record appears, every entry is a stored record, ids strictly ascending (so each record once) |
| Hotels.ListingSpec | routes/hotels.js:29-30 | the listing of ids in a range holds exactly the map's entries in that range, in ascending id order |
| Hotels.HotelStore.Get | routes/hotels.js:37-47 | the stored record with 200, 404 `Hotel not found` when absent, 500 when the id does not parse |
| Hotels.HotelStore.Update | routes/hotels.js:51-66 | on a match only name, website, description and `updatedAt` change; ids, `dataSources` and `createdAt` of every record are untouched; 404 and no change when nothing matched; 500 on an unparsable id |
| Hotels.HotelStore.Delete | routes/hotels.js:69-80 | removes only the target record; 404 and no change when absent; 500 on an unparsable id |
| Hotels.HotelStore.AddDataSource | routes/hotels.js:83-115 | 400 `Invalid data source type` with no change for other types; 500 with no change when the fetch fails or the id does not parse; 404 with no change when no record matches; otherwise exactly one source appended to the target (one longer, earlier entries kept in place, the new last entry carrying the submitted type and normalized content) and nothing else changed; the URL is fetched before the lookup; the store changes iff the answer is 200 |
| Decimal.DecimalString | index.js:50 | the numeral is non-empty, all digits, and has no leading zero |
| Decimal.DecimalRoundTrip | index.js:50 | reading the numeral back gives the number |
| Decimal.DecimalInjective | index.js:50 | different positions render as different numerals |
| ChatContext.BuildContext | index.js:43-53 | the header, one `+=` per source in order, then the closing, equals `Context(h)` |
| ChatContext.BlocksSplit | index.js:48-52 | rendering two source lists one after the other is the first's blocks followed by the second's, numbered on |
| ChatContext.BlocksAppend | index.js:48-52 | appending a source adds exactly one block, numbered after the existing ones, at the end |
| ChatContext.BlocksAreBlockList | index.js:48-52 | the rendered blocks are exactly N blocks, the i-th announcing `Source k+i:` with the i-th content, in order |
| ChatContext.BlocksOnlySeeContents | index.js:49-51 | blocks depend only on the ordered contents, not on the stored types |
| ChatContext.BlockAt | index.js:49-51 | block i of the rendering sits between the blocks of the earlier and of the later sources |
| ChatContext.ContextFrame | index.js:43-53 | the context begins with the header and ends with the closing sentence |
| ChatContext.ContextWithoutSources | index.js:43-53 | with no sources the context is the header directly followed by the closing sentence |
| ChatContext.SourceBlockInContext | index.js:43-53 | the context is the header, the earlier blocks, `Source i+1:` with source i's content, the later blocks, and the closing |
| ChatContext.ContextAfterAppend | index.js:48-53 | appending a source keeps header, earlier blocks and closing, and inserts one block `Source N+1:` before the closing |
| ChatContext.ContextDeterminedByMetadataAndContents | index.js:43-53 | the context is a function of name, website, description and the ordered contents only |
| ChatContext.LabelsDistinct | index.js:50 | no two positions share a `Source k:` label |
| ChatContext.OneSourceExample | index.js:43-53 | a hotel with one text source gets `\n\nSource 1:\n` followed by that text between header and closing |
| Chat.CompletionRequestFor | index.js:57-65 | the request names model `gpt-3.5-turbo-16k` and carries exactly two messages, the system message with the context first, then the user message |
| Chat.ExtractReply | index.js:76 | succeeds iff `choices` exists, is non-empty and its first entry has a message; the reply is that message's content (possibly absent) |
| Chat.ExtractReplyOfEnvelope | index.js:76 | extraction returns the text a one-choice envelope carries, ignores later choices, and fails on zero choices |
| Chat.ServerError | index.js:80-85 | 500 with the fixed error string; `details` present iff development mode, and then the error's message |
| Chat.ChatReply | index.js:57-85 | 200 with the reply iff the provider answered with a readable envelope, else 500; no provider status passes through |
| Chat.HandleChat | index.js:30-86 | unparsable id: 500 and no request; unknown hotel: 404 `Hotel not found` and no request; otherwise exactly one request with model `gpt-3.5-turbo-16k`, system message = the hotel's context then user message = the message, answered per `ChatReply` |

## Left out

- Express routing, middleware, static files, `app.listen`, server startup, logging, `dotenv` and the port default: framework plumbing.
- `public/app.js`: the browser interface is presentation only.
- MongoDB: the collection is a map and ids are store-assigned naturals. `new ObjectId(...)` is an input (`IdParam`): either a parsed id or the message of its exception.
- Database operation failures are not modelled. These are the 500 answers of create (`Error creating hotel profile`) and list (`Error fetching hotel profiles`), and a failing `findOne`, `updateOne` or `deleteOne`. The store is assumed to answer.
- URL fetching and HTML text extraction (axios and cheerio): one opaque input per submission, either the extracted text or a failure.
- The provider call: the request body is modelled, but the bearer credential and headers are not. What the provider yields is an input, either an envelope or an error message.
- Timestamps: `new Date()` values are opaque naturals supplied by the caller.
- Concurrency: concurrent appends to the same hotel are not modelled; the handlers run one at a time.
- JavaScript coercion: every field is a string. How `undefined` or non-string values would render or compare is not modelled. An envelope whose `choices` is not an array is not modelled either.
- Hotels.HotelStore.List: returns records in ascending id order, which is insertion order here. The collection's own natural order is not modelled.
- Chat.ExtractReply: the exact wording of the JavaScript engine's `TypeError` message is not modelled. A fixed message stands in for it.
- A failure of `res.json` itself is not modelled.
