/**
 * The documents kept in the `hotels` collection: a hotel profile with its
 * metadata, its timestamps and the ordered list of data sources attached to it.
 */
module Records {
  import opened Wrappers

  /** The identifier the store assigns to a new hotel document. */
  type HotelId = nat

  /** A `new Date()` value; only compared and stored, never inspected. */
  type Timestamp = nat

  /** The two data-source types the ingestion handler accepts. */
  datatype SourceKind = Text | Url

  /** One `{type, content}` entry of a hotel's `dataSources` array. */
  datatype DataSource = DataSource(kind: SourceKind, content: string)

  datatype Hotel = Hotel(
    name: string,
    website: string,
    description: string,
    createdAt: Timestamp,
    updatedAt: Option<Timestamp>,
    dataSources: seq<DataSource>)

  /**
   * An `:id` path parameter or `hotelId` body field after `new ObjectId(...)`:
   * either a parsed identifier, or the message of the exception the parser threw.
   */
  datatype IdParam = Parsed(id: HotelId) | Unparsable(reason: string)

  /** The `type` string stored for a data source of this kind. */
  function KindName(k: SourceKind): string {
    match k
    case Text => "text"
    case Url => "url"
  }

  /** Recognises the `type` field of a data-source submission. */
  function ParseKind(t: string): (r: Option<SourceKind>)
    ensures r.Some? ==> KindName(r.value) == t
    ensures forall k :: KindName(k) == t ==> r == Some(k)
  {
    if t == "url" then Some(Url)
    else if t == "text" then Some(Text)
    else None
  }
}
