/**
 * The hotel profile handlers: create, list, get, update, delete, and the
 * data-source ingestion handler, acting on the `hotels` collection.
 */
module Hotels {
  import opened Wrappers
  import opened Records
  import opened Responses

  const FetchProfileError := "Error fetching hotel profile"
  const UpdatedMessage := "Hotel updated successfully"
  const UpdateError := "Error updating hotel profile"
  const DeletedMessage := "Hotel deleted successfully"
  const DeleteError := "Error deleting hotel profile"
  const InvalidSourceType := "Invalid data source type"
  const AddSourceError := "An error occurred while adding the data source"
  const SourceAddedMessage := "Data source added successfully"

  /** Why a data-source submission produced no content to store. */
  datatype IngestError = UnsupportedKind(kind: string) | FetchFailed(cause: string)

  /**
   * The data source a submission turns into. `fetched` is what the opaque
   * fetch-and-extract step yields for the URL `content`; it is consulted only
   * for `type == "url"`.
   */
  function Normalize(kind: string, content: string, fetched: Result<string, string>): (r: Result<DataSource, IngestError>)
    ensures r.Success? <==> ParseKind(kind).Some? && (kind == "url" ==> fetched.Success?)
    ensures r.Success? ==> KindName(r.value.kind) == kind
    ensures kind == "text" ==> r == Success(DataSource(Text, content))
    ensures kind == "url" && fetched.Success? ==> r == Success(DataSource(Url, fetched.value))
    ensures kind == "url" && fetched.Failure? ==> r == Failure(FetchFailed(fetched.error))
    ensures ParseKind(kind).None? ==> r == Failure(UnsupportedKind(kind))
  {
    match ParseKind(kind)
    case None => Failure(UnsupportedKind(kind))
    case Some(Text) => Success(DataSource(Text, content))
    case Some(Url) =>
      match fetched
      case Success(text) => Success(DataSource(Url, text))
      case Failure(cause) => Failure(FetchFailed(cause))
  }

  /** The entries of `m` with ids in `[lo, hi)`, in ascending id order. */
  function Listing(m: map<HotelId, Hotel>, lo: nat, hi: nat): seq<(HotelId, Hotel)>
    decreases hi - lo
  {
    if lo >= hi then []
    else (if lo in m then [(lo, m[lo])] else []) + Listing(m, lo + 1, hi)
  }

  predicate IdsAscending(l: seq<(HotelId, Hotel)>) {
    forall i, j :: 0 <= i < j < |l| ==> l[i].0 < l[j].0
  }

  lemma {:induction false} ListingSpec(m: map<HotelId, Hotel>, lo: nat, hi: nat)
    ensures forall e :: e in Listing(m, lo, hi) ==> e.0 in m && lo <= e.0 < hi && e.1 == m[e.0]
    ensures forall id :: id in m && lo <= id < hi ==> (id, m[id]) in Listing(m, lo, hi)
    ensures IdsAscending(Listing(m, lo, hi))
    decreases hi - lo
  {
    if lo < hi {
      ListingSpec(m, lo + 1, hi);
      var tail := Listing(m, lo + 1, hi);
      if lo in m {
        var l := [(lo, m[lo])] + tail;
        forall i, j | 0 <= i < j < |l| ensures l[i].0 < l[j].0 {
          assert l[j] == tail[j - 1] && tail[j - 1] in tail;
          if i > 0 {
            assert l[i] == tail[i - 1];
            assert tail[i - 1].0 < tail[j - 1].0;
          }
        }
      } else {
        assert Listing(m, lo, hi) == tail;
      }
    }
  }

  class HotelStore {
    /** The documents of the collection, by id. */
    var hotels: map<HotelId, Hotel>
    /** The id the next inserted document receives. */
    var nextId: HotelId

    ghost predicate Valid()
      reads this
    {
      forall id :: id in hotels ==> id < nextId
    }

    constructor ()
      ensures Valid() && hotels == map[]
    {
      hotels := map[];
      nextId := 0;
    }

    /** `POST /`: inserts a profile with the given metadata and no data sources; answers 201 with the stored document. */
    method Create(name: string, website: string, description: string, now: Timestamp) returns (resp: Response)
      requires Valid()
      modifies this
      ensures Valid()
      ensures resp.status == 201 && resp.body.HotelBody?
      ensures resp.body.id !in old(hotels)
      ensures resp.body.hotel == Hotel(name, website, description, now, None, [])
      ensures hotels == old(hotels)[resp.body.id := resp.body.hotel]
    {
      var hotel := Hotel(name, website, description, now, None, []);
      var id := nextId;
      hotels := hotels[id := hotel];
      nextId := nextId + 1;
      resp := Response(201, HotelBody(id, hotel));
    }

    /** `GET /`: every stored document, each exactly once, in ascending id order. */
    method List() returns (resp: Response)
      requires Valid()
      ensures resp.status == 200 && resp.body.HotelListBody?
      ensures forall e :: e in resp.body.entries ==> e.0 in hotels && e.1 == hotels[e.0]
      ensures forall id :: id in hotels ==> (id, hotels[id]) in resp.body.entries
      ensures IdsAscending(resp.body.entries)
    {
      ListingSpec(hotels, 0, nextId);
      resp := Response(200, HotelListBody(Listing(hotels, 0, nextId)));
    }

    /** `GET /:id`: the stored document, 404 when there is none, 500 when the id does not parse. */
    method Get(rid: IdParam) returns (resp: Response)
      ensures rid.Unparsable? ==> resp == ErrorResponse(500, FetchProfileError)
      ensures rid.Parsed? && rid.id in hotels ==> resp == Response(200, HotelBody(rid.id, hotels[rid.id]))
      ensures rid.Parsed? && rid.id !in hotels ==> resp == ErrorResponse(404, HotelNotFound)
    {
      match rid
      case Unparsable(_) =>
        resp := ErrorResponse(500, FetchProfileError);
      case Parsed(id) =>
        if id in hotels {
          resp := Response(200, HotelBody(id, hotels[id]));
        } else {
          resp := ErrorResponse(404, HotelNotFound);
        }
    }

    /** `PUT /:id`: `$set` of name, website, description and `updatedAt` on the matched document. */
    method Update(rid: IdParam, name: string, website: string, description: string, now: Timestamp) returns (resp: Response)
      requires Valid()
      modifies this
      ensures Valid() && nextId == old(nextId)
      ensures rid.Unparsable? ==> hotels == old(hotels) && resp == ErrorResponse(500, UpdateError)
      ensures rid.Parsed? && rid.id !in old(hotels) ==> hotels == old(hotels) && resp == ErrorResponse(404, HotelNotFound)
      ensures rid.Parsed? && rid.id in old(hotels) ==>
        && hotels == old(hotels)[rid.id := old(hotels)[rid.id].(name := name, website := website,
                                                               description := description, updatedAt := Some(now))]
        && resp == MessageResponse(UpdatedMessage)
      // what an update never touches
      ensures hotels.Keys == old(hotels).Keys
      ensures forall id :: id in hotels ==>
        hotels[id].dataSources == old(hotels)[id].dataSources && hotels[id].createdAt == old(hotels)[id].createdAt
    {
      match rid
      case Unparsable(_) =>
        resp := ErrorResponse(500, UpdateError);
      case Parsed(id) =>
        if id in hotels {
          var h := hotels[id];
          hotels := hotels[id := h.(name := name, website := website, description := description, updatedAt := Some(now))];
          resp := MessageResponse(UpdatedMessage);
        } else {
          resp := ErrorResponse(404, HotelNotFound);
        }
    }

    /** `DELETE /:id`: removes the matched document and no other. */
    method Delete(rid: IdParam) returns (resp: Response)
      requires Valid()
      modifies this
      ensures Valid() && nextId == old(nextId)
      ensures rid.Unparsable? ==> hotels == old(hotels) && resp == ErrorResponse(500, DeleteError)
      ensures rid.Parsed? && rid.id !in old(hotels) ==> hotels == old(hotels) && resp == ErrorResponse(404, HotelNotFound)
      ensures rid.Parsed? && rid.id in old(hotels) ==>
        hotels == old(hotels) - {rid.id} && resp == MessageResponse(DeletedMessage)
    {
      match rid
      case Unparsable(_) =>
        resp := ErrorResponse(500, DeleteError);
      case Parsed(id) =>
        if id in hotels {
          hotels := hotels - {id};
          resp := MessageResponse(DeletedMessage);
        } else {
          resp := ErrorResponse(404, HotelNotFound);
        }
    }

    /**
     * `POST /:id/datasources`: turns the submission into a data source and `$push`es it
     * onto the matched document. The type is checked and the URL fetched before the id is
     * parsed or looked up; `fetchedUrl` is the URL fetched, if any.
     */
    method AddDataSource(rid: IdParam, kind: string, content: string, fetched: Result<string, string>)
      returns (fetchedUrl: Option<string>, resp: Response)
      requires Valid()
      modifies this
      ensures Valid() && nextId == old(nextId)
      ensures fetchedUrl == (if kind == "url" then Some(content) else None)
      ensures ParseKind(kind).None? ==>
        hotels == old(hotels) && resp == ErrorResponse(400, InvalidSourceType)
      ensures kind == "url" && fetched.Failure? ==>
        hotels == old(hotels) && resp == ErrorResponse(500, AddSourceError)
      ensures Normalize(kind, content, fetched).Success? && rid.Unparsable? ==>
        hotels == old(hotels) && resp == ErrorResponse(500, AddSourceError)
      ensures Normalize(kind, content, fetched).Success? && rid.Parsed? && rid.id !in old(hotels) ==>
        hotels == old(hotels) && resp == ErrorResponse(404, HotelNotFound)
      ensures Normalize(kind, content, fetched).Success? && rid.Parsed? && rid.id in old(hotels) ==>
        && hotels == old(hotels)[rid.id := old(hotels)[rid.id].(dataSources :=
             old(hotels)[rid.id].dataSources + [Normalize(kind, content, fetched).value])]
        && resp == MessageResponse(SourceAddedMessage)
      // a push grows the target's list by one at the end and keeps every earlier entry in place
      ensures resp.status == 200 ==>
        && rid.Parsed? && rid.id in old(hotels)
        && |hotels[rid.id].dataSources| == |old(hotels)[rid.id].dataSources| + 1
        && hotels[rid.id].dataSources[..|old(hotels)[rid.id].dataSources|] == old(hotels)[rid.id].dataSources
        && hotels[rid.id].dataSources[|old(hotels)[rid.id].dataSources|] == Normalize(kind, content, fetched).value
        && KindName(hotels[rid.id].dataSources[|old(hotels)[rid.id].dataSources|].kind) == kind
      // the store changes only by a push onto one document's sources
      ensures resp.status == 200 <==> hotels != old(hotels)
      ensures hotels.Keys == old(hotels).Keys
    {
      fetchedUrl := None;
      var processedContent := "";
      var sourceKind: SourceKind;
      if kind == "url" {
        fetchedUrl := Some(content);
        if fetched.Failure? {
          resp := ErrorResponse(500, AddSourceError);
          return;
        }
        processedContent := fetched.value;
        sourceKind := Url;
      } else if kind == "text" {
        processedContent := content;
        sourceKind := Text;
      } else {
        resp := ErrorResponse(400, InvalidSourceType);
        return;
      }
      match rid
      case Unparsable(_) =>
        resp := ErrorResponse(500, AddSourceError);
      case Parsed(id) =>
        if id in hotels {
          var h := hotels[id];
          hotels := hotels[id := h.(dataSources := h.dataSources + [DataSource(sourceKind, processedContent)])];
          resp := MessageResponse(SourceAddedMessage);
        } else {
          resp := ErrorResponse(404, HotelNotFound);
        }
    }
  }
}
