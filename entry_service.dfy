/** The entry service: entry reads and writes against the HTTP back end, with
    the category lookup that must succeed before any create or update is sent.
    HTTP responses and the category lookup's outcome are parameters; every
    request the service issues is appended to `requests`. */
module EntryServices {
  import opened Results
  import opened Text
  import opened Models

  /** The entries resource of the back end. */
  const ApiPath := "api/entries"

  /** The URL of one entry: `api/entries/<id>`. */
  function ItemUrl(id: Option<int>): (url: string)
    ensures |url| > |ApiPath| && url[..|ApiPath| + 1] == ApiPath + "/" && url[|ApiPath| + 1..] == IdText(id)
  {
    ApiPath + "/" + IdText(id)
  }

  /** Distinct ids address distinct entry URLs. */
  lemma ItemUrlInjective(a: Option<int>, b: Option<int>)
    ensures ItemUrl(a) == ItemUrl(b) ==> a == b
  {
    IdTextInjective(a, b);
  }

  /** A request as the back end receives it. `CategoryLookup` is the category
      service's lookup of a category by id. */
  datatype Request =
    | CategoryLookup(categoryId: Option<int>)
    | HttpGet(url: string)
    | HttpPost(url: string, body: EntryData)
    | HttpPut(url: string, body: EntryData)
    | HttpDelete(url: string)

  /** The `catchError(handleError)` step: the error travels on unchanged. */
  function HandleError<T>(error: HttpError): (r: Result<T>)
    ensures r.Failure? && r.error == error
  {
    Failure(error)
  }

  class EntryService {
    /** Every request issued so far, oldest first. */
    var requests: seq<Request>

    constructor ()
      ensures requests == []
    {
      requests := [];
    }

    method GetAll(response: Result<seq<EntryData>>) returns (r: Result<seq<Entry>>)
      modifies this
      ensures requests == old(requests) + [HttpGet(ApiPath)]
      ensures response.Failure? ==> r == Failure(response.error)
      ensures response.Success? ==>
        && r.Success? && Datas(r.value) == response.value && Distinct(r.value)
        && forall e :: e in r.value ==> fresh(e)
    {
      requests := requests + [HttpGet(ApiPath)];
      match response
      case Failure(e) =>
        r := HandleError(e);
      case Success(json) =>
        var entries := JsonDataToEntries(json);
        r := Success(entries);
    }

    method GetById(id: Option<int>, response: Result<EntryData>) returns (r: Result<Entry>)
      modifies this
      ensures requests == old(requests) + [HttpGet(ItemUrl(id))]
      ensures response.Failure? ==> r == Failure(response.error)
      ensures response.Success? ==> r.Success? && fresh(r.value) && r.value.Data() == response.value
    {
      requests := requests + [HttpGet(ItemUrl(id))];
      match response
      case Failure(e) =>
        r := HandleError(e);
      case Success(json) =>
        var entry := JsonDataToEntry(json);
        r := Success(entry);
    }

    /** Looks up the entry's category, stores it in `entry.category`, and only
        then posts the entry; the result is built from the back end's reply. */
    method Create(entry: Entry, lookup: Result<Category>, response: Result<EntryData>) returns (r: Result<Entry>)
      modifies this, entry
      ensures lookup.Failure? ==>
        && r == Failure(lookup.error)
        && requests == old(requests) + [CategoryLookup(old(entry.categoryId))]
        && entry.Data() == old(entry.Data())
      ensures lookup.Success? ==>
        && entry.Data() == old(entry.Data()).(category := Some(lookup.value))
        && requests == old(requests) + [CategoryLookup(old(entry.categoryId)), HttpPost(ApiPath, entry.Data())]
      ensures lookup.Success? && response.Failure? ==> r == Failure(response.error)
      ensures lookup.Success? && response.Success? ==>
        r.Success? && fresh(r.value) && r.value.Data() == response.value
    {
      requests := requests + [CategoryLookup(entry.categoryId)];
      match lookup
      case Failure(e) =>
        r := Failure(e);
      case Success(category) =>
        entry.category := Some(category);
        requests := requests + [HttpPost(ApiPath, entry.Data())];
        match response
        case Failure(e) =>
          r := HandleError(e);
        case Success(json) =>
          var created := JsonDataToEntry(json);
          r := Success(created);
    }

    /** Looks up the entry's category, stores it in `entry.category`, and only
        then puts the entry to its own URL; the reply's body is discarded and
        the submitted object itself is the result. */
    method Update(entry: Entry, lookup: Result<Category>, response: Result<EntryData>) returns (r: Result<Entry>)
      modifies this, entry
      ensures lookup.Failure? ==>
        && r == Failure(lookup.error)
        && requests == old(requests) + [CategoryLookup(old(entry.categoryId))]
        && entry.Data() == old(entry.Data())
      ensures lookup.Success? ==>
        && entry.Data() == old(entry.Data()).(category := Some(lookup.value))
        && requests == old(requests) + [CategoryLookup(old(entry.categoryId)), HttpPut(ItemUrl(old(entry.id)), entry.Data())]
      ensures lookup.Success? && response.Failure? ==> r == Failure(response.error)
      ensures lookup.Success? && response.Success? ==> r == Success(entry)
    {
      var url := ItemUrl(entry.id);
      requests := requests + [CategoryLookup(entry.categoryId)];
      match lookup
      case Failure(e) =>
        r := Failure(e);
      case Success(category) =>
        entry.category := Some(category);
        requests := requests + [HttpPut(url, entry.Data())];
        match response
        case Failure(e) =>
          r := HandleError(e);
        case Success(_) =>
          r := Success(entry);
    }

    /** Deletes the entry with the given id; success carries no payload. */
    method Delete(id: Option<int>, response: Result<()>) returns (r: Result<()>)
      modifies this
      ensures requests == old(requests) + [HttpDelete(ItemUrl(id))]
      ensures response.Failure? ==> r == Failure(response.error)
      ensures response.Success? ==> r == Success(())
    {
      requests := requests + [HttpDelete(ItemUrl(id))];
      match response
      case Failure(e) =>
        r := HandleError(e);
      case Success(_) =>
        r := Success(());
    }

    /** One new Entry object per record, in the records' order. */
    method JsonDataToEntries(jsonData: seq<EntryData>) returns (entries: seq<Entry>)
      ensures Datas(entries) == jsonData
      ensures |entries| == |jsonData| && forall i :: 0 <= i < |entries| ==> entries[i].Data() == jsonData[i]
      ensures Distinct(entries)
      ensures forall e :: e in entries ==> fresh(e)
    {
      entries := [];
      for i := 0 to |jsonData|
        invariant Datas(entries) == jsonData[..i]
        invariant Distinct(entries)
        invariant forall e :: e in entries ==> fresh(e)
      {
        var entry := new Entry(jsonData[i]);
        DatasAppend(entries, entry);
        assert jsonData[..i + 1] == jsonData[..i] + [jsonData[i]];
        entries := entries + [entry];
      }
      forall i | 0 <= i < |entries|
        ensures entries[i].Data() == jsonData[i]
      {
        DatasAt(entries, i);
      }
    }

    method JsonDataToEntry(jsonData: EntryData) returns (entry: Entry)
      ensures fresh(entry) && entry.Data() == jsonData
    {
      entry := new Entry(jsonData);
    }
  }
}
