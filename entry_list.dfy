/** The entry list page: entries sorted by id, newest first, and deletion of
    one entry after the user confirms. */
module EntryLists {
  import opened Results
  import opened Models
  import opened EntryServices

  const LoadFailedAlert := "Erro ao carregar a lista"
  const DeleteFailedAlert := "Erro ao tentar excluir"

  /** The id the comparator `b.id - a.id` subtracts; JavaScript takes a null id as 0. */
  function SortKey(e: Entry): (k: int)
    reads e
    ensures e.id.Some? ==> k == e.id.value
    ensures e.id.None? ==> k == 0
  {
    e.id.GetOr(0)
  }

  /** Ids never increase from front to back. */
  predicate SortedDesc(s: seq<Entry>)
    reads s
  {
    forall i, j :: 0 <= i < j < |s| ==> SortKey(s[i]) >= SortKey(s[j])
  }

  /** Puts `x` in front of the first element whose id is not larger. */
  function InsertDesc(x: Entry, s: seq<Entry>): (r: seq<Entry>)
    reads x, s
    ensures multiset(r) == multiset(s) + multiset{x}
  {
    if s == [] || SortKey(s[0]) <= SortKey(x) then [x] + s
    else
      assert s == [s[0]] + s[1..];
      [s[0]] + InsertDesc(x, s[1..])
  }

  /** Two orderings of the same elements hold the same elements. */
  lemma PermutationMembers(a: seq<Entry>, b: seq<Entry>)
    requires multiset(a) == multiset(b)
    ensures forall e :: e in a ==> e in b
  {
    forall e | e in a
      ensures e in b
    {
      assert e in multiset(a);
    }
  }

  /** `Array.prototype.sort` with the comparator `(a, b) => b.id - a.id`,
      as a stable insertion sort; the result is a permutation of `s`. */
  function SortDesc(s: seq<Entry>): (r: seq<Entry>)
    reads set e | e in s
    ensures multiset(r) == multiset(s)
  {
    if s == [] then []
    else
      var rest := SortDesc(s[1..]);
      TailPermutation(rest, s);
      InsertDesc(s[0], rest)
  }

  /** A reordering of the tail of `s` holds only elements of `s`, and with the
      head added back it holds the elements of `s`. */
  lemma TailPermutation(rest: seq<Entry>, s: seq<Entry>)
    requires |s| > 0 && multiset(rest) == multiset(s[1..])
    ensures forall e :: e in rest ==> e in s
    ensures multiset(rest) + multiset{s[0]} == multiset(s)
  {
    assert s == [s[0]] + s[1..];
    PermutationMembers(rest, s[1..]);
  }

  /** A reordering of a list without repeated objects has none either. */
  lemma PermutationDistinct(a: seq<Entry>, b: seq<Entry>)
    requires multiset(a) == multiset(b) && Distinct(b)
    ensures Distinct(a)
  {
    DistinctCounts(a);
    DistinctCounts(b);
  }

  /** An element no smaller than every element of a sorted list can lead it. */
  lemma ConsSorted(y: Entry, t: seq<Entry>)
    requires SortedDesc(t)
    requires forall e :: e in t ==> SortKey(y) >= SortKey(e)
    ensures SortedDesc([y] + t)
  {
    var r := [y] + t;
    forall i, j | 0 <= i < j < |r|
      ensures SortKey(r[i]) >= SortKey(r[j])
    {
      assert r[j] == t[j - 1];
      if i > 0 {
        assert r[i] == t[i - 1];
      }
    }
  }

  lemma {:induction false} InsertDescSorted(x: Entry, s: seq<Entry>)
    requires SortedDesc(s)
    ensures SortedDesc(InsertDesc(x, s))
  {
    if s == [] || SortKey(s[0]) <= SortKey(x) {
      ConsSorted(x, s);
    } else {
      var t := InsertDesc(x, s[1..]);
      InsertDescSorted(x, s[1..]);
      PermutationMembers(t, s[1..] + [x]);
      forall e | e in t
        ensures SortKey(s[0]) >= SortKey(e)
      {
        if e != x {
          var k :| 0 <= k < |s[1..]| && s[1..][k] == e;
          assert s[k + 1] == e;
        }
      }
      ConsSorted(s[0], t);
      assert InsertDesc(x, s) == [s[0]] + t;
    }
  }

  /** The sorted list is ordered by id, largest first. */
  lemma {:induction false} SortDescSorted(s: seq<Entry>)
    ensures SortedDesc(SortDesc(s))
  {
    if s != [] {
      SortDescSorted(s[1..]);
      InsertDescSorted(s[0], SortDesc(s[1..]));
    }
  }

  lemma {:induction false} InsertDescDatas(x: Entry, s: seq<Entry>)
    ensures multiset(Datas(InsertDesc(x, s))) == multiset(Datas(s)) + multiset{x.Data()}
  {
    if s == [] || SortKey(s[0]) <= SortKey(x) {
      DatasCons(x, s);
    } else {
      var u := InsertDesc(x, s[1..]);
      InsertDescDatas(x, s[1..]);
      DatasCons(s[0], u);
      assert InsertDesc(x, s) == [s[0]] + u;
      assert Datas(s) == [s[0].Data()] + Datas(s[1..]);
    }
  }

  /** Sorting rearranges the entries' records and neither adds nor drops one. */
  lemma {:induction false} SortDescDatas(s: seq<Entry>)
    ensures multiset(Datas(SortDesc(s))) == multiset(Datas(s))
  {
    if s != [] {
      SortDescDatas(s[1..]);
      InsertDescDatas(s[0], SortDesc(s[1..]));
    }
  }

  /** `s.filter(element => element !== x)`: drops every reference to `x`. */
  function Without(s: seq<Entry>, x: Entry): (r: seq<Entry>)
    ensures |r| <= |s| && x !in r
    ensures forall i :: 0 <= i < |r| ==> r[i] in s
  {
    if s == [] then []
    else (if s[0] != x then [s[0]] else []) + Without(s[1..], x)
  }

  /** Filtering removes every occurrence of `x` and keeps every other element
      as often as it occurred. */
  lemma {:induction false} WithoutMultiset(s: seq<Entry>, x: Entry)
    ensures multiset(Without(s, x)) == multiset(s)[x := 0]
  {
    if s != [] {
      WithoutMultiset(s[1..], x);
      assert s == [s[0]] + s[1..];
    }
  }

  /** Filtering works piecewise, so the kept elements stay in their order. */
  lemma {:induction false} WithoutConcat(a: seq<Entry>, b: seq<Entry>, x: Entry)
    ensures Without(a + b, x) == Without(a, x) + Without(b, x)
  {
    if a != [] {
      assert (a + b)[1..] == a[1..] + b;
      WithoutConcat(a[1..], b, x);
    } else {
      assert a + b == b;
    }
  }

  /** In a list without repeated objects, filtering out one the list holds
      removes exactly one element, and the result has no repeats either. */
  lemma {:induction false} WithoutDistinct(s: seq<Entry>, x: Entry)
    requires Distinct(s)
    ensures Distinct(Without(s, x))
    ensures x in s ==> |Without(s, x)| == |s| - 1
  {
    WithoutMultiset(s, x);
    DistinctCounts(s);
    DistinctCounts(Without(s, x));
    if s != [] {
      assert Distinct(s[1..]) by {
        forall i, j | 0 <= i < j < |s[1..]|
          ensures s[1..][i] != s[1..][j]
        {
          assert s[1..][i] == s[i + 1] && s[1..][j] == s[j + 1];
        }
      }
      WithoutDistinct(s[1..], x);
      if s[0] == x {
        assert x !in s[1..];
        WithoutAbsent(s[1..], x);
      }
    }
  }

  /** Deleting what the list does not hold leaves it as it was. */
  lemma {:induction false} WithoutAbsent(s: seq<Entry>, x: Entry)
    requires x !in s
    ensures Without(s, x) == s
  {
    if s != [] {
      WithoutAbsent(s[1..], x);
    }
  }

  /** The list shows the given records, largest id first. */
  predicate ShowsSorted(s: seq<Entry>, records: seq<EntryData>)
    reads set e | e in s
  {
    SortedDesc(s) && multiset(Datas(s)) == multiset(records)
  }

  /** What the page keeps after a successful load: the fetched entries, sorted. */
  lemma LoadedOrder(fetched: seq<Entry>, records: seq<EntryData>)
    requires Datas(fetched) == records && Distinct(fetched)
    ensures ShowsSorted(SortDesc(fetched), records) && Distinct(SortDesc(fetched))
    ensures forall e :: e in SortDesc(fetched) ==> e in fetched
  {
    SortDescSorted(fetched);
    SortDescDatas(fetched);
    PermutationMembers(SortDesc(fetched), fetched);
    PermutationDistinct(SortDesc(fetched), fetched);
  }

  class EntryListComponent {
    const entryService: EntryService
    var entries: seq<Entry>
    /** The `alert` messages shown so far, oldest first. */
    var alerts: seq<string>

    constructor (entryService: EntryService)
      ensures this.entryService == entryService && entries == [] && alerts == []
    {
      this.entryService := entryService;
      entries, alerts := [], [];
    }

    /** Loads all entries and keeps them sorted by id, largest first; a failed
        load keeps the list and shows one alert. */
    method NgOnInit(response: Result<seq<EntryData>>)
      modifies this`entries, this`alerts, entryService
      ensures entryService.requests == old(entryService.requests) + [HttpGet(ApiPath)]
      ensures response.Failure? ==> entries == old(entries) && alerts == old(alerts) + [LoadFailedAlert]
      ensures response.Success? ==>
        && ShowsSorted(entries, response.value) && Distinct(entries)
        && (forall e :: e in entries ==> fresh(e)) && alerts == old(alerts)
    {
      var r := entryService.GetAll(response);
      match r
      case Success(fetched) =>
        LoadedOrder(fetched, response.value);
        entries := SortDesc(fetched);
      case Failure(_) =>
        alerts := alerts + [LoadFailedAlert];
    }

    /** After the user confirms, deletes `entry` by its id and, on success,
        drops it from the list; without confirmation nothing is sent. */
    method DeleteEntry(entry: Entry, confirmed: bool, response: Result<()>)
      modifies this`entries, this`alerts, entryService
      ensures !confirmed ==>
        && entries == old(entries) && alerts == old(alerts)
        && entryService.requests == old(entryService.requests)
      ensures confirmed ==> entryService.requests == old(entryService.requests) + [HttpDelete(ItemUrl(entry.id))]
      ensures confirmed && response.Success? ==> entries == Without(old(entries), entry) && alerts == old(alerts)
      ensures confirmed && response.Success? && Distinct(old(entries)) ==>
        && Distinct(entries)
        && (entry in old(entries) ==> |entries| == |old(entries)| - 1)
      ensures confirmed && response.Failure? ==> entries == old(entries) && alerts == old(alerts) + [DeleteFailedAlert]
    {
      if confirmed {
        var r := entryService.Delete(entry.id, response);
        match r
        case Success(_) =>
          if Distinct(entries) {
            WithoutDistinct(entries, entry);
          }
          entries := Without(entries, entry);
        case Failure(_) =>
          alerts := alerts + [DeleteFailedAlert];
      }
    }
  }
}
