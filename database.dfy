/** The `articles` table as an in-memory sequence of rows in insertion order, with the
    `url UNIQUE` constraint, the ignore-on-conflict insert and the two ordered reads. */
module Database {
  import opened Wrappers
  import opened Sorting

  /** A row in the column order both SELECTs use:
      (source, title, content, embedding, published_ts, url, author). */
  datatype Row = Row(
    source: string,
    title: string,
    content: string,
    embedding: seq<bv8>,
    publishedTs: int,
    url: string,
    author: Option<string>)

  /** Seconds in a day, as in `days * 86400`. */
  const SecondsPerDay: int := 86400

  function RowTs(r: Row): real {
    r.publishedTs as real
  }

  /** No two rows share a URL. */
  predicate UrlsDistinct(rows: seq<Row>) {
    forall i, j :: 0 <= i < j < |rows| ==> rows[i].url != rows[j].url
  }

  predicate HasUrl(rows: seq<Row>, url: string) {
    exists i :: 0 <= i < |rows| && rows[i].url == url
  }

  function PublishedSince(since: int): Row -> bool {
    (r: Row) => r.publishedTs >= since
  }

  class ArticleStore {
    var rows: seq<Row>

    ghost predicate Valid()
      reads this
    {
      UrlsDistinct(rows)
    }

    constructor()
      ensures rows == [] && Valid()
    {
      rows := [];
    }

    /** `insert_article`: adds the item when its URL is new; an IntegrityError on a known URL
        is swallowed and leaves the table as it was. */
    method InsertArticle(item: Row)
      requires Valid()
      modifies this
      ensures Valid()
      ensures HasUrl(old(rows), item.url) ==> rows == old(rows)
      ensures !HasUrl(old(rows), item.url) ==> rows == old(rows) + [item]
    {
      var i := 0;
      while i < |rows|
        invariant 0 <= i <= |rows|
        invariant forall j :: 0 <= j < i ==> rows[j].url != item.url
      {
        if rows[i].url == item.url {
          return;
        }
        i := i + 1;
      }
      rows := rows + [item];
    }

    /** `fetch_recent(days)` at clock reading `now` (`int(time.time())`): the rows published at
        or after `now - days * 86400`, newest first. */
    function FetchRecent(now: int, days: int): (r: seq<Row>)
      reads this
      ensures NonIncreasing(r, RowTs)
      ensures multiset(r) == multiset(Filter(rows, PublishedSince(now - days * SecondsPerDay)))
      ensures forall x :: x in r ==> x in rows && x.publishedTs >= now - days * SecondsPerDay
      ensures forall x :: x in rows && x.publishedTs >= now - days * SecondsPerDay ==> x in r
    {
      var kept := Filter(rows, PublishedSince(now - days * SecondsPerDay));
      FilterMembers(rows, PublishedSince(now - days * SecondsPerDay));
      var r := SortDesc(kept, RowTs);
      SameMembers(r, kept);
      r
    }

    /** `fetch_all_articles`: every row, newest first. */
    function FetchAll(): (r: seq<Row>)
      reads this
      ensures NonIncreasing(r, RowTs)
      ensures multiset(r) == multiset(rows)
    {
      SortDesc(rows, RowTs)
    }

    /** Every recent row is also returned by the full read. */
    lemma RecentWithinAll(now: int, days: int)
      ensures multiset(FetchRecent(now, days)) <= multiset(FetchAll())
    {
      FilterMembers(rows, PublishedSince(now - days * SecondsPerDay));
    }
  }

  /** Inserting the same item twice is the same as inserting it once. */
  method InsertTwice(store: ArticleStore, item: Row)
    requires store.Valid()
    modifies store
    ensures store.Valid()
    ensures store.rows == if HasUrl(old(store.rows), item.url) then old(store.rows) else old(store.rows) + [item]
  {
    store.InsertArticle(item);
    assert HasUrl(store.rows, item.url) by {
      if !HasUrl(old(store.rows), item.url) {
        assert store.rows[|store.rows| - 1].url == item.url;
      }
    }
    store.InsertArticle(item);
  }
}
