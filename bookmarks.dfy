/**
 * The bookmark table (`ArticleDao` over `bookmarked_articles`): a table of
 * `ArticleEntity` rows whose primary key is the URL, seen as a finite map from
 * URL to row.
 */
module Bookmarks {
  import opened NewsTypes

  type Table = map<string, ArticleEntity>

  /** The primary-key invariant: each row sits under its own URL, so there is one row per URL. */
  predicate KeyedByUrl(t: Table) {
    forall u :: u in t ==> t[u].url == u
  }

  /** The table after an insert with REPLACE on conflict. */
  function Upsert(t: Table, e: ArticleEntity): (r: Table)
    ensures r.Keys == t.Keys + {e.url}
    ensures r[e.url] == e
    ensures forall u :: u in t && u != e.url ==> r[u] == t[u]
    ensures e.url in t ==> |r| == |t|
    ensures e.url !in t ==> |r| == |t| + 1
    ensures KeyedByUrl(t) ==> KeyedByUrl(r)
  {
    t[e.url := e]
  }

  /** The table after a delete: the row with the entity's primary key goes, whatever its other fields. */
  function Delete(t: Table, e: ArticleEntity): (r: Table)
    ensures r.Keys == t.Keys - {e.url}
    ensures forall u :: u in r ==> r[u] == t[u]
    ensures e.url !in t ==> r == t
    ensures e.url in t ==> |r| == |t| - 1
    ensures KeyedByUrl(t) ==> KeyedByUrl(r)
  {
    t - {e.url}
  }

  /** Deleting what was just inserted under a new URL gives back the original table. */
  lemma {:induction false} DeleteUndoesInsert(t: Table, added: ArticleEntity, removed: ArticleEntity)
    requires added.url !in t && removed.url == added.url
    ensures Delete(Upsert(t, added), removed) == t
  {
    var r := Delete(Upsert(t, added), removed);
    assert r.Keys == t.Keys;
  }

  /** Re-inserting under a stored URL keeps the keys and leaves no trace of the old row. */
  lemma {:induction false} UpsertReplacesWholeRow(t: Table, e: ArticleEntity)
    requires KeyedByUrl(t) && e.url in t
    ensures Upsert(t, e).Keys == t.Keys
    ensures Upsert(t, e)[e.url] == e
    ensures t[e.url] != e ==> t[e.url] !in Upsert(t, e).Values
  {
    var r := Upsert(t, e);
    if t[e.url] != e {
      forall u | u in r ensures r[u] != t[e.url] {
        if u != e.url {
          assert r[u].url == u;
        }
      }
    }
  }

  /** `ArticleDao` over one database: the `bookmarked_articles` table. */
  class ArticleDao {
    var rows: Table

    /** The primary-key invariant of the table. */
    predicate Valid()
      reads this
    {
      KeyedByUrl(rows)
    }

    /** A freshly created database has no bookmarks. */
    constructor ()
      ensures Valid() && rows == map[]
    {
      rows := map[];
    }

    /** `insertArticle` with `OnConflictStrategy.REPLACE`. */
    method InsertArticle(article: ArticleEntity)
      requires Valid()
      modifies this
      ensures Valid()
      ensures rows == Upsert(old(rows), article)
    {
      rows := rows[article.url := article];
    }

    /** `deleteArticle`: removes the row whose primary key is the entity's URL; absent URL is a no-op. */
    method DeleteArticle(article: ArticleEntity)
      requires Valid()
      modifies this
      ensures Valid()
      ensures rows == Delete(old(rows), article)
    {
      rows := rows - {article.url};
    }

    /**
     * `SELECT * FROM bookmarked_articles`: every stored row exactly once and nothing
     * else, in an order the query does not fix.
     */
    method GetAllBookmarkedArticles() returns (list: seq<ArticleEntity>)
      requires Valid()
      ensures |list| == |rows|
      ensures forall i :: 0 <= i < |list| ==> list[i] in rows.Values
      ensures forall u :: u in rows ==> rows[u] in list
      ensures forall i, j :: 0 <= i < j < |list| ==> list[i].url != list[j].url
    {
      var pending := rows.Keys;
      list := [];
      while pending != {}
        invariant pending <= rows.Keys
        invariant |list| + |pending| == |rows|
        invariant forall i :: 0 <= i < |list| ==> list[i] in rows.Values && list[i].url !in pending
        invariant forall u :: u in rows && u !in pending ==> rows[u] in list
        invariant forall i, j :: 0 <= i < j < |list| ==> list[i].url != list[j].url
        decreases |pending|
      {
        var u :| u in pending;
        list := list + [rows[u]];
        pending := pending - {u};
      }
    }
  }

  /** An observed list holds a row for `url` exactly when the table does. */
  lemma ObservedMatchesTable(t: Table, list: seq<ArticleEntity>, url: string)
    requires KeyedByUrl(t)
    requires forall i :: 0 <= i < |list| ==> list[i] in t.Values
    requires forall u :: u in t ==> t[u] in list
    ensures (exists i :: 0 <= i < |list| && list[i].url == url) <==> url in t
  {
    if url in t {
      var i :| 0 <= i < |list| && list[i] == t[url];
      assert list[i].url == url;
    }
    if exists i :: 0 <= i < |list| && list[i].url == url {
      var i :| 0 <= i < |list| && list[i].url == url;
      var u :| u in t && t[u] == list[i];
    }
  }
}
