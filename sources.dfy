/**
 * The list of sources shown under a resolved answer: the `source_url` of each
 * returned document, without missing or empty values, without duplicates, in
 * the order a JavaScript `Set` keeps (first insertion first).
 */
module Sources {
  import opened Wrappers

  /** A returned document as the client sees it; only its metadata matters here. */
  datatype Doc = Doc(metadata: Option<map<string, string>>)

  /** `d.metadata?.source_url`: absent when there is no metadata or no such key. */
  function SourceUrl(d: Doc): Option<string> {
    if d.metadata.Some? && "source_url" in d.metadata.value then Some(d.metadata.value["source_url"]) else None
  }

  /** What `.filter(Boolean)` keeps: a present, non-empty string. */
  predicate Truthy(u: Option<string>) {
    u.Some? && u.value != ""
  }

  /** `docs.map(d => d.metadata?.source_url).filter(Boolean)`. */
  function Urls(docs: seq<Doc>): (r: seq<string>)
    ensures |r| <= |docs|
  {
    if docs == [] then []
    else
      var rest := Urls(docs[..|docs| - 1]);
      var u := SourceUrl(docs[|docs| - 1]);
      if Truthy(u) then rest + [u.value] else rest
  }

  /** `[...new Set(s)]`: the first occurrence of each value, in order of insertion. */
  function Distinct<T(==)>(s: seq<T>): seq<T> {
    if s == [] then []
    else
      var seen := Distinct(s[..|s| - 1]);
      if s[|s| - 1] in seen then seen else seen + [s[|s| - 1]]
  }

  /** The sources line of ChatPage: distinct truthy `source_url` values, first occurrence first. */
  function UniqueSources(docs: seq<Doc>): seq<string> {
    Distinct(Urls(docs))
  }

  /** No value is listed twice. */
  predicate NoDuplicates<T(==)>(s: seq<T>) {
    forall i, j :: 0 <= i < j < |s| ==> s[i] != s[j]
  }

  /** A URL is kept exactly when some document carries it as a non-empty `source_url`. */
  lemma {:induction false} UrlsMembers(docs: seq<Doc>, u: string)
    ensures u in Urls(docs) <==> exists k :: 0 <= k < |docs| && SourceUrl(docs[k]) == Some(u) && u != ""
  {
    if docs != [] {
      var init := docs[..|docs| - 1];
      UrlsMembers(init, u);
      if exists k :: 0 <= k < |docs| && SourceUrl(docs[k]) == Some(u) && u != "" {
        var k :| 0 <= k < |docs| && SourceUrl(docs[k]) == Some(u) && u != "";
        if k < |docs| - 1 {
          assert docs[k] == init[k];
        }
      }
      if u in Urls(init) {
        var k :| 0 <= k < |init| && SourceUrl(init[k]) == Some(u) && u != "";
        assert docs[k] == init[k];
      }
    }
  }

  /** Distinct keeps exactly the values of its input. */
  lemma {:induction false} DistinctMembers<T>(s: seq<T>, x: T)
    ensures x in Distinct(s) <==> x in s
  {
    if s != [] {
      var init := s[..|s| - 1];
      DistinctMembers(init, x);
      assert s == init + [s[|s| - 1]];
    }
  }

  /** Distinct lists no value twice. */
  lemma {:induction false} DistinctNoDuplicates<T>(s: seq<T>)
    ensures NoDuplicates(Distinct(s))
  {
    if s != [] {
      DistinctNoDuplicates(s[..|s| - 1]);
    }
  }

  /**
   * Distinct keeps first-occurrence order: when value `i` is listed before value `j`,
   * every occurrence of value `j` in the input is preceded by an occurrence of value `i`.
   */
  lemma {:induction false} DistinctFirstOccurrenceOrder<T>(s: seq<T>, i: nat, j: nat, b: nat)
    requires i < j < |Distinct(s)|
    requires b < |s| && s[b] == Distinct(s)[j]
    ensures Distinct(s)[i] in s[..b]
  {
    var init := s[..|s| - 1];
    var last := s[|s| - 1];
    var seen := Distinct(init);
    DistinctMembers(init, last);
    if b < |s| - 1 {
      if j < |seen| {
        assert init[b] == s[b];
        DistinctFirstOccurrenceOrder(init, i, j, b);
        assert init[..b] == s[..b];
      } else {
        // Distinct(s) == seen + [last], value j is `last`, which is not in `init`
        assert false;
      }
    } else {
      DistinctMembers(init, Distinct(s)[i]);
      assert s[..b] == init;
    }
  }

  /** The sources shown contain no duplicate URL. */
  lemma UniqueSourcesNoDuplicates(docs: seq<Doc>)
    ensures NoDuplicates(UniqueSources(docs))
  {
    DistinctNoDuplicates(Urls(docs));
  }

  /**
   * A URL is shown exactly when some returned document carries it as a present,
   * non-empty `source_url`: nothing missing, nothing invented.
   */
  lemma UniqueSourcesMembers(docs: seq<Doc>, u: string)
    ensures u in UniqueSources(docs) <==> exists k :: 0 <= k < |docs| && SourceUrl(docs[k]) == Some(u) && u != ""
  {
    DistinctMembers(Urls(docs), u);
    UrlsMembers(docs, u);
  }

  /**
   * Shown sources keep first-occurrence order: when source `i` is listed before source `j`,
   * any document carrying source `j` is preceded by a document carrying source `i`.
   */
  lemma {:induction false} UniqueSourcesOrder(docs: seq<Doc>, i: nat, j: nat, b: nat)
    requires i < j < |UniqueSources(docs)|
    requires b < |docs| && SourceUrl(docs[b]) == Some(UniqueSources(docs)[j])
    ensures exists a :: 0 <= a < b && SourceUrl(docs[a]) == Some(UniqueSources(docs)[i])
  {
    var r := UniqueSources(docs);
    var ui, uj := r[i], r[j];
    DistinctMembers(Urls(docs), uj);
    UrlsMembers(docs, uj);
    var us := Urls(docs);
    var cut := UrlsBefore(docs, b);
    DistinctFirstOccurrenceOrder(us, i, j, cut - 1);
    UrlsMembers(docs[..b], ui);
    var a :| 0 <= a < b && SourceUrl(docs[..b][a]) == Some(ui) && ui != "";
    assert docs[..b][a] == docs[a];
  }

  /**
   * Where the URL of document `b` sits in the filtered list: at position `cut - 1`, after
   * exactly the URLs of the documents before it.
   */
  lemma UrlsBefore(docs: seq<Doc>, b: nat) returns (cut: nat)
    requires b < |docs| && Truthy(SourceUrl(docs[b]))
    ensures 0 < cut <= |Urls(docs)|
    ensures Urls(docs)[cut - 1] == SourceUrl(docs[b]).value
    ensures Urls(docs)[..cut - 1] == Urls(docs[..b])
  {
    var prefixDocs := docs[..b + 1];
    assert prefixDocs[b] == docs[b];
    UrlsPrefix(docs, b + 1);
    var us := Urls(docs);
    cut := |Urls(prefixDocs)|;
    UrlsLast(prefixDocs);
    assert Urls(prefixDocs) == us[..cut];
    UrlsDropLast(prefixDocs);
    assert prefixDocs[..b] == docs[..b];
  }

  /** The filtered list of a prefix of the documents is a prefix of the filtered list. */
  lemma {:induction false} UrlsPrefix(docs: seq<Doc>, n: nat)
    requires n <= |docs|
    ensures Urls(docs[..n]) <= Urls(docs)
    decreases |docs|
  {
    if n < |docs| {
      var init := docs[..|docs| - 1];
      UrlsPrefix(init, n);
      assert init[..n] == docs[..n];
    } else {
      assert docs[..n] == docs;
    }
  }

  /** When the last document carries a truthy URL, it ends the filtered list. */
  lemma UrlsLast(docs: seq<Doc>)
    requires docs != [] && Truthy(SourceUrl(docs[|docs| - 1]))
    ensures Urls(docs) != [] && Urls(docs)[|Urls(docs)| - 1] == SourceUrl(docs[|docs| - 1]).value
  {
  }

  /** When the last document carries a truthy URL, dropping it drops that URL. */
  lemma UrlsDropLast(docs: seq<Doc>)
    requires docs != [] && Truthy(SourceUrl(docs[|docs| - 1]))
    ensures Urls(docs)[..|Urls(docs)| - 1] == Urls(docs[..|docs| - 1])
  {
  }

  /**
   * Two documents from the same page and one without metadata, or with metadata but no
   * URL, show that page once.
   */
  lemma DuplicateAndMissingSources(u: string, m: map<string, string>)
    requires u != "" && "source_url" in m && m["source_url"] == u
    ensures UniqueSources([Doc(Some(m)), Doc(Some(m)), Doc(None)]) == [u]
    ensures UniqueSources([Doc(Some(m)), Doc(Some(m)), Doc(Some(map[]))]) == [u]
  {
    DuplicateAndUntagged(u, m, Doc(None));
    DuplicateAndUntagged(u, m, Doc(Some(map[])));
  }

  lemma DuplicateAndUntagged(u: string, m: map<string, string>, other: Doc)
    requires u != "" && "source_url" in m && m["source_url"] == u
    requires !Truthy(SourceUrl(other))
    ensures UniqueSources([Doc(Some(m)), Doc(Some(m)), other]) == [u]
  {
    var a := Doc(Some(m));
    var docs := [a, a, other];
    assert docs[..2] == [a, a] && [a, a][..1] == [a] && [a][..0] == [];
    assert Urls([a]) == [u];
    assert Urls([a, a]) == [u, u];
    assert Urls(docs) == [u, u];
    assert [u, u][..1] == [u] && [u][..0] == [];
    assert Distinct([u]) == [u];
  }
}
