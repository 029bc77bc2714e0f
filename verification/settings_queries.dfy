/**
  The settings resolvers' row transforms: watchlist terms and their
  translations, trusted sources and the name filter over them, stream rows
  and their parameters, the composite row keys of trusted accounts and
  Facebook pages, the page id inside a Facebook URL, and blacklist filters.
 */
module SettingsQueries {
  import opened Js

  // ---------------------------------------------------------------------------
  // Watchlist terms

  datatype WatchlistRow = WatchlistRow(
    topicid: Option<string>,
    topic: Option<string>,
    translations: Option<map<string, string>>,
    lang_code: Option<string>)

  datatype Term = Term(
    topicid: Option<string>,
    name: Option<string>,
    translatedname: Option<string>,
    translatednamelang: Option<string>,
    namelang: Option<string>)

  /** `(translations || {})[language]`: absent when there is no map or no such key. */
  function Translation(translations: Option<map<string, string>>, language: string): Option<string>
  {
    if translations.Some? && language in translations.value then Some(translations.value[language]) else None
  }

  /**
    A watchlist row as a term. Its translated name is the topic itself when
    no language is asked for or the asked language is the row's own, and
    the stored translation into the asked language otherwise.
   */
  function TransformWatchlist(item: WatchlistRow, translatedlanguage: Option<string>): (t: Term)
    ensures t.topicid == item.topicid && t.name == item.topic && t.namelang == item.lang_code
    ensures t.translatednamelang == translatedlanguage
    ensures !Present(translatedlanguage) || translatedlanguage == item.lang_code ==>
      t.translatedname == item.topic
    ensures Present(translatedlanguage) && translatedlanguage != item.lang_code ==>
      t.translatedname == Translation(item.translations, translatedlanguage.value)
  {
    var asked := if Present(translatedlanguage) then translatedlanguage else item.lang_code;
    Term(
      item.topicid,
      item.topic,
      if item.lang_code != asked then Translation(item.translations, translatedlanguage.value) else item.topic,
      translatedlanguage,
      item.lang_code)
  }

  /** The `terms` resolver's edges: every row as a term, keeping the terms that have a translated name. */
  function TermEdges(rows: seq<WatchlistRow>, translationLanguage: Option<string>): (edges: seq<Term>)
    ensures |edges| <= |rows|
    ensures forall t :: t in edges ==> Present(t.translatedname)
    ensures forall t :: t in edges ==> exists i :: 0 <= i < |rows| && t == TransformWatchlist(rows[i], translationLanguage)
    ensures forall i :: 0 <= i < |rows| && Present(TransformWatchlist(rows[i], translationLanguage).translatedname) ==>
      TransformWatchlist(rows[i], translationLanguage) in edges
  {
    if rows == [] then []
    else
      var t := TransformWatchlist(rows[0], translationLanguage);
      var rest := TermEdges(rows[1..], translationLanguage);
      assert forall i :: 1 <= i < |rows| ==> rows[i] == rows[1..][i - 1];
      (if Present(t.translatedname) then [t] else []) + rest
  }

  /** One step of the filter: the first row's term, when it has a translated name, then the rest. */
  lemma TermEdgesCons(row: WatchlistRow, rows: seq<WatchlistRow>, language: Option<string>)
    ensures var t := TransformWatchlist(row, language);
      TermEdges([row] + rows, language) == (if Present(t.translatedname) then [t] else []) + TermEdges(rows, language)
  {
    assert ([row] + rows)[1..] == rows;
  }

  /** The filter keeps row order: the terms of two row lists come out in the same order as the lists. */
  lemma {:induction false} TermEdgesAppend(a: seq<WatchlistRow>, b: seq<WatchlistRow>, language: Option<string>)
    ensures TermEdges(a + b, language) == TermEdges(a, language) + TermEdges(b, language)
  {
    if a != [] {
      var t := TransformWatchlist(a[0], language);
      var kept := if Present(t.translatedname) then [t] else [];
      assert a == [a[0]] + a[1..];
      assert a + b == [a[0]] + (a[1..] + b);
      calc {
        TermEdges(a + b, language);
      == { TermEdgesCons(a[0], a[1..] + b, language); }
        kept + TermEdges(a[1..] + b, language);
      == { TermEdgesAppend(a[1..], b, language); }
        kept + (TermEdges(a[1..], language) + TermEdges(b, language));
      ==
        (kept + TermEdges(a[1..], language)) + TermEdges(b, language);
      == { TermEdgesCons(a[0], a[1..], language); }
        TermEdges(a, language) + TermEdges(b, language);
      }
    } else {
      assert a + b == b;
    }
  }

  // ---------------------------------------------------------------------------
  // Trusted sources

  datatype SourceRow = SourceRow(
    externalsourceid: string,
    sourcetype: Option<string>,
    pipelinekey: Option<string>,
    rank: Option<int>)

  datatype TrustedSource = TrustedSource(
    externalsourceid: string,
    sourcetype: Option<string>,
    pipelinekey: Option<string>,
    rank: Option<int>)

  function CassandraRowToSource(row: SourceRow): (source: TrustedSource)
    ensures source.externalsourceid == row.externalsourceid && source.sourcetype == row.sourcetype
    ensures source.pipelinekey == row.pipelinekey && source.rank == row.rank
  {
    TrustedSource(row.externalsourceid, row.sourcetype, row.pipelinekey, row.rank)
  }

  /**
    Whether a source passes the name query: every source does when the query
    is empty or missing; otherwise exactly those whose id contains the query,
    ignoring case.
   */
  function TrustedSourceFilter(source: TrustedSource, namequery: Option<string>): (keep: bool)
    ensures keep <==> !Present(namequery) || Contains(Lower(source.externalsourceid), Lower(namequery.value))
  {
    if Present(namequery) then
      IndexOf(Lower(source.externalsourceid), Lower(namequery.value)) > -1
    else
      true
  }

  /** What one row contributes to the list: its source when the name query accepts it, else nothing. */
  function KeptSource(row: SourceRow, sourcename: Option<string>): seq<TrustedSource>
  {
    var s := CassandraRowToSource(row);
    if TrustedSourceFilter(s, sourcename) then [s] else []
  }

  /** The `trustedsources` resolver's list: every row as a source, keeping the ones the name query accepts, in order. */
  function TrustedSources(rows: seq<SourceRow>, sourcename: Option<string>): (sources: seq<TrustedSource>)
    ensures |sources| <= |rows|
    ensures forall s :: s in sources ==> TrustedSourceFilter(s, sourcename)
    ensures forall i :: 0 <= i < |rows| && TrustedSourceFilter(CassandraRowToSource(rows[i]), sourcename) ==>
      CassandraRowToSource(rows[i]) in sources
    ensures !Present(sourcename) ==> sources == seq(|rows|, i requires 0 <= i < |rows| => CassandraRowToSource(rows[i]))
  {
    if rows == [] then []
    else
      var rest := TrustedSources(rows[1..], sourcename);
      assert forall i :: 1 <= i < |rows| ==> rows[i] == rows[1..][i - 1];
      KeptSource(rows[0], sourcename) + rest
  }

  /** The name filter keeps row order and multiplicity: the sources of two row lists come out list by list. */
  lemma {:induction false} TrustedSourcesAppend(a: seq<SourceRow>, b: seq<SourceRow>, sourcename: Option<string>)
    ensures TrustedSources(a + b, sourcename) == TrustedSources(a, sourcename) + TrustedSources(b, sourcename)
  {
    if a != [] {
      var ab := a + b;
      assert ab[0] == a[0];
      assert ab[1..] == a[1..] + b;
      TrustedSourcesAppend(a[1..], b, sourcename);
      var kept := KeptSource(a[0], sourcename);
      assert TrustedSources(ab, sourcename) == kept + TrustedSources(a[1..] + b, sourcename);
      assert TrustedSources(a, sourcename) == kept + TrustedSources(a[1..], sourcename);
    } else {
      assert a + b == b;
    }
  }

  /** A single row gives its source exactly when the name query accepts it. */
  lemma TrustedSourcesOne(row: SourceRow, sourcename: Option<string>)
    ensures TrustedSources([row], sourcename) ==
      if TrustedSourceFilter(CassandraRowToSource(row), sourcename) then [CassandraRowToSource(row)] else []
  {
    assert [row][1..] == [];
  }

  // ---------------------------------------------------------------------------
  // Streams and their parameters

  /** A JavaScript object of string parameters: its own keys, in order, and their values. */
  datatype Params = Params(keys: seq<string>, values: map<string, string>)

  /** The keys are listed once each, and they are exactly the keys that have values. */
  ghost predicate WellFormed(p: Params)
  {
    && (forall i, j :: 0 <= i < j < |p.keys| ==> p.keys[i] != p.keys[j])
    && (forall k :: k in p.values <==> k in p.keys)
  }

  datatype ParamsEntry = ParamsEntry(key: string, value: string)

  /** One entry per key, in key order. */
  function EntriesOf(p: Params): (entries: seq<ParamsEntry>)
    requires WellFormed(p)
  {
    seq(|p.keys|, i requires 0 <= i < |p.keys| => ParamsEntry(p.keys[i], p.values[p.keys[i]]))
  }

  /** The entries as an object again. */
  function EntriesToMap(entries: seq<ParamsEntry>): map<string, string>
  {
    if entries == [] then map[]
    else EntriesToMap(entries[..|entries| - 1])[entries[|entries| - 1].key := entries[|entries| - 1].value]
  }

  /** Adding the `n`-th key to the object restricted to the first `n - 1` keys gives the object restricted to `n` keys. */
  lemma RestrictExtend(p: Params, n: nat)
    requires WellFormed(p) && 0 < n <= |p.keys|
    ensures (map k | k in p.keys[..n - 1] :: p.values[k])[p.keys[n - 1] := p.values[p.keys[n - 1]]]
      == map k | k in p.keys[..n] :: p.values[k]
  {
    assert p.keys[..n] == p.keys[..n - 1] + [p.keys[n - 1]];
  }

  /** The entries of the first `n` keys make the object restricted to those keys. */
  lemma {:induction false} PrefixEntriesMap(p: Params, n: nat)
    requires WellFormed(p) && n <= |p.keys|
    ensures EntriesToMap(EntriesOf(p)[..n]) == map k | k in p.keys[..n] :: p.values[k]
  {
    if n > 0 {
      PrefixEntriesMap(p, n - 1);
      var e := EntriesOf(p)[..n];
      assert e[..n - 1] == EntriesOf(p)[..n - 1];
      assert e[n - 1] == ParamsEntry(p.keys[n - 1], p.values[p.keys[n - 1]]);
      RestrictExtend(p, n);
    }
  }

  /** Turning a parameter object into entries loses nothing: the entries give back the same keys and values. */
  lemma EntriesRebuildParams(p: Params)
    requires WellFormed(p)
    ensures EntriesToMap(EntriesOf(p)) == p.values
  {
    PrefixEntriesMap(p, |p.keys|);
    assert EntriesOf(p)[..|p.keys|] == EntriesOf(p);
    assert p.keys[..|p.keys|] == p.keys;
  }

  /**
    `paramsToParamsEntries`: one `{key, value}` entry per own key of the
    object, in key order. `Object.keys` throws on a null object.
   */
  method ParamsToParamsEntries(params: Option<Params>) returns (r: Result<seq<ParamsEntry>>)
    requires params.Some? ==> WellFormed(params.value)
    ensures params.None? ==> r.Threw? && r.error.TypeError?
    ensures params.Some? ==> r == Ok(EntriesOf(params.value))
    ensures params.Some? ==> |r.value| == |params.value.keys|
  {
    if params.None? {
      return Threw(TypeError("Object.keys"));
    }
    var p := params.value;
    var paramsEntries: seq<ParamsEntry> := [];
    for n := 0 to |p.keys|
      invariant paramsEntries == EntriesOf(p)[..n]
    {
      var key := p.keys[n];
      var value := p.values[key];
      paramsEntries := paramsEntries + [ParamsEntry(key, value)];
    }
    assert EntriesOf(p)[..|p.keys|] == EntriesOf(p);
    return Ok(paramsEntries);
  }

  /** A row of `fortis.streams`, updated in place when its `enabled` column is null. */
  class StreamRow {
    var streamid: Option<string>
    var pipelinekey: Option<string>
    var pipelinelabel: Option<string>
    var pipelineicon: Option<string>
    var streamfactory: Option<string>
    var params: Option<Params>
    var enabled: Option<bool>

    constructor (streamid: Option<string>, pipelinekey: Option<string>, pipelinelabel: Option<string>,
                 pipelineicon: Option<string>, streamfactory: Option<string>, params: Option<Params>,
                 enabled: Option<bool>)
      ensures this.streamid == streamid && this.pipelinekey == pipelinekey
      ensures this.pipelinelabel == pipelinelabel && this.pipelineicon == pipelineicon
      ensures this.streamfactory == streamfactory && this.params == params && this.enabled == enabled
    {
      this.streamid, this.pipelinekey, this.pipelinelabel := streamid, pipelinekey, pipelinelabel;
      this.pipelineicon, this.streamfactory := pipelineicon, streamfactory;
      this.params, this.enabled := params, enabled;
    }
  }

  datatype Stream = Stream(
    streamId: Option<string>,
    pipelineKey: Option<string>,
    pipelineLabel: Option<string>,
    pipelineIcon: Option<string>,
    streamFactory: Option<string>,
    params: seq<ParamsEntry>,
    enabled: bool)

  /**
    `cassandraRowToStream`: a null `enabled` becomes false, in the row as
    well as in the stream; any other value is kept. The parameters become
    entries, which throws when the row has no parameter map.
   */
  method CassandraRowToStream(row: StreamRow) returns (r: Result<Stream>)
    requires row.params.Some? ==> WellFormed(row.params.value)
    modifies row`enabled
    ensures row.enabled == if old(row.enabled).None? then Some(false) else old(row.enabled)
    ensures row.params.None? ==> r.Threw? && r.error.TypeError?
    ensures row.params.Some? ==>
      r == Ok(Stream(row.streamid, row.pipelinekey, row.pipelinelabel, row.pipelineicon, row.streamfactory,
                     EntriesOf(row.params.value), row.enabled.value))
  {
    if row.enabled.None? {
      row.enabled := Some(false);
    }
    var entries := ParamsToParamsEntries(row.params);
    if entries.Threw? {
      return Threw(entries.error);
    }
    r := Ok(Stream(row.streamid, row.pipelinekey, row.pipelinelabel, row.pipelineicon, row.streamfactory,
                   entries.value, row.enabled.value));
  }

  // ---------------------------------------------------------------------------
  // Row keys of trusted Twitter accounts and Facebook pages

  datatype TrustedSourceKeyRow = TrustedSourceKeyRow(connector: Option<string>, sourceid: Option<string>, sourcetype: Option<string>)

  /** `${connector},${sourceid},${sourcetype}`. */
  function RowKey(connector: Option<string>, sourceid: Option<string>, sourcetype: Option<string>): string
  {
    Text(connector) + "," + Text(sourceid) + "," + Text(sourcetype)
  }

  /** Splits a string at every comma. */
  function Split(s: string): (parts: seq<string>)
    ensures |parts| >= 1
  {
    if s == [] then [""]
    else
      var rest := Split(s[1..]);
      if s[0] == ',' then [""] + rest else [[s[0]] + rest[0]] + rest[1..]
  }

  lemma {:induction false} SplitJoin(a: string, b: string)
    requires ',' !in a
    ensures Split(a + "," + b) == [a] + Split(b)
  {
    if a != [] {
      assert (a + "," + b)[1..] == a[1..] + "," + b;
      SplitJoin(a[1..], b);
      assert [a[0]] + a[1..] == a;
    } else {
      assert a + "," + b == [','] + b;
    }
  }

  lemma {:induction false} SplitNoComma(a: string)
    requires ',' !in a
    ensures Split(a) == [a]
  {
    if a != [] {
      SplitNoComma(a[1..]);
      assert [a[0]] + a[1..] == a;
    }
  }

  /** When no part holds a comma, splitting a row key at its commas gives the three parts back. */
  lemma RowKeyRoundTrip(connector: Option<string>, sourceid: Option<string>, sourcetype: Option<string>)
    requires ',' !in Text(connector) && ',' !in Text(sourceid) && ',' !in Text(sourcetype)
    ensures Split(RowKey(connector, sourceid, sourcetype)) == [Text(connector), Text(sourceid), Text(sourcetype)]
  {
    var c, i, t := Text(connector), Text(sourceid), Text(sourcetype);
    assert RowKey(connector, sourceid, sourcetype) == c + "," + (i + "," + t);
    SplitJoin(c, i + "," + t);
    SplitJoin(i, t);
    SplitNoComma(t);
  }

  /** A comma inside a part makes two different rows share one key. */
  lemma RowKeyAmbiguous()
    ensures RowKey(Some("Facebook"), Some("a,b"), Some("page")) == RowKey(Some("Facebook,a"), Some("b"), Some("page"))
  {
  }

  datatype TrustedTwitterAccount = TrustedTwitterAccount(RowKey: string, acctUrl: Option<string>)

  function CassandraRowToTrustedTwitterAccount(row: TrustedSourceKeyRow): (account: TrustedTwitterAccount)
    ensures account.RowKey == RowKey(row.connector, row.sourceid, row.sourcetype)
    ensures account.acctUrl == row.sourceid
  {
    TrustedTwitterAccount(RowKey(row.connector, row.sourceid, row.sourcetype), row.sourceid)
  }

  datatype FacebookPage = FacebookPage(RowKey: string, pageUrl: Option<string>)

  function CassandraRowToFacebookPage(row: TrustedSourceKeyRow): (page: FacebookPage)
    ensures page.RowKey == RowKey(row.connector, row.sourceid, row.sourcetype)
    ensures page.pageUrl == row.sourceid
  {
    FacebookPage(RowKey(row.connector, row.sourceid, row.sourcetype), row.sourceid)
  }

  // ---------------------------------------------------------------------------
  // The page id in a Facebook URL: /facebook.com\/([^/]+)/

  /** The characters `.` does not match in a regular expression. */
  predicate LineTerminator(c: char)
  {
    c == '\n' || c == '\r' || c == '\U{2028}' || c == '\U{2029}'
  }

  /** The pattern matches starting at index `i`: "facebook", any one character, "com/", and one non-slash. */
  predicate MatchesAt(s: string, i: int)
  {
    && 0 <= i && i + 14 <= |s|
    && s[i..i + 8] == "facebook"
    && !LineTerminator(s[i + 8])
    && s[i + 9..i + 13] == "com/"
    && s[i + 13] != '/'
  }

  /** The leftmost index at or after `from` where the pattern matches. */
  function FirstMatch(s: string, from: nat): (i: Option<nat>)
    ensures i.Some? ==> from <= i.value && MatchesAt(s, i.value)
    ensures i.Some? ==> forall k :: from <= k < i.value ==> !MatchesAt(s, k)
    ensures i.None? ==> forall k :: from <= k ==> !MatchesAt(s, k)
    decreases |s| - from
  {
    if from + 14 > |s| then None
    else if MatchesAt(s, from) then Some(from)
    else FirstMatch(s, from + 1)
  }

  /** The longest run of non-slash characters starting at `j`, as `([^/]+)` captures it. */
  function RunFrom(s: string, j: nat): (run: string)
    requires j <= |s|
    ensures j + |run| <= |s| && s[j..j + |run|] == run
    ensures '/' !in run
    ensures j + |run| == |s| || s[j + |run|] == '/'
    decreases |s| - j
  {
    if j == |s| || s[j] == '/' then [] else [s[j]] + RunFrom(s, j + 1)
  }

  /** `id` is what the pattern captures when it matches at `i`: the longest run of non-slashes after "com/". */
  predicate CapturedAt(url: string, i: int, id: string)
  {
    && MatchesAt(url, i)
    && i + 13 + |id| <= |url|
    && url[i + 13..i + 13 + |id|] == id
    && '/' !in id
    && (i + 13 + |id| == |url| || url[i + 13 + |id|] == '/')
  }

  /**
    `facebookPageToId`: the id captured at the leftmost match of the
    pattern in the page URL; nothing when the page or its URL is missing or
    the pattern does not match.
   */
  function FacebookPageToId(page: Option<FacebookPage>): (id: Option<string>)
    ensures id.Some? <==> page.Some? && page.value.pageUrl.Some? && exists i :: MatchesAt(page.value.pageUrl.value, i)
    ensures id.Some? ==> id.value != []
    ensures id.Some? ==>
      exists i :: CapturedAt(page.value.pageUrl.value, i, id.value)
        && forall k :: 0 <= k < i ==> !MatchesAt(page.value.pageUrl.value, k)
  {
    if page.None? || !Present(page.value.pageUrl) then None
    else
      var url := page.value.pageUrl.value;
      match FirstMatch(url, 0)
      case None => None
      case Some(i) =>
        var run := RunFrom(url, i + 13);
        assert run != [] by { assert url[i + 13] != '/'; }
        assert CapturedAt(url, i, run);
        Some(run)
  }

  /** The maximal run is the id when the id is followed by a slash or the end. */
  lemma {:induction false} RunIsId(s: string, j: nat, id: string)
    requires j + |id| <= |s| && s[j..j + |id|] == id
    requires '/' !in id
    requires j + |id| == |s| || s[j + |id|] == '/'
    ensures RunFrom(s, j) == id
    decreases |id|
  {
    if id != [] {
      assert s[j] == id[0];
      assert s[j + 1..j + 1 + |id[1..]|] == id[1..];
      RunIsId(s, j + 1, id[1..]);
    }
  }

  /** The search stops at the first index where the pattern matches. */
  lemma {:induction false} FirstMatchIs(s: string, from: nat, p: nat)
    requires from <= p && MatchesAt(s, p)
    requires forall k :: from <= k < p ==> !MatchesAt(s, k)
    ensures FirstMatch(s, from) == Some(p)
    decreases p - from
  {
    if from < p {
      FirstMatchIs(s, from + 1, p);
    }
  }

  /** The pattern matches where "facebook.com/" is followed by a non-slash. */
  lemma MatchAfterPrefix(prefix: string, rest: string)
    requires rest != [] && rest[0] != '/'
    ensures MatchesAt(prefix + "facebook.com/" + rest, |prefix|)
  {
    var url := prefix + "facebook.com/" + rest;
    var p := |prefix|;
    assert url[p..] == "facebook.com/" + rest;
    assert url[p..p + 8] == url[p..][..8];
    assert url[p + 9..p + 13] == url[p..][9..13];
    assert url[p + 13] == url[p..][13] == rest[0];
  }

  /** Without an 'f' the pattern cannot start inside the prefix. */
  lemma NoMatchInPrefix(url: string, prefix: string)
    requires 'f' !in prefix && |prefix| <= |url| && url[..|prefix|] == prefix
    ensures forall k :: 0 <= k < |prefix| ==> !MatchesAt(url, k)
  {
    forall k | 0 <= k < |prefix|
      ensures !MatchesAt(url, k)
    {
      assert url[k] == prefix[k];
      if k + 8 <= |url| {
        assert url[k..k + 8][0] == url[k];
      }
    }
  }

  /** At the leftmost match, the id is the run of non-slashes after "com/". */
  lemma IdAtFirstMatch(rowKey: string, url: string, p: nat)
    requires url != [] && FirstMatch(url, 0) == Some(p)
    ensures FacebookPageToId(Some(FacebookPage(rowKey, Some(url)))) == Some(RunFrom(url, p + 13))
  {
  }

  /**
    Round trip: a page URL built around an id gives that id back, provided
    the pattern does not already match inside the text before the id.
   */
  lemma FacebookUrlRoundTrip(rowKey: string, prefix: string, id: string, suffix: string)
    requires forall k :: 0 <= k < |prefix| ==> !MatchesAt(prefix + "facebook.com/" + id + suffix, k)
    requires id != [] && '/' !in id
    requires suffix == [] || suffix[0] == '/'
    ensures FacebookPageToId(Some(FacebookPage(rowKey, Some(prefix + "facebook.com/" + id + suffix)))) == Some(id)
  {
    var url := prefix + "facebook.com/" + id + suffix;
    var p := |prefix|;
    assert url == prefix + "facebook.com/" + (id + suffix);
    MatchAfterPrefix(prefix, id + suffix);
    FirstMatchIs(url, 0, p);
    IdAtFirstMatch(rowKey, url, p);
    IdAfterPrefix(prefix, id, suffix);
  }

  /** After "facebook.com/", the capture is the id when the id is followed by the end or a slash. */
  lemma IdAfterPrefix(prefix: string, id: string, suffix: string)
    requires '/' !in id
    requires suffix == [] || suffix[0] == '/'
    ensures |prefix| + 13 <= |prefix + "facebook.com/" + id + suffix|
    ensures RunFrom(prefix + "facebook.com/" + id + suffix, |prefix| + 13) == id
  {
    var url := prefix + "facebook.com/" + id + suffix;
    var p := |prefix|;
    var rest := id + suffix;
    assert url == prefix + "facebook.com/" + rest;
    assert url[p + 13..] == rest;
    assert url[p + 13..p + 13 + |id|] == id;
    if suffix != [] {
      assert url[p + 13 + |id|] == rest[|id|] == suffix[0];
    }
    RunIsId(url, p + 13, id);
  }

  /** In particular, a prefix without an 'f' cannot hold an earlier match, so the id always comes back. */
  lemma FacebookUrlRoundTripNoF(rowKey: string, prefix: string, id: string, suffix: string)
    requires 'f' !in prefix
    requires id != [] && '/' !in id
    requires suffix == [] || suffix[0] == '/'
    ensures FacebookPageToId(Some(FacebookPage(rowKey, Some(prefix + "facebook.com/" + id + suffix)))) == Some(id)
  {
    var url := prefix + "facebook.com/" + id + suffix;
    assert url[..|prefix|] == prefix;
    NoMatchInPrefix(url, prefix);
    FacebookUrlRoundTrip(rowKey, prefix, id, suffix);
  }

  // ---------------------------------------------------------------------------
  // Blacklist filters

  datatype TermFilterRow = TermFilterRow(id: Option<string>, conjunctivefilter: Option<seq<string>>)

  datatype TermFilter = TermFilter(id: Option<string>, filteredTerms: Option<seq<string>>)

  function CassandraRowToTermFilter(row: TermFilterRow): (filter: TermFilter)
    ensures filter.id == row.id && filter.filteredTerms == row.conjunctivefilter
  {
    TermFilter(row.id, row.conjunctivefilter)
  }
}
