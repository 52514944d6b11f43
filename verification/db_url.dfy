/** The rewrite of the configured database URL for the asyncpg driver
    (backend/db.py): for a "postgresql://" URL the SSL query parameters, which
    asyncpg does not accept, are dropped and the scheme names the driver; any
    other URL gets the driver name spliced in unless it already has it.
    `urllib.parse` is not part of this model: `urlparse`, `parse_qs`,
    `urlencode` and `urlunparse` are parameters. */
module DbUrl {
  import Seqs
  import Text

  /** One entry of `parse_qs`'s dictionary: a parameter name and its values. */
  datatype QueryParam = QueryParam(name: string, values: seq<string>)

  /** The six components `urlparse` returns and `urlunparse` joins. */
  datatype UrlParts = UrlParts(scheme: string, netloc: string, path: string, params: string, query: string, fragment: string)

  const Postgres: string := "postgresql://"
  const PostgresAsyncpg: string := "postgresql+asyncpg://"
  const AsyncpgScheme: string := "postgresql+asyncpg"

  /** The parameter names, compared after lower-casing, that are removed. */
  const SslNames: seq<string> := ["sslmode", "sslcert", "sslkey", "sslrootcert"]

  predicate IsSslName(name: string) {
    Text.Fold(name) in SslNames
  }

  predicate Kept(p: QueryParam) {
    !IsSslName(p.name)
  }

  /** The dictionary comprehension: the parameters whose lower-cased name is
      not an SSL name, with their values, in their order. Collapsing a
      one-element value list to its element changes nothing once
      `urlencode(..., doseq=True)` writes it out, so the values are kept as lists. */
  function KeptParams(ps: seq<QueryParam>): (r: seq<QueryParam>)
    ensures forall i :: 0 <= i < |r| ==> !IsSslName(r[i].name) && r[i] in ps
    ensures forall i :: 0 <= i < |ps| && !IsSslName(ps[i].name) ==> ps[i] in r
  {
    Seqs.Filter(ps, Kept)
  }

  /** The components rebuilt for asyncpg: the driver's scheme, the kept
      parameters re-encoded (or no query at all), every other component as parsed. */
  function AsyncpgParts(parsed: UrlParts, parseQs: string -> seq<QueryParam>,
                        urlencode: seq<QueryParam> -> string): (r: UrlParts)
    ensures r.scheme == AsyncpgScheme
    ensures r.netloc == parsed.netloc && r.path == parsed.path && r.params == parsed.params && r.fragment == parsed.fragment
    ensures KeptParams(parseQs(parsed.query)) == [] ==> r.query == ""
    ensures KeptParams(parseQs(parsed.query)) != [] ==> r.query == urlencode(KeptParams(parseQs(parsed.query)))
  {
    var kept := KeptParams(parseQs(parsed.query));
    var query := if kept != [] then urlencode(kept) else "";
    UrlParts(AsyncpgScheme, parsed.netloc, parsed.path, parsed.params, query, parsed.fragment)
  }

  /** `DATABASE_URL` after the rewrite. A URL that does not start with
      "postgresql://" but contains it ends up naming the driver; one that
      contains neither form is left as it is. */
  function DatabaseUrl(url: string, urlparse: string -> UrlParts, parseQs: string -> seq<QueryParam>,
                       urlencode: seq<QueryParam> -> string, urlunparse: UrlParts -> string): (r: string)
    ensures Text.StartsWith(url, Postgres) ==> r == urlunparse(AsyncpgParts(urlparse(url), parseQs, urlencode))
    ensures !Text.StartsWith(url, Postgres) && Text.Contains(url, Postgres) ==> Text.Contains(r, PostgresAsyncpg)
    ensures !Text.StartsWith(url, Postgres) && !Text.Contains(url, PostgresAsyncpg) ==>
      r == Text.ReplaceFirst(url, Postgres, PostgresAsyncpg)
    ensures !Text.Contains(url, Postgres) && !Text.Contains(url, PostgresAsyncpg) ==> r == url
    ensures Text.Contains(url, PostgresAsyncpg) && !Text.StartsWith(url, Postgres) ==> r == url
  {
    if Text.StartsWith(url, Postgres) then
      urlunparse(AsyncpgParts(urlparse(url), parseQs, urlencode))
    else if !Text.Contains(url, PostgresAsyncpg) then
      ReplacedHasDriver(url);
      Text.ReplaceFirst(url, Postgres, PostgresAsyncpg)
    else
      url
  }

  /** Replacing the first "postgresql://" of a URL that has one leaves the
      driver's form in it. */
  lemma ReplacedHasDriver(url: string)
    ensures Text.Contains(url, Postgres) ==> Text.Contains(Text.ReplaceFirst(url, Postgres, PostgresAsyncpg), PostgresAsyncpg)
  {
    if Text.Contains(url, Postgres) {
      var i := Text.IndexOf(url, Postgres).value;
      var r := Text.ReplaceFirst(url, Postgres, PostgresAsyncpg);
      assert r[i..i + |PostgresAsyncpg|] == PostgresAsyncpg;
      assert Text.OccursAt(r, PostgresAsyncpg, i);
    }
  }

  /** The comparison ignores case: an upper-case SSLMODE goes, other
      parameters stay. */
  lemma UpperCaseSslModeDropped()
    ensures KeptParams([QueryParam("SSLMODE", ["require"]), QueryParam("port", ["5432"])])
              == [QueryParam("port", ["5432"])]
  {
    var sslmode := QueryParam("SSLMODE", ["require"]);
    var port := QueryParam("port", ["5432"]);
    var folded := Text.Fold(sslmode.name);
    assert folded == "sslmode" by {
      forall i | 0 <= i < 7
        ensures folded[i] == "sslmode"[i]
      {
        assert folded[i] == Text.FoldChar(sslmode.name[i]);
      }
    }
    assert IsSslName(sslmode.name) by {
      assert SslNames[0] == folded;
    }
    assert !IsSslName(port.name) by {
      var f := Text.Fold(port.name);
      assert |f| == 4;
    }
    assert [sslmode, port][1..] == [port];
    assert [port][1..] == [];
    assert Seqs.Filter([port], Kept) == [port] + Seqs.Filter([], Kept);
    assert Seqs.Filter([sslmode, port], Kept) == Seqs.Filter([port], Kept);
  }
}
