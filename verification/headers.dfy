/**
 * Tenant extraction: the tenant name travels in the `_db` request header and
 * falls back to "default_db" when that header is absent or is not text.
 */
module RequestHeaders {
  import opened Wrappers
  import opened Bytes

  /** One request header.  Names are already lower-case, as the HTTP layer normalises them. */
  datatype Header = Header(name: string, value: seq<byte>)

  const DbHeader: string := "_db"
  const DefaultDbName: string := "default_db"

  /** `HeaderMap::get`: the value of the first header with that name, if any. */
  function GetHeader(headers: seq<Header>, name: string): (r: Option<seq<byte>>)
    ensures r.Some? <==> exists i :: 0 <= i < |headers| && headers[i].name == name
    ensures r.Some? ==> exists i :: 0 <= i < |headers| && headers[i].name == name && headers[i].value == r.value
                                    && forall j :: 0 <= j < i ==> headers[j].name != name
  {
    if headers == [] then None
    else if headers[0].name == name then Some(headers[0].value)
    else
      var r := GetHeader(headers[1..], name);
      assert forall i :: 1 <= i < |headers| ==> headers[i] == headers[1..][i - 1];
      if r.Some? then
        ghost var i :| 0 <= i < |headers[1..]| && headers[1..][i].name == name && headers[1..][i].value == r.value
                       && forall j :: 0 <= j < i ==> headers[1..][j].name != name;
        assert headers[i + 1].name == name && headers[i + 1].value == r.value;
        r
      else
        r
  }

  /** `HeaderValue::to_str` succeeds when every byte is visible ASCII or a tab. */
  predicate IsVisibleText(v: seq<byte>) {
    forall i :: 0 <= i < |v| ==> v[i] == 9 || 32 <= v[i] < 127
  }

  function AsText(v: seq<byte>): (s: string)
    ensures |s| == |v| && forall i :: 0 <= i < |v| ==> s[i] as int == v[i] as int
  {
    seq(|v|, i requires 0 <= i < |v| => v[i] as int as char)
  }

  /** `extract_db_name`: the `_db` header as text, or "default_db". */
  function ExtractDbName(headers: seq<Header>): (db: string)
    ensures db == DefaultDbName <==>
      match GetHeader(headers, DbHeader)
      case None => true
      case Some(v) => !IsVisibleText(v) || AsText(v) == DefaultDbName
  {
    match GetHeader(headers, DbHeader)
    case Some(v) => if IsVisibleText(v) then AsText(v) else DefaultDbName
    case None => DefaultDbName
  }

  /** A readable `_db` header is returned unchanged. */
  lemma ExtractReadable(headers: seq<Header>, i: nat)
    requires i < |headers| && headers[i].name == DbHeader && IsVisibleText(headers[i].value)
    requires forall j :: 0 <= j < i ==> headers[j].name != DbHeader
    ensures ExtractDbName(headers) == AsText(headers[i].value)
  {
    var r := GetHeader(headers, DbHeader);
    var k :| 0 <= k < |headers| && headers[k].name == DbHeader && headers[k].value == r.value
             && forall j :: 0 <= j < k ==> headers[j].name != DbHeader;
    assert k == i;
  }

  /** Without a `_db` header the default tenant is used. */
  lemma ExtractAbsent(headers: seq<Header>)
    requires forall i :: 0 <= i < |headers| ==> headers[i].name != DbHeader
    ensures ExtractDbName(headers) == DefaultDbName
  {
  }

  /** A `_db` header that is not visible text also yields the default tenant. */
  lemma ExtractUnreadable(headers: seq<Header>, i: nat)
    requires i < |headers| && headers[i].name == DbHeader && !IsVisibleText(headers[i].value)
    requires forall j :: 0 <= j < i ==> headers[j].name != DbHeader
    ensures ExtractDbName(headers) == DefaultDbName
  {
    var r := GetHeader(headers, DbHeader);
    var k :| 0 <= k < |headers| && headers[k].name == DbHeader && headers[k].value == r.value
             && forall j :: 0 <= j < k ==> headers[j].name != DbHeader;
    assert k == i;
  }

  /** The `_db` headers of a request, in order; everything else is dropped. */
  function DbHeaders(headers: seq<Header>): (r: seq<Header>)
    ensures forall i :: 0 <= i < |r| ==> r[i].name == DbHeader
  {
    if headers == [] then []
    else if headers[0].name == DbHeader then [headers[0]] + DbHeaders(headers[1..])
    else DbHeaders(headers[1..])
  }

  lemma {:induction false} GetHeaderOnlyDb(headers: seq<Header>)
    ensures GetHeader(headers, DbHeader) == GetHeader(DbHeaders(headers), DbHeader)
  {
    if headers != [] {
      GetHeaderOnlyDb(headers[1..]);
      if headers[0].name == DbHeader {
        assert GetHeader(DbHeaders(headers), DbHeader) == Some(headers[0].value);
      } else {
        assert DbHeaders(headers) == DbHeaders(headers[1..]);
      }
    }
  }

  /** Only the `_db` headers are consulted: requests that agree on them extract the same tenant. */
  lemma OnlyDbHeaderMatters(h1: seq<Header>, h2: seq<Header>)
    requires DbHeaders(h1) == DbHeaders(h2)
    ensures ExtractDbName(h1) == ExtractDbName(h2)
  {
    GetHeaderOnlyDb(h1);
    GetHeaderOnlyDb(h2);
  }
}
