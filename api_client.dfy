/** The pure parts of the indexer API clients: URL construction and the
    post-processing of decoded responses. The HTTP exchange itself is not
    modelled: a response enters as a decoded JSON body, or as the error the
    request raised. */
module ApiClient {
  import opened Wrappers
  import opened Json
  import Text

  datatype ClientKind = OrdinalClient | Brc20Client

  datatype Client = Client(kind: ClientKind, baseUrl: string)

  /** A client for a base URL: the URL is kept without its trailing slashes. */
  function NewClient(kind: ClientKind, baseUrl: string): (c: Client)
    ensures c.kind == kind
    ensures c.baseUrl == [] || c.baseUrl[|c.baseUrl| - 1] != '/'
    ensures c.baseUrl <= baseUrl
    ensures forall k :: |c.baseUrl| <= k < |baseUrl| ==> baseUrl[k] == '/'
  {
    Client(kind, Text.RStrip(baseUrl, '/'))
  }

  /** A client built from a stored base URL stores the same URL again. */
  lemma NewClientIdempotent(kind: ClientKind, baseUrl: string)
    ensures NewClient(kind, NewClient(kind, baseUrl).baseUrl) == NewClient(kind, baseUrl)
  {
    Text.RStripIdempotent(baseUrl, '/');
  }

  /** A trailing slash on the configured URL makes no difference. */
  lemma TrailingSlashIgnored(kind: ClientKind, baseUrl: string)
    ensures NewClient(kind, baseUrl + "/") == NewClient(kind, baseUrl)
  {
    assert (baseUrl + "/")[..|baseUrl|] == baseUrl;
  }

  /** The node-info endpoint: the base URL followed by its path. */
  function NodeInfoUrl(c: Client): (u: string)
    ensures c.baseUrl <= u && u[|c.baseUrl|..] == "/api/v1/node/info"
  {
    c.baseUrl + "/api/v1/node/info"
  }

  /** The block-hash endpoint: the base URL, "/blockhash/" and the height in decimal. */
  function BlockHashUrl(c: Client, height: int): (u: string)
    ensures c.baseUrl + "/blockhash/" <= u
    ensures u[|c.baseUrl + "/blockhash/"|..] == Text.IntToString(height)
    ensures Text.ParseInt(u[|c.baseUrl + "/blockhash/"|..]) == Some(height)
  {
    var p := c.baseUrl + "/blockhash/";
    var u := p + Text.IntToString(height);
    assert u[|p|..] == Text.IntToString(height);
    Text.ParseIntToString(height);
    u
  }

  /** The receipts URL of the client's protocol for a block hash. */
  function ReceiptsUrl(c: Client, blockHash: string): (u: string)
    ensures var p := c.baseUrl + (if c.kind == OrdinalClient then "/api/v1/ord/block/" else "/api/v1/brc20/block/");
      p <= u && u[|p|..] == blockHash + "/events"
  {
    var p := c.baseUrl + (match c.kind
                          case OrdinalClient => "/api/v1/ord/block/"
                          case Brc20Client => "/api/v1/brc20/block/");
    var u := p + (blockHash + "/events");
    assert u[|p|..] == blockHash + "/events";
    u
  }

  lemma PrefixCancel(p: string, s: string, t: string)
    requires p + s == p + t
    ensures s == t
  {
    assert s == (p + s)[|p|..];
    assert t == (p + t)[|p|..];
  }

  lemma SuffixCancel(s: string, t: string, q: string)
    requires s + q == t + q
    ensures s == t
  {
    assert s == (s + q)[..|s|];
    assert t == (t + q)[..|t|];
  }

  /** Different heights are asked for at different URLs. */
  lemma BlockHashUrlInjective(c: Client, h1: int, h2: int)
    ensures BlockHashUrl(c, h1) == BlockHashUrl(c, h2) ==> h1 == h2
  {
    if BlockHashUrl(c, h1) == BlockHashUrl(c, h2) {
      var p := c.baseUrl + "/blockhash/";
      assert BlockHashUrl(c, h1) == p + Text.IntToString(h1);
      assert BlockHashUrl(c, h2) == p + Text.IntToString(h2);
      PrefixCancel(p, Text.IntToString(h1), Text.IntToString(h2));
      Text.IntToStringInjective(h1, h2);
    }
  }

  /** Different block hashes are asked for at different URLs, and the two
      protocols never share a receipts URL. */
  lemma ReceiptsUrlInjective(c: Client, d: Client, hash1: string, hash2: string)
    requires c.baseUrl == d.baseUrl
    ensures ReceiptsUrl(c, hash1) == ReceiptsUrl(d, hash2) ==> c.kind == d.kind && hash1 == hash2
  {
    var b := c.baseUrl;
    var u, v := ReceiptsUrl(c, hash1), ReceiptsUrl(d, hash2);
    if c.kind != d.kind {
      assert u[|b| + 8] != v[|b| + 8];
    } else if u == v {
      var p := b + (if c.kind == OrdinalClient then "/api/v1/ord/block/" else "/api/v1/brc20/block/");
      assert u == p + (hash1 + "/events");
      assert v == p + (hash2 + "/events");
      PrefixCancel(p, hash1 + "/events", hash2 + "/events");
      SuffixCancel(hash1, hash2, "/events");
    }
  }

  /** The block hash is the response text without surrounding whitespace. */
  function BlockHash(responseText: string): (h: string)
    ensures h == [] || (!Text.IsSpace(h[0]) && !Text.IsSpace(h[|h| - 1]))
    ensures var i := Text.LeadingSpaces(responseText);
      && i + |h| <= |responseText|
      && h == responseText[i..i + |h|]
      && (forall k :: 0 <= k < i ==> Text.IsSpace(responseText[k]))
      && (forall k :: i + |h| <= k < |responseText| ==> Text.IsSpace(responseText[k]))
  {
    Text.Strip(responseText)
  }

  /** The hash holds no surrounding whitespace: stripping it again changes nothing. */
  lemma BlockHashIsStripped(responseText: string)
    ensures Text.Strip(BlockHash(responseText)) == BlockHash(responseText)
  {
    Text.StripIdempotent(responseText);
  }

  /** `response.get('data', {})` on a decoded body; any body that is not an
      object has no `get` and raises. */
  function DataField(body: Json): (r: Result<Json, string>)
    ensures r.Success? <==> body.JObj?
    ensures body.JObj? && Get(body.fields, "data").Some? ==> r.value == Get(body.fields, "data").value
    ensures body.JObj? && Get(body.fields, "data").None? ==> r.value == EmptyObject
  {
    if !body.JObj? then Failure("response body is not a JSON object")
    else match Get(body.fields, "data")
      case Some(d) => Success(d)
      case None => Success(EmptyObject)
  }

  /** The receipts of a block: the `data` field of the response, or the error
      the request raised. Both clients post-process alike. */
  function FetchBlockReceipts(response: Result<Json, string>): (r: Result<Json, string>)
    ensures response.Failure? ==> r == Failure(response.error)
    ensures response.Success? ==> r == DataField(response.value)
  {
    match response
    case Failure(e) => Failure(e)
    case Success(body) => DataField(body)
  }

  function NetworkOf(info: Json): Option<Json> {
    match Member(info, "chainInfo")
    case None => None
    case Some(ci) => Member(ci, "network")
  }

  /** Rewrites chainInfo.network from "mainnet" to "bitcoin" where it stands. */
  function RenameMainnet(info: Json): (r: Json)
    ensures NetworkOf(info) == Some(JStr("mainnet")) ==> NetworkOf(r) == Some(JStr("bitcoin"))
    ensures NetworkOf(info) != Some(JStr("mainnet")) ==> r == info
    ensures forall k :: k != "chainInfo" ==> Member(r, k) == Member(info, k)
    ensures forall k :: k != "network" && Member(info, "chainInfo").Some? ==>
              Member(r, "chainInfo").Some? && Member(Member(r, "chainInfo").value, k) == Member(Member(info, "chainInfo").value, k)
  {
    if NetworkOf(info) != Some(JStr("mainnet")) then info
    else
      var fs := info.fields;
      var i := IndexOf(fs, "chainInfo").value;
      var cfs := fs[i].value.fields;
      var j := IndexOf(cfs, "network").value;
      var ci' := JObj(cfs[j := Field("network", JStr("bitcoin"))]);
      var r := JObj(fs[i := Field("chainInfo", ci')]);
      assert forall k :: IndexOf(r.fields, k) == IndexOf(fs, k) by {
        forall k ensures IndexOf(r.fields, k) == IndexOf(fs, k) { IndexOfUpdate(fs, i, ci', k); }
      }
      assert forall k :: IndexOf(ci'.fields, k) == IndexOf(cfs, k) by {
        forall k ensures IndexOf(ci'.fields, k) == IndexOf(cfs, k) { IndexOfUpdate(cfs, j, JStr("bitcoin"), k); }
      }
      r
  }

  /** Renaming twice is renaming once. */
  lemma RenameMainnetIdempotent(info: Json)
    ensures RenameMainnet(RenameMainnet(info)) == RenameMainnet(info)
  {
  }

  /** get_node_info: the `data` field of the response, with the network renamed. */
  function GetNodeInfo(response: Result<Json, string>): (r: Result<Json, string>)
    ensures r.Success? <==> response.Success? && response.value.JObj?
    ensures r.Success? ==> r.value == RenameMainnet(DataField(response.value).value)
    ensures response.Failure? ==> r == Failure(response.error)
  {
    var body :- response;
    var data :- DataField(body);
    Success(RenameMainnet(data))
  }
}
