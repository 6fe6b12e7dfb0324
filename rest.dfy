// The REST side of both JSON front ends: an HTTP request either upgrades the
// connection to a websocket or is routed on its (already split) URL path, and
// the only resource served is the list of known symbols. When the handler
// sends nothing, the HTTP server itself answers 404.

module Rest {
  import opened Common
  import opened Json

  const OK: nat := 200
  const NOT_FOUND: nat := 404
  const SYMBOLS: string := "symbols"

  datatype HttpMethod = Get | Head | Post | Put | Delete | Connect | Options | Trace

  /** An HTTP request as the handler sees it: whether it asks for a
    * connection upgrade, its method and its path segments. */
  datatype HttpRequest = HttpRequest(upgrade: bool, verb: HttpMethod, path: seq<string>)

  /** What the handler does with one request: upgrade the connection, answer
    * it, or leave it unanswered (the server then sends its own 404). */
  datatype Outcome = Upgraded | Responded(status: nat, body: string) | Unanswered

  /** The path with the configured URL prefix dropped when it is its first
    * segment; an empty prefix is never dropped. */
  function StripPrefix(path: seq<string>, prefix: string): seq<string>
  {
    if |path| > 0 && prefix != "" && path[0] == prefix then path[1..] else path
  }

  /** `fmt::join`: the texts with `sep` between consecutive ones. */
  function Join(texts: seq<string>, sep: string): string
  {
    if |texts| == 0 then ""
    else if |texts| == 1 then texts[0]
    else texts[0] + sep + Join(texts[1..], sep)
  }

  /** `get_symbols` over the symbols in the order the hash set yields them. */
  function SymbolsResponse(symbols: seq<string>): Outcome
  {
    if symbols == [] then Responded(NOT_FOUND, "[]")
    else Responded(OK, "[\"" + Join(symbols, "\",\"") + "\"]")
  }

  function JsonStrings(texts: seq<string>): (items: seq<Json>)
    ensures |items| == |texts|
    ensures forall i :: 0 <= i < |texts| ==> items[i] == JString(texts[i])
  {
    seq(|texts|, i requires 0 <= i < |texts| => JString(texts[i]))
  }

  // ---------------------------------------------------------------------------
  // Properties

  /** The prefix is dropped exactly once, and only when it leads the path. */
  lemma StripPrefixDropsOnce(path: seq<string>, prefix: string)
    requires prefix != ""
    ensures StripPrefix([prefix] + path, prefix) == path
    ensures |path| > 0 && path[0] != prefix ==> StripPrefix(path, prefix) == path
    ensures StripPrefix(path, "") == path
  {
    assert ([prefix] + path)[1..] == path;
  }

  lemma QuoteSplit(s: string, x: string, rest: string)
    ensures s + ("\"" + x + "\"") + ("," + "\"" + rest + "\"") == s + "\"" + (x + "\",\"" + rest) + "\""
  {
    assert "\",\"" == "\"" + "," + "\"";
  }

  lemma JoinStep(texts: seq<string>, k: nat, sep: string)
    requires k + 1 < |texts|
    ensures Join(texts[k..], sep) == texts[k] + sep + Join(texts[k + 1..], sep)
  {
    assert texts[k..][1..] == texts[k + 1..];
  }

  /** Item `k` of the JSON array of `texts`, a plain text, is that text
    * between quotes. */
  lemma DumpItemAt(texts: seq<string>, k: nat)
    requires k < |texts| && Plain(texts[k])
    ensures DumpItems(JArray(JsonStrings(texts)), k) ==
      (if k == 0 then "" else ",") + ("\"" + texts[k] + "\"") + DumpItems(JArray(JsonStrings(texts)), k + 1)
  {
    EscapePlain(texts[k]);
  }

  /** The items of the JSON array of `texts` from index `k` on, each quoted,
    * are the joined texts between one pair of quotes. */
  lemma {:induction false} DumpItemsJoin(texts: seq<string>, k: nat)
    requires k < |texts|
    requires forall i :: 0 <= i < |texts| ==> Plain(texts[i])
    ensures DumpItems(JArray(JsonStrings(texts)), k) ==
      (if k == 0 then "" else ",") + "\"" + Join(texts[k..], "\",\"") + "\""
    decreases |texts| - k
  {
    var j := JArray(JsonStrings(texts));
    var sep := if k == 0 then "" else ",";
    DumpItemAt(texts, k);
    if k == |texts| - 1 {
      assert texts[k..] == [texts[k]];
      assert DumpItems(j, k + 1) == "";
    } else {
      var rest := Join(texts[k + 1..], "\",\"");
      DumpItemsJoin(texts, k + 1);
      assert DumpItems(j, k) == sep + ("\"" + texts[k] + "\"") + ("," + "\"" + rest + "\"");
      QuoteSplit(sep, texts[k], rest);
      JoinStep(texts, k, "\",\"");
      assert Join(texts[k..], "\",\"") == texts[k] + "\",\"" + rest;
    }
  }

  /** When no symbol needs escaping, the symbol list is the JSON array of the
    * symbols, in the order given; an empty list is `[]` with status 404. */
  lemma SymbolsAreJsonArray(symbols: seq<string>)
    requires forall i :: 0 <= i < |symbols| ==> Plain(symbols[i])
    ensures SymbolsResponse(symbols).body == Dump(JArray(JsonStrings(symbols)))
    ensures SymbolsResponse(symbols).status == (if symbols == [] then NOT_FOUND else OK)
  {
    var j := JArray(JsonStrings(symbols));
    if symbols == [] {
      assert DumpItems(j, 0) == "";
    } else {
      DumpItemsJoin(symbols, 0);
      assert symbols[0..] == symbols;
    }
  }
}
