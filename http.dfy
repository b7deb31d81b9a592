/** The parts of the Fetch API the core looks at, and the outside effects it causes. */
module Http {
  import opened Strings

  /** A fetched response: its status, final URL and body text. */
  datatype Response = Response(status: nat, url: string, body: string) {
    /** `response.ok`: the status is in the 2xx range. */
    predicate Ok() { 200 <= status <= 299 }
  }

  /** An effect on the outside world, in the order the core causes it. */
  datatype Effect =
    | Get(url: string)                 // fetch(url)
    | Post(url: string)                // fetch(url, { method: "post", ... })
    | ReadCache(keys: seq<string>)     // env.KV.get(keys)
    | Log(line: string)                // console.log(line)

  /** The detail of the error raised for a non-ok response: `received ${status} when retrieving ${url}: ${body}`. */
  function ReceivedDetail(response: Response): string {
    "received " + Decimal(response.status) + " when retrieving " + response.url + ": " + response.body
  }

  /** The detail names the status first and ends with the body as received. */
  lemma ReceivedDetailFormat(response: Response)
    ensures StartsWith(ReceivedDetail(response), "received ")
    ensures EndsWith(ReceivedDetail(response), ": " + response.body)
  {
    var head := "received " + Decimal(response.status) + " when retrieving " + response.url;
    assert head + ": " + response.body == "received " + (Decimal(response.status) + " when retrieving " + response.url + ": " + response.body);
    PrefixOfConcat("received ", Decimal(response.status) + " when retrieving " + response.url + ": " + response.body);
    SuffixOfConcat(head, ": " + response.body);
    assert head + ": " + response.body == head + (": " + response.body);
  }
}
