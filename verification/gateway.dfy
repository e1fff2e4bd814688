/**
 * The assistant gateway (services/geminiService.ts): builds the turn list sent to the
 * hosted model and normalises its answer. The network call itself is an input: the
 * answer the service gave, or a failure.
 */
module Gateway {
  import opened Wrappers
  import opened Types

  /** One turn of the request: a role and its text parts. */
  datatype Turn = Turn(role: Role, parts: seq<string>)

  /** The source of a grounding chunk; the service may omit either field. */
  datatype WebSource = WebSource(title: Option<string>, uri: Option<string>)

  /** A grounding chunk of the service's metadata; `web` may be absent. */
  datatype GroundingChunk = GroundingChunk(web: Option<WebSource>)

  /**
   * What the call produced: a failure of any kind (transport, authentication,
   * malformed answer), or an answer whose text and whose grounding chunks
   * (reached through optional candidates and metadata) may each be absent.
   */
  datatype ServiceResponse =
    | Failed
    | Answered(text: Option<string>, groundingChunks: Option<seq<GroundingChunk>>)

  /** The `{ text, urls }` value handed back to the chat controller. */
  datatype Reply = Reply(text: Option<string>, urls: Option<seq<Link>>)

  /** The fixed parts of the request besides its turns. */
  datatype Request = Request(model: string, contents: seq<Turn>, searchTool: bool, temperature: real)

  const ModelName: string := "gemini-3-flash-preview"
  const Temperature: real := 0.7

  /** The title used when a source carries none. */
  const FallbackTitle: string := "Market Rate Source"

  /** The text returned on any failure, in Bengali whatever the display language. */
  const Apology: string := "দুঃখিত, আমি এই মুহূর্তে তথ্য দিতে পারছি না।"

  /** `[...history, { role: 'user', parts: [{ text: prompt }] }]` */
  function Contents(prompt: string, history: seq<Turn>): (r: seq<Turn>)
    ensures |r| == |history| + 1
    ensures r[..|history|] == history
    ensures r[|history|].role == User && r[|history|].parts == [prompt]
  {
    history + [Turn(User, [prompt])]
  }

  /** The request sent for a prompt and its history. */
  function BuildRequest(prompt: string, history: seq<Turn>): (r: Request)
    ensures r.contents == Contents(prompt, history)
    ensures r.model == ModelName && r.searchTool && r.temperature == Temperature
  {
    Request(ModelName, Contents(prompt, history), true, Temperature)
  }

  /** A JavaScript string is truthy exactly when it is non-empty. */
  predicate Truthy(s: Option<string>) {
    s.Some? && s.value != ""
  }

  /** `chunk.web?.title || 'Market Rate Source'` */
  function ChunkTitle(c: GroundingChunk): (t: string)
    ensures Truthy(if c.web.Some? then c.web.value.title else None) ==> t == c.web.value.title.value
    ensures !Truthy(if c.web.Some? then c.web.value.title else None) ==> t == FallbackTitle
  {
    if c.web.Some? && Truthy(c.web.value.title) then c.web.value.title.value else FallbackTitle
  }

  /** The chunk's `web?.uri` is truthy. */
  predicate HasUri(c: GroundingChunk) {
    c.web.Some? && Truthy(c.web.value.uri)
  }

  /** The link a chunk with a URI becomes. */
  function ChunkLink(c: GroundingChunk): Link
    requires HasUri(c)
  {
    Link(ChunkTitle(c), c.web.value.uri.value)
  }

  /** `chunks.map(...).filter(u => u.uri)`: one link per chunk that has a URI, in chunk order. */
  function ExtractLinks(chunks: seq<GroundingChunk>): (links: seq<Link>)
    ensures |links| <= |chunks|
    ensures forall l :: l in links ==> l.uri != ""
  {
    if chunks == [] then []
    else if HasUri(chunks[0]) then [ChunkLink(chunks[0])] + ExtractLinks(chunks[1..])
    else ExtractLinks(chunks[1..])
  }

  /** Extraction works chunk by chunk: it distributes over concatenation, so the links keep chunk order. */
  lemma {:induction false} ExtractLinksAppend(a: seq<GroundingChunk>, b: seq<GroundingChunk>)
    ensures ExtractLinks(a + b) == ExtractLinks(a) + ExtractLinks(b)
    decreases |a|
  {
    if a != [] {
      ExtractLinksAppend(a[1..], b);
      assert (a + b)[1..] == a[1..] + b;
    } else {
      assert a + b == b;
    }
  }

  /** A single chunk yields its link when it has a URI, and nothing otherwise. */
  lemma ExtractLinksSingle(c: GroundingChunk)
    ensures ExtractLinks([c]) == if HasUri(c) then [ChunkLink(c)] else []
  {
    assert [c][1..] == [];
  }

  /** A link is returned exactly when some chunk with a URI produces it. */
  lemma {:induction false} ExtractLinksMembership(chunks: seq<GroundingChunk>, l: Link)
    ensures l in ExtractLinks(chunks) <==> exists c :: c in chunks && HasUri(c) && ChunkLink(c) == l
    decreases |chunks|
  {
    if chunks != [] {
      ExtractLinksMembership(chunks[1..], l);
      assert chunks == [chunks[0]] + chunks[1..];
      if exists c :: c in chunks && HasUri(c) && ChunkLink(c) == l {
        var c :| c in chunks && HasUri(c) && ChunkLink(c) == l;
        assert c == chunks[0] || c in chunks[1..];
      }
    }
  }

  /** Every link's title is its source's title, or the fallback when that is missing or empty. */
  lemma ExtractLinksTitles(chunks: seq<GroundingChunk>)
    ensures forall l :: l in ExtractLinks(chunks) ==>
              l.title == FallbackTitle ||
              exists c :: c in chunks && c.web.Some? && c.web.value.title == Some(l.title)
  {
    forall l | l in ExtractLinks(chunks)
      ensures l.title == FallbackTitle ||
              exists c :: c in chunks && c.web.Some? && c.web.value.title == Some(l.title)
    {
      ExtractLinksMembership(chunks, l);
    }
  }

  /**
   * `getGeminiResponse` once the call has returned `response`: the answer's text and
   * links, with `urls` absent when the answer carries no chunks; on failure the
   * fixed apology and no links.
   */
  function Respond(response: ServiceResponse): (r: Reply)
    ensures response.Failed? ==> r == Reply(Some(Apology), Some([]))
    ensures response.Answered? ==> r.text == response.text
    ensures response.Answered? ==> (r.urls.None? <==> response.groundingChunks.None?)
    ensures response.Answered? && response.groundingChunks.Some? ==>
              r.urls == Some(ExtractLinks(response.groundingChunks.value))
    ensures r.urls.Some? ==> forall l :: l in r.urls.value ==> l.uri != ""
  {
    match response
    case Failed => Reply(Some(Apology), Some([]))
    case Answered(text, chunks) =>
      Reply(text, if chunks.Some? then Some(ExtractLinks(chunks.value)) else None)
  }

  /**
   * `getGeminiResponse(prompt, history)`: one call of `service` with the built request,
   * its outcome normalised. The service stands for the hosted model and the network.
   */
  function GetResponse(prompt: string, history: seq<Turn>, service: Request -> ServiceResponse): (r: Reply)
    ensures r == Respond(service(BuildRequest(prompt, history)))
    ensures service(BuildRequest(prompt, history)).Failed? ==> r == Reply(Some(Apology), Some([]))
    ensures var response := service(BuildRequest(prompt, history));
            response.Answered? ==>
              r.text == response.text &&
              r.urls == (if response.groundingChunks.Some? then Some(ExtractLinks(response.groundingChunks.value)) else None)
    ensures r.urls.Some? ==> forall l :: l in r.urls.value ==> l.uri != ""
  {
    Respond(service(BuildRequest(prompt, history)))
  }
}
