/**
 The custom network edge (weight plus an integer confidence), the content
 object an edge is shipped in, and the manager that turns content back into
 an edge on the receiving process.
 */
module Network {
  import opened AgentIds
  import opened Wrappers
  import opened Wire
  import opened Agents
  import opened SharedContext

  /** An edge between the identified agents; the library keeps pointers, the model keeps their identifiers. */
  datatype Edge = Edge(source: AgentId, target: AgentId, weight: real, confidence: Int32)

  datatype EdgeContent = EdgeContent(source: AgentId, target: AgentId, weight: real, confidence: Int32)

  /** The confidence setter: only the confidence changes. */
  function SetConfidence(e: Edge, confidence: Int32): (r: Edge)
    ensures r.confidence == confidence
    ensures r.source == e.source && r.target == e.target && r.weight == e.weight
  {
    e.(confidence := confidence)
  }

  /** Reading the confidence back returns what was set; re-setting the old value restores the edge. */
  lemma SetThenGetConfidence(e: Edge, x: Int32, y: Int32)
    ensures SetConfidence(e, x).confidence == x
    ensures SetConfidence(SetConfidence(e, x), e.confidence) == e
    ensures SetConfidence(SetConfidence(e, x), y) == SetConfidence(e, y)
  {
  }

  /** Captures an edge for shipping: its endpoints and weight, then its confidence. */
  function ProvideEdgeContent(e: Edge): (r: EdgeContent)
    ensures r.source.Key() == e.source.Key() && r.target.Key() == e.target.Key()
    ensures r.weight == e.weight && r.confidence == e.confidence
    ensures DecodeContent(EncodeContent(r)) == Some(r)
  {
    EdgeContent(e.source, e.target, e.weight, e.confidence)
  }

  /**
   Rebuilds an edge from content: both endpoints are looked up in the receiving
   store, whose agents the new edge then joins. A missing endpoint would be a
   null pointer, so both must resolve.
   */
  function CreateEdge(content: EdgeContent, ctx: Context): (r: Edge)
    requires Resolves(ctx, content.source.Key()) && Resolves(ctx, content.target.Key())
    ensures r.source == Lookup(ctx, content.source.Key()).id
    ensures r.target == Lookup(ctx, content.target.Key()).id
    ensures r.weight == content.weight && r.confidence == content.confidence
  {
    Edge(Lookup(ctx, content.source.Key()).id, Lookup(ctx, content.target.Key()).id,
         content.weight, content.confidence)
  }

  /**
   Shipping an edge and rebuilding it in a valid store keeps its endpoints,
   weight and confidence; when the store's copies of the endpoints carry the
   same current ranks, the rebuilt edge is the original.
   */
  lemma EdgeRoundTrip(e: Edge, ctx: Context)
    requires Valid(ctx)
    requires Resolves(ctx, e.source.Key()) && Resolves(ctx, e.target.Key())
    ensures var r := CreateEdge(ProvideEdgeContent(e), ctx);
            && r.source.Key() == e.source.Key() && r.target.Key() == e.target.Key()
            && r.weight == e.weight && r.confidence == e.confidence
    ensures Lookup(ctx, e.source.Key()).id == e.source && Lookup(ctx, e.target.Key()).id == e.target
            ==> CreateEdge(ProvideEdgeContent(e), ctx) == e
  {
    SingleResolution(ctx, e.source.Key());
    SingleResolution(ctx, e.target.Key());
  }

  /** The archive of edge content: the base fields (source, target, weight) first, confidence last. */
  function EncodeContent(ec: EdgeContent): (s: seq<Field>)
    ensures |s| == 10
    ensures s[..4] == EncodeId(ec.source) && s[4..8] == EncodeId(ec.target)
    ensures s[8] == RealField(ec.weight) && s[9] == IntField(ec.confidence)
  {
    EncodeId(ec.source) + EncodeId(ec.target) + [RealField(ec.weight), IntField(ec.confidence)]
  }

  /** Reads edge content back in the order it was written: source, target, weight, confidence. */
  function DecodeContent(s: seq<Field>): (r: Option<EdgeContent>)
    ensures r.Some? ==> |s| == 10
    ensures r.Some? ==> DecodeId(s[..4]) == Some(r.value.source) && DecodeId(s[4..8]) == Some(r.value.target)
    ensures r.Some? ==> s[8] == RealField(r.value.weight) && s[9] == IntField(r.value.confidence)
  {
    if |s| != 10 || !s[8].RealField? || !s[9].IntField? then None
    else
      match (DecodeId(s[..4]), DecodeId(s[4..8]))
      case (Some(source), Some(target)) => Some(EdgeContent(source, target, s[8].x, s[9].i))
      case _ => None
  }

  /** Edge content decodes from exactly the archives that encode it. */
  lemma DecodeContentIsInverse(s: seq<Field>, ec: EdgeContent)
    ensures DecodeContent(s) == Some(ec) <==> s == EncodeContent(ec)
  {
    if s == EncodeContent(ec) {
      DecodeIdIsInverse(s[..4], ec.source);
      DecodeIdIsInverse(s[4..8], ec.target);
    }
    if DecodeContent(s) == Some(ec) {
      DecodeIdIsInverse(s[..4], ec.source);
      DecodeIdIsInverse(s[4..8], ec.target);
      assert s == s[..4] + s[4..8] + [s[8], s[9]];
    }
  }
}
