/**
 * Turns the language model's tool calls into entity bindings: each
 * recognised call names an OpenAlex entity, the search endpoint resolves
 * it to a short id (or a "not found" sentinel), and the id is written
 * under the filter columns that refer to that kind of entity.
 */
module EntityResolver {
  import opened Wrappers
  import opened Strings
  import opened Sublists

  /** The seven kinds of entity the model may ask to look up. */
  datatype EntityKind = Institution | Author | Keyword | Source | Funder | Publisher | Topic

  /** The singular noun of a kind, as used in the "not found" sentinel. */
  function Noun(k: EntityKind): string {
    match k
    case Institution => "institution"
    case Author => "author"
    case Keyword => "keyword"
    case Source => "source"
    case Funder => "funder"
    case Publisher => "publisher"
    case Topic => "topic"
  }

  /** The plural path prefix an id of this kind is written under. */
  function Plural(k: EntityKind): string {
    Noun(k) + "s"
  }

  /** Institution and author ids keep their case; every other kind is lowercased. */
  predicate Lowercased(k: EntityKind) {
    !(k == Institution || k == Author)
  }

  /** The tool name the model uses to request a lookup of each kind. */
  function ToolName(k: EntityKind): string {
    "get_" + Noun(k) + "_id"
  }

  /** The kind a tool name asks for, if any: the source's `elif` chain. */
  function ToolKind(name: string): (k: Option<EntityKind>)
    ensures k.Some? ==> ToolName(k.value) == name
  {
    if name == "get_institution_id" then Some(Institution)
    else if name == "get_author_id" then Some(Author)
    else if name == "get_keyword_id" then Some(Keyword)
    else if name == "get_source_id" then Some(Source)
    else if name == "get_funder_id" then Some(Funder)
    else if name == "get_publisher_id" then Some(Publisher)
    else if name == "get_topic_id" then Some(Topic)
    else None
  }

  /** Every kind's tool name is recognised as that kind, so the dispatch misses none. */
  lemma ToolKindComplete(k: EntityKind)
    ensures ToolKind(ToolName(k)) == Some(k)
  {
    match k
    case Institution =>
      assert ToolName(k) == "get_institution_id";
    case Author =>
      assert ToolName(k) == "get_author_id";
    case Keyword =>
      assert ToolName(k) == "get_keyword_id";
    case Source =>
      assert ToolName(k) == "get_source_id";
    case Funder =>
      assert ToolName(k) == "get_funder_id";
    case Publisher =>
      assert ToolName(k) == "get_publisher_id";
    case Topic =>
      assert ToolName(k) == "get_topic_id";
  }

  /** The argument the model passes the entity's name in. */
  function ArgumentKey(k: EntityKind): string {
    match k
    case Institution => "institution_name"
    case Author => "author_name"
    case _ => "search_name"
  }

  /** The filter columns a resolved id of this kind is written under, in order. */
  function ColumnKeys(k: EntityKind): seq<string> {
    match k
    case Institution => ["authorships.institutions.id", "institutions.id"]
    case Author => ["authorships.authors.id", "authors.id"]
    case Keyword => ["keywords.id"]
    case Source => ["primary_location.source.id"]
    case Funder => ["grants.funder"]
    case Publisher => ["primary_location.source.publisher_lineage"]
    case Topic => ["primary_topic.id"]
  }

  /**
   * The search endpoint's answer: the HTTP status, `meta.count`, and the
   * ids of the results in order. A successful answer with a positive count
   * lists at least one result.
   */
  datatype RawResponse = RawResponse(status: int, count: int, resultIds: seq<string>)

  type SearchResponse = r: RawResponse | r.status != 200 || r.count <= 0 || |r.resultIds| > 0
    witness RawResponse(404, 0, [])

  /** A response that names an entity: status 200 and a positive count. */
  predicate Found(r: SearchResponse) {
    r.status == 200 && r.count > 0
  }

  /**
   * `get_<kind>_id`: the last path segment of the first result's id,
   * lowercased except for institutions and authors, or "<kind> not found".
   */
  function EntityId(k: EntityKind, r: SearchResponse): (id: string)
    ensures !Found(r) ==> id == Noun(k) + " not found"
    ensures Found(r) ==> '/' !in id && |id| == |LastSegment(r.resultIds[0])|
    ensures Found(r) && !Lowercased(k) ==> id == LastSegment(r.resultIds[0])
    ensures Found(r) && Lowercased(k) ==> forall i :: 0 <= i < |id| ==> !('A' <= id[i] <= 'Z')
    ensures Found(r) && Lowercased(k) ==> id == Lower(LastSegment(r.resultIds[0]))
  {
    if Found(r) then
      var segment := LastSegment(r.resultIds[0]);
      if Lowercased(k) then
        LowerKeepsSlashFree(segment);
        Lower(segment)
      else segment
    else Noun(k) + " not found"
  }

  /** Lowercasing never introduces a slash. */
  lemma LowerKeepsSlashFree(s: string)
    requires '/' !in s
    ensures '/' !in Lower(s)
  {
    forall i | 0 <= i < |s| ensures Lower(s)[i] != '/' {
      assert s[i] != '/';
    }
  }

  /**
   * A found institution or author yields exactly the final component of
   * the first result's URL; the other kinds yield it lowercased.
   */
  lemma EntityIdOfUrl(k: EntityKind, r: SearchResponse, prefix: string, x: string)
    requires Found(r) && r.resultIds[0] == prefix + "/" + x && '/' !in x
    ensures EntityId(k, r) == if Lowercased(k) then Lower(x) else x
  {
    LastSegmentOfPath(prefix, x);
  }

  /** One tool call: the function name and its parsed arguments. */
  datatype ToolCall = ToolCall(name: string, arguments: map<string, string>)

  /** The entity name a call carries: `arguments.get(key)`, which may be absent. */
  function RawName(call: ToolCall, k: EntityKind): Option<string> {
    if ArgumentKey(k) in call.arguments then Some(call.arguments[ArgumentKey(k)]) else None
  }

  /**
   * One entry of the result: the raw name under `raw_<argument key>`,
   * then each column key with its "<kinds>/<id>" path.
   */
  datatype Binding = Binding(rawKey: string, raw: Option<string>, paths: seq<(string, string)>)

  /** A call's kind is recognised. */
  predicate Recognised(call: ToolCall) {
    ToolKind(call.name).Some?
  }

  /** The binding a recognised call produces, given the search oracle. */
  function Bind(call: ToolCall, search: (EntityKind, Option<string>) -> SearchResponse): (b: Binding)
    requires Recognised(call)
    ensures b.rawKey == "raw_" + ArgumentKey(ToolKind(call.name).value)
    ensures |b.paths| == |ColumnKeys(ToolKind(call.name).value)|
    ensures forall i :: 0 <= i < |b.paths| ==>
      b.paths[i].0 == ColumnKeys(ToolKind(call.name).value)[i] &&
      b.paths[i].1 == b.paths[0].1
  {
    var k := ToolKind(call.name).value;
    var raw := RawName(call, k);
    var path := Plural(k) + "/" + EntityId(k, search(k, raw));
    Binding("raw_" + ArgumentKey(k), raw, seq(|ColumnKeys(k)|, i requires 0 <= i < |ColumnKeys(k)| => (ColumnKeys(k)[i], path)))
  }

  /**
   * Every path of a binding is "<kinds>/" followed by the id the search
   * resolved for the call's name; institutions and authors carry two
   * columns, every other kind one.
   */
  lemma BindPaths(call: ToolCall, search: (EntityKind, Option<string>) -> SearchResponse)
    requires Recognised(call)
    ensures var k := ToolKind(call.name).value;
      var b := Bind(call, search);
      b.raw == RawName(call, k) &&
      (|b.paths| == 2 <==> (k == Institution || k == Author)) &&
      (|b.paths| == 1 <==> !(k == Institution || k == Author)) &&
      forall i :: 0 <= i < |b.paths| ==> b.paths[i].1 == Plural(k) + "/" + EntityId(k, search(k, RawName(call, k)))
  {
  }

  /** A failed lookup embeds the sentinel, e.g. "institutions/institution not found". */
  lemma NotFoundPath(call: ToolCall, search: (EntityKind, Option<string>) -> SearchResponse)
    requires Recognised(call)
    requires !Found(search(ToolKind(call.name).value, RawName(call, ToolKind(call.name).value)))
    ensures var k := ToolKind(call.name).value;
      forall i :: 0 <= i < |Bind(call, search).paths| ==>
        Bind(call, search).paths[i].1 == Plural(k) + "/" + Noun(k) + " not found"
  {
    BindPaths(call, search);
  }

  /** The specification of the builder: one binding per recognised call, in call order. */
  ghost function Bindings(calls: seq<ToolCall>, search: (EntityKind, Option<string>) -> SearchResponse): (bs: seq<Binding>)
    ensures |bs| == |Filter(calls, Recognised)|
  {
    var known := Filter(calls, Recognised);
    seq(|known|, i requires 0 <= i < |known| => Bind(known[i], search))
  }

  /** One more call adds its binding exactly when its name is recognised. */
  lemma BindingsSnoc(calls: seq<ToolCall>, j: nat, search: (EntityKind, Option<string>) -> SearchResponse)
    requires j < |calls|
    ensures Recognised(calls[j]) ==> Bindings(calls[..j + 1], search) == Bindings(calls[..j], search) + [Bind(calls[j], search)]
    ensures !Recognised(calls[j]) ==> Bindings(calls[..j + 1], search) == Bindings(calls[..j], search)
  {
    assert calls[..j + 1][..j] == calls[..j];
    if Recognised(calls[j]) {
      assert Filter(calls[..j + 1], Recognised) == Filter(calls[..j], Recognised) + [calls[j]];
    } else {
      assert Filter(calls[..j + 1], Recognised) == Filter(calls[..j], Recognised) + [];
    }
  }

  /**
   * `use_openai_output_to_get_ids`: walks the tool calls in order and
   * appends a binding for each recognised one; other names are skipped.
   */
  method UseOpenaiOutputToGetIds(calls: seq<ToolCall>, search: (EntityKind, Option<string>) -> SearchResponse)
    returns (data: seq<Binding>)
    ensures data == Bindings(calls, search)
  {
    data := [];
    for j := 0 to |calls|
      invariant data == Bindings(calls[..j], search)
    {
      BindingsSnoc(calls, j, search);
      var call := calls[j];
      if Recognised(call) {
        data := data + [Bind(call, search)];
      }
    }
    assert calls[..|calls|] == calls;
  }

  /**
   * The result has at most one binding per call, exactly one per call when
   * every name is recognised, and a call with an unknown name adds nothing.
   */
  lemma BindingsCount(calls: seq<ToolCall>, search: (EntityKind, Option<string>) -> SearchResponse)
    ensures |Bindings(calls, search)| <= |calls|
    ensures (forall i :: 0 <= i < |calls| ==> Recognised(calls[i])) ==> |Bindings(calls, search)| == |calls|
  {
    if forall i :: 0 <= i < |calls| ==> Recognised(calls[i]) {
      FilterKeepsAll(calls, Recognised);
    }
  }

  /** Appending a call with an unknown name leaves the bindings as they were. */
  lemma UnknownCallSkipped(calls: seq<ToolCall>, call: ToolCall, search: (EntityKind, Option<string>) -> SearchResponse)
    requires !Recognised(call)
    ensures Bindings(calls + [call], search) == Bindings(calls, search)
  {
    assert (calls + [call])[..|calls|] == calls;
  }

  /** The bindings follow the recognised calls in order. */
  lemma BindingsInCallOrder(calls: seq<ToolCall>, search: (EntityKind, Option<string>) -> SearchResponse)
    ensures SubsequenceOf(Filter(calls, Recognised), calls)
    ensures forall i :: 0 <= i < |Bindings(calls, search)| ==>
      Recognised(Filter(calls, Recognised)[i]) &&
      Bindings(calls, search)[i] == Bind(Filter(calls, Recognised)[i], search)
  {
    FilterSublist(calls, Recognised);
  }
}
