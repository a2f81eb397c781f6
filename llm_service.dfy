/**
 * `LLMService`: turns retrieved chunks into the answer to a PQRS or a chat
 * message.
 *
 * The language model is external: each call to it is a parameter holding the
 * text it returned, or `None` when the call raised (or returned no text).
 * The document search is a parameter too, a `Searcher` from the call the
 * service makes to the result list it gets back; `StoreSearcher` instantiates
 * it with the vector store's own `Search`. The clock readings (`now`, the
 * whole seconds used in the request id, and `elapsed`) are parameters.
 */
module LlmService {
  import opened Text
  import opened Models
  import opened VectorStore

  // ---------------------------------------------------------------------
  // Classification.
  // ---------------------------------------------------------------------

  /**
   * `classify_pqrs`, after the model call: the reply is stripped and
   * lower-cased and looked up among the category values; an unknown label,
   * or a call that raised, gives `OTROS`.
   */
  function ClassifyReply(reply: Option<string>): (c: CategoriaPQRS)
    ensures reply.None? ==> c == Otros
    ensures reply.Some? ==> forall k: CategoriaPQRS :: k.Value() == Lower(Strip(reply.value)) ==> c == k
    ensures reply.Some? && c != Otros ==> c.Value() == Lower(Strip(reply.value))
  {
    match reply
    case None => Otros
    case Some(text) =>
      match CategoriaFromValue(Lower(Strip(text)))
      case Some(k) => k
      case None => Otros
  }

  /**
   * Every category's own value is recognised, whatever whitespace surrounds it:
   * the classification map covers all eight categories.
   */
  lemma ClassifierRecognisesEveryLabel(c: CategoriaPQRS, left: string, right: string)
    requires AllSpace(left) && AllSpace(right)
    ensures ClassifyReply(Some(left + c.Value() + right)) == c
  {
    var v := c.Value();
    CategoriaValuesAreSnakeWords(c);
    SnakeWordIsNormal(v);
    StripPadded(left, v, right);
  }

  /** A snake_case word neither starts nor ends with a blank and has no upper-case letter. */
  lemma SnakeWordIsNormal(v: string)
    requires SnakeWord(v)
    ensures v != [] && !IsSpace(v[0]) && !IsSpace(v[|v| - 1])
    ensures Lower(v) == v
  {
  }

  /** The category a PQRS is answered under: the request's own one when given, else the classifier's. */
  function DetectCategory(categoria: Option<CategoriaPQRS>, classifierReply: Option<string>): (c: CategoriaPQRS)
    ensures categoria.Some? ==> c == categoria.value
    ensures categoria.None? ==> c == ClassifyReply(classifierReply)
  {
    match categoria
    case Some(k) => k
    case None => ClassifyReply(classifierReply)
  }

  // ---------------------------------------------------------------------
  // Searching.
  // ---------------------------------------------------------------------

  /** A call to `search_similar`: query text, number of results, category filter. */
  datatype SearchCall = SearchCall(query: string, nResults: int, categoria: Option<CategoriaPQRS>)

  type Searcher = SearchCall -> seq<SearchResult>

  /** The search a PQRS triggers: title and description, five results, filtered by the detected category. */
  function PqrsSearch(pqrs: PQRSRequest, categoria: CategoriaPQRS): (call: SearchCall)
    ensures call.query == pqrs.titulo + " " + pqrs.descripcion
    ensures call.nResults == 5 && call.categoria == Some(categoria)
  {
    SearchCall(pqrs.titulo + " " + pqrs.descripcion, 5, Some(categoria))
  }

  /** The search a chat message triggers: the message itself, three results, no filter. */
  function ChatSearch(mensaje: string): (call: SearchCall)
    ensures call.query == mensaje && call.nResults == 3 && call.categoria.None?
  {
    SearchCall(mensaje, 3, None)
  }

  /** The service's search, answered by a vector store holding `es` whose embedding call succeeds. */
  function StoreSearcher(query: Querier, embed: string -> Embedding, es: seq<Entry>): Searcher {
    (call: SearchCall) => Search(query, embed, es, call.query, call.nResults, call.categoria, false)
  }

  // ---------------------------------------------------------------------
  // Confidence.
  // ---------------------------------------------------------------------

  /** `sum(xs)`, adding from the left. */
  function Sum(xs: seq<real>): real {
    if xs == [] then 0.0 else Sum(xs[..|xs| - 1]) + xs[|xs| - 1]
  }

  /** A sum of values between `lo` and `hi` lies between `|xs| * lo` and `|xs| * hi`. */
  lemma {:induction false} SumBounds(xs: seq<real>, lo: real, hi: real)
    requires forall i :: 0 <= i < |xs| ==> lo <= xs[i] <= hi
    ensures (|xs| as real) * lo <= Sum(xs) <= (|xs| as real) * hi
    decreases |xs|
  {
    if xs != [] {
      var init := xs[..|xs| - 1];
      assert forall i :: 0 <= i < |init| ==> init[i] == xs[i];
      SumBounds(init, lo, hi);
      assert (|xs| as real) * lo == (|init| as real) * lo + lo;
      assert (|xs| as real) * hi == (|init| as real) * hi + hi;
    }
  }

  /** The similarity of each hit, in order. */
  function Similarities(docs: seq<SearchResult>): (sims: seq<real>)
    ensures |sims| == |docs|
    ensures forall i :: 0 <= i < |docs| ==> sims[i] == docs[i].similitud
  {
    seq(|docs|, i requires 0 <= i < |docs| => docs[i].similitud)
  }

  /** `sum(xs) / len(xs)`. */
  function Mean(xs: seq<real>): real
    requires xs != []
  {
    Sum(xs) / (|xs| as real)
  }

  /** The mean of values between `lo` and `hi` lies between them. */
  lemma MeanBetween(xs: seq<real>, lo: real, hi: real)
    requires xs != []
    requires forall i :: 0 <= i < |xs| ==> lo <= xs[i] <= hi
    ensures lo <= Mean(xs) <= hi
  {
    SumBounds(xs, lo, hi);
    var n := |xs| as real;
    assert Sum(xs) == Mean(xs) * n;
  }

  /** `max(0.3, min(0.95, x))`. */
  function Clamp(x: real): (r: real)
    ensures 0.3 <= r <= 0.95
    ensures x >= 0.95 ==> r == 0.95
    ensures x <= 0.3 ==> r == 0.3
    ensures 0.3 <= x <= 0.95 ==> r == x
  {
    if x < 0.3 then 0.3 else if x > 0.95 then 0.95 else x
  }

  /** The nearest whole number of hundredths to `x`, a tie going to the even one. */
  function Cents(x: real): (k: int)
    ensures x * 100.0 - 0.5 <= k as real <= x * 100.0 + 0.5
    ensures (k as real == x * 100.0 - 0.5 || k as real == x * 100.0 + 0.5) ==> k % 2 == 0
  {
    var y := x * 100.0;
    var f := y.Floor;
    var frac := y - f as real;
    if frac < 0.5 then f
    else if frac > 0.5 then f + 1
    else if f % 2 == 0 then f
    else f + 1
  }

  /** `round(x, 2)`, on exact reals. */
  function Round2(x: real): (r: real)
    ensures x - 0.005 <= r <= x + 0.005
  {
    Cents(x) as real / 100.0
  }

  /** Rounding keeps a value of [0.3, 0.95] inside that interval. */
  lemma Round2StaysInRange(x: real)
    requires 0.3 <= x <= 0.95
    ensures 0.3 <= Round2(x) <= 0.95
  {
    var k := Cents(x);
    assert 30 <= k <= 95;
  }

  /** A whole number of hundredths is left as it is by rounding. */
  lemma Round2OfHundredths(k: int)
    ensures Round2(k as real / 100.0) == k as real / 100.0
  {
    assert (k as real / 100.0) * 100.0 == k as real;
    var c := Cents(k as real / 100.0);
    assert c == k;
  }

  /**
   * `_calculate_confidence`: `0.0` without hits; otherwise the mean similarity
   * clamped into [0.3, 0.95] and rounded to two decimals. Every value it
   * returns is one a `PQRSResponse` accepts.
   */
  function Confidence(docs: seq<SearchResult>): (c: real)
    ensures docs == [] ==> c == 0.0
    ensures docs != [] ==> 0.3 <= c <= 0.95
    ensures docs != [] && Mean(Similarities(docs)) >= 0.95 ==> c == 0.95
    ensures docs != [] && Mean(Similarities(docs)) <= 0.3 ==> c == 0.3
    ensures docs != [] ==> Clamp(Mean(Similarities(docs))) - 0.005 <= c <= Clamp(Mean(Similarities(docs))) + 0.005
    ensures 0.0 <= c <= 1.0
  {
    if docs == [] then 0.0
    else
      var clamped := Clamp(Mean(Similarities(docs)));
      Round2StaysInRange(clamped);
      Round2OfHundredths(95);
      Round2OfHundredths(30);
      Round2(clamped)
  }

  // ---------------------------------------------------------------------
  // Recommendations.
  // ---------------------------------------------------------------------

  const KeepFilingNumber := "Conserve el n\U{FA}mero de radicaci\U{F3}n para futuras consultas"
  const FollowOnPortal := "Puede hacer seguimiento a trav\U{E9}s del portal web de la Alcald\U{ED}a"
  const EmergencyLine := "En caso de emergencia, contacte la l\U{ED}nea 123"
  const ReportPotholes := "Reporte huecos grandes que representen peligro inmediatamente"
  const SendPhotos := "Proporcione fotos si es posible para acelerar la evaluaci\U{F3}n"
  const ReportLamps := "Reporte luminarias da\U{F1}adas para mejorar la seguridad"
  const KeepAwayFromCables := "En caso de cables ca\U{ED}dos, mantenga distancia y reporte inmediatamente"
  const JoinCommunityDays := "Participe en jornadas comunitarias de mejoramiento"
  const ReportVandalism := "Reporte vandalismo para mantenimiento preventivo"

  /** The three recommendations every answer carries. */
  function BaseRecommendations(): (rs: seq<string>)
    ensures |rs| == 3
  {
    [KeepFilingNumber, FollowOnPortal, EmergencyLine]
  }

  /** The categories that add advice of their own. */
  predicate HasOwnAdvice(c: CategoriaPQRS) {
    c == ViasPavimentos || c == AlumbradoPublico || c == EspaciosPublicos
  }

  /** The category-specific advice: two items for roads, lighting and public spaces, none otherwise. */
  function CategoryRecommendations(c: CategoriaPQRS): (rs: seq<string>)
    ensures |rs| == if HasOwnAdvice(c) then 2 else 0
  {
    match c
    case ViasPavimentos => [ReportPotholes, SendPhotos]
    case AlumbradoPublico => [ReportLamps, KeepAwayFromCables]
    case EspaciosPublicos => [JoinCommunityDays, ReportVandalism]
    case _ => []
  }

  /**
   * `_generate_recommendations`: the base list first, then the category's own
   * advice, five items in all for roads, lighting and public spaces and three
   * for every other category.
   */
  function Recommendations(c: CategoriaPQRS): (rs: seq<string>)
    ensures |rs| >= 3 && rs[..3] == BaseRecommendations()
    ensures rs[3..] == CategoryRecommendations(c)
    ensures |rs| == if HasOwnAdvice(c) then 5 else 3
  {
    BaseRecommendations() + CategoryRecommendations(c)
  }

  // ---------------------------------------------------------------------
  // References and context.
  // ---------------------------------------------------------------------

  /** `str(v)` for a metadata value: the string itself, the decimal digits with their sign, or `True`/`False`. */
  function ScalarText(v: Scalar): (t: string)
    ensures v.Text? ==> t == v.s
    ensures v.Int? && v.i >= 0 ==> |t| >= 1 && (forall k :: 0 <= k < |t| ==> IsDigit(t[k])) && DigitsValue(t) == v.i
    ensures v.Int? && v.i >= 0 ==> (t[0] == '0' ==> |t| == 1)
    ensures v.Int? && v.i < 0 ==> |t| >= 2 && t[0] == '-' && (forall k :: 1 <= k < |t| ==> IsDigit(t[k])) && DigitsValue(t[1..]) == -v.i
    ensures v.Int? && v.i < 0 ==> t[1] != '0'
    ensures v.Bool? ==> t == (if v.b then "True" else "False")
  {
    match v
    case Text(s) => s
    case Int(i) =>
      if i < 0 then
        NatToStringRoundTrip(-i);
        var digits := NatToString(-i);
        assert ("-" + digits)[1..] == digits;
        "-" + digits
      else
        NatToStringRoundTrip(i);
        NatToString(i)
    case Bool(b) => if b then "True" else "False"
  }

  /** The context block of one hit, or `None` when its metadata has no `titulo` (a `KeyError`). */
  function ContextPart(doc: SearchResult): (p: Option<string>)
    ensures p.Some? <==> "titulo" in doc.metadata
    ensures p.Some? ==> p.value == "Documento: " + ScalarText(doc.metadata["titulo"]) + "\nContenido: " + doc.documento
  {
    if "titulo" in doc.metadata
    then Some("Documento: " + ScalarText(doc.metadata["titulo"]) + "\nContenido: " + doc.documento)
    else None
  }

  /** The context blocks of all hits, in retrieval order, or `None` when any hit lacks a title. */
  function ContextParts(docs: seq<SearchResult>): (ps: Option<seq<string>>)
    ensures ps.Some? <==> forall i :: 0 <= i < |docs| ==> "titulo" in docs[i].metadata
    ensures ps.Some? ==> |ps.value| == |docs| && forall i :: 0 <= i < |docs| ==> Some(ps.value[i]) == ContextPart(docs[i])
  {
    if forall i :: 0 <= i < |docs| ==> "titulo" in docs[i].metadata
    then Some(seq(|docs|, i requires 0 <= i < |docs| => ContextPart(docs[i]).value))
    else None
  }

  /**
   * The context handed to the model: the blocks joined by blank lines. It
   * exists exactly when every hit has a title, and then starts with the
   * first hit's block.
   */
  function Context(docs: seq<SearchResult>): (c: Option<string>)
    ensures c.Some? <==> forall i :: 0 <= i < |docs| ==> "titulo" in docs[i].metadata
    ensures docs == [] ==> c == Some("")
    ensures c.Some? && docs != [] ==> ContextPart(docs[0]).value <= c.value
  {
    match ContextParts(docs)
    case Some(ps) => Some(Join(ps, "\n\n"))
    case None => None
  }

  /** One more hit puts its block after all earlier ones, separated by a blank line. */
  lemma ContextKeepsRetrievalOrder(docs: seq<SearchResult>, doc: SearchResult)
    requires docs != []
    requires Context(docs).Some? && ContextPart(doc).Some?
    ensures Context(docs + [doc]) == Some(Context(docs).value + "\n\n" + ContextPart(doc).value)
  {
    var all := docs + [doc];
    var ps := ContextParts(docs).value;
    assert forall i :: 0 <= i < |all| ==> "titulo" in all[i].metadata by {
      forall i | 0 <= i < |all| ensures "titulo" in all[i].metadata {
        if i < |docs| { assert all[i] == docs[i]; }
      }
    }
    assert ContextParts(all).value == ps + [ContextPart(doc).value];
    JoinAppend(ps, ContextPart(doc).value, "\n\n");
  }

  /** The title of a hit, when it has one and it is a string. */
  function TitleOf(doc: SearchResult): Option<string> {
    if "titulo" in doc.metadata && doc.metadata["titulo"].Text?
    then Some(doc.metadata["titulo"].s) else None
  }

  /**
   * `documentos_referencia`: one title per hit, in retrieval order, repeats kept;
   * `None` when a hit has no title or one that is not a string, which the
   * response model rejects.
   */
  function References(docs: seq<SearchResult>): (refs: Option<seq<string>>)
    ensures refs.Some? <==> forall i :: 0 <= i < |docs| ==> TitleOf(docs[i]).Some?
    ensures refs.Some? ==> |refs.value| == |docs| && forall i :: 0 <= i < |docs| ==> Some(refs.value[i]) == TitleOf(docs[i])
  {
    if forall i :: 0 <= i < |docs| ==> TitleOf(docs[i]).Some?
    then Some(seq(|docs|, i requires 0 <= i < |docs| => TitleOf(docs[i]).value))
    else None
  }

  /**
   * When the references exist, so does the context, and the i-th context block
   * names the i-th reference: both list the same hits in the same order.
   */
  lemma ReferencesMatchContext(docs: seq<SearchResult>)
    requires References(docs).Some?
    ensures ContextParts(docs).Some?
    ensures forall i :: 0 <= i < |docs| ==>
              ContextParts(docs).value[i] == "Documento: " + References(docs).value[i] + "\nContenido: " + docs[i].documento
  {
    forall i | 0 <= i < |docs| ensures "titulo" in docs[i].metadata {
      assert TitleOf(docs[i]).Some?;
    }
  }

  // ---------------------------------------------------------------------
  // Answering a PQRS.
  // ---------------------------------------------------------------------

  const FallbackText := "Lo sentimos, hubo un error procesando su solicitud. Por favor contacte directamente a la Secretar\U{ED}a de Infraestructura."
  const ContactDirectly := "Contactar directamente a la Secretar\U{ED}a de Infraestructura"

  /** The answer given when anything goes wrong while answering a PQRS. */
  function FallbackResponse(now: nat, elapsed: real): (r: PQRSResponse)
    ensures r.Valid()
    ensures r.confianza == 0.0 && r.categoriaDetectada == Otros
    ensures r.documentosReferencia == [] && |r.recomendaciones| == 1
    ensures r.pqrsId == "PQRS_ERROR_" + NatToString(now) && r.tiempoRespuesta == elapsed
  {
    PQRSResponse(
      "PQRS_ERROR_" + NatToString(now),
      FallbackText,
      [],
      0.0,
      Otros,
      elapsed,
      [ContactDirectly])
  }

  /**
   * `generate_pqrs_response`: detect the category, search five chunks in it,
   * ask the model with their context, and assemble the answer; a missing or
   * non-string title among the hits, or a failed model call, gives the
   * fallback answer instead. The answer always satisfies the response model.
   */
  function GeneratePqrsResponse(pqrs: PQRSRequest, classifierReply: Option<string>, search: Searcher,
                                llmReply: Option<string>, now: nat, elapsed: real): (r: PQRSResponse)
    ensures r.Valid()
    ensures var categoria := DetectCategory(pqrs.categoria, classifierReply);
            var docs := search(PqrsSearch(pqrs, categoria));
            if References(docs).Some? && llmReply.Some? then
              && r.pqrsId == "PQRS_" + NatToString(now)
              && r.respuesta == Strip(llmReply.value)
              && r.documentosReferencia == References(docs).value
              && r.confianza == Confidence(docs)
              && r.categoriaDetectada == categoria
              && r.tiempoRespuesta == elapsed
              && r.recomendaciones == Recommendations(categoria)
            else r == FallbackResponse(now, elapsed)
  {
    var categoria := DetectCategory(pqrs.categoria, classifierReply);
    var docs := search(PqrsSearch(pqrs, categoria));
    match (Context(docs), References(docs), llmReply)
    case (Some(_), Some(refs), Some(text)) =>
      var built := NewPQRSResponse("PQRS_" + NatToString(now), Strip(text), refs, Confidence(docs),
                                   categoria, elapsed, Recommendations(categoria));
      if built.Some? then built.value else FallbackResponse(now, elapsed)
    case _ => FallbackResponse(now, elapsed)
  }

  /** Some entry of the collection carries title `t` under category value `categoria`. */
  ghost predicate StoredTitle(es: seq<Entry>, t: string, categoria: Scalar) {
    exists e :: e in es && "titulo" in e.metadata && e.metadata["titulo"] == Text(t)
                && "categoria" in e.metadata && e.metadata["categoria"] == categoria
  }

  /** The titles of hits that are stored chunks of one category are titles of stored chunks of that category. */
  lemma ReferencesOfStoredHits(es: seq<Entry>, docs: seq<SearchResult>, categoria: Scalar)
    requires References(docs).Some?
    requires forall d :: d in docs ==> Stored(es, d.documento, d.metadata)
    requires forall d :: d in docs ==> "categoria" in d.metadata && d.metadata["categoria"] == categoria
    ensures forall t :: t in References(docs).value ==> StoredTitle(es, t, categoria)
  {
    var refs := References(docs).value;
    forall t | t in refs ensures StoredTitle(es, t, categoria) {
      var i :| 0 <= i < |refs| && refs[i] == t;
      var d := docs[i];
      assert d in docs;
      var e :| e in es && e.document == d.documento && e.metadata == d.metadata;
      assert TitleOf(d) == Some(t);
    }
  }

  /**
   * Answered from the vector store, a PQRS cites at most five chunks, and every
   * cited title belongs to a chunk stored under the category it was answered in.
   */
  lemma ReferencesComeFromDetectedCategory(pqrs: PQRSRequest, classifierReply: Option<string>,
                                           query: Querier, embed: string -> Embedding, es: seq<Entry>,
                                           llmReply: Option<string>, now: nat, elapsed: real)
    requires HonoursQuery(query)
    ensures var r := GeneratePqrsResponse(pqrs, classifierReply, StoreSearcher(query, embed, es), llmReply, now, elapsed);
            && |r.documentosReferencia| <= 5
            && forall t :: t in r.documentosReferencia ==> StoredTitle(es, t, Text(r.categoriaDetectada.Value()))
  {
    var r := GeneratePqrsResponse(pqrs, classifierReply, StoreSearcher(query, embed, es), llmReply, now, elapsed);
    var categoria := DetectCategory(pqrs.categoria, classifierReply);
    var call := PqrsSearch(pqrs, categoria);
    var docs := Search(query, embed, es, call.query, 5, Some(categoria), false);
    assert StoreSearcher(query, embed, es)(call) == docs;
    SearchHitsAreStoredAndFiltered(query, embed, es, call.query, 5, Some(categoria), false);
    if References(docs).Some? && llmReply.Some? {
      ReferencesOfStoredHits(es, docs, Text(categoria.Value()));
    }
  }

  // ---------------------------------------------------------------------
  // Chat.
  // ---------------------------------------------------------------------

  /** The reply given when a chat message cannot be answered. */
  const ChatErrorMessage := "Lo siento, no puedo procesar tu consulta en este momento. Por favor contacta directamente a la Secretar\U{ED}a de Infraestructura."

  /**
   * `chat_response`: search three chunks for the message, build their context
   * and return the model's stripped reply; a hit without a title or a failed
   * model call gives the fixed apology instead.
   */
  function ChatResponse(mensaje: string, contexto: Option<string>, search: Searcher, llmReply: Option<string>)
    : (answer: string)
    ensures var docs := search(ChatSearch(mensaje));
            if Context(docs).Some? && llmReply.Some?
            then answer == Strip(llmReply.value)
            else answer == ChatErrorMessage
  {
    var docs := search(ChatSearch(mensaje));
    match (Context(docs), llmReply)
    case (Some(_), Some(text)) => Strip(text)
    case _ => ChatErrorMessage
  }

  /**
   * Answered from the vector store, the chat context is built from at most
   * three stored chunks of any category.
   */
  lemma ChatContextFromStoredChunks(mensaje: string, query: Querier, embed: string -> Embedding, es: seq<Entry>)
    requires HonoursQuery(query)
    ensures var docs := StoreSearcher(query, embed, es)(ChatSearch(mensaje));
            && |docs| <= 3
            && forall d :: d in docs ==> Stored(es, d.documento, d.metadata)
  {
    SearchHitsAreStoredAndFiltered(query, embed, es, mensaje, 3, None, false);
  }
}
