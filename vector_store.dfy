/**
 * `VectorStoreService`: the document collection behind the PQRS assistant.
 *
 * The collection (a Chroma collection in the running system) is the field
 * `entries`, one `Entry` per stored chunk, in insertion order. The embedding
 * model and the collection's nearest-neighbour query are external: they are
 * the function fields `embed` and `query`, and what the query is assumed to
 * promise is the predicate `HonoursQuery`, which the lemmas about search take
 * as a hypothesis. A call that raises in the running system is an explicit
 * fault argument here (`AddFault`, or a `bool` naming the call that fails).
 */
module VectorStore {
  import opened Text
  import opened Models
  import opened Chunker

  type Embedding = seq<real>

  /** One stored chunk: its id, embedding, text and metadata. */
  datatype Entry = Entry(id: string, embedding: Embedding, document: string, metadata: Metadata)

  /** A query to the collection: one embedding, how many results, an optional metadata filter. */
  datatype QueryRequest = QueryRequest(embedding: Embedding, nResults: int, where: Option<Metadata>)

  /** The collection's answer for the single query embedding: parallel lists of documents, metadata and distances. */
  datatype QueryReply = QueryReply(documents: seq<string>, metadatas: seq<Metadata>, distances: seq<real>)

  /** The collection's query: `None` when it raises. */
  type Querier = (seq<Entry>, QueryRequest) -> Option<QueryReply>

  /** One formatted search hit: `documento`, `metadata` and `similitud`. */
  datatype SearchResult = SearchResult(documento: string, metadata: Metadata, similitud: real)

  /** `get_collection_stats()`: `total_documentos` and `status`. */
  datatype CollectionStats = CollectionStats(totalDocumentos: int, status: string)

  /** Where `add_document` raises: nowhere, in the embedding call, or in the `add` of chunk `index`. */
  datatype AddFault = NoFault | EncodeFails | AddFailsAt(index: nat)

  // ---------------------------------------------------------------------
  // Building the entries of a document.
  // ---------------------------------------------------------------------

  /**
   * The id of chunk `i` of a document, `"{titulo}_{i}"`: the title, then an
   * underscore, then the decimal digits of `i` without a leading zero, so
   * that underscore is the last one.
   */
  function ChunkId(titulo: string, i: nat): (id: string)
    ensures |id| > |titulo| + 1 && id[..|titulo|] == titulo && id[|titulo|] == '_'
    ensures forall k :: |titulo| < k < |id| ==> IsDigit(id[k])
    ensures DigitsValue(id[|titulo| + 1..]) == i
    ensures id[|titulo| + 1] == '0' <==> i == 0
    ensures id[|titulo| + 1] == '0' ==> |id| == |titulo| + 2
  {
    var digits := NatToString(i);
    NatToStringRoundTrip(i);
    assert (titulo + "_" + digits)[|titulo| + 1..] == digits;
    var id := titulo + "_" + digits;
    assert forall k :: |titulo| < k < |id| ==> id[k] == digits[k - |titulo| - 1];
    id
  }

  /**
   * Chunk ids never collide: equal ids come from the same title and the
   * same chunk index, because the decimal suffix holds no underscore.
   */
  lemma ChunkIdsUnique(t1: string, i: nat, t2: string, j: nat)
    ensures ChunkId(t1, i) == ChunkId(t2, j) ==> t1 == t2 && i == j
  {
    var a, b := ChunkId(t1, i), ChunkId(t2, j);
    assert a == t1 + "_" + NatToString(i) && b == t2 + "_" + NatToString(j);
    if a == b {
      assert |t1| == |t2| by {
        assert !IsDigit('_');
      }
      assert t1 == a[..|t1|] == t2;
      assert NatToString(i) == a[|t1| + 1..] == NatToString(j);
      NatToStringInjective(i, j);
    }
  }

  /**
   * The metadata stored with chunk `i`: title, category value, chunk index and
   * creation date, with the document's own metadata spread over them, so a
   * user key wins over a built-in one of the same name.
   */
  function ChunkMetadata(doc: DocumentoBase, i: nat): (m: Metadata)
    ensures m.Keys == {"titulo", "categoria", "chunk_index", "fecha_creacion"} + doc.metadatos.Keys
    ensures forall k :: k in doc.metadatos ==> m[k] == doc.metadatos[k]
    ensures "titulo" !in doc.metadatos ==> m["titulo"] == Text(doc.titulo)
    ensures "categoria" !in doc.metadatos ==> m["categoria"] == Text(doc.categoria.Value())
    ensures "chunk_index" !in doc.metadatos ==> m["chunk_index"] == Int(i)
    ensures "fecha_creacion" !in doc.metadatos ==> m["fecha_creacion"] == Text(doc.fechaCreacion)
  {
    map["titulo" := Text(doc.titulo),
        "categoria" := Text(doc.categoria.Value()),
        "chunk_index" := Int(i),
        "fecha_creacion" := Text(doc.fechaCreacion)] + doc.metadatos
  }

  /** The entry stored for chunk `i` of `doc`. */
  function ChunkEntry(doc: DocumentoBase, chunks: seq<string>, embed: string -> Embedding, i: nat): Entry
    requires i < |chunks|
  {
    Entry(ChunkId(doc.titulo, i), embed(chunks[i]), chunks[i], ChunkMetadata(doc, i))
  }

  /** The entries `add_document` stores for `doc`, one per chunk, in chunk order. */
  function ChunkEntries(doc: DocumentoBase, chunks: seq<string>, embed: string -> Embedding): (es: seq<Entry>)
    ensures |es| == |chunks|
    ensures forall i :: 0 <= i < |es| ==> es[i] == ChunkEntry(doc, chunks, embed, i)
  {
    seq(|chunks|, i requires 0 <= i < |chunks| => ChunkEntry(doc, chunks, embed, i))
  }

  /**
   * The entries of one document carry pairwise distinct ids, and each holds
   * its chunk's text.
   */
  lemma ChunkEntriesWellFormed(doc: DocumentoBase, chunks: seq<string>, embed: string -> Embedding)
    ensures var es := ChunkEntries(doc, chunks, embed);
            && (forall i, j :: 0 <= i < j < |es| ==> es[i].id != es[j].id)
            && (forall i :: 0 <= i < |es| ==> es[i].document == chunks[i])
  {
    var es := ChunkEntries(doc, chunks, embed);
    forall i, j | 0 <= i < j < |es| ensures es[i].id != es[j].id {
      ChunkIdsUnique(doc.titulo, i, doc.titulo, j);
    }
  }

  /** Appending the next element of `all` extends the prefix taken so far by one. */
  lemma AppendNext<T>(prefix: seq<T>, all: seq<T>, i: nat)
    requires i < |all|
    ensures prefix + all[..i + 1] == (prefix + all[..i]) + [all[i]]
  {
    assert all[..i + 1] == all[..i] + [all[i]];
  }

  /** How many chunks `add_document` stores before returning, given where it fails. */
  function Added(fault: AddFault, n: nat): (k: nat)
    ensures k <= n
    ensures fault == NoFault ==> k == n
    ensures fault == EncodeFails ==> k == 0
    ensures fault.AddFailsAt? ==> k == if fault.index < n then fault.index else n
  {
    match fault
    case NoFault => n
    case EncodeFails => 0
    case AddFailsAt(j) => if j < n then j else n
  }

  // ---------------------------------------------------------------------
  // Search.
  // ---------------------------------------------------------------------

  /** The `where` argument of the query: no filter without a category, else the category's value. */
  function WhereFilter(categoria: Option<CategoriaPQRS>): (w: Option<Metadata>)
    ensures w.Some? <==> categoria.Some?
    ensures categoria.Some? ==> w.value == map["categoria" := Text(categoria.value.Value())]
  {
    match categoria
    case None => None
    case Some(c) => Some(map["categoria" := Text(c.Value())])
  }

  /** A metadata record passes a filter when it holds every filtered key with the filtered value. */
  predicate Matches(m: Metadata, where: Option<Metadata>) {
    where.None? || forall k :: k in where.value ==> k in m && m[k] == where.value[k]
  }

  /** A document and its metadata are stored together in the collection. */
  ghost predicate Stored(es: seq<Entry>, d: string, m: Metadata) {
    exists e :: e in es && e.document == d && e.metadata == m
  }

  /** A reply is one the collection may give: at most `nResults` hits, all stored and all passing the filter. */
  ghost predicate Answers(es: seq<Entry>, req: QueryRequest, rep: QueryReply) {
    && |rep.documents| <= req.nResults
    && (forall i :: 0 <= i < |rep.metadatas| ==> Matches(rep.metadatas[i], req.where))
    && (forall i :: 0 <= i < |rep.documents| && i < |rep.metadatas| ==> Stored(es, rep.documents[i], rep.metadatas[i]))
  }

  /** What the collection's query is assumed to promise whenever it does not raise. */
  ghost predicate HonoursQuery(query: Querier) {
    forall es, req :: query(es, req).Some? ==> Answers(es, req, query(es, req).value)
  }

  /** The formatted hit for position `i` of a reply. */
  function ResultAt(rep: QueryReply, i: nat): SearchResult
    requires i < |rep.documents| && i < |rep.metadatas| && i < |rep.distances|
  {
    SearchResult(rep.documents[i], rep.metadatas[i], 1.0 - rep.distances[i])
  }

  /** Whether every document of a reply has a metadata record and a distance (else indexing raises). */
  predicate Aligned(rep: QueryReply) {
    |rep.metadatas| >= |rep.documents| && |rep.distances| >= |rep.documents|
  }

  /**
   * The formatting loop of `search_similar`: one hit per returned document,
   * in reply order, with similarity `1 - distance`; when a metadata record or
   * a distance is missing the indexing raises and the search returns nothing.
   */
  function Formatted(rep: QueryReply): (rs: seq<SearchResult>)
    ensures Aligned(rep) ==> |rs| == |rep.documents|
    ensures !Aligned(rep) ==> rs == []
    ensures forall i :: 0 <= i < |rs| ==>
              && rs[i].documento == rep.documents[i]
              && rs[i].metadata == rep.metadatas[i]
              && rs[i].similitud == 1.0 - rep.distances[i]
  {
    if Aligned(rep) then seq(|rep.documents|, i requires 0 <= i < |rep.documents| => ResultAt(rep, i)) else []
  }

  /** `search_similar(text, n, categoria)` on a collection holding `es`, as a value. */
  function Search(query: Querier, embed: string -> Embedding, es: seq<Entry>, text: string, n: int,
                  categoria: Option<CategoriaPQRS>, encodeFails: bool): (rs: seq<SearchResult>)
    ensures encodeFails ==> rs == []
    ensures !encodeFails && query(es, QueryRequest(embed(text), n, WhereFilter(categoria))).None? ==> rs == []
  {
    if encodeFails then []
    else
      match query(es, QueryRequest(embed(text), n, WhereFilter(categoria)))
      case None => []
      case Some(rep) => Formatted(rep)
  }

  /**
   * When the collection keeps its promise, a search returns at most `n` hits,
   * each of them stored in the collection, and a search filtered by a category
   * returns only chunks of that category.
   */
  lemma SearchHitsAreStoredAndFiltered(query: Querier, embed: string -> Embedding, es: seq<Entry>, text: string,
                                       n: int, categoria: Option<CategoriaPQRS>, encodeFails: bool)
    requires HonoursQuery(query)
    ensures var rs := Search(query, embed, es, text, n, categoria, encodeFails);
            && |rs| <= (if n < 0 then 0 else n)
            && (forall r :: r in rs ==> Stored(es, r.documento, r.metadata))
            && (categoria.Some? ==>
                  forall r :: r in rs ==> "categoria" in r.metadata && r.metadata["categoria"] == Text(categoria.value.Value()))
  {
    var rs := Search(query, embed, es, text, n, categoria, encodeFails);
    if !encodeFails {
      var req := QueryRequest(embed(text), n, WhereFilter(categoria));
      if query(es, req).Some? {
        var rep := query(es, req).value;
        assert Answers(es, req, rep);
        forall r | r in rs
          ensures Stored(es, r.documento, r.metadata)
          ensures categoria.Some? ==> "categoria" in r.metadata && r.metadata["categoria"] == Text(categoria.value.Value())
        {
          var i :| 0 <= i < |rs| && rs[i] == r;
          assert Matches(rep.metadatas[i], req.where);
        }
      }
    }
  }

  /** Searching an empty collection returns nothing, whatever the query. */
  lemma SearchOfEmptyCollection(query: Querier, embed: string -> Embedding, text: string, n: int,
                                categoria: Option<CategoriaPQRS>, encodeFails: bool)
    requires HonoursQuery(query)
    ensures Search(query, embed, [], text, n, categoria, encodeFails) == []
  {
    var rs := Search(query, embed, [], text, n, categoria, encodeFails);
    SearchHitsAreStoredAndFiltered(query, embed, [], text, n, categoria, encodeFails);
    assert 0 < |rs| ==> !Stored([], rs[0].documento, rs[0].metadata);
  }

  // ---------------------------------------------------------------------
  // Clearing.
  // ---------------------------------------------------------------------

  /** The ids of the stored entries, as `collection.get()` lists them. */
  function Ids(es: seq<Entry>): (ids: seq<string>)
    ensures |ids| == |es|
    ensures forall i :: 0 <= i < |es| ==> ids[i] == es[i].id
  {
    seq(|es|, i requires 0 <= i < |es| => es[i].id)
  }

  /** `collection.delete(ids=...)`: drops every entry whose id is listed and keeps the rest in order. */
  function DeleteIds(es: seq<Entry>, ids: seq<string>): (rest: seq<Entry>)
    ensures forall e :: e in rest <==> e in es && e.id !in ids
    ensures |rest| <= |es|
  {
    if es == [] then []
    else if es[0].id in ids then DeleteIds(es[1..], ids)
    else [es[0]] + DeleteIds(es[1..], ids)
  }

  /** Deletion works entry by entry, so the entries kept stay in their original order. */
  lemma {:induction false} DeleteIdsDistributes(a: seq<Entry>, b: seq<Entry>, ids: seq<string>)
    ensures DeleteIds(a + b, ids) == DeleteIds(a, ids) + DeleteIds(b, ids)
    decreases |a|
  {
    if a != [] {
      assert (a + b)[0] == a[0];
      assert (a + b)[1..] == a[1..] + b;
      DeleteIdsDistributes(a[1..], b, ids);
    } else {
      assert a + b == b;
    }
  }

  /** Deleting ids none of the entries carries leaves the collection as it was. */
  lemma {:induction false} DeletingOtherIdsKeepsAll(es: seq<Entry>, ids: seq<string>)
    requires forall k :: 0 <= k < |es| ==> es[k].id !in ids
    ensures DeleteIds(es, ids) == es
    decreases |es|
  {
    if es != [] {
      assert es[0].id !in ids;
      DeletingOtherIdsKeepsAll(es[1..], ids);
      assert [es[0]] + es[1..] == es;
    }
  }

  /** Deleting a list of ids that covers every entry leaves nothing. */
  lemma {:induction false} DeletingCoveredIdsEmpties(es: seq<Entry>, ids: seq<string>)
    requires forall k :: 0 <= k < |es| ==> es[k].id in ids
    ensures DeleteIds(es, ids) == []
    decreases |es|
  {
    if es != [] {
      assert es[0].id in ids;
      DeletingCoveredIdsEmpties(es[1..], ids);
    }
  }

  /** Deleting every listed id of a collection empties it. */
  lemma DeletingAllIdsEmpties(es: seq<Entry>)
    ensures DeleteIds(es, Ids(es)) == []
  {
    DeletingCoveredIdsEmpties(es, Ids(es));
  }

  /** The status `get_collection_stats` reports for a count. */
  function StatusOf(count: int): (s: string)
    ensures s == "activo" <==> count > 0
    ensures s == "vac\U{ED}o" <==> count <= 0
  {
    if count > 0 then "activo" else "vac\U{ED}o"
  }

  class VectorStoreService {
    /** The collection's contents. */
    var entries: seq<Entry>
    const splitter: TextSplitter
    /** The embedding model. */
    const embed: string -> Embedding
    /** The collection's query. */
    const query: Querier

    /** The splitter is built with chunk size 1000 and overlap 200. */
    predicate Valid() {
      splitter.Config() == Production
    }

    /**
     * Opens the persistent collection, which may already hold entries from
     * earlier runs, and builds the splitter.
     */
    constructor (stored: seq<Entry>, embed: string -> Embedding, query: Querier)
      ensures Valid()
      ensures entries == stored && this.embed == embed && this.query == query
    {
      entries := stored;
      splitter := new TextSplitter(1000, 200);
      this.embed := embed;
      this.query := query;
    }

    /**
     * `add_document`: splits the body, embeds the chunks and adds one entry per
     * chunk. It returns `true` only when every `add` succeeded; on a failure it
     * returns `false`, and the chunks added before it stay in the collection.
     */
    method AddDocument(doc: DocumentoBase, fault: AddFault) returns (ok: bool)
      requires Valid()
      requires SplitTerminates(doc.contenido, Production)
      modifies this
      ensures var chunks := Split(doc.contenido, Production);
              var k := Added(fault, |chunks|);
              && entries == old(entries) + ChunkEntries(doc, chunks, embed)[..k]
              && (ok <==> fault != EncodeFails && k == |chunks|)
    {
      var chunks := splitter.SplitText(doc.contenido);
      ghost var all := ChunkEntries(doc, chunks, embed);
      if fault == EncodeFails {
        assert all[..0] == [];
        return false;
      }
      var i := 0;
      while i < |chunks|
        invariant 0 <= i <= |chunks|
        invariant fault.AddFailsAt? ==> i <= fault.index
        invariant entries == old(entries) + all[..i]
      {
        if fault == AddFailsAt(i) {
          return false;
        }
        var entry := Entry(ChunkId(doc.titulo, i), embed(chunks[i]), chunks[i], ChunkMetadata(doc, i));
        assert entry == all[i];
        entries := entries + [entry];
        AppendNext(old(entries), all, i);
        i := i + 1;
      }
      assert all[..i] == all;
      return true;
    }

    /**
     * `search_similar`: embeds the text, queries the collection with the
     * category filter and formats the hits; any failure gives no hits.
     */
    method SearchSimilar(text: string, n: int, categoria: Option<CategoriaPQRS>, encodeFails: bool)
      returns (results: seq<SearchResult>)
      ensures results == Search(query, embed, entries, text, n, categoria, encodeFails)
    {
      if encodeFails {
        return [];
      }
      var where := WhereFilter(categoria);
      var reply := query(entries, QueryRequest(embed(text), n, where));
      if reply.None? {
        return [];
      }
      var rep := reply.value;
      results := [];
      var i := 0;
      while i < |rep.documents|
        invariant 0 <= i <= |rep.documents|
        invariant i <= |rep.metadatas| && i <= |rep.distances|
        invariant |results| == i
        invariant forall j :: 0 <= j < i ==> results[j] == ResultAt(rep, j)
      {
        if i >= |rep.metadatas| || i >= |rep.distances| {
          return [];
        }
        results := results + [SearchResult(rep.documents[i], rep.metadatas[i], 1.0 - rep.distances[i])];
        i := i + 1;
      }
    }

    /** `get_collection_stats`: the entry count and its status, or `error` when counting raises. */
    function Stats(countFails: bool): (s: CollectionStats)
      reads this
      ensures countFails ==> s == CollectionStats(0, "error")
      ensures !countFails ==> s.totalDocumentos == |entries| && s.status == StatusOf(|entries|)
    {
      if countFails then CollectionStats(0, "error") else CollectionStats(|entries|, StatusOf(|entries|))
    }

    /**
     * `clear_collection`: lists every id and deletes them, skipping the delete
     * when there are none. It succeeds unless listing or deleting raises, and
     * afterwards the collection is empty and reports `vacío`.
     */
    method ClearCollection(getFails: bool, deleteFails: bool) returns (ok: bool)
      modifies this
      ensures ok <==> !getFails && (old(entries) == [] || !deleteFails)
      ensures ok ==> entries == [] && Stats(false).status == StatusOf(0)
      ensures !ok ==> entries == old(entries)
    {
      if getFails {
        return false;
      }
      var ids := Ids(entries);
      if |ids| > 0 {
        if deleteFails {
          return false;
        }
        DeletingAllIdsEmpties(entries);
        entries := DeleteIds(entries, ids);
      }
      return true;
    }
  }
}
