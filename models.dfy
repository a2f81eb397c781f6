/**
 * The request, response and document records of the PQRS service, with the
 * field constraints that pydantic enforces when one of them is built.
 */
module Models {

  datatype Option<+T> = None | Some(value: T)

  /** The four kinds of citizen request. */
  datatype TipoPQRS = Peticion | Queja | Reclamo | Sugerencia
  {
    function Value(): string {
      match this
      case Peticion => "peticion"
      case Queja => "queja"
      case Reclamo => "reclamo"
      case Sugerencia => "sugerencia"
    }
  }

  /** The closed set of infrastructure topics a request or document belongs to. */
  datatype CategoriaPQRS =
    | ViasPavimentos
    | AlumbradoPublico
    | EspaciosPublicos
    | PuentesObrasArte
    | DrenajesAlcantarillado
    | Senalizacion
    | MantenimientoGeneral
    | Otros
  {
    function Value(): string {
      match this
      case ViasPavimentos => "vias_pavimentos"
      case AlumbradoPublico => "alumbrado_publico"
      case EspaciosPublicos => "espacios_publicos"
      case PuentesObrasArte => "puentes_obras_arte"
      case DrenajesAlcantarillado => "drenajes_alcantarillado"
      case Senalizacion => "senalizacion"
      case MantenimientoGeneral => "mantenimiento_general"
      case Otros => "otros"
    }
  }

  /** The members of `TipoPQRS`, in declaration order, with pairwise distinct values. */
  function Tipos(): (ts: seq<TipoPQRS>)
    ensures |ts| == 4
    ensures forall i, j :: 0 <= i < j < |ts| ==> ts[i].Value() != ts[j].Value()
  {
    [Peticion, Queja, Reclamo, Sugerencia]
  }

  /** `Tipos()` lists every member: `TipoPQRS` has exactly four. */
  lemma EveryTipoListed(t: TipoPQRS)
    ensures t in Tipos()
  {
    var ts := Tipos();
    match t
    case Peticion => assert ts[0] == t;
    case Queja => assert ts[1] == t;
    case Reclamo => assert ts[2] == t;
    case Sugerencia => assert ts[3] == t;
  }

  /** The members of `CategoriaPQRS`, in declaration order, with pairwise distinct values. */
  function Categorias(): (cs: seq<CategoriaPQRS>)
    ensures |cs| == 8
    ensures forall i, j :: 0 <= i < j < |cs| ==> cs[i].Value() != cs[j].Value()
  {
    [ViasPavimentos, AlumbradoPublico, EspaciosPublicos, PuentesObrasArte,
     DrenajesAlcantarillado, Senalizacion, MantenimientoGeneral, Otros]
  }

  /** `Categorias()` lists every member: `CategoriaPQRS` has exactly eight. */
  lemma EveryCategoriaListed(c: CategoriaPQRS)
    ensures c in Categorias()
  {
    var cs := Categorias();
    match c
    case ViasPavimentos => assert cs[0] == c;
    case AlumbradoPublico => assert cs[1] == c;
    case EspaciosPublicos => assert cs[2] == c;
    case PuentesObrasArte => assert cs[3] == c;
    case DrenajesAlcantarillado => assert cs[4] == c;
    case Senalizacion => assert cs[5] == c;
    case MantenimientoGeneral => assert cs[6] == c;
    case Otros => assert cs[7] == c;
  }

  /** A non-empty snake_case word of lower-case ASCII letters. */
  predicate SnakeWord(v: string) {
    && |v| > 0 && 'a' <= v[0] <= 'z' && 'a' <= v[|v| - 1] <= 'z'
    && forall i :: 0 <= i < |v| ==> 'a' <= v[i] <= 'z' || v[i] == '_'
  }

  /** Every category value is a snake_case word, so it has no upper-case letter and no surrounding blank. */
  lemma CategoriaValuesAreSnakeWords(c: CategoriaPQRS)
    ensures SnakeWord(c.Value())
  {
    if c == ViasPavimentos || c == AlumbradoPublico || c == EspaciosPublicos || c == PuentesObrasArte {
      FirstValuesAreSnakeWords(c);
    } else {
      LastValuesAreSnakeWords(c);
    }
  }

  lemma FirstValuesAreSnakeWords(c: CategoriaPQRS)
    requires c == ViasPavimentos || c == AlumbradoPublico || c == EspaciosPublicos || c == PuentesObrasArte
    ensures SnakeWord(c.Value())
  {
  }

  lemma LastValuesAreSnakeWords(c: CategoriaPQRS)
    requires c == DrenajesAlcantarillado || c == Senalizacion || c == MantenimientoGeneral || c == Otros
    ensures SnakeWord(c.Value())
  {
  }

  /** `CategoriaPQRS(s)`: the member whose value is `s`, if there is one. */
  function CategoriaFromValue(s: string): (r: Option<CategoriaPQRS>)
    ensures r.Some? ==> r.value.Value() == s
    ensures forall c: CategoriaPQRS :: c.Value() == s ==> r == Some(c)
  {
    if s == "vias_pavimentos" then Some(ViasPavimentos)
    else if s == "alumbrado_publico" then Some(AlumbradoPublico)
    else if s == "espacios_publicos" then Some(EspaciosPublicos)
    else if s == "puentes_obras_arte" then Some(PuentesObrasArte)
    else if s == "drenajes_alcantarillado" then Some(DrenajesAlcantarillado)
    else if s == "senalizacion" then Some(Senalizacion)
    else if s == "mantenimiento_general" then Some(MantenimientoGeneral)
    else if s == "otros" then Some(Otros)
    else None
  }

  /** A metadata value as stored next to a chunk: a string, an integer or a boolean. */
  datatype Scalar = Text(s: string) | Int(i: int) | Bool(b: bool)

  type Metadata = map<string, Scalar>

  datatype PQRSRequest = PQRSRequest(
    tipo: TipoPQRS,
    categoria: Option<CategoriaPQRS>,
    titulo: string,
    descripcion: string,
    ubicacion: Option<string>,
    ciudadanoNombre: string,
    ciudadanoEmail: string,
    ciudadanoTelefono: Option<string>)
  {
    predicate Valid() {
      5 <= |titulo| <= 200 && |descripcion| >= 10
    }
  }

  datatype PQRSResponse = PQRSResponse(
    pqrsId: string,
    respuesta: string,
    documentosReferencia: seq<string>,
    confianza: real,
    categoriaDetectada: CategoriaPQRS,
    tiempoRespuesta: real,
    recomendaciones: seq<string>)
  {
    predicate Valid() {
      0.0 <= confianza <= 1.0
    }
  }

  /** A knowledge-base document; `fechaCreacion` is the ISO-8601 text of its creation time. */
  datatype DocumentoBase = DocumentoBase(
    titulo: string,
    contenido: string,
    categoria: CategoriaPQRS,
    fechaCreacion: string,
    metadatos: Metadata)

  datatype ChatMessage = ChatMessage(mensaje: string, contexto: Option<string>)
  {
    predicate Valid() {
      |mensaje| >= 1
    }
  }

  /** Building a `PQRSRequest`: rejected unless the title has 5 to 200 characters and the description at least 10. */
  function NewPQRSRequest(tipo: TipoPQRS, categoria: Option<CategoriaPQRS>, titulo: string, descripcion: string,
                          ubicacion: Option<string>, nombre: string, email: string, telefono: Option<string>)
    : (r: Option<PQRSRequest>)
    ensures r.Some? <==> 5 <= |titulo| <= 200 && |descripcion| >= 10
    ensures r.Some? ==> r.value.Valid() && r.value.titulo == titulo && r.value.descripcion == descripcion
                        && r.value.categoria == categoria && r.value.tipo == tipo
  {
    if 5 <= |titulo| <= 200 && |descripcion| >= 10
    then Some(PQRSRequest(tipo, categoria, titulo, descripcion, ubicacion, nombre, email, telefono))
    else None
  }

  /** Building a `PQRSResponse`: rejected unless `confianza` lies in [0, 1]; the lists are kept as given. */
  function NewPQRSResponse(pqrsId: string, respuesta: string, referencias: seq<string>, confianza: real,
                           categoria: CategoriaPQRS, tiempo: real, recomendaciones: seq<string>)
    : (r: Option<PQRSResponse>)
    ensures r.Some? <==> 0.0 <= confianza <= 1.0
    ensures r.Some? ==> r.value.Valid() && r.value.confianza == confianza
                        && r.value.documentosReferencia == referencias
                        && r.value.recomendaciones == recomendaciones
                        && r.value.categoriaDetectada == categoria
  {
    if 0.0 <= confianza <= 1.0
    then Some(PQRSResponse(pqrsId, respuesta, referencias, confianza, categoria, tiempo, recomendaciones))
    else None
  }

  /** Building a `PQRSResponse` without the two lists: both default to empty. */
  function NewPQRSResponseWithDefaults(pqrsId: string, respuesta: string, confianza: real,
                                       categoria: CategoriaPQRS, tiempo: real)
    : (r: Option<PQRSResponse>)
    ensures r.Some? <==> 0.0 <= confianza <= 1.0
    ensures r.Some? ==> r.value.documentosReferencia == [] && r.value.recomendaciones == []
  {
    NewPQRSResponse(pqrsId, respuesta, [], confianza, categoria, tiempo, [])
  }

  /** Building a `DocumentoBase` without metadata: `metadatos` defaults to the empty mapping. */
  function NewDocumento(titulo: string, contenido: string, categoria: CategoriaPQRS, fecha: string)
    : (d: DocumentoBase)
    ensures d.metadatos == map[]
    ensures d.titulo == titulo && d.contenido == contenido && d.categoria == categoria
  {
    DocumentoBase(titulo, contenido, categoria, fecha, map[])
  }

  /** Building a `ChatMessage`: rejected when the message is empty. */
  function NewChatMessage(mensaje: string, contexto: Option<string>): (r: Option<ChatMessage>)
    ensures r.Some? <==> |mensaje| >= 1
    ensures r.Some? ==> r.value.Valid() && r.value.mensaje == mensaje && r.value.contexto == contexto
  {
    if |mensaje| >= 1 then Some(ChatMessage(mensaje, contexto)) else None
  }
}
