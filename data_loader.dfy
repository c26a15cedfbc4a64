/**
 * The dashboard's data helpers (utils/data_loader.py): the offer filter
 * `filtrar_ofertas`, the catalog loader `load_cargos` with its shape detection
 * and `tipo` tagging, and the detail card `format_oferta_detalle`. A data
 * frame is the list of its records; its columns are the keys of any record.
 */
module DataLoader {
  import opened Wrappers
  import opened Json
  import opened Text
  import opened Cargos
  import Seqs
  import opened ValidarOfertas

  // ---------------------------------------------------------------
  // filtrar_ofertas
  // ---------------------------------------------------------------

  /**
   * The keyword arguments of `filtrar_ofertas`; None is an absent key. Dates
   * are timestamps, and a `finoferta` cell is a timestamp when it is a number.
   */
  datatype Filtros = Filtros(
    modalidad: Option<string>, distrito: Option<string>, areaincumbencia: Option<string>,
    estado: Option<string>, busqueda: Option<string>,
    fechaInicio: Option<real>, fechaFin: Option<real>)

  const SinFiltros: Filtros := Filtros(None, None, None, None, None, None, None)

  /** An equality filter applies when its value is truthy and not the "all" sentinel. */
  predicate Activo(v: Option<string>, centinela: string)
  {
    v.Some? && v.value != "" && v.value != centinela
  }

  /** The text search applies when its value is truthy. */
  predicate Buscando(busqueda: Option<string>)
  {
    busqueda.Some? && busqueda.value != ""
  }

  /** `df[col] == v` on one record: a missing cell is NaN and never equal. */
  predicate IgualEn(f: Dict, col: string, v: string)
  {
    col in f && f[col] == JStr(v)
  }

  /** `df[col].str.lower().str.contains(texto, na=False)` on one record. */
  predicate TextoEn(f: Dict, col: string, texto: string)
  {
    col in f && f[col].JStr? && Contains(Lower(f[col].s), texto)
  }

  predicate Menciona(f: Dict, texto: string)
  {
    TextoEn(f, "cargo", texto) || TextoEn(f, "descripcionarea", texto) || TextoEn(f, "descdistrito", texto)
  }

  /** `finoferta >= t`; a missing or non-date cell compares false. */
  predicate TerminaDesde(f: Dict, t: real)
  {
    "finoferta" in f && f["finoferta"].JNum? && f["finoferta"].r >= t
  }

  /** `finoferta <= t`. */
  predicate TerminaHasta(f: Dict, t: real)
  {
    "finoferta" in f && f["finoferta"].JNum? && f["finoferta"].r <= t
  }

  // The tests handed to the filter, one per kind of step.

  function EsIgual(col: string, v: string): Dict -> bool
  {
    (f: Dict) => IgualEn(f, col, v)
  }

  function Busca(texto: string): Dict -> bool
  {
    (f: Dict) => Menciona(f, texto)
  }

  function Desde(t: real): Dict -> bool
  {
    (f: Dict) => TerminaDesde(f, t)
  }

  function Hasta(t: real): Dict -> bool
  {
    (f: Dict) => TerminaHasta(f, t)
  }

  /** One equality step; selecting a missing column raises KeyError. */
  function PorCampo(s: seq<Dict>, cols: set<string>, col: string, v: Option<string>, centinela: string)
    : Result<seq<Dict>, Error>
  {
    if !Activo(v, centinela) then Success(s)
    else if col !in cols then Failure(KeyError(col))
    else Success(Seqs.Filter(s, EsIgual(col, v.value)))
  }

  /** The text step: the three columns are selected in order. */
  function PorTexto(s: seq<Dict>, cols: set<string>, busqueda: Option<string>): Result<seq<Dict>, Error>
  {
    if !Buscando(busqueda) then Success(s)
    else if "cargo" !in cols then Failure(KeyError("cargo"))
    else if "descripcionarea" !in cols then Failure(KeyError("descripcionarea"))
    else if "descdistrito" !in cols then Failure(KeyError("descdistrito"))
    else Success(Seqs.Filter(s, Busca(Lower(busqueda.value))))
  }

  /** The date steps run only when the frame has a `finoferta` column. */
  function PorInicio(s: seq<Dict>, cols: set<string>, t: Option<real>): seq<Dict>
  {
    if t.Some? && "finoferta" in cols then Seqs.Filter(s, Desde(t.value)) else s
  }

  function PorFin(s: seq<Dict>, cols: set<string>, t: Option<real>): seq<Dict>
  {
    if t.Some? && "finoferta" in cols then Seqs.Filter(s, Hasta(t.value)) else s
  }

  /** The four equality steps of `filtrar_ofertas`, in source order. */
  function PorCampos(df: seq<Dict>, cols: set<string>, fs: Filtros): Result<seq<Dict>, Error>
  {
    var a :- PorCampo(df, cols, "descnivelmodalidad", fs.modalidad, "Todas");
    var b :- PorCampo(a, cols, "descdistrito", fs.distrito, "Todos");
    var c :- PorCampo(b, cols, "areaincumbencia", fs.areaincumbencia, "Todas");
    PorCampo(c, cols, "estado", fs.estado, "Todos")
  }

  /** `filtrar_ofertas`: the equality steps, the text search, then the date bounds. */
  function Filtrar(df: seq<Dict>, fs: Filtros): Result<seq<Dict>, Error>
  {
    var cols := Columnas(df);
    var d :- PorCampos(df, cols, fs);
    var e :- PorTexto(d, cols, fs.busqueda);
    Success(PorFin(PorInicio(e, cols, fs.fechaInicio), cols, fs.fechaFin))
  }

  // The same filter stated at once: the test a kept record passes, and the
  // columns the active filters need.

  /** An equality condition, trivially met when its filter is off. */
  predicate PasaCampo(f: Dict, col: string, v: Option<string>, centinela: string)
  {
    Activo(v, centinela) ==> IgualEn(f, col, v.value)
  }

  predicate PasaTexto(f: Dict, busqueda: Option<string>)
  {
    Buscando(busqueda) ==> Menciona(f, Lower(busqueda.value))
  }

  predicate PasaInicio(f: Dict, cols: set<string>, t: Option<real>)
  {
    t.Some? && "finoferta" in cols ==> TerminaDesde(f, t.value)
  }

  predicate PasaFin(f: Dict, cols: set<string>, t: Option<real>)
  {
    t.Some? && "finoferta" in cols ==> TerminaHasta(f, t.value)
  }

  /** A record passes every active filter. */
  predicate Cumple(fs: Filtros, cols: set<string>, f: Dict)
  {
    && PasaCampo(f, "descnivelmodalidad", fs.modalidad, "Todas")
    && PasaCampo(f, "descdistrito", fs.distrito, "Todos")
    && PasaCampo(f, "areaincumbencia", fs.areaincumbencia, "Todas")
    && PasaCampo(f, "estado", fs.estado, "Todos")
    && PasaTexto(f, fs.busqueda)
    && PasaInicio(f, cols, fs.fechaInicio)
    && PasaFin(f, cols, fs.fechaFin)
  }

  function Criterio(fs: Filtros, cols: set<string>): Dict -> bool
  {
    (f: Dict) => Cumple(fs, cols, f)
  }

  /** The `n`-th condition of `Cumple`, counting from 0. */
  predicate Pasa(n: nat, fs: Filtros, cols: set<string>, f: Dict)
  {
    match n
    case 0 => PasaCampo(f, "descnivelmodalidad", fs.modalidad, "Todas")
    case 1 => PasaCampo(f, "descdistrito", fs.distrito, "Todos")
    case 2 => PasaCampo(f, "areaincumbencia", fs.areaincumbencia, "Todas")
    case 3 => PasaCampo(f, "estado", fs.estado, "Todos")
    case 4 => PasaTexto(f, fs.busqueda)
    case 5 => PasaInicio(f, cols, fs.fechaInicio)
    case _ => PasaFin(f, cols, fs.fechaFin)
  }

  /** The first `n` conditions. */
  predicate Etapa(n: nat, fs: Filtros, cols: set<string>, f: Dict)
  {
    n == 0 || (Etapa(n - 1, fs, cols, f) && Pasa(n - 1, fs, cols, f))
  }

  function Paso(n: nat, fs: Filtros, cols: set<string>): Dict -> bool
  {
    (f: Dict) => Pasa(n, fs, cols, f)
  }

  function Primeras(n: nat, fs: Filtros, cols: set<string>): Dict -> bool
  {
    (f: Dict) => Etapa(n, fs, cols, f)
  }

  lemma EtapaCompleta(fs: Filtros, cols: set<string>, f: Dict)
    ensures Etapa(7, fs, cols, f) == Cumple(fs, cols, f)
  {
    assert Etapa(1, fs, cols, f) == Pasa(0, fs, cols, f);
    assert Etapa(2, fs, cols, f) == (Etapa(1, fs, cols, f) && Pasa(1, fs, cols, f));
    assert Etapa(3, fs, cols, f) == (Etapa(2, fs, cols, f) && Pasa(2, fs, cols, f));
    assert Etapa(4, fs, cols, f) == (Etapa(3, fs, cols, f) && Pasa(3, fs, cols, f));
    assert Etapa(5, fs, cols, f) == (Etapa(4, fs, cols, f) && Pasa(4, fs, cols, f));
    assert Etapa(6, fs, cols, f) == (Etapa(5, fs, cols, f) && Pasa(5, fs, cols, f));
    assert Etapa(7, fs, cols, f) == (Etapa(6, fs, cols, f) && Pasa(6, fs, cols, f));
  }

  /** Filtering by the first `n` conditions and then by the next one is filtering by `n + 1`. */
  lemma Componer(s: seq<Dict>, n: nat, fs: Filtros, cols: set<string>)
    ensures Seqs.Filter(Seqs.Filter(s, Primeras(n, fs, cols)), Paso(n, fs, cols)) == Seqs.Filter(s, Primeras(n + 1, fs, cols))
  {
    Seqs.FilterFilterCong(s, Primeras(n, fs, cols), Paso(n, fs, cols), Primeras(n + 1, fs, cols));
  }

  /** An equality step keeps the records meeting its condition, or fails on a missing column. */
  lemma PorCampoPaso(s: seq<Dict>, cols: set<string>, col: string, v: Option<string>, centinela: string,
                     q: Dict -> bool)
    requires forall f :: q(f) == PasaCampo(f, col, v, centinela)
    ensures PorCampo(s, cols, col, v, centinela).Success? <==> !Activo(v, centinela) || col in cols
    ensures PorCampo(s, cols, col, v, centinela).Success? ==>
      PorCampo(s, cols, col, v, centinela).value == Seqs.Filter(s, q)
  {
    if !Activo(v, centinela) {
      Seqs.FilterAll(s, q);
    } else if col in cols {
      Seqs.FilterCong(s, EsIgual(col, v.value), q);
    }
  }

  lemma PorTextoPaso(s: seq<Dict>, cols: set<string>, busqueda: Option<string>, q: Dict -> bool)
    requires forall f :: q(f) == PasaTexto(f, busqueda)
    ensures PorTexto(s, cols, busqueda).Success? ==> PorTexto(s, cols, busqueda).value == Seqs.Filter(s, q)
  {
    if !Buscando(busqueda) {
      Seqs.FilterAll(s, q);
    } else if PorTexto(s, cols, busqueda).Success? {
      Seqs.FilterCong(s, Busca(Lower(busqueda.value)), q);
    }
  }

  lemma PorInicioPaso(s: seq<Dict>, cols: set<string>, t: Option<real>, q: Dict -> bool)
    requires forall f :: q(f) == PasaInicio(f, cols, t)
    ensures PorInicio(s, cols, t) == Seqs.Filter(s, q)
  {
    if t.Some? && "finoferta" in cols {
      Seqs.FilterCong(s, Desde(t.value), q);
    } else {
      Seqs.FilterAll(s, q);
    }
  }

  lemma PorFinPaso(s: seq<Dict>, cols: set<string>, t: Option<real>, q: Dict -> bool)
    requires forall f :: q(f) == PasaFin(f, cols, t)
    ensures PorFin(s, cols, t) == Seqs.Filter(s, q)
  {
    if t.Some? && "finoferta" in cols {
      Seqs.FilterCong(s, Hasta(t.value), q);
    } else {
      Seqs.FilterAll(s, q);
    }
  }

  /** An equality step applied after the first `n` conditions gives the first `n + 1`. */
  lemma Avanzar(df: seq<Dict>, s: seq<Dict>, n: nat, fs: Filtros, cols: set<string>,
                col: string, v: Option<string>, centinela: string)
    requires s == Seqs.Filter(df, Primeras(n, fs, cols))
    requires forall f :: Pasa(n, fs, cols, f) == PasaCampo(f, col, v, centinela)
    requires PorCampo(s, cols, col, v, centinela).Success?
    ensures PorCampo(s, cols, col, v, centinela).value == Seqs.Filter(df, Primeras(n + 1, fs, cols))
  {
    PorCampoPaso(s, cols, col, v, centinela, Paso(n, fs, cols));
    Componer(df, n, fs, cols);
  }

  /** The equality steps keep the records meeting the first four conditions. */
  lemma PorCamposEsUnFiltro(df: seq<Dict>, cols: set<string>, fs: Filtros)
    ensures var r := PorCampos(df, cols, fs);
      r.Success? ==> r.value == Seqs.Filter(df, Primeras(4, fs, cols))
  {
    if PorCampos(df, cols, fs).Success? {
      var a := PorCampo(df, cols, "descnivelmodalidad", fs.modalidad, "Todas").value;
      var b := PorCampo(a, cols, "descdistrito", fs.distrito, "Todos").value;
      var c := PorCampo(b, cols, "areaincumbencia", fs.areaincumbencia, "Todas").value;
      Seqs.FilterAll(df, Primeras(0, fs, cols));
      Avanzar(df, df, 0, fs, cols, "descnivelmodalidad", fs.modalidad, "Todas");
      Avanzar(df, a, 1, fs, cols, "descdistrito", fs.distrito, "Todos");
      Avanzar(df, b, 2, fs, cols, "areaincumbencia", fs.areaincumbencia, "Todas");
      Avanzar(df, c, 3, fs, cols, "estado", fs.estado, "Todos");
    }
  }

  /**
   * The filter keeps, in their original order, exactly the records that
   * pass every active condition.
   */
  lemma FiltrarEsUnFiltro(df: seq<Dict>, fs: Filtros)
    ensures var r := Filtrar(df, fs);
      r.Success? ==> r.value == Seqs.Filter(df, Criterio(fs, Columnas(df)))
  {
    var cols := Columnas(df);
    if Filtrar(df, fs).Success? {
      var d := PorCampos(df, cols, fs).value;
      var e := PorTexto(d, cols, fs.busqueda).value;
      var g := PorInicio(e, cols, fs.fechaInicio);
      assert Filtrar(df, fs).value == PorFin(g, cols, fs.fechaFin);
      PorCamposEsUnFiltro(df, cols, fs);
      PorTextoPaso(d, cols, fs.busqueda, Paso(4, fs, cols));
      Componer(df, 4, fs, cols);
      PorInicioPaso(e, cols, fs.fechaInicio, Paso(5, fs, cols));
      Componer(df, 5, fs, cols);
      PorFinPaso(g, cols, fs.fechaFin, Paso(6, fs, cols));
      Componer(df, 6, fs, cols);
      forall i | 0 <= i < |df| ensures Primeras(7, fs, cols)(df[i]) == Criterio(fs, cols)(df[i]) {
        EtapaCompleta(fs, cols, df[i]);
      }
      Seqs.FilterCong(df, Primeras(7, fs, cols), Criterio(fs, cols));
    }
  }

  /** A column that is required only when its filter is active. */
  function Si(activo: bool, col: string): seq<string>
  {
    if activo then [col] else []
  }

  /** The columns the active filters select, in the order the source selects them. */
  function Requeridas(fs: Filtros): seq<string>
  {
    Si(Activo(fs.modalidad, "Todas"), "descnivelmodalidad")
    + Si(Activo(fs.distrito, "Todos"), "descdistrito")
    + Si(Activo(fs.areaincumbencia, "Todas"), "areaincumbencia")
    + Si(Activo(fs.estado, "Todos"), "estado")
    + Si(Buscando(fs.busqueda), "cargo")
    + Si(Buscando(fs.busqueda), "descripcionarea")
    + Si(Buscando(fs.busqueda), "descdistrito")
  }

  function Falta(cols: set<string>): string -> bool
  {
    c => c !in cols
  }

  /** The first required column the frame lacks. */
  function PrimeraFaltante(fs: Filtros, cols: set<string>): Option<string>
  {
    Seqs.Find(Requeridas(fs), Falta(cols))
  }

  lemma FindSi(activo: bool, col: string, cols: set<string>)
    ensures Seqs.Find(Si(activo, col), Falta(cols)) == if activo && col !in cols then Some(col) else None
  {
    if activo {
      assert [col][1..] == [];
    }
  }

  /** `PrimeraFaltante` read segment by segment. */
  lemma PrimeraFaltantePorPartes(fs: Filtros, cols: set<string>)
    ensures PrimeraFaltante(fs, cols) ==
      if Activo(fs.modalidad, "Todas") && "descnivelmodalidad" !in cols then Some("descnivelmodalidad")
      else if Activo(fs.distrito, "Todos") && "descdistrito" !in cols then Some("descdistrito")
      else if Activo(fs.areaincumbencia, "Todas") && "areaincumbencia" !in cols then Some("areaincumbencia")
      else if Activo(fs.estado, "Todos") && "estado" !in cols then Some("estado")
      else if Buscando(fs.busqueda) && "cargo" !in cols then Some("cargo")
      else if Buscando(fs.busqueda) && "descripcionarea" !in cols then Some("descripcionarea")
      else if Buscando(fs.busqueda) && "descdistrito" !in cols then Some("descdistrito")
      else None
  {
    var p := Falta(cols);
    var s1 := Si(Activo(fs.modalidad, "Todas"), "descnivelmodalidad");
    var s2 := Si(Activo(fs.distrito, "Todos"), "descdistrito");
    var s3 := Si(Activo(fs.areaincumbencia, "Todas"), "areaincumbencia");
    var s4 := Si(Activo(fs.estado, "Todos"), "estado");
    var s5 := Si(Buscando(fs.busqueda), "cargo");
    var s6 := Si(Buscando(fs.busqueda), "descripcionarea");
    var s7 := Si(Buscando(fs.busqueda), "descdistrito");
    FindSi(Activo(fs.modalidad, "Todas"), "descnivelmodalidad", cols);
    FindSi(Activo(fs.distrito, "Todos"), "descdistrito", cols);
    FindSi(Activo(fs.areaincumbencia, "Todas"), "areaincumbencia", cols);
    FindSi(Activo(fs.estado, "Todos"), "estado", cols);
    FindSi(Buscando(fs.busqueda), "cargo", cols);
    FindSi(Buscando(fs.busqueda), "descripcionarea", cols);
    FindSi(Buscando(fs.busqueda), "descdistrito", cols);
    Seqs.FindAppend(s1, s2, p);
    Seqs.FindAppend(s1 + s2, s3, p);
    Seqs.FindAppend(s1 + s2 + s3, s4, p);
    Seqs.FindAppend(s1 + s2 + s3 + s4, s5, p);
    Seqs.FindAppend(s1 + s2 + s3 + s4 + s5, s6, p);
    Seqs.FindAppend(s1 + s2 + s3 + s4 + s5 + s6, s7, p);
  }

  /**
   * The filter fails exactly when an active filter needs a column the frame
   * lacks, and then with the KeyError of the first such column in the order
   * the source selects them.
   */
  lemma FiltrarErrores(df: seq<Dict>, fs: Filtros)
    ensures var r := Filtrar(df, fs); var m := PrimeraFaltante(fs, Columnas(df));
      && (r.Failure? <==> m.Some?)
      && (r.Failure? ==> r.error == KeyError(m.value))
  {
    PrimeraFaltantePorPartes(fs, Columnas(df));
  }

  /** Absent, empty and sentinel values switch their filter off; with all off the input comes back. */
  lemma FiltrarSinFiltros(df: seq<Dict>, fs: Filtros)
    requires !Activo(fs.modalidad, "Todas") && !Activo(fs.distrito, "Todos")
    requires !Activo(fs.areaincumbencia, "Todas") && !Activo(fs.estado, "Todos")
    requires !Buscando(fs.busqueda) && fs.fechaInicio.None? && fs.fechaFin.None?
    ensures Filtrar(df, fs) == Success(df)
  {
  }

  /**
   * A successful filter returns an order-preserving subsequence of the frame
   * holding every record that passes, as often as it occurs, and no other.
   */
  lemma FiltrarSubsecuencia(df: seq<Dict>, fs: Filtros)
    ensures var r := Filtrar(df, fs);
      r.Success? ==>
        && Seqs.IsSubseq(r.value, df)
        && forall f :: multiset(r.value)[f] == if Cumple(fs, Columnas(df), f) then multiset(df)[f] else 0
  {
    FiltrarEsUnFiltro(df, fs);
    Seqs.FilterSubseq(df, Criterio(fs, Columnas(df)));
    Seqs.FilterMultiset(df, Criterio(fs, Columnas(df)));
  }

  /** Date bounds are inclusive: a record ending exactly on a bound is kept by it. */
  lemma FechasInclusivas(fs: Filtros, cols: set<string>, f: Dict)
    requires "finoferta" in f && f["finoferta"].JNum?
    requires fs.fechaInicio == Some(f["finoferta"].r) && fs.fechaFin == Some(f["finoferta"].r)
    ensures PasaInicio(f, cols, fs.fechaInicio) && PasaFin(f, cols, fs.fechaFin)
  {
  }

  // ---------------------------------------------------------------
  // load_cargos
  // ---------------------------------------------------------------

  /** `for cargo in grupo: cargo['tipo'] = tipo; cargos.append(cargo)`; a non-dict item raises TypeError. */
  function Etiquetar(items: seq<Json>, tipo: string): (r: Result<seq<Json>, Error>)
    decreases |items|
  {
    if items == [] then Success([])
    else
      var previos :- Etiquetar(items[..|items| - 1], tipo);
      var item := items[|items| - 1];
      if !item.JObj? then Failure(TypeError)
      else Success(previos + [JObj(item.fields["tipo" := JStr(tipo)])])
  }

  /** One group of a dict root; a missing key contributes nothing. */
  function Grupo(data: map<string, Json>, clave: string, tipo: string): Result<seq<Json>, Error>
  {
    if clave !in data then Success([])
    else
      var items :- Elements(data[clave]);
      Etiquetar(items, tipo)
  }

  /** The dict-root branch: tagged habilitantes, then tagged bonificantes. */
  function Agrupados(data: map<string, Json>): Result<seq<Json>, Error>
  {
    var h :- Grupo(data, "habilitantes", "habilitante");
    var b :- Grupo(data, "bonificantes", "bonificante");
    Success(h + b)
  }

  const MetadataVacia: Json := JObj(map[])

  /**
   * `load_cargos` as written: the records handed to the data frame and the
   * metadata. `data.get('metadata', {})` runs before the shape test, so every
   * root that is not a dict raises AttributeError there.
   */
  function CargarCargosTalCual(files: Files, archivo: string): Result<(seq<Json>, Json), Error>
  {
    if archivo !in files then Success(([], MetadataVacia))
    else
      var data := files[archivo];
      if !data.JObj? then Failure(AttributeError)
      else
        var metadata := Get(data.fields, "metadata", MetadataVacia);
        var registros :- Agrupados(data.fields);
        Success((registros, metadata))
  }

  /**
   * `load_cargos` as its shape detection intends: a flat list is taken as it
   * is, a dict is tagged by group, anything else gives an empty frame.
   */
  function CargarCargos(files: Files, archivo: string): Result<(seq<Json>, Json), Error>
  {
    if archivo !in files then Success(([], MetadataVacia))
    else
      match files[archivo]
      case JArr(items) => Success((items, MetadataVacia))
      case JObj(fields) =>
        var registros :- Agrupados(fields);
        Success((registros, Get(fields, "metadata", MetadataVacia)))
      case _ => Success(([], MetadataVacia))
  }

  /**
   * As written, a flat-list catalog, including one written by
   * `CargoRepository.save`, never loads: it fails with AttributeError.
   */
  lemma ListaFallaTalCual(files: Files, archivo: string, cs: seq<Cargo>)
    ensures var f := files[archivo := JArr(ToDicts(cs))];
      && CatalogoDeArchivo(f, archivo) == Success(cs)
      && CargarCargosTalCual(f, archivo) == Failure(AttributeError)
  {
    FlatCatalogRoundTrip(cs);
  }

  /**
   * The intended loader gives a flat list's records unchanged with empty
   * metadata, and agrees with the code as written on every other outcome the
   * code reaches: a missing file or a dict root.
   */
  lemma CargarCargosCorregido(files: Files, archivo: string)
    ensures archivo in files && files[archivo].JArr? ==>
      CargarCargos(files, archivo) == Success((files[archivo].items, MetadataVacia))
    ensures archivo !in files || files[archivo].JObj? ==>
      CargarCargos(files, archivo) == CargarCargosTalCual(files, archivo)
    ensures CargarCargosTalCual(files, archivo).Success? ==>
      CargarCargos(files, archivo) == CargarCargosTalCual(files, archivo)
  {
  }

  /** Tagging keeps every record and its fields, adds `tipo`, and fails on the first non-dict. */
  lemma {:induction false} EtiquetarForma(items: seq<Json>, tipo: string)
    ensures var r := Etiquetar(items, tipo);
      r.Success? <==> forall i :: 0 <= i < |items| ==> items[i].JObj?
    ensures var r := Etiquetar(items, tipo);
      r.Failure? ==> r.error == TypeError
    ensures var r := Etiquetar(items, tipo);
      r.Success? ==>
        && |r.value| == |items|
        && forall i :: 0 <= i < |items| ==>
          r.value[i] == JObj(items[i].fields["tipo" := JStr(tipo)])
    decreases |items|
  {
    if items != [] {
      var p := items[..|items| - 1];
      EtiquetarForma(p, tipo);
      forall i | 0 <= i < |p| ensures items[i] == p[i] { }
    }
  }

  /**
   * On a dict root, a missing group counting as empty, the records are the
   * habilitantes tagged 'habilitante' followed by the bonificantes tagged
   * 'bonificante', with the root's `metadata` (or `{}`). Tagging an entry
   * that is not a dict is the TypeError of `cargo['tipo'] = ...`.
   */
  lemma CargarCargosAgrupados(files: Files, archivo: string, hs: seq<Json>, bs: seq<Json>)
    requires archivo in files && files[archivo].JObj?
    requires var d := files[archivo].fields;
      && ("habilitantes" in d ==> d["habilitantes"] == JArr(hs)) && ("habilitantes" !in d ==> hs == [])
      && ("bonificantes" in d ==> d["bonificantes"] == JArr(bs)) && ("bonificantes" !in d ==> bs == [])
    ensures var r := CargarCargos(files, archivo);
      r.Success? <==> (forall i :: 0 <= i < |hs| ==> hs[i].JObj?) && (forall i :: 0 <= i < |bs| ==> bs[i].JObj?)
    ensures var r := CargarCargos(files, archivo);
      r.Failure? ==> r.error == TypeError
    ensures var r := CargarCargos(files, archivo);
      r.Success? ==>
        && |r.value.0| == |hs| + |bs|
        && (forall i :: 0 <= i < |hs| ==> r.value.0[i] == JObj(hs[i].fields["tipo" := JStr("habilitante")]))
        && (forall i :: 0 <= i < |bs| ==> r.value.0[|hs| + i] == JObj(bs[i].fields["tipo" := JStr("bonificante")]))
        && r.value.1 == Get(files[archivo].fields, "metadata", MetadataVacia)
  {
    AgrupadosDe(files[archivo].fields, hs, bs);
    EtiquetadosSeguidos(hs, bs);
  }

  /** Both groups tagged, one after the other, entry by entry. */
  lemma EtiquetadosSeguidos(hs: seq<Json>, bs: seq<Json>)
    ensures var h, b := Etiquetar(hs, "habilitante"), Etiquetar(bs, "bonificante");
      && (h.Failure? ==> h.error == TypeError)
      && (b.Failure? ==> b.error == TypeError)
      && (h.Success? && b.Success? <==>
            (forall i :: 0 <= i < |hs| ==> hs[i].JObj?) && (forall i :: 0 <= i < |bs| ==> bs[i].JObj?))
      && (h.Success? && b.Success? ==>
            var r := h.value + b.value;
            && |r| == |hs| + |bs|
            && (forall i :: 0 <= i < |hs| ==> r[i] == JObj(hs[i].fields["tipo" := JStr("habilitante")]))
            && (forall i :: 0 <= i < |bs| ==> r[|hs| + i] == JObj(bs[i].fields["tipo" := JStr("bonificante")])))
  {
    EtiquetarForma(hs, "habilitante");
    EtiquetarForma(bs, "bonificante");
    var h, b := Etiquetar(hs, "habilitante"), Etiquetar(bs, "bonificante");
    if h.Success? && b.Success? {
      var r := h.value + b.value;
      forall i | 0 <= i < |bs|
        ensures r[|hs| + i] == JObj(bs[i].fields["tipo" := JStr("bonificante")])
      {
        assert r[|hs| + i] == b.value[i];
      }
    }
  }

  /** The dict-root branch is the tagging of the first group, then of the second. */
  lemma AgrupadosDe(d: map<string, Json>, hs: seq<Json>, bs: seq<Json>)
    requires ("habilitantes" in d ==> d["habilitantes"] == JArr(hs)) && ("habilitantes" !in d ==> hs == [])
    requires ("bonificantes" in d ==> d["bonificantes"] == JArr(bs)) && ("bonificantes" !in d ==> bs == [])
    ensures Agrupados(d) ==
              var h, b := Etiquetar(hs, "habilitante"), Etiquetar(bs, "bonificante");
              if h.Failure? then Failure(h.error) else if b.Failure? then Failure(b.error)
              else Success(h.value + b.value)
  {
    assert Grupo(d, "habilitantes", "habilitante") == Etiquetar(hs, "habilitante");
    assert Grupo(d, "bonificantes", "bonificante") == Etiquetar(bs, "bonificante");
  }

  /** The `tipo` tag does not disturb reading a record as a cargo. */
  lemma FromDictEtiquetado(item: Json, tipo: string)
    requires item.JObj?
    ensures FromDict(JObj(item.fields["tipo" := JStr(tipo)])) == FromDict(item)
  {
    var t := item.fields["tipo" := JStr(tipo)];
    assert "modalidad" in t <==> "modalidad" in item.fields;
    assert "codigo" in t <==> "codigo" in item.fields;
    assert "area" in t <==> "area" in item.fields;
    assert Get(t, "valor", ValorPorDefecto) == Get(item.fields, "valor", ValorPorDefecto);
  }

  /**
   * The dashboard and the repository read a grouped catalog alike: when the
   * repository loads it, the dashboard's records are as many, and each reads
   * back as the repository's cargo at the same position.
   */
  lemma DashboardCoincideConRepositorio(files: Files, archivo: string, hs: seq<Json>, bs: seq<Json>)
    requires archivo in files && files[archivo].JObj?
    requires var d := files[archivo].fields;
      && ("habilitantes" in d ==> d["habilitantes"] == JArr(hs)) && ("habilitantes" !in d ==> hs == [])
      && ("bonificantes" in d ==> d["bonificantes"] == JArr(bs)) && ("bonificantes" !in d ==> bs == [])
    requires CatalogoDeArchivo(files, archivo).Success?
    ensures var r := CargarCargos(files, archivo);
      var cs := CatalogoDeArchivo(files, archivo).value;
      && r.Success? && |r.value.0| == |cs|
      && forall i :: 0 <= i < |cs| ==> FromDict(r.value.0[i]) == Success(cs[i])
  {
    var cs := CatalogoDeArchivo(files, archivo).value;
    GroupedCatalogOrder(files[archivo], hs, bs);
    var ch, cb := FromDictAll(hs), FromDictAll(bs);
    assert forall i :: 0 <= i < |hs| ==> hs[i].JObj? by {
      forall i | 0 <= i < |hs| ensures hs[i].JObj? {
        assert FromDict(hs[i]).Success?;
      }
    }
    assert forall i :: 0 <= i < |bs| ==> bs[i].JObj? by {
      forall i | 0 <= i < |bs| ensures bs[i].JObj? {
        assert FromDict(bs[i]).Success?;
      }
    }
    CargarCargosAgrupados(files, archivo, hs, bs);
    var rs := CargarCargos(files, archivo).value.0;
    forall i | 0 <= i < |cs| ensures FromDict(rs[i]) == Success(cs[i]) {
      if i < |hs| {
        FromDictEtiquetado(hs[i], "habilitante");
      } else {
        FromDictEtiquetado(bs[i - |hs|], "bonificante");
      }
    }
  }

  /** The tagging loop of one group. */
  method EtiquetarGrupo(items: seq<Json>, tipo: string) returns (r: Result<seq<Json>, Error>)
    ensures r == Etiquetar(items, tipo)
  {
    var cargos: seq<Json> := [];
    for i := 0 to |items|
      invariant Etiquetar(items[..i], tipo) == Success(cargos)
    {
      assert items[..i + 1][..i] == items[..i];
      var cargo := items[i];
      if !cargo.JObj? {
        EtiquetarForma(items, tipo);
        return Failure(TypeError);
      }
      cargos := cargos + [JObj(cargo.fields["tipo" := JStr(tipo)])];
    }
    assert items[..|items|] == items;
    r := Success(cargos);
  }

  /** `load_cargos`, with the flat-list branch reachable. */
  method LoadCargos(files: Files, archivo: string) returns (r: Result<(seq<Json>, Json), Error>)
    ensures r == CargarCargos(files, archivo)
  {
    if archivo !in files {
      return Success(([], MetadataVacia));
    }
    var data := files[archivo];
    match data {
      case JArr(items) =>
        r := Success((items, MetadataVacia));
      case JObj(fields) =>
        var metadata := Get(fields, "metadata", MetadataVacia);
        var habilitantes: seq<Json> := [];
        if "habilitantes" in fields {
          var items := Elements(fields["habilitantes"]);
          if items.Failure? {
            return Failure(items.error);
          }
          var h := EtiquetarGrupo(items.value, "habilitante");
          if h.Failure? {
            return Failure(h.error);
          }
          habilitantes := h.value;
        }
        var bonificantes: seq<Json> := [];
        if "bonificantes" in fields {
          var items := Elements(fields["bonificantes"]);
          if items.Failure? {
            return Failure(items.error);
          }
          var b := EtiquetarGrupo(items.value, "bonificante");
          if b.Failure? {
            return Failure(b.error);
          }
          bonificantes := b.value;
        }
        var cargos := habilitantes + bonificantes;
        r := Success((cargos, metadata));
      case _ =>
        r := Success(([], MetadataVacia));
    }
  }

  // ---------------------------------------------------------------
  // format_oferta_detalle
  // ---------------------------------------------------------------

  /** Each label of the detail card and the column it shows. */
  const CampoDe: map<string, string> := map[
    "Cargo" := "cargo",
    "Descripci\U{F3}n" := "descripcionarea",
    "Modalidad" := "descnivelmodalidad",
    "Distrito" := "descdistrito",
    "Escuela" := "escuela",
    "Domicilio" := "domiciliodesempeno",
    "Turno" := "turno",
    "Jornada" := "jornada",
    "Horas/M\U{F3}dulos" := "hsmodulos",
    "Estado" := "estado",
    "Inicio oferta" := "iniciooferta",
    "Fin oferta" := "finoferta",
    "Toma de posesi\U{F3}n" := "tomaposesion",
    "Tipo oferta" := "tipooferta",
    "Observaciones" := "observaciones"]

  /** `oferta.get(col, 'N/A')` on a row of `df`: 'N/A' only when the frame has no such column. */
  function ValorDe(df: seq<Dict>, fila: Dict, col: string): Celda
  {
    if col !in Columnas(df) then Val(JStr("N/A")) else if col in fila then Val(fila[col]) else NaN
  }

  /** `format_oferta_detalle`. */
  function Detalle(df: seq<Dict>, fila: Dict): map<string, Celda>
  {
    map l | l in CampoDe :: ValorDe(df, fila, CampoDe[l])
  }

  /**
   * The card always has the same fifteen labels; a label shows 'N/A' when
   * its column is absent from the frame, the record's value when present,
   * and NaN when the frame has the column but this record does not.
   */
  lemma DetalleForma(df: seq<Dict>, fila: Dict)
    ensures Detalle(df, fila).Keys == CampoDe.Keys
    ensures forall l | l in CampoDe ::
      var col := CampoDe[l];
      && (col !in Columnas(df) ==> Detalle(df, fila)[l] == Val(JStr("N/A")))
      && (col in Columnas(df) && col in fila ==> Detalle(df, fila)[l] == Val(fila[col]))
      && (col in Columnas(df) && col !in fila ==> Detalle(df, fila)[l] == NaN)
  {
  }

  /** A record of a frame that holds every column shows its own values and no 'N/A' placeholder. */
  lemma DetalleSinFaltantes(df: seq<Dict>, i: int)
    requires 0 <= i < |df|
    requires forall l | l in CampoDe :: CampoDe[l] in df[i] && df[i][CampoDe[l]] != JStr("N/A")
    ensures forall l | l in CampoDe :: Detalle(df, df[i])[l] == Val(df[i][CampoDe[l]]) != Val(JStr("N/A"))
  {
    forall l | l in CampoDe ensures CampoDe[l] in Columnas(df) {
      assert CampoDe[l] in df[i];
    }
  }
}
