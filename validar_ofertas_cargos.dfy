/**
 * Validation of extracted offers against the catalog
 * (validar_ofertas_cargos.py): each offer is looked up by its `cargo` text
 * (exact area, ignoring case) and, failing that, by its `areaincumbencia`
 * code; the report counts validated offers, and the suggestions list one
 * catalog entry per distinct unvalidated (cargo, code, modalidad) triple.
 */
module ValidarOfertas {
  import opened Wrappers
  import opened Json
  import opened Text
  import opened Cargos
  import Seqs

  /** A DataFrame cell: the record's value, or NaN where the record lacks a column others have. */
  datatype Celda = Val(j: Json) | NaN

  /** Python truthiness of a cell; NaN is truthy. */
  predicate CeldaTruthy(c: Celda)
  {
    c.NaN? || Truthy(c.j)
  }

  /** The cell holds a string. */
  predicate EsTexto(c: Celda)
  {
    c.Val? && c.j.JStr?
  }

  /** The DataFrame's columns: every key some record has. */
  function Columnas(ofertas: seq<Dict>): set<string>
  {
    set i, k | 0 <= i < |ofertas| && k in ofertas[i] :: k
  }

  /** `row[k]`: KeyError when no record has the column. */
  function CeldaDe(ofertas: seq<Dict>, row: Dict, k: string): Result<Celda, Error>
  {
    if k !in Columnas(ofertas) then Failure(KeyError(k))
    else if k in row then Success(Val(row[k])) else Success(NaN)
  }

  /** `row.get(k, '')`. */
  function CeldaGet(ofertas: seq<Dict>, row: Dict, k: string): Celda
  {
    if k !in Columnas(ofertas) then Val(JStr("")) else if k in row then Val(row[k]) else NaN
  }

  /**
   * The catalog entry an offer validates against: the first with that area,
   * else, when the code is truthy, the first with that code. A truthy code
   * that is not a string fails on `.lower()` as soon as there is a cargo to
   * compare with.
   */
  function Coincidencia(cargos: seq<Cargo>, cargo: string, codigo: Celda): Result<Option<Cargo>, Error>
  {
    var porArea := CargoConArea(cargos, cargo);
    if porArea.Some? || !CeldaTruthy(codigo) then Success(porArea)
    else if EsTexto(codigo) then Success(CargoConCodigo(cargos, codigo.j.s))
    else if cargos == [] then Success(None)
    else Failure(AttributeError)
  }

  /** One row of the validation report. */
  datatype Resultado = Resultado(ige: Celda, cargoOferta: string, codigoOferta: Celda,
                                 distrito: Celda, modalidad: Celda, cargoConocido: Option<Cargo>)
  {
    predicate Validado() { cargoConocido.Some? }
  }

  /** The report row of one offer, failing as the loop body does. */
  function ResultadoDe(cargos: seq<Cargo>, ofertas: seq<Dict>, row: Dict): Result<Resultado, Error>
  {
    var cargoOferta :- CeldaDe(ofertas, row, "cargo");
    var areaIncumbencia := CeldaGet(ofertas, row, "areaincumbencia");
    if !EsTexto(cargoOferta) then Failure(AttributeError)
    else
      var encontrado :- Coincidencia(cargos, cargoOferta.j.s, areaIncumbencia);
      var ige :- CeldaDe(ofertas, row, "ige");
      var distrito :- CeldaDe(ofertas, row, "descdistrito");
      var modalidad :- CeldaDe(ofertas, row, "descnivelmodalidad");
      Success(Resultado(ige, cargoOferta.j.s, areaIncumbencia, distrito, modalidad, encontrado))
  }

  /** The rows of `rows`, in order; the first failing row ends the run. */
  function Resultados(cargos: seq<Cargo>, ofertas: seq<Dict>, rows: seq<Dict>): Result<seq<Resultado>, Error>
    decreases |rows|
  {
    if rows == [] then Success([])
    else
      var prev :- Resultados(cargos, ofertas, rows[..|rows| - 1]);
      var last :- ResultadoDe(cargos, ofertas, rows[|rows| - 1]);
      Success(prev + [last])
  }

  /** A successful run has one result per row, each the result of that row. */
  lemma {:induction false} ResultadosForma(cargos: seq<Cargo>, ofertas: seq<Dict>, rows: seq<Dict>)
    ensures var r := Resultados(cargos, ofertas, rows);
      r.Success? ==>
        && |r.value| == |rows|
        && forall i :: 0 <= i < |rows| ==> ResultadoDe(cargos, ofertas, rows[i]) == Success(r.value[i])
    decreases |rows|
  {
    var r := Resultados(cargos, ofertas, rows);
    if rows != [] && r.Success? {
      var p := rows[..|rows| - 1];
      var prev := Resultados(cargos, ofertas, p);
      var last := ResultadoDe(cargos, ofertas, rows[|rows| - 1]);
      assert prev.Success? && last.Success? && r.value == prev.value + [last.value];
      ResultadosForma(cargos, ofertas, p);
      forall i | 0 <= i < |rows|
        ensures ResultadoDe(cargos, ofertas, rows[i]) == Success(r.value[i])
      {
        if i < |rows| - 1 {
          assert p[i] == rows[i] && r.value[i] == prev.value[i];
        }
      }
    }
  }

  predicate EsValidado(r: Resultado)
  {
    r.Validado()
  }

  /** `df_resultados['validado'].sum()`. */
  function Validadas(rs: seq<Resultado>): nat
  {
    Seqs.CountWhere(rs, EsValidado)
  }

  /** The figures and rows of the validation report. */
  datatype Reporte = Reporte(total: nat, validadas: nat, noValidadas: int, porcentaje: real,
                             resultados: seq<Resultado>)

  /** Validation of `ofertas` against `cargos`; no rows at all fails on the missing `validado` column. */
  function Validar(cargos: seq<Cargo>, ofertas: seq<Dict>): Result<Reporte, Error>
  {
    var rs :- Resultados(cargos, ofertas, ofertas);
    if rs == [] then Failure(KeyError("validado"))
    else
      var v := Validadas(rs);
      Success(Reporte(|rs|, v, |rs| - v, Porcentual(v, |rs|), rs))
  }

  /** The records of a JSON list of objects. */
  function Campos(items: seq<Json>): (r: Result<seq<Dict>, Error>)
    ensures r.Success? <==> forall i :: 0 <= i < |items| ==> items[i].JObj?
    ensures r.Success? ==> |r.value| == |items| && forall i :: 0 <= i < |items| ==> items[i] == JObj(r.value[i])
  {
    if items == [] then Success([])
    else if !items[0].JObj? then Failure(TypeError)
    else
      var rest :- Campos(items[1..]);
      Success([items[0].fields] + rest)
  }

  /**
   * `pd.DataFrame(lista)`: a list of objects gives one record per object; a
   * list with no object at all gives one row per element under integer
   * column labels, none of which a script reads, so here a record with no
   * named column; a list mixing both is refused.
   */
  function Registros(items: seq<Json>): (r: Result<seq<Dict>, Error>)
  {
    if forall i :: 0 <= i < |items| ==> items[i].JObj? then Campos(items)
    else if forall i :: 0 <= i < |items| ==> !items[i].JObj? then Success(seq(|items|, _ => map[]))
    else Failure(TypeError)
  }

  /** `json.load(...)['ofertas']` as a table: null is the empty frame, a scalar is refused by the constructor. */
  function LeerOfertas(files: Files, archivo: string): Result<seq<Dict>, Error>
  {
    if archivo !in files then Failure(FileNotFound(archivo))
    else
      var data := files[archivo];
      if !data.JObj? then Failure(TypeError)
      else if "ofertas" !in data.fields then Failure(KeyError("ofertas"))
      else match data.fields["ofertas"]
        case JNull => Success([])
        case JArr(items) => Registros(items)
        case JObj(_) => Failure(TypeError)
        case _ => Failure(ValueError)
  }

  /**
   * How the offers table reads: a list of objects as its records, a list of
   * non-objects as that many records without a named column, null as no
   * records, and a mixed list as TypeError.
   */
  lemma RegistrosForma(items: seq<Json>)
    ensures (forall i :: 0 <= i < |items| ==> items[i].JObj?) ==>
      && Registros(items).Success? && |Registros(items).value| == |items|
      && forall i :: 0 <= i < |items| ==> items[i] == JObj(Registros(items).value[i])
    ensures (forall i :: 0 <= i < |items| ==> !items[i].JObj?) ==>
      && Registros(items).Success? && |Registros(items).value| == |items|
      && forall i :: 0 <= i < |items| ==> Registros(items).value[i] == map[]
    ensures Registros(items).Failure? <==>
      exists i, j :: 0 <= i < |items| && 0 <= j < |items| && items[i].JObj? && !items[j].JObj?
    ensures Registros(items).Failure? ==> Registros(items).error == TypeError
  {
  }

  /**
   * Offers with no named column fail at the first row's `cargo` cell, and no
   * offers at all fail at the `validado` column of the empty results.
   */
  lemma SinColumnas(cargos: seq<Cargo>, n: nat)
    ensures Validar(cargos, seq(n, _ => map[])) == Failure(if n == 0 then KeyError("validado") else KeyError("cargo"))
  {
    var ofertas: seq<Dict> := seq(n, _ => map[]);
    assert Columnas(ofertas) == {};
    if n > 0 {
      assert ofertas[..0] == [];
      assert ResultadoDe(cargos, ofertas, ofertas[0]) == Failure(KeyError("cargo"));
      ResultadosFalla(cargos, ofertas, ofertas, 0, KeyError("cargo"));
    }
  }

  /** The whole script: offers file first, then the catalog, then the rows. */
  function ValidarArchivos(files: Files, archivoOfertas: string, archivoCargos: string): Result<Reporte, Error>
  {
    var ofertas :- LeerOfertas(files, archivoOfertas);
    var cargos :- CatalogoDeArchivo(files, archivoCargos);
    Validar(cargos, ofertas)
  }

  /** A row that succeeds extends the run. */
  lemma ResultadosPaso(cargos: seq<Cargo>, ofertas: seq<Dict>, rows: seq<Dict>, i: int,
                       rs: seq<Resultado>, x: Resultado)
    requires 0 <= i < |rows|
    requires Resultados(cargos, ofertas, rows[..i]) == Success(rs)
    requires ResultadoDe(cargos, ofertas, rows[i]) == Success(x)
    ensures Resultados(cargos, ofertas, rows[..i + 1]) == Success(rs + [x])
  {
    assert rows[..i + 1][..i] == rows[..i];
  }

  /** A failing row fails every longer run. */
  lemma {:induction false} ResultadosFalla(cargos: seq<Cargo>, ofertas: seq<Dict>, rows: seq<Dict>, i: int, e: Error)
    requires 0 <= i < |rows|
    requires Resultados(cargos, ofertas, rows[..i]).Success?
    requires ResultadoDe(cargos, ofertas, rows[i]) == Failure(e)
    ensures Resultados(cargos, ofertas, rows) == Failure(e)
    decreases |rows|
  {
    if i < |rows| - 1 {
      assert rows[..|rows| - 1][..i] == rows[..i];
      ResultadosFalla(cargos, ofertas, rows[..|rows| - 1], i, e);
    } else {
      assert rows[..|rows| - 1] == rows[..i];
    }
  }

  /** The file the validation report is written to. */
  const ArchivoReporte := "reporte_validacion_cargos.json"

  /** One element of the report's `resultados` list. */
  function ResultadoJson(r: Resultado): Json
  {
    JObj(map["ige" := CeldaJson(r.ige), "cargo_oferta" := JStr(r.cargoOferta),
             "codigo_oferta" := CeldaJson(r.codigoOferta), "distrito" := CeldaJson(r.distrito),
             "modalidad" := CeldaJson(r.modalidad), "validado" := JBool(r.Validado()),
             "cargo_conocido" := if r.cargoConocido.Some? then ToDict(r.cargoConocido.value) else JNull])
  }

  /** The report document: the counts under `metadata`, then every result row. */
  function DocumentoReporte(rep: Reporte): Json
  {
    JObj(map[
      "metadata" := JObj(map[
        "total_ofertas" := JNum(rep.total as real),
        "ofertas_validadas" := JNum(rep.validadas as real),
        "ofertas_no_validadas" := JNum(rep.noValidadas as real),
        "porcentaje_validadas" := JNum(rep.porcentaje)]),
      "resultados" := JArr(seq(|rep.resultados|, i requires 0 <= i < |rep.resultados| =>
                                 ResultadoJson(rep.resultados[i])))])
  }

  /** The whole script: the report, written to ArchivoReporte, and the files afterwards. */
  function ValidarYGuardar(files: Files, archivoOfertas: string, archivoCargos: string): Result<(Files, Reporte), Error>
  {
    var rep :- ValidarArchivos(files, archivoOfertas, archivoCargos);
    Success((files[ArchivoReporte := DocumentoReporte(rep)], rep))
  }

  /**
   * `validar_ofertas_con_cargos`: loads both files, builds one report row
   * per offer, counts the validated rows and writes the report document.
   * The CSV export is not modelled.
   */
  method ValidarOfertasConCargos(files: Files, archivoOfertas: string, archivoCargos: string)
    returns (r: Result<(Files, Reporte), Error>)
    ensures r == ValidarYGuardar(files, archivoOfertas, archivoCargos)
  {
    var leidas := LeerOfertas(files, archivoOfertas);
    if leidas.Failure? {
      return Failure(leidas.error);
    }
    var ofertas := leidas.value;
    var cargado := CargoRepository.LoadFromFile(archivoCargos, files);
    if cargado.Failure? {
      return Failure(cargado.error);
    }
    var repo := cargado.value;
    assert CatalogoDeArchivo(files, archivoCargos) == Success(repo.cargos);
    var reporte := ValidarTabla(repo, ofertas);
    if reporte.Failure? {
      return Failure(reporte.error);
    }
    r := Success((files[ArchivoReporte := DocumentoReporte(reporte.value)], reporte.value));
  }

  /**
   * The report document holds the report's counts, and one row per result,
   * in order, whose `validado` flag is the result's and whose
   * `cargo_conocido` reads back as the catalog entry found (null when none
   * was).
   */
  lemma DocumentoForma(rep: Reporte)
    ensures var doc := DocumentoReporte(rep);
      var meta := doc.fields["metadata"].fields;
      var items := doc.fields["resultados"].items;
      && meta["total_ofertas"] == JNum(rep.total as real)
      && meta["ofertas_validadas"] == JNum(rep.validadas as real)
      && meta["ofertas_no_validadas"] == JNum(rep.noValidadas as real)
      && |items| == |rep.resultados|
      && forall i :: 0 <= i < |items| ==>
           var ri := rep.resultados[i];
           && items[i].fields["validado"] == JBool(ri.Validado())
           && (if ri.Validado() then FromDict(items[i].fields["cargo_conocido"]) == Success(ri.cargoConocido.value)
               else items[i].fields["cargo_conocido"] == JNull)
  {
    var items := DocumentoReporte(rep).fields["resultados"].items;
    forall i | 0 <= i < |items| && rep.resultados[i].Validado()
      ensures FromDict(items[i].fields["cargo_conocido"]) == Success(rep.resultados[i].cargoConocido.value)
    {
      assert items[i] == ResultadoJson(rep.resultados[i]);
      FromDictToDict(rep.resultados[i].cargoConocido.value);
    }
  }

  /**
   * The report written for a validation: its totals are the offer count and
   * the validated and unvalidated counts, with one row per offer (the i-th
   * row is the i-th offer's result, by ReporteConteos and DocumentoForma).
   */
  lemma ReporteEscrito(cargos: seq<Cargo>, ofertas: seq<Dict>)
    requires Validar(cargos, ofertas).Success?
    ensures var rep := Validar(cargos, ofertas).value;
      var doc := DocumentoReporte(rep);
      var meta := doc.fields["metadata"].fields;
      var items := doc.fields["resultados"].items;
      && meta["total_ofertas"] == JNum(|ofertas| as real)
      && meta["ofertas_validadas"] == JNum(rep.validadas as real)
      && meta["ofertas_no_validadas"] == JNum((|ofertas| - rep.validadas) as real)
      && |items| == |ofertas|
  {
    ReporteConteos(cargos, ofertas);
    DocumentoForma(Validar(cargos, ofertas).value);
  }

  /** The counters of `validar_ofertas_con_cargos`, after its row loop. */
  method ValidarTabla(repo: CargoRepository, ofertas: seq<Dict>) returns (r: Result<Reporte, Error>)
    ensures r == Validar(repo.cargos, ofertas)
  {
    var filas := ValidarFilas(repo, ofertas);
    if filas.Failure? {
      ValidarFalla(repo.cargos, ofertas, filas.error);
      return Failure(filas.error);
    }
    var resultados := filas.value;
    ValidarExito(repo.cargos, ofertas, resultados);
    var total := |resultados|;
    if total == 0 {
      return Failure(KeyError("validado"));
    }
    var validadas := Validadas(resultados);
    var noValidadas := total - validadas;
    r := Success(Reporte(total, validadas, noValidadas, Porcentual(validadas, total), resultados));
  }

  /** The row loop of `validar_ofertas_con_cargos`: one result per offer, or the first error. */
  method ValidarFilas(repo: CargoRepository, ofertas: seq<Dict>) returns (r: Result<seq<Resultado>, Error>)
    ensures r == Resultados(repo.cargos, ofertas, ofertas)
  {
    ghost var cargos := repo.cargos;
    var resultados: seq<Resultado> := [];
    for i := 0 to |ofertas|
      invariant Resultados(cargos, ofertas, ofertas[..i]) == Success(resultados)
    {
      var resultado := ValidarFila(repo, ofertas, ofertas[i]);
      if resultado.Failure? {
        ResultadosFalla(cargos, ofertas, ofertas, i, resultado.error);
        return Failure(resultado.error);
      }
      ResultadosPaso(cargos, ofertas, ofertas, i, resultados, resultado.value);
      resultados := resultados + [resultado.value];
    }
    assert ofertas[..|ofertas|] == ofertas;
    return Success(resultados);
  }

  lemma ValidarExito(cargos: seq<Cargo>, ofertas: seq<Dict>, rs: seq<Resultado>)
    requires Resultados(cargos, ofertas, ofertas) == Success(rs)
    ensures Validar(cargos, ofertas) == if rs == [] then Failure(KeyError("validado")) else
      Success(Reporte(|rs|, Validadas(rs), |rs| - Validadas(rs), Porcentual(Validadas(rs), |rs|), rs))
  {
  }

  lemma ValidarFalla(cargos: seq<Cargo>, ofertas: seq<Dict>, e: Error)
    requires Resultados(cargos, ofertas, ofertas) == Failure(e)
    ensures Validar(cargos, ofertas) == Failure(e)
  {
  }

  /** The body of the validation loop for one row. */
  method ValidarFila(repo: CargoRepository, ofertas: seq<Dict>, row: Dict) returns (r: Result<Resultado, Error>)
    ensures r == ResultadoDe(repo.cargos, ofertas, row)
  {
    var cargoOferta := CeldaDe(ofertas, row, "cargo");
    if cargoOferta.Failure? {
      return Failure(cargoOferta.error);
    }
    var areaIncumbencia := CeldaGet(ofertas, row, "areaincumbencia");
    if !EsTexto(cargoOferta.value) {
      return Failure(AttributeError);
    }
    var cargoEncontrado := repo.BuscarAreaExacta(cargoOferta.value.j.s);
    if cargoEncontrado.None? && CeldaTruthy(areaIncumbencia) {
      if EsTexto(areaIncumbencia) {
        cargoEncontrado := repo.BuscarPorCodigo(areaIncumbencia.j.s);
      } else if repo.cargos != [] {
        return Failure(AttributeError);
      }
    }
    var ige := CeldaDe(ofertas, row, "ige");
    if ige.Failure? {
      return Failure(ige.error);
    }
    var distrito := CeldaDe(ofertas, row, "descdistrito");
    if distrito.Failure? {
      return Failure(distrito.error);
    }
    var modalidad := CeldaDe(ofertas, row, "descnivelmodalidad");
    if modalidad.Failure? {
      return Failure(modalidad.error);
    }
    r := Success(Resultado(ige.value, cargoOferta.value.j.s, areaIncumbencia,
                           distrito.value, modalidad.value, cargoEncontrado));
  }

  /**
   * An offer validates exactly when some cargo has its area (ignoring case),
   * or its code is a non-empty string some cargo has as code (ignoring
   * case); an area match always wins. The lookup fails only for a truthy
   * non-string code with no area match and a non-empty catalog.
   */
  lemma CoincidenciaSii(cargos: seq<Cargo>, cargo: string, codigo: Celda)
    ensures Coincidencia(cargos, cargo, codigo).Failure? <==>
      && (forall i :: 0 <= i < |cargos| ==> !EqualsIgnoreCase(cargos[i].area, cargo))
      && CeldaTruthy(codigo) && !EsTexto(codigo) && cargos != []
    ensures Coincidencia(cargos, cargo, codigo).Success? ==>
      (Coincidencia(cargos, cargo, codigo).value.Some? <==>
        || (exists i :: 0 <= i < |cargos| && EqualsIgnoreCase(cargos[i].area, cargo))
        || (EsTexto(codigo) && codigo.j.s != "" && exists i :: 0 <= i < |cargos| && EsCodigo(cargos[i], codigo.j.s)))
    ensures (exists i :: 0 <= i < |cargos| && EqualsIgnoreCase(cargos[i].area, cargo)) ==>
      Coincidencia(cargos, cargo, codigo) == Success(CargoConArea(cargos, cargo))
  {
  }

  /** A lookup that finds an entry still finds one when the catalog grows at the end. */
  lemma CoincidenciaMonotona(cargos: seq<Cargo>, extra: seq<Cargo>, cargo: string, codigo: Celda)
    requires Coincidencia(cargos, cargo, codigo).Success? && Coincidencia(cargos, cargo, codigo).value.Some?
    ensures Coincidencia(cargos + extra, cargo, codigo).Success?
    ensures Coincidencia(cargos + extra, cargo, codigo).value.Some?
  {
    var todos := cargos + extra;
    if CargoConArea(cargos, cargo).Some? {
      var i :| 0 <= i < |cargos| && EqualsIgnoreCase(cargos[i].area, cargo);
      assert todos[i] == cargos[i];
    } else if CargoConArea(todos, cargo).None? {
      var i :| 0 <= i < |cargos| && EsCodigo(cargos[i], codigo.j.s);
      assert todos[i] == cargos[i];
    }
  }

  /** A catalog with an entry for `area` finds one for it. */
  lemma AreaEncontrada(cargos: seq<Cargo>, c: Cargo, area: string)
    requires c in cargos && EqualsIgnoreCase(c.area, area)
    ensures CargoConArea(cargos, area).Some?
  {
    var i :| 0 <= i < |cargos| && cargos[i] == c;
  }

  /**
   * The report: one row per offer, in order, built from that offer; the
   * validated and unvalidated counts add up to the total, and the
   * percentage is the validated share.
   */
  lemma ReporteConteos(cargos: seq<Cargo>, ofertas: seq<Dict>)
    ensures Validar(cargos, ofertas).Success? ==>
      var rep := Validar(cargos, ofertas).value;
      && rep.total == |ofertas| == |rep.resultados| > 0
      && (forall i :: 0 <= i < |ofertas| ==> ResultadoDe(cargos, ofertas, ofertas[i]) == Success(rep.resultados[i]))
      && rep.validadas == |Seqs.Filter(rep.resultados, EsValidado)| <= rep.total
      && rep.validadas + rep.noValidadas == rep.total
      && 0.0 <= rep.porcentaje <= 100.0
    ensures ofertas == [] ==> Validar(cargos, ofertas) == Failure(KeyError("validado"))
  {
    if Validar(cargos, ofertas).Success? {
      var rs := Resultados(cargos, ofertas, ofertas).value;
      ResultadosForma(cargos, ofertas, ofertas);
      ValidarExito(cargos, ofertas, rs);
      Seqs.CountWhereFilter(rs, EsValidado);
      Porcentaje(Validadas(rs), |rs|);
    }
  }

  lemma Porcentaje(v: nat, t: nat)
    requires 0 < t && v <= t
    ensures 0.0 <= Porcentual(v, t) <= 100.0
  {
    assert v as real / t as real <= 1.0;
  }

  /** One row with a catalog grown so that its `cargo` text has an entry. */
  lemma FilaAmpliada(cargos: seq<Cargo>, extra: seq<Cargo>, ofertas: seq<Dict>, row: Dict, r: Resultado)
    requires ResultadoDe(cargos, ofertas, row) == Success(r)
    requires r.Validado() || exists c :: c in extra && EqualsIgnoreCase(c.area, r.cargoOferta)
    ensures ResultadoDe(cargos + extra, ofertas, row).Success?
    ensures var r' := ResultadoDe(cargos + extra, ofertas, row).value;
      r'.Validado() && r' == r.(cargoConocido := r'.cargoConocido)
  {
    var todos := cargos + extra;
    RowCoincidencia(cargos, ofertas, row, r);
    if r.Validado() {
      CoincidenciaMonotona(cargos, extra, r.cargoOferta, r.codigoOferta);
    } else {
      var c :| c in extra && EqualsIgnoreCase(c.area, r.cargoOferta);
      AreaEncontrada(todos, c, r.cargoOferta);
    }
    var m := Coincidencia(todos, r.cargoOferta, r.codigoOferta);
    assert m.Success? && m.value.Some?;
    CambioDeCatalogo(cargos, todos, ofertas, row, r);
  }

  /** A row that produced `r` read its code cell and matched against the catalog. */
  lemma RowCoincidencia(cargos: seq<Cargo>, ofertas: seq<Dict>, row: Dict, r: Resultado)
    requires ResultadoDe(cargos, ofertas, row) == Success(r)
    ensures r.codigoOferta == CeldaGet(ofertas, row, "areaincumbencia")
    ensures Coincidencia(cargos, r.cargoOferta, r.codigoOferta) == Success(r.cargoConocido)
  {
  }

  /** Another catalog changes only the entry a row finds, as long as the lookup succeeds. */
  lemma CambioDeCatalogo(c1: seq<Cargo>, c2: seq<Cargo>, ofertas: seq<Dict>, row: Dict, r: Resultado)
    requires ResultadoDe(c1, ofertas, row) == Success(r)
    requires Coincidencia(c2, r.cargoOferta, r.codigoOferta).Success?
    ensures ResultadoDe(c2, ofertas, row)
            == Success(r.(cargoConocido := Coincidencia(c2, r.cargoOferta, r.codigoOferta).value))
  {
    var co := CeldaDe(ofertas, row, "cargo");
    assert co.Success? && EsTexto(co.value) && co.value.j.s == r.cargoOferta;
    assert CeldaGet(ofertas, row, "areaincumbencia") == r.codigoOferta;
    assert CeldaDe(ofertas, row, "ige") == Success(r.ige);
    assert CeldaDe(ofertas, row, "descdistrito") == Success(r.distrito);
    assert CeldaDe(ofertas, row, "descnivelmodalidad") == Success(r.modalidad);
  }

  /** Every row validates against a catalog grown with an entry for each unvalidated `cargo`. */
  lemma {:induction false} ResultadosAmpliados(cargos: seq<Cargo>, extra: seq<Cargo>, ofertas: seq<Dict>,
                                               rows: seq<Dict>, rs: seq<Resultado>)
    requires Resultados(cargos, ofertas, rows) == Success(rs)
    requires forall r :: r in rs && !r.Validado() ==> exists c :: c in extra && EqualsIgnoreCase(c.area, r.cargoOferta)
    ensures Resultados(cargos + extra, ofertas, rows).Success?
    ensures var rs' := Resultados(cargos + extra, ofertas, rows).value;
      |rs'| == |rs| && forall i :: 0 <= i < |rs| ==> rs'[i].Validado() && rs'[i] == rs[i].(cargoConocido := rs'[i].cargoConocido)
    decreases |rows|
  {
    if rows != [] {
      var prev := Resultados(cargos, ofertas, rows[..|rows| - 1]).value;
      var last := ResultadoDe(cargos, ofertas, rows[|rows| - 1]).value;
      assert rs == prev + [last];
      ResultadosAmpliados(cargos, extra, ofertas, rows[..|rows| - 1], prev);
      FilaAmpliada(cargos, extra, ofertas, rows[|rows| - 1], last);
    }
  }

  lemma {:induction false} CountWhereTodos(rs: seq<Resultado>)
    requires forall i :: 0 <= i < |rs| ==> rs[i].Validado()
    ensures Validadas(rs) == |rs|
    decreases |rs|
  {
    if rs != [] {
      CountWhereTodos(rs[1..]);
    }
  }

  /**
   * Growing the catalog with an entry for every unvalidated offer's `cargo`
   * text makes every offer validate, with its other report fields unchanged.
   */
  lemma TodasValidadas(cargos: seq<Cargo>, extra: seq<Cargo>, ofertas: seq<Dict>)
    requires Validar(cargos, ofertas).Success?
    requires forall r :: r in Validar(cargos, ofertas).value.resultados && !r.Validado() ==>
               exists c :: c in extra && EqualsIgnoreCase(c.area, r.cargoOferta)
    ensures Validar(cargos + extra, ofertas).Success?
    ensures var rep := Validar(cargos, ofertas).value;
      var rep' := Validar(cargos + extra, ofertas).value;
      && rep'.total == rep.total && rep'.validadas == rep'.total && rep'.noValidadas == 0
      && forall i :: 0 <= i < rep.total ==>
           rep'.resultados[i] == rep.resultados[i].(cargoConocido := rep'.resultados[i].cargoConocido)
  {
    var rs := Validar(cargos, ofertas).value.resultados;
    ResultadosAmpliados(cargos, extra, ofertas, ofertas, rs);
    var rs' := Resultados(cargos + extra, ofertas, ofertas).value;
    CountWhereTodos(rs');
  }

  /** A row of `df_resultados[['cargo_oferta', 'codigo_oferta', 'modalidad']]`. */
  datatype Faltante = Faltante(cargoOferta: string, codigoOferta: Celda, modalidad: Celda)

  function FaltanteDe(r: Resultado): Faltante
  {
    Faltante(r.cargoOferta, r.codigoOferta, r.modalidad)
  }

  predicate NoValidado(r: Resultado)
  {
    !r.Validado()
  }

  /** The triples of the unvalidated rows, in row order. */
  function NoValidados(rs: seq<Resultado>): (f: seq<Faltante>)
    ensures |f| <= |rs|
  {
    var nv := Seqs.Filter(rs, NoValidado);
    Seqs.FilterMultiset(rs, NoValidado);
    seq(|nv|, i requires 0 <= i < |nv| => FaltanteDe(nv[i]))
  }

  /** A suggested catalog entry; `valor` is always 1.0. */
  datatype Sugerencia = Sugerencia(modalidad: Celda, codigo: Celda, area: string, valor: Json)

  /** The suggestion for one missing triple; a falsy code becomes "DESCONOCIDO". */
  function SugerenciaDe(f: Faltante): Sugerencia
  {
    Sugerencia(f.modalidad, if CeldaTruthy(f.codigoOferta) then f.codigoOferta else Val(JStr("DESCONOCIDO")),
               f.cargoOferta, JNum(1.0))
  }

  /** One suggestion per distinct unvalidated triple, in order of first occurrence. */
  function Sugerencias(rs: seq<Resultado>): seq<Sugerencia>
  {
    var d := Seqs.Dedup(NoValidados(rs));
    seq(|d|, i requires 0 <= i < |d| => SugerenciaDe(d[i]))
  }

  /**
   * One suggestion per distinct unvalidated triple, in order of first
   * occurrence; each has a truthy code, the offer's `cargo` text as area and
   * valor 1.0.
   */
  lemma SugerenciasForma(rs: seq<Resultado>)
    ensures var d := Seqs.Dedup(NoValidados(rs));
      && |Sugerencias(rs)| == |d|
      && (forall i, j :: 0 <= i < j < |d| ==> d[i] != d[j])
      && (forall i, j :: 0 <= i < j < |d| ==>
            Seqs.IndexOf(NoValidados(rs), d[i]) < Seqs.IndexOf(NoValidados(rs), d[j]))
      && (forall k :: 0 <= k < |d| ==>
            var s := Sugerencias(rs)[k];
            && s == SugerenciaDe(d[k]) && CeldaTruthy(s.codigo) && s.area == d[k].cargoOferta && s.valor == JNum(1.0))
  {
    Seqs.DedupFirstOccurrenceOrder(NoValidados(rs));
  }

  /** Every unvalidated row has its suggestion. */
  lemma SugerenciasCubren(rs: seq<Resultado>)
    ensures forall r :: r in rs && !r.Validado() ==> SugerenciaDe(FaltanteDe(r)) in Sugerencias(rs)
  {
    var nv := Seqs.Filter(rs, NoValidado);
    Seqs.FilterMultiset(rs, NoValidado);
    var f := NoValidados(rs);
    var d := Seqs.Dedup(f);
    forall r | r in rs && !r.Validado()
      ensures SugerenciaDe(FaltanteDe(r)) in Sugerencias(rs)
    {
      assert r in nv;
      var i :| 0 <= i < |nv| && nv[i] == r;
      assert f[i] == FaltanteDe(r);
      assert FaltanteDe(r) in f;
      assert FaltanteDe(r) in d;
      var k :| 0 <= k < |d| && d[k] == FaltanteDe(r);
      assert Sugerencias(rs)[k] == SugerenciaDe(FaltanteDe(r));
    }
  }

  /** Every suggestion comes from an unvalidated row. */
  lemma SugerenciasDeNoValidadas(rs: seq<Resultado>)
    ensures forall k :: 0 <= k < |Sugerencias(rs)| ==>
      exists r :: r in rs && !r.Validado() && Sugerencias(rs)[k] == SugerenciaDe(FaltanteDe(r))
  {
    var nv := Seqs.Filter(rs, NoValidado);
    Seqs.FilterMultiset(rs, NoValidado);
    var f := NoValidados(rs);
    var d := Seqs.Dedup(f);
    assert |f| == |nv| && forall i :: 0 <= i < |nv| ==> f[i] == FaltanteDe(nv[i]);
    assert |Sugerencias(rs)| == |d|;
    forall k | 0 <= k < |Sugerencias(rs)|
      ensures exists r :: r in rs && !r.Validado() && Sugerencias(rs)[k] == SugerenciaDe(FaltanteDe(r))
    {
      assert d[k] in f;
      var i :| 0 <= i < |f| && f[i] == d[k];
      var r := nv[i];
      assert r in nv;
      assert r in rs && NoValidado(r);
      assert Sugerencias(rs)[k] == SugerenciaDe(d[k]);
      assert d[k] == FaltanteDe(r);
    }
  }

  /** A cell as written by `json.dump`; NaN is written as null here. */
  function CeldaJson(c: Celda): Json
  {
    if c.Val? then c.j else JNull
  }

  /** A suggestion's dict. */
  function SugerenciaJson(s: Sugerencia): Json
  {
    JObj(map["modalidad" := CeldaJson(s.modalidad), "codigo" := CeldaJson(s.codigo),
             "area" := JStr(s.area), "valor" := s.valor])
  }

  /** The suggestions document: a JSON list, one dict per suggestion. */
  function ArchivoSugerencias(rs: seq<Resultado>): Json
  {
    var ss := Sugerencias(rs);
    JArr(seq(|ss|, i requires 0 <= i < |ss| => SugerenciaJson(ss[i])))
  }

  /** The file the suggestions are written to. */
  const ArchivoSugeridos := "cargos_sugeridos.json"

  /**
   * `sugerir_cargos_faltantes`: validates, keeps the distinct unvalidated
   * triples and writes one suggestion per triple.
   */
  method SugerirCargosFaltantes(files: Files, archivoOfertas: string, archivoCargos: string)
    returns (r: Result<Files, Error>)
    ensures ValidarYGuardar(files, archivoOfertas, archivoCargos).Failure? ==>
      r == Failure(ValidarYGuardar(files, archivoOfertas, archivoCargos).error)
    ensures ValidarYGuardar(files, archivoOfertas, archivoCargos).Success? ==>
      var (escritos, rep) := ValidarYGuardar(files, archivoOfertas, archivoCargos).value;
      r == Success(escritos[ArchivoSugeridos := ArchivoSugerencias(rep.resultados)])
  {
    var validado := ValidarOfertasConCargos(files, archivoOfertas, archivoCargos);
    if validado.Failure? {
      return Failure(validado.error);
    }
    var (escritos, reporte) := validado.value;
    var cargosFaltantes := Seqs.Dedup(NoValidados(reporte.resultados));
    var sugerencias: seq<Json> := [];
    for i := 0 to |cargosFaltantes|
      invariant |sugerencias| == i
      invariant forall k :: 0 <= k < i ==> sugerencias[k] == SugerenciaJson(SugerenciaDe(cargosFaltantes[k]))
    {
      var sugerencia := SugerenciaDe(cargosFaltantes[i]);
      sugerencias := sugerencias + [SugerenciaJson(sugerencia)];
    }
    ArchivoSugerenciasDe(reporte.resultados, sugerencias);
    r := Success(escritos[ArchivoSugeridos := JArr(sugerencias)]);
  }

  lemma ArchivoSugerenciasDe(rs: seq<Resultado>, js: seq<Json>)
    requires var d := Seqs.Dedup(NoValidados(rs));
      |js| == |d| && forall k :: 0 <= k < |d| ==> js[k] == SugerenciaJson(SugerenciaDe(d[k]))
    ensures ArchivoSugerencias(rs) == JArr(js)
  {
  }

  /** A suggestion whose modalidad and code are text reads back as a catalog entry. */
  lemma SugerenciaLeida(s: Sugerencia)
    requires EsTexto(s.modalidad) && EsTexto(s.codigo)
    ensures FromDict(SugerenciaJson(s)) == Success(Cargo(s.modalidad.j.s, s.codigo.j.s, s.area, s.valor))
  {
  }

  /**
   * Where every unvalidated offer has a text modalidad and a text or falsy
   * code, the suggestions document loads as a catalog, and appending it to
   * the catalog makes every offer validate.
   */
  lemma SugerenciasCompletanCatalogo(cargos: seq<Cargo>, ofertas: seq<Dict>)
    requires Validar(cargos, ofertas).Success?
    requires forall r :: r in Validar(cargos, ofertas).value.resultados && !r.Validado() ==>
               EsTexto(r.modalidad) && (EsTexto(r.codigoOferta) || !CeldaTruthy(r.codigoOferta))
    ensures CatalogFromRoot(ArchivoSugerencias(Validar(cargos, ofertas).value.resultados)).Success?
    ensures var extra := CatalogFromRoot(ArchivoSugerencias(Validar(cargos, ofertas).value.resultados)).value;
      Validar(cargos + extra, ofertas).Success? && Validar(cargos + extra, ofertas).value.noValidadas == 0
  {
    var rs := Validar(cargos, ofertas).value.resultados;
    var ss := Sugerencias(rs);
    var items := ArchivoSugerencias(rs).items;
    SugerenciasDeNoValidadas(rs);
    SugerenciasCubren(rs);
    forall k | 0 <= k < |items|
      ensures FromDict(items[k]) == Success(Cargo(ss[k].modalidad.j.s, ss[k].codigo.j.s, ss[k].area, ss[k].valor))
    {
      var r :| r in rs && !r.Validado() && ss[k] == SugerenciaDe(FaltanteDe(r));
      SugerenciaLeida(ss[k]);
    }
    var extra := CatalogFromRoot(ArchivoSugerencias(rs)).value;
    forall r | r in rs && !r.Validado()
      ensures exists c :: c in extra && EqualsIgnoreCase(c.area, r.cargoOferta)
    {
      var k :| 0 <= k < |ss| && ss[k] == SugerenciaDe(FaltanteDe(r));
      assert extra[k].area == r.cargoOferta;
      assert extra[k] in extra;
    }
    TodasValidadas(cargos, extra, ofertas);
  }
}
